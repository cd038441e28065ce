/**
 What the tariff engine promises: tier thresholds and monotonicity, the shape
 of the static tables, additive composition, override precedence and
 locality, the silent fallback for unknown periods, and the exceptions
 Python raises on a bad tier or a malformed override.
 */
module PricingProperties {
  import opened PySemantics
  import opened PricingData

  // ----- Tier resolver -------------------------------------------------------

  /** Each tier is exactly a half-open consumption interval. */
  lemma TierIntervals(kwh: real)
    ensures TierIndex(kwh) == 0 <==> kwh < 2900.0
    ensures TierIndex(kwh) == 1 <==> 2900.0 <= kwh < 10000.0
    ensures TierIndex(kwh) == 2 <==> 10000.0 <= kwh < 50000.0
    ensures TierIndex(kwh) == 3 <==> 50000.0 <= kwh
  {
  }

  /** Boundary values belong to the higher tier. */
  lemma TierBoundaryValues()
    ensures TierIndex(2899.0) == 0 && TierIndex(2900.0) == 1
    ensures TierIndex(9999.0) == 1 && TierIndex(10000.0) == 2
    ensures TierIndex(49999.0) == 2 && TierIndex(50000.0) == 3
  {
  }

  /** More consumption never gives a lower tier. */
  lemma TierIndexMonotone(x: real, y: real)
    requires x <= y
    ensures TierIndex(x) <= TierIndex(y)
  {
  }

  // ----- Static tables -------------------------------------------------------

  /** The tax table has one positive rate per tier and is regressive: tiers 0
      and 1 pay the same, tiers 2 and 3 each pay strictly less than the tier
      before them. */
  lemma BelastingShape()
    ensures |BelastingPerTier| == |TierLowerBounds| == 4
    ensures forall t :: 0 <= t < 4 ==> BelastingPerTier[t] > 0
    ensures BelastingPerTier[0] == BelastingPerTier[1]
    ensures BelastingPerTier[2] < BelastingPerTier[1]
    ensures BelastingPerTier[3] < BelastingPerTier[2]
    ensures forall t, u :: 0 <= t <= u < 4 ==> BelastingPerTier[u] <= BelastingPerTier[t]
  {
  }

  /** Every default row has one non-negative price per tier. */
  lemma DefaultRowsWellFormed()
    ensures forall k :: k in DefaultLeveringPrices ==> |DefaultLeveringPrices[k]| == 4
    ensures forall k, t :: k in DefaultLeveringPrices && 0 <= t < 4 ==> DefaultLeveringPrices[k][t] >= 0
  {
  }

  /** The override keys are exactly the default period keys with the suffix
      appended, each listed once. */
  lemma ConfigKeysMatchDefaults()
    ensures (set k | k in LeveringConfigKeys) == (set k | k in DefaultLeveringPrices :: k + LeveringSuffix)
    ensures forall i, j :: 0 <= i < j < |LeveringConfigKeys| ==> LeveringConfigKeys[i] != LeveringConfigKeys[j]
    ensures |LeveringConfigKeys| == |DefaultLeveringPrices|
  {
    var keys := DefaultLeveringPrices.Keys;
    assert keys == {"summer_normal", "summer_offpeak_weekday", "summer_offpeak_weekend",
                    "winter_normal", "winter_offpeak_day", "winter_offpeak_night"};
    assert "summer_normal" + LeveringSuffix == LeveringConfigKeys[0];
    assert "summer_offpeak_weekday" + LeveringSuffix == LeveringConfigKeys[1];
    assert "summer_offpeak_weekend" + LeveringSuffix == LeveringConfigKeys[2];
    assert "winter_normal" + LeveringSuffix == LeveringConfigKeys[3];
    assert "winter_offpeak_day" + LeveringSuffix == LeveringConfigKeys[4];
    assert "winter_offpeak_night" + LeveringSuffix == LeveringConfigKeys[5];
    assert (set k | k in keys :: k + LeveringSuffix) == set k | k in LeveringConfigKeys;
  }

  /** Appending the same suffix to two strings keeps them apart. */
  lemma SuffixInjective(a: string, b: string, suffix: string)
    requires a + suffix == b + suffix
    ensures a == b
  {
    assert a == (a + suffix)[..|a|];
    assert b == (b + suffix)[..|b|];
  }

  /** A period has a default row exactly when its override key is one of the
      listed configuration keys, so every default period can be overridden. */
  lemma EveryDefaultIsOverridable(season: string, period: string)
    ensures PeriodKey(season, period) in DefaultLeveringPrices <==> ConfigKey(season, period) in LeveringConfigKeys
  {
    var pk := PeriodKey(season, period);
    var names := ["summer_normal", "summer_offpeak_weekday", "summer_offpeak_weekend",
                  "winter_normal", "winter_offpeak_day", "winter_offpeak_night"];
    assert DefaultLeveringPrices.Keys == set n | n in names;
    assert forall j :: 0 <= j < |names| ==> names[j] + LeveringSuffix == LeveringConfigKeys[j];
    if ConfigKey(season, period) in LeveringConfigKeys {
      var i :| 0 <= i < |LeveringConfigKeys| && LeveringConfigKeys[i] == pk + LeveringSuffix;
      SuffixInjective(names[i], pk, LeveringSuffix);
    }
    if pk in DefaultLeveringPrices {
      var i :| 0 <= i < |names| && names[i] == pk;
      assert LeveringConfigKeys[i] == ConfigKey(season, period);
    }
  }

  // ----- Price composer ------------------------------------------------------

  /** The price is computed exactly when the tier is a valid Python index into
      the tax table and, if an override is stored, every piece of it parses and
      the tier is a valid index into the parsed list. */
  lemma ImportPriceDefinedIff(cfg: Config, season: string, period: string, tier: int,
                              parse: string -> Option<int>)
    ensures ImportPrice(cfg, season, period, tier, parse).Ok? <==>
      && -4 <= tier < 4
      && (ConfigKey(season, period) in cfg ==>
            var parsed := ParseAll(Split(cfg[ConfigKey(season, period)], ','), parse);
            parsed.Some? && -|parsed.value| <= tier < |parsed.value|)
  {
  }

  /** Without an override the price is the period's default (zero for an
      unknown period) plus the tier's tax. */
  lemma DefaultPrice(cfg: Config, season: string, period: string, tier: int,
                     parse: string -> Option<int>)
    requires ConfigKey(season, period) !in cfg
    requires 0 <= tier < 4
    ensures ImportPrice(cfg, season, period, tier, parse) == Ok(DefaultRow(season, period)[tier] + BelastingPerTier[tier])
  {
  }

  /** A period known to neither the configuration nor the default table
      silently costs only the tier's tax; no error is raised. */
  lemma UnknownPeriodPaysTaxOnly(cfg: Config, season: string, period: string, tier: int,
                                 parse: string -> Option<int>)
    requires ConfigKey(season, period) !in cfg
    requires PeriodKey(season, period) !in DefaultLeveringPrices
    requires 0 <= tier < 4
    ensures ImportPrice(cfg, season, period, tier, parse) == Ok(BelastingPerTier[tier])
  {
  }

  /** A stored override wins over the default: the price is the tier's parsed
      piece plus the tier's tax. */
  lemma OverrideTakesPrecedence(cfg: Config, season: string, period: string, tier: int,
                                parse: string -> Option<int>, values: seq<MicroEuro>)
    requires ConfigKey(season, period) in cfg
    requires ParseAll(Split(cfg[ConfigKey(season, period)], ','), parse) == Some(values)
    requires 0 <= tier < 4 && tier < |values|
    ensures ImportPrice(cfg, season, period, tier, parse) == Ok(values[tier] + BelastingPerTier[tier])
  {
  }

  /** Storing a list of per-tier values as a comma-joined string and pricing
      from it gives back the tier's value plus tax; a zero value yields exactly
      the tax and a negative (subsidy) value a price below the tax. */
  lemma OverrideRoundTrip(cfg: Config, season: string, period: string, tier: int,
                          parse: string -> Option<int>, show: MicroEuro -> string,
                          values: seq<MicroEuro>)
    requires forall i :: 0 <= i < |values| ==> ',' !in show(values[i]) && parse(show(values[i])) == Some(values[i])
    requires ConfigKey(season, period) in cfg
    requires cfg[ConfigKey(season, period)] == Join(seq(|values|, i requires 0 <= i < |values| => show(values[i])), ',')
    requires 0 <= tier < 4 && tier < |values|
    ensures ImportPrice(cfg, season, period, tier, parse) == Ok(values[tier] + BelastingPerTier[tier])
    ensures values[tier] == 0 ==> ImportPrice(cfg, season, period, tier, parse) == Ok(BelastingPerTier[tier])
    ensures values[tier] < 0 ==> ImportPrice(cfg, season, period, tier, parse).value < BelastingPerTier[tier]
  {
    var pieces := seq(|values|, i requires 0 <= i < |values| => show(values[i]));
    assert forall i :: 0 <= i < |pieces| ==> pieces[i] == show(values[i]);
    SplitJoin(pieces, ',');
    assert Split(cfg[ConfigKey(season, period)], ',') == pieces;
    var parsed := ParseAll(pieces, parse);
    assert forall i :: 0 <= i < |pieces| ==> parse(pieces[i]) == Some(values[i]);
    assert parsed.Some?;
    assert parsed.value == values;
    OverrideTakesPrecedence(cfg, season, period, tier, parse, values);
    var r := ImportPrice(cfg, season, period, tier, parse);
    assert r == Ok(values[tier] + BelastingPerTier[tier]);
  }

  /** A single stored value (no comma) only prices tier 0; any higher tier
      raises IndexError instead of reusing the value. */
  lemma SingleValueOverride(cfg: Config, season: string, period: string, tier: int,
                            parse: string -> Option<int>, x: MicroEuro)
    requires ConfigKey(season, period) in cfg
    requires ',' !in cfg[ConfigKey(season, period)]
    requires parse(cfg[ConfigKey(season, period)]) == Some(x)
    requires 0 <= tier < 4
    ensures tier == 0 ==> ImportPrice(cfg, season, period, tier, parse) == Ok(x + BelastingPerTier[0])
    ensures tier >= 1 ==> ImportPrice(cfg, season, period, tier, parse) == Raised(IndexError)
  {
    var s := cfg[ConfigKey(season, period)];
    SplitJoin([s], ',');
  }

  /** One unparsable piece anywhere in the override raises ValueError for
      every tier, even one whose own piece parses. */
  lemma MalformedOverrideRaises(cfg: Config, season: string, period: string, tier: int,
                                parse: string -> Option<int>, bad: nat)
    requires ConfigKey(season, period) in cfg
    requires bad < |Split(cfg[ConfigKey(season, period)], ',')|
    requires parse(Split(cfg[ConfigKey(season, period)], ',')[bad]).None?
    ensures ImportPrice(cfg, season, period, tier, parse) == Raised(ValueError)
  {
  }

  /** Changing or removing the configuration entry under any other key leaves
      the price of this period unchanged. */
  lemma OverrideIsLocal(cfg: Config, season: string, period: string, tier: int,
                        parse: string -> Option<int>, k: string, v: string)
    requires k != ConfigKey(season, period)
    ensures ImportPrice(cfg[k := v], season, period, tier, parse) == ImportPrice(cfg, season, period, tier, parse)
    ensures ImportPrice(cfg - {k}, season, period, tier, parse) == ImportPrice(cfg, season, period, tier, parse)
  {
    var key := ConfigKey(season, period);
    assert key in cfg[k := v] <==> key in cfg;
    assert key in cfg - {k} <==> key in cfg;
    if key in cfg {
      assert cfg[k := v][key] == cfg[key];
      assert (cfg - {k})[key] == cfg[key];
    }
  }

  /** An override stored under one listed configuration key never changes
      the price of the period behind any other listed key. */
  lemma KnownPeriodsIndependent(cfg: Config, season: string, period: string, tier: int,
                                parse: string -> Option<int>, i: int, j: int, v: string)
    requires 0 <= i < |LeveringConfigKeys| && 0 <= j < |LeveringConfigKeys| && i != j
    requires ConfigKey(season, period) == LeveringConfigKeys[i]
    ensures ImportPrice(cfg[LeveringConfigKeys[j] := v], season, period, tier, parse) == ImportPrice(cfg, season, period, tier, parse)
  {
    ConfigKeysMatchDefaults();
    if j < i {
      assert LeveringConfigKeys[j] != LeveringConfigKeys[i];
    } else {
      assert LeveringConfigKeys[i] != LeveringConfigKeys[j];
    }
    OverrideIsLocal(cfg, season, period, tier, parse, LeveringConfigKeys[j], v);
  }

  /** Python indexing: a negative tier in -4..-1 prices like the tier counted
      from the end of the default row and tax table. */
  lemma NegativeTierCountsFromEnd(cfg: Config, season: string, period: string, tier: int,
                                  parse: string -> Option<int>)
    requires ConfigKey(season, period) !in cfg
    requires -4 <= tier < 0
    ensures ImportPrice(cfg, season, period, tier, parse) == ImportPrice(cfg, season, period, tier + 4, parse)
  {
  }

  /** Tiers outside -4..3 raise IndexError. */
  lemma TierOutOfRangeRaises(cfg: Config, season: string, period: string, tier: int,
                             parse: string -> Option<int>)
    requires tier < -4 || 4 <= tier
    ensures ImportPrice(cfg, season, period, tier, parse).Raised?
    ensures ConfigKey(season, period) !in cfg ==> ImportPrice(cfg, season, period, tier, parse) == Raised(IndexError)
  {
  }

  /** With the defaults, every tier prices winter normal above summer normal
      and summer off-peak weekday below summer normal. */
  lemma DefaultOrdering(tier: int, parse: string -> Option<int>)
    requires 0 <= tier < 4
    ensures ImportPrice(map[], "winter", "normal", tier, parse).value > ImportPrice(map[], "summer", "normal", tier, parse).value
    ensures ImportPrice(map[], "summer", "offpeak_weekday", tier, parse).value < ImportPrice(map[], "summer", "normal", tier, parse).value
    ensures ImportPrice(map[], "winter", "normal", 0, parse) == Ok(251571)
  {
    assert PeriodKey("winter", "normal") == "winter_normal";
    assert PeriodKey("summer", "normal") == "summer_normal";
    assert PeriodKey("summer", "offpeak_weekday") == "summer_offpeak_weekday";
  }

  /** With an empty configuration every season/period pricing succeeds for
      every tier and is positive, at least the tier's tax. */
  lemma DefaultPricesPositive(season: string, period: string, tier: int, parse: string -> Option<int>)
    requires 0 <= tier < 4
    ensures ImportPrice(map[], season, period, tier, parse).Ok?
    ensures ImportPrice(map[], season, period, tier, parse).value >= BelastingPerTier[tier] > 0
  {
    DefaultRowsWellFormed();
  }
}
