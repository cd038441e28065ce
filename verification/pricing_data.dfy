/**
 The Vattenfall TijdPrijs tariff engine: the static tariff tables, the
 consumption-tier resolver and the import-price composer.

 Money is counted in integer micro-euros (every tariff carries six decimals,
 so 0.110848 EUR/kWh is 110848). Annual consumption is a real number of kWh.
 The configuration is a map from configuration keys to the strings stored
 for them; turning one comma-separated piece into micro-euros is the
 caller-supplied `parse`, which answers None where Python's `float` would
 raise ValueError.
 */
module PricingData {
  import opened PySemantics

  /** An amount in millionths of a euro (per kWh, VAT included). */
  type MicroEuro = int

  /** The stored configuration: key -> the string saved under it. */
  type Config = map<string, string>

  /** Energy tax (belasting) per consumption tier, the same for every period. */
  const BelastingPerTier: seq<MicroEuro> := [110848, 110848, 80719, 45194]

  /** Lower consumption bound (kWh/year) of each tier. */
  const TierLowerBounds: seq<real> := [0.0, 2900.0, 10000.0, 50000.0]

  /** Default delivery (levering) price per season/period key, one entry per tier. */
  const DefaultLeveringPrices: map<string, seq<MicroEuro>> := map[
    "summer_normal" := [115434, 115434, 115434, 115434],
    "summer_offpeak_weekday" := [17908, 17908, 17908, 17908],
    "summer_offpeak_weekend" := [0, 0, 0, 0],
    "winter_normal" := [140723, 140723, 140723, 140723],
    "winter_offpeak_day" := [87483, 87483, 87483, 87483],
    "winter_offpeak_night" := [70785, 70785, 70785, 70785]
  ]

  /** Suffix that turns a period key into the key of its stored override. */
  const LeveringSuffix: string := "_levering"

  /** The configuration keys under which a delivery price may be overridden. */
  const LeveringConfigKeys: seq<string> := [
    "summer_normal_levering",
    "summer_offpeak_weekday_levering",
    "summer_offpeak_weekend_levering",
    "winter_normal_levering",
    "winter_offpeak_day_levering",
    "winter_offpeak_night_levering"
  ]

  /** The tier of an annual consumption: the highest tier whose lower bound the
      consumption reaches (a boundary value belongs to the higher tier), and
      tier 0 for anything below 2900 kWh, negative amounts included. */
  function TierIndex(annualConsumptionKwh: real): (tier: int)
    ensures 0 <= tier < |TierLowerBounds|
    ensures tier == 0 || TierLowerBounds[tier] <= annualConsumptionKwh
    ensures tier == |TierLowerBounds| - 1 || annualConsumptionKwh < TierLowerBounds[tier + 1]
  {
    if annualConsumptionKwh >= 50000.0 then 3
    else if annualConsumptionKwh >= 10000.0 then 2
    else if annualConsumptionKwh >= 2900.0 then 1
    else 0
  }

  /** `f"{season}_{period}"`: the key of a period in the default table. */
  function PeriodKey(season: string, period: string): string
  {
    season + "_" + period
  }

  /** `f"{period_key}_levering"`: the key of a period's stored override. */
  function ConfigKey(season: string, period: string): string
  {
    PeriodKey(season, period) + LeveringSuffix
  }

  /** The default row of a period, or four zeros for a period the table does
      not know (`DEFAULT_LEVERING_PRICES.get(period_key, [0]*4)`). Either way
      it has one non-negative price per tier, so indexing it with any tier in
      -4..3 succeeds. */
  function DefaultRow(season: string, period: string): (row: seq<MicroEuro>)
    ensures |row| == 4
    ensures forall t :: 0 <= t < 4 ==> row[t] >= 0
  {
    var key := PeriodKey(season, period);
    if key in DefaultLeveringPrices then DefaultLeveringPrices[key] else [0, 0, 0, 0]
  }

  /** The delivery price for a period and tier: the stored override when its
      key is present (every comma-separated piece parsed, then indexed by tier),
      otherwise the default row indexed by tier. */
  function Levering(cfg: Config, season: string, period: string, tier: int,
                    parse: string -> Option<int>): (r: Outcome<MicroEuro>)
    ensures ConfigKey(season, period) !in cfg ==>
              (r.Ok? <==> -4 <= tier < 4)
    ensures ConfigKey(season, period) in cfg && r.Ok? ==>
              ParseAll(Split(cfg[ConfigKey(season, period)], ','), parse).Some?
    ensures r.Raised? && r.error == ValueError ==>
              ConfigKey(season, period) in cfg
  {
    var key := ConfigKey(season, period);
    if key in cfg then
      match ParseAll(Split(cfg[key], ','), parse)
      case None => Raised(ValueError)
      case Some(tierPrices) =>
        match Index(tierPrices, tier)
        case None => Raised(IndexError)
        case Some(v) => Ok(v)
    else
      match Index(DefaultRow(season, period), tier)
      case None => Raised(IndexError)
      case Some(v) => Ok(v)
  }

  /** `get_import_price`: delivery price plus the built-in tax of the tier, with
      no clamping. Only tiers -4..3 reach the tax table (Python indexing); the
      delivery price is resolved first, so its exception wins. */
  function ImportPrice(cfg: Config, season: string, period: string, tier: int,
                       parse: string -> Option<int>): (r: Outcome<MicroEuro>)
    ensures r.Ok? ==> -4 <= tier < 4 && Levering(cfg, season, period, tier, parse).Ok?
    ensures Levering(cfg, season, period, tier, parse).Raised? ==>
              r == Raised(Levering(cfg, season, period, tier, parse).error)
    ensures 0 <= tier < 4 && r.Ok? ==>
              r.value - BelastingPerTier[tier] == Levering(cfg, season, period, tier, parse).value
  {
    match Levering(cfg, season, period, tier, parse)
    case Raised(e) => Raised(e)
    case Ok(levering) =>
      match Index(BelastingPerTier, tier)
      case None => Raised(IndexError)
      case Some(belasting) => Ok(levering + belasting)
  }
}
