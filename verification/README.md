# Vattenfall TijdPrijs tariff engine in Dafny

This project models the pricing core of the Vattenfall TijdPrijs Home
Assistant integration: the static tariff tables, the consumption-tier
resolver `get_tier_index`, and the import-price composer `get_import_price`
from `custom_components/vattenfall_tijdprijs/pricing_data.py`.

- Money is integer micro-euros. Every tariff in the source has six decimals,
  so the energy tax (belasting) table is `110848, 110848, 80719, 45194` and the
  default delivery (levering) prices are `115434, 17908, 0, 140723, 87483, 70785`.
  The six delivery rows each carry one value per tier.
- Annual consumption is a `real` number of kWh.
- The configuration is a `map<string, string>`. An override is stored under
  `"{season}_{period}_levering"` as a comma-separated string. The string is
  split exactly as Python's `str.split(",")` does (`PySemantics.Split`).
  Each piece is then turned into micro-euros by a caller-supplied
  `parse: string -> Option<int>`, where `None` stands for the ValueError
  raised by `float`.
- Python's exceptions are values: `get_import_price` returns
  `Outcome<MicroEuro>`, which is either `Ok(price)` or `Raised(ValueError | IndexError)`.
  It has no precondition. A bad tier or a short override gives the same
  IndexError the code would raise. Python list indexing is modelled exactly,
  so tiers -4..-1 count from the end of the lists.
- The code evaluates in this order, and the model keeps it: every override
  piece is parsed first, then the delivery list is indexed, then the tax table.
- `PySemantics.Join` does not appear in the source. It is the inverse of
  `Split`, proved in both directions (`SplitJoin`, `JoinSplit`). It is used to
  state what pricing from an override built out of a list of tier values
  returns.

Where the repository's tests and the code disagree, the model follows the code:

- An unknown season/period is not an error. The tests expect a KeyError for
  combinations such as summer `offpeak_day` (tests/test_pricing_data.py:114-120).
  The code instead falls back to `[0]*4` (pricing_data.py:75), so the delivery
  price is 0 and the price is just the tier's tax (`UnknownPeriodPaysTaxOnly`).
- A single override value is not a flat rate for every tier. The tests add one
  override value to the tax (tests/test_pricing_data.py:56-63). The code splits
  the stored string on commas, so `"0.10"` is one piece: it prices tier 0 (and
  tier -1), and tiers 1..3 raise IndexError (`SingleValueOverride`).
- The same tests pass overrides as floats. The code calls `.split` on them, so
  the model takes overrides as strings, the type the code reads.

## Model

| member | source | states |
|---|---|---|
| PricingData.TierIndex | custom_components/vattenfall_tijdprijs/pricing_data.py:42-51 | the tier is 0..3 and is the highest tier whose lower bound (0, 2900, 10000, 50000 kWh/year) the consumption reaches; below 2900, negatives included, is tier 0 |
| PricingProperties.TierIntervals | custom_components/vattenfall_tijdprijs/pricing_data.py:42-51 | in both directions, tier 0 is exactly < 2900, tier 1 is [2900, 10000), tier 2 is [10000, 50000) and tier 3 is >= 50000 |
| PricingProperties.TierBoundaryValues | custom_components/vattenfall_tijdprijs/pricing_data.py:44-51 | 2899→0, 2900→1, 9999→1, 10000→2, 49999→2, 50000→3: a boundary value belongs to the higher tier |
| PricingProperties.TierIndexMonotone | custom_components/vattenfall_tijdprijs/pricing_data.py:42-51 | more annual consumption never yields a lower tier |
| PricingProperties.BelastingShape | custom_components/vattenfall_tijdprijs/pricing_data.py:5-8 | the tax table has 4 entries, one per tier bound, all positive; tier 0 equals tier 1, tiers 2 and 3 are strictly lower than the tier before, and the table is non-increasing |
| PricingProperties.DefaultRowsWellFormed | custom_components/vattenfall_tijdprijs/pricing_data.py:12-19 | every default delivery row has exactly 4 tier entries, all non-negative |
| PricingProperties.ConfigKeysMatchDefaults | custom_components/vattenfall_tijdprijs/pricing_data.py:12-29 | the override keys are exactly the default period keys with `_levering` appended, with no duplicates and as many keys as default periods |
| PricingProperties.EveryDefaultIsOverridable | custom_components/vattenfall_tijdprijs/pricing_data.py:22-29 | a season/period has a default row exactly when its override key is one of the listed configuration keys |
| PricingProperties.KnownPeriodsIndependent | custom_components/vattenfall_tijdprijs/pricing_data.py:22-29 | an override stored under one listed configuration key leaves the outcome for the period of any other listed key unchanged, because the six keys are pairwise distinct |
| PySemantics.Split | custom_components/vattenfall_tijdprijs/pricing_data.py:72 | `str.split(",")` yields one more piece than the string has commas, and no piece contains a comma |
| PySemantics.SplitJoin | custom_components/vattenfall_tijdprijs/pricing_data.py:71-72 | splitting a comma-joined list of comma-free pieces (at least one) gives the list back |
| PySemantics.JoinSplit | custom_components/vattenfall_tijdprijs/pricing_data.py:71-72 | joining the pieces of a split string with commas restores the string |
| PySemantics.ParseAll | custom_components/vattenfall_tijdprijs/pricing_data.py:72 | the list comprehension succeeds exactly when every piece parses; it then has one value per piece, each that piece's parse, so a single bad piece fails the whole list |
| PySemantics.Index | custom_components/vattenfall_tijdprijs/pricing_data.py:73-78 | list indexing succeeds exactly for indices -len..len-1 and then yields an element of the list; a non-negative index reads that position, and a negative index reads the same element as its partner index plus len |
| PricingData.DefaultRow | custom_components/vattenfall_tijdprijs/pricing_data.py:75 | the default row looked up for any season/period, known or not, has exactly one non-negative price per tier, so indexing it with tiers -4..3 never fails |
| PricingData.Levering | custom_components/vattenfall_tijdprijs/pricing_data.py:66-75 | without an override the delivery price exists exactly for tiers -4..3; a value from an override means every piece parsed; ValueError only arises from an override |
| PricingData.ImportPrice | custom_components/vattenfall_tijdprijs/pricing_data.py:54-80 | a price exists only for tiers -4..3 and a resolved delivery price; a delivery error propagates unchanged; for tiers 0..3 the price minus the tier's tax is the delivery price, with no clamping |
| PricingProperties.ImportPriceDefinedIff | custom_components/vattenfall_tijdprijs/pricing_data.py:70-78 | in both directions, a price exists exactly when the tier is in -4..3 and, if an override is stored, all its pieces parse and the tier indexes the parsed list |
| PricingProperties.DefaultPrice | custom_components/vattenfall_tijdprijs/pricing_data.py:74-80 | without an override, tiers 0..3 price as the period's default row entry plus the tier's tax |
| PricingProperties.UnknownPeriodPaysTaxOnly | custom_components/vattenfall_tijdprijs/pricing_data.py:75 | a period absent from both the configuration and the defaults prices at exactly the tier's tax, with no error |
| PricingProperties.OverrideTakesPrecedence | custom_components/vattenfall_tijdprijs/pricing_data.py:70-73 | with an override stored, the price is the tier's parsed override value plus tax, whatever the default says |
| PricingProperties.OverrideRoundTrip | custom_components/vattenfall_tijdprijs/pricing_data.py:70-80 | an override written as comma-joined per-tier values prices the tier's own value plus tax; a zero value gives exactly the tax, a negative value a price below the tax |
| PricingProperties.SingleValueOverride | custom_components/vattenfall_tijdprijs/pricing_data.py:72-73 | a comma-free override prices tier 0 as its value plus tax and raises IndexError for tiers 1..3 |
| PricingProperties.MalformedOverrideRaises | custom_components/vattenfall_tijdprijs/pricing_data.py:72 | one unparsable piece anywhere in the override raises ValueError for every tier |
| PricingProperties.OverrideIsLocal | custom_components/vattenfall_tijdprijs/pricing_data.py:66-75 | setting or removing the configuration entry under any other key leaves this period's outcome unchanged |
| PricingProperties.NegativeTierCountsFromEnd | custom_components/vattenfall_tijdprijs/pricing_data.py:75-78 | without an override, tier t in -4..-1 prices exactly as tier t+4 |
| PricingProperties.TierOutOfRangeRaises | custom_components/vattenfall_tijdprijs/pricing_data.py:73-78 | tiers outside -4..3 always raise; without an override the exception is IndexError |
| PricingProperties.DefaultOrdering | tests/test_pricing_data.py:94-104 | with the defaults, for every tier winter normal costs more than summer normal and summer off-peak weekday costs less than summer normal; winter normal at tier 0 is 251571 micro-euros |
| PricingProperties.DefaultPricesPositive | tests/test_pricing_data.py:110-120 | with an empty configuration every season/period prices successfully for tiers 0..3, at least the tier's tax and so positive |

## Left out

- `sensor.py`: the Home Assistant entity classes read the wall clock and call
  `get_season`, `get_period` and `get_hourly_prices`. The pricing module does not
  define these functions, and the sensors call `get_import_price` with three
  arguments where four are needed. They are not part of this model.
- Season/period classification and the hourly forecast: no implementation of
  either is in the pricing module. `PERIOD_LABELS` is display text only, and
  no classifier is derived from it.
- Median-based colour bucketing of the forecast: no code for it exists in
  the modelled files.
- `config_flow.py`, `const.py`, the `__init__.py` files and the legacy
  `vattenfall_tijdprijs/` copy: these are framework lifecycle hooks, a
  dict-with-defaults merge and identifier strings, with no pricing logic.
- Float parsing of override pieces: `float(x)` is the `parse` parameter,
  returning micro-euros. Rounding a decimal string to micro-euros is not
  modelled.
- Floating-point arithmetic: the sum of delivery price and tax is exact
  integer addition. Float rounding and `round(..., 6)` are not modelled.
- NaN consumption: Python puts NaN in tier 0 because every comparison is
  false. Reals have no NaN.
- Non-string override values: the model's configuration holds only strings.
  Python would raise AttributeError on `.split` for any other value type.
