# Profit calculator engine, in Dafny

This project models the calculation core of the `ProfitCalculator` screen
(a single React component). The screen lets a trader enter nine inputs:

- a product cost in Turkish lira;
- a freight cost in euros;
- the euro and krona exchange rates;
- a KDV-exclusive selling price per ton in Swedish kronor;
- the tonnage;
- the KDV (VAT) rate;
- the income-tax rate;
- a target net profit per ton.

From these it derives the landed cost, the sale side, and a recommended
selling price. The landed cost is freight converted to lira, plus 6% customs,
1% insurance and 1% labelling/depot on the product cost, then converted to
kronor and split per ton. The sale side is the sale total, the KDV amount,
gross profit, income tax and net profit. The recommended selling price per
ton is the one that reaches the target, shown without and with KDV.

Two handlers replace the inputs record:

- `handleChange` replaces one named field.
- `fetchRates` replaces both exchange rates when two rate requests succeed.
  It rounds each rate to two decimals first. On any failure it leaves the
  record alone.

Everything is in module `ProfitCalculator` (`profit_calculator.dfy`):

- `Inputs` is the nine-field record. `Field` names its fields, and `Get`
  reads a field by name.
- `HandleChange` and `ApplyRates` are the two record updates. They are pure
  functions from the old record to the new one, as the source builds a fresh
  spread copy each time.
- `ToFixed2` is `parseFloat(x.toFixed(2))` on exact reals.
- `CostsOf`, `SaleOf` and `TargetOf` are the three stages of the derived-value
  chain. `Compute` runs all three.
- The lemmas relate these functions to each other: per-ton against total
  identities, the net-profit factorisation, the target-price round trip,
  minimality of the recommended price, KDV independence, and frame laws for
  the record updates.

Numbers are exact `real`s rather than IEEE doubles. The KDV amount is
computed on the sale total (components/ProfitCalculator.js:66) but never
subtracted from profit (lines 67-69). The model keeps this and proves it
(`KdvIsDisplayOnly`). The screen displays seven result values and two
recommendations (lines 108-121); `Results` holds these and the intermediate
values they are computed from.

## Model

| member | source | states |
|---|---|---|
| `ProfitCalculator.HandleChange` | components/ProfitCalculator.js:40-42 | the named field takes the new value and every other field keeps its old value |
| `ProfitCalculator.HandleChangeSameValue` | components/ProfitCalculator.js:41 | re-entering a field's current value gives back the same record |
| `ProfitCalculator.HandleChangeLastWins` | components/ProfitCalculator.js:41 | of two edits to one field, only the later survives |
| `ProfitCalculator.HandleChangeCommutes` | components/ProfitCalculator.js:41 | edits to two different fields commute |
| `ProfitCalculator.ToFixed2` | components/ProfitCalculator.js:32-33 | the stored rate is a whole number of hundredths within 0.005 of the fetched rate; ties round away from zero |
| `ProfitCalculator.RoundMagnitude2` | components/ProfitCalculator.js:32-33 | for a non-negative rate: non-negative, a whole number of hundredths, and within (-0.005, 0.005] of the input |
| `ProfitCalculator.ToFixed2OfTwoDecimals` | components/ProfitCalculator.js:32-33 | a value that already has two decimals is kept as it is |
| `ProfitCalculator.ToFixed2Idempotent` | components/ProfitCalculator.js:32-33 | rounding an already rounded rate changes nothing |
| `ProfitCalculator.ApplyRates` | components/ProfitCalculator.js:20-37 | on success, `euroToTL` and `sekRate` become the rounded fetched rates and the other seven fields are unchanged; on any failure the record is unchanged |
| `ProfitCalculator.ApplyRatesIsTwoEdits` | components/ProfitCalculator.js:30-34 | a successful refresh equals editing `euroToTL` and then `sekRate` to the rounded rates |
| `ProfitCalculator.ApplyRatesIdempotent` | components/ProfitCalculator.js:30-34 | repeating a refresh with the same fetched rates leaves the refreshed record unchanged |
| `ProfitCalculator.RatesOnlyMoveCost` | components/ProfitCalculator.js:30-34 | after a successful refresh the chain stays finite; the sale total, the KDV amount and the required gross profit per ton are unchanged, and the whole sale side is the old sale formula applied to the new full cost |
| `ProfitCalculator.CostsOf` | components/ProfitCalculator.js:56-63 | full cost in lira is `productCostTL * 1.08 + freightEuro * euroToTL`; full cost in kronor times `sekRate` gives back the lira cost; cost per ton times tonnage gives back the full cost in kronor |
| `ProfitCalculator.SaleOf` | components/ProfitCalculator.js:65-69 | gross profit plus full cost is the sale total; tax plus net profit is gross profit; net profit is gross profit times `1 - taxRate/100` |
| `ProfitCalculator.TargetOf` | components/ProfitCalculator.js:71-72 | the required gross profit per ton, after tax, is the target; so is the recommended price minus cost per ton, after tax |
| `ProfitCalculator.Compute` | components/ProfitCalculator.js:56-73 | net profit is the per-ton margin (selling price minus cost per ton) times tonnage times the after-tax share |
| `ProfitCalculator.InitialInputsResults` | components/ProfitCalculator.js:9-17 | on the initial record the chain is finite: freight is 202500 TL, the surcharges are 36000/6000/6000, full cost is 850500 TL, the sale total is 230000, KDV is 27600; rounded to two decimals, full cost is 206934.31 SEK, cost per ton 10346.72, gross profit 23065.69, tax 5074.45, net profit 17991.24, and the recommendations are 11628.77 and 13024.22 |
| `ProfitCalculator.KdvIsDisplayOnly` | components/ProfitCalculator.js:65-72 | changing the KDV rate changes no cost, the sale total, gross profit, tax, net profit, or the KDV-exclusive recommendation |
| `ProfitCalculator.NetProfitSlope` | components/ProfitCalculator.js:65-69 | two selling prices differ in net profit by the price difference times tonnage times the after-tax share |
| `ProfitCalculator.TargetPriceRoundTrip` | components/ProfitCalculator.js:65-72 | re-running the chain with the recommended price as selling price yields net profit equal to target per ton times tonnage |
| `ProfitCalculator.RequiredPriceIsLeast` | components/ProfitCalculator.js:71-72 | for positive tonnage and a tax rate below 100%, a selling price reaches the target net profit if and only if it is at least the recommended price |
| `ProfitCalculator.KdvInclusivePrice` | components/ProfitCalculator.js:66-73 | the KDV-inclusive recommendation is at least the exclusive one for non-negative rate and price; the difference, times tonnage, is exactly the KDV amount on a sale at the exclusive price |

## Left out

- Rendering is not modelled: the JSX, the `Button` component, the list of form fields and the two result panels (lines 3-5, 75-124). They are presentation only.
- The two HTTP requests, their JSON decoding and the failure `alert` (lines 22-28, 36) are external I/O. Each fetched rate is a parameter of type `Option<real>`. `None` stands for a failed request, bad JSON or a missing `rates.TRY` entry; all of these land in the `catch`.
- `parseFloat` of the typed text (line 41) is not modelled. `HandleChange` receives the parsed number. Text that parses to `NaN` is outside the model.
- A `handleChange` event whose field name is not one of the nine form names would add a new key to the record. The form only produces the nine names, so `Field` has exactly those.
- `ToFixed2` is not modelled for magnitudes of 1e21 and above, where `toFixed` switches to exponent notation. It also does not model IEEE rounding of the decimal string back to a double, or the sign of a rounded negative zero.
- The `toFixed(2)` formatting of the displayed results (lines 108-121) is not part of `Compute`. `Compute` returns full precision, as the source does; `InitialInputsResults` applies `ToFixed2` only to state the displayed figures.
- The model uses exact real arithmetic, not IEEE doubles. The identities hold exactly over reals; in the source they hold only up to floating-point rounding.
- CostsOf: requires `sekRate != 0` and `tonnage != 0`. With `sekRate` at zero the source yields `Infinity` or `NaN` for the kronor cost and everything after it. With only `tonnage` at zero, just the cost per ton (line 63) and the two recommendations (lines 72-73) become `Infinity` or `NaN`. The full costs, the sale total, the KDV amount, gross profit, tax and net profit stay finite there. `SaleOf` itself has no precondition, but `Compute` does not give those finite values at tonnage 0.
- TargetOf: requires `taxRate != 100`. At 100% the source's inversion divides by zero and yields `Infinity` or `NaN`.
- Compute: requires all three of the above (`Computable`). The degenerate results are not modelled.
- React state mechanics are not modelled: re-rendering and `useState` batching. Also not modelled is the stale `inputs` captured by the asynchronous `fetchRates` closure: an edit made while the requests are in flight is overwritten by the spread copy. `ApplyRates` takes the record that the handler spreads.
