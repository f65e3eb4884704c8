# Position valuation engine

A Dafny model of the valuation engine that the pin-server demo scripts share.
The engine takes one leveraged position or closed order, a mark price and a
SOL→USDT rate. From these it computes display metrics:
- margin, net profit and realized profit, each in SOL and in USDT;
- the profit percentage and the stop-loss percentage;
- the leverage;
- the position's age or holding time, as a bucketed string (`5s`, `30m`, `3h`, `2d`).

Each module covers one part of the engine:

| module | file | what it models |
|---|---|---|
| `Units` | `units.dfy` | lamports ↔ SOL (10^9) and raw price ↔ display price (10^23). decimal.js arithmetic is modelled as exact `real` arithmetic. |
| `Curve` | `curve.dfy` | the bonding-curve quote oracle, as a pair of function values the caller supplies. A quote is a bare amount or an array whose element `[1]` is used. A call that throws is `None`. |
| `TimeFormat` | `time_format.dfy` | the time-bucket formatter of `demo-time-format.js`, with a parser for its output and the stated test expectations. |
| `Orders` | `orders.dfy` | order records, the direction, and the `order_type` → direction mapping (see below). |
| `Leverage` | `leverage.dfy` | `calculateLeverage`. It is identical in the active-positions and history scripts. |
| `OpenValuation` | `open_valuation.dfy` | long and short unrealized P&L in both formula variants, and the dual-denominated metrics record. |
| `ActivePositions` | `active_positions.dfy` | `calculatePositionData` and `formatOpenTime` of `demo-active-positions.js`. |
| `PositionDemo` | `position_demo.dfy` | `calculatePositionData` of `demo-position.js`. |
| `HistoryPositions` | `history_positions.dfy` | `calculateHistoryData`, `formatHoldingTime` and `getCloseReasonLabel` of `demo-history-positions.js`. |

Two formula variants of the open-position P&L coexist. The model keeps both and selects one with `OpenValuation.Formula`:
- **`MarginInitGross`** (`demo-active-positions.js`):
  - long gross profit adds the initial margin;
  - `realized` is never credited.
- **`RealizedCredited`** (`demo-position.js`):
  - long gross profit adds the current margin;
  - long net profit adds `realized`;
  - the short percentage is `(realized + net) / initial margin`.

The lemmas `LongVariantsAgreeIff` and `ShortVariantsAgreeIff` state exactly when the two variants agree.

The meaning of `order_type` depends on the script:
- the open-position scripts read 1 as LONG and every other code as SHORT;
- the history script reads 1 as SHORT and every other code as LONG.

`Orders.OrderTypeMapping` makes this an explicit parameter, and `MappingsAreReversed` relates the two mappings.

Four behaviours of the code are easy to miss, and the model keeps each of them:
- **Unknown `order_type`.** An order type other than 1 and 2 is not rejected. It goes down the short path and gets leverage 0 (`UnknownOrderTypeIsShortWithZeroLeverage`).
- **Division by zero is not caught.** With a zero margin or a zero price, decimal.js returns Infinity or NaN instead of throwing, so the try/catch never fires. The model makes non-zero divisors preconditions. The only missing results are failing curve quotes.
- **The active short percentage leaves out `realized`.** `demo-active-positions.js` computes it as net / initial margin, although a comment there says `realized` is included. Only `demo-position.js` uses `(realized + net) / initial margin`.
- **Negative durations** render with a minus sign, for example `-5s`.

The metrics records carry the direction as the printed label ("做多 (LONG)" or "做空 (SHORT)"), built with `Orders.DirectionLabel`.

## Model

| member | source | states |
|---|---|---|
| Units.ToSol | demo-active-positions.js:16-17 | the SOL amount times 10^9 is the lamport amount; its sign and zero-ness are those of the lamports |
| Units.ToDisplayPrice | demo-active-positions.js:269-273 | the display price times 10^23 is the raw price; sign and zero-ness are preserved |
| Units.ToLamports | demo-active-positions.js:16-17 | the inverse of the 10^9 scale, which the scripts never apply themselves: the result is the whole number of lamports within less than one lamport of the SOL value times 10^9 |
| Units.ToSolRoundTrip | demo-active-positions.js:88-91 | converting lamports to SOL and back gives the original amount |
| Units.ToSolInjective | demo-active-positions.js:88-91 | two lamport amounts with the same SOL value are equal |
| Units.ToSolLinear | demo-active-positions.js:119-126 | scaling commutes with the sums and differences the P&L formulas take |
| Curve.QuoteLamports | demo-active-positions.js:104-111 | an array quote yields element [1] and a bare quote yields itself; the amount is missing exactly when the array has no element [1] |
| Curve.QuoteSol | demo-active-positions.js:185-190 | the SOL value is missing exactly when the call throws or the quote has no amount; otherwise it is the amount divided by 10^9 |
| Curve.QuoteIgnoresOtherElements | demo-position.js:134-139 | array elements other than [1] never affect the value |
| Curve.TupleAgreesWithBare | demo-position.js:76-81 | an array with x at [1] values exactly like the bare quote x |
| TimeFormat.NatToString | demo-time-format.js:19-21 | the rendering of a count is a non-empty digit string with no leading zero unless the count is 0 |
| TimeFormat.IntToString | demo-active-positions.js:244-246 | a negative count is a minus sign followed by the digits of its magnitude |
| TimeFormat.NatToStringRoundTrip | demo-time-format.js:24-27 | reading a rendered count back gives the count |
| TimeFormat.NatToStringInjective | demo-time-format.js:24-27 | distinct counts render as distinct strings |
| TimeFormat.Render | demo-time-format.js:25-26 | a non-negative count renders as its digits followed by the unit letter |
| TimeFormat.FlooredBucket | demo-active-positions.js:249-250 | the copies' `Math.floor(d / k)` template renders the same count as integer division d / k |
| TimeFormat.PositionTimeMeaning | demo-time-format.js:11-16 | `FormatPositionTime`: a position shown as n units of u seconds at time now was opened between n and n + 1 units before now |
| TimeFormat.FormatDurationMeaning | demo-time-format.js:18-37 | `FormatDuration`: for every duration d ≥ 0 the string parses back to a count n and one of the units s/m/h/d of u seconds, with n·u ≤ d < (n+1)·u; `s` iff d < 60, `m` iff 60 ≤ d < 3600, `h` iff 3600 ≤ d < 86400, `d` iff d ≥ 86400 |
| TimeFormat.BucketCountBounds | demo-time-format.js:24-33 | seconds lie in 0..59, minutes in 1..59, hours in 1..23, and days are at least 1 |
| TimeFormat.RealFloorDivision | demo-active-positions.js:249-259 | flooring d / k on real numbers equals integer division for every integer d, negative ones included |
| TimeFormat.BoundaryExamples | demo-time-format.js:83-93 | 59 s → "59s", 60 s → "1m", 90 s → "1m" |
| TimeFormat.WorkedExamplesShort | demo-time-format.js:47-61 | 5 s → "5s", 30 s → "30s", 30 min → "30m" |
| TimeFormat.WorkedExamplesHours | demo-time-format.js:63-69 | 1 h → "1h", 3 h → "3h" |
| TimeFormat.WorkedExamplesDays | demo-time-format.js:71-81 | 1 d → "1d", 2 d → "2d", 7 d → "7d" |
| Orders.DirectionLabel | demo-active-positions.js:311-312 | the label is "做多 (LONG)" exactly for long and "做空 (SHORT)" exactly for short |
| Orders.DirectionOf | demo-active-positions.js:311 | a mapping yields its code-1 direction exactly when order_type is 1 |
| Orders.MappingsAreReversed | demo-history-positions.js:135-136 | on every code the history direction is the opposite of the open-position direction: LONG iff 1 in one, SHORT iff 1 in the other |
| Orders.RealizedLamports | demo-position.js:71 | a missing realized amount counts as 0 lamports; a present one is used as is |
| Leverage.RoundHalfUp | demo-active-positions.js:299 | the result is an integer within one half of x, ties going up |
| Leverage.RoundHalfUpUnique | demo-active-positions.js:299 | that integer is the only one with this property |
| Leverage.RoundLeverage | demo-active-positions.js:295-300 | below 1 the result has one decimal and lies within 0.05 of the raw leverage; otherwise it is an integer within 0.5; it is never negative for a non-negative raw leverage |
| Leverage.CalculateLeverage | demo-active-positions.js:267-301 | order types 1 and 2 give the rounded value of \|open\| / \|stop − open\| on raw prices (the 10^23 scale cancels); every other type gives 0. The same function models the identical copy at demo-history-positions.js:87-121 |
| Leverage.OrderLeverage | demo-history-positions.js:143 | the leverage of an order record is never negative; types 1 and 2 give the rounded raw-price leverage of its two prices, every other type 0 |
| Leverage.RawLeverage | demo-active-positions.js:288-292 | the unrounded leverage is positive |
| Leverage.ScaleCancels | demo-active-positions.js:272-292 | the reciprocal of the absolute stop-loss ratio on display prices equals the ratio of raw prices |
| Leverage.LeverageIgnoresDirection | demo-active-positions.js:277-289 | order types 1 and 2 give the same, non-negative leverage |
| Leverage.RoundingExamples | demo-active-positions.js:295-300 | a raw leverage of 0.37 is reported as 0.4, and one of 24.6 as 25 |
| OpenValuation.LongStopLossPercentage | demo-active-positions.js:138-142 | the long percentage times the stop price is 100 × (latest − stop) |
| OpenValuation.ShortStopLossPercentage | demo-active-positions.js:212-214 | the short percentage times the stop price is 100 × (stop − latest) |
| OpenValuation.SellIncome | demo-active-positions.js:101-111 | the long proceeds are the sell quote for the locked token amount at the latest price: missing iff that call throws or has no amount, otherwise its lamports / 10^9 |
| OpenValuation.CloseCost | demo-active-positions.js:183-190 | the short close cost is the buy quote for the locked token amount at the latest price: missing iff that call throws or has no amount, otherwise its lamports / 10^9 |
| OpenValuation.UnlockAmount | demo-active-positions.js:193-200 | the short unlock amount is the buy quote for the locked token amount at the stop price: missing iff that call throws or has no amount, otherwise its lamports / 10^9 |
| OpenValuation.ShortGrossZeroAtStopPrice | demo-active-positions.js:193-214 | when the latest price is the stop price, the close cost and the unlock amount are the same quote, so short gross profit and the stop-loss percentage are 0 |
| OpenValuation.StopLossAntisymmetric | demo-active-positions.js:136-142 | for the same prices the short stop-loss percentage (line 214) is the negated long one; the long one is 0 iff the latest price equals the stop price |
| OpenValuation.LongProfit | demo-active-positions.js:98-142 | the result is missing exactly when the sell quote fails; otherwise margin, realized, net profit per variant, percentage × current margin = 100 × net, and stop-loss percentage |
| OpenValuation.LongFromIncome | demo-position.js:83-95 | gross profit is proceeds − borrowed plus the initial margin (first variant) or the current margin (second variant), and the breakdown satisfies the long valuation |
| OpenValuation.ShortProfit | demo-active-positions.js:182-214 | the result is missing exactly when either buy quote fails; gross = unlock − close cost, net = gross − initial margin, and percentage × initial margin = 100 × net (first variant) or 100 × (realized + net) (second variant) |
| OpenValuation.Branch | demo-active-positions.js:311-323 | under mapping m the long branch is missing iff the sell quote fails and the short branch iff either buy quote fails; a present result carries the current margin and the realized amount in SOL |
| OpenValuation.OpenData | demo-active-positions.js:306-343 | the result is missing iff the branch is; otherwise every USDT field is the SOL field times the rate, the direction label comes from the mapping, the order type from the order, and the SOL fields and percentages from the branch |
| OpenValuation.OpenPositionDispatch | demo-active-positions.js:311-319 | order_type 1 takes the long path; every other code, unknown ones included, takes the short path |
| OpenValuation.CreditedLongNetIgnoresMargin | demo-position.js:84-87 | in the realized-crediting variant, the long net profit does not depend on the current margin |
| OpenValuation.LongVariantsAgreeIff | demo-position.js:84-87 | the two long net profits are equal iff realized = initial margin − current margin (in lamports) |
| OpenValuation.ShortVariantsAgreeIff | demo-position.js:155-158 | the two short variants agree on every field but the percentage, and on the percentage iff realized is 0 |
| OpenValuation.MissingRealizedIsZero | demo-position.js:127-129 | in both directions an absent realized amount values exactly like 0 lamports, and the realized SOL field is 0 |
| ActivePositions.FormatOpenTime | demo-active-positions.js:236-260 | the script's copy, with its floors on real quotients, equals the shared formatter on every integer duration |
| ActivePositions.ActivePositionData | demo-active-positions.js:306-343 | missing iff the quote(s) of the selected direction fail; otherwise the first-variant metrics under the open-position mapping, dual-denominated, labelled LONG iff order_type is 1 and SHORT otherwise, with the order id, the formatted age and the leverage |
| ActivePositions.ActiveLongValuation | demo-active-positions.js:119-133 | long net = proceeds + initial margin − borrowed − current margin, and percentage × current margin = 100 × net |
| ActivePositions.ActiveShortValuation | demo-active-positions.js:203-214 | short net = unlock − close cost − initial margin, and percentage × initial margin = 100 × net, without realized |
| ActivePositions.UnknownOrderTypeIsShortWithZeroLeverage | demo-active-positions.js:311-326 | a code other than 1 and 2 is valued as short, labelled SHORT and shown with leverage 0 |
| ActivePositions.LongScenario | demo-active-positions.js:114-142 | the end-to-end long scenario: gross 2.1 SOL, net 1.1 SOL, profit 110 %, stop-loss 10 %, leverage 9 |
| PositionDemo.PositionDemoData | demo-position.js:182-215 | missing iff the quote(s) of the selected direction fail; otherwise the second-variant metrics under the open-position mapping, dual-denominated, labelled LONG iff order_type is 1 and SHORT otherwise, with the order type passed through |
| PositionDemo.PositionDemoLongValuation | demo-position.js:83-95 | long gross = proceeds + current margin − borrowed; net = proceeds − borrowed + realized; percentage taken on the current margin; the margin and realized shown are the current margin and realized in SOL |
| PositionDemo.PositionDemoShortValuation | demo-position.js:151-171 | short net = unlock − close cost − initial margin; percentage × initial margin = 100 × (realized + net); the margin shown is the current margin although the valuation uses the initial one, and realized is shown in SOL |
| HistoryPositions.FormatHoldingTime | demo-history-positions.js:59-80 | the holding-time copy, with its floors on real quotients, equals the shared formatter on close − start |
| HistoryPositions.ClosedRealized | demo-history-positions.js:157-168 | close reason 2 gives exactly 0 for SOL, USDT and percentage; any other reason gives realized / 10^9, that times the rate, and percentage × initial margin = 100 × realized |
| HistoryPositions.CalculateHistoryData | demo-history-positions.js:129-191 | the direction label is SHORT iff order_type is 1 and LONG otherwise; margin always from the initial margin; the realized fields follow the close-reason policy; holding time of close − start; leverage; close price, reason and timestamp passed through |
| HistoryPositions.ForcedLiquidationIsZero | demo-history-positions.js:157-161 | a forced liquidation reports 0 realized SOL, USDT and percentage |
| HistoryPositions.ForcedLiquidationIgnoresRealized | demo-history-positions.js:157-161 | under forced liquidation the recorded realized amount does not affect any output field |
| HistoryPositions.HoldingTimeExample | demo-history-positions.js:173-174 | a 90-second holding time is shown as "1m" |
| HistoryPositions.CloseReasonLabel | demo-history-positions.js:198-207 | codes 1..5 get their fixed labels; the unknown label is returned exactly for every other code |
| HistoryPositions.CloseReasonLabelRoundTrip | demo-history-positions.js:198-207 | each known code is read back from its label, and no label of an unknown code reads back as a code |

## Left out

- Network access, the SOL price and token reads, the `Promise.all` gating and the `main` loops are left out. They are I/O and orchestration. The mark price and the SOL rate are inputs.
- The SDK and the curve pricing formulas are left out because they are foreign code. The two quote functions are parameters (`Curve.CurveOracle`), and a call that throws is `None`.
- The clock (`Date.now()`) is left out. The current time `now` is a parameter of `FormatPositionTime` and `FormatOpenTime`.
- `formatDisplay`, `toFixed`, the `+` prefix and console logging are left out. They are presentation and floating-point formatting.
- decimal.js's 20-significant-digit rounding, the final `toNumber()` conversion to IEEE doubles and floating-point `Math.round` are left out. Values are exact reals, and `Math.round` is floor(x + 1/2).
- Division by zero is not modelled. Zero margin, zero price and open price = stop price give Infinity or NaN in decimal.js. The model makes the divisors non-zero preconditions (`LongDefined`, `ShortDefined`, `LeverageDefined`, `HistoryDefined`) and does not claim the code rejects such inputs.
- Non-numeric or malformed record fields are not modelled. The try/catch would report the Decimal constructor errors they cause. Fields are integers, and `realized_sol_amount` is either present or absent.
- The `direction` field of a history record is read by the code but never used, so it is not modelled.
- The test driver of `demo-time-format.js` (the console output and the sample orders) is left out. Its stated expectations are lemmas.
- OpenValuation.MissingRealizedIsZero: stated for the per-direction branch result rather than for the whole metrics record. The record is built from the branch and nothing else.
