# Energy dashboard impact engine in Dafny

This project models the calculation core of a small energy-efficiency
dashboard. The user picks measures ("modifiers"): a number of solar panels
and whether LED lighting is fitted. The engine turns each selection into a
twelve-month consumption multiplier. It multiplies the multipliers together
month by month and applies the product to the baseline monthly electricity
consumption. It then derives modified spend at 0.25 GBP per kWh and modified
emissions at 0.3 kg CO2e per kWh. The dashboard side reshapes one metric into
long-format rows for a bar chart and computes summary totals and a payback
period.

Modules:

- `Series` (series.dfy): `Option`/`Result`, the `[x] * n` repetition, the
  element-wise product that `zip` produces, and column sums.
- `Inputs` (inputs.dfy): utils/inputs.py. The modifiers, the two multiplier
  builders and the multiplier dispatch. It also holds `combine_multipliers`
  and `calculate_impact_of_modifiers`. Both are loops in the source, so both
  are methods proved against the specification functions `Combine` and
  `ImpactOf`. Because `zip` stops at the shorter list, the combined
  multiplier's length is the shortest of twelve and every input
  (`Inputs.CombineLength`).
- `Composition` (composition.dfy): what the combined multiplier is. Month by
  month it is the product of all inputs, in any order.
- `Impact` (impact.dfy): what the impact frame is. It has the shape of the
  input frame plus three columns, and is uniform scaling by the product of
  the selections' factors. Unknown names and the order of the selections do
  not matter, and neutral selections change nothing.
- `Display` (display.dfy): the in-scope parts of utils/display.py. These are
  the metric-to-column map, the plot reshaping with its view filter, and
  `get_stats` with the "no savings" payback sentinel.

Numbers are Dafny `real`, so every constant (0.05, 0.1, 0.25, 0.3, 300, 200)
is exact. A modifier is `Modifier(name, value)`. The name stays free text so
that unknown names can be expressed. The value is `Count(int)` or
`Flag(bool)`, and the model follows Python's coercions:

- the solar count goes through `n * 0.1` and `300 * n`, where `True` is 1;
- the LED value goes through truthiness;
- `int(led)` goes through integer conversion.

Multiplying a pandas column by a list of another length raises an error. The
model returns `Err(LengthMismatch(rows, 12))` in that case, so the impact
frame exists exactly when the baseline has twelve rows.

Behaviour of the code that is kept as written:

- The stats dictionaries have crossed labels. "Total Spend" holds the
  emissions total and "Total Emissions" holds the spend total, for both the
  baseline and the modified frame (utils/display.py:109-117).
  `Display.StatsLabelsSwapped` states this.
- The annual savings that the payback divides by come from the emissions
  columns, not the spend columns (utils/display.py:120). So the payback
  period is GBP divided by kg CO2e. `Display.PaybackIgnoresSpend` states
  that the payback depends on the emissions columns only.
- The solar factor `1 - 0.1 n` is not clamped. More than ten panels give a
  negative multiplier, and a negative count gives one above 1
  (`Inputs.SolarPanels`).

## Model

| member | source | states |
|---|---|---|
| Inputs.ApplyElecConsumptionReduction | utils/inputs.py:14-15 | the result has the input's length and element i is `values[i] * pct` |
| Impact.ReductionSum | utils/inputs.py:14-15 | scaling a column by a factor scales its sum by that factor |
| Inputs.SolarPanels | utils/inputs.py:17-20 | twelve months, each `1 - n/10`; zero panels give the all-ones identity; more than ten panels give negative factors and a negative count gives factors above 1 (no clamping) |
| Inputs.LedLighting | utils/inputs.py:22-25 | twelve months; 0.95 in every month when on, the all-ones identity when off |
| Inputs.MultiplierOf | utils/inputs.py:38-43 | a multiplier exists exactly for the names "solar_panels" and "led_lighting", and it has twelve months |
| Inputs.Multipliers | utils/inputs.py:37-43 | at most one multiplier per selection, each twelve months long |
| Inputs.MultipliersConcat | utils/inputs.py:38-43 | collecting multipliers from two lists of selections one after the other gives the two collections concatenated |
| Inputs.CombineLength | utils/inputs.py:28-30 | because zip stops at the shorter list, the combined multiplier's length is at most 12 and at most every input's length, and equals 12 or one input's length |
| Inputs.CombineEmpty | utils/inputs.py:28 | combining no multipliers gives twelve ones |
| Inputs.Combine | utils/inputs.py:27-31 | the fold the loop is proved equal to; its length is stated by Inputs.CombineLength, its months by Composition.CombineAt and its order independence by Composition.CombinePermutation |
| Inputs.CombineMultipliers | utils/inputs.py:27-31 | the loop's result is the accumulator after each list has been zipped in, in order |
| Inputs.CombinedMultipliersLength | utils/inputs.py:37-45 | the combined multiplier of any selections has twelve months |
| Inputs.ApplyMultiplier | utils/inputs.py:47-49 | the three column assignments: an error exactly when the multiplier's length differs from the row count, otherwise the baseline kept and three columns of the multiplier's length; Impact.UniformColumnsAt states the values month by month |
| Inputs.ImpactOf | utils/inputs.py:33-51 | the function the method is proved equal to; its shape is stated by Impact.ImpactShape and its values by Impact.ImpactOfUniform |
| Inputs.CalculateImpactOfModifiers | utils/inputs.py:33-51 | the loop collects exactly the multipliers of the recognised selections; the result is the impact frame, which exists exactly when the baseline has twelve rows and keeps the baseline unchanged |
| Composition.CombineAt | utils/inputs.py:27-31 | month m of the combined multiplier is the product of month m of every input list |
| Composition.CombineElementwise | utils/inputs.py:27-31 | with twelve-month inputs the result has twelve months and each is the product of that month across all inputs |
| Composition.CombineRemove | utils/inputs.py:29-30 | zipping any one input in last gives the same combined multiplier |
| Composition.CombinePermutation | utils/inputs.py:27-31 | permuting the inputs does not change the combined multiplier |
| Impact.ProductOfMultipliers | utils/inputs.py:37-45 | month m of the product of the collected multipliers is the product of the selections' factors |
| Impact.CombinedFactor | utils/inputs.py:37-45 | the combined multiplier has twelve months, each the product of the selections' factors |
| Impact.ImpactShape | utils/inputs.py:35-51 | the frame exists exactly when there are twelve rows, and is otherwise the length-mismatch error; the baseline columns come out unchanged and the three added columns have twelve months, rectangular when the baseline is |
| Impact.UniformColumnsAt | utils/inputs.py:47-49 | for a uniform multiplier, month m of modified consumption is baseline times the factor, and modified spend and emissions are modified consumption at 0.25 and 0.3 |
| Impact.ImpactOfUniform | utils/inputs.py:37-47 | the impact frame is the baseline scaled by the product of the selections' factors, the same in every month |
| Impact.MultipliersPermutation | utils/inputs.py:38-43 | reordering the selections reorders the collected multipliers |
| Impact.ImpactPermutation | utils/inputs.py:37-49 | reordering the selections gives the same impact frame |
| Impact.ImpactSkipsUnknown | utils/inputs.py:39-43 | a selection with an unknown name, anywhere in the list, changes nothing |
| Impact.KnownMultipliers | utils/inputs.py:39-43 | dropping the unknown names does not change the collected multipliers |
| Impact.ImpactKnownOnly | utils/inputs.py:39-43 | the impact of the recognised selections alone equals the impact of the whole list |
| Impact.NeutralFactorProduct | utils/inputs.py:17-25 | zero panels, LED off and unknown names all have factor 1, so their product is 1 |
| Impact.ApplyOnes | utils/inputs.py:47 | applying the all-ones multiplier keeps consumption as it is |
| Impact.ImpactIdentity | utils/inputs.py:45-49 | with only neutral selections, modified consumption equals baseline consumption, and modified spend and emissions are baseline consumption at 0.25 and 0.3 |
| Impact.NoSelectionNoChange | utils/inputs.py:45-47 | no selections, and zero panels with LED off, both leave consumption unchanged month by month |
| Display.ColumnPairs | utils/display.py:18-24 | each metric's base and modified columns differ, and no two metrics share a column; Display.ColumnPairsResolve names them |
| Display.ColumnPairsResolve | utils/display.py:18-24 | exactly three metrics; each maps to the baseline column holding it and to the modified column the impact calculation adds for it |
| Display.Where | utils/display.py:46-49 | the filtered rows are no more than the input rows and all carry the selected tag |
| Display.WhereConcat | utils/display.py:46-49 | filtering a concatenation filters each part |
| Display.WhereUniform | utils/display.py:46-49 | filtering keeps rows that all carry the tag, and empties rows that all carry the other tag |
| Display.PrepareDataForPlotting | utils/display.py:33-51 | a metric outside the three display names is a KeyError for that name, and every known metric gives rows |
| Display.PlotBoth | utils/display.py:40-44 | with view "Both" (or any unrecognised view) there are 2n rows: the n months with base values tagged original, then the n months with modified values tagged modified |
| Display.PlotOriginalOnly | utils/display.py:46-47 | "Original Only" yields exactly the n original rows in month order |
| Display.PlotModifiedOnly | utils/display.py:48-49 | "Modified Only" yields exactly the n modified rows in month order |
| Display.PlotViewsPartition | utils/display.py:40-49 | the unfiltered rows are the "Original Only" rows followed by the "Modified Only" rows |
| Display.FirstValue | utils/display.py:119-121 | no value exactly when no selection has the name, and otherwise the value of a selection with it; Display.FirstValueIsFirstEntry adds that it is the earliest |
| Display.FirstValueIsFirstEntry | utils/display.py:119-121 | the lookup fails exactly when no selection has the name, and otherwise gives the value of the earliest selection with it |
| Display.AnnualSavings | utils/display.py:120 | unchanged emissions save nothing, and the savings are positive exactly when modified emissions total less than baseline emissions; Display.PaybackIgnoresSpend states that spend plays no part |
| Display.CapitalCost | utils/display.py:122 | GBP 300 per panel plus GBP 200 when LED lighting is on |
| Display.PaybackOf | utils/display.py:124 | the sentinel exactly when savings are zero; otherwise years times savings equals the cost |
| Display.GetStats | utils/display.py:102-126 | an IndexError exactly when a solar or LED selection is missing (solar checked first); otherwise the payback is the sentinel exactly when the emissions totals are equal, and years times annual savings is the capital cost of the first solar and LED selections |
| Display.StatsLabelsSwapped | utils/display.py:109-117 | "Total Spend" holds the emissions total and "Total Emissions" the spend total, for baseline and modified |
| Display.PaybackIgnoresSpend | utils/display.py:103-124 | frames that agree on the emissions columns give the same payback, whatever their spend |
| Display.EmissionsMatchNoSavings | utils/display.py:120 | when baseline and modified emissions are both consumption at 0.3, the annual savings are zero |
| Display.NeutralNoSavings | utils/display.py:119-124 | with neutral selections and baseline emissions equal to consumption at 0.3, the payback is the "no savings" sentinel |

## Left out

- The Streamlit user interface is not part of this model: metric selection, the impact cards of `show_impact_stats`, both `main` functions and their page routing.
- The Plotly chart (`plot_chart`) is not modelled: colours, axis titles and layout are presentation only.
- Reading the CSV (`load_data`) is left out. The baseline months and the consumption, spend and emissions columns are parameters.
- `choose_inputs` and `hard_coded_disabled_inputs` are not part of this model. The selections are parameters.
- Floating point: all arithmetic is exact `real`, so rounding and IEEE-754 behaviour are not modelled.
- The seasonal solar curve is not modelled, because the code has only the uniform model.
- Modifier values other than integers and booleans (floats, strings) are not modelled.
- The pandas row index is not modelled. After filtering, pandas keeps the original labels (n to 2n-1 for "Modified Only"), but the model keeps only the row contents and their order.
- The copy of the baseline frame is implicit: frames are immutable values, so aliasing between the input and the result cannot be expressed.
- Display.PrepareDataForPlotting: requires a rectangular frame, because every pandas data frame has one entry per row in each column.
- Display.CapitalCost: its contract spells out the cost only for a count of panels and an LED flag. Other value shapes follow the Python integer coercion in its body.
