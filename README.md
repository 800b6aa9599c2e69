# Markdown price optimization: pricing model and search problem

This project models the pricing logic of the "Price Optimization" page of a
promotional planning tool. The page chooses a fractional price change `x[i]`
for every item. Each change lies between minus the maximum allowed reduction
and zero. The goal is to maximise revenue without spending more than a
markdown budget. Each item has an elasticity `e[i]`, a current base price
`bp[i]` and a forecast base quantity `bq[i]`.

The model has four modules:

- `Vectors` (`vectors.dfy`): the numpy operations the page uses, over
  `seq<real>`. These are element-wise `+`, `-` and multiply, the dot
  product, `sum`, and constant vectors. It also holds the algebra of the dot
  product (scaling, distributivity, symmetry, monotonicity, sign of terms).
- `PriceModel` (`price_model.dfy`): new prices `bp*(1+x)`, new quantities
  `bq + e*x*bq`, revenue, the objective (negated revenue) that the optimizer
  minimises, and the markdown spend ("investment"). The spend is valued at
  the baseline quantities.
- `SearchSpace` (`search_space.dfy`): the problem handed to the optimizer.
  This is the per-item box `[-max_price/100, 0]`, the starting guess of half
  the maximum reduction, the budget constraint `0 <= investment <= budget`,
  and the fixed seed, iteration cap and population size. It also covers the
  two sliders these values come from: the price slider runs from 0 to 50%,
  and the budget slider runs up to truncated baseline revenue.
- `Reporting` (`reporting.dfy`): the figures shown when a result exists and
  reports success. These are new prices and quantities, baseline and
  optimized revenue and quantity, their absolute and percent changes, and the
  budget used.

All arithmetic uses exact reals. All functions are pure, as in the source.
The global optimizer is a library call. Its result is an input to
`Reporting` (`OptimizeResult`: solution, objective value, success flag). The
lemmas about it state what they assume of the result:

- `Consistent`: the reported value is the objective at the solution.
- `Admissible`: the solution lies in the box and meets the budget.

Two facts about the code shape the model's hypotheses:

- The price slider allows 0%, which gives the box `[0, 0]`. The maximum
  reduction therefore ranges over `[0, 1/2]`.
- The page checks only that its three data tables exist and are non-empty.
  Nothing checks the arrays' lengths, the signs of the prices or the signs of
  the quantities, so the lemmas state these as hypotheses (`Aligned`,
  `ValidItems`).

## Model

| member | source | states |
|---|---|---|
| PriceModel.ObjectiveAtZero | src/pages/4_Price_Optimization.py:8-13 | at the zero vector the objective is exactly minus the baseline revenue `bp . bq` |
| PriceModel.BaselineNonneg | src/pages/4_Price_Optimization.py:100 | baseline revenue is non-negative for positive prices and non-negative quantities |
| PriceModel.InvestmentAtZero | src/pages/4_Price_Optimization.py:16-20 | the zero vector spends exactly 0 |
| PriceModel.InvestmentClosedForm | src/pages/4_Price_Optimization.py:16-20 | the spend equals `-(sum of bp[i]*x[i]*bq[i])`, because the per-unit markdown `bp - new_price` is `-bp*x` |
| PriceModel.InvestmentBounds | src/pages/4_Price_Optimization.py:16-20 | for every `x` in `[-r, 0]`, the spend is between 0 and `r` times baseline revenue |
| PriceModel.InvestmentMonotone | src/pages/4_Price_Optimization.py:16-20 | a deeper cut on every item never spends less |
| PriceModel.ZeroInvestmentOnlyAtZero | src/pages/4_Price_Optimization.py:16-20 | with all base quantities positive, a vector without price increases that spends nothing is the zero vector |
| PriceModel.ZeroSpendKeepsBaseline | src/pages/4_Price_Optimization.py:8-20 | a vector without price increases that spends nothing spends exactly 0, gains no quantity on any item and earns exactly baseline revenue, for any elasticities and any non-negative quantities |
| PriceModel.NewPricePositive | src/pages/4_Price_Optimization.py:10 | for a maximum reduction below 100% and any in-bounds `x`, every new price is positive and at most its base price |
| PriceModel.RevenueDecomposition | src/pages/4_Price_Optimization.py:8-13 | revenue = baseline revenue - spend + (new prices . predicted quantity gain) |
| PriceModel.ZeroElasticityObjective | src/pages/4_Price_Optimization.py:8-13 | when all elasticities are 0 the objective is `-(bp . bq) + investment(x)` |
| PriceModel.ZeroElasticityNoGain | src/pages/4_Price_Optimization.py:8-13 | when all elasticities are 0, no in-bounds cut yields more than baseline revenue |
| PriceModel.TotalQtyDecomposition | src/pages/4_Price_Optimization.py:98-99 | total new quantity = total base quantity + total predicted gain |
| PriceModel.QtyGainNonneg | src/pages/4_Price_Optimization.py:9-11 | with non-positive elasticities and cuts, every item's quantity gain is non-negative |
| PriceModel.PriceCutRaisesQty | src/pages/4_Price_Optimization.py:9-11 | with non-positive elasticities, a price cut never lowers total quantity |
| SearchSpace.Trunc | src/pages/4_Price_Optimization.py:53-54 | Python `int()` of a float: the whole number toward zero, within 1 of the argument |
| SearchSpace.BudgetCeiling | src/pages/4_Price_Optimization.py:53-54 | the budget slider's ceiling is a non-negative whole amount `c` with `c <= bp . bq < c + 1` |
| SearchSpace.DefaultBudget | src/pages/4_Price_Optimization.py:57 | the budget slider's starting value lies within the slider's range |
| SearchSpace.MaxReduction | src/pages/4_Price_Optimization.py:62 | a price slider value in 0..50 gives a maximum reduction in `[0, 1/2]`; the fraction is non-negative exactly when the slider is |
| SearchSpace.Setup | src/pages/4_Price_Optimization.py:81-92 | the problem carries the objective's arguments `(e, bp, bq)` unchanged, and its starting guess and bounds have one entry per elasticity |
| SearchSpace.SetupBox | src/pages/4_Price_Optimization.py:85 | a vector is inside the problem's bounds exactly when it has one entry per item and each entry lies in `[-max_price/100, 0]` |
| SearchSpace.StartInBox | src/pages/4_Price_Optimization.py:83-85 | the starting guess lies inside the bounds whenever the slider is not negative |
| SearchSpace.StartInvestment | src/pages/4_Price_Optimization.py:83 | the starting guess spends exactly `(max_price/100) * 0.5 * (bp . bq)` |
| SearchSpace.StartFeasibleIff | src/pages/4_Price_Optimization.py:83-86 | the starting guess meets the budget constraint exactly when the budget covers half the maximum reduction of baseline revenue |
| SearchSpace.ZeroAdmissible | src/pages/4_Price_Optimization.py:85-86 | the zero vector is in the bounds and meets the constraint for every non-negative slider setting |
| SearchSpace.BoxSpendBound | src/pages/4_Price_Optimization.py:85 | inside the bounds, the spend is between 0 and `(max_price/100) * (bp . bq)`, which is at most half of `bp . bq`, so it never exceeds baseline revenue |
| SearchSpace.BoxSpendWithinCeiling | src/pages/4_Price_Optimization.py:53-57 | when baseline revenue is at least 1, no in-bounds point spends more than the budget slider's ceiling |
| SearchSpace.BudgetNotBinding | src/pages/4_Price_Optimization.py:86 | a budget of at least `(max_price/100) * (bp . bq)` makes every in-bounds point feasible |
| SearchSpace.BudgetRelaxation | src/pages/4_Price_Optimization.py:86 | raising the budget keeps every admissible point admissible |
| SearchSpace.ZeroBudgetOnlyZero | src/pages/4_Price_Optimization.py:85-86 | with a zero budget and positive base quantities, a point is admissible exactly when it is the zero vector |
| Reporting.PercentChange | src/pages/4_Price_Optimization.py:109 | the percent delta equals `(value - baseline) / baseline * 100`; it is absent exactly when the baseline is 0; for a positive baseline it is non-negative exactly when the value reaches the baseline |
| Reporting.Summarize | src/pages/4_Price_Optimization.py:94-117 | figures are shown exactly when a result exists and reports success; both percent deltas agree with their absolute figures |
| Reporting.SummaryRevenues | src/pages/4_Price_Optimization.py:97-108 | for a consistent result, optimized revenue `-fun` equals `new_price . new_qty` recomputed from the result, and baseline revenue is the objective at zero, negated |
| Reporting.SummaryRevenueChange | src/pages/4_Price_Optimization.py:109 | the revenue change equals what the quantity gain sells for at the new prices, less the budget used |
| Reporting.SummaryZeroElasticity | src/pages/4_Price_Optimization.py:109 | when all elasticities are 0, the revenue change is exactly minus the budget used, and is never positive in bounds |
| Reporting.SummaryQtyChange | src/pages/4_Price_Optimization.py:113-115 | with non-positive elasticities and cuts, the reported quantity change equals the total predicted gain `sum(e*x*bq)` and is non-negative |
| Reporting.SummaryBudgetUsed | src/pages/4_Price_Optimization.py:117 | an admissible result reports a budget used between 0 and the budget, and at most half of baseline revenue |
| Reporting.SummaryZeroBudget | src/pages/4_Price_Optimization.py:107-117 | with a zero budget, an admissible, consistent result reports baseline revenue, zero change and zero spend, even when some items have a zero forecast |

## Left out

- The global optimizer (differential evolution, lines 81-92) is a foreign
  library call and is not modelled. Its mutation, crossover, selection,
  constraint handling and stopping rule are not in this repository. The model
  states only the problem it is handed (`SearchSpace.Setup`). Its answer is
  the input `Reporting.OptimizeResult`. `Reporting.Consistent` and
  `SearchSpace.Admissible` state what the lemmas assume of that answer.
- The progress-bar callback, the spinner, buttons, sidebar sliders, session
  state and the caching decorators (lines 7, 15, 22-79) are UI plumbing. Only
  the slider ranges and the budget slider's ceiling and default are modelled.
  The result kept across page reruns is modelled as an `Option`, where `None`
  means no optimization has run yet.
- The slider steps (5% for the price slider, 10 for the budget slider) are not
  modelled. No property depends on them.
- The pandas derivation of elasticities, latest prices and the sum of the last
  four forecasts (lines 50-52) is data loading. The three sequences are inputs.
- Charts, CSV download, `np.around` and the `round` calls for display (lines
  103-146) are presentation and are not modelled. For example, the page shows
  the revenue change as the difference of two rounded values. The model
  keeps the unrounded difference.
- Float64 arithmetic: the model uses exact reals. Division by a zero baseline
  gives an infinite or undefined number in numpy. The model returns `None`
  instead (`Reporting.PercentChange`).
- Numpy broadcasting is not modelled: arrays of length 1 stretch to match,
  and other mismatched lengths raise an error. The model requires equal
  lengths instead.
- Non-finite inputs (infinities, NaN) cannot be written as reals and are not
  modelled.
- SearchSpace.BoxSpendWithinCeiling: requires baseline revenue of at least 1.
  Below that, the truncated slider ceiling is 0, yet an in-bounds cut can
  still spend a positive amount.
