/** The figures the results page derives from the optimizer's answer: new
    prices and quantities, baseline and optimized revenue and quantity, their
    changes (absolute and in percent) and the budget used. These are shown
    only when a result exists and reports success. Rounding for display is
    not modelled. */
module Reporting {
  import opened Vectors
  import opened PriceModel
  import opened SearchSpace

  datatype Option<T> = None | Some(value: T)

  /** The fields of the optimizer's result that the page reads: the solution
      `x`, the objective value `fun` found there, and the `success` flag. */
  datatype OptimizeResult = OptimizeResult(x: seq<real>, fun: real, success: bool)

  /** The optimizer's value is the objective at its solution, as any result of
      a minimiser of `objective_func` is. */
  predicate Consistent(res: OptimizeResult, e: seq<real>, bp: seq<real>, bq: seq<real>)
  {
    Aligned(res.x, e, bp, bq) && res.fun == Objective(res.x, e, bp, bq)
  }

  /** The figures shown after a successful optimization. */
  datatype Summary = Summary(
    newPrice: seq<real>, newQty: seq<real>,
    baselineRevenue: real, optimizedRevenue: real,
    revenueChange: real, revenueChangePct: Option<real>,
    baselineQty: real, optimizedQty: real,
    qtyChange: real, qtyChangePct: Option<real>,
    budgetUsed: real)

  /** The percent change from a baseline, computed as the ratio to the
      baseline less one, times 100; a zero baseline makes the float division
      produce no finite number, shown here as `None`. */
  function PercentChange(value: real, baseline: real): (pct: Option<real>)
    ensures pct.None? <==> baseline == 0.0
    ensures pct.Some? ==> pct.value == (value - baseline) / baseline * 100.0
    ensures pct.Some? && 0.0 < baseline ==> (0.0 <= pct.value <==> baseline <= value)
  {
    if baseline == 0.0 then None
    else
      var q := value / baseline;
      assert q - 1.0 == (value - baseline) / baseline by {
        assert (value - baseline) / baseline == value / baseline - baseline / baseline;
        assert baseline / baseline == 1.0;
      }
      assert 0.0 < baseline ==> (1.0 <= q <==> baseline <= value);
      Some((q - 1.0) * 100.0)
  }

  /** What the page shows for the stored result `opt`: nothing unless a
      result exists and reports success; otherwise the derived figures, with
      the optimized revenue read as `-fun`. */
  function Summarize(opt: Option<OptimizeResult>, e: seq<real>, bp: seq<real>, bq: seq<real>): (s: Option<Summary>)
    requires |e| == |bp| == |bq|
    requires opt.Some? ==> |opt.value.x| == |e|
    ensures s.Some? <==> opt.Some? && opt.value.success
    ensures s.Some? ==> s.value.revenueChangePct == PercentChange(s.value.optimizedRevenue, s.value.baselineRevenue)
    ensures s.Some? ==> s.value.qtyChangePct == PercentChange(s.value.optimizedQty, s.value.baselineQty)
  {
    if opt.None? || !opt.value.success then None
    else
      var x := opt.value.x;
      var newQty := NewQty(x, e, bq);
      var baseline := BaselineRevenue(bp, bq);
      var optimized := -opt.value.fun;
      var baselineQty := Sum(bq);
      var optimizedQty := Sum(newQty);
      Some(Summary(
        NewPrice(x, bp), newQty,
        baseline, optimized,
        optimized - baseline, PercentChange(optimized, baseline),
        baselineQty, optimizedQty,
        optimizedQty - baselineQty, PercentChange(optimizedQty, baselineQty),
        Investment(x, bp, bq)))
  }

  /** The reported revenues agree with the model: the optimized revenue is
      `new_price . new_qty` recomputed from the result, and the baseline is
      the objective at the zero vector, negated. */
  lemma SummaryRevenues(res: OptimizeResult, e: seq<real>, bp: seq<real>, bq: seq<real>)
    requires Consistent(res, e, bp, bq) && res.success
    ensures var s := Summarize(Some(res), e, bp, bq).value;
      && s.optimizedRevenue == Dot(s.newPrice, s.newQty)
      && s.baselineRevenue == -Objective(Zeros(|e|), e, bp, bq)
  {
    ObjectiveAtZero(e, bp, bq);
  }

  /** The reported revenue change is what the extra quantity sells for at the
      new prices, less the budget used. */
  lemma SummaryRevenueChange(res: OptimizeResult, e: seq<real>, bp: seq<real>, bq: seq<real>)
    requires Consistent(res, e, bp, bq) && res.success
    ensures var s := Summarize(Some(res), e, bp, bq).value;
      s.revenueChange == Dot(s.newPrice, QtyGain(res.x, e, bq)) - s.budgetUsed
  {
    RevenueDecomposition(res.x, e, bp, bq);
  }

  /** When no item responds to price, the reported revenue change is exactly
      the budget used, negated, and never a gain for an in-bounds result. */
  lemma SummaryZeroElasticity(res: OptimizeResult, e: seq<real>, bp: seq<real>, bq: seq<real>, maxPrice: int)
    requires Consistent(res, e, bp, bq) && res.success && ValidItems(bp, bq)
    requires forall i :: 0 <= i < |e| ==> e[i] == 0.0
    requires InBounds(res.x, MaxReduction(maxPrice))
    ensures var s := Summarize(Some(res), e, bp, bq).value;
      s.revenueChange == -s.budgetUsed <= 0.0
  {
    ZeroElasticityObjective(res.x, e, bp, bq);
    InvestmentBounds(res.x, bp, bq, MaxReduction(maxPrice));
  }

  /** With non-positive elasticities, an in-bounds result never reports a
      drop in quantity. */
  lemma SummaryQtyChange(res: OptimizeResult, e: seq<real>, bp: seq<real>, bq: seq<real>)
    requires |res.x| == |e| == |bp| == |bq| && res.success
    requires forall i :: 0 <= i < |e| ==> e[i] <= 0.0 && 0.0 <= bq[i] && res.x[i] <= 0.0
    ensures var s := Summarize(Some(res), e, bp, bq).value;
      0.0 <= s.qtyChange == Sum(QtyGain(res.x, e, bq))
  {
    TotalQtyDecomposition(res.x, e, bq);
    PriceCutRaisesQty(res.x, e, bq);
  }

  /** A result that satisfies the problem handed to the optimizer reports a
      budget used within the budget slider and within half of baseline revenue. */
  lemma SummaryBudgetUsed(res: OptimizeResult, e: seq<real>, bp: seq<real>, bq: seq<real>, maxPrice: int, maxBudget: int)
    requires |e| == |bp| && ValidItems(bp, bq) && PriceSliderRange(maxPrice) && res.success
    requires Admissible(Setup(e, bp, bq, maxPrice, maxBudget), res.x)
    ensures var s := Summarize(Some(res), e, bp, bq).value;
      && 0.0 <= s.budgetUsed <= maxBudget as real
      && s.budgetUsed <= 0.5 * s.baselineRevenue
  {
    BoxSpendBound(e, bp, bq, maxPrice, maxBudget, res.x);
  }

  /** With a zero budget, an admissible result reports exactly the baseline:
      no change in revenue and no spend. */
  lemma SummaryZeroBudget(res: OptimizeResult, e: seq<real>, bp: seq<real>, bq: seq<real>, maxPrice: int)
    requires Consistent(res, e, bp, bq) && res.success && ValidItems(bp, bq) && 0 <= maxPrice
    requires Admissible(Setup(e, bp, bq, maxPrice, 0), res.x)
    ensures var s := Summarize(Some(res), e, bp, bq).value;
      && s.optimizedRevenue == s.baselineRevenue
      && s.revenueChange == 0.0
      && s.budgetUsed == 0.0
  {
    SetupBox(e, bp, bq, maxPrice, 0, res.x);
    ZeroSpendKeepsBaseline(res.x, e, bp, bq);
  }
}
