/** The search problem handed to the global optimizer: the per-item box
    `[-max_price/100, 0]`, the starting guess, the budget constraint
    `0 <= investment(x) <= max_budget`, and the fixed solver settings; plus the
    ranges of the two sliders those values come from. The optimizer itself is
    a library call and is not modelled: only the problem it is given is. */
module SearchSpace {
  import opened Vectors
  import opened PriceModel

  /** Fixed solver settings: random seed, generation cap and population multiplier. */
  const Seed: int := 1234
  const MaxIter: nat := 200
  const PopSize: nat := 10

  /** The "Maximum Price Reduction" slider runs over whole percents from 0 to 50. */
  predicate PriceSliderRange(maxPrice: int)
  {
    0 <= maxPrice <= 50
  }

  /** The "Budget" slider runs over whole amounts from 0 up to its ceiling. */
  predicate BudgetSliderRange(maxBudget: int, ceiling: int)
  {
    0 <= maxBudget <= ceiling
  }

  /** Python's `int()` of a float: truncation toward zero. */
  function Trunc(r: real): (t: int)
    ensures 0.0 <= r ==> 0 <= t && t as real <= r < t as real + 1.0
    ensures r < 0.0 ==> t <= 0 && t as real - 1.0 < r <= t as real
  {
    if 0.0 <= r then r.Floor else -((-r).Floor)
  }

  /** The budget slider's ceiling: baseline revenue truncated to a whole
      amount (the rounding applied after truncation changes nothing). */
  function BudgetCeiling(bp: seq<real>, bq: seq<real>): (c: int)
    requires |bp| == |bq|
    ensures ValidItems(bp, bq) ==>
      0 <= c && c as real <= BaselineRevenue(bp, bq) < c as real + 1.0
  {
    assert ValidItems(bp, bq) ==> 0.0 <= BaselineRevenue(bp, bq) by {
      if ValidItems(bp, bq) { BaselineNonneg(bp, bq); }
    }
    Trunc(BaselineRevenue(bp, bq))
  }

  /** Where the budget slider starts: 30% of its ceiling, truncated. */
  function DefaultBudget(ceiling: int): (b: int)
    ensures 0 <= ceiling ==> BudgetSliderRange(b, ceiling)
  {
    Trunc(0.3 * ceiling as real)
  }

  /** The price slider's percent as a fraction. */
  function MaxReduction(maxPrice: int): (r: real)
    ensures PriceSliderRange(maxPrice) ==> 0.0 <= r <= 0.5
    ensures 0 <= maxPrice <==> 0.0 <= r
  {
    maxPrice as real / 100.0
  }

  /** Everything passed to the optimizer: the objective's extra arguments
      `(e, bp, bq)`, the starting guess, the bounds, the constraint's range
      and the solver settings. */
  datatype Problem = Problem(
    e: seq<real>, bp: seq<real>, bq: seq<real>,
    x0: seq<real>, lb: seq<real>, ub: seq<real>,
    budgetLo: real, budgetHi: real,
    seed: int, maxIter: nat, popSize: nat)

  /** The optimizer's arguments: a starting guess of half the maximum
      reduction on every item, lower bounds at the maximum reduction, upper
      bounds at zero, and the constraint range from zero to the budget, all
      sized by the number of elasticities. */
  function Setup(e: seq<real>, bp: seq<real>, bq: seq<real>, maxPrice: int, maxBudget: int): (p: Problem)
    ensures p.e == e && p.bp == bp && p.bq == bq
    ensures |p.x0| == |p.lb| == |p.ub| == |e|
  {
    var r := MaxReduction(maxPrice);
    Problem(e, bp, bq,
            Fill(|e|, -r * 0.5), Fill(|e|, -r), Zeros(|e|),
            0.0, maxBudget as real,
            Seed, MaxIter, PopSize)
  }

  /** `x` lies inside the problem's bounds. */
  predicate InBox(p: Problem, x: seq<real>)
  {
    |x| == |p.lb| && |x| == |p.ub| && forall i :: 0 <= i < |x| ==> p.lb[i] <= x[i] <= p.ub[i]
  }

  /** `x` meets the budget constraint `budgetLo <= investment(x) <= budgetHi`. */
  predicate Feasible(p: Problem, x: seq<real>)
  {
    |x| == |p.bp| && |p.bp| == |p.bq| && p.budgetLo <= Investment(x, p.bp, p.bq) <= p.budgetHi
  }

  /** `x` is a point the optimizer may return as a solution. */
  predicate Admissible(p: Problem, x: seq<real>)
  {
    InBox(p, x) && Feasible(p, x)
  }

  /** The box of the set-up problem is exactly the price-change range
      `[-max_price/100, 0]` on every item. */
  lemma SetupBox(e: seq<real>, bp: seq<real>, bq: seq<real>, maxPrice: int, maxBudget: int, x: seq<real>)
    ensures InBox(Setup(e, bp, bq, maxPrice, maxBudget), x)
        <==> |x| == |e| && InBounds(x, MaxReduction(maxPrice))
  {
    var p := Setup(e, bp, bq, maxPrice, maxBudget);
    if |x| == |e| {
      forall i | 0 <= i < |x|
        ensures (p.lb[i] <= x[i] <= p.ub[i]) == (-MaxReduction(maxPrice) <= x[i] <= 0.0)
      {
        assert p.lb[i] == -MaxReduction(maxPrice) && p.ub[i] == 0.0;
      }
    }
  }

  /** The starting guess, halfway down the allowed reduction, lies inside the
      box whenever the slider is not negative. */
  lemma StartInBox(e: seq<real>, bp: seq<real>, bq: seq<real>, maxPrice: int, maxBudget: int)
    requires 0 <= maxPrice
    ensures InBox(Setup(e, bp, bq, maxPrice, maxBudget), Setup(e, bp, bq, maxPrice, maxBudget).x0)
  {
    var p := Setup(e, bp, bq, maxPrice, maxBudget);
    var r := MaxReduction(maxPrice);
    forall i | 0 <= i < |p.x0|
      ensures p.lb[i] <= p.x0[i] <= p.ub[i]
    {
      assert p.x0[i] == -r * 0.5 && p.lb[i] == -r && p.ub[i] == 0.0;
    }
  }

  /** The starting guess spends exactly half the maximum reduction of the
      baseline revenue. */
  lemma StartInvestment(e: seq<real>, bp: seq<real>, bq: seq<real>, maxPrice: int, maxBudget: int)
    requires |e| == |bp| == |bq|
    ensures Investment(Setup(e, bp, bq, maxPrice, maxBudget).x0, bp, bq)
         == MaxReduction(maxPrice) * 0.5 * BaselineRevenue(bp, bq)
  {
    var x0 := Setup(e, bp, bq, maxPrice, maxBudget).x0;
    var k := -MaxReduction(maxPrice) * 0.5;
    InvestmentClosedForm(x0, bp, bq);
    forall i | 0 <= i < |bp|
      ensures Mul(bp, x0)[i] == k * bp[i]
    {
      assert x0[i] == k;
    }
    DotScaleLeft(k, bp, Mul(bp, x0), bq);
  }

  /** The starting guess meets the budget exactly when the budget covers half
      the maximum reduction of the baseline revenue. */
  lemma StartFeasibleIff(e: seq<real>, bp: seq<real>, bq: seq<real>, maxPrice: int, maxBudget: int)
    requires |e| == |bp| && ValidItems(bp, bq) && 0 <= maxPrice
    ensures Feasible(Setup(e, bp, bq, maxPrice, maxBudget), Setup(e, bp, bq, maxPrice, maxBudget).x0)
        <==> MaxReduction(maxPrice) * 0.5 * BaselineRevenue(bp, bq) <= maxBudget as real
  {
    StartInvestment(e, bp, bq, maxPrice, maxBudget);
    BaselineNonneg(bp, bq);
    ScaleMono(MaxReduction(maxPrice) * 0.5, 0.0, BaselineRevenue(bp, bq));
  }

  /** Leaving every price unchanged is always admissible: the feasible region
      is never empty for any slider setting. */
  lemma ZeroAdmissible(e: seq<real>, bp: seq<real>, bq: seq<real>, maxPrice: int, maxBudget: int)
    requires |e| == |bp| == |bq| && 0 <= maxPrice && 0 <= maxBudget
    ensures Admissible(Setup(e, bp, bq, maxPrice, maxBudget), Zeros(|e|))
  {
    InvestmentAtZero(bp, bq);
    SetupBox(e, bp, bq, maxPrice, maxBudget, Zeros(|e|));
  }

  /** Inside the box the spend never exceeds the maximum reduction of the
      baseline revenue, hence never half of it with the slider's cap at 50%,
      and never the baseline revenue itself. */
  lemma BoxSpendBound(e: seq<real>, bp: seq<real>, bq: seq<real>, maxPrice: int, maxBudget: int, x: seq<real>)
    requires |e| == |bp| && ValidItems(bp, bq) && PriceSliderRange(maxPrice)
    requires InBox(Setup(e, bp, bq, maxPrice, maxBudget), x)
    ensures 0.0 <= Investment(x, bp, bq) <= MaxReduction(maxPrice) * BaselineRevenue(bp, bq)
    ensures Investment(x, bp, bq) <= 0.5 * BaselineRevenue(bp, bq)
    ensures Investment(x, bp, bq) <= BaselineRevenue(bp, bq)
  {
    var r, b := MaxReduction(maxPrice), BaselineRevenue(bp, bq);
    SetupBox(e, bp, bq, maxPrice, maxBudget, x);
    InvestmentBounds(x, bp, bq, r);
    BaselineNonneg(bp, bq);
    HalfOfBaseline(Investment(x, bp, bq), r, b);
  }

  /** A spend of at most the fraction `r <= 1/2` of a non-negative baseline
      is at most half of it. */
  lemma HalfOfBaseline(spend: real, r: real, b: real)
    requires 0.0 <= b && r <= 0.5 && spend <= r * b
    ensures spend <= 0.5 * b
  {
    ScaleMono(b, r, 0.5);
  }

  /** Once baseline revenue is at least 1, no point in the box spends more than
      the budget slider's (truncated) ceiling. */
  lemma BoxSpendWithinCeiling(e: seq<real>, bp: seq<real>, bq: seq<real>, maxPrice: int, maxBudget: int, x: seq<real>)
    requires |e| == |bp| && ValidItems(bp, bq) && PriceSliderRange(maxPrice)
    requires 1.0 <= BaselineRevenue(bp, bq)
    requires InBox(Setup(e, bp, bq, maxPrice, maxBudget), x)
    ensures Investment(x, bp, bq) <= BudgetCeiling(bp, bq) as real
  {
    BoxSpendBound(e, bp, bq, maxPrice, maxBudget, x);
  }

  /** A budget of at least the maximum reduction of baseline revenue never
      binds: every point in the box is then feasible. */
  lemma BudgetNotBinding(e: seq<real>, bp: seq<real>, bq: seq<real>, maxPrice: int, maxBudget: int, x: seq<real>)
    requires |e| == |bp| && ValidItems(bp, bq) && 0 <= maxPrice
    requires MaxReduction(maxPrice) * BaselineRevenue(bp, bq) <= maxBudget as real
    requires InBox(Setup(e, bp, bq, maxPrice, maxBudget), x)
    ensures Admissible(Setup(e, bp, bq, maxPrice, maxBudget), x)
  {
    SetupBox(e, bp, bq, maxPrice, maxBudget, x);
    InvestmentBounds(x, bp, bq, MaxReduction(maxPrice));
  }

  /** Raising the budget only adds admissible points. */
  lemma BudgetRelaxation(e: seq<real>, bp: seq<real>, bq: seq<real>, maxPrice: int, b1: int, b2: int, x: seq<real>)
    requires b1 <= b2
    requires Admissible(Setup(e, bp, bq, maxPrice, b1), x)
    ensures Admissible(Setup(e, bp, bq, maxPrice, b2), x)
  {
    SetupBox(e, bp, bq, maxPrice, b1, x);
    SetupBox(e, bp, bq, maxPrice, b2, x);
  }

  /** With a zero budget and every base quantity positive, leaving prices
      unchanged is the only admissible point. */
  lemma ZeroBudgetOnlyZero(e: seq<real>, bp: seq<real>, bq: seq<real>, maxPrice: int, x: seq<real>)
    requires |e| == |bp| && ValidItems(bp, bq) && 0 <= maxPrice
    requires forall i :: 0 <= i < |bq| ==> 0.0 < bq[i]
    ensures Admissible(Setup(e, bp, bq, maxPrice, 0), x) <==> x == Zeros(|e|)
  {
    if Admissible(Setup(e, bp, bq, maxPrice, 0), x) {
      SetupBox(e, bp, bq, maxPrice, 0, x);
      ZeroInvestmentOnlyAtZero(x, bp, bq);
    }
    if x == Zeros(|e|) {
      ZeroAdmissible(e, bp, bq, maxPrice, 0);
    }
  }
}
