/** The pricing model that the markdown optimizer searches over: for a vector
    `x` of fractional price changes, one per item, the new prices, the
    elasticity-driven new quantities, the (negated) revenue the optimizer
    minimises, and the markdown spend ("investment") that the budget limits.
    Items are given as three index-aligned sequences: elasticities `e`, base
    prices `bp` and base quantities `bq`. */
module PriceModel {
  import opened Vectors

  /** The decision vector and the three item sequences describe the same items. */
  predicate Aligned(x: seq<real>, e: seq<real>, bp: seq<real>, bq: seq<real>)
  {
    |x| == |e| && |e| == |bp| && |bp| == |bq|
  }

  /** Every item has a positive base price and a non-negative base quantity. */
  predicate ValidItems(bp: seq<real>, bq: seq<real>)
  {
    |bp| == |bq| && forall i :: 0 <= i < |bp| ==> 0.0 < bp[i] && 0.0 <= bq[i]
  }

  /** Every price change lies in the search box `[-r, 0]`. */
  predicate InBounds(x: seq<real>, r: real)
  {
    forall i :: 0 <= i < |x| ==> -r <= x[i] <= 0.0
  }

  /** The new prices: each base price plus its fractional change times itself. */
  function NewPrice(x: seq<real>, bp: seq<real>): (r: seq<real>)
    requires |x| == |bp|
    ensures |r| == |bp|
  {
    Add(bp, Mul(bp, x))
  }

  /** The change in quantity that the elasticities predict for the price
      changes `x`: elasticity times price change (the fractional change in
      quantity) times base quantity, item by item. */
  function QtyGain(x: seq<real>, e: seq<real>, bq: seq<real>): (r: seq<real>)
    requires |x| == |e| == |bq|
    ensures |r| == |bq|
  {
    Mul(Mul(e, x), bq)
  }

  /** The quantity each item sells at its new price: base quantity plus the predicted change. */
  function NewQty(x: seq<real>, e: seq<real>, bq: seq<real>): (r: seq<real>)
    requires |x| == |e| == |bq|
    ensures |r| == |bq|
  {
    Add(bq, QtyGain(x, e, bq))
  }

  /** Total revenue at the new prices: the dot product of new prices and new quantities. */
  function Revenue(x: seq<real>, e: seq<real>, bp: seq<real>, bq: seq<real>): real
    requires Aligned(x, e, bp, bq)
  {
    Dot(NewPrice(x, bp), NewQty(x, e, bq))
  }

  /** The optimizer's objective: revenue negated, so that minimising it maximises revenue. */
  function Objective(x: seq<real>, e: seq<real>, bp: seq<real>, bq: seq<real>): real
    requires Aligned(x, e, bp, bq)
  {
    -Revenue(x, e, bp, bq)
  }

  /** Revenue at the current prices and forecast quantities. */
  function BaselineRevenue(bp: seq<real>, bq: seq<real>): real
    requires |bp| == |bq|
  {
    Dot(bp, bq)
  }

  /** The markdown per unit of each item: base price less new price. */
  function Markdown(x: seq<real>, bp: seq<real>): (r: seq<real>)
    requires |x| == |bp|
    ensures |r| == |bp|
  {
    Sub(bp, NewPrice(x, bp))
  }

  /** The markdown spend ("investment"): per-unit markdowns valued at the
      baseline, not the new, quantities. */
  function Investment(x: seq<real>, bp: seq<real>, bq: seq<real>): real
    requires |x| == |bp| == |bq|
  {
    Dot(Markdown(x, bp), bq)
  }

  /** A non-negative factor keeps the order of two reals. */
  lemma ScaleMono(p: real, x: real, y: real)
    requires 0.0 <= p && x <= y
    ensures p * x <= p * y
  {
    assert 0.0 <= p * (y - x);
  }

  /** One item's new price `p + p * x` for a cut `x` in `[-r, 0]`, with `r < 1`,
      is positive and at most the base price `p`. */
  lemma ItemNewPrice(p: real, x: real, r: real, px: real)
    requires 0.0 < p && r < 1.0 && -r <= x <= 0.0 && px == p * x
    ensures 0.0 < p + px <= p
  {
    ScaleMono(p, -1.0, x);
    ScaleMono(p, x, 0.0);
    assert p + p * -1.0 == 0.0;
    assert p * -1.0 < p * x by {
      assert 0.0 < p * (x + 1.0);
    }
  }

  /** One item's price change `p * x` for a cut `x` in `[-r, 0]` lies between
      `-r * p` and zero. */
  lemma ItemCut(p: real, x: real, r: real, px: real)
    requires 0.0 < p && -r <= x <= 0.0 && px == p * x
    ensures -r * p <= px <= 0.0
  {
    ScaleMono(p, -r, x);
    ScaleMono(p, x, 0.0);
  }

  /** One item's quantity gain `(e * x) * q` is non-negative when its
      elasticity `e` and its cut `x` are both at most zero. */
  lemma ItemQtyGain(e: real, x: real, q: real, ex: real, g: real)
    requires e <= 0.0 && x <= 0.0 && 0.0 <= q && ex == e * x && g == ex * q
    ensures 0.0 <= g
  {
    assert 0.0 <= ex by {
      assert e * x == (-e) * (-x);
    }
  }

  /** Baseline revenue is never negative. */
  lemma BaselineNonneg(bp: seq<real>, bq: seq<real>)
    requires ValidItems(bp, bq)
    ensures 0.0 <= BaselineRevenue(bp, bq)
  {
    DotMonoLeft(Zeros(|bp|), bp, bq);
    DotZeroLeft(Zeros(|bp|), bq);
  }

  /** At the zero vector the objective is exactly the negated baseline revenue. */
  lemma ObjectiveAtZero(e: seq<real>, bp: seq<real>, bq: seq<real>)
    requires |e| == |bp| == |bq|
    ensures Objective(Zeros(|e|), e, bp, bq) == -BaselineRevenue(bp, bq)
  {
    var z := Zeros(|e|);
    forall i | 0 <= i < |e|
      ensures NewPrice(z, bp)[i] == bp[i] && NewQty(z, e, bq)[i] == bq[i]
    {
      assert z[i] == 0.0;
      assert Mul(bp, z)[i] == 0.0;
      assert Mul(e, z)[i] == 0.0;
      assert QtyGain(z, e, bq)[i] == 0.0 * bq[i];
    }
    assert NewPrice(z, bp) == bp;
    assert NewQty(z, e, bq) == bq;
  }

  /** At the zero vector nothing is spent. */
  lemma InvestmentAtZero(bp: seq<real>, bq: seq<real>)
    requires |bp| == |bq|
    ensures Investment(Zeros(|bp|), bp, bq) == 0.0
  {
    DotZeroLeft(Markdown(Zeros(|bp|), bp), bq);
  }

  /** The markdown per unit is `-bp[i] * x[i]`, so the spend is
      `-(sum of bp[i] * x[i] * bq[i])`. */
  lemma InvestmentClosedForm(x: seq<real>, bp: seq<real>, bq: seq<real>)
    requires |x| == |bp| == |bq|
    ensures Investment(x, bp, bq) == -Dot(Mul(bp, x), bq)
  {
    DotScaleLeft(-1.0, Mul(bp, x), Markdown(x, bp), bq);
  }

  /** Within the bounds `[-r, 0]` the spend is non-negative and at most the
      fraction `r` of baseline revenue. */
  lemma InvestmentBounds(x: seq<real>, bp: seq<real>, bq: seq<real>, r: real)
    requires |x| == |bp| && ValidItems(bp, bq)
    requires InBounds(x, r)
    ensures 0.0 <= Investment(x, bp, bq) <= r * BaselineRevenue(bp, bq)
  {
    InvestmentClosedForm(x, bp, bq);
    var lowest := Mul(Fill(|bp|, -r), bp);
    PerUnitMarkdownBetween(x, bp, r, lowest);
    DotMonoLeft(lowest, Mul(bp, x), bq);
    DotMonoLeft(Mul(bp, x), Zeros(|bp|), bq);
    DotZeroLeft(Zeros(|bp|), bq);
    DotScaleLeft(-r, bp, lowest, bq);
  }

  /** Within the bounds, each price change `bp[i] * x[i]` lies between
      `-r * bp[i]` (given here as `lowest`) and zero. */
  lemma PerUnitMarkdownBetween(x: seq<real>, bp: seq<real>, r: real, lowest: seq<real>)
    requires |x| == |bp| == |lowest|
    requires forall i :: 0 <= i < |bp| ==> 0.0 < bp[i] && lowest[i] == -r * bp[i]
    requires InBounds(x, r)
    ensures forall i :: 0 <= i < |bp| ==> lowest[i] <= Mul(bp, x)[i] <= Zeros(|bp|)[i]
  {
    forall i | 0 <= i < |bp|
      ensures lowest[i] <= Mul(bp, x)[i] <= Zeros(|bp|)[i]
    {
      ItemCut(bp[i], x[i], r, Mul(bp, x)[i]);
    }
  }

  /** A deeper cut on every item never costs less. */
  lemma InvestmentMonotone(x: seq<real>, y: seq<real>, bp: seq<real>, bq: seq<real>)
    requires |x| == |y| == |bp| && ValidItems(bp, bq)
    requires forall i :: 0 <= i < |x| ==> x[i] <= y[i]
    ensures Investment(y, bp, bq) <= Investment(x, bp, bq)
  {
    InvestmentClosedForm(x, bp, bq);
    InvestmentClosedForm(y, bp, bq);
    forall i | 0 <= i < |bp|
      ensures Mul(bp, x)[i] <= Mul(bp, y)[i]
    {
      ScaleMono(bp[i], x[i], y[i]);
    }
    DotMonoLeft(Mul(bp, x), Mul(bp, y), bq);
  }

  /** With every base quantity positive, the zero vector is the only vector
      without price increases that spends nothing. */
  lemma ZeroInvestmentOnlyAtZero(x: seq<real>, bp: seq<real>, bq: seq<real>)
    requires |x| == |bp| && ValidItems(bp, bq)
    requires forall i :: 0 <= i < |bq| ==> 0.0 < bq[i]
    requires forall i :: 0 <= i < |x| ==> x[i] <= 0.0
    requires Investment(x, bp, bq) <= 0.0
    ensures x == Zeros(|x|)
  {
    InvestmentClosedForm(x, bp, bq);
    var m := Mul(bp, x);
    forall i | 0 <= i < |m|
      ensures m[i] * bq[i] <= 0.0
    {
      ScaleMono(bp[i], x[i], 0.0);
      ScaleMono(bq[i], m[i], 0.0);
    }
    DotNonposTerms(m, bq);
    DotZeroTerms(m, bq);
    forall i | 0 <= i < |x|
      ensures x[i] == 0.0
    {
      assert m[i] * bq[i] == 0.0;
      assert m[i] == 0.0;
      assert bp[i] * x[i] == 0.0;
    }
  }

  /** One item whose spend term `(p * x) * q` is zero, with a positive price
      `p`, gains no quantity: `(e * x) * q` is zero for any elasticity `e`. */
  lemma ItemNoGain(p: real, x: real, q: real, e: real, m: real, ex: real, g: real)
    requires 0.0 < p && m == p * x && m * q == 0.0 && ex == e * x && g == ex * q
    ensures g == 0.0
  {
    if q != 0.0 {
      assert m == 0.0;
      assert x == 0.0;
      assert ex == 0.0;
    }
  }

  /** A vector without price increases that spends nothing leaves revenue at
      the baseline, whatever the elasticities: every item either keeps its
      price or has no base quantity to gain from. */
  lemma ZeroSpendKeepsBaseline(x: seq<real>, e: seq<real>, bp: seq<real>, bq: seq<real>)
    requires Aligned(x, e, bp, bq) && ValidItems(bp, bq)
    requires forall i :: 0 <= i < |x| ==> x[i] <= 0.0
    requires Investment(x, bp, bq) <= 0.0
    ensures Investment(x, bp, bq) == 0.0
    ensures forall i :: 0 <= i < |bq| ==> QtyGain(x, e, bq)[i] == 0.0
    ensures Revenue(x, e, bp, bq) == BaselineRevenue(bp, bq)
  {
    InvestmentClosedForm(x, bp, bq);
    var m := Mul(bp, x);
    forall i | 0 <= i < |m|
      ensures m[i] * bq[i] <= 0.0
    {
      ScaleMono(bp[i], x[i], 0.0);
      ScaleMono(bq[i], m[i], 0.0);
    }
    DotNonposTerms(m, bq);
    DotZeroTerms(m, bq);
    var g := QtyGain(x, e, bq);
    forall i | 0 <= i < |g|
      ensures g[i] == 0.0
    {
      ItemNoGain(bp[i], x[i], bq[i], e[i], m[i], Mul(e, x)[i], g[i]);
    }
    DotZeroLeft(g, NewPrice(x, bp));
    DotCommutes(NewPrice(x, bp), g);
    RevenueDecomposition(x, e, bp, bq);
  }

  /** With a maximum reduction below 100%, every in-bounds new price stays
      positive, and no price rises above its base price. */
  lemma NewPricePositive(x: seq<real>, bp: seq<real>, r: real)
    requires |x| == |bp|
    requires forall i :: 0 <= i < |bp| ==> 0.0 < bp[i]
    requires r < 1.0 && InBounds(x, r)
    ensures forall i :: 0 <= i < |bp| ==> 0.0 < NewPrice(x, bp)[i] <= bp[i]
  {
    forall i | 0 <= i < |bp|
      ensures 0.0 < NewPrice(x, bp)[i] <= bp[i]
    {
      var px := Mul(bp, x)[i];
      assert NewPrice(x, bp)[i] == bp[i] + px;
      ItemNewPrice(bp[i], x[i], r, px);
    }
  }

  /** Revenue splits into the baseline, minus the markdown spend, plus what
      the extra quantity sells for at the new prices. */
  lemma RevenueDecomposition(x: seq<real>, e: seq<real>, bp: seq<real>, bq: seq<real>)
    requires Aligned(x, e, bp, bq)
    ensures Revenue(x, e, bp, bq)
         == BaselineRevenue(bp, bq) - Investment(x, bp, bq) + Dot(NewPrice(x, bp), QtyGain(x, e, bq))
  {
    var np := NewPrice(x, bp);
    DotAddRight(np, bq, QtyGain(x, e, bq), NewQty(x, e, bq));
    DotAddLeft(bp, Mul(bp, x), np, bq);
    InvestmentClosedForm(x, bp, bq);
  }

  /** When no item responds to price, the objective is the negated baseline
      plus the spend: every markdown is revenue lost one for one. */
  lemma ZeroElasticityObjective(x: seq<real>, e: seq<real>, bp: seq<real>, bq: seq<real>)
    requires Aligned(x, e, bp, bq)
    requires forall i :: 0 <= i < |e| ==> e[i] == 0.0
    ensures Objective(x, e, bp, bq) == -BaselineRevenue(bp, bq) + Investment(x, bp, bq)
  {
    RevenueDecomposition(x, e, bp, bq);
    DotZeroLeft(QtyGain(x, e, bq), NewPrice(x, bp));
    DotCommutes(NewPrice(x, bp), QtyGain(x, e, bq));
  }

  /** When no item responds to price, no in-bounds cut raises revenue. */
  lemma ZeroElasticityNoGain(x: seq<real>, e: seq<real>, bp: seq<real>, bq: seq<real>, r: real)
    requires Aligned(x, e, bp, bq) && ValidItems(bp, bq)
    requires forall i :: 0 <= i < |e| ==> e[i] == 0.0
    requires InBounds(x, r)
    ensures Revenue(x, e, bp, bq) <= BaselineRevenue(bp, bq)
  {
    ZeroElasticityObjective(x, e, bp, bq);
    InvestmentBounds(x, bp, bq, r);
  }

  /** Total quantity at the new prices is the baseline total plus the predicted gain. */
  lemma TotalQtyDecomposition(x: seq<real>, e: seq<real>, bq: seq<real>)
    requires |x| == |e| == |bq|
    ensures Sum(NewQty(x, e, bq)) == Sum(bq) + Sum(QtyGain(x, e, bq))
  {
    SumAdd(bq, QtyGain(x, e, bq), NewQty(x, e, bq));
  }

  /** With demand that does not fall when prices fall (every elasticity at
      most zero), a price cut never lowers total quantity. */
  lemma PriceCutRaisesQty(x: seq<real>, e: seq<real>, bq: seq<real>)
    requires |x| == |e| == |bq|
    requires forall i :: 0 <= i < |x| ==> x[i] <= 0.0 && e[i] <= 0.0 && 0.0 <= bq[i]
    ensures Sum(bq) <= Sum(NewQty(x, e, bq))
  {
    TotalQtyDecomposition(x, e, bq);
    QtyGainNonneg(x, e, bq);
    SumNonneg(QtyGain(x, e, bq));
  }

  /** Every item's quantity gain is non-negative for a cut against
      non-positive elasticity. */
  lemma QtyGainNonneg(x: seq<real>, e: seq<real>, bq: seq<real>)
    requires |x| == |e| == |bq|
    requires forall i :: 0 <= i < |x| ==> x[i] <= 0.0 && e[i] <= 0.0 && 0.0 <= bq[i]
    ensures forall i :: 0 <= i < |bq| ==> 0.0 <= QtyGain(x, e, bq)[i]
  {
    var g := QtyGain(x, e, bq);
    forall i | 0 <= i < |g|
      ensures 0.0 <= g[i]
    {
      ItemQtyGain(e[i], x[i], bq[i], Mul(e, x)[i], g[i]);
    }
  }
}
