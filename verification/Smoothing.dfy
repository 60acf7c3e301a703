/** What the recurrences of crates/observer-core/src/math.rs amount to: every
    average written out as one weighted sum of the prices it has seen. */
module Smoothing {
  import opened Numerics
  import opened Metrics

  function Power(b: real, n: nat): real
  {
    if n == 0 then 1.0 else Times(b, Power(b, n - 1))
  }

  /** `k`, `k (1-k)`, `k (1-k)^2`, ... from the newest of `xs` back, summed over
      the first `n` of them. */
  function Weighted(xs: seq<real>, k: real, n: nat): real
    requires n <= |xs|
  {
    if n == 0 then 0.0 else Weighted(xs, k, n - 1) + Times(Times(k, Power(1.0 - k, |xs| - n)), xs[n - 1])
  }

  /** Exponential smoothing of `xs` with weight `k`, started at `first`. */
  function Smoothed(first: real, xs: seq<real>, k: real): real
  {
    Times(Power(1.0 - k, |xs|), first) + Weighted(xs, k, |xs|)
  }

  lemma TimesAssociates(a: real, b: real, c: real)
    ensures Times(a, Times(b, c)) == Times(Times(a, b), c)
  {
  }

  lemma TimesAdds(a: real, b: real, c: real)
    ensures Times(a, b + c) == Times(a, b) + Times(a, c)
  {
  }

  lemma MoveWeight(k: real, p: real, x: real, b: real)
    ensures Times(Times(k, Times(b, p)), x) == Times(b, Times(Times(k, p), x))
  {
  }

  lemma {:induction false} OlderWeighsLess(xs: seq<real>, x: real, k: real, n: nat)
    requires n <= |xs|
    ensures Weighted(xs + [x], k, n) == Times(1.0 - k, Weighted(xs, k, n))
  {
    if n > 0 {
      OlderWeighsLess(xs, x, k, n - 1);
      MoveWeight(k, Power(1.0 - k, |xs| - n), xs[n - 1], 1.0 - k);
      TimesAdds(1.0 - k, Weighted(xs, k, n - 1), Times(Times(k, Power(1.0 - k, |xs| - n)), xs[n - 1]));
    }
  }

  lemma SmoothedStep(first: real, xs: seq<real>, x: real, k: real)
    ensures Smoothed(first, xs + [x], k) == Times(1.0 - k, Smoothed(first, xs, k)) + Times(k, x)
  {
    var b := 1.0 - k;
    OlderWeighsLess(xs, x, k, |xs|);
    TimesAssociates(b, Power(b, |xs|), first);
    TimesAdds(b, Times(Power(b, |xs|), first), Weighted(xs, k, |xs|));
    assert Times(Times(k, Power(b, 0)), x) == Times(k, x);
  }

  lemma EmaIsStep(prev: real, price: real, n: nat, k: real)
    requires prev != 0.0 && k == 2.0 / (n as real + 1.0)
    ensures EmaUpdate(prev, price, n) == Times(1.0 - k, prev) + Times(k, price)
  {
    assert (price - prev) * k + prev == (1.0 - k) * prev + k * price;
  }

  lemma EmaGoesOn(first: real, xs: seq<real>, x: real, n: nat, k: real, prev: real)
    requires prev == Smoothed(first, xs, k) && prev > 0.0 && x > 0.0 && n >= 1 && k == 2.0 / (n as real + 1.0)
    ensures EmaUpdate(prev, x, n) == Smoothed(first, xs + [x], k)
    ensures EmaUpdate(prev, x, n) > 0.0
  {
    EmaIsStep(prev, x, n, k);
    EmaStep(prev, x, n);
    SmoothedStep(first, xs, x, k);
  }

  /** Every exponential average is its closed form: the first price decayed by
      (1-k) per later price, each later price with weight k decayed likewise,
      with k = 2/51, 2/201 and 2/501. */
  lemma {:induction false} EmasAreSmoothed(hs: seq<Sample>)
    requires |hs| > 0 && PositivePrices(hs)
    ensures var m, first, later := Replay(hs), hs[0].price, Prices(hs[1..]);
            && m.ema50 == Smoothed(first, later, 2.0 / 51.0) && m.ema50 > 0.0
            && m.ema200 == Smoothed(first, later, 2.0 / 201.0) && m.ema200 > 0.0
            && m.ema500 == Smoothed(first, later, 2.0 / 501.0) && m.ema500 > 0.0
  {
    var init, last := hs[..|hs| - 1], hs[|hs| - 1];
    var first, later := hs[0].price, Prices(hs[1..]);
    assert hs == init + [last];
    EmasOfPush(init, last);
    if |init| == 0 {
      FirstEma(first, later);
    } else {
      EmasAreSmoothed(init);
      var earlier := Prices(init[1..]);
      assert later == earlier + [last.price];
      var m := Replay(init);
      EmaGoesOn(first, earlier, last.price, 50, 2.0 / 51.0, m.ema50);
      EmaGoesOn(first, earlier, last.price, 200, 2.0 / 201.0, m.ema200);
      EmaGoesOn(first, earlier, last.price, 500, 2.0 / 501.0, m.ema500);
    }
  }

  lemma FirstEma(first: real, later: seq<real>)
    requires |later| == 0
    ensures forall k :: Smoothed(first, later, k) == first
    ensures forall n: nat :: EmaUpdate(0.0, first, n) == first
  {
  }

  // ------------------------------------------------------------------
  // ATR beyond its warm-up
  // ------------------------------------------------------------------

  /** The absolute price changes from the `from`-th sample on. */
  function Changes(hs: seq<Sample>, from: nat): seq<real>
    requires 1 <= from <= |hs|
  {
    seq(|hs| - from, i requires 0 <= i < |hs| - from => Abs(hs[from + i].price - hs[from + i - 1].price))
  }

  lemma AverageGoesOn(atr: real, tr: real, count: nat)
    requires count > 14
    ensures Averaged(atr, tr, count) == Times(1.0 - 1.0 / 14.0, atr) + Times(1.0 / 14.0, tr)
  {
  }

  /** From fourteen changes on ATR is exponential smoothing with weight 1/14,
      started at the plain average of the first fourteen. */
  lemma {:induction false} AtrIsSmoothed(hs: seq<Sample>)
    requires |hs| >= 15 && PositivePrices(hs)
    ensures Replay(hs).atr == Smoothed(TrueRanges(hs[..15]) / 14.0, Changes(hs, 15), 1.0 / 14.0)
  {
    var init := hs[..|hs| - 1];
    var base := TrueRanges(hs[..15]) / 14.0;
    if |hs| == 15 {
      assert hs[..15] == hs;
      AtrWarmsUpAsAverage(hs);
      assert Times(Replay(hs).atr, 14.0) == TrueRanges(hs);
      AtStart(base, Changes(hs, 15), 1.0 / 14.0);
    } else {
      AtrIsSmoothed(init);
      AtrCounts(init);
      var tr := Abs(hs[|hs| - 1].price - init[|init| - 1].price);
      assert init[..15] == hs[..15];
      assert Changes(hs, 15) == Changes(init, 15) + [tr];
      AverageGoesOn(Replay(init).atr, tr, |hs| - 1);
      assert Replay(hs).atr == Averaged(Replay(init).atr, tr, |hs| - 1);
      SmoothedStep(base, Changes(init, 15), tr, 1.0 / 14.0);
    }
  }

  lemma AtStart(first: real, none: seq<real>, k: real)
    requires |none| == 0
    ensures Smoothed(first, none, k) == first
  {
  }

  /** The regime compares the gap of the two averages with the ATR. */
  lemma RegimeExactly(m: Snapshot)
    ensures var gap := Abs(m.ema50 - m.ema200);
            && (Metrics.Regime(m) == 2 <==> m.atr > 0.0 && gap > 2.0 * m.atr)
            && (Metrics.Regime(m) == 1 <==> m.atr > 0.0 && 1.2 * m.atr <= gap <= 2.0 * m.atr)
            && Metrics.Regime(m) <= 2
  {
    if m.atr > 0.0 {
      QuotientAgainst(Abs(m.ema50 - m.ema200), m.atr, 2.0);
      QuotientAgainst(Abs(m.ema50 - m.ema200), m.atr, 1.2);
    }
  }

  /** The number whose root `sigma` returns is the unbiased sample variance. */
  lemma VarianceIsUnbiased(xs: seq<real>)
    requires |xs| >= 2
    ensures Times(Streamed(xs).Variance(), (|xs| - 1) as real) == Deviations(xs, Sum(xs) / (|xs| as real))
  {
    WelfordIsTwoPass(xs);
    DivMul(Streamed(xs).m2, (|xs| - 1) as real);
  }
}
