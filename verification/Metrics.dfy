/** Streaming statistics of crates/observer-core/src/math.rs: Welford, EMAs,
    ATR and the 2048-slot ring of timestamped prices. */
module Metrics {
  import opened Numerics

  const RING: nat := 2048
  const U64_MAX: nat := 0xFFFF_FFFF_FFFF_FFFF

  datatype Sample = Sample(price: real, ts: nat)

  // ------------------------------------------------------------------
  // Welford
  // ------------------------------------------------------------------

  datatype Moments = Moments(n: nat, mean: real, m2: real)
  {
    function Update(x: real): Moments
    {
      var k := n + 1;
      var delta := x - mean;
      var mean' := mean + delta / (k as real);
      Moments(k, mean', m2 + Times(delta, x - mean'))
    }

    /** The number whose root `sigma` returns. */
    function Variance(): real { if n < 2 then 0.0 else m2 / ((n - 1) as real) }
  }

  class Welford {
    var n: nat
    var mean: real
    var m2: real

    ghost function Value(): Moments
      reads this
    {
      Moments(n, mean, m2)
    }

    constructor ()
      ensures Value() == Moments(0, 0.0, 0.0)
    {
      n, mean, m2 := 0, 0.0, 0.0;
    }

    method Update(x: real)
      modifies this
      ensures Value() == old(Value()).Update(x)
    {
      n := n + 1;
      var delta := x - mean;
      mean := mean + delta / (n as real);
      var delta2 := x - mean;
      m2 := m2 + Times(delta, delta2);
    }
  }

  function Sum(xs: seq<real>): real
  {
    if xs == [] then 0.0 else Sum(xs[..|xs| - 1]) + xs[|xs| - 1]
  }

  function Squares(xs: seq<real>): real
  {
    if xs == [] then 0.0 else Squares(xs[..|xs| - 1]) + Times(xs[|xs| - 1], xs[|xs| - 1])
  }

  /** Sum of squared deviations from `c`: the second pass of the textbook variance. */
  function Deviations(xs: seq<real>, c: real): real
  {
    if xs == [] then 0.0 else Deviations(xs[..|xs| - 1], c) + Times(xs[|xs| - 1] - c, xs[|xs| - 1] - c)
  }

  function Streamed(xs: seq<real>): Moments
  {
    if xs == [] then Moments(0, 0.0, 0.0) else Streamed(xs[..|xs| - 1]).Update(xs[|xs| - 1])
  }

  /** One update, seen from the sums: exact algebra with `q = delta / k`. */
  lemma UpdateAlgebra(k: real, mean: real, q: real)
    ensures var x := mean + k * q;
            && Times(k, mean + q) == Times(k - 1.0, mean) + x
            && Times(x - mean, x - (mean + q))
               == Times(x, x) + Times(k - 1.0, Times(mean, mean)) - Times(k, Times(mean + q, mean + q))
  {
  }

  lemma MomentStep(s: Moments, sum: real, squares: real, x: real)
    requires Times(s.n as real, s.mean) == sum
    requires s.m2 == squares - Times(s.n as real, Times(s.mean, s.mean))
    ensures var t := s.Update(x);
            && Times(t.n as real, t.mean) == sum + x
            && t.m2 == squares + Times(x, x) - Times(t.n as real, Times(t.mean, t.mean))
  {
    var k := (s.n + 1) as real;
    var q := (x - s.mean) / k;
    assert x == s.mean + k * q by {
      DivMul(x - s.mean, k);
    }
    UpdateAlgebra(k, s.mean, q);
    assert s.n as real == k - 1.0;
  }

  lemma {:induction false} StreamedSums(xs: seq<real>)
    ensures var s := Streamed(xs);
            && s.n == |xs|
            && Times(s.n as real, s.mean) == Sum(xs)
            && s.m2 == Squares(xs) - Times(s.n as real, Times(s.mean, s.mean))
  {
    if xs != [] {
      var init := xs[..|xs| - 1];
      StreamedSums(init);
      MomentStep(Streamed(init), Sum(init), Squares(init), xs[|xs| - 1]);
    }
  }

  lemma ExpandOne(x: real, c: real, sum: real, n: real)
    ensures Times(x - c, x - c) == Times(x, x) - 2.0 * Times(c, x) + Times(c, c)
    ensures Times(c, sum + x) == Times(c, sum) + Times(c, x)
    ensures Times(n + 1.0, Times(c, c)) == Times(n, Times(c, c)) + Times(c, c)
  {
  }

  lemma {:induction false} DeviationsExpand(xs: seq<real>, c: real)
    ensures Deviations(xs, c) == Squares(xs) - 2.0 * Times(c, Sum(xs)) + Times(|xs| as real, Times(c, c))
  {
    if xs != [] {
      var init := xs[..|xs| - 1];
      DeviationsExpand(init, c);
      ExpandOne(xs[|xs| - 1], c, Sum(init), |init| as real);
      assert |xs| as real == |init| as real + 1.0;
    }
  }

  /** Welford is the two-pass computation: the mean is the sum over the count,
      and `m2` is the sum of squared deviations from the final mean. */
  lemma WelfordIsTwoPass(xs: seq<real>)
    ensures var s := Streamed(xs);
            && s.n == |xs|
            && (xs != [] ==> s.mean == Sum(xs) / (|xs| as real))
            && s.m2 == Deviations(xs, s.mean)
            && s.m2 >= 0.0
  {
    var s := Streamed(xs);
    StreamedSums(xs);
    DeviationsNonNegative(xs, s.mean);
    assert s.m2 == Deviations(xs, s.mean) by {
      DeviationsExpand(xs, s.mean);
      TimesSwap(s.mean, |xs| as real);
    }
    if xs != [] {
      DivideOut(|xs| as real, s.mean, Sum(xs));
    }
  }

  lemma TimesSwap(m: real, n: real)
    ensures Times(m, Times(n, m)) == Times(n, Times(m, m))
  {
  }

  lemma DivideOut(n: real, m: real, sum: real)
    requires n > 0.0 && Times(n, m) == sum
    ensures m == sum / n
  {
    DivMul(sum, n);
    SignOfProduct(n, m - sum / n);
  }

  lemma {:induction false} DeviationsNonNegative(xs: seq<real>, c: real)
    ensures Deviations(xs, c) >= 0.0
  {
    if xs != [] {
      DeviationsNonNegative(xs[..|xs| - 1], c);
      var d := xs[|xs| - 1] - c;
      assert d * d >= 0.0;
    }
  }

  // ------------------------------------------------------------------
  // Exponential averages
  // ------------------------------------------------------------------

  function EmaUpdate(prev: real, price: real, n: nat): real
  {
    var k := 2.0 / (n as real + 1.0);
    if prev == 0.0 then price else (price - prev) * k + prev
  }

  function Velocity(now: real, past: real): real
  {
    if past <= 0.0 then 0.0 else (now - past) / past / 0.1
  }

  // ------------------------------------------------------------------
  // One symbol's metrics
  // ------------------------------------------------------------------

  /** What a `SymbolMetrics` holds: the retained samples oldest first. */
  datatype Snapshot = Snapshot(moments: Moments, samples: seq<Sample>, ema50: real, ema200: real, ema500: real,
                               atr: real, prevClose: real, atrCount: nat)

  const DEFAULT := Snapshot(Moments(0, 0.0, 0.0), [], 0.0, 0.0, 0.0, 0.0, 0.0, 0)

  function LastUpTo<T>(s: seq<T>, cap: nat): seq<T>
  {
    if |s| <= cap then s else s[|s| - cap..]
  }

  function Averaged(atr: real, tr: real, count: nat): real
    requires count > 0
  {
    if count == 1 then tr
    else
      var n := (if count < 14 then count else 14) as real;
      (Times(atr, n - 1.0) + tr) / n
  }

  function Push(m: Snapshot, price: real, ts: nat): Snapshot
  {
    var ranged := m.prevClose > 0.0;
    Snapshot(m.moments.Update(price), LastUpTo(m.samples + [Sample(price, ts)], RING),
             EmaUpdate(m.ema50, price, 50), EmaUpdate(m.ema200, price, 200), EmaUpdate(m.ema500, price, 500),
             if ranged then Averaged(m.atr, Abs(price - m.prevClose), m.atrCount + 1) else m.atr,
             price, if ranged then m.atrCount + 1 else m.atrCount)
  }

  /** The list search the ring lookup stands for: walk back from the newest
      sample and stop at the first one old enough. */
  function Scan(samples: seq<Sample>, target: nat, chosen: real): real
  {
    if samples == [] then chosen
    else
      var s := samples[|samples| - 1];
      if s.ts == 0 then chosen
      else if s.ts <= target then s.price
      else Scan(samples[..|samples| - 1], target, s.price)
  }

  function OffsetLookup(samples: seq<Sample>, back: nat): real
    requires back > 0
  {
    if samples == [] then 0.0
    else if |samples| <= back then samples[|samples| - 1].price
    else samples[|samples| - back].price
  }

  function SatMul(a: nat, b: nat): nat { if a * b > U64_MAX then U64_MAX else a * b }

  function Lookup(samples: seq<Sample>, ageMs: nat): real
  {
    if samples == [] then 0.0
    else
      var newest := samples[|samples| - 1];
      if newest.ts == 0 then OffsetLookup(samples, if ageMs / 10 > 1 then ageMs / 10 else 1)
      else Scan(samples, SatSub(newest.ts, SatMul(ageMs, 1_000_000)), newest.price)
  }

  function Regime(m: Snapshot): nat
  {
    if m.atr <= 0.0 then 0
    else
      var strength := Abs(m.ema50 - m.ema200) / m.atr;
      if strength > 2.0 then 2 else if strength < 1.2 then 0 else 1
  }

  /** Ring slot of the `k`-th oldest of `len` samples when `head` is written next. */
  function SlotOf(head: nat, len: nat, k: nat): nat
    requires head < RING && len <= RING
  {
    (head + RING - len + k) % RING
  }

  /** Advancing the head keeps every retained sample in its slot, puts the new
      one in the old head, and drops the oldest only when the ring is full. */
  lemma SlotsAfterStore(head: nat, len: nat)
    requires head < RING && len <= RING
    ensures var h := (head + 1) % RING;
            && (len < RING ==> SlotOf(h, len + 1, len) == head)
            && (len < RING ==> forall k | 0 <= k < len :: SlotOf(h, len + 1, k) == SlotOf(head, len, k) != head)
            && (len == RING ==> SlotOf(h, RING, RING - 1) == head)
            && (len == RING ==> forall k | 0 <= k < RING - 1 :: SlotOf(h, RING, k) == SlotOf(head, RING, k + 1) != head)
  {
    assert forall x: nat | x < RING :: x % RING == x;
    assert forall x: nat | RING <= x < 2 * RING :: x % RING == x - RING;
  }

  class SymbolMetrics {
    const welford: Welford
    const prices: array<real>
    const stamps: array<nat>
    var head: nat
    var len: nat
    var ema50: real
    var ema200: real
    var ema500: real
    var atr: real
    var prevClose: real
    var atrCount: nat

    ghost predicate Valid()
      reads this
    {
      prices.Length == RING && stamps.Length == RING && head < RING && len <= RING
    }

    /** Ring slot of the `k`-th oldest retained sample. */
    function Slot(k: nat): nat
      requires head < RING && len <= RING
      reads this
    {
      SlotOf(head, len, k)
    }

    ghost function Samples(): (s: seq<Sample>)
      requires Valid()
      reads this, prices, stamps
      ensures |s| == len
    {
      seq(len, k requires 0 <= k < len && Valid() reads this, prices, stamps =>
        Sample(prices[Slot(k)], stamps[Slot(k)]))
    }

    ghost function Value(): Snapshot
      requires Valid()
      reads this, prices, stamps, welford
    {
      Snapshot(welford.Value(), Samples(), ema50, ema200, ema500, atr, prevClose, atrCount)
    }

    constructor ()
      ensures Valid() && Value() == DEFAULT
      ensures fresh(welford) && fresh(prices) && fresh(stamps)
    {
      welford := new Welford();
      prices := new real[RING](_ => 0.0);
      stamps := new nat[RING](_ => 0);
      head, len := 0, 0;
      ema50, ema200, ema500, atr, prevClose, atrCount := 0.0, 0.0, 0.0, 0.0, 0.0, 0;
    }

    method Store(price: real, ts: nat)
      requires Valid()
      modifies this`head, this`len, prices, stamps
      ensures Valid() && Samples() == LastUpTo(old(Samples()) + [Sample(price, ts)], RING)
    {
      ghost var was := Samples();
      SlotsAfterStore(head, len);
      prices[head] := price;
      stamps[head] := ts;
      head := (head + 1) % RING;
      if len < RING {
        len := len + 1;
        assert Samples() == was + [Sample(price, ts)];
      } else {
        assert Samples() == was[1..] + [Sample(price, ts)];
      }
    }

    method UpdateAtr(price: real)
      modifies this`atr, this`atrCount, this`prevClose
      ensures prevClose == price
      ensures atrCount == if old(prevClose) > 0.0 then old(atrCount) + 1 else old(atrCount)
      ensures atr == if old(prevClose) > 0.0 then Averaged(old(atr), Abs(price - old(prevClose)), old(atrCount) + 1)
                     else old(atr)
    {
      if prevClose > 0.0 {
        var tr := Abs(price - prevClose);
        atrCount := atrCount + 1;
        atr := Averaged(atr, tr, atrCount);
      }
      prevClose := price;
    }

    method PushPrice(price: real, ts: nat)
      requires Valid()
      modifies this, prices, stamps, welford
      ensures Valid() && Value() == Push(old(Value()), price, ts)
    {
      Store(price, ts);
      welford.Update(price);
      ema50 := EmaUpdate(ema50, price, 50);
      ema200 := EmaUpdate(ema200, price, 200);
      ema500 := EmaUpdate(ema500, price, 500);
      UpdateAtr(price);
      assert Samples() == Push(old(Value()), price, ts).samples;
    }

    method PriceBySampleOffset(back: nat) returns (r: real)
      requires Valid() && back > 0
      ensures r == OffsetLookup(Samples(), back)
    {
      if len == 0 { return 0.0; }
      if len <= back {
        assert (head + RING - 1) % RING == Slot(len - 1);
        return prices[(head + RING - 1) % RING];
      }
      assert (head + RING - back) % RING == Slot(len - back);
      return prices[(head + RING - back) % RING];
    }

    method PriceAtAgeMs(ageMs: nat) returns (chosen: real)
      requires Valid()
      ensures chosen == Lookup(Samples(), ageMs)
    {
      if len == 0 { return 0.0; }
      var newest := (head + RING - 1) % RING;
      assert newest == Slot(len - 1);
      var newestTs := stamps[newest];
      if newestTs == 0 {
        chosen := PriceBySampleOffset(if ageMs / 10 > 1 then ageMs / 10 else 1);
        return;
      }
      var target := SatSub(newestTs, SatMul(ageMs, 1_000_000));
      chosen := prices[newest];
      ghost var all := Samples();
      assert all[..len] == all;
      for k := 0 to len
        invariant Scan(all[..len - k], target, chosen) == Lookup(all, ageMs)
      {
        var idx := (head + RING - 1 - k) % RING;
        assert idx == Slot(len - 1 - k);
        assert all[..len - k][..len - k - 1] == all[..len - (k + 1)];
        var ts := stamps[idx];
        if ts == 0 { return; }
        chosen := prices[idx];
        if ts <= target { return; }
      }
    }
  }

  // ------------------------------------------------------------------
  // Whole histories
  // ------------------------------------------------------------------

  function Replay(hs: seq<Sample>): Snapshot
  {
    if hs == [] then DEFAULT
    else Push(Replay(hs[..|hs| - 1]), hs[|hs| - 1].price, hs[|hs| - 1].ts)
  }

  ghost predicate PositivePrices(hs: seq<Sample>)
  {
    forall i | 0 <= i < |hs| :: hs[i].price > 0.0
  }

  lemma {:induction false} RingKeepsTheLatest(hs: seq<Sample>)
    ensures Replay(hs).samples == LastUpTo(hs, RING)
  {
    if hs != [] {
      RingKeepsTheLatest(hs[..|hs| - 1]);
      assert hs == hs[..|hs| - 1] + [Sample(hs[|hs| - 1].price, hs[|hs| - 1].ts)];
    }
  }

  /** The chosen sample: old enough or the oldest kept, and every newer one is too new. */
  ghost predicate IsAged(samples: seq<Sample>, ageMs: nat, i: nat)
    requires samples != []
  {
    var cutoff := samples[|samples| - 1].ts - ageMs * 1_000_000;
    && i < |samples|
    && (samples[i].ts <= cutoff || i == 0)
    && forall j | i < j < |samples| :: samples[j].ts > cutoff
  }

  lemma {:induction false} ScanFinds(samples: seq<Sample>, target: nat, chosen: real) returns (i: nat)
    requires samples != [] && forall j | 0 <= j < |samples| :: samples[j].ts > 0
    ensures i < |samples| && Scan(samples, target, chosen) == samples[i].price
    ensures samples[i].ts <= target || i == 0
    ensures forall j | i < j < |samples| :: samples[j].ts > target
  {
    var n := |samples|;
    if samples[n - 1].ts <= target || n == 1 {
      i := n - 1;
    } else {
      i := ScanFinds(samples[..n - 1], target, samples[n - 1].price);
    }
  }

  /** The ring lookup is a list search: after any history with positive
      timestamps it returns the newest of the last 2048 samples that is at
      least `ageMs` older than the newest one, else the oldest of them. */
  lemma LookupIsAgedSample(hs: seq<Sample>, ageMs: nat) returns (i: nat)
    requires hs != [] && forall j | 0 <= j < |hs| :: 0 < hs[j].ts <= U64_MAX
    ensures LastUpTo(hs, RING) != [] && IsAged(LastUpTo(hs, RING), ageMs, i)
    ensures Lookup(Replay(hs).samples, ageMs) == LastUpTo(hs, RING)[i].price
  {
    RingKeepsTheLatest(hs);
    var kept := LastUpTo(hs, RING);
    var newest := kept[|kept| - 1];
    assert newest == hs[|hs| - 1];
    i := ScanFinds(kept, SatSub(newest.ts, SatMul(ageMs, 1_000_000)), newest.price);
  }

  /** The sample-offset lookback: the first of the `back` newest samples, or the
      newest of all while there are no more than `back`. */
  lemma OffsetCountsBack(older: seq<Sample>, newer: seq<Sample>)
    requires |newer| > 0
    ensures |older| > 0 ==> OffsetLookup(older + newer, |newer|) == newer[0].price
    ensures forall back: nat | back >= |newer| :: OffsetLookup(newer, back) == newer[|newer| - 1].price
  {
    assert (older + newer)[|older|] == newer[0];
  }

  lemma {:induction false} MomentsOfHistory(hs: seq<Sample>)
    ensures Replay(hs).moments == Streamed(Prices(hs))
  {
    if hs != [] {
      MomentsOfHistory(hs[..|hs| - 1]);
      assert Prices(hs)[..|hs| - 1] == Prices(hs[..|hs| - 1]);
    }
  }

  function Prices(hs: seq<Sample>): seq<real>
  {
    seq(|hs|, i requires 0 <= i < |hs| => hs[i].price)
  }

  /** One step moves the average towards the price, never past it. */
  lemma EmaStep(prev: real, price: real, n: nat)
    requires prev != 0.0 && n >= 1
    ensures prev <= price ==> prev <= EmaUpdate(prev, price, n) <= price
    ensures prev >= price ==> prev >= EmaUpdate(prev, price, n) >= price
  {
    var d := n as real + 1.0;
    var k := 2.0 / d;
    DivMono(2.0, d, d);
    assert 0.0 < k <= 1.0;
    if prev <= price {
      MulMono(k, 1.0, price - prev);
      MulMono(0.0, k, price - prev);
    } else {
      MulMono(k, 1.0, prev - price);
      MulMono(0.0, k, prev - price);
    }
  }

  /** Every average stays between any bounds the prices respect. */
  lemma {:induction false} EmasWithinRange(hs: seq<Sample>, lo: real, hi: real)
    requires hs != [] && 0.0 < lo && forall i | 0 <= i < |hs| :: lo <= hs[i].price <= hi
    ensures var m := Replay(hs);
            lo <= m.ema50 <= hi && lo <= m.ema200 <= hi && lo <= m.ema500 <= hi
  {
    var init, p := hs[..|hs| - 1], hs[|hs| - 1].price;
    var m := Replay(init);
    if init != [] {
      EmasWithinRange(init, lo, hi);
      EmaStep(m.ema50, p, 50);
      EmaStep(m.ema200, p, 200);
      EmaStep(m.ema500, p, 500);
    }
    assert hs == init + [hs[|hs| - 1]];
    EmasOfPush(init, hs[|hs| - 1]);
  }

  lemma EmasOfPush(init: seq<Sample>, s: Sample)
    ensures var m, m' := Replay(init), Replay(init + [s]);
            && m'.ema50 == EmaUpdate(m.ema50, s.price, 50)
            && m'.ema200 == EmaUpdate(m.ema200, s.price, 200)
            && m'.ema500 == EmaUpdate(m.ema500, s.price, 500)
  {
    assert (init + [s])[..|init|] == init;
  }

  ghost predicate NonDecreasing(hs: seq<Sample>)
  {
    forall i, j | 0 <= i < j < |hs| :: hs[i].price <= hs[j].price
  }

  ghost predicate NonIncreasing(hs: seq<Sample>)
  {
    forall i, j | 0 <= i < j < |hs| :: hs[i].price >= hs[j].price
  }

  /** After a history that never falls the fast average is on top, and neither
      average has overtaken the price. */
  lemma {:induction false} RisingTrend(hs: seq<Sample>)
    requires hs != [] && PositivePrices(hs) && NonDecreasing(hs)
    ensures var m := Replay(hs);
            0.0 < m.ema200 <= m.ema50 <= hs[|hs| - 1].price
  {
    if |hs| > 1 {
      RisingTrend(hs[..|hs| - 1]);
    } else {
      assert hs[..0] == [];
    }
  }

  lemma {:induction false} FallingTrend(hs: seq<Sample>)
    requires hs != [] && PositivePrices(hs) && NonIncreasing(hs)
    ensures var m := Replay(hs);
            0.0 < hs[|hs| - 1].price <= m.ema50 <= m.ema200
  {
    if |hs| > 1 {
      FallingTrend(hs[..|hs| - 1]);
    } else {
      assert hs[..0] == [];
    }
  }

  /** Sum of the absolute price changes. */
  function TrueRanges(hs: seq<Sample>): real
  {
    if |hs| < 2 then 0.0
    else TrueRanges(hs[..|hs| - 1]) + Abs(hs[|hs| - 1].price - hs[|hs| - 2].price)
  }

  lemma {:induction false} AtrCounts(hs: seq<Sample>)
    requires PositivePrices(hs)
    ensures var m := Replay(hs);
            && m.atrCount == (if hs == [] then 0 else |hs| - 1)
            && (hs != [] ==> m.prevClose == hs[|hs| - 1].price)
            && (hs == [] ==> m.prevClose == 0.0)
  {
    if hs != [] {
      AtrCounts(hs[..|hs| - 1]);
    }
  }

  /** Warm-up: for the first fourteen changes ATR is their plain average. */
  lemma {:induction false} AtrWarmsUpAsAverage(hs: seq<Sample>)
    requires PositivePrices(hs) && 2 <= |hs| <= 15
    ensures Times(Replay(hs).atr, (|hs| - 1) as real) == TrueRanges(hs)
  {
    var init := hs[..|hs| - 1];
    AtrCounts(init);
    var m := Replay(init);
    var tr := Abs(hs[|hs| - 1].price - init[|init| - 1].price);
    assert Replay(hs).atr == Averaged(m.atr, tr, |hs| - 1);
    if |hs| > 2 {
      AtrWarmsUpAsAverage(init);
      assert (|init| - 1) as real == (|hs| - 1) as real - 1.0;
      AverageOne(m.atr, tr, |hs| - 1);
    } else {
      assert TrueRanges(init) == 0.0;
    }
  }

  lemma AverageOne(atr: real, tr: real, count: nat)
    requires 2 <= count <= 14
    ensures Times(Averaged(atr, tr, count), count as real) == Times(atr, count as real - 1.0) + tr
  {
    DivMul(Times(atr, count as real - 1.0) + tr, count as real);
  }

  /** Afterwards it stays an average: never above the largest change seen. */
  lemma {:induction false} AtrBounded(hs: seq<Sample>, bound: real)
    requires PositivePrices(hs) && bound >= 0.0
    requires forall i | 1 <= i < |hs| :: Abs(hs[i].price - hs[i - 1].price) <= bound
    ensures 0.0 <= Replay(hs).atr <= bound
  {
    if hs != [] {
      var init := hs[..|hs| - 1];
      AtrBounded(init, bound);
      AtrCounts(init);
      var m := Replay(init);
      if init != [] {
        AveragedBounded(m.atr, Abs(hs[|hs| - 1].price - init[|init| - 1].price), m.atrCount + 1, bound);
      }
    }
  }

  lemma AveragedBounded(atr: real, tr: real, count: nat, bound: real)
    requires 0.0 <= atr <= bound && 0.0 <= tr <= bound && count > 0
    ensures 0.0 <= Averaged(atr, tr, count) <= bound
  {
    if count > 1 {
      var n := (if count < 14 then count else 14) as real;
      TimesMono(atr, bound, n - 1.0);
      TimesMono(0.0, atr, n - 1.0);
      var sum := Times(atr, n - 1.0) + tr;
      assert 0.0 <= sum <= bound * n;
      DivMul(sum, n);
      SignOfProduct(n, bound - sum / n);
      SignOfProduct(n, sum / n);
    }
  }
}
