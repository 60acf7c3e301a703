/** The L2 slippage simulator of research/quant/orderbook_sim.py: nearest
    snapshot, greedy walk of the levels, VWAP and slippage. */
module OrderBook {
  import opened Numerics

  datatype Level = Level(px: real, qty: real)

  datatype Book = Book(bids: seq<Level>, asks: seq<Level>)

  datatype TradeSide = Buy | Sell

  datatype FillResult = FillResult(side: TradeSide, volumeUsd: real, vwap: real, mid: real,
                                   slippageBps: real, filledUsd: real, exhausted: bool)

  const EPS: real := 0.000000001
  const MAX_SNAPSHOT_GAP_MS: int := 120_000

  /** Levels as `sort_values("price")` leaves them, best price first. */
  ghost predicate Sorted(side: TradeSide, levels: seq<Level>)
  {
    forall i, j | 0 <= i < j < |levels| ::
      if side == Buy then levels[i].px <= levels[j].px else levels[j].px <= levels[i].px
  }

  predicate Positive(levels: seq<Level>)
  {
    forall i | 0 <= i < |levels| :: levels[i].px > 0.0 && levels[i].qty >= 0.0
  }

  ghost predicate ValidSide(side: TradeSide, levels: seq<Level>)
  {
    Positive(levels) && Sorted(side, levels)
  }

  /** Units bought with `usd` at price `px`. */
  function Units(usd: real, px: real): real
    requires px != 0.0
  {
    usd / px
  }

  function Capacity(l: Level): real { l.px * l.qty }

  function TotalCapacity(levels: seq<Level>): real
  {
    if levels == [] then 0.0 else Capacity(levels[0]) + TotalCapacity(levels[1..])
  }

  // ------------------------------------------------------------------
  // The greedy walk
  // ------------------------------------------------------------------

  datatype Walked = Walked(notional: real, qty: real, remaining: real)

  function Walk(levels: seq<Level>, remaining: real): Walked
    requires Positive(levels)
  {
    if levels == [] then Walked(0.0, 0.0, remaining)
    else
      var take := Min(remaining, Capacity(levels[0]));
      var left := remaining - take;
      if left <= EPS then Walked(take, Units(take, levels[0].px), left)
      else
        var rest := Walk(levels[1..], left);
        Walked(take + rest.notional, Units(take, levels[0].px) + rest.qty, rest.remaining)
  }

  /** The loop of `simulate_market_order`, with its early stop. */
  method WalkLevels(levels: seq<Level>, volumeUsd: real)
    returns (notional: real, qtySum: real, remaining: real)
    requires Positive(levels)
    ensures Walked(notional, qtySum, remaining) == Walk(levels, volumeUsd)
  {
    remaining, notional, qtySum := volumeUsd, 0.0, 0.0;
    assert levels[0..] == levels;
    for i := 0 to |levels|
      invariant var rest := Walk(levels[i..], remaining);
                Walk(levels, volumeUsd) == Walked(notional + rest.notional, qtySum + rest.qty, rest.remaining)
    {
      assert levels[i..][0] == levels[i] && levels[i..][1..] == levels[i + 1..];
      var take := Min(remaining, Capacity(levels[i]));
      var takeQty := Units(take, levels[i].px);
      notional := notional + take;
      qtySum := qtySum + takeQty;
      remaining := remaining - take;
      if remaining <= EPS {
        return;
      }
    }
  }

  // ------------------------------------------------------------------
  // Allocations: any other way to spend money on the same levels
  // ------------------------------------------------------------------

  /** `a[i]` dollars spent on level `i`, within its capacity. */
  ghost predicate Feasible(levels: seq<Level>, a: seq<real>)
  {
    |a| == |levels| && forall i | 0 <= i < |a| :: 0.0 <= a[i] <= Capacity(levels[i])
  }

  function Spent(a: seq<real>): real
  {
    if a == [] then 0.0 else a[0] + Spent(a[1..])
  }

  function Bought(levels: seq<Level>, a: seq<real>): real
    requires |a| == |levels| && Positive(levels)
  {
    if a == [] then 0.0 else Units(a[0], levels[0].px) + Bought(levels[1..], a[1..])
  }

  /** What the walk spends on each level. */
  function GreedyAllocation(levels: seq<Level>, remaining: real): (a: seq<real>)
    requires Positive(levels)
    ensures |a| == |levels|
  {
    if levels == [] then []
    else
      var take := Min(remaining, Capacity(levels[0]));
      var left := remaining - take;
      [take] + if left <= EPS then seq(|levels| - 1, _ => 0.0) else GreedyAllocation(levels[1..], left)
  }

  lemma {:induction false} ZeroAllocation(levels: seq<Level>)
    requires Positive(levels)
    ensures var z := seq(|levels|, _ => 0.0);
            Spent(z) == 0.0 && Bought(levels, z) == 0.0 && Feasible(levels, z)
  {
    CapacityNonNegative(levels);
    if levels != [] {
      ZeroAllocation(levels[1..]);
      assert seq(|levels|, _ => 0.0)[1..] == seq(|levels| - 1, _ => 0.0);
    }
  }

  lemma CapacityNonNegative(levels: seq<Level>)
    requires Positive(levels)
    ensures forall i | 0 <= i < |levels| :: Capacity(levels[i]) >= 0.0
  {
  }

  /** The walk is itself one of the feasible allocations. */
  lemma {:induction false} GreedyIsFeasible(levels: seq<Level>, v: real)
    requires Positive(levels) && v > 0.0
    ensures var a := GreedyAllocation(levels, v);
            Feasible(levels, a) && Spent(a) == Walk(levels, v).notional && Bought(levels, a) == Walk(levels, v).qty
  {
    CapacityNonNegative(levels);
    if levels != [] {
      var a := GreedyAllocation(levels, v);
      var left := v - Min(v, Capacity(levels[0]));
      if left <= EPS {
        ZeroAllocation(levels[1..]);
        assert a[1..] == seq(|levels| - 1, _ => 0.0);
      } else {
        GreedyIsFeasible(levels[1..], left);
        assert a[1..] == GreedyAllocation(levels[1..], left);
      }
      forall i | 0 <= i < |a| ensures 0.0 <= a[i] <= Capacity(levels[i]) {
        if i > 0 {
          assert a[i] == a[1..][i - 1] && levels[i] == levels[1..][i - 1];
        }
      }
    }
  }

  /** Nothing is lost: what was filled and what remains add up to the order,
      and a walk that keeps more than the stop threshold used every level. */
  lemma {:induction false} WalkConserves(levels: seq<Level>, v: real)
    requires Positive(levels) && v > 0.0
    ensures var w := Walk(levels, v);
            w.notional + w.remaining == v && 0.0 <= w.remaining && 0.0 <= w.notional && 0.0 <= w.qty
            && w.notional <= TotalCapacity(levels)
            && (w.remaining > EPS ==> w.notional == TotalCapacity(levels))
  {
    CapacityNonNegative(levels);
    if levels != [] {
      var take := Min(v, Capacity(levels[0]));
      assert take / levels[0].px >= 0.0;
      TotalNonNegative(levels[1..]);
      if v - take > EPS {
        WalkConserves(levels[1..], v - take);
      }
    }
  }

  lemma {:induction false} TotalNonNegative(levels: seq<Level>)
    requires Positive(levels)
    ensures TotalCapacity(levels) >= 0.0
  {
    CapacityNonNegative(levels);
    if levels != [] {
      TotalNonNegative(levels[1..]);
    }
  }

  // ------------------------------------------------------------------
  // Duality: the marginal price certifies the walk
  // ------------------------------------------------------------------

  /** Price of the last level the walk touches. */
  ghost function Marginal(levels: seq<Level>, v: real): (p: real)
    requires levels != [] && Positive(levels)
    ensures p > 0.0
  {
    var left := v - Min(v, Capacity(levels[0]));
    if left <= EPS || |levels| == 1 then levels[0].px else Marginal(levels[1..], left)
  }

  ghost predicate NoBetter(side: TradeSide, best: real, other: real)
  {
    if side == Buy then best <= other else other <= best
  }

  lemma {:induction false} MarginalNoBetter(side: TradeSide, levels: seq<Level>, v: real)
    requires levels != [] && ValidSide(side, levels)
    ensures NoBetter(side, levels[0].px, Marginal(levels, v))
  {
    var left := v - Min(v, Capacity(levels[0]));
    if !(left <= EPS || |levels| == 1) {
      MarginalNoBetter(side, levels[1..], left);
      assert levels[1..][0] == levels[1];
    }
  }

  /** `gain` on the favourable side: never positive when buying, never negative when selling. */
  ghost predicate NoGain(side: TradeSide, gain: real)
  {
    if side == Buy then gain <= 0.0 else gain >= 0.0
  }

  /** At price `p`, `dq` more units are not worth the `dn` more dollars spent. */
  ghost predicate Certified(side: TradeSide, p: real, dq: real, dn: real)
  {
    NoGain(side, p * dq - dn)
  }

  /** Moving `d` dollars at price `q` against the price `p`. */
  lemma MoveAt(d: real, p: real, q: real)
    requires q > 0.0
    ensures p * (d / q) - d == d * ((p - q) / q)
  {
    calc {
      d * ((p - q) / q);
      (d / q) * (p - q);
      (d / q) * p - (d / q) * q;
      { DivMul(d, q); }
      p * (d / q) - d;
    }
  }

  /** Levels no better than `p`: buying there never beats paying `p`. */
  lemma {:induction false} TailNoGain(side: TradeSide, levels: seq<Level>, a: seq<real>, p: real)
    requires ValidSide(side, levels) && Feasible(levels, a)
    requires forall i | 0 <= i < |levels| :: NoBetter(side, p, levels[i].px)
    ensures Certified(side, p, Bought(levels, a), Spent(a))
  {
    if levels != [] {
      TailNoGain(side, levels[1..], a[1..], p);
      MoveAt(a[0], p, levels[0].px);
      SignOfMove(side, a[0], p, levels[0].px);
    }
  }

  lemma SignOfMove(side: TradeSide, d: real, p: real, q: real)
    requires q > 0.0
    ensures d >= 0.0 && NoBetter(side, p, q) ==> NoGain(side, d * ((p - q) / q))
    ensures d <= 0.0 && NoBetter(side, q, p) ==> NoGain(side, d * ((p - q) / q))
  {
    var f := (p - q) / q;
    assert p >= q ==> f >= 0.0;
    assert p <= q ==> f <= 0.0;
  }

  /** Weak duality. Priced at the walk's marginal price, no feasible
      allocation, of whatever size, gains on the greedy one. */
  lemma {:induction false} MarginalPriceCertifies(side: TradeSide, levels: seq<Level>, v: real, a: seq<real>)
    requires levels != [] && ValidSide(side, levels) && v > 0.0 && Feasible(levels, a)
    ensures Certified(side, Marginal(levels, v), Bought(levels, a) - Walk(levels, v).qty,
                      Spent(a) - Walk(levels, v).notional)
  {
    var p, q := Marginal(levels, v), levels[0].px;
    var take := Min(v, Capacity(levels[0]));
    var left := v - take;
    var aRest, lRest := a[1..], levels[1..];
    var b, s := Bought(lRest, aRest), Spent(aRest);
    var dq, dn := Bought(levels, a) - Walk(levels, v).qty, Spent(a) - Walk(levels, v).notional;
    if left <= EPS || |levels| == 1 {
      // the first level is the marginal one
      assert dq == Units(a[0], q) + b - Units(take, q) && dn == a[0] + s - take;
      assert Certified(side, p, b, s) by {
        TailNoGain(side, lRest, aRest, p);
      }
      AddFirstLevel(side, p, q, a[0], take, b, s, dq, dn);
    } else {
      // the walk filled the first level completely
      var wRest := Walk(lRest, left);
      assert dq == Units(a[0], q) + (b - wRest.qty) - Units(take, q) && dn == a[0] + (s - wRest.notional) - take;
      assert NoBetter(side, q, p) by {
        MarginalNoBetter(side, levels, v);
      }
      MarginalPriceCertifies(side, lRest, left, aRest);
      AddFirstLevel(side, p, q, a[0], take, b - wRest.qty, s - wRest.notional, dq, dn);
    }
  }

  /** Prepending a level priced `q`: either it is the marginal one, or the
      walk took at least as much of it as the allocation did. */
  lemma AddFirstLevel(side: TradeSide, p: real, q: real, mine: real, greedy: real, b: real, s: real, dq: real, dn: real)
    requires p > 0.0 && q > 0.0 && Certified(side, p, b, s)
    requires p == q || (mine <= greedy && NoBetter(side, q, p))
    requires dq == Units(mine, q) + b - Units(greedy, q) && dn == mine + s - greedy
    ensures Certified(side, p, dq, dn)
  {
    var d := mine - greedy;
    MoveAt(d, p, q);
    DivSub(mine, greedy, q);
    if p == q {
      assert d * ((p - q) / q) == 0.0;
    } else {
      SignOfMove(side, d, p, q);
    }
    assert p * (d / q + b) == p * (d / q) + p * b;
  }

  /** Greedy optimality: spending exactly what the walk spent, no feasible
      allocation buys more (or, selling, gives away less). */
  lemma GreedyIsOptimal(side: TradeSide, levels: seq<Level>, v: real, a: seq<real>)
    requires ValidSide(side, levels) && v > 0.0
    requires Feasible(levels, a) && Spent(a) == Walk(levels, v).notional
    ensures side == Buy ==> Bought(levels, a) <= Walk(levels, v).qty
    ensures side == Sell ==> Bought(levels, a) >= Walk(levels, v).qty
  {
    if levels != [] {
      var dq, dn := Bought(levels, a) - Walk(levels, v).qty, Spent(a) - Walk(levels, v).notional;
      assert NoGain(side, dq) by {
        MarginalPriceCertifies(side, levels, v, a);
        SignFromCertificate(side, Marginal(levels, v), dq, dn);
      }
    }
  }

  lemma SignFromCertificate(side: TradeSide, p: real, dq: real, dn: real)
    requires p > 0.0 && dn == 0.0 && Certified(side, p, dq, dn)
    ensures NoGain(side, dq)
  {
    SignOfProduct(p, dq);
  }

  // ------------------------------------------------------------------
  // Monotonicity
  // ------------------------------------------------------------------

  lemma {:induction false} WalkIsMonotone(levels: seq<Level>, v1: real, v2: real)
    requires Positive(levels) && 0.0 < v1 <= v2
    ensures Walk(levels, v1).notional <= Walk(levels, v2).notional
    ensures Walk(levels, v1).qty <= Walk(levels, v2).qty
  {
    CapacityNonNegative(levels);
    if levels != [] {
      var c := Capacity(levels[0]);
      var t1, t2 := Min(v1, c), Min(v2, c);
      assert t1 <= t2;
      DivMono(t1, t2, levels[0].px);
      if v1 - t1 > EPS {
        WalkIsMonotone(levels[1..], v1 - t1, v2 - t2);
      } else if v2 - t2 > EPS {
        WalkConserves(levels[1..], v2 - t2);
      }
    }
  }

  /** The average price of a larger order is no better. */
  lemma VwapIsMonotone(side: TradeSide, levels: seq<Level>, v1: real, v2: real)
    requires ValidSide(side, levels) && 0.0 < v1 <= v2
    requires Walk(levels, v1).qty > 0.0
    ensures Walk(levels, v2).qty > 0.0
    ensures var w1, w2 := Walk(levels, v1), Walk(levels, v2);
            NoBetter(side, w1.notional / w1.qty, w2.notional / w2.qty)
  {
    WalkIsMonotone(levels, v1, v2);
    var w1, w2 := Walk(levels, v1), Walk(levels, v2);
    var p := Marginal(levels, v1);
    IncrementAgainstMarginal(side, levels, v1, v2);
    AverageAgainstMarginal(side, w1.notional, w1.qty, w2.notional, w2.qty, p);
  }

  /** The marginal price of the smaller order separates what it bought from
      what the larger one buys on top. */
  lemma IncrementAgainstMarginal(side: TradeSide, levels: seq<Level>, v1: real, v2: real)
    requires levels != [] && ValidSide(side, levels) && 0.0 < v1 <= v2
    ensures var p, w1, w2 := Marginal(levels, v1), Walk(levels, v1), Walk(levels, v2);
            && Certified(side, p, -w1.qty, -w1.notional)
            && Certified(side, p, w2.qty - w1.qty, w2.notional - w1.notional)
  {
    GreedyIsFeasible(levels, v2);
    MarginalPriceCertifies(side, levels, v1, GreedyAllocation(levels, v2));
    ZeroAllocation(levels);
    MarginalPriceCertifies(side, levels, v1, seq(|levels|, _ => 0.0));
  }

  /** If the first part averages no worse than `p` and the increment no
      better than `p`, the whole averages no better than the first part. */
  lemma AverageAgainstMarginal(side: TradeSide, n1: real, q1: real, n2: real, q2: real, p: real)
    requires 0.0 < q1 <= q2 && n1 <= n2 && p > 0.0
    requires Certified(side, p, -q1, -n1) && Certified(side, p, q2 - q1, n2 - n1)
    ensures NoBetter(side, n1 / q1, n2 / q2)
  {
    var dq, dn := q2 - q1, n2 - n1;
    if side == Buy {
      CrossStep(n1, q1, dn, dq, p);
      CrossDivide(n1, q1, n2, q2);
    } else {
      CrossStep(-n1, q1, -dn, dq, -p);
      CrossDivide(n2, q2, n1, q1);
    }
  }

  lemma CrossStep(n: real, q: real, dn: real, dq: real, p: real)
    requires q > 0.0 && dq >= 0.0 && n <= p * q && p * dq <= dn
    ensures n * (q + dq) <= (n + dn) * q
  {
    MulMono(n, p * q, dq);
    MulMono(p * dq, dn, q);
    assert (p * q) * dq == (p * dq) * q;
  }

  // ------------------------------------------------------------------
  // The whole simulated order
  // ------------------------------------------------------------------

  function TradeSideOf(side: string): TradeSide
  {
    if ToLower(side) in ["buy", "long", "ask"] then Buy else Sell
  }

  function Mid(book: Book): real
    requires book.bids != [] && book.asks != []
  {
    (book.bids[0].px + book.asks[0].px) / 2.0
  }

  function SlippageBps(side: TradeSide, vwap: real, mid: real): real
    requires mid != 0.0
  {
    (if side == Buy then vwap - mid else mid - vwap) / mid * 10_000.0
  }

  predicate PositiveBook(book: Book) { Positive(book.bids) && Positive(book.asks) }

  ghost predicate ValidBook(book: Book)
  {
    ValidSide(Sell, book.bids) && ValidSide(Buy, book.asks)
  }

  function SideLevels(side: TradeSide, book: Book): seq<Level>
  {
    if side == Buy then book.asks else book.bids
  }

  function Simulate(snap: Option<Book>, side: string, volumeUsd: real): Option<FillResult>
    requires snap.Some? ==> PositiveBook(snap.value)
  {
    if snap == None || volumeUsd <= 0.0 then None
    else
      var book := snap.value;
      if book.bids == [] || book.asks == [] then None
      else
        var mid, s := Mid(book), TradeSideOf(side);
        if mid <= 0.0 then None
        else
          var w := Walk(SideLevels(s, book), volumeUsd);
          if w.qty <= 0.0 then None
          else
            var vwap := w.notional / w.qty;
            Some(FillResult(s, volumeUsd, vwap, mid, SlippageBps(s, vwap, mid), w.notional, w.remaining > 1.0))
  }

  method SimulateOnSnapshot(snap: Option<Book>, side: string, volumeUsd: real)
    returns (fill: Option<FillResult>)
    requires snap.Some? ==> PositiveBook(snap.value)
    ensures fill == Simulate(snap, side, volumeUsd)
  {
    if snap == None || volumeUsd <= 0.0 { return None; }
    var book := snap.value;
    if book.bids == [] || book.asks == [] { return None; }
    var mid := (book.bids[0].px + book.asks[0].px) / 2.0;
    if mid <= 0.0 { return None; }
    var tradeSide := TradeSideOf(side);
    var notional, qtySum, remaining := WalkLevels(SideLevels(tradeSide, book), volumeUsd);
    if qtySum <= 0.0 { return None; }
    var vwap := notional / qtySum;
    var slip := if tradeSide == Buy then (vwap - mid) / mid * 10_000.0 else (mid - vwap) / mid * 10_000.0;
    return Some(FillResult(tradeSide, volumeUsd, vwap, mid, slip, notional, remaining > 1.0));
  }

  /** A larger order never reports less slippage, on either side, through the
      early stop and through exhausted books. */
  lemma SlippageIsMonotone(book: Book, side: string, v1: real, v2: real)
    requires ValidBook(book) && v1 <= v2
    requires Simulate(Some(book), side, v1).Some?
    ensures Simulate(Some(book), side, v2).Some?
    ensures Simulate(Some(book), side, v1).value.slippageBps <= Simulate(Some(book), side, v2).value.slippageBps
    ensures Simulate(Some(book), side, v1).value.filledUsd <= Simulate(Some(book), side, v2).value.filledUsd
    ensures Simulate(Some(book), side, v1).value.exhausted ==> Simulate(Some(book), side, v2).value.exhausted
  {
    var s := TradeSideOf(side);
    var levels := SideLevels(s, book);
    VwapIsMonotone(s, levels, v1, v2);
    WalkIsMonotone(levels, v1, v2);
    ExhaustedExactly(levels, v1);
    ExhaustedExactly(levels, v2);
    var f1, f2 := Simulate(Some(book), side, v1).value, Simulate(Some(book), side, v2).value;
    SlippageOrder(s, f1.vwap, f2.vwap, f1.mid);
  }

  lemma SlippageOrder(side: TradeSide, x: real, y: real, mid: real)
    requires mid > 0.0 && NoBetter(side, x, y)
    ensures SlippageBps(side, x, mid) <= SlippageBps(side, y, mid)
  {
    var a := if side == Buy then x - mid else mid - x;
    var b := if side == Buy then y - mid else mid - y;
    assert a / mid <= b / mid;
  }

  /** `exhausted` means the book was more than one dollar too thin, exactly. */
  lemma ExhaustedExactly(levels: seq<Level>, v: real)
    requires Positive(levels) && v > 0.0
    ensures Walk(levels, v).remaining > 1.0 <==> v - TotalCapacity(levels) > 1.0
  {
    WalkConserves(levels, v);
  }

  /** On a book that is not crossed the reported slippage is a cost, the fill
      is at most the order, and the VWAP is no better than the touch. */
  lemma SlippageIsACost(book: Book, side: string, v: real)
    requires ValidBook(book) && book.bids != [] && book.asks != []
    requires book.bids[0].px <= book.asks[0].px
    requires Simulate(Some(book), side, v).Some?
    ensures var f := Simulate(Some(book), side, v).value;
            f.slippageBps >= 0.0 && 0.0 < f.filledUsd <= v
            && NoBetter(f.side, SideLevels(f.side, book)[0].px, f.vwap)
  {
    var s := TradeSideOf(side);
    var levels := SideLevels(s, book);
    var w := Walk(levels, v);
    WalkConserves(levels, v);
    FilledMeansBought(levels, v);
    VwapBehindTouch(s, levels, v);
    SlippageOrder(s, Mid(book), w.notional / w.qty, Mid(book));
  }

  lemma VwapBehindTouch(side: TradeSide, levels: seq<Level>, v: real)
    requires levels != [] && ValidSide(side, levels) && v > 0.0 && Walk(levels, v).qty > 0.0
    ensures NoBetter(side, levels[0].px, Walk(levels, v).notional / Walk(levels, v).qty)
  {
    var w, touch := Walk(levels, v), levels[0].px;
    assert Certified(side, touch, w.qty, w.notional) by {
      GreedyIsFeasible(levels, v);
      TailNoGain(side, levels, GreedyAllocation(levels, v), touch);
    }
    AverageAgainstTouch(side, w.notional, w.qty, touch);
  }

  lemma AverageAgainstTouch(side: TradeSide, n: real, q: real, touch: real)
    requires q > 0.0 && Certified(side, touch, q, n)
    ensures NoBetter(side, touch, n / q)
  {
    DivMul(n, q);
    SignOfProduct(q, touch - n / q);
    assert q * (touch - n / q) == touch * q - n;
  }

  lemma {:induction false} FilledMeansBought(levels: seq<Level>, v: real)
    requires Positive(levels) && v > 0.0
    ensures Walk(levels, v).qty > 0.0 ==> Walk(levels, v).notional > 0.0
  {
    CapacityNonNegative(levels);
    if levels != [] {
      var take := Min(v, Capacity(levels[0]));
      assert take / levels[0].px > 0.0 ==> take > 0.0;
      if v - take > EPS {
        FilledMeansBought(levels[1..], v - take);
        WalkConserves(levels[1..], v - take);
      }
    }
  }

  // ------------------------------------------------------------------
  // What a reported fill says
  // ------------------------------------------------------------------

  /** The walk buys something exactly when some level offers something and it is
      either the first one or the order is not below the stop threshold. */
  lemma {:induction false} BoughtExactly(levels: seq<Level>, v: real)
    requires Positive(levels) && v > 0.0
    ensures Walk(levels, v).qty > 0.0 <==>
            exists i :: 0 <= i < |levels| && levels[i].qty > 0.0 && (i == 0 || v > 0.000000001)
  {
    if |levels| > 0 {
      var first, rest := levels[0], levels[1..];
      var take := Min(v, Capacity(first));
      SignOfProduct(first.px, first.qty);
      QuotientAgainst(take, first.px, 0.0);
      if first.qty > 0.0 {
        if v - take > EPS {
          WalkConserves(rest, v - take);
        }
      } else {
        assert Capacity(first) == 0.0;
        if v > EPS {
          BoughtExactly(rest, v);
          assert forall i | 0 < i < |levels| :: levels[i] == rest[i - 1];
          assert forall i | 0 <= i < |rest| :: rest[i] == levels[i + 1];
        }
      }
    }
  }

  /** The fill of walking `levels`, on the side the string asks for. */
  ghost predicate Fills(f: FillResult, side: TradeSide, levels: seq<Level>, v: real)
    requires Positive(levels)
  {
    var w := Walk(levels, v);
    f.side == side && f.volumeUsd == v && f.filledUsd == w.notional && Times(f.vwap, w.qty) == w.notional
    && (f.exhausted <==> v > TotalCapacity(levels) + 1.0)
  }

  predicate AsksToBuy(side: string)
  {
    ToLower(side) == "buy" || ToLower(side) == "long" || ToLower(side) == "ask"
  }

  /** When an order is filled at all: the amount is positive, both sides have a
      level, and the side it takes offers something within reach. */
  lemma FilledExactly(book: Book, side: string, v: real)
    requires ValidBook(book)
    ensures Simulate(Some(book), side, v).Some? <==>
            v > 0.0 && |book.bids| > 0 && |book.asks| > 0
            && (if AsksToBuy(side)
                then exists i :: 0 <= i < |book.asks| && book.asks[i].qty > 0.0 && (i == 0 || v > 0.000000001)
                else exists i :: 0 <= i < |book.bids| && book.bids[i].qty > 0.0 && (i == 0 || v > 0.000000001))
  {
    if v > 0.0 {
      BoughtExactly(book.asks, v);
      BoughtExactly(book.bids, v);
    }
  }

  /** The slippage of an average price against the middle of two touches. */
  lemma SlippageFromTouches(side: TradeSide, vwap: real, bid: real, ask: real)
    requires bid + ask > 0.0
    ensures var slip := SlippageBps(side, vwap, (bid + ask) / 2.0);
            Times(slip, bid + ask) == match side case Buy => (2.0 * vwap - bid - ask) * 10_000.0
                                                 case Sell => (bid + ask - 2.0 * vwap) * 10_000.0
  {
    var mid := (bid + ask) / 2.0;
    ScaledQuotient(vwap - mid, mid, bid + ask);
    ScaledQuotient(mid - vwap, mid, bid + ask);
  }

  lemma ScaledQuotient(d: real, mid: real, both: real)
    requires mid > 0.0 && both == 2.0 * mid
    ensures Times(d / mid * 10_000.0, both) == 2.0 * d * 10_000.0
  {
    var x := d / mid;
    DivMul(d, mid);
    assert x * 10_000.0 * both == 20_000.0 * (x * mid);
  }

  /** What an order for "buy", "long" or "ask" (in any letter case) reports is a
      Buy walked down the asks, no better than the best ask; any other word
      reports a Sell walked down the bids, no better than the best bid; and the
      slippage is the distance of the average price from the middle of the two
      touches, counted against the trader. */
  lemma FillExactly(book: Book, side: string, v: real)
    requires ValidBook(book) && Simulate(Some(book), side, v).Some?
    ensures var f, bid, ask := Simulate(Some(book), side, v).value, book.bids[0].px, book.asks[0].px;
            && 2.0 * f.mid == bid + ask
            && (AsksToBuy(side) ==>
                  Fills(f, Buy, book.asks, v) && ask <= f.vwap
                  && Times(f.slippageBps, bid + ask) == (2.0 * f.vwap - bid - ask) * 10_000.0)
            && (!AsksToBuy(side) ==>
                  Fills(f, Sell, book.bids, v) && f.vwap <= bid
                  && Times(f.slippageBps, bid + ask) == (bid + ask - 2.0 * f.vwap) * 10_000.0)
  {
    var f, bid, ask := Simulate(Some(book), side, v).value, book.bids[0].px, book.asks[0].px;
    SlippageFromTouches(f.side, f.vwap, bid, ask);
    if AsksToBuy(side) {
      WalkedFill(f, Buy, book.asks, v, Walk(book.asks, v));
    } else {
      WalkedFill(f, Sell, book.bids, v, Walk(book.bids, v));
    }
  }

  lemma WalkedFill(f: FillResult, side: TradeSide, levels: seq<Level>, v: real, w: Walked)
    requires |levels| > 0 && ValidSide(side, levels) && v > 0.0 && w == Walk(levels, v) && w.qty > 0.0
    requires f.side == side && f.volumeUsd == v && f.filledUsd == w.notional && f.vwap == w.notional / w.qty
    requires f.exhausted <==> w.remaining > 1.0
    ensures Fills(f, side, levels, v) && NoBetter(side, levels[0].px, f.vwap)
  {
    assert Times(f.vwap, w.qty) == w.notional by {
      DivMul(w.notional, w.qty);
    }
    ExhaustedExactly(levels, v);
    VwapBehindTouch(side, levels, v);
  }

  // ------------------------------------------------------------------
  // Nearest snapshot
  // ------------------------------------------------------------------

  predicate SortedTimes(ts: seq<int>)
  {
    forall i, j | 0 <= i < j < |ts| :: ts[i] < ts[j]
  }

  function Gap(a: int, b: int): nat { if a < b then b - a else a - b }

  /** `searchsorted(..., side="left")`: the first index whose time is not before `t`. */
  method SearchSorted(ts: seq<int>, t: int) returns (i: nat)
    requires SortedTimes(ts)
    ensures i <= |ts|
    ensures forall j | 0 <= j < i :: ts[j] < t
    ensures forall j | i <= j < |ts| :: t <= ts[j]
  {
    var lo, hi := 0, |ts|;
    while lo < hi
      invariant 0 <= lo <= hi <= |ts|
      invariant forall j | 0 <= j < lo :: ts[j] < t
      invariant forall j | hi <= j < |ts| :: t <= ts[j]
    {
      var m := (lo + hi) / 2;
      if ts[m] < t { lo := m + 1; } else { hi := m; }
    }
    i := lo;
  }

  /** `k` is the snapshot closest in time, the later one on a tie; there is
      none exactly when every snapshot is over two minutes away. */
  ghost predicate IsNearest(ts: seq<int>, t: int, k: Option<nat>)
  {
    match k
    case None => forall j | 0 <= j < |ts| :: ts[j] < t - 120_000 || ts[j] > t + 120_000
    case Some(i) =>
      && i < |ts| && t - 120_000 <= ts[i] <= t + 120_000
      && forall j | 0 <= j < |ts| :: Gap(ts[i], t) < Gap(ts[j], t) || (Gap(ts[i], t) == Gap(ts[j], t) && j <= i)
  }

  /** Looking at the two neighbours of the insertion point is enough. */
  method NearestSnapshot(ts: seq<int>, t: int) returns (k: Option<nat>)
    requires SortedTimes(ts)
    ensures IsNearest(ts, t, k)
  {
    if |ts| == 0 { return None; }
    var i := SearchSorted(ts, t);
    var candidates: seq<nat> := [];
    if i < |ts| { candidates := candidates + [i]; }
    if i > 0 { candidates := candidates + [i - 1]; }
    var best := candidates[0];
    if |candidates| == 2 && Gap(ts[candidates[1]], t) < Gap(ts[best], t) { best := candidates[1]; }
    if Gap(ts[best], t) > MAX_SNAPSHOT_GAP_MS { return None; }
    return Some(best);
  }

  lemma NearestIsUnique(ts: seq<int>, t: int, k1: Option<nat>, k2: Option<nat>)
    requires SortedTimes(ts) && IsNearest(ts, t, k1) && IsNearest(ts, t, k2)
    ensures k1 == k2
  {
    if k1.Some? && k2.Some? {
      var i, j := k1.value, k2.value;
      assert Gap(ts[i], t) == Gap(ts[j], t);
    }
  }

  /** One symbol's history: snapshot times in order and the book at each. */
  datatype Series = Series(ts: seq<int>, snaps: map<int, Book>)
  {
    ghost predicate Valid()
    {
      SortedTimes(ts) && forall i | 0 <= i < |ts| :: ts[i] in snaps && ValidBook(snaps[ts[i]])
    }

    ghost predicate IsSnapshotFor(t: int, snap: Option<Book>)
      requires Valid()
    {
      exists k: Option<nat> :: IsNearest(ts, t, k) && snap == if k.Some? then Some(snaps[ts[k.value]]) else None
    }
  }

  /** The simulator's entry point: nearest snapshot of the symbol, then the walk on it. */
  method SimulateMarketOrder(books: map<string, Series>, symbol: string, side: string, volumeUsd: real, t: int)
    returns (fill: Option<FillResult>)
    requires forall s | s in books :: books[s].Valid()
    ensures symbol !in books ==> fill == None
    ensures symbol in books ==> exists snap :: books[symbol].IsSnapshotFor(t, snap)
                                  && (snap.Some? ==> ValidBook(snap.value)) && fill == Simulate(snap, side, volumeUsd)
  {
    if symbol !in books { return None; }
    var series := books[symbol];
    var k := NearestSnapshot(series.ts, t);
    var snap := if k.Some? then Some(series.snaps[series.ts[k.value]]) else None;
    assert series.IsSnapshotFor(t, snap);
    fill := SimulateOnSnapshot(snap, side, volumeUsd);
  }
}
