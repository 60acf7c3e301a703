/** Stops and exits of crates/executor-core/src/position.rs, with the startup
    check that relates the target to the fees. */
module Positions {
  import opened Numerics
  import opened Packets

  datatype ExitReason = LagConvergence | TimeStop | Invalidation | StopLoss | TakeProfit

  datatype Position = Position(symbolName: string, symbolId: SymbolId, seqNum: nat, side: Side, entryPrice: real,
                               qty: real, qtyRemaining: real, stop: real, tp: real, openTimeNs: nat,
                               entryImpulseBps: real, lagCapture: real)

  const INVALIDATION_RESIDUAL_BPS: real := 2.0

  datatype PositionManager = PositionManager(convergenceRatio: real, timeStopMs: nat)
  {
    function UpdateLagCapture(pos: Position, p: Packet): Position
    {
      if Abs(pos.entryImpulseBps) < 0.000001 then pos
      else
        var ratio := Abs(p.lagResidualBps) / Abs(pos.entryImpulseBps);
        pos.(lagCapture := 1.0 - Clamp(ratio, 0.0, 1.0))
    }

    function CheckExit(pos: Position, bybitMid: real, p: Packet, now: nat): Option<ExitReason>
    {
      if pos.lagCapture >= convergenceRatio then Some(LagConvergence)
      else if SatSub(now, pos.openTimeNs) / 1_000_000 > timeStopMs && pos.lagCapture < 0.3 then Some(TimeStop)
      else if pos.side == Long && p.lagResidualBps <= -INVALIDATION_RESIDUAL_BPS && p.impulseBps < 0.0 && p.velocity < 0.0
      then Some(Invalidation)
      else if pos.side == Short && p.lagResidualBps >= INVALIDATION_RESIDUAL_BPS && p.impulseBps > 0.0 && p.velocity > 0.0
      then Some(Invalidation)
      else if pos.stop > 0.0 && (if pos.side == Long then bybitMid <= pos.stop else bybitMid >= pos.stop)
      then Some(StopLoss)
      else if pos.tp > 0.0 && (if pos.side == Long then bybitMid >= pos.tp else bybitMid <= pos.tp)
      then Some(TakeProfit)
      else None
    }
  }

  /** Stop and target at the moment of entry. */
  function InitialStops(side: Side, entry: real, atr: real, atrMult: real, tpPct: real): (real, real)
  {
    var stopDist := Max(atr, entry * 0.001) * atrMult;
    (if side == Long then entry - stopDist else entry + stopDist, TargetPrice(side, entry, tpPct))
  }

  function TargetPrice(side: Side, entry: real, tpPct: real): real
  {
    if side == Long then entry * (1.0 + tpPct) else entry * (1.0 - tpPct)
  }

  // ------------------------------------------------------------------
  // When a position is closed, and why
  // ------------------------------------------------------------------

  /** Enough of the entry impulse has been caught up; a position entered on no
      impulse keeps the share it had. */
  predicate Converged(pos: Position, residual: real, ratio: real)
  {
    var gone, whole := Abs(residual), Abs(pos.entryImpulseBps);
    if whole < 0.000001 then pos.lagCapture >= ratio else whole - Min(gone, whole) >= ratio * whole
  }

  /** Held for more than the allowed milliseconds with under 30 percent caught up. */
  predicate TimedOut(pos: Position, residual: real, limitMs: nat, now: nat)
  {
    now >= pos.openTimeNs + (limitMs + 1) * 1_000_000 && !Converged(pos, residual, 0.3)
  }

  /** Residual, impulse and velocity have all turned against the position. */
  predicate ThesisFlipped(side: Side, p: Packet)
  {
    match side
    case Long => p.lagResidualBps <= -2.0 && p.impulseBps < 0.0 && p.velocity < 0.0
    case Short => p.lagResidualBps >= 2.0 && p.impulseBps > 0.0 && p.velocity > 0.0
  }

  predicate HitsStop(side: Side, stop: real, mid: real)
  {
    stop > 0.0 && match side case Long => mid <= stop case Short => mid >= stop
  }

  predicate HitsTp(side: Side, tp: real, mid: real)
  {
    tp > 0.0 && match side case Long => mid >= tp case Short => mid <= tp
  }

  lemma CaptureAgainst(pm: PositionManager, pos: Position, p: Packet, least: real)
    ensures pm.UpdateLagCapture(pos, p).lagCapture >= least <==> Converged(pos, p.lagResidualBps, least)
  {
    var gone, whole := Abs(p.lagResidualBps), Abs(pos.entryImpulseBps);
    if whole >= 0.000001 {
      var share := gone / whole;
      QuotientAgainst(gone, whole, 1.0);
      QuotientAgainst(gone, whole, 0.0);
      QuotientAgainst(whole - gone, whole, least);
      DivSub(whole, gone, whole);
      assert whole / whole == 1.0;
      SignOfProduct(whole, least);
    }
  }

  lemma ElapsedAgainst(now: nat, since: nat, limitMs: nat)
    ensures SatSub(now, since) / 1_000_000 > limitMs <==> now >= since + (limitMs + 1) * 1_000_000
  {
  }

  /** The exit check, reason by reason: each is given exactly when its own
      condition holds and no earlier one does, in the order convergence, time,
      thesis, stop, target; and the position stays exactly when none does. */
  lemma ExitExactly(pm: PositionManager, pos: Position, mid: real, p: Packet, now: nat)
    ensures var exit := pm.CheckExit(pm.UpdateLagCapture(pos, p), mid, p, now);
            var converged := Converged(pos, p.lagResidualBps, pm.convergenceRatio);
            var late := !converged && TimedOut(pos, p.lagResidualBps, pm.timeStopMs, now);
            var flipped := !converged && !late && ThesisFlipped(pos.side, p);
            var held := !converged && !late && !flipped;
            && (exit == Some(LagConvergence) <==> converged)
            && (exit == Some(TimeStop) <==> late)
            && (exit == Some(Invalidation) <==> flipped)
            && (exit == Some(StopLoss) <==> held && HitsStop(pos.side, pos.stop, mid))
            && (exit == Some(TakeProfit) <==> held && !HitsStop(pos.side, pos.stop, mid) && HitsTp(pos.side, pos.tp, mid))
            && (exit == None <==> held && !HitsStop(pos.side, pos.stop, mid) && !HitsTp(pos.side, pos.tp, mid))
  {
    CaptureAgainst(pm, pos, p, pm.convergenceRatio);
    CaptureAgainst(pm, pos, p, 0.3);
    ElapsedAgainst(now, pos.openTimeNs, pm.timeStopMs);
  }

  /** Whatever the packet says, the capture ratio stays a fraction. */
  lemma LagCaptureIsAFraction(pm: PositionManager, pos: Position, p: Packet)
    requires 0.0 <= pos.lagCapture <= 1.0
    ensures 0.0 <= pm.UpdateLagCapture(pos, p).lagCapture <= 1.0
  {
    if Abs(pos.entryImpulseBps) >= 0.000001 {
      assert Abs(p.lagResidualBps) / Abs(pos.entryImpulseBps) >= 0.0;
    }
  }

  // ------------------------------------------------------------------
  // Longs and shorts are mirror images
  // ------------------------------------------------------------------

  function Opposite(side: Side): Side { if side == Long then Short else Long }

  /** The position reflected at half of `c`: every price `x` becomes `c - x`. */
  function MirroredPosition(pos: Position, c: real): Position
  {
    pos.(side := Opposite(pos.side), entryPrice := c - pos.entryPrice, stop := c - pos.stop, tp := c - pos.tp,
         entryImpulseBps := -pos.entryImpulseBps)
  }

  function MirroredPacket(p: Packet): Packet
  {
    p.(directionBias := -p.directionBias, lagResidualBps := -p.lagResidualBps, impulseBps := -p.impulseBps,
       velocity := -p.velocity)
  }

  /** Reflecting a position, its prices and the packet never changes what the
      exit check decides, while both brackets stay at positive prices. */
  lemma ExitsAreSymmetric(pm: PositionManager, pos: Position, mid: real, p: Packet, now: nat, c: real)
    requires 0.0 < pos.stop < c && 0.0 < pos.tp < c
    ensures pm.CheckExit(pm.UpdateLagCapture(MirroredPosition(pos, c), MirroredPacket(p)), c - mid, MirroredPacket(p), now)
            == pm.CheckExit(pm.UpdateLagCapture(pos, p), mid, p, now)
  {
    assert Abs(-p.lagResidualBps) == Abs(p.lagResidualBps) && Abs(-pos.entryImpulseBps) == Abs(pos.entryImpulseBps);
  }

  /** The brackets set at entry are mirror images at the entry price. */
  lemma StopsAreSymmetric(side: Side, entry: real, atr: real, atrMult: real, tpPct: real)
    ensures var (stop, tp) := InitialStops(side, entry, atr, atrMult, tpPct);
            InitialStops(Opposite(side), entry, atr, atrMult, tpPct) == (2.0 * entry - stop, 2.0 * entry - tp)
  {
    assert entry * (1.0 + tpPct) + entry * (1.0 - tpPct) == 2.0 * entry;
  }

  lemma StopDistance(base: real, atr: real, atrMult: real, least: real)
    requires atrMult >= 0.0 && least == base * atrMult
    ensures Max(atr, base) * atrMult >= least
  {
    MulMono(base, Max(atr, base), atrMult);
  }

  /** The bracket straddles the entry: a stop hit is a gross loss of at least a
      tenth of a percent of the entry value per unit of multiplier, and never a
      target hit as well, so their order in the exit check does not matter. */
  lemma BracketStraddlesEntry(side: Side, entry: real, atr: real, atrMult: real, tpPct: real, mid: real, qty: real)
    requires entry > 0.0 && atrMult > 0.0 && tpPct > 0.0 && qty > 0.0
    requires HitsStop(side, InitialStops(side, entry, atr, atrMult, tpPct).0, mid)
    ensures Gross(side, entry, mid, qty) <= -(entry * 0.001 * atrMult * qty)
    ensures !HitsTarget(side, entry, tpPct, mid)
  {
    var least, gap := entry * 0.001 * atrMult, if side == Long then mid - entry else entry - mid;
    StopDistance(entry * 0.001, atr, atrMult, least);
    assert gap <= -least;
    MulMono(gap, -least, qty);
    assert Gross(side, entry, mid, qty) == gap * qty;
    SignOfProduct(entry * 0.001, atrMult);
    SignOfProduct(entry, tpPct);
    assert entry * (1.0 + tpPct) == entry + entry * tpPct;
    assert entry * (1.0 - tpPct) == entry - entry * tpPct;
  }

  // ------------------------------------------------------------------
  // A take-profit is really a profit
  // ------------------------------------------------------------------

  datatype Fees = Fees(takerPct: real, bufferPct: real)
  {
    /** `d_min_net_futures`. */
    function DMinNet(): real { takerPct * 2.0 + 0.0005 + bufferPct }
  }

  /** The part of `validate_startup` that relates target and fees. */
  predicate TargetAccepted(fees: Fees, tpPct: real) { !(tpPct < fees.DMinNet()) }

  function Gross(side: Side, entry: real, exit: real, qty: real): real
  {
    (if side == Long then exit - entry else entry - exit) * qty
  }

  function RoundTripFees(entry: real, exit: real, qty: real, feeRate: real): real
  {
    qty * entry * feeRate + qty * exit * feeRate
  }

  /** Prices at which a position with this entry and target is closed for TakeProfit. */
  predicate HitsTarget(side: Side, entry: real, tpPct: real, exit: real)
  {
    var tp := TargetPrice(side, entry, tpPct);
    tp > 0.0 && (if side == Long then exit >= tp else 0.0 < exit <= tp)
  }

  /** Gross profit beats the fees of both fills. */
  predicate Profitable(side: Side, entry: real, exit: real, qty: real, feeRate: real)
  {
    Gross(side, entry, exit, qty) > RoundTripFees(entry, exit, qty, feeRate)
  }

  /** Per unit of entry price: the long margin at exit ratio `x`. */
  lemma LongMargin(entry: real, exit: real, qty: real, f: real)
    requires entry > 0.0 && qty > 0.0
    ensures Profitable(Long, entry, exit, qty, f) <==> Times(exit, 1.0 - f) > Times(entry, 1.0 + f)
  {
    var m := exit * (1.0 - f) - entry * (1.0 + f);
    assert Gross(Long, entry, exit, qty) - RoundTripFees(entry, exit, qty, f) == qty * m;
    SignOfProduct(qty, m);
  }

  lemma ShortMargin(entry: real, exit: real, qty: real, f: real)
    requires entry > 0.0 && qty > 0.0
    ensures Profitable(Short, entry, exit, qty, f) <==> Times(entry, 1.0 - f) > Times(exit, 1.0 + f)
  {
    var m := entry * (1.0 - f) - exit * (1.0 + f);
    assert Gross(Short, entry, exit, qty) - RoundTripFees(entry, exit, qty, f) == qty * m;
    SignOfProduct(qty, m);
  }

  /** The least favourable exit at the target itself, in units of the entry price. */
  lemma LongTargetMargin(entry: real, t: real, f: real)
    requires entry > 0.0
    ensures Times(TargetPrice(Long, entry, t), 1.0 - f) > Times(entry, 1.0 + f) <==> Times(t, 1.0 - f) > 2.0 * f
  {
    SignOfProduct(entry, t * (1.0 - f) - 2.0 * f);
    assert (entry * (1.0 + t)) * (1.0 - f) - entry * (1.0 + f) == entry * (t * (1.0 - f) - 2.0 * f);
  }

  lemma ShortTargetMargin(entry: real, t: real, f: real)
    requires entry > 0.0
    ensures Times(entry, 1.0 - f) > Times(TargetPrice(Short, entry, t), 1.0 + f) <==> Times(t, 1.0 + f) > 2.0 * f
  {
    SignOfProduct(entry, t * (1.0 + f) - 2.0 * f);
    assert entry * (1.0 - f) - (entry * (1.0 - t)) * (1.0 + f) == entry * (t * (1.0 + f) - 2.0 * f);
  }

  /** The margin of a target per unit of entry price: what is left of it after
      the fee it attracts, against two taker fees. */
  predicate TargetCovers(side: Side, t: real, f: real)
  {
    if side == Long then Times(t, 1.0 - f) > 2.0 * f else Times(t, 1.0 + f) > 2.0 * f
  }

  lemma AtTarget(side: Side, entry: real, qty: real, t: real, f: real)
    requires entry > 0.0 && qty > 0.0
    ensures Profitable(side, entry, TargetPrice(side, entry, t), qty, f) <==> TargetCovers(side, t, f)
  {
    if side == Long {
      LongTargetMargin(entry, t, f);
      LongMargin(entry, TargetPrice(Long, entry, t), qty, f);
    } else {
      ShortTargetMargin(entry, t, f);
      ShortMargin(entry, TargetPrice(Short, entry, t), qty, f);
    }
  }

  lemma BeyondTarget(side: Side, entry: real, exit: real, qty: real, t: real, f: real)
    requires entry > 0.0 && qty > 0.0 && 0.0 <= f < 1.0
    requires HitsTarget(side, entry, t, exit) && Profitable(side, entry, TargetPrice(side, entry, t), qty, f)
    ensures Profitable(side, entry, exit, qty, f)
  {
    var tp := TargetPrice(side, entry, t);
    if side == Long {
      LongMargin(entry, tp, qty, f);
      LongMargin(entry, exit, qty, f);
      TimesMono(tp, exit, 1.0 - f);
    } else {
      ShortMargin(entry, tp, qty, f);
      ShortMargin(entry, exit, qty, f);
      TimesMono(exit, tp, 1.0 + f);
    }
  }

  /** Exactly when every take-profit on a side pays. */
  lemma TakeProfitPaysExactly(side: Side, entry: real, qty: real, t: real, f: real)
    requires entry > 0.0 && qty > 0.0 && 0.0 <= f < 1.0 && -1.0 < t < 1.0
    ensures (forall exit | HitsTarget(side, entry, t, exit) :: Profitable(side, entry, exit, qty, f))
            <==> TargetCovers(side, t, f)
  {
    AtTarget(side, entry, qty, t, f);
    assert HitsTarget(side, entry, t, TargetPrice(side, entry, t)) by {
      SignOfProduct(entry, 1.0 + t);
      SignOfProduct(entry, 1.0 - t);
    }
    if TargetCovers(side, t, f) {
      forall exit | HitsTarget(side, entry, t, exit) ensures Profitable(side, entry, exit, qty, f) {
        BeyondTarget(side, entry, exit, qty, t, f);
      }
    }
  }

  /** When the startup check suffices: every accepted target below 100% makes
      every take-profit on both sides pay exactly when the smallest accepted
      target does on the long side. */
  lemma StartupCheckSufficesExactly(fees: Fees, entry: real, qty: real)
    requires entry > 0.0 && qty > 0.0 && 0.0 <= fees.takerPct < 1.0 && fees.bufferPct >= 0.0 && fees.DMinNet() < 1.0
    ensures (forall side, t, exit | TargetAccepted(fees, t) && t < 1.0 && HitsTarget(side, entry, t, exit) ::
               Profitable(side, entry, exit, qty, fees.takerPct))
            <==> TargetCovers(Long, fees.DMinNet(), fees.takerPct)
  {
    var f, d := fees.takerPct, fees.DMinNet();
    AtTarget(Long, entry, qty, d, f);
    assert TargetAccepted(fees, d) && HitsTarget(Long, entry, d, TargetPrice(Long, entry, d)) by {
      SignOfProduct(entry, 1.0 + d);
    }
    if TargetCovers(Long, d, f) {
      forall side, t, exit | TargetAccepted(fees, t) && t < 1.0 && HitsTarget(side, entry, t, exit)
        ensures Profitable(side, entry, exit, qty, f)
      {
        LargerTargetCovers(side, d, t, f);
        AtTarget(side, entry, qty, t, f);
        BeyondTarget(side, entry, exit, qty, t, f);
      }
    }
  }

  lemma LargerTargetCovers(side: Side, d: real, t: real, f: real)
    requires 0.0 < d <= t && 0.0 <= f < 1.0 && TargetCovers(Long, d, f)
    ensures TargetCovers(side, t, f)
  {
    TimesMono(d, t, 1.0 - f);
    TimesMono(1.0 - f, 1.0 + f, t);
    TimesCommutes(t, 1.0 - f);
    TimesCommutes(t, 1.0 + f);
  }

  lemma SquareOfSmallFee(f: real)
    requires 0.0 <= f <= 0.015
    ensures f * f <= 0.000225
  {
    MulMono(f, 0.015, f);
    MulMono(f, 0.015, 0.015);
    assert f * f <= 0.015 * 0.015;
  }

  /** It does suffice for every taker fee up to 1.5 percent. */
  lemma SmallFeesSuffice(fees: Fees)
    requires 0.0 <= fees.takerPct <= 0.015 && fees.bufferPct >= 0.0
    ensures TargetCovers(Long, fees.DMinNet(), fees.takerPct)
  {
    var f, b := fees.takerPct, fees.bufferPct;
    SquareOfSmallFee(f);
    var square, kept := f * f, b * (1.0 - f);
    assert kept >= 0.0;
    assert 2.0 * square + 0.0005 * f < 0.0005;
    assert fees.DMinNet() * (1.0 - f) == 2.0 * f + 0.0005 - 2.0 * square - 0.0005 * f + kept;
    assert fees.DMinNet() * (1.0 - f) > 2.0 * f;
  }

  /** And fails at two percent: the smallest accepted target is a loss. */
  lemma TwoPercentDoesNot()
    ensures var fees := Fees(0.02, 0.0);
            && !TargetCovers(Long, fees.DMinNet(), fees.takerPct)
            && (forall t :: TargetAccepted(fees, t) <==> t >= 0.0405) && HitsTarget(Long, 100.0, 0.0405, 104.05)
            && !Profitable(Long, 100.0, 104.05, 1.0, 0.02)
  {
  }

  /** The take-profit theorem for both sides. */
  lemma TakeProfitPays(fees: Fees, t: real, side: Side, entry: real, exit: real, qty: real)
    requires TargetAccepted(fees, t) && 0.0 <= fees.takerPct <= 0.015 && fees.bufferPct >= 0.0 && t < 1.0
    requires entry > 0.0 && qty > 0.0 && HitsTarget(side, entry, t, exit)
    ensures Profitable(side, entry, exit, qty, fees.takerPct)
  {
    SmallFeesSuffice(fees);
    StartupCheckSufficesExactly(fees, entry, qty);
  }
}
