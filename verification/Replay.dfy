/** The replay gate of crates/replay/src/main.rs. */
module Replay {
  import opened Numerics
  import opened Packets
  import PacketLog
  import Metrics
  import Entry

  datatype Stats = Stats(trades: nat, wins: nat, grossProfit: real, grossLoss: real, fees: real)

  const NO_STATS := Stats(0, 0, 0.0, 0.0, 0.0)

  /** `f64` ratios with infinity. */
  datatype Factor = Finite(value: real) | Infinite

  function ProfitFactor(s: Stats): Factor
  {
    if Abs(s.grossLoss) < 0.000000000001 then (if s.grossProfit > 0.0 then Infinite else Finite(0.0))
    else Finite(s.grossProfit / Abs(s.grossLoss))
  }

  function FollowThroughRate(s: Stats): real
  {
    if s.trades == 0 then 0.0 else s.wins as real / s.trades as real
  }

  predicate AtLeast(f: Factor, least: real) { f.Infinite? || f.value >= least }

  predicate PassesGate(s: Stats)
  {
    s.trades >= 20 && AtLeast(ProfitFactor(s), 1.2) && FollowThroughRate(s) >= 0.40
  }

  function Capture(latencyMs: nat): real
  {
    var decay := Clamp(latencyMs as real / 150.0, 0.0, 1.5);
    Clamp(0.55 - 0.15 * decay, 0.15, 0.55)
  }

  function Slip(p: Packet): real
  {
    if p.bybitMidRef > 0.0 && p.refPrice > 0.0
    then Abs((p.bybitMidRef - p.refPrice) / p.refPrice * 10_000.0) * 0.3
    else 2.0
  }

  function EstimatePnl(p: Packet, latencyMs: nat): real
  {
    if p.entryValid == 0 then 0.0 else (Times(p.lagResidualBps, Capture(latencyMs)) - Slip(p)) / 100.0
  }

  function Fee(p: Packet): real { Max(p.dMin, 0.0016) * 100.0 }

  function NetOf(p: Packet, latencyMs: nat): real { EstimatePnl(p, latencyMs) - Fee(p) * 0.01 }

  function OnPacket(s: Stats, p: Packet, latencyMs: nat): Stats
  {
    if p.entryValid != 1 then s
    else
      var net := NetOf(p, latencyMs);
      if net > 0.0 then Stats(s.trades + 1, s.wins + 1, s.grossProfit + net, s.grossLoss, s.fees + Fee(p))
      else Stats(s.trades + 1, s.wins, s.grossProfit, s.grossLoss + net, s.fees + Fee(p))
  }

  function Replayed(log: seq<Packet>, latencyMs: nat, n: nat := |log|): Stats
    requires n <= |log|
    decreases n
  {
    if n == 0 then NO_STATS else OnPacket(Replayed(log, latencyMs, n - 1), log[n - 1], latencyMs)
  }

  class ReplayEngine {
    const injectedLatencyMs: nat
    var trades: nat
    var wins: nat
    var grossProfit: real
    var grossLoss: real
    var fees: real

    ghost function Value(): Stats
      reads this
    {
      Stats(trades, wins, grossProfit, grossLoss, fees)
    }

    constructor (injectedLatencyMs: nat)
      ensures Value() == NO_STATS && this.injectedLatencyMs == injectedLatencyMs
    {
      this.injectedLatencyMs := injectedLatencyMs;
      trades, wins, grossProfit, grossLoss, fees := 0, 0, 0.0, 0.0, 0.0;
    }

    method HandlePacket(p: Packet, pnlDelta: real)
      requires pnlDelta == EstimatePnl(p, injectedLatencyMs)
      modifies this
      ensures Value() == OnPacket(old(Value()), p, injectedLatencyMs)
    {
      if p.entryValid != 1 { return; }
      trades := trades + 1;
      var fee := Fee(p);
      fees := fees + fee;
      var net := pnlDelta - fee * 0.01;
      if net > 0.0 {
        wins := wins + 1;
        grossProfit := grossProfit + net;
      } else {
        grossLoss := grossLoss + net;
      }
    }
  }

  datatype Verdict = Unreadable(error: PacketLog.Error) | NoPackets | Gate(pass: bool)

  function VerdictOf(read: PacketLog.Result<seq<Packet>>, latencyMs: nat): Verdict
  {
    match read
    case Err(e) => Unreadable(e)
    case Ok(log) => if |log| == 0 then NoPackets else Gate(PassesGate(Replayed(log, latencyMs)))
  }

  /** The replay binary: read the log, feed it to the engine, ask the gate. */
  method RunGate(codec: PacketLog.Codec, file: seq<PacketLog.Byte>, latencyMs: nat) returns (v: Verdict)
    ensures v == VerdictOf(PacketLog.Parse(codec, file), latencyMs)
  {
    var read := PacketLog.ReadPackets(codec, file);
    if read.Err? { return Unreadable(read.error); }
    var log := read.value;
    if |log| == 0 { return NoPackets; }
    var engine := new ReplayEngine(latencyMs);
    for i := 0 to |log|
      invariant engine.injectedLatencyMs == latencyMs
      invariant engine.Value() == Replayed(log, latencyMs, i)
    {
      engine.HandlePacket(log[i], EstimatePnl(log[i], latencyMs));
    }
    return Gate(PassesGate(Stats(engine.trades, engine.wins, engine.grossProfit, engine.grossLoss, engine.fees)));
  }

  // ------------------------------------------------------------------
  // More latency never helps
  // ------------------------------------------------------------------

  lemma CaptureDecays(l1: nat, l2: nat)
    requires l1 <= l2
    ensures 0.325 <= Capture(l2) <= Capture(l1) <= 0.55
    ensures l1 == 0 && l2 >= 225 ==> Capture(l2) == 0.325 && Capture(l1) == 0.55
  {
    DivMono(l1 as real, l2 as real, 150.0);
  }

  /** One packet: its estimate is antitone in latency exactly when its residual
      is not negative, so the gate's antitony is not a packet-by-packet fact. */
  lemma EstimateAntitoneExactly(p: Packet)
    requires p.entryValid != 0
    ensures (forall l1: nat, l2: nat | l1 <= l2 :: EstimatePnl(p, l2) <= EstimatePnl(p, l1)) <==> p.lagResidualBps >= 0.0
  {
    if p.lagResidualBps >= 0.0 {
      forall l1: nat, l2: nat | l1 <= l2 ensures EstimatePnl(p, l2) <= EstimatePnl(p, l1) {
        EstimateDecays(p, l1, l2);
      }
    } else {
      CaptureDecays(0, 225);
      SmallerTimes(p.lagResidualBps);
      assert EstimatePnl(p, 225) > EstimatePnl(p, 0);
    }
  }

  lemma SmallerTimes(r: real)
    requires r < 0.0
    ensures Times(r, 0.325) > Times(r, 0.55)
  {
  }

  lemma EstimateDecays(p: Packet, l1: nat, l2: nat)
    requires l1 <= l2 && (p.entryValid != 0 ==> p.lagResidualBps >= 0.0)
    ensures EstimatePnl(p, l2) <= EstimatePnl(p, l1)
  {
    CaptureDecays(l1, l2);
    if p.entryValid != 0 {
      TimesMono(Capture(l2), Capture(l1), p.lagResidualBps);
      TimesCommutes(p.lagResidualBps, Capture(l1));
      TimesCommutes(p.lagResidualBps, Capture(l2));
    }
  }

  /** A counted packet without a positive residual loses at least the fee floor,
      whatever the latency. */
  lemma OnlyPositiveResidualsWin(p: Packet, latencyMs: nat)
    requires p.entryValid == 1 && p.lagResidualBps <= 0.0
    ensures NetOf(p, latencyMs) <= -0.0016
  {
    CaptureDecays(latencyMs, latencyMs);
    TimesMono(p.lagResidualBps, 0.0, Capture(latencyMs));
  }

  /** The executor's shorts carry negative residuals, so every short it logs
      counts as a losing trade here. */
  lemma LoggedShortsLose(engine: Entry.EntryEngine, m: Metrics.Snapshot, root: real, lag: Entry.LagState,
                         t: Entry.Tick, now: nat, gate: bool, latencyMs: nat)
    requires Entry.TickPacket(engine, m, root, lag, t, now, gate).directionBias < 0
    ensures var p := Entry.TickPacket(engine, m, root, lag, t, now, gate);
            var s := OnPacket(NO_STATS, p, latencyMs);
            s.trades == 1 && s.wins == 0 && s.grossLoss <= -0.0016
  {
    OnlyPositiveResidualsWin(Entry.TickPacket(engine, m, root, lag, t, now, gate), latencyMs);
  }

  /** How much of the capture at the shorter latency is left at the longer one. */
  function Kept(l1: nat, l2: nat): (k: real)
    requires l1 <= l2
    ensures 0.0 < k <= 1.0
    ensures Times(k, Capture(l1)) == Capture(l2)
  {
    CaptureDecays(l1, l2);
    DivMul(Capture(l2), Capture(l1));
    CrossDivide(Capture(l2), Capture(l1), 1.0, 1.0);
    Capture(l2) / Capture(l1)
  }

  lemma Shrinks(k: real, r: real, c1: real, c2: real, cost: real)
    requires k <= 1.0 && Times(k, c1) == c2 && cost >= 0.0
    ensures (Times(r, c2) - cost) / 100.0 <= Times(k, (Times(r, c1) - cost) / 100.0)
  {
    assert Times(r, c2) == k * (r * c1);
    assert (1.0 - k) * cost >= 0.0;
  }

  /** A packet's net result shrinks at least as fast as the capture does,
      because slippage and fees do not shrink with it. */
  lemma NetShrinks(p: Packet, l1: nat, l2: nat)
    requires p.entryValid == 1 && l1 <= l2
    ensures NetOf(p, l2) <= Times(Kept(l1, l2), NetOf(p, l1))
  {
    var cost := Slip(p) + Fee(p);
    assert NetOf(p, l1) == (Times(p.lagResidualBps, Capture(l1)) - cost) / 100.0;
    assert NetOf(p, l2) == (Times(p.lagResidualBps, Capture(l2)) - cost) / 100.0;
    Shrinks(Kept(l1, l2), p.lagResidualBps, Capture(l1), Capture(l2), cost);
  }

  /** The same trades and fees, no fewer wins; profits shrink by at least `k`,
      losses by at most `k`; and losses shrink at all only beside a real loss. */
  ghost predicate Decayed(early: Stats, late: Stats, k: real)
  {
    && early.trades == late.trades && early.fees == late.fees
    && late.wins <= early.wins <= early.trades
    && 0.0 <= late.grossProfit <= Times(k, early.grossProfit)
    && late.grossLoss <= Times(k, early.grossLoss) <= 0.0
    && (late.grossLoss <= early.grossLoss || late.grossLoss <= -0.0016)
  }

  lemma DecayedStep(early: Stats, late: Stats, k: real, p: Packet, l1: nat, l2: nat)
    requires p.entryValid == 1 && l1 <= l2 && k == Kept(l1, l2) && Decayed(early, late, k)
    ensures Decayed(OnPacket(early, p, l1), OnPacket(late, p, l2), k)
  {
    var net1, net2 := NetOf(p, l1), NetOf(p, l2);
    NetShrinks(p, l1, l2);
    assert net2 <= Times(k, net1);
    assert net2 <= net1 || net2 <= -0.0016 by {
      if p.lagResidualBps > 0.0 {
        EstimateDecays(p, l1, l2);
      } else {
        OnlyPositiveResidualsWin(p, l2);
      }
    }
    TimesSigns(k, net1);
    TimesAdds(k, early.grossProfit, net1);
    TimesAdds(k, early.grossLoss, net1);
  }

  lemma TimesSigns(k: real, x: real)
    requires k > 0.0
    ensures Times(k, x) > 0.0 <==> x > 0.0
    ensures Times(k, x) < 0.0 <==> x < 0.0
  {
    SignOfProduct(k, x);
  }

  lemma TimesAdds(k: real, x: real, y: real)
    ensures Times(k, x + y) == Times(k, x) + Times(k, y)
  {
  }

  lemma {:induction false} LatencyDecays(log: seq<Packet>, l1: nat, l2: nat, n: nat)
    requires l1 <= l2 && n <= |log|
    ensures Decayed(Replayed(log, l1, n), Replayed(log, l2, n), Kept(l1, l2))
  {
    if n > 0 {
      LatencyDecays(log, l1, l2, n - 1);
      if log[n - 1].entryValid == 1 {
        DecayedStep(Replayed(log, l1, n - 1), Replayed(log, l2, n - 1), Kept(l1, l2), log[n - 1], l1, l2);
      }
    }
  }

  predicate AtMost(f: Factor, g: Factor) { g.Infinite? || (f.Finite? && f.value <= g.value) }

  lemma RatioDecays(p1: real, q1: real, p2: real, q2: real, k: real)
    requires k > 0.0 && q1 > 0.0 && q2 > 0.0 && 0.0 <= p1
    requires p2 <= Times(k, p1) && Times(k, q1) <= q2
    ensures p2 / q2 <= p1 / q1
  {
    MulMono(p2, k * p1, q1);
    MulMono(k * q1, q2, p1);
    assert p2 * q1 <= p1 * q2;
    CrossDivide(p2, q2, p1, q1);
  }

  lemma FactorDecays(early: Stats, late: Stats, k: real)
    requires 0.0 < k <= 1.0 && Decayed(early, late, k)
    ensures AtMost(ProfitFactor(late), ProfitFactor(early))
  {
    var q1, q2 := Abs(early.grossLoss), Abs(late.grossLoss);
    TimesSigns(k, early.grossProfit);
    TimesSigns(k, early.grossLoss);
    if q1 >= 0.000000000001 && q2 >= 0.000000000001 {
      TimesAdds(k, early.grossLoss, -early.grossLoss);
      RatioDecays(early.grossProfit, q1, late.grossProfit, q2, k);
    }
  }

  /** More injected latency never helps, on any log and whatever the residuals:
      the profit factor (infinite when nothing was lost) and the follow-through
      rate can only fall, so passing the gate at some latency implies passing
      at every smaller one. */
  lemma GateAntitoneInLatency(log: seq<Packet>, l1: nat, l2: nat)
    requires l1 <= l2
    ensures var early, late := Replayed(log, l1), Replayed(log, l2);
            && early.trades == late.trades
            && AtMost(ProfitFactor(late), ProfitFactor(early))
            && FollowThroughRate(late) <= FollowThroughRate(early)
            && (PassesGate(late) ==> PassesGate(early))
  {
    var early, late := Replayed(log, l1), Replayed(log, l2);
    LatencyDecays(log, l1, l2, |log|);
    FactorDecays(early, late, Kept(l1, l2));
    if early.trades > 0 {
      DivMono(late.wins as real, early.wins as real, late.trades as real);
    }
  }

  /** The same for a log file: whatever it holds, a longer latency never turns
      a failing or unusable log into a passing one. */
  lemma FileGateAntitone(codec: PacketLog.Codec, file: seq<PacketLog.Byte>, l1: nat, l2: nat)
    requires l1 <= l2
    ensures VerdictOf(PacketLog.Parse(codec, file), l2) == Gate(true)
            ==> VerdictOf(PacketLog.Parse(codec, file), l1) == Gate(true)
  {
    var read := PacketLog.Parse(codec, file);
    if read.Ok? {
      GateAntitoneInLatency(read.value, l1, l2);
    }
  }

  // ------------------------------------------------------------------
  // What the gate asks of a log
  // ------------------------------------------------------------------

  /** What a counted packet earns at a latency, in the units of the statistics:
      the captured residual less 30 percent of the venue gap (2 bps where a price
      is missing), in percent, less the fee floor. The captured share falls from
      0.55 by a thousandth per millisecond, for 225 milliseconds. */
  function Earned(p: Packet, latencyMs: nat): real
  {
    var share := 0.55 - (if latencyMs < 225 then latencyMs else 225) as real * 0.001;
    var gap := if p.bybitMidRef > 0.0 && p.refPrice > 0.0
               then Abs(p.bybitMidRef - p.refPrice) / p.refPrice * 3_000.0 else 2.0;
    (Times(p.lagResidualBps, share) - gap) * 0.01 - (if p.dMin > 0.0016 then p.dMin else 0.0016)
  }

  lemma CaptureExactly(latencyMs: nat)
    ensures Capture(latencyMs) == 0.55 - (if latencyMs < 225 then latencyMs else 225) as real * 0.001
  {
    QuotientAgainst(latencyMs as real, 150.0, 1.5);
    QuotientAgainst(latencyMs as real, 150.0, 0.0);
    DivMul(latencyMs as real, 150.0);
  }

  lemma AbsOfQuotient(d: real, p: real)
    requires p > 0.0
    ensures Abs(d / p * 10_000.0) * 0.3 == Abs(d) / p * 3_000.0
  {
    DivMul(d, p);
    DivMul(Abs(d), p);
    SignOfProduct(p, d / p);
    DivSub(0.0, d, p);
  }

  lemma NetIsEarned(p: Packet, latencyMs: nat)
    requires p.entryValid == 1
    ensures NetOf(p, latencyMs) == Earned(p, latencyMs)
  {
    CaptureExactly(latencyMs);
    if p.bybitMidRef > 0.0 && p.refPrice > 0.0 {
      AbsOfQuotient(p.bybitMidRef - p.refPrice, p.refPrice);
    }
  }

  /** The counted packets among the first `n` that win. */
  function Winners(log: seq<Packet>, latencyMs: nat, n: nat := |log|): nat
    requires n <= |log|
    decreases n
  {
    if n == 0 then 0
    else
      Winners(log, latencyMs, n - 1) + if log[n - 1].entryValid == 1 && Earned(log[n - 1], latencyMs) > 0.0 then 1 else 0
  }

  /** What the winners among the first `n` earn together. */
  function Won(log: seq<Packet>, latencyMs: nat, n: nat := |log|): real
    requires n <= |log|
    decreases n
  {
    if n == 0 then 0.0
    else
      var e := Earned(log[n - 1], latencyMs);
      Won(log, latencyMs, n - 1) + if log[n - 1].entryValid == 1 && e > 0.0 then e else 0.0
  }

  /** What the other counted packets lose together, as a positive amount. */
  function Lost(log: seq<Packet>, latencyMs: nat, n: nat := |log|): real
    requires n <= |log|
    decreases n
  {
    if n == 0 then 0.0
    else
      var e := Earned(log[n - 1], latencyMs);
      Lost(log, latencyMs, n - 1) + if log[n - 1].entryValid == 1 && e <= 0.0 then -e else 0.0
  }

  /** The fees of the counted packets: each its own minimum, at least 0.16. */
  function Charged(log: seq<Packet>, n: nat := |log|): real
    requires n <= |log|
    decreases n
  {
    if n == 0 then 0.0
    else
      var p := log[n - 1];
      Charged(log, n - 1) + if p.entryValid == 1 then (if p.dMin > 0.0016 then p.dMin else 0.0016) * 100.0 else 0.0
  }

  lemma {:induction false} StatsAreSums(log: seq<Packet>, latencyMs: nat, n: nat)
    requires n <= |log|
    ensures var s := Replayed(log, latencyMs, n);
            && s.trades == Counted(log, n) && s.wins == Winners(log, latencyMs, n) <= s.trades
            && s.grossProfit == Won(log, latencyMs, n) >= 0.0 && -s.grossLoss == Lost(log, latencyMs, n) >= 0.0
            && s.fees == Charged(log, n)
  {
    if n > 0 {
      StatsAreSums(log, latencyMs, n - 1);
      if log[n - 1].entryValid == 1 {
        NetIsEarned(log[n - 1], latencyMs);
      }
    }
  }

  /** The gate, packet by packet. A log passes at a latency exactly when at least
      twenty of its packets are counted, at least two in five of those win, and
      the winners earn at least six fifths of what the others lose; where the
      losses stay under 1e-12 any win at all will do. */
  lemma GateExactly(log: seq<Packet>, latencyMs: nat)
    ensures PassesGate(Replayed(log, latencyMs)) <==>
            && Counted(log, |log|) >= 20
            && 5 * Winners(log, latencyMs) >= 2 * Counted(log, |log|)
            && (if Lost(log, latencyMs) < 0.000000000001 then Won(log, latencyMs) > 0.0
                else 5.0 * Won(log, latencyMs) >= 6.0 * Lost(log, latencyMs))
  {
    var s := Replayed(log, latencyMs);
    StatsAreSums(log, latencyMs, |log|);
    if s.trades >= 20 {
      QuotientAgainst(s.wins as real, s.trades as real, 0.40);
      if Lost(log, latencyMs) >= 0.000000000001 {
        QuotientAgainst(s.grossProfit, Lost(log, latencyMs), 1.2);
      }
    }
  }

  lemma {:induction false} WinsHavePositiveResidual(log: seq<Packet>, latencyMs: nat, n: nat)
    requires n <= |log|
    ensures var s := Replayed(log, latencyMs, n); s.wins <= Positive(log, n) && s.trades == Counted(log, n)
  {
    if n > 0 {
      WinsHavePositiveResidual(log, latencyMs, n - 1);
      if log[n - 1].entryValid == 1 && log[n - 1].lagResidualBps <= 0.0 {
        OnlyPositiveResidualsWin(log[n - 1], latencyMs);
      }
    }
  }

  function Counted(log: seq<Packet>, n: nat): nat
    requires n <= |log|
  {
    if n == 0 then 0 else Counted(log, n - 1) + if log[n - 1].entryValid == 1 then 1 else 0
  }

  function Positive(log: seq<Packet>, n: nat): nat
    requires n <= |log|
  {
    if n == 0 then 0
    else Positive(log, n - 1) + if log[n - 1].entryValid == 1 && log[n - 1].lagResidualBps > 0.0 then 1 else 0
  }

  /** From the bytes of the file: an unreadable log is reported with its error,
      a log without packets is refused, and any other is put to the gate. */
  lemma FileGateExactly(codec: PacketLog.Codec, file: seq<PacketLog.Byte>, latencyMs: nat)
    ensures var read, v := PacketLog.Parse(codec, file), VerdictOf(PacketLog.Parse(codec, file), latencyMs);
            && (read.Err? ==> v == Unreadable(read.error))
            && (read == PacketLog.Ok([]) ==> v == NoPackets)
            && (v == Gate(true) <==>
                  && read.Ok? && Counted(read.value, |read.value|) >= 20
                  && 5 * Winners(read.value, latencyMs) >= 2 * Counted(read.value, |read.value|)
                  && (if Lost(read.value, latencyMs) < 0.000000000001 then Won(read.value, latencyMs) > 0.0
                      else 5.0 * Won(read.value, latencyMs) >= 6.0 * Lost(read.value, latencyMs)))
  {
    var read := PacketLog.Parse(codec, file);
    if read.Ok? {
      GateExactly(read.value, latencyMs);
    }
  }

  /** Shorts cannot carry a log: one in which fewer than 40% of the counted packets carry a
      positive residual cannot pass at any latency. */
  lemma PassingNeedsPositiveResiduals(log: seq<Packet>, latencyMs: nat)
    ensures PassesGate(Replayed(log, latencyMs)) ==>
              Counted(log, |log|) >= 20 && Positive(log, |log|) as real >= 0.40 * Counted(log, |log|) as real
  {
    WinsHavePositiveResidual(log, latencyMs, |log|);
    var s := Replayed(log, latencyMs);
    if s.trades > 0 {
      CrossDivide(0.40, 1.0, s.wins as real, s.trades as real);
    }
  }
}
