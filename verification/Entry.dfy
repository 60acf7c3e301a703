/** Lag state and entry engine of crates/observer-core/src/lag.rs and entry.rs,
    joined as the executor's tick branch joins them. */
module Entry {
  import opened Numerics
  import opened Packets
  import opened Metrics
  import opened Risk

  datatype LagState = LagState(bybitMid: real, bybitTsNs: nat, binanceMid100msAgo: real, maxStalenessMs: nat)
  {
    predicate IsStale(now: nat)
    {
      bybitTsNs == 0 || SatSub(now, bybitTsNs) / 1_000_000 > maxStalenessMs
    }

    function LagBps(binanceMid: real): real
    {
      if bybitMid <= 0.0 then 0.0 else (binanceMid - bybitMid) / bybitMid * 10_000.0
    }

    function ImpulseBps(binanceMid: real): real
    {
      if binanceMid100msAgo <= 0.0 then 0.0
      else (binanceMid - binanceMid100msAgo) / binanceMid100msAgo * 10_000.0
    }

    function LagResidualBps(binanceMid: real): real
    {
      if bybitMid <= 0.0 || binanceMid100msAgo <= 0.0 then 0.0
      else ImpulseBps(binanceMid) - (bybitMid - binanceMid100msAgo) / binanceMid100msAgo * 10_000.0
    }
  }

  const DEFAULT_LAG := LagState(0.0, 0, 0.0, 200)

  const ALPHA: real := 0.4
  const BETA: real := 0.6
  const DELTA_T: real := 0.3

  datatype EntryEngine = EntryEngine(zThreshold: real, velocityMin: real, dMinNet: real, lagMinBps: real,
                                     impulseMinBps: real, captureEst: real, atrMinFrac: real)
  {
    /** `welford.sigma()`, with the square root supplied by the caller. */
    function Sigma(m: Snapshot, root: real): real
    {
      if m.moments.n < 2 then 0.0 else root
    }

    function ZScore(m: Snapshot, root: real, mid: real): real
    {
      var s := Sigma(m, root);
      if s <= 0.000000000001 then 0.0 else (mid - m.moments.mean) / s
    }

    function ExpectedMove(z: real, sigma: real, vel: real, mid: real): real
    {
      var sigmaFrac := if mid > 0.0 then sigma / mid else 0.0;
      var d := ALPHA * Abs(z) * sigmaFrac + BETA * Abs(vel) * DELTA_T;
      if vel < 0.0 && d > 0.0 then d * 0.7 else d
    }

    /** The gates that do not depend on direction. */
    predicate Gates(m: Snapshot, mid: real, residual: real, impulse: real, stale: bool, hourOk: bool, dExp: real)
    {
      var expectedCapture := Abs(residual) / 10_000.0 * captureEst;
      var lagOpen := Abs(residual) >= lagMinBps;
      var impulseOk := Abs(impulse) >= impulseMinBps;
      var edgeOk := dExp >= dMinNet && expectedCapture >= dMinNet;
      var atrFrac := if mid > 0.0 then m.atr / mid else 0.0;
      var atrOk := atrMinFrac <= 0.0 || atrFrac >= atrMinFrac;
      !stale && hourOk && lagOpen && impulseOk && edgeOk && atrOk
    }

    predicate RegimeAllows(regime: nat) { regime == 0 || regime == 1 || regime == 2 }

    /** +1 long, -1 short, 0 no entry. */
    function Bias(m: Snapshot, residual: real, impulse: real, vel: real): int
    {
      if residual > 0.0 && impulse > 0.0 && vel > velocityMin && m.ema50 > m.ema200 && RegimeAllows(Regime(m)) then 1
      else if residual < 0.0 && impulse < 0.0 && vel < -velocityMin && m.ema50 < m.ema200 && RegimeAllows(Regime(m)) then -1
      else 0
    }

    function Evaluate(m: Snapshot, root: real, mid: real, residual: real, impulse: real, stale: bool, hourOk: bool): Packet
    {
      var z := ZScore(m, root, mid);
      var vel := Velocity(mid, Lookup(m.samples, 100));
      var sigma := Sigma(m, root);
      var dExp := ExpectedMove(z, sigma, vel, mid);
      var bias := if Gates(m, mid, residual, impulse, stale, hourOk, dExp) && Abs(z) >= zThreshold
                  then Bias(m, residual, impulse, vel) else 0;
      Packet(0, 0, 0, if bias == 0 then 0 else 1, bias, Regime(m), z, vel, sigma, dExp, dMinNet,
             m.ema50, m.ema200, m.atr, mid, 0.0, 0.0, residual, impulse)
    }
  }

  datatype Tick = Tick(symbolId: SymbolId, mid: real, tsNs: nat, seqNum: nat)

  /** The packet the tick branch hands to exits and to the risk engine. */
  function TickPacket(engine: EntryEngine, m: Snapshot, root: real, lag: LagState, t: Tick, now: nat, gate: bool): Packet
  {
    var residual, impulse := lag.LagResidualBps(t.mid), lag.ImpulseBps(t.mid);
    engine.Evaluate(m, root, t.mid, residual, impulse, lag.IsStale(now), gate)
      .(symbolId := t.symbolId, seqNum := t.seqNum, tsNs := t.tsNs, bybitMidRef := lag.bybitMid,
        lagBps := lag.LagBps(t.mid))
  }

  // ------------------------------------------------------------------
  // What an entry-valid packet promises
  // ------------------------------------------------------------------

  lemma ResidualSign(lag: LagState, mid: real)
    requires lag.bybitMid > 0.0 && lag.binanceMid100msAgo > 0.0
    ensures lag.LagResidualBps(mid) > 0.0 <==> lag.bybitMid < mid
    ensures lag.LagResidualBps(mid) < 0.0 <==> lag.bybitMid > mid
  {
    var p := lag.binanceMid100msAgo;
    var r := (mid - lag.bybitMid) / p;
    assert lag.LagResidualBps(mid) == r * 10_000.0 by {
      DivSub(mid - p, lag.bybitMid - p, p);
    }
    DivMul(mid - lag.bybitMid, p);
    SignOfProduct(p, r);
  }

  /** An entry-valid packet points one way, agrees in sign with residual and
      impulse, and finds Bybit strictly on the lagging side of the signal. */
  lemma ValidPacketLags(engine: EntryEngine, m: Snapshot, root: real, lag: LagState, t: Tick, now: nat, gate: bool)
    requires TickPacket(engine, m, root, lag, t, now, gate).entryValid != 0
    ensures var p := TickPacket(engine, m, root, lag, t, now, gate);
            && (p.directionBias == 1 || p.directionBias == -1)
            && lag.bybitMid > 0.0 && !lag.IsStale(now) && gate
            && (p.directionBias == 1 ==> p.impulseBps > 0.0 && p.bybitMidRef < p.refPrice)
            && (p.directionBias == -1 ==> p.impulseBps < 0.0 && p.bybitMidRef > p.refPrice)
            && p.dExp >= p.dMin
  {
    ResidualSign(lag, t.mid);
  }

  /** Bybit on the lagging side means no adverse move at all. */
  lemma NoAdverseMove(refPrice: real, bybit: real, bias: int)
    requires refPrice > 0.0 && bybit > 0.0
    requires (bias > 0 && bybit < refPrice) || (bias < 0 && bybit > refPrice)
    ensures AdverseMoveBps(refPrice, bybit, bias) == 0.0
  {
    var r := (bybit - refPrice) / refPrice;
    DivMul(bybit - refPrice, refPrice);
    SignOfProduct(refPrice, r);
  }

  /** The adverse-move kill never fires on the executor's own packets under a
      non-negative limit, and always fires under a negative one: once a valid
      packet is fresh, known, new and the flags admit it, it opens exactly when
      the limit is at least zero. */
  lemma PipelineDecision(engine: EntryEngine, m: Snapshot, root: real, lag: LagState, t: Tick, staleNow: nat, gate: bool,
                         lastSeq: Slots, maxLatencyNs: nat, maxAdverse: real, flags: Flags, now: nat)
    requires t.mid > 0.0
    ensures var p := TickPacket(engine, m, root, lag, t, staleNow, gate);
            var d := Check(lastSeq, maxLatencyNs, maxAdverse, flags, now, p).0;
            var admitted := && p.entryValid != 0 && SatSub(now, t.tsNs) <= maxLatencyNs && 1 <= t.symbolId <= MAX_SYMBOLS
                            && lastSeq[t.symbolId - 1] < t.seqNum && AllRequired(flags);
            && (d == Open <==> admitted && maxAdverse >= 0.0)
            && (d == AdverseMoveExceeded <==> admitted && maxAdverse < 0.0)
  {
    var p := TickPacket(engine, m, root, lag, t, staleNow, gate);
    if p.entryValid != 0 {
      ValidPacketLags(engine, m, root, lag, t, staleNow, gate);
      NoAdverseMove(p.refPrice, p.bybitMidRef, p.directionBias);
    }
  }

  // ------------------------------------------------------------------
  // When a packet is valid
  // ------------------------------------------------------------------

  /** How far the price is from its mean, as the score sees it: a spread that is
      next to nothing counts as no distance. */
  function Deviation(m: Snapshot, root: real, mid: real): real
  {
    if m.moments.n >= 2 && root > 0.000000000001 then Abs(mid - m.moments.mean) else 0.0
  }

  /** The score clears its threshold. */
  predicate FarOut(m: Snapshot, root: real, mid: real, threshold: real)
  {
    if m.moments.n >= 2 && root > 0.000000000001 then Abs(mid - m.moments.mean) >= Times(threshold, root)
    else threshold <= 0.0
  }

  /** A price difference, counted in the direction of a side. */
  function Along(side: Side, x: real): real { match side case Long => x case Short => -x }

  function Sign(side: Side): int { match side case Long => 1 case Short => -1 }

  /** The move a signal expects, as a fraction of the price: a score and a speed
      part, discounted by 30 percent on the way down. */
  function Expected(side: Side, dev: real, mid: real, move: real, ago: real): real
    requires mid != 0.0 && ago != 0.0
  {
    (match side case Long => 1.0 case Short => 0.7) * (0.4 * (dev / mid) + 1.8 * (move / ago))
  }

  /** All a signal for a side takes, in prices and without scores, basis points
      or velocities: the gate is open and Bybit's price is fresh; the signal price
      has left both its own price of 100 ms ago and Bybit's in that direction, by
      the impulse and lag minima, fast enough and with the captured lag worth the
      minimum; the fast average is on that side of the slow one; volatility and
      score are large enough; and the expected move is worth it. */
  ghost predicate Signals(e: EntryEngine, m: Snapshot, root: real, lag: LagState, mid: real, now: nat, gate: bool, side: Side)
    requires mid > 0.0
  {
    var ago := lag.binanceMid100msAgo;
    var lead, move := Along(side, mid - lag.bybitMid), Along(side, mid - ago);
    && gate && lag.bybitTsNs > 0 && now < lag.bybitTsNs + (lag.maxStalenessMs + 1) * 1_000_000
    && ago > 0.0 && lag.bybitMid > 0.0 && lead > 0.0 && move > 0.0
    && lead * 10_000.0 >= Times(e.lagMinBps, ago)
    && move * 10_000.0 >= Times(e.impulseMinBps, ago)
    && Times(lead, e.captureEst) >= Times(e.dMinNet, ago)
    && move * 10.0 > Times(e.velocityMin, ago)
    && Along(side, m.ema50 - m.ema200) > 0.0
    && (e.atrMinFrac <= 0.0 || m.atr >= Times(e.atrMinFrac, mid))
    && FarOut(m, root, mid, e.zThreshold)
    && Expected(side, Deviation(m, root, mid), mid, move, ago) >= e.dMinNet
  }

  /** The numbers of a tick packet, cleared of their denominators. */
  lemma TickNumbers(engine: EntryEngine, m: Snapshot, root: real, lag: LagState, t: Tick, now: nat, gate: bool)
    ensures var p, ago := TickPacket(engine, m, root, lag, t, now, gate), lag.binanceMid100msAgo;
            && p.symbolId == t.symbolId && p.seqNum == t.seqNum && p.tsNs == t.tsNs
            && p.refPrice == t.mid && p.bybitMidRef == lag.bybitMid && p.atr == m.atr && p.dMin == engine.dMinNet
            && (if ago > 0.0 then Times(p.impulseBps, ago) == (t.mid - ago) * 10_000.0 else p.impulseBps == 0.0)
            && (if ago > 0.0 && lag.bybitMid > 0.0 then Times(p.lagResidualBps, ago) == (t.mid - lag.bybitMid) * 10_000.0
                else p.lagResidualBps == 0.0)
            && (lag.bybitMid > 0.0 ==> Times(p.lagBps, lag.bybitMid) == (t.mid - lag.bybitMid) * 10_000.0)
            && (if Lookup(m.samples, 100) > 0.0
                then Times(p.velocity, Lookup(m.samples, 100)) == (t.mid - Lookup(m.samples, 100)) * 10.0
                else p.velocity == 0.0)
  {
    var ago, past := lag.binanceMid100msAgo, Lookup(m.samples, 100);
    if ago > 0.0 {
      Scaled(t.mid - ago, ago);
      if lag.bybitMid > 0.0 {
        LagInBps(lag, t.mid);
        Scaled(t.mid - lag.bybitMid, ago);
      }
    }
    if lag.bybitMid > 0.0 {
      Scaled(t.mid - lag.bybitMid, lag.bybitMid);
    }
    if past > 0.0 {
      Tenfold(t.mid - past, past);
    }
  }

  /** The statistics a tick packet carries. */
  lemma TickStatistics(engine: EntryEngine, m: Snapshot, root: real, lag: LagState, t: Tick, now: nat, gate: bool)
    ensures var p := TickPacket(engine, m, root, lag, t, now, gate);
            && p.ema50 == m.ema50 && p.ema200 == m.ema200 && p.regime == Regime(m)
            && (p.sigma == if m.moments.n >= 2 then root else 0.0)
            && (if p.sigma > 0.000000000001 then Times(p.zScore, p.sigma) == t.mid - m.moments.mean else p.zScore == 0.0)
  {
    if engine.Sigma(m, root) > 0.000000000001 {
      DivMul(t.mid - m.moments.mean, engine.Sigma(m, root));
    }
  }

  lemma Scaled(x: real, p: real)
    requires p > 0.0
    ensures Times(x / p * 10_000.0, p) == x * 10_000.0
  {
    DivMul(x, p);
  }

  lemma Tenfold(x: real, p: real)
    requires p > 0.0
    ensures Times(x / p / 0.1, p) == x * 10.0
    ensures x / p / 0.1 == 10.0 * (x / p)
  {
    DivMul(x, p);
  }

  lemma FreshExactly(lag: LagState, now: nat)
    ensures !lag.IsStale(now) <==> lag.bybitTsNs > 0 && now < lag.bybitTsNs + (lag.maxStalenessMs + 1) * 1_000_000
  {
  }

  lemma ScoreExactly(e: EntryEngine, m: Snapshot, root: real, mid: real)
    ensures Abs(e.ZScore(m, root, mid)) >= e.zThreshold <==> FarOut(m, root, mid, e.zThreshold)
    ensures Times(Abs(e.ZScore(m, root, mid)), e.Sigma(m, root)) == Deviation(m, root, mid)
  {
    var s := e.Sigma(m, root);
    if s > 0.000000000001 {
      var far := mid - m.moments.mean;
      AbsQuotient(far, s);
      QuotientAgainst(Abs(far), s, e.zThreshold);
      DivMul(Abs(far), s);
    }
  }

  lemma AbsQuotient(x: real, p: real)
    requires p > 0.0
    ensures Abs(x / p) == Abs(x) / p
  {
    DivMul(x, p);
    SignOfProduct(p, x / p);
    DivSub(0.0, x, p);
  }

  /** The score times the spread is the deviation, so the spread drops out of
      the expected move. */
  lemma MoveExactly(e: EntryEngine, m: Snapshot, root: real, mid: real, ago: real, vel: real, speed: real, side: Side)
    requires mid > 0.0 && ago > 0.0 && speed > 0.0 && vel == Along(side, 10.0 * speed)
    ensures e.ExpectedMove(e.ZScore(m, root, mid), e.Sigma(m, root), vel, mid)
            == (match side case Long => 1.0 case Short => 0.7) * (0.4 * (Deviation(m, root, mid) / mid) + 1.8 * speed)
  {
    var z, s, dev := Abs(e.ZScore(m, root, mid)), e.Sigma(m, root), Deviation(m, root, mid);
    ScoreExactly(e, m, root, mid);
    assert Abs(vel) == 10.0 * speed;
    SpreadCancels(z, s, dev, mid);
    QuotientAgainst(dev, mid, 0.0);
  }

  lemma SpreadCancels(z: real, s: real, dev: real, mid: real)
    requires mid > 0.0 && Times(z, s) == dev
    ensures ALPHA * z * (s / mid) == 0.4 * (dev / mid)
  {
    DivMul(s, mid);
    DivMul(dev, mid);
    assert (z * (s / mid) - dev / mid) * mid == 0.0;
  }

  function Bps(x: real, p: real): real
    requires p > 0.0
  {
    x / p * 10_000.0
  }

  /** A signed quotient looked at in the direction of a side. */
  lemma BpsDirected(x: real, p: real, side: Side)
    requires p > 0.0
    ensures Along(side, Bps(x, p)) == Bps(Along(side, x), p)
    ensures Bps(x, p) > 0.0 <==> x > 0.0
    ensures Bps(x, p) < 0.0 <==> x < 0.0
    ensures Along(side, x) > 0.0 ==> Abs(Bps(x, p)) == Bps(Along(side, x), p)
  {
    DivMul(x, p);
    SignOfProduct(p, x / p);
    DivSub(0.0, x, p);
  }

  lemma BpsAgainst(x: real, p: real, least: real)
    requires p > 0.0
    ensures Bps(x, p) >= least <==> x * 10_000.0 >= Times(least, p)
  {
    QuotientAgainst(x, p, least / 10_000.0);
  }

  lemma CaptureAgainstMinimum(x: real, p: real, share: real, least: real)
    requires p > 0.0
    ensures Bps(x, p) / 10_000.0 * share >= least <==> Times(x, share) >= Times(least, p)
  {
    var q := x / p;
    DivMul(x, p);
    SignOfProduct(p, q * share - least);
    assert p * (q * share - least) == (q * p) * share - least * p;
  }

  lemma SpeedAgainst(x: real, p: real, least: real)
    requires p > 0.0
    ensures Velocity(p + x, p) == 10.0 * (x / p)
    ensures Velocity(p + x, p) > least <==> x * 10.0 > Times(least, p)
    ensures -Velocity(p + x, p) > least <==> -x * 10.0 > Times(least, p)
  {
    var q := x / p;
    Tenfold(x, p);
    DivMul(x, p);
    SignOfProduct(p, 10.0 * q - least);
    SignOfProduct(p, -10.0 * q - least);
    assert p * (10.0 * q - least) == 10.0 * (q * p) - least * p;
    assert p * (-10.0 * q - least) == -10.0 * (q * p) - least * p;
  }

  lemma LagInBps(lag: LagState, mid: real)
    requires lag.bybitMid > 0.0 && lag.binanceMid100msAgo > 0.0
    ensures lag.LagResidualBps(mid) == Bps(mid - lag.bybitMid, lag.binanceMid100msAgo)
    ensures lag.ImpulseBps(mid) == Bps(mid - lag.binanceMid100msAgo, lag.binanceMid100msAgo)
  {
    DivSub(mid - lag.binanceMid100msAgo, lag.bybitMid - lag.binanceMid100msAgo, lag.binanceMid100msAgo);
  }

  /** The gates that do not name a direction, for a market that has moved by `x`
      and `y` in the direction of a side. */
  lemma GatesExactly(e: EntryEngine, m: Snapshot, mid: real, x: real, y: real, ago: real, stale: bool,
                     gate: bool, dExp: real, side: Side)
    requires mid > 0.0 && ago > 0.0 && Along(side, x) > 0.0 && Along(side, y) > 0.0
    ensures e.Gates(m, mid, Bps(x, ago), Bps(y, ago), stale, gate, dExp) <==>
            && !stale && gate
            && Along(side, x) * 10_000.0 >= Times(e.lagMinBps, ago)
            && Along(side, y) * 10_000.0 >= Times(e.impulseMinBps, ago)
            && Times(Along(side, x), e.captureEst) >= Times(e.dMinNet, ago) && dExp >= e.dMinNet
            && (e.atrMinFrac <= 0.0 || m.atr >= Times(e.atrMinFrac, mid))
  {
    BpsDirected(x, ago, side);
    BpsDirected(y, ago, side);
    BpsAgainst(Along(side, x), ago, e.lagMinBps);
    BpsAgainst(Along(side, y), ago, e.impulseMinBps);
    CaptureAgainstMinimum(Along(side, x), ago, e.captureEst, e.dMinNet);
    QuotientAgainst(m.atr, mid, e.atrMinFrac);
  }

  /** The direction, once the gates are open. */
  lemma DirectionExactly(e: EntryEngine, m: Snapshot, x: real, y: real, ago: real, side: Side)
    requires ago > 0.0
    ensures e.Bias(m, Bps(x, ago), Bps(y, ago), Velocity(ago + y, ago)) == Sign(side) <==>
            Along(side, x) > 0.0 && Along(side, y) > 0.0 && Along(side, y) * 10.0 > Times(e.velocityMin, ago)
            && Along(side, m.ema50 - m.ema200) > 0.0
  {
    BpsDirected(x, ago, side);
    BpsDirected(y, ago, side);
    SpeedAgainst(y, ago, e.velocityMin);
  }

  /** One direction: the bias of the packet is that of a side exactly when the
      market signals it. The reference of 100 ms ago is the one the tick branch
      has just stored from the symbol's own samples. */
  lemma BiasExactly(e: EntryEngine, m: Snapshot, root: real, lag: LagState, t: Tick, now: nat, gate: bool, side: Side)
    requires t.mid > 0.0 && lag.binanceMid100msAgo == Lookup(m.samples, 100)
    ensures TickPacket(e, m, root, lag, t, now, gate).directionBias == Sign(side) <==>
            Signals(e, m, root, lag, t.mid, now, gate, side)
  {
    var ago, mid := lag.binanceMid100msAgo, t.mid;
    if ago > 0.0 && lag.bybitMid > 0.0 {
      var x, y := mid - lag.bybitMid, mid - ago;
      LagInBps(lag, mid);
      FreshExactly(lag, now);
      ScoreExactly(e, m, root, mid);
      DirectionExactly(e, m, x, y, ago, side);
      if Along(side, x) > 0.0 && Along(side, y) > 0.0 {
        var dExp := e.ExpectedMove(e.ZScore(m, root, mid), e.Sigma(m, root), Velocity(mid, ago), mid);
        GatesExactly(e, m, mid, x, y, ago, lag.IsStale(now), gate, dExp, side);
        ExpectedExactly(e, m, root, mid, y, ago, side);
        assert ago + y == mid;
      }
    }
  }

  lemma ExpectedExactly(e: EntryEngine, m: Snapshot, root: real, mid: real, y: real, ago: real, side: Side)
    requires mid > 0.0 && ago > 0.0 && mid == ago + y && Along(side, y) > 0.0
    ensures e.ExpectedMove(e.ZScore(m, root, mid), e.Sigma(m, root), Velocity(mid, ago), mid)
            == Expected(side, Deviation(m, root, mid), mid, Along(side, y), ago)
  {
    SpeedAgainst(y, ago, 0.0);
    DivSub(0.0, y, ago);
    QuotientAgainst(Along(side, y), ago, 0.0);
    MoveExactly(e, m, root, mid, ago, Velocity(mid, ago), Along(side, y) / ago, side);
  }

  /** When the tick branch produces an entry packet, and in which direction:
      exactly when the market signals up, or signals down, and never both. */
  lemma ValidExactly(engine: EntryEngine, m: Snapshot, root: real, lag: LagState, t: Tick, now: nat, gate: bool)
    requires t.mid > 0.0 && lag.binanceMid100msAgo == Lookup(m.samples, 100)
    ensures var p := TickPacket(engine, m, root, lag, t, now, gate);
            var up, down := Signals(engine, m, root, lag, t.mid, now, gate, Long),
                            Signals(engine, m, root, lag, t.mid, now, gate, Short);
            && !(up && down)
            && p.directionBias == (if up then 1 else if down then -1 else 0)
            && p.entryValid == (if up || down then 1 else 0)
            && (up || down ==> p.dExp >= p.dMin)
  {
    BiasExactly(engine, m, root, lag, t, now, gate, Long);
    BiasExactly(engine, m, root, lag, t, now, gate, Short);
  }

  // ------------------------------------------------------------------
  // The trend gate follows the price path
  // ------------------------------------------------------------------

  /** No short after prices that never fell, no long after prices that never
      rose, whatever the lag, the clock and the thresholds. */
  lemma TrendGateFollowsPrices(engine: EntryEngine, hs: seq<Sample>, root: real, lag: LagState, t: Tick, now: nat, gate: bool)
    requires hs != [] && PositivePrices(hs)
    ensures NonDecreasing(hs) ==> TickPacket(engine, Replay(hs), root, lag, t, now, gate).directionBias >= 0
    ensures NonIncreasing(hs) ==> TickPacket(engine, Replay(hs), root, lag, t, now, gate).directionBias <= 0
  {
    if NonDecreasing(hs) { RisingTrend(hs); }
    if NonIncreasing(hs) { FallingTrend(hs); }
  }
}
