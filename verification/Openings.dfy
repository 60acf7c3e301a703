/** When a tick opens a position, and which one. */
module Openings {
  import opened Numerics
  import opened Packets
  import opened Metrics
  import opened Risk
  import opened Entry
  import opened FollowThrough
  import opened Positions
  import opened Executor
  import Closings
  import Halts
  import Ledger
  import SafeModes

  /** The Binance name of a symbol, empty where it has none. */
  function BinanceName(cfg: Config, id: SymbolId): string
  {
    if id in cfg.idToBinance then cfg.idToBinance[id] else ""
  }

  /** The hours configured for the name admit this moment; a name without an edge
      or without hours trades always. */
  predicate HoursOpen(cfg: Config, name: string, now: nat)
  {
    name in cfg.edgeHours && |cfg.edgeHours[name]| > 0 ==> (now / 3_600_000_000_000) % 24 in cfg.edgeHours[name]
  }

  /** Enough of the symbol's judged entries won, or there are under twenty. */
  predicate RecordGood(trackers: map<SymbolId, Tracker>, id: SymbolId)
  {
    id in trackers && |trackers[id].window| >= 20 ==>
      Wins(trackers[id].window) as real >= Times(trackers[id].minRate, |trackers[id].window| as real)
  }

  /** The symbol's lag state with the tick's own reference price in it. */
  function Refreshed(s: State, t: Tick, push: nat): LagState
    requires t.symbolId in s.lags
  {
    s.lags[t.symbolId].(binanceMid100msAgo := Lookup(Seen(s, t, push).samples, 100))
  }

  /** The symbol's metrics with the tick's price in them. */
  function Seen(s: State, t: Tick, push: nat): Snapshot
  {
    Push(if t.symbolId in s.metrics then s.metrics[t.symbolId] else Metrics.DEFAULT, t.mid, push)
  }

  /** The market signals this side to the executor: the symbol is followed on
      Bybit, its hours are open, its record is good, and the prices say so. */
  ghost predicate Signalled(cfg: Config, s: State, t: Tick, root: real, c: Clocks, side: Side)
    requires t.mid > 0.0
  {
    t.symbolId in s.lags
    && Signals(cfg.engine, Seen(s, t, c.push), root, Refreshed(s, t, c.push), t.mid, c.stale,
               HoursOpen(cfg, BinanceName(cfg, t.symbolId), c.now) && RecordGood(Settled(Observed(s, t, c.push), c.now).trackers, t.symbolId),
               side)
  }

  /** Nothing halts entries: not the operator, not missed heartbeats, and none of
      the drawdown, funding and depth guards. */
  predicate Unguarded(s: State)
  {
    && !s.operatorHalt && s.safe.phase == SafeModes.Normal && !s.warm.entriesHalted
    && s.warm.dayPnlPct > -s.warm.maxDailyDd
    && -s.warm.maxFundingRate <= s.warm.fundingRate <= s.warm.maxFundingRate
    && !(0.0 < s.warm.bookDepthUsd < s.warm.minBookDepthUsd)
  }

  lemma HoursExactly(cfg: Config, id: SymbolId, now: nat)
    ensures TradeHourOk(cfg, id, now) <==> HoursOpen(cfg, BinanceName(cfg, id), now)
  {
  }

  lemma RecordExactly(s: State, id: SymbolId)
    ensures FollowThroughOk(s, id) <==> RecordGood(s.trackers, id)
  {
    if id in s.trackers {
      RateIsFraction(s.trackers[id]);
    }
  }

  /** The packet of a tick, as the market signals it. */
  lemma PacketExactly(cfg: Config, s: State, t: Tick, root: real, c: Clocks)
    requires t.mid > 0.0
    ensures var p := PacketOf(cfg, Prepared(s, t, c), t, root, c);
            && p.directionBias == (if Signalled(cfg, s, t, root, c, Long) then 1
                                   else if Signalled(cfg, s, t, root, c, Short) then -1 else 0)
            && (p.entryValid != 0 <==> Signalled(cfg, s, t, root, c, Long) || Signalled(cfg, s, t, root, c, Short))
            && (p.entryValid != 0 ==> p.dExp >= p.dMin)
            && p.refPrice == t.mid && p.symbolId == t.symbolId && p.seqNum == t.seqNum && p.tsNs == t.tsNs
  {
    var s1 := Prepared(s, t, c);
    HoursExactly(cfg, t.symbolId, c.now);
    RecordExactly(s1, t.symbolId);
    PreparedState(s, t, c);
    var gate := TradeHourOk(cfg, t.symbolId, c.now) && FollowThroughOk(s1, t.symbolId);
    var m, lag := MetricsOf(s1, t.symbolId), LagOf(s1, t.symbolId);
    TickNumbers(cfg.engine, m, root, lag, t, c.stale, gate);
    if t.symbolId in s.lags {
      ValidExactly(cfg.engine, m, root, lag, t, c.stale, gate);
    } else {
      UntrackedIsStale(cfg.engine, m, root, t, c.stale, gate);
    }
  }

  lemma UntrackedIsStale(engine: EntryEngine, m: Snapshot, root: real, t: Tick, now: nat, gate: bool)
    ensures var p := TickPacket(engine, m, root, DEFAULT_LAG, t, now, gate); p.directionBias == 0 && p.entryValid == 0
  {
  }

  lemma PreparedState(s: State, t: Tick, c: Clocks)
    ensures var s1 := Prepared(s, t, c);
            && MetricsOf(s1, t.symbolId) == Seen(s, t, c.push)
            && LagOf(s1, t.symbolId) == (if t.symbolId in s.lags then Refreshed(s, t, c.push) else DEFAULT_LAG)
            && s1.positions == s.positions && s1.ledger == s.ledger && s1.lastSeq == s.lastSeq
            && Halts.HaltsUnchanged(s, s1)
  {
  }

  /** The limit on adverse moves that holds for the symbol. */
  function LimitFor(cfg: Config, id: SymbolId): real
  {
    if id in cfg.adverseById then cfg.adverseById[id] else cfg.defaultAdverse
  }

  /** A tick opens a position exactly when nothing guards against entries, the
      exit loop leaves nothing open, the tick is in time, its symbol is one of the
      35 and known on Bybit, its sequence number is new, the symbol's adverse-move
      limit is not negative, and the market signals one of the sides. */
  lemma OpensExactly(cfg: Config, s: State, t: Tick, root: real, c: Clocks)
    requires t.mid > 0.0 && s.flags == ComputeFlags(s.warm)
    ensures OnTick(cfg, s, t, root, c).ledger.openEntries > s.ledger.openEntries <==>
            && Unguarded(s) && |Closings.AfterExits(cfg, s, t, root, c).positions| == 0
            && c.entry <= t.tsNs + cfg.maxLatencyNs && 1 <= t.symbolId <= 35 && s.lastSeq[t.symbolId - 1] < t.seqNum
            && t.symbolId in cfg.idToBybit && LimitFor(cfg, t.symbolId) >= 0.0
            && (Signalled(cfg, s, t, root, c, Long) || Signalled(cfg, s, t, root, c, Short))
  {
    var s1 := Prepared(s, t, c);
    var pkt := PacketOf(cfg, s1, t, root, c);
    PreparedState(s, t, c);
    PacketExactly(cfg, s, t, root, c);
    ExitsKeep(cfg, s1, pkt, c.exit);
    EntryExactly(cfg, Exited(cfg, s1, pkt, c.exit), pkt, c);
    FlagsMeanGuards(s.warm);
    var gate := TradeHourOk(cfg, t.symbolId, c.now) && FollowThroughOk(s1, t.symbolId);
    if 1 <= t.symbolId <= 35 {
      PipelineDecision(cfg.engine, MetricsOf(s1, t.symbolId), root, LagOf(s1, t.symbolId), t, c.stale, gate,
                       s.lastSeq, cfg.maxLatencyNs, LimitFor(cfg, t.symbolId), s.flags, c.entry);
    }
  }

  lemma ExitsKeep(cfg: Config, s: State, pkt: Packet, now: nat)
    ensures var s' := Exited(cfg, s, pkt, now);
            && s'.ledger.openEntries == s.ledger.openEntries && s'.lastSeq == s.lastSeq && Halts.HaltsUnchanged(s, s')
            && s'.lags == s.lags && s'.pending == s.pending
  {
    Halts.ExitsOnlyClose(cfg, s.lags, pkt, now, s.positions, s.ledger, |s.positions|);
  }

  lemma EntryExactly(cfg: Config, s: State, pkt: Packet, c: Clocks)
    ensures Entered(cfg, s, pkt, c).ledger.openEntries > s.ledger.openEntries <==>
            && |s.positions| == 0
            && !s.operatorHalt && !s.safe.HaltEntries() && !s.warm.entriesHalted && pkt.symbolId in cfg.idToBybit
            && Check(s.lastSeq, cfg.maxLatencyNs, LimitFor(cfg, pkt.symbolId), s.flags, c.entry, pkt).0 == Risk.Open
  {
    EntryCounts(cfg, s, pkt, c);
    assert LimitFor(cfg, pkt.symbolId) == AdverseLimit(cfg, pkt.symbolId);
  }

  lemma EntryCounts(cfg: Config, s: State, pkt: Packet, c: Clocks)
    ensures Entered(cfg, s, pkt, c).ledger.openEntries
            == s.ledger.openEntries + if Opens(cfg, s, pkt, c.entry) then 1 else 0
  {
    if Opens(cfg, s, pkt, c.entry) {
      var s1 := Admitted(cfg, s, pkt, c.entry);
      assert Entered(cfg, s, pkt, c) == Opened(cfg, s1, pkt, c) && s1.ledger == s.ledger;
      OpenCounts(cfg, s1, pkt, c);
    }
  }

  lemma OpenCounts(cfg: Config, s: State, pkt: Packet, c: Clocks)
    requires pkt.symbolId in cfg.idToBybit
    ensures Opened(cfg, s, pkt, c).ledger.openEntries == s.ledger.openEntries + 1
  {
  }

  // ------------------------------------------------------------------
  // Which position
  // ------------------------------------------------------------------

  /** Deposit times the symbol's fraction (5 percent where none is set) times its leverage. */
  function Stake(cfg: Config, id: SymbolId): real
  {
    Times(Times(cfg.deposit, if id in cfg.alloc then cfg.alloc[id] else 0.05),
          if id in cfg.leverage then cfg.leverage[id] else cfg.defaultLeverage)
  }

  /** A position fresh from a tick: its size spends the stake at the tick's price
      (at no price under a dollar), stop and target stand around that price, and
      it remembers the impulse that made it. */
  ghost predicate IsFresh(cfg: Config, s: State, t: Tick, c: Clocks, side: Side, pos: Position)
    requires t.symbolId in cfg.idToBybit && t.symbolId in s.lags
  {
    var ago, gap := Refreshed(s, t, c.push).binanceMid100msAgo, Times(Max(Seen(s, t, c.push).atr, t.mid * 0.001), cfg.atrMult);
    && pos.symbolName == cfg.idToBybit[t.symbolId] && pos.symbolId == t.symbolId && pos.seqNum == t.seqNum
    && pos.side == side && pos.entryPrice == t.mid && pos.openTimeNs == c.open && pos.lagCapture == 0.0
    && Times(pos.qty, if t.mid > 1.0 then t.mid else 1.0) == Stake(cfg, t.symbolId) && pos.qtyRemaining == pos.qty
    && pos.stop == t.mid - Along(side, gap)
    && pos.tp == t.mid + Along(side, Times(t.mid, cfg.tpPct))
    && Times(pos.entryImpulseBps, ago) == (t.mid - ago) * 10_000.0
  }

  /** The ledger with the entry of a position recorded. */
  ghost predicate BooksEntry(cfg: Config, before: Ledger.Account, after: Ledger.Account, pos: Position)
  {
    var notional := Times(pos.qty, pos.entryPrice);
    && after.fills == before.fills + [Ledger.Fill(pos.symbolName, match pos.side case Long => Ledger.Buy case Short => Ledger.Sell,
                                                  pos.qty, pos.entryPrice, notional, Times(notional, cfg.feeRate), true, true, "entry")]
    && after.fees == before.fees + Times(notional, cfg.feeRate) && after.realized == before.realized
    && after.openEntries == before.openEntries + 1 && after.closedTrades == before.closedTrades
  }

  lemma NewExactly(cfg: Config, s: State, t: Tick, root: real, c: Clocks, side: Side, pkt: Packet)
    requires t.mid > 0.0 && t.symbolId in cfg.idToBybit && Signalled(cfg, s, t, root, c, side)
    requires pkt == PacketOf(cfg, Prepared(s, t, c), t, root, c)
    ensures IsFresh(cfg, s, t, c, side, NewPosition(cfg, pkt, c.open))
  {
    var s1 := Prepared(s, t, c);
    PreparedState(s, t, c);
    PacketExactly(cfg, s, t, root, c);
    TickNumbers(cfg.engine, MetricsOf(s1, t.symbolId), root, LagOf(s1, t.symbolId), t, c.stale,
                TradeHourOk(cfg, t.symbolId, c.now) && FollowThroughOk(s1, t.symbolId));
    OneSide(cfg, s, t, root, c);
    assert EntrySide(pkt) == side && pkt.atr == Seen(s, t, c.push).atr;
    SizeSpends(cfg, t.symbolId, t.mid);
    StopsAreAlong(side, t.mid, pkt.atr, cfg.atrMult, cfg.tpPct);
  }

  lemma StopsAreAlong(side: Side, entry: real, atr: real, atrMult: real, pct: real)
    ensures InitialStops(side, entry, atr, atrMult, pct)
            == (entry - Along(side, Times(Max(atr, entry * 0.001), atrMult)), entry + Along(side, Times(entry, pct)))
  {
    TargetIsAlong(side, entry, pct);
  }

  lemma StakeIsBudget(cfg: Config, id: SymbolId)
    ensures Stake(cfg, id) == Budget(cfg, id)
  {
  }

  lemma SizeSpends(cfg: Config, id: SymbolId, px: real)
    requires px > 0.0
    ensures Times(EntryQty(cfg, id, px), if px > 1.0 then px else 1.0) == Stake(cfg, id)
  {
    StakeIsBudget(cfg, id);
    DivMul(Budget(cfg, id), Max(px, 1.0));
  }

  lemma TargetIsAlong(side: Side, entry: real, pct: real)
    ensures TargetPrice(side, entry, pct) == entry + Along(side, Times(entry, pct))
  {
    assert entry * (1.0 + pct) == entry + entry * pct;
    assert entry * (1.0 - pct) == entry - entry * pct;
  }

  /** What a tick opens, when it does: exactly one position, fresh from the tick
      and on the side signalled, with its entry booked after any close and its
      follow-through item, priced at the Bybit mid of that moment, queued last. */
  lemma OpenedExactly(cfg: Config, s: State, t: Tick, root: real, c: Clocks, side: Side)
    requires t.mid > 0.0 && s.flags == ComputeFlags(s.warm)
    requires OnTick(cfg, s, t, root, c).ledger.openEntries > s.ledger.openEntries && Signalled(cfg, s, t, root, c, side)
    ensures var s' := OnTick(cfg, s, t, root, c);
            && t.symbolId in cfg.idToBybit && t.symbolId in s.lags && 1 <= t.symbolId <= 35
            && |s'.positions| == 1 && IsFresh(cfg, s, t, c, side, s'.positions[0])
            && BooksEntry(cfg, Closings.AfterExits(cfg, s, t, root, c).ledger, s'.ledger, s'.positions[0])
            && s'.pending == Waiting(s.pending, c.now)
                             + [Pending(t.symbolId, c.now, Sign(side), s.lags[t.symbolId].bybitMid)]
            && s'.lastSeq == s.lastSeq[t.symbolId - 1 := t.seqNum]
  {
    var s1 := Prepared(s, t, c);
    var pkt := PacketOf(cfg, s1, t, root, c);
    OpensExactly(cfg, s, t, root, c);
    PreparedState(s, t, c);
    PacketExactly(cfg, s, t, root, c);
    OneSide(cfg, s, t, root, c);
    ExitsKeep(cfg, s1, pkt, c.exit);
    NewExactly(cfg, s, t, root, c, side, pkt);
    EntryIs(cfg, Exited(cfg, s1, pkt, c.exit), pkt, c);
    assert s1.pending == Waiting(s.pending, c.now);
  }

  lemma OneSide(cfg: Config, s: State, t: Tick, root: real, c: Clocks)
    requires t.mid > 0.0
    ensures !(Signalled(cfg, s, t, root, c, Long) && Signalled(cfg, s, t, root, c, Short))
  {
    if Signalled(cfg, s, t, root, c, Long) {
      assert Refreshed(s, t, c.push).bybitMid < t.mid;
    }
  }

  lemma EntryIs(cfg: Config, s: State, pkt: Packet, c: Clocks)
    requires Entered(cfg, s, pkt, c).ledger.openEntries > s.ledger.openEntries
    ensures var s' := Entered(cfg, s, pkt, c);
            && pkt.symbolId in cfg.idToBybit && 1 <= pkt.symbolId <= MAX_SYMBOLS
            && s'.positions == [NewPosition(cfg, pkt, c.open)]
            && BooksEntry(cfg, s.ledger, s'.ledger, s'.positions[0])
            && s'.pending == s.pending + [Pending(pkt.symbolId, c.now, pkt.directionBias, LagOf(s, pkt.symbolId).bybitMid)]
            && s'.lastSeq == s.lastSeq[pkt.symbolId - 1 := pkt.seqNum]
  {
    EntryExactly(cfg, s, pkt, c);
    CheckExactly(s.lastSeq, cfg.maxLatencyNs, AdverseLimit(cfg, pkt.symbolId), s.flags, c.entry, pkt);
    assert s.positions == [];
    EntryBooks(cfg, s.ledger, NewPosition(cfg, pkt, c.open));
  }

  lemma EntryBooks(cfg: Config, ledger: Ledger.Account, pos: Position)
    ensures BooksEntry(cfg, ledger, ledger.Entered(pos.symbolName, EntryOrder(pos.side), pos.qty, pos.entryPrice,
                                                   cfg.feeRate, true), pos)
  {
    Closings.FeeIsProduct(pos.qty, pos.entryPrice, cfg.feeRate);
  }
}
