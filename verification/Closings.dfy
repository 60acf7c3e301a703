/** When positions are closed, at what price and with what record: by ticks,
    and by timers that drain. */
module Closings {
  import opened Numerics
  import opened Packets
  import opened Positions
  import opened Executor
  import Entry
  import Feeds
  import Halts
  import Ledger
  import TakeProfits

  /** The last Bybit mid of the position's symbol, or its entry price if there is none. */
  function LastSeen(s: State, pos: Position): real
  {
    if pos.symbolId in s.lags && s.lags[pos.symbolId].bybitMid > 0.0 then s.lags[pos.symbolId].bybitMid
    else pos.entryPrice
  }

  /** The packet a tick shows to the open positions. */
  function Shown(cfg: Config, s: State, t: Entry.Tick, root: real, c: Clocks): Packet
  {
    PacketOf(cfg, Prepared(s, t, c), t, root, c)
  }

  /** Packet and lags agree on the price: whichever the exit loop asks, it gets
      the symbol's last Bybit mid, or failing that the entry price. */
  lemma ExitPriceIsLastSeen(cfg: Config, s: State, t: Entry.Tick, root: real, c: Clocks, pos: Position)
    ensures var s1 := Prepared(s, t, c);
            ExitMid(s1.lags, Shown(cfg, s, t, root, c), pos) == LastSeen(s, pos)
            && MidForSymbol(s1.lags, pos.symbolId, pos.entryPrice) == LastSeen(s, pos)
  {
    var s1 := Prepared(s, t, c);
    assert s1.lags == Observed(s, t, c.push).lags;
    Entry.TickNumbers(cfg.engine, MetricsOf(s1, t.symbolId), root, LagOf(s1, t.symbolId), t, c.stale,
                      TradeHourOk(cfg, t.symbolId, c.now) && FollowThroughOk(s1, t.symbolId));
  }

  // ------------------------------------------------------------------
  // Ticks
  // ------------------------------------------------------------------

  /** Why the tick closes the position, if it does, from the position, the packet
      and the price alone: the first of the five conditions that holds. */
  ghost function Reason(pm: PositionManager, pos: Position, p: Packet, price: real, now: nat): Option<string>
  {
    if Converged(pos, p.lagResidualBps, pm.convergenceRatio) then Some("LagConvergence")
    else if TimedOut(pos, p.lagResidualBps, pm.timeStopMs, now) then Some("TimeStop")
    else if ThesisFlipped(pos.side, p) then Some("Invalidation")
    else if HitsStop(pos.side, pos.stop, price) then Some("StopLoss")
    else if HitsTp(pos.side, pos.tp, price) then Some("TakeProfit")
    else None
  }

  /** The record of a close: opposite side, whole remaining size, at the price. */
  ghost predicate IsCloseOf(cfg: Config, f: Ledger.Fill, pos: Position, price: real, note: string)
    requires pos.symbolId in cfg.idToBybit
  {
    && f.symbol == cfg.idToBybit[pos.symbolId] && !f.isEntry && f.dryRun && f.note == note
    && (f.side == match pos.side case Long => Ledger.Sell case Short => Ledger.Buy)
    && f.qty == pos.qtyRemaining && f.price == price && f.notional == Times(pos.qtyRemaining, price)
    && f.fee == Times(f.notional, cfg.feeRate)
  }

  /** The ledger with exactly this close booked: its fill appended, its fee added,
      and the gain on the remaining size, less that fee, realized. */
  ghost predicate BooksClose(cfg: Config, before: Ledger.Account, after: Ledger.Account, pos: Position, price: real, note: string)
    requires pos.symbolId in cfg.idToBybit
  {
    var gain := match pos.side case Long => price - pos.entryPrice case Short => pos.entryPrice - price;
    && |after.fills| == |before.fills| + 1 && before.fills == after.fills[..|before.fills|]
    && IsCloseOf(cfg, after.fills[|before.fills|], pos, price, note)
    && after.fees == before.fees + Times(Times(pos.qtyRemaining, price), cfg.feeRate)
    && after.realized == before.realized + Times(gain, pos.qtyRemaining) - Times(Times(pos.qtyRemaining, price), cfg.feeRate)
    && after.openEntries == before.openEntries && after.closedTrades == before.closedTrades + 1
  }

  lemma ClosedBooks(cfg: Config, ledger: Ledger.Account, pos: Position, px: real, note: string)
    requires pos.symbolId in cfg.idToBybit
    ensures BooksClose(cfg, ledger, Closed(cfg, ledger, pos, px, note), pos, px, note)
  {
    var after := Closed(cfg, ledger, pos, px, note);
    assert after.fills[..|ledger.fills|] == ledger.fills;
    GainIsClosePnl(pos.side, pos.entryPrice, px, pos.qtyRemaining);
    FeeIsProduct(pos.qtyRemaining, px, cfg.feeRate);
  }

  lemma GainIsClosePnl(side: Side, entry: real, px: real, qty: real)
    ensures Ledger.ClosePnl(CloseSide(side), entry, px, qty)
            == Times(match side case Long => px - entry case Short => entry - px, qty)
  {
  }

  lemma FeeIsProduct(qty: real, px: real, rate: real)
    ensures Ledger.Notional(qty, px) == Times(qty, px)
    ensures Ledger.FeeOf(Ledger.Notional(qty, px), rate) == Times(Times(qty, px), rate)
  {
  }

  lemma ReasonExactly(cfg: Config, s: State, t: Entry.Tick, root: real, c: Clocks, pos: Position)
    ensures var p, price := Shown(cfg, s, t, root, c), LastSeen(s, pos);
            var exit := ExitOf(cfg, Prepared(s, t, c).lags, p, c.exit, pos);
            var reason := Reason(cfg.pm, pos, p, price, c.exit);
            (exit.Some? <==> reason.Some?) && (exit.Some? ==> ReasonName(exit.value) == reason.value)
  {
    ExitPriceIsLastSeen(cfg, s, t, root, c, pos);
    ExitExactly(cfg.pm, pos, LastSeen(s, pos), Shown(cfg, s, t, root, c), c.exit);
  }

  /** The state between the exit loop and the entry path of a tick. */
  function AfterExits(cfg: Config, s: State, t: Entry.Tick, root: real, c: Clocks): State
  {
    Exited(cfg, Prepared(s, t, c), Shown(cfg, s, t, root, c), c.exit)
  }

  /** The one open position under the exit loop: it is closed, and the close
      booked at the last price seen, exactly when one of the five reasons stands;
      otherwise it stays, with only its capture ratio refreshed. */
  lemma TickClosesExactly(cfg: Config, s: State, t: Entry.Tick, root: real, c: Clocks)
    requires |s.positions| == 1 && s.positions[0].symbolId in cfg.idToBybit
    ensures var pos, s' := s.positions[0], AfterExits(cfg, s, t, root, c);
            var price := LastSeen(s, pos);
            var reason := Reason(cfg.pm, pos, Shown(cfg, s, t, root, c), price, c.exit);
            if reason.Some? then
              s'.positions == [] && BooksClose(cfg, s.ledger, s'.ledger, pos, price, reason.value)
            else
              s'.ledger == s.ledger && |s'.positions| == 1
              && s'.positions[0] == pos.(lagCapture := s'.positions[0].lagCapture)
              && forall least :: s'.positions[0].lagCapture >= least <==>
                                 Converged(pos, Shown(cfg, s, t, root, c).lagResidualBps, least)
  {
    var pos, s1, pkt := s.positions[0], Prepared(s, t, c), Shown(cfg, s, t, root, c);
    ReasonExactly(cfg, s, t, root, c, pos);
    ExitPriceIsLastSeen(cfg, s, t, root, c, pos);
    OnePosition(cfg, s1.lags, pkt, c.exit, s.positions, s.ledger);
    forall least
      ensures cfg.pm.UpdateLagCapture(pos, pkt).lagCapture >= least <==> Converged(pos, pkt.lagResidualBps, least)
    {
      CaptureAgainst(cfg.pm, pos, pkt, least);
    }
    ClosedBooks(cfg, s.ledger, pos, LastSeen(s, pos), match Reason(cfg.pm, pos, pkt, LastSeen(s, pos), c.exit)
                                                      case Some(r) => r case None => "");
  }

  lemma OnePosition(cfg: Config, lags: map<SymbolId, Entry.LagState>, pkt: Packet, now: nat, positions: seq<Position>,
                    ledger: Ledger.Account)
    requires |positions| == 1
    ensures var pos := positions[0];
            var exit := ExitOf(cfg, lags, pkt, now, pos);
            Exits(cfg, lags, pkt, now, positions, ledger)
            == if exit.Some? then ([], Closed(cfg, ledger, pos, ExitMid(lags, pkt, pos), ReasonName(exit.value)))
               else ([cfg.pm.UpdateLagCapture(pos, pkt)], ledger)
  {
    if ExitOf(cfg, lags, pkt, now, positions[0]).Some? {
      TakeProfits.LoneExit(cfg, lags, pkt, now, positions, ledger);
    } else {
      var (kept, book) := Exits(cfg, lags, pkt, now, positions, ledger, 0);
      assert |kept| == 0 && kept + [cfg.pm.UpdateLagCapture(positions[0], pkt)] == [cfg.pm.UpdateLagCapture(positions[0], pkt)];
    }
  }

  /** Neither stop nor target is hit at the price the position was shown. */
  ghost predicate InsideBracket(s: State, pos: Position)
  {
    !HitsStop(pos.side, pos.stop, LastSeen(s, pos)) && !HitsTp(pos.side, pos.tp, LastSeen(s, pos))
  }

  ghost predicate AllInside(s: State, positions: seq<Position>)
  {
    forall i | 0 <= i < |positions| :: InsideBracket(s, positions[i])
  }

  lemma {:induction false} KeptAreInside(cfg: Config, s: State, t: Entry.Tick, root: real, c: Clocks, n: nat)
    requires n <= |s.positions|
    ensures AllInside(s, Exits(cfg, Prepared(s, t, c).lags, Shown(cfg, s, t, root, c), c.exit, s.positions, s.ledger, n).0)
  {
    if n > 0 {
      var pos, lags, pkt := s.positions[n - 1], Prepared(s, t, c).lags, Shown(cfg, s, t, root, c);
      KeptAreInside(cfg, s, t, root, c, n - 1);
      var (kept, book) := Exits(cfg, lags, pkt, c.exit, s.positions, s.ledger, n - 1);
      if ExitOf(cfg, lags, pkt, c.exit, pos) == None {
        KeptIsInside(cfg, s, t, root, c, pos);
        OneMoreInside(s, kept, cfg.pm.UpdateLagCapture(pos, pkt));
      }
    }
  }

  lemma OneMoreInside(s: State, kept: seq<Position>, pos: Position)
    requires AllInside(s, kept) && InsideBracket(s, pos)
    ensures AllInside(s, kept + [pos])
  {
  }

  lemma KeptIsInside(cfg: Config, s: State, t: Entry.Tick, root: real, c: Clocks, pos: Position)
    requires ExitOf(cfg, Prepared(s, t, c).lags, Shown(cfg, s, t, root, c), c.exit, pos) == None
    ensures InsideBracket(s, cfg.pm.UpdateLagCapture(pos, Shown(cfg, s, t, root, c)))
  {
    ReasonExactly(cfg, s, t, root, c, pos);
  }

  /** However many positions are open: one that survives a tick (and was not just
      opened by it) is inside its bracket at the last price seen of its symbol. */
  lemma SurvivorsAreInside(cfg: Config, s: State, t: Entry.Tick, root: real, c: Clocks)
    requires OnTick(cfg, s, t, root, c).ledger.openEntries == s.ledger.openEntries
    ensures AllInside(s, OnTick(cfg, s, t, root, c).positions)
  {
    var s2, pkt := AfterExits(cfg, s, t, root, c), Shown(cfg, s, t, root, c);
    KeptAreInside(cfg, s, t, root, c, |s.positions|);
    Halts.ExitsOnlyClose(cfg, Prepared(s, t, c).lags, pkt, c.exit, s.positions, s.ledger, |s.positions|);
    UncountedEntryIsNone(cfg, s2, pkt, c);
  }

  lemma UncountedEntryIsNone(cfg: Config, s: State, pkt: Packet, c: Clocks)
    requires Entered(cfg, s, pkt, c).ledger.openEntries == s.ledger.openEntries
    ensures Entered(cfg, s, pkt, c).positions == s.positions
  {
  }

  // ------------------------------------------------------------------
  // Timers
  // ------------------------------------------------------------------

  /** The misses once this timer has been counted. */
  function MissesAt(cfg: Config, s: State, at: nat): nat
  {
    s.safe.consecutiveMisses + if at > s.lastHb + cfg.heartbeatTimeoutNs then 1 else 0
  }

  /** The timer drains: a flatten was asked for, or the misses have reached the
      emergency threshold. */
  predicate Drains(cfg: Config, s: State, at: nat)
  {
    s.flattenRequest || (MissesAt(cfg, s, at) > 0 && MissesAt(cfg, s, at) >= cfg.missEmergency)
  }

  lemma EmergencyExactly(cfg: Config, s: State, at: nat)
    requires Feeds.Phased(cfg, s.safe)
    ensures var s1 := MissCounted(cfg, s, at);
            && (s1.safe.CloseAll() <==> MissesAt(cfg, s, at) > 0 && MissesAt(cfg, s, at) >= cfg.missEmergency)
            && s1.flattenRequest == s.flattenRequest && s1.positions == s.positions && s1.ledger == s.ledger
            && s1.lags == s.lags
  {
    MissFrame(cfg, s, at);
    assert HeartbeatLate(cfg, s, at) <==> at > s.lastHb + cfg.heartbeatTimeoutNs;
  }

  /** A timer leaves everything open and booked as it was, or leaves nothing open
      and the request served; the latter exactly when it drains. */
  lemma TimerDrainsExactly(cfg: Config, s: State, at: nat)
    requires Feeds.Phased(cfg, s.safe)
    ensures var s' := OnTimer(cfg, s, at);
            if Drains(cfg, s, at) && s.positions != [] then s'.positions == [] && !s'.flattenRequest
            else s'.positions == s.positions && s'.ledger == s.ledger && s'.flattenRequest == s.flattenRequest
  {
    EmergencyExactly(cfg, s, at);
  }

  /** A drained position is booked at the last price seen of its symbol. */
  lemma DrainBooksAtLastSeen(cfg: Config, s: State, at: nat)
    requires Feeds.Phased(cfg, s.safe) && Drains(cfg, s, at)
    requires |s.positions| == 1 && s.positions[0].symbolId in cfg.idToBybit
    ensures BooksClose(cfg, s.ledger, OnTimer(cfg, s, at).ledger, s.positions[0], LastSeen(s, s.positions[0]), "flatten")
  {
    var pos := s.positions[0];
    EmergencyExactly(cfg, s, at);
    ClosedBooks(cfg, s.ledger, pos, LastSeen(s, pos), "flatten");
    assert Flattened(cfg, s.lags, s.positions, s.ledger, 0) == s.ledger;
  }

  // ------------------------------------------------------------------
  // Flatten, from the command
  // ------------------------------------------------------------------

  predicate IsFlatten(e: Event) { e.Command? && e.trusted && e.action.FlattenAll? }

  /** A trusted flatten is served: whatever comes before the next timer, that
      timer leaves nothing open. */
  lemma FlattenCommandCloses(cfg: Config, s: State, es: seq<Event>, at: nat)
    requires forall i | 0 <= i < |es| :: !es[i].Timer?
    ensures OnTimer(cfg, Run(cfg, s, [Command(true, FlattenAll)] + es), at).positions == []
  {
    var all := [Command(true, FlattenAll)] + es;
    assert all[1..] == es;
    Halts.FlattenClosesLaterEntries(cfg, OnCommand(s, true, FlattenAll), es, at);
  }

  lemma StepRequests(cfg: Config, s: State, e: Event)
    requires !e.Timer?
    ensures Step(cfg, s, e).flattenRequest <==> s.flattenRequest || IsFlatten(e)
  {
    match e
    case BinanceTick(t, root, c) => Halts.TickLeavesHaltsAlone(cfg, s, t, root, c);
    case BybitMid(id, mid, usd, at) => BybitRequestsNothing(s, id, id in cfg.idToBybit, mid, usd, at);
    case Command(trusted, action) => CommandRequests(s, trusted, action);
    case Heartbeat(at) => assert OnHeartbeat(cfg, s, at).flattenRequest == s.flattenRequest;
    case Funding(rate) => assert OnFunding(s, rate).flattenRequest == s.flattenRequest;
  }

  lemma CommandRequests(s: State, trusted: bool, action: Action)
    ensures OnCommand(s, trusted, action).flattenRequest <==> s.flattenRequest || (trusted && action.FlattenAll?)
  {
  }

  lemma BybitRequestsNothing(s: State, id: SymbolId, known: bool, mid: real, usd: real, at: nat)
    ensures OnBybitMid(s, id, known, mid, usd, at).flattenRequest == s.flattenRequest
  {
  }

  lemma TimerRequestsNothing(cfg: Config, s: State, at: nat)
    requires !s.flattenRequest
    ensures !OnTimer(cfg, s, at).flattenRequest
  {
  }

  lemma {:induction false} NoRequestAppears(cfg: Config, s: State, es: seq<Event>)
    requires !s.flattenRequest && forall i | 0 <= i < |es| :: !IsFlatten(es[i])
    ensures !Run(cfg, s, es).flattenRequest
    decreases |es|
  {
    if es != [] {
      if es[0].Timer? {
        TimerRequestsNothing(cfg, s, es[0].at);
      } else {
        StepRequests(cfg, s, es[0]);
      }
      NoRequestAppears(cfg, Step(cfg, s, es[0]), es[1..]);
    }
  }

  /** Nothing else drains: in a run from startup without a trusted flatten,
      whatever halts, resumes and untrusted commands it holds, a timer closes the
      open position exactly when the misses have reached the emergency
      threshold, and otherwise touches neither it nor the ledger. */
  lemma OnlyFlattenOrEmergencyDrains(cfg: Config, at0: nat, es: seq<Event>, s: State, at: nat)
    requires s == Run(cfg, Init(cfg, at0), es) && forall i | 0 <= i < |es| :: !IsFlatten(es[i])
    ensures var s', k := OnTimer(cfg, s, at), MissesAt(cfg, s, at);
            if k > 0 && k >= cfg.missEmergency then s'.positions == []
            else s'.positions == s.positions && s'.ledger == s.ledger
  {
    NoRequestAppears(cfg, Init(cfg, at0), es);
    Feeds.InitIsInformed(cfg, at0);
    Feeds.RunKeepsInformed(cfg, Init(cfg, at0), es);
    TimerDrainsExactly(cfg, s, at);
  }
}
