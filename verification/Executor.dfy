/** The executor's event loop (crates/executor-bin/src/main.rs) on the simulated
    path, as one step function per event. Clock readings, the square root
    behind `sigma` and every message are parts of the events. */
module Executor {
  import opened Numerics
  import opened Packets
  import opened Metrics
  import opened Risk
  import opened Entry
  import opened FollowThrough
  import opened Positions
  import opened SafeModes
  import Ledger

  // ------------------------------------------------------------------
  // Configuration, state, events
  // ------------------------------------------------------------------

  datatype Config = Config(
    idToBybit: map<SymbolId, string>,
    idToBinance: map<SymbolId, string>,
    edgeHours: map<string, seq<nat>>,
    adverseById: map<SymbolId, real>,
    defaultAdverse: real,
    alloc: map<SymbolId, real>,
    leverage: map<SymbolId, real>,
    defaultLeverage: real,
    followThroughMin: map<SymbolId, real>,
    defaultFollowThroughMin: real,
    deposit: real,
    feeRate: real,
    atrMult: real,
    tpPct: real,
    engine: EntryEngine,
    pm: PositionManager,
    maxLatencyNs: nat,
    maxStalenessMs: nat,
    heartbeatTimeoutNs: nat,
    missCaution: nat,
    missDefensive: nat,
    missEmergency: nat,
    maxDailyDd: real,
    maxFundingRate: real)

  datatype Pending = Pending(symbolId: SymbolId, tsNs: nat, direction: int, bybitMid: real)

  datatype State = State(
    operatorHalt: bool,
    flattenRequest: bool,
    safe: SafeState,
    warm: Warm,
    flags: Flags,
    lastSeq: Slots,
    maxAdverse: real,
    positions: seq<Position>,
    ledger: Ledger.Account,
    pending: seq<Pending>,
    metrics: map<SymbolId, Snapshot>,
    lags: map<SymbolId, LagState>,
    trackers: map<SymbolId, Tracker>,
    depths: map<SymbolId, real>,
    lastHb: nat)

  datatype Action = HaltEntries | ResumeEntries | FlattenAll | StatusPing

  /** The separate readings of the wall clock inside one tick. */
  datatype Clocks = Clocks(push: nat, now: nat, stale: nat, exit: nat, entry: nat, open: nat)

  datatype Event =
    | Command(trusted: bool, action: Action)
    | Heartbeat(at: nat)
    | BinanceTick(tick: Tick, root: real, clocks: Clocks)
    | Timer(at: nat)
    | BybitMid(symbolId: SymbolId, mid: real, topDepthUsd: real, at: nat)
    | Funding(rate: real)

  const INITIAL_BOOK_DEPTH_USD: real := 50_000.0
  const MIN_BOOK_DEPTH_USD: real := 5_000.0
  const FOLLOW_THROUGH_CAPACITY: nat := 200
  const FOLLOW_THROUGH_DELAY_NS: nat := 300_000_000
  const HOUR_NS: nat := 3_600_000_000_000

  function InitialWarm(cfg: Config): Warm
  {
    Warm(0.0, cfg.maxDailyDd, 0.0, cfg.maxFundingRate, INITIAL_BOOK_DEPTH_USD, MIN_BOOK_DEPTH_USD, false)
  }

  function FollowThroughMinOf(cfg: Config, id: SymbolId): real
  {
    if id in cfg.followThroughMin then cfg.followThroughMin[id] else cfg.defaultFollowThroughMin
  }

  function Init(cfg: Config, at: nat): State
  {
    State(false, false, Fresh(cfg.missCaution, cfg.missDefensive, cfg.missEmergency),
          InitialWarm(cfg), ComputeFlags(InitialWarm(cfg)), seq(MAX_SYMBOLS, _ => 0), cfg.defaultAdverse,
          [], Ledger.EMPTY, [],
          map id | id in cfg.idToBybit :: Metrics.DEFAULT,
          map id | id in cfg.idToBybit :: DEFAULT_LAG.(maxStalenessMs := cfg.maxStalenessMs),
          map id | id in cfg.idToBybit :: NewTracker(FollowThroughMinOf(cfg, id), FOLLOW_THROUGH_CAPACITY),
          map[], at)
  }

  // ------------------------------------------------------------------
  // Operator commands, heartbeats, background tasks
  // ------------------------------------------------------------------

  /** Sources whose commands are obeyed, in any letter case. */
  predicate Trusted(source: string)
  {
    var src := ToLower(source);
    src == "panel" || src == "telegram" || src == "cli"
  }

  function Published(s: State, warm: Warm): State { s.(warm := warm, flags := ComputeFlags(warm)) }

  function OnCommand(s: State, trusted: bool, action: Action): State
  {
    if !trusted then s
    else match action
      case HaltEntries => Published(s.(operatorHalt := true), s.warm.(entriesHalted := true))
      case ResumeEntries => Published(s.(operatorHalt := false), s.warm.(entriesHalted := s.safe.HaltEntries()))
      case FlattenAll => Published(s.(flattenRequest := true, operatorHalt := true), s.warm.(entriesHalted := true))
      case StatusPing => s
  }

  function DayPnl(cfg: Config, ledger: Ledger.Account): real
  {
    if cfg.deposit > 0.0 then ledger.NetPnl() / cfg.deposit else 0.0
  }

  /** The warm refresh shared by heartbeats and missed heartbeats. */
  function Refreshed(cfg: Config, s: State): State
  {
    Published(s, s.warm.(entriesHalted := s.operatorHalt || s.safe.HaltEntries(), dayPnlPct := DayPnl(cfg, s.ledger)))
  }

  function OnHeartbeat(cfg: Config, s: State, at: nat): State
  {
    Refreshed(cfg, s.(lastHb := at, safe := s.safe.Heartbeat()))
  }

  /** `m` is the smallest value of the map. */
  ghost predicate IsLeast(values: map<SymbolId, real>, m: real)
  {
    (exists k :: k in values && values[k] == m) && forall k | k in values :: m <= values[k]
  }

  ghost function Least(values: map<SymbolId, real>): (m: real)
    requires values != map[]
    ensures IsLeast(values, m)
  {
    LeastExists(values);
    var m :| IsLeast(values, m);
    m
  }

  lemma {:induction false} LeastExists(values: map<SymbolId, real>)
    requires values != map[]
    ensures exists m :: IsLeast(values, m)
    decreases |values|
  {
    var k :| k in values;
    var rest := values - {k};
    assert forall j | j in values :: j == k || (j in rest && rest[j] == values[j]);
    if rest == map[] {
      assert IsLeast(values, values[k]);
    } else {
      LeastExists(rest);
      var m :| IsLeast(rest, m);
      assert IsLeast(values, if m <= values[k] then m else values[k]);
    }
  }

  function MidSeen(s: State, id: SymbolId, mid: real, at: nat): State
  {
    if id in s.lags then s.(lags := s.lags[id := s.lags[id].(bybitMid := mid, bybitTsNs := at)]) else s
  }

  /** The thinnest known book becomes the warm depth. */
  ghost function DepthSeen(s: State, id: SymbolId, depth: real): State
  {
    var depths := s.depths[id := depth];
    assert id in depths;
    Published(s.(depths := depths), s.warm.(bookDepthUsd := Least(depths)))
  }

  ghost function OnBybitMid(s: State, id: SymbolId, known: bool, mid: real, depth: real, at: nat): State
  {
    if !known then s
    else if depth > 0.0 then DepthSeen(MidSeen(s, id, mid, at), id, depth)
    else MidSeen(s, id, mid, at)
  }

  function OnFunding(s: State, rate: real): State
  {
    Published(s, s.warm.(fundingRate := rate))
  }

  // ------------------------------------------------------------------
  // Closing positions
  // ------------------------------------------------------------------

  function CloseSide(side: Side): Ledger.OrderSide
  {
    if side == Long then Ledger.Sell else Ledger.Buy
  }

  function MidForSymbol(lags: map<SymbolId, LagState>, id: SymbolId, fallback: real): real
  {
    if id in lags && lags[id].bybitMid > 0.0 then lags[id].bybitMid else fallback
  }

  /** A close recorded in the ledger, if the symbol is known. */
  function Closed(cfg: Config, ledger: Ledger.Account, pos: Position, px: real, note: string): Ledger.Account
  {
    if pos.symbolId in cfg.idToBybit then
      ledger.Exited(cfg.idToBybit[pos.symbolId], CloseSide(pos.side), pos.qtyRemaining, pos.entryPrice, px,
                    cfg.feeRate, true, note)
    else ledger
  }

  function ReasonName(r: ExitReason): string
  {
    match r
    case LagConvergence => "LagConvergence"
    case TimeStop => "TimeStop"
    case Invalidation => "Invalidation"
    case StopLoss => "StopLoss"
    case TakeProfit => "TakeProfit"
  }

  function ExitMid(lags: map<SymbolId, LagState>, pkt: Packet, pos: Position): real
  {
    if pkt.symbolId == pos.symbolId && pkt.bybitMidRef > 0.0 then pkt.bybitMidRef
    else MidForSymbol(lags, pos.symbolId, pos.entryPrice)
  }

  /** Why this packet closes the position, if it does. */
  function ExitOf(cfg: Config, lags: map<SymbolId, LagState>, pkt: Packet, now: nat, pos: Position): Option<ExitReason>
  {
    cfg.pm.CheckExit(cfg.pm.UpdateLagCapture(pos, pkt), ExitMid(lags, pkt, pos), pkt, now)
  }

  /** The exit loop over the first `n` positions: every position sees the
      packet, whatever its symbol. */
  function Exits(cfg: Config, lags: map<SymbolId, LagState>, pkt: Packet, now: nat,
                 positions: seq<Position>, ledger: Ledger.Account, n: nat := |positions|): (seq<Position>, Ledger.Account)
    requires n <= |positions|
    decreases n
  {
    if n == 0 then ([], ledger)
    else
      var (kept, book) := Exits(cfg, lags, pkt, now, positions, ledger, n - 1);
      var pos := positions[n - 1];
      match ExitOf(cfg, lags, pkt, now, pos)
      case None => (kept + [cfg.pm.UpdateLagCapture(pos, pkt)], book)
      case Some(reason) => (kept, Closed(cfg, book, pos, ExitMid(lags, pkt, pos), ReasonName(reason)))
  }

  function Flattened(cfg: Config, lags: map<SymbolId, LagState>, positions: seq<Position>, ledger: Ledger.Account,
                     n: nat := |positions|): Ledger.Account
    requires n <= |positions|
    decreases n
  {
    if n == 0 then ledger
    else
      var pos := positions[n - 1];
      Closed(cfg, Flattened(cfg, lags, positions, ledger, n - 1), pos,
             MidForSymbol(lags, pos.symbolId, pos.entryPrice), "flatten")
  }

  predicate HeartbeatLate(cfg: Config, s: State, at: nat) { SatSub(at, s.lastHb) > cfg.heartbeatTimeoutNs }

  function Flatten(cfg: Config, s: State): State
  {
    if (s.safe.CloseAll() || s.flattenRequest) && s.positions != [] then
      s.(flattenRequest := false, positions := [], ledger := Flattened(cfg, s.lags, s.positions, s.ledger))
    else s
  }

  function MissCounted(cfg: Config, s: State, at: nat): State
  {
    if HeartbeatLate(cfg, s, at) then Refreshed(cfg, s.(safe := s.safe.Miss())) else s
  }

  function OnTimer(cfg: Config, s: State, at: nat): State
  {
    Flatten(cfg, MissCounted(cfg, s, at))
  }

  // ------------------------------------------------------------------
  // The tick: observe, settle follow-through, build the packet
  // ------------------------------------------------------------------

  function MetricsOf(s: State, id: SymbolId): Snapshot
  {
    if id in s.metrics then s.metrics[id] else Metrics.DEFAULT
  }

  function LagOf(s: State, id: SymbolId): LagState
  {
    if id in s.lags then s.lags[id] else DEFAULT_LAG
  }

  function Observed(s: State, t: Tick, pushNs: nat): State
  {
    var m := Push(MetricsOf(s, t.symbolId), t.mid, pushNs);
    s.(metrics := s.metrics[t.symbolId := m],
       lags := if t.symbolId in s.lags
               then s.lags[t.symbolId := s.lags[t.symbolId].(binanceMid100msAgo := Lookup(m.samples, 100))]
               else s.lags)
  }

  datatype Outcome = Judged(item: Pending, at: nat, aligned: bool) | Discarded(item: Pending, at: nat)

  predicate Due(p: Pending, now: nat) { SatSub(now, p.tsNs) >= FOLLOW_THROUGH_DELAY_NS }

  /** What becomes of a due entry: judged against the current Bybit mid, or dropped. */
  function Judge(tracked: set<SymbolId>, lags: map<SymbolId, LagState>, p: Pending, now: nat): Outcome
  {
    if p.symbolId !in tracked then Discarded(p, now)
    else
      var byNow := if p.symbolId in lags then lags[p.symbolId].bybitMid else p.bybitMid;
      if p.bybitMid > 0.0 && byNow > 0.0
      then Judged(p, now, (byNow - p.bybitMid) / p.bybitMid * (p.direction as real) > 0.0)
      else Discarded(p, now)
  }

  /** The first `n` pending entries that are not due yet. */
  function Waiting(pending: seq<Pending>, now: nat, n: nat := |pending|): seq<Pending>
    requires n <= |pending|
    decreases n
  {
    if n == 0 then []
    else Waiting(pending, now, n - 1) + if Due(pending[n - 1], now) then [] else [pending[n - 1]]
  }

  function Outcomes(tracked: set<SymbolId>, lags: map<SymbolId, LagState>, pending: seq<Pending>, now: nat,
                    n: nat := |pending|): seq<Outcome>
    requires n <= |pending|
    decreases n
  {
    if n == 0 then []
    else
      Outcomes(tracked, lags, pending, now, n - 1)
      + if Due(pending[n - 1], now) then [Judge(tracked, lags, pending[n - 1], now)] else []
  }

  function DeliverOne(trackers: map<SymbolId, Tracker>, o: Outcome): map<SymbolId, Tracker>
  {
    if o.Judged? && o.item.symbolId in trackers
    then trackers[o.item.symbolId := trackers[o.item.symbolId].Record(o.aligned)]
    else trackers
  }

  function Delivered(trackers: map<SymbolId, Tracker>, outcomes: seq<Outcome>, n: nat := |outcomes|): map<SymbolId, Tracker>
    requires n <= |outcomes|
    decreases n
  {
    if n == 0 then trackers else DeliverOne(Delivered(trackers, outcomes, n - 1), outcomes[n - 1])
  }

  function OutcomesOf(s: State, now: nat): seq<Outcome>
  {
    Outcomes(s.trackers.Keys, s.lags, s.pending, now)
  }

  function Settled(s: State, now: nat): State
  {
    s.(pending := Waiting(s.pending, now), trackers := Delivered(s.trackers, OutcomesOf(s, now)))
  }

  predicate TradeHourOk(cfg: Config, id: SymbolId, now: nat)
  {
    var hour := (now / HOUR_NS) % 24;
    var name := if id in cfg.idToBinance then cfg.idToBinance[id] else "";
    name in cfg.edgeHours ==> cfg.edgeHours[name] == [] || hour in cfg.edgeHours[name]
  }

  predicate FollowThroughOk(s: State, id: SymbolId)
  {
    id in s.trackers ==> s.trackers[id].AllowsEntry()
  }

  /** The packet a tick produces, once observed and settled. */
  function PacketOf(cfg: Config, s: State, t: Tick, root: real, c: Clocks): Packet
  {
    TickPacket(cfg.engine, MetricsOf(s, t.symbolId), root, LagOf(s, t.symbolId), t, c.stale,
               TradeHourOk(cfg, t.symbolId, c.now) && FollowThroughOk(s, t.symbolId))
  }

  // ------------------------------------------------------------------
  // The tick: exits, then at most one entry
  // ------------------------------------------------------------------

  function Exited(cfg: Config, s: State, pkt: Packet, now: nat): State
  {
    var (kept, book) := Exits(cfg, s.lags, pkt, now, s.positions, s.ledger);
    s.(positions := kept, ledger := book)
  }

  predicate EntriesBlocked(s: State) { s.operatorHalt || s.safe.HaltEntries() || s.warm.entriesHalted }

  function AdverseLimit(cfg: Config, id: SymbolId): real
  {
    if id in cfg.adverseById then cfg.adverseById[id] else cfg.defaultAdverse
  }

  /** The notional an entry in this symbol aims at. */
  function Budget(cfg: Config, id: SymbolId): real
  {
    var alloc := if id in cfg.alloc then cfg.alloc[id] else 0.05;
    var lev := if id in cfg.leverage then cfg.leverage[id] else cfg.defaultLeverage;
    cfg.deposit * alloc * lev
  }

  function EntryQty(cfg: Config, id: SymbolId, px: real): real { Budget(cfg, id) / Max(px, 1.0) }

  function EntrySide(pkt: Packet): Side { if pkt.directionBias > 0 then Long else Short }

  function EntryOrder(side: Side): Ledger.OrderSide { if side == Long then Ledger.Buy else Ledger.Sell }

  function NewPosition(cfg: Config, pkt: Packet, openNs: nat): Position
    requires pkt.symbolId in cfg.idToBybit
  {
    var qty := EntryQty(cfg, pkt.symbolId, pkt.refPrice);
    var (stop, tp) := InitialStops(EntrySide(pkt), pkt.refPrice, pkt.atr, cfg.atrMult, cfg.tpPct);
    Position(cfg.idToBybit[pkt.symbolId], pkt.symbolId, pkt.seqNum, EntrySide(pkt), pkt.refPrice,
             qty, qty, stop, tp, openNs, pkt.impulseBps, 0.0)
  }

  /** Recording the entry, its follow-through item and the position. */
  function Opened(cfg: Config, s: State, pkt: Packet, c: Clocks): State
    requires pkt.symbolId in cfg.idToBybit
  {
    var pos := NewPosition(cfg, pkt, c.open);
    s.(ledger := s.ledger.Entered(pos.symbolName, EntryOrder(pos.side), pos.qty, pos.entryPrice, cfg.feeRate, true),
       pending := s.pending + [Pending(pkt.symbolId, c.now, pkt.directionBias, LagOf(s, pkt.symbolId).bybitMid)],
       positions := s.positions + [pos])
  }

  function Verdict(cfg: Config, s: State, pkt: Packet, now: nat): (Risk.Decision, Slots)
  {
    Check(s.lastSeq, cfg.maxLatencyNs, AdverseLimit(cfg, pkt.symbolId), s.flags, now, pkt)
  }

  predicate Opens(cfg: Config, s: State, pkt: Packet, now: nat)
  {
    !EntriesBlocked(s) && Verdict(cfg, s, pkt, now).0 == Risk.Open && s.positions == [] && pkt.symbolId in cfg.idToBybit
  }

  /** The limit and the slot a consulted risk engine is left with. */
  function Admitted(cfg: Config, s: State, pkt: Packet, now: nat): State
  {
    s.(maxAdverse := AdverseLimit(cfg, pkt.symbolId), lastSeq := Verdict(cfg, s, pkt, now).1)
  }

  function Entered(cfg: Config, s: State, pkt: Packet, c: Clocks): State
  {
    if EntriesBlocked(s) then s
    else
      var s1 := Admitted(cfg, s, pkt, c.entry);
      if Opens(cfg, s, pkt, c.entry) then Opened(cfg, s1, pkt, c) else s1
  }

  /** State and packet just before the exit loop. */
  function Prepared(s: State, t: Tick, c: Clocks): State
  {
    Settled(Observed(s, t, c.push), c.now)
  }

  function OnTick(cfg: Config, s: State, t: Tick, root: real, c: Clocks): State
  {
    var s1 := Prepared(s, t, c);
    var pkt := PacketOf(cfg, s1, t, root, c);
    Entered(cfg, Exited(cfg, s1, pkt, c.exit), pkt, c)
  }

  // ------------------------------------------------------------------
  // Steps and runs
  // ------------------------------------------------------------------

  ghost function Step(cfg: Config, s: State, e: Event): State
  {
    match e
    case Command(trusted, action) => OnCommand(s, trusted, action)
    case Heartbeat(at) => OnHeartbeat(cfg, s, at)
    case BinanceTick(t, root, c) => OnTick(cfg, s, t, root, c)
    case Timer(at) => OnTimer(cfg, s, at)
    case BybitMid(id, mid, depth, at) => OnBybitMid(s, id, id in cfg.idToBybit, mid, depth, at)
    case Funding(rate) => OnFunding(s, rate)
  }

  ghost function Run(cfg: Config, s: State, es: seq<Event>): State
    decreases |es|
  {
    if es == [] then s else Run(cfg, Step(cfg, s, es[0]), es[1..])
  }

  /** Fields that only ticks and flattens write. */
  ghost predicate TradingUnchanged(s: State, s': State)
  {
    && s'.positions == s.positions && s'.ledger == s.ledger && s'.lastSeq == s.lastSeq && s'.maxAdverse == s.maxAdverse
    && s'.pending == s.pending && s'.metrics == s.metrics && s'.trackers == s.trackers && s'.lags.Keys == s.lags.Keys
  }

  lemma RefreshFrame(cfg: Config, s: State)
    ensures TradingUnchanged(s, Refreshed(cfg, s)) && Refreshed(cfg, s).lags == s.lags
  {
  }

  lemma MissFrame(cfg: Config, s: State, at: nat)
    ensures TradingUnchanged(s, MissCounted(cfg, s, at)) && MissCounted(cfg, s, at).lags == s.lags
  {
    RefreshFrame(cfg, s.(safe := s.safe.Miss()));
  }

  lemma CommandFrame(s: State, trusted: bool, action: Action)
    ensures TradingUnchanged(s, OnCommand(s, trusted, action))
  {
  }

  lemma HeartbeatFrame(cfg: Config, s: State, at: nat)
    ensures TradingUnchanged(s, OnHeartbeat(cfg, s, at))
  {
    RefreshFrame(cfg, s.(lastHb := at, safe := s.safe.Heartbeat()));
  }

  lemma DepthFrame(s: State, id: SymbolId, depth: real)
    ensures TradingUnchanged(s, DepthSeen(s, id, depth)) && DepthSeen(s, id, depth).lags == s.lags
  {
  }

  lemma BybitFrame(s: State, id: SymbolId, known: bool, mid: real, depth: real, at: nat)
    ensures TradingUnchanged(s, OnBybitMid(s, id, known, mid, depth, at))
  {
    DepthFrame(MidSeen(s, id, mid, at), id, depth);
  }

  lemma FundingFrame(s: State, rate: real)
    ensures TradingUnchanged(s, OnFunding(s, rate))
  {
  }

  /** Commands, heartbeats and the background tasks never trade. */
  lemma OnlyTicksAndTimersTrade(cfg: Config, s: State, e: Event)
    requires !e.BinanceTick? && !e.Timer?
    ensures TradingUnchanged(s, Step(cfg, s, e))
  {
    match e
    case Command(trusted, action) => CommandFrame(s, trusted, action);
    case Heartbeat(at) => HeartbeatFrame(cfg, s, at);
    case BybitMid(id, mid, depth, at) => BybitFrame(s, id, id in cfg.idToBybit, mid, depth, at);
    case Funding(rate) => FundingFrame(s, rate);
  }
}
