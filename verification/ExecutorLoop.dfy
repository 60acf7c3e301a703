/** The executor as an object: the branches of the `select!` loop update its
    fields and components in place, each as the step function says. */
module ExecutorLoop {
  import opened Numerics
  import opened Packets
  import opened Metrics
  import opened Risk
  import opened Entry
  import opened FollowThrough
  import opened Positions
  import opened SafeModes
  import opened Executor
  import Ledger

  /** What arrives at the `select!`: an event whose command still names its source. */
  datatype Message = Operator(source: string, action: Action) | Other(event: Event)

  function EventOf(m: Message): Event
  {
    match m
    case Operator(source, action) => Event.Command(Trusted(source), action)
    case Other(event) => event
  }

  function EventsOf(ms: seq<Message>): seq<Event> { seq(|ms|, i requires 0 <= i < |ms| => EventOf(ms[i])) }

  class EventLoop {
    const cfg: Config
    var operatorHalt: bool
    var flattenRequest: bool
    const safeMode: SafeMode
    const warm: WarmRiskState
    const global: WarmFlags
    const risk: RiskEngine
    const ledger: Ledger.PaperLedger
    var positions: seq<Position>
    var pending: seq<Pending>
    var metrics: map<SymbolId, Snapshot>
    var lags: map<SymbolId, LagState>
    var trackers: map<SymbolId, Tracker>
    var depths: map<SymbolId, real>
    var lastHb: nat

    ghost predicate Valid()
      reads this, risk
    {
      risk.Valid() && risk.maxLatencyNs == cfg.maxLatencyNs
    }

    ghost function Repr(): set<object>
      reads this, risk
    {
      {this, safeMode, warm, global, risk, risk.lastSeq, ledger}
    }

    ghost function Value(): State
      requires Valid()
      reads this, safeMode, warm, global, risk, risk.lastSeq, ledger
    {
      State(operatorHalt, flattenRequest, safeMode.Value(), warm.Value(), global.bits, risk.lastSeq[..], risk.maxAdverse,
            positions, ledger.Value(), pending, metrics, lags, trackers, depths, lastHb)
    }

    constructor (cfg: Config, at: nat)
      ensures Valid() && this.cfg == cfg && Value() == Init(cfg, at)
      ensures fresh(Repr() - {this})
    {
      this.cfg := cfg;
      operatorHalt, flattenRequest := false, false;
      safeMode := new SafeMode(cfg.missCaution, cfg.missDefensive, cfg.missEmergency);
      var w := new WarmRiskState(InitialWarm(cfg));
      var g := new WarmFlags();
      w.Publish(g);
      warm, global := w, g;
      risk := new RiskEngine(cfg.maxLatencyNs, cfg.defaultAdverse);
      ledger := new Ledger.PaperLedger();
      positions, pending := [], [];
      metrics := map id | id in cfg.idToBybit :: Metrics.DEFAULT;
      lags := map id | id in cfg.idToBybit :: DEFAULT_LAG.(maxStalenessMs := cfg.maxStalenessMs);
      trackers := map id | id in cfg.idToBybit :: NewTracker(FollowThroughMinOf(cfg, id), FOLLOW_THROUGH_CAPACITY);
      depths := map[];
      lastHb := at;
    }

    // --- operator, heartbeat, background tasks ---

    method Command(trusted: bool, action: Action)
      requires Valid()
      modifies Repr()
      ensures Valid() && Value() == OnCommand(old(Value()), trusted, action)
    {
      if !trusted { return; }
      match action {
        case HaltEntries =>
          operatorHalt := true;
          warm.entriesHalted := true;
          warm.Publish(global);
        case ResumeEntries =>
          operatorHalt := false;
          warm.entriesHalted := safeMode.HaltEntries();
          warm.Publish(global);
        case FlattenAll =>
          flattenRequest := true;
          operatorHalt := true;
          warm.entriesHalted := true;
          warm.Publish(global);
        case StatusPing =>
      }
    }

    method Refresh()
      requires Valid()
      modifies warm, global
      ensures Valid() && Value() == Refreshed(cfg, old(Value()))
    {
      warm.entriesHalted := operatorHalt || safeMode.HaltEntries();
      if cfg.deposit > 0.0 {
        var net := ledger.NetPnl();
        warm.dayPnlPct := net / cfg.deposit;
      } else {
        warm.dayPnlPct := 0.0;
      }
      warm.Publish(global);
    }

    method Heartbeat(at: nat)
      requires Valid()
      modifies Repr()
      ensures Valid() && Value() == OnHeartbeat(cfg, old(Value()), at)
    {
      lastHb := at;
      safeMode.OnHeartbeat();
      Refresh();
    }

    method BybitMid(id: SymbolId, mid: real, topDepthUsd: real, at: nat)
      requires Valid()
      modifies Repr()
      ensures Valid() && Value() == OnBybitMid(old(Value()), id, id in cfg.idToBybit, mid, topDepthUsd, at)
    {
      if id !in cfg.idToBybit { return; }
      if id in lags {
        lags := lags[id := lags[id].(bybitMid := mid, bybitTsNs := at)];
      }
      if topDepthUsd > 0.0 {
        SeeDepth(id, topDepthUsd);
      }
    }

    method SeeDepth(id: SymbolId, topDepthUsd: real)
      requires Valid()
      modifies this`depths, warm, global
      ensures Valid() && Value() == DepthSeen(old(Value()), id, topDepthUsd)
    {
      depths := depths[id := topDepthUsd];
      assert id in depths;
      var minDepth := LeastOf(depths);
      warm.bookDepthUsd := minDepth;
      warm.Publish(global);
    }

    method Funding(rate: real)
      requires Valid()
      modifies Repr()
      ensures Valid() && Value() == OnFunding(old(Value()), rate)
    {
      warm.fundingRate := rate;
      warm.Publish(global);
    }

    // --- timer ---

    method RecordClose(pos: Position, px: real, note: string)
      modifies ledger
      ensures ledger.Value() == Closed(cfg, old(ledger.Value()), pos, px, note)
    {
      if pos.symbolId in cfg.idToBybit {
        ledger.RecordExit(cfg.idToBybit[pos.symbolId], CloseSide(pos.side), pos.qtyRemaining, pos.entryPrice, px,
                          cfg.feeRate, true, note);
      }
    }

    method CountMiss(at: nat)
      requires Valid()
      modifies safeMode, warm, global
      ensures Valid() && Value() == MissCounted(cfg, old(Value()), at)
    {
      if SatSub(at, lastHb) > cfg.heartbeatTimeoutNs {
        safeMode.OnMiss();
        Refresh();
      }
    }

    method DrainPositions()
      requires Valid()
      modifies this`positions, ledger
      ensures Valid() && positions == []
      ensures ledger.Value() == Flattened(cfg, lags, old(positions), old(ledger.Value()))
    {
      for i := 0 to |positions|
        invariant positions == old(positions)
        invariant ledger.Value() == Flattened(cfg, lags, positions, old(ledger.Value()), i)
      {
        var pos := positions[i];
        RecordClose(pos, MidForSymbol(lags, pos.symbolId, pos.entryPrice), "flatten");
      }
      positions := [];
    }

    method Timer(at: nat)
      requires Valid()
      modifies Repr()
      ensures Valid() && Value() == OnTimer(cfg, old(Value()), at)
    {
      CountMiss(at);
      if (safeMode.CloseAll() || flattenRequest) && positions != [] {
        flattenRequest := false;
        DrainPositions();
      }
    }

    // --- tick ---

    method Observe(t: Tick, pushNs: nat)
      requires Valid()
      modifies this`metrics, this`lags
      ensures Valid() && Value() == Observed(old(Value()), t, pushNs)
    {
      var m := if t.symbolId in metrics then metrics[t.symbolId] else Metrics.DEFAULT;
      m := Push(m, t.mid, pushNs);
      metrics := metrics[t.symbolId := m];
      if t.symbolId in lags {
        lags := lags[t.symbolId := lags[t.symbolId].(binanceMid100msAgo := Lookup(m.samples, 100))];
      }
    }

    method Settle(now: nat)
      requires Valid()
      modifies this`pending, this`trackers
      ensures Valid() && Value() == Settled(old(Value()), now)
    {
      var kept: seq<Pending> := [];
      ghost var log: seq<Outcome> := [];
      ghost var tracked := trackers.Keys;
      for i := 0 to |pending|
        invariant pending == old(pending) && trackers.Keys == tracked == old(trackers).Keys
        invariant kept == Waiting(pending, now, i)
        invariant log == Outcomes(tracked, lags, pending, now, i)
        invariant trackers == Delivered(old(trackers), log)
      {
        var p := pending[i];
        if SatSub(now, p.tsNs) < FOLLOW_THROUGH_DELAY_NS {
          kept := kept + [p];
        } else {
          ghost var o := Judge(tracked, lags, p, now);
          DeliverAppend(old(trackers), log, o);
          if p.symbolId in trackers {
            var byNow := if p.symbolId in lags then lags[p.symbolId].bybitMid else p.bybitMid;
            if p.bybitMid > 0.0 && byNow > 0.0 {
              var ret := (byNow - p.bybitMid) / p.bybitMid;
              trackers := trackers[p.symbolId := trackers[p.symbolId].Record(ret * (p.direction as real) > 0.0)];
            }
          }
          log := log + [o];
        }
      }
      pending := kept;
    }

    method RunExits(pkt: Packet, now: nat)
      requires Valid()
      modifies this`positions, ledger
      ensures Valid() && Value() == Exited(cfg, old(Value()), pkt, now)
    {
      var kept: seq<Position> := [];
      for i := 0 to |positions|
        invariant positions == old(positions)
        invariant (kept, ledger.Value()) == Exits(cfg, lags, pkt, now, positions, old(ledger.Value()), i)
      {
        var pos := cfg.pm.UpdateLagCapture(positions[i], pkt);
        assert pos.symbolId == positions[i].symbolId && pos.entryPrice == positions[i].entryPrice;
        var mid := if pkt.symbolId == pos.symbolId && pkt.bybitMidRef > 0.0 then pkt.bybitMidRef
                   else MidForSymbol(lags, pos.symbolId, pos.entryPrice);
        var reason := cfg.pm.CheckExit(pos, mid, pkt, now);
        if reason.Some? {
          RecordClose(positions[i], mid, ReasonName(reason.value));
        } else {
          kept := kept + [pos];
        }
      }
      positions := kept;
    }

    method Open(pkt: Packet, c: Clocks)
      requires Valid() && pkt.symbolId in cfg.idToBybit
      modifies this`positions, this`pending, ledger
      ensures Valid() && Value() == Opened(cfg, old(Value()), pkt, c)
    {
      var pos := NewPosition(cfg, pkt, c.open);
      ledger.RecordEntry(pos.symbolName, EntryOrder(pos.side), pos.qty, pos.entryPrice, cfg.feeRate, true);
      var lag := if pkt.symbolId in lags then lags[pkt.symbolId] else DEFAULT_LAG;
      pending := pending + [Pending(pkt.symbolId, c.now, pkt.directionBias, lag.bybitMid)];
      positions := positions + [pos];
    }

    method TryEnter(pkt: Packet, c: Clocks)
      requires Valid()
      modifies Repr()
      ensures Valid() && Value() == Entered(cfg, old(Value()), pkt, c)
    {
      if operatorHalt || safeMode.HaltEntries() || warm.entriesHalted { return; }
      risk.maxAdverse := AdverseLimit(cfg, pkt.symbolId);
      var d := risk.CheckEntry(pkt, c.entry, global);
      assert Value() == Admitted(cfg, old(Value()), pkt, c.entry);
      if d == Risk.Open && positions == [] && pkt.symbolId in cfg.idToBybit {
        Open(pkt, c);
      }
    }

    method Tick(t: Tick, root: real, c: Clocks)
      requires Valid()
      modifies Repr()
      ensures Valid() && Value() == OnTick(cfg, old(Value()), t, root, c)
    {
      Observe(t, c.push);
      Settle(c.now);
      var m := if t.symbolId in metrics then metrics[t.symbolId] else Metrics.DEFAULT;
      var lag := if t.symbolId in lags then lags[t.symbolId] else DEFAULT_LAG;
      var ftOk := if t.symbolId in trackers then trackers[t.symbolId].AllowsEntry() else true;
      var pkt := TickPacket(cfg.engine, m, root, lag, t, c.stale, TradeHourOk(cfg, t.symbolId, c.now) && ftOk);
      RunExits(pkt, c.exit);
      TryEnter(pkt, c);
    }

    // --- the loop ---

    method Handle(m: Message)
      requires Valid()
      modifies Repr()
      ensures Valid() && Value() == Step(cfg, old(Value()), EventOf(m)) && Repr() == old(Repr())
    {
      match EventOf(m) {
        case Command(trusted, action) => Command(trusted, action);
        case Heartbeat(at) => Heartbeat(at);
        case BinanceTick(t, root, c) => Tick(t, root, c);
        case Timer(at) => Timer(at);
        case BybitMid(id, mid, depth, at) => BybitMid(id, mid, depth, at);
        case Funding(rate) => Funding(rate);
      }
    }

    /** Any finite stretch of the endless loop is a run of the step relation,
        so what is proved of runs holds of this object. */
    method Serve(ms: seq<Message>)
      requires Valid()
      modifies Repr()
      ensures Valid() && Value() == Run(cfg, old(Value()), EventsOf(ms))
    {
      ghost var es := EventsOf(ms);
      for i := 0 to |ms|
        invariant Valid() && Repr() == old(Repr())
        invariant Run(cfg, Value(), es[i..]) == Run(cfg, old(Value()), es)
      {
        assert es[i..][0] == EventOf(ms[i]) && es[i..][1..] == es[i + 1..];
        Handle(ms[i]);
      }
      assert es[|ms|..] == [];
    }
  }

  lemma DeliverAppend(trackers: map<SymbolId, Tracker>, log: seq<Outcome>, o: Outcome)
    ensures Delivered(trackers, log + [o]) == DeliverOne(Delivered(trackers, log), o)
  {
    DeliveredPrefix(trackers, log, o, |log|);
  }

  lemma {:induction false} DeliveredPrefix(trackers: map<SymbolId, Tracker>, log: seq<Outcome>, o: Outcome, n: nat)
    requires n <= |log|
    ensures Delivered(trackers, log + [o], n) == Delivered(trackers, log, n)
  {
    if n > 0 {
      DeliveredPrefix(trackers, log, o, n - 1);
    }
  }

  /** The fold over the known depths: the smallest of them. */
  method LeastOf(depths: map<SymbolId, real>) returns (m: real)
    requires depths != map[]
    ensures m == Least(depths)
  {
    var todo := depths.Keys;
    var first :| first in depths;
    m := depths[first];
    while todo != {}
      invariant todo <= depths.Keys
      invariant exists k :: k in depths && depths[k] == m
      invariant forall k | k in depths && k !in todo :: m <= depths[k]
      decreases todo
    {
      var k :| k in todo;
      if depths[k] < m { m := depths[k]; }
      todo := todo - {k};
    }
    assert IsLeast(depths, m) && IsLeast(depths, Least(depths));
  }
}
