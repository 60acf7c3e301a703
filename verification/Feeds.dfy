/** What the executor knows after a run, read off the events themselves: the
    latest mid, funding rate, depth, heartbeat and halt command, the number of
    late timers, and the price of 100 ms ago. */
module Feeds {
  import opened Numerics
  import opened Packets
  import opened Metrics
  import opened Risk
  import opened Entry
  import opened SafeModes
  import opened Executor
  import Halts
  import Entries

  // ------------------------------------------------------------------
  // Which event writes what
  // ------------------------------------------------------------------

  predicate IsMid(cfg: Config, e: Event, id: SymbolId)
  {
    e.BybitMid? && e.symbolId == id && id in cfg.idToBybit
  }

  predicate IsDepth(cfg: Config, e: Event, id: SymbolId) { IsMid(cfg, e, id) && e.topDepthUsd > 0.0 }

  predicate IsHaltCommand(e: Event) { e.Command? && e.trusted && !e.action.StatusPing? }

  predicate IsLate(timeoutNs: nat, lastHb: nat, e: Event) { e.Timer? && e.at > lastHb + timeoutNs }

  lemma TickWrites(cfg: Config, s: State, t: Tick, root: real, c: Clocks)
    ensures var s' := OnTick(cfg, s, t, root, c);
            && Halts.HaltsUnchanged(s, s') && s'.depths == s.depths && s'.lags.Keys == s.lags.Keys
            && s'.lags == Observed(s, t, c.push).lags
  {
    var s1 := Prepared(s, t, c);
    var pkt := PacketOf(cfg, s1, t, root, c);
    var s2 := Exited(cfg, s1, pkt, c.exit);
    assert s2.lags == Observed(s, t, c.push).lags && s2.depths == s.depths && Halts.HaltsUnchanged(s, s2);
    EntryWrites(cfg, s2, pkt, c);
  }

  lemma EntryWrites(cfg: Config, s: State, pkt: Packet, c: Clocks)
    ensures var s' := Entered(cfg, s, pkt, c);
            Halts.HaltsUnchanged(s, s') && s'.depths == s.depths && s'.lags == s.lags
  {
  }

  /** What no command, heartbeat, timer or funding poll writes. */
  ghost predicate MarketKept(s: State, s': State)
  {
    s'.depths == s.depths && s'.lags == s.lags && s'.warm.bookDepthUsd == s.warm.bookDepthUsd && SameLimits(s.warm, s'.warm)
  }

  lemma MissWrites(cfg: Config, s: State, at: nat)
    ensures var s', late := MissCounted(cfg, s, at), IsLate(cfg.heartbeatTimeoutNs, s.lastHb, Timer(at));
            && MarketKept(s, s') && s'.warm.fundingRate == s.warm.fundingRate
            && s'.operatorHalt == s.operatorHalt && s'.lastHb == s.lastHb
            && s'.safe == (if late then s.safe.Miss() else s.safe)
  {
    assert HeartbeatLate(cfg, s, at) <==> IsLate(cfg.heartbeatTimeoutNs, s.lastHb, Timer(at));
  }

  lemma TimerWrites(cfg: Config, s: State, at: nat)
    ensures var s', late := OnTimer(cfg, s, at), IsLate(cfg.heartbeatTimeoutNs, s.lastHb, Timer(at));
            && MarketKept(s, s') && s'.warm.fundingRate == s.warm.fundingRate
            && s'.operatorHalt == s.operatorHalt && s'.lastHb == s.lastHb
            && s'.safe == (if late then s.safe.Miss() else s.safe)
  {
    MissWrites(cfg, s, at);
    Halts.FlattenLeavesHaltsAlone(cfg, MissCounted(cfg, s, at));
  }

  lemma CommandWrites(s: State, trusted: bool, action: Action)
    ensures var s' := OnCommand(s, trusted, action);
            && MarketKept(s, s') && s'.warm.fundingRate == s.warm.fundingRate && s'.safe == s.safe && s'.lastHb == s.lastHb
            && s'.operatorHalt == if trusted && !action.StatusPing? then !action.ResumeEntries? else s.operatorHalt
  {
  }

  lemma HeartbeatWrites(cfg: Config, s: State, at: nat)
    ensures var s' := OnHeartbeat(cfg, s, at);
            && MarketKept(s, s') && s'.warm.fundingRate == s.warm.fundingRate && s'.operatorHalt == s.operatorHalt
            && s'.lastHb == at && s'.safe == s.safe.Heartbeat()
  {
  }

  lemma FundingWrites(s: State, rate: real)
    ensures var s' := OnFunding(s, rate);
            && MarketKept(s, s') && s'.warm.fundingRate == rate && s'.safe == s.safe && s'.lastHb == s.lastHb
            && s'.operatorHalt == s.operatorHalt
  {
  }

  lemma DepthWrites(s: State, id: SymbolId, usd: real)
    ensures var s' := DepthSeen(s, id, usd);
            && s'.depths == s.depths[id := usd] && s'.lags == s.lags && IsLeast(s'.depths, s'.warm.bookDepthUsd)
            && SameLimits(s.warm, s'.warm) && s'.warm.fundingRate == s.warm.fundingRate
            && s'.safe == s.safe && s'.lastHb == s.lastHb && s'.operatorHalt == s.operatorHalt
  {
    assert id in s.depths[id := usd];
  }

  lemma MidWrites(s: State, id: SymbolId, known: bool, mid: real, usd: real, at: nat)
    ensures var s' := OnBybitMid(s, id, known, mid, usd, at);
            && s'.lags == (if known && id in s.lags then s.lags[id := s.lags[id].(bybitMid := mid, bybitTsNs := at)]
                           else s.lags)
            && s'.depths == (if known && usd > 0.0 then s.depths[id := usd] else s.depths)
            && (if known && usd > 0.0 then IsLeast(s'.depths, s'.warm.bookDepthUsd)
                else s'.warm.bookDepthUsd == s.warm.bookDepthUsd)
            && SameLimits(s.warm, s'.warm) && s'.warm.fundingRate == s.warm.fundingRate
            && s'.safe == s.safe && s'.lastHb == s.lastHb && s'.operatorHalt == s.operatorHalt
  {
    DepthWrites(MidSeen(s, id, mid, at), id, usd);
  }

  /** The limits are never written. */
  predicate SameLimits(w: Warm, w': Warm)
  {
    w'.maxDailyDd == w.maxDailyDd && w'.maxFundingRate == w.maxFundingRate && w'.minBookDepthUsd == w.minBookDepthUsd
  }

  /** The writes of one step, field by field. */
  lemma StepWrites(cfg: Config, s: State, e: Event)
    ensures var s' := Step(cfg, s, e);
            && SameLimits(s.warm, s'.warm)
            && s'.warm.fundingRate == (if e.Funding? then e.rate else s.warm.fundingRate)
            && s'.operatorHalt == (if IsHaltCommand(e) then !e.action.ResumeEntries? else s.operatorHalt)
            && s'.lastHb == (if e.Heartbeat? then e.at else s.lastHb)
            && s'.safe == (if e.Heartbeat? then s.safe.Heartbeat()
                           else if IsLate(cfg.heartbeatTimeoutNs, s.lastHb, e) then s.safe.Miss() else s.safe)
            && MarketStep(cfg, s, e, s')
  {
    match e
    case BinanceTick(t, root, c) => TickWrites(cfg, s, t, root, c);
    case Timer(at) => TimerWrites(cfg, s, at);
    case BybitMid(id, mid, usd, at) => MidWrites(s, id, id in cfg.idToBybit, mid, usd, at);
    case Command(trusted, action) => CommandWrites(s, trusted, action);
    case Heartbeat(at) => HeartbeatWrites(cfg, s, at);
    case Funding(rate) => FundingWrites(s, rate);
  }

  /** Only the Bybit task and ticks write the lags, only the former the depths. */
  ghost predicate MarketStep(cfg: Config, s: State, e: Event, s': State)
  {
    match e
    case BybitMid(id, mid, usd, at) =>
      && s'.lags == (if id in cfg.idToBybit && id in s.lags
                     then s.lags[id := s.lags[id].(bybitMid := mid, bybitTsNs := at)] else s.lags)
      && s'.depths == (if id in cfg.idToBybit && usd > 0.0 then s.depths[id := usd] else s.depths)
      && (if id in cfg.idToBybit && usd > 0.0 then IsLeast(s'.depths, s'.warm.bookDepthUsd)
          else s'.warm.bookDepthUsd == s.warm.bookDepthUsd)
    case BinanceTick(t, _, c) =>
      s'.lags == Observed(s, t, c.push).lags && s'.depths == s.depths && s'.warm.bookDepthUsd == s.warm.bookDepthUsd
    case _ => MarketKept(s, s')
  }

  predicate SameMid(a: LagState, b: LagState) { b.bybitMid == a.bybitMid && b.bybitTsNs == a.bybitTsNs }

  // ------------------------------------------------------------------
  // The latest event of a kind decides
  // ------------------------------------------------------------------

  lemma {:induction false} RateStays(cfg: Config, s: State, es: seq<Event>)
    requires forall j | 0 <= j < |es| :: !es[j].Funding?
    ensures Run(cfg, s, es).warm.fundingRate == s.warm.fundingRate
    decreases |es|
  {
    if es != [] {
      StepWrites(cfg, s, es[0]);
      RateStays(cfg, Step(cfg, s, es[0]), es[1..]);
    }
  }

  /** The funding rate the guard looks at is the last one polled. */
  lemma {:induction false} LatestFunding(cfg: Config, s: State, es: seq<Event>, i: nat)
    requires i < |es| && es[i].Funding? && forall j | i < j < |es| :: !es[j].Funding?
    ensures Run(cfg, s, es).warm.fundingRate == es[i].rate
    decreases |es|
  {
    if i == 0 {
      StepWrites(cfg, s, es[0]);
      RateStays(cfg, Step(cfg, s, es[0]), es[1..]);
    } else {
      LatestFunding(cfg, Step(cfg, s, es[0]), es[1..], i - 1);
    }
  }

  lemma {:induction false} HaltStays(cfg: Config, s: State, es: seq<Event>)
    requires forall j | 0 <= j < |es| :: !IsHaltCommand(es[j])
    ensures Run(cfg, s, es).operatorHalt == s.operatorHalt
    decreases |es|
  {
    if es != [] {
      StepWrites(cfg, s, es[0]);
      HaltStays(cfg, Step(cfg, s, es[0]), es[1..]);
    }
  }

  /** The operator's halt is what the last trusted halt, flatten or resume said. */
  lemma {:induction false} LatestHaltCommand(cfg: Config, s: State, es: seq<Event>, i: nat)
    requires i < |es| && IsHaltCommand(es[i]) && forall j | i < j < |es| :: !IsHaltCommand(es[j])
    ensures Run(cfg, s, es).operatorHalt <==> es[i].action.HaltEntries? || es[i].action.FlattenAll?
    decreases |es|
  {
    if i == 0 {
      StepWrites(cfg, s, es[0]);
      HaltStays(cfg, Step(cfg, s, es[0]), es[1..]);
    } else {
      LatestHaltCommand(cfg, Step(cfg, s, es[0]), es[1..], i - 1);
    }
  }

  lemma {:induction false} MidStays(cfg: Config, s: State, es: seq<Event>, id: SymbolId)
    requires id in s.lags && forall j | 0 <= j < |es| :: !IsMid(cfg, es[j], id)
    ensures var s' := Run(cfg, s, es); id in s'.lags && SameMid(s.lags[id], s'.lags[id])
    decreases |es|
  {
    if es != [] {
      StepWrites(cfg, s, es[0]);
      MidStays(cfg, Step(cfg, s, es[0]), es[1..], id);
    }
  }

  /** The Bybit price of a tracked symbol, and its age, are those of the last mid
      streamed for it. */
  lemma {:induction false} LatestMid(cfg: Config, s: State, es: seq<Event>, id: SymbolId, i: nat)
    requires id in s.lags && i < |es| && IsMid(cfg, es[i], id)
    requires forall j | i < j < |es| :: !IsMid(cfg, es[j], id)
    ensures var s' := Run(cfg, s, es);
            id in s'.lags && s'.lags[id].bybitMid == es[i].mid && s'.lags[id].bybitTsNs == es[i].at
    decreases |es|
  {
    var s' := Step(cfg, s, es[0]);
    StepWrites(cfg, s, es[0]);
    if i == 0 {
      MidStays(cfg, s', es[1..], id);
    } else {
      LatestMid(cfg, s', es[1..], id, i - 1);
    }
  }

  lemma {:induction false} DepthStays(cfg: Config, s: State, es: seq<Event>, id: SymbolId)
    requires forall j | 0 <= j < |es| :: !IsDepth(cfg, es[j], id)
    ensures var s' := Run(cfg, s, es);
            (id in s'.depths <==> id in s.depths) && (id in s.depths ==> s'.depths[id] == s.depths[id])
    decreases |es|
  {
    if es != [] {
      StepWrites(cfg, s, es[0]);
      DepthStays(cfg, Step(cfg, s, es[0]), es[1..], id);
    }
  }

  /** The depth known of a symbol is the last positive one streamed for it. */
  lemma {:induction false} LatestDepth(cfg: Config, s: State, es: seq<Event>, id: SymbolId, i: nat)
    requires i < |es| && IsDepth(cfg, es[i], id) && forall j | i < j < |es| :: !IsDepth(cfg, es[j], id)
    ensures var s' := Run(cfg, s, es); id in s'.depths && s'.depths[id] == es[i].topDepthUsd
    decreases |es|
  {
    var s' := Step(cfg, s, es[0]);
    if i == 0 {
      StepWrites(cfg, s, es[0]);
      DepthStays(cfg, s', es[1..], id);
    } else {
      LatestDepth(cfg, s', es[1..], id, i - 1);
    }
  }

  /** Timers among the events that find the last heartbeat too old. */
  function LateTimers(timeoutNs: nat, lastHb: nat, es: seq<Event>): nat
  {
    if |es| == 0 then 0 else (if IsLate(timeoutNs, lastHb, es[0]) then 1 else 0) + LateTimers(timeoutNs, lastHb, es[1..])
  }

  lemma {:induction false} MissesAreLateTimers(cfg: Config, s: State, es: seq<Event>)
    requires forall j | 0 <= j < |es| :: !es[j].Heartbeat?
    ensures var s' := Run(cfg, s, es);
            && s'.lastHb == s.lastHb
            && s'.safe.consecutiveMisses == s.safe.consecutiveMisses + LateTimers(cfg.heartbeatTimeoutNs, s.lastHb, es)
    decreases |es|
  {
    if |es| > 0 {
      StepWrites(cfg, s, es[0]);
      MissesAreLateTimers(cfg, Step(cfg, s, es[0]), es[1..]);
    }
  }

  /** A heartbeat clears the count, and from then on it is the number of timers
      later than the timeout. */
  lemma {:induction false} LatestHeartbeat(cfg: Config, s: State, es: seq<Event>, i: nat)
    requires i < |es| && es[i].Heartbeat? && forall j | i < j < |es| :: !es[j].Heartbeat?
    ensures var s' := Run(cfg, s, es);
            && s'.lastHb == es[i].at
            && s'.safe.consecutiveMisses == LateTimers(cfg.heartbeatTimeoutNs, es[i].at, es[i + 1..])
    decreases |es|
  {
    if i == 0 {
      StepWrites(cfg, s, es[0]);
      MissesAreLateTimers(cfg, Step(cfg, s, es[0]), es[1..]);
    } else {
      LatestHeartbeat(cfg, Step(cfg, s, es[0]), es[1..], i - 1);
      assert es[i + 1..] == es[1..][i..];
    }
  }

  /** Before the first heartbeat the count runs from startup. */
  lemma SilentStart(cfg: Config, at: nat, es: seq<Event>)
    requires forall j | 0 <= j < |es| :: !es[j].Heartbeat?
    ensures var s := Run(cfg, Init(cfg, at), es);
            s.lastHb == at && s.safe.consecutiveMisses == LateTimers(cfg.heartbeatTimeoutNs, at, es)
  {
    MissesAreLateTimers(cfg, Init(cfg, at), es);
  }

  /** Every symbol known on Bybit, and no other, is followed for ever, under the
      configured staleness limit; until its first mid it counts as stale. */
  lemma FollowedSymbols(cfg: Config, at: nat, es: seq<Event>, id: SymbolId)
    ensures var lags := Run(cfg, Init(cfg, at), es).lags;
            && (id in lags <==> id in cfg.idToBybit)
            && (id in lags ==> lags[id].maxStalenessMs == cfg.maxStalenessMs)
            && (id in lags && (forall j | 0 <= j < |es| :: !IsMid(cfg, es[j], id)) ==>
                  lags[id].bybitMid == 0.0 && forall now :: lags[id].IsStale(now))
  {
    RunKeepsFollowed(cfg, Init(cfg, at), es);
    if id in cfg.idToBybit && forall j | 0 <= j < |es| :: !IsMid(cfg, es[j], id) {
      MidStays(cfg, Init(cfg, at), es, id);
    }
  }

  lemma {:induction false} RunKeepsFollowed(cfg: Config, s: State, es: seq<Event>)
    requires forall id | id in s.lags :: s.lags[id].maxStalenessMs == cfg.maxStalenessMs
    ensures var s' := Run(cfg, s, es);
            s'.lags.Keys == s.lags.Keys && forall id | id in s'.lags :: s'.lags[id].maxStalenessMs == cfg.maxStalenessMs
    decreases |es|
  {
    if es != [] {
      StepWrites(cfg, s, es[0]);
      FollowedOn(cfg, s, es[0], Step(cfg, s, es[0]));
      RunKeepsFollowed(cfg, Step(cfg, s, es[0]), es[1..]);
    }
  }

  lemma FollowedOn(cfg: Config, s: State, e: Event, s': State)
    requires MarketStep(cfg, s, e, s') && forall id | id in s.lags :: s.lags[id].maxStalenessMs == cfg.maxStalenessMs
    ensures s'.lags.Keys == s.lags.Keys && forall id | id in s'.lags :: s'.lags[id].maxStalenessMs == cfg.maxStalenessMs
  {
  }

  // ------------------------------------------------------------------
  // Invariants of the runs
  // ------------------------------------------------------------------

  /** Safe mode as its thresholds and the count of misses determine it. */
  ghost predicate Phased(cfg: Config, safe: SafeState)
  {
    var k := safe.consecutiveMisses;
    && safe.missCaution == cfg.missCaution && safe.missDefensive == cfg.missDefensive
    && safe.missEmergency == cfg.missEmergency
    && (safe.phase == Emergency <==> k > 0 && k >= cfg.missEmergency)
    && (safe.phase == Normal <==> k == 0 || (k < cfg.missCaution && k < cfg.missDefensive && k < cfg.missEmergency))
  }

  /** The thinnest known book, or the initial 50,000 dollars while none is known. */
  ghost predicate Booked(s: State)
  {
    if s.depths == map[] then s.warm.bookDepthUsd == 50_000.0 else IsLeast(s.depths, s.warm.bookDepthUsd)
  }

  /** What the configuration fixes. */
  ghost predicate Limited(cfg: Config, w: Warm)
  {
    w.maxDailyDd == cfg.maxDailyDd && w.maxFundingRate == cfg.maxFundingRate && w.minBookDepthUsd == 5_000.0
  }

  ghost predicate Informed(cfg: Config, s: State)
  {
    Phased(cfg, s.safe) && Booked(s) && Limited(cfg, s.warm)
  }

  lemma InitIsInformed(cfg: Config, at: nat)
    ensures Informed(cfg, Init(cfg, at))
  {
  }

  lemma StepKeepsInformed(cfg: Config, s: State, e: Event)
    requires Informed(cfg, s)
    ensures Informed(cfg, Step(cfg, s, e))
  {
    StepWrites(cfg, s, e);
    BookedOn(cfg, s, e, Step(cfg, s, e));
  }

  lemma BookedOn(cfg: Config, s: State, e: Event, s': State)
    requires Booked(s) && MarketStep(cfg, s, e, s')
    ensures Booked(s')
  {
    if e.BybitMid? && e.symbolId in cfg.idToBybit && e.topDepthUsd > 0.0 {
      assert e.symbolId in s'.depths;
    }
  }

  lemma {:induction false} RunKeepsInformed(cfg: Config, s: State, es: seq<Event>)
    requires Informed(cfg, s)
    ensures Informed(cfg, Run(cfg, s, es))
    decreases |es|
  {
    if es != [] {
      StepKeepsInformed(cfg, s, es[0]);
      RunKeepsInformed(cfg, Step(cfg, s, es[0]), es[1..]);
    }
  }

  /** When the published word admits entries, after any run from startup: no
      operator halt, too few misses for any threshold, the refreshed loss short
      of the configured limit, funding within its limit, and no known book
      thinner than 5,000 dollars. */
  lemma WordExactly(cfg: Config, at: nat, es: seq<Event>, s: State)
    requires s == Run(cfg, Init(cfg, at), es)
    ensures var k := s.safe.consecutiveMisses;
            AllRequired(s.flags) <==>
              && !s.operatorHalt
              && (k == 0 || (k < cfg.missCaution && k < cfg.missDefensive && k < cfg.missEmergency))
              && s.warm.dayPnlPct > -cfg.maxDailyDd
              && -cfg.maxFundingRate <= s.warm.fundingRate <= cfg.maxFundingRate
              && !(exists id :: id in s.depths && s.depths[id] < 5_000.0)
  {
    InitIsInformed(cfg, at);
    RunKeepsInformed(cfg, Init(cfg, at), es);
    Halts.InitIsCoherent(cfg, at);
    Halts.RunKeepsCoherent(cfg, Init(cfg, at), es);
    KnownDepthsArePositive(cfg, Init(cfg, at), es);
    assert s.safe.HaltEntries() <==> s.safe.phase != Normal;
    ThinExactly(s);
  }

  lemma ThinExactly(s: State)
    requires Booked(s) && AllPositive(s.depths) && s.warm.minBookDepthUsd == 5_000.0
    ensures s.warm.BookThin() <==> exists id :: id in s.depths && s.depths[id] < 5_000.0
  {
  }

  predicate AllPositive(depths: map<SymbolId, real>) { forall id | id in depths :: depths[id] > 0.0 }

  lemma {:induction false} KnownDepthsArePositive(cfg: Config, s: State, es: seq<Event>)
    requires AllPositive(s.depths)
    ensures AllPositive(Run(cfg, s, es).depths)
    decreases |es|
  {
    if es != [] {
      StepWrites(cfg, s, es[0]);
      KnownDepthsArePositive(cfg, Step(cfg, s, es[0]), es[1..]);
    }
  }

  // ------------------------------------------------------------------
  // The price of 100 ms ago
  // ------------------------------------------------------------------

  /** The reference of a symbol is its aged sample, once it has any. */
  ghost predicate Referenced(s: State, id: SymbolId, h: seq<Sample>)
  {
    && id in s.lags && MetricsOf(s, id) == Replay(h)
    && (|h| > 0 ==> s.lags[id].binanceMid100msAgo == Lookup(Replay(h).samples, 100))
  }

  lemma StepKeepsReferenced(cfg: Config, s: State, e: Event, id: SymbolId, h: seq<Sample>)
    requires Referenced(s, id, h)
    ensures Referenced(Step(cfg, s, e), id, h + Entries.SampleIn(e, id))
  {
    Entries.StepMetrics(cfg, s, e, id, h);
    StepWrites(cfg, s, e);
    if e.BinanceTick? && e.tick.symbolId == id {
      Entries.TickMetrics(cfg, s, e.tick, e.root, e.clocks, id);
      ObservedReference(s, e.tick, e.clocks.push);
    } else {
      assert h + Entries.SampleIn(e, id) == h;
    }
  }

  lemma ObservedReference(s: State, t: Tick, push: nat)
    requires t.symbolId in s.lags
    ensures var s' := Observed(s, t, push);
            t.symbolId in s'.lags
            && s'.lags[t.symbolId].binanceMid100msAgo == Lookup(Push(MetricsOf(s, t.symbolId), t.mid, push).samples, 100)
  {
  }

  lemma {:induction false} RunKeepsReferenced(cfg: Config, s: State, es: seq<Event>, id: SymbolId, h: seq<Sample>)
    requires Referenced(s, id, h)
    ensures Referenced(Run(cfg, s, es), id, h + Entries.History(es, id))
    decreases |es|
  {
    if |es| == 0 {
      assert h + Entries.History(es, id) == h;
    } else {
      StepKeepsReferenced(cfg, s, es[0], id, h);
      Entries.HistorySplits(h, es, id);
      RunKeepsReferenced(cfg, Step(cfg, s, es[0]), es[1..], id, h + Entries.SampleIn(es[0], id));
    }
  }

  /** After any run from startup the reference price of a tracked symbol is the
      newest of its last 2048 ticks that is at least 100 ms older than its
      newest one, or else the oldest of them. */
  lemma ReferenceIsAgedTick(cfg: Config, at: nat, es: seq<Event>, id: SymbolId) returns (i: nat)
    requires id in cfg.idToBybit && |Entries.History(es, id)| > 0
    requires forall j | 0 <= j < |Entries.History(es, id)| :: 0 < Entries.History(es, id)[j].ts <= U64_MAX
    ensures var s, h := Run(cfg, Init(cfg, at), es), Entries.History(es, id);
            var kept := if |h| <= 2048 then h else h[|h| - 2048..];
            && id in s.lags && IsAged(kept, 100, i) && s.lags[id].binanceMid100msAgo == kept[i].price
  {
    var h := Entries.History(es, id);
    var none := h[..0];
    assert none + h == h;
    RunKeepsReferenced(cfg, Init(cfg, at), es, id, none);
    i := LookupIsAgedSample(h, 100);
  }
}
