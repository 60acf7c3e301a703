/** Halts, lockouts and flag coherence over runs of the executor. */
module Halts {
  import opened Numerics
  import opened Packets
  import opened Risk
  import opened Positions
  import opened Executor
  import Entry
  import Ledger

  // ------------------------------------------------------------------
  // Coherence at every event boundary
  // ------------------------------------------------------------------

  ghost predicate Coherent(s: State)
  {
    && s.flags == ComputeFlags(s.warm)
    && s.warm.entriesHalted == (s.operatorHalt || s.safe.HaltEntries())
  }

  ghost predicate HaltsUnchanged(s: State, s': State)
  {
    && s'.warm == s.warm && s'.flags == s.flags && s'.safe == s.safe
    && s'.operatorHalt == s.operatorHalt && s'.lastHb == s.lastHb
  }

  lemma FlattenLeavesHaltsAlone(cfg: Config, s: State)
    ensures HaltsUnchanged(s, Flatten(cfg, s))
  {
  }

  lemma EnteredLeavesHaltsAlone(cfg: Config, s: State, pkt: Packet, c: Clocks)
    ensures HaltsUnchanged(s, Entered(cfg, s, pkt, c)) && Entered(cfg, s, pkt, c).flattenRequest == s.flattenRequest
  {
  }

  lemma TickLeavesHaltsAlone(cfg: Config, s: State, t: Entry.Tick, root: real, c: Clocks)
    ensures HaltsUnchanged(s, OnTick(cfg, s, t, root, c)) && OnTick(cfg, s, t, root, c).flattenRequest == s.flattenRequest
  {
    var s1 := Prepared(s, t, c);
    var pkt := PacketOf(cfg, s1, t, root, c);
    EnteredLeavesHaltsAlone(cfg, Exited(cfg, s1, pkt, c.exit), pkt, c);
  }

  lemma TimerKeepsCoherent(cfg: Config, s: State, at: nat)
    requires Coherent(s)
    ensures Coherent(OnTimer(cfg, s, at))
  {
    assert Coherent(MissCounted(cfg, s, at));
    FlattenLeavesHaltsAlone(cfg, MissCounted(cfg, s, at));
  }

  lemma CommandKeepsCoherent(s: State, trusted: bool, action: Action)
    requires Coherent(s)
    ensures Coherent(OnCommand(s, trusted, action))
  {
  }

  lemma BybitKeepsCoherent(s: State, id: SymbolId, known: bool, mid: real, depth: real, at: nat)
    requires Coherent(s)
    ensures Coherent(OnBybitMid(s, id, known, mid, depth, at))
  {
    assert Coherent(MidSeen(s, id, mid, at));
    assert Coherent(DepthSeen(MidSeen(s, id, mid, at), id, depth));
  }

  lemma StepKeepsCoherent(cfg: Config, s: State, e: Event)
    requires Coherent(s)
    ensures Coherent(Step(cfg, s, e))
  {
    match e
    case BinanceTick(t, root, c) => TickLeavesHaltsAlone(cfg, s, t, root, c);
    case Timer(at) => TimerKeepsCoherent(cfg, s, at);
    case Command(trusted, action) => CommandKeepsCoherent(s, trusted, action);
    case BybitMid(id, mid, depth, at) => BybitKeepsCoherent(s, id, id in cfg.idToBybit, mid, depth, at);
    case Heartbeat(at) =>
    case Funding(rate) =>
  }

  /** After any run the published word is the one the warm state stands for,
      and it admits an entry exactly when neither the operator nor safe mode
      halts, the drawdown and funding limits hold and the book is deep enough. */
  lemma {:induction false} RunKeepsCoherent(cfg: Config, s: State, es: seq<Event>)
    requires Coherent(s)
    ensures var s' := Run(cfg, s, es);
            Coherent(s') && (AllRequired(s'.flags) <==>
              !s'.operatorHalt && !s'.safe.HaltEntries()
              && !s'.warm.DrawdownHit() && !s'.warm.FundingHigh() && !s'.warm.BookThin())
    decreases |es|
  {
    if es != [] {
      StepKeepsCoherent(cfg, s, es[0]);
      RunKeepsCoherent(cfg, Step(cfg, s, es[0]), es[1..]);
    }
  }

  lemma InitIsCoherent(cfg: Config, at: nat)
    ensures Coherent(Init(cfg, at))
  {
  }

  // ------------------------------------------------------------------
  // Operator halt
  // ------------------------------------------------------------------

  predicate IsResume(e: Event) { e.Command? && e.trusted && e.action == ResumeEntries }

  /** `s'` opened nothing since `s`. */
  ghost predicate NothingOpened(s: State, s': State)
  {
    s'.ledger.openEntries == s.ledger.openEntries && |s'.positions| <= |s.positions| && s'.lastSeq == s.lastSeq
  }

  lemma {:induction false} ExitsOnlyClose(cfg: Config, lags: map<SymbolId, Entry.LagState>, pkt: Packet, now: nat,
                                          positions: seq<Position>, ledger: Ledger.Account, n: nat)
    requires n <= |positions|
    ensures var (kept, book) := Exits(cfg, lags, pkt, now, positions, ledger, n);
            |kept| <= n && book.openEntries == ledger.openEntries
  {
    if n > 0 {
      ExitsOnlyClose(cfg, lags, pkt, now, positions, ledger, n - 1);
    }
  }

  lemma {:induction false} FlattenOnlyCloses(cfg: Config, lags: map<SymbolId, Entry.LagState>,
                                             positions: seq<Position>, ledger: Ledger.Account, n: nat)
    requires n <= |positions|
    ensures Flattened(cfg, lags, positions, ledger, n).openEntries == ledger.openEntries
  {
    if n > 0 {
      FlattenOnlyCloses(cfg, lags, positions, ledger, n - 1);
    }
  }

  lemma BlockedTickOpensNothing(cfg: Config, s: State, t: Entry.Tick, root: real, c: Clocks)
    requires EntriesBlocked(s)
    ensures NothingOpened(s, OnTick(cfg, s, t, root, c))
  {
    var s1 := Prepared(s, t, c);
    ExitsOnlyClose(cfg, s1.lags, PacketOf(cfg, s1, t, root, c), c.exit, s1.positions, s1.ledger,
                   |s1.positions|);
  }

  lemma TimerOpensNothing(cfg: Config, s: State, at: nat)
    ensures NothingOpened(s, OnTimer(cfg, s, at))
  {
    MissFrame(cfg, s, at);
    FlattenOnlyCloses(cfg, s.lags, s.positions, s.ledger, |s.positions|);
  }

  lemma HaltedStep(cfg: Config, s: State, e: Event)
    requires s.operatorHalt && !IsResume(e)
    ensures var s' := Step(cfg, s, e); s'.operatorHalt && NothingOpened(s, s')
  {
    HaltSurvives(cfg, s, e);
    match e
    case BinanceTick(t, root, c) => BlockedTickOpensNothing(cfg, s, t, root, c);
    case Timer(at) => TimerOpensNothing(cfg, s, at);
    case _ => OnlyTicksAndTimersTrade(cfg, s, e);
  }

  lemma HaltSurvives(cfg: Config, s: State, e: Event)
    requires s.operatorHalt && !IsResume(e)
    ensures Step(cfg, s, e).operatorHalt
  {
    match e
    case BinanceTick(t, root, c) => TickLeavesHaltsAlone(cfg, s, t, root, c);
    case Timer(at) => FlattenLeavesHaltsAlone(cfg, MissCounted(cfg, s, at));
    case _ =>
  }

  /** A halt holds: from an operator halt until the next trusted resume no
      sequence of events opens a position or consumes a sequence number,
      whatever safe mode, heartbeats and the background tasks do. */
  lemma {:induction false} HaltHolds(cfg: Config, s: State, es: seq<Event>)
    requires s.operatorHalt && forall i | 0 <= i < |es| :: !IsResume(es[i])
    ensures var s' := Run(cfg, s, es); s'.operatorHalt && NothingOpened(s, s')
    decreases |es|
  {
    if es != [] {
      HaltedStep(cfg, s, es[0]);
      HaltHolds(cfg, Step(cfg, s, es[0]), es[1..]);
    }
  }

  /** The same, from the command that starts the halt. */
  lemma HaltCommandHolds(cfg: Config, s: State, action: Action, es: seq<Event>)
    requires (action == HaltEntries || action == FlattenAll)
    requires forall i | 0 <= i < |es| :: !IsResume(es[i])
    ensures NothingOpened(s, Run(cfg, s, [Command(true, action)] + es))
  {
    var first := Command(true, action);
    assert ([first] + es)[1..] == es;
    HaltHolds(cfg, Step(cfg, s, first), es);
  }

  /** The trusted sources are the panel, Telegram and the command line, each
      spelled in any letter case. */
  lemma TrustedExactly(source: string)
    ensures Trusted(source) <==> Spells(source, "panel") || Spells(source, "telegram") || Spells(source, "cli")
  {
    LowersExactly(source, "panel");
    LowersExactly(source, "telegram");
    LowersExactly(source, "cli");
  }

  predicate Spells(s: string, word: string)
  {
    |s| == |word| && forall i | 0 <= i < |s| :: s[i] == word[i] || s[i] as int == word[i] as int - 32
  }

  /** Commands from anywhere else change nothing, so a run and the same run
      without them end in the same state. */
  lemma {:induction false} UntrustedCommandsAreInvisible(cfg: Config, s: State, es: seq<Event>)
    ensures Run(cfg, s, es) == Run(cfg, s, WithoutUntrusted(es))
    decreases |es|
  {
    if es != [] {
      var rest := WithoutUntrusted(es[1..]);
      UntrustedCommandsAreInvisible(cfg, Step(cfg, s, es[0]), es[1..]);
      assert ([es[0]] + rest)[1..] == rest;
    }
  }

  function WithoutUntrusted(es: seq<Event>): seq<Event>
  {
    if es == [] then []
    else
      var rest := WithoutUntrusted(es[1..]);
      if es[0].Command? && !es[0].trusted then rest else [es[0]] + rest
  }

  // ------------------------------------------------------------------
  // Drawdown lockout
  // ------------------------------------------------------------------

  /** Flat, with the refreshed day PnL at or below the limit. */
  ghost predicate LockedOut(cfg: Config, s: State)
  {
    && s.positions == []
    && s.flags == ComputeFlags(s.warm)
    && s.warm.dayPnlPct == DayPnl(cfg, s.ledger)
    && s.warm.DrawdownHit()
  }

  lemma LockedTick(cfg: Config, s: State, t: Entry.Tick, root: real, c: Clocks)
    requires LockedOut(cfg, s)
    ensures var s' := OnTick(cfg, s, t, root, c); LockedOut(cfg, s') && s'.ledger == s.ledger
  {
    TickLeavesHaltsAlone(cfg, s, t, root, c);
    FlagsMeanGuards(s.warm);
  }

  lemma LockedTimer(cfg: Config, s: State, at: nat)
    requires LockedOut(cfg, s)
    ensures var s' := OnTimer(cfg, s, at); LockedOut(cfg, s') && s'.ledger == s.ledger
  {
  }

  lemma LockedCommand(cfg: Config, s: State, trusted: bool, action: Action)
    requires LockedOut(cfg, s)
    ensures LockedOut(cfg, OnCommand(s, trusted, action))
  {
  }

  lemma LockedBybit(cfg: Config, s: State, id: SymbolId, known: bool, mid: real, depth: real, at: nat)
    requires LockedOut(cfg, s)
    ensures LockedOut(cfg, OnBybitMid(s, id, known, mid, depth, at))
  {
  }

  lemma LockedStep(cfg: Config, s: State, e: Event)
    requires LockedOut(cfg, s)
    ensures var s' := Step(cfg, s, e); LockedOut(cfg, s') && s'.ledger == s.ledger
  {
    match e
    case BinanceTick(t, root, c) => LockedTick(cfg, s, t, root, c);
    case Timer(at) => LockedTimer(cfg, s, at);
    case Command(trusted, action) => LockedCommand(cfg, s, trusted, action); CommandFrame(s, trusted, action);
    case BybitMid(id, mid, depth, at) =>
      LockedBybit(cfg, s, id, id in cfg.idToBybit, mid, depth, at);
      BybitFrame(s, id, id in cfg.idToBybit, mid, depth, at);
    case Heartbeat(at) => assert LockedOut(cfg, OnHeartbeat(cfg, s, at));
    case Funding(rate) => assert LockedOut(cfg, OnFunding(s, rate));
  }

  /** The lockout is absorbing: no later events of any kind, resume commands
      and recovering markets included, open a position or touch the ledger. */
  lemma {:induction false} LockoutIsAbsorbing(cfg: Config, s: State, es: seq<Event>)
    requires LockedOut(cfg, s)
    ensures var s' := Run(cfg, s, es); LockedOut(cfg, s') && s'.ledger == s.ledger && s'.positions == []
    decreases |es|
  {
    if es != [] {
      LockedStep(cfg, s, es[0]);
      LockoutIsAbsorbing(cfg, Step(cfg, s, es[0]), es[1..]);
    }
  }

  /** When it begins: a heartbeat on a flat executor locks it out for good
      exactly when the realized loss has reached the limit's share of the deposit
      (without a deposit, when the limit allows no even day). */
  lemma HeartbeatLocksExactly(cfg: Config, s: State, at: nat)
    requires s.positions == []
    ensures LockedOut(cfg, OnHeartbeat(cfg, s, at)) <==>
            if cfg.deposit > 0.0 then s.ledger.realized <= -Times(s.warm.maxDailyDd, cfg.deposit)
            else s.warm.maxDailyDd <= 0.0
  {
    if cfg.deposit > 0.0 {
      LossAgainst(s.ledger.realized, cfg.deposit, s.warm.maxDailyDd);
    }
  }

  lemma LossAgainst(made: real, deposit: real, limit: real)
    requires deposit > 0.0
    ensures made / deposit <= -limit <==> made <= -Times(limit, deposit)
  {
    DivMul(made, deposit);
    SignOfProduct(deposit, made / deposit + limit);
    assert deposit * (made / deposit + limit) == made + Times(limit, deposit);
  }

  // ------------------------------------------------------------------
  // Until a refresh, losses do not count
  // ------------------------------------------------------------------

  ghost predicate SameButLedger(s1: State, s2: State) { s1.(ledger := s2.ledger) == s2 }

  lemma {:induction false} ExitsIgnoreLedger(cfg: Config, lags: map<SymbolId, Entry.LagState>, pkt: Packet, now: nat,
                                             positions: seq<Position>, l1: Ledger.Account, l2: Ledger.Account, n: nat)
    requires n <= |positions|
    ensures Exits(cfg, lags, pkt, now, positions, l1, n).0 == Exits(cfg, lags, pkt, now, positions, l2, n).0
  {
    if n > 0 {
      ExitsIgnoreLedger(cfg, lags, pkt, now, positions, l1, l2, n - 1);
    }
  }

  lemma ExitedIgnoresLedger(cfg: Config, s1: State, s2: State, pkt: Packet, now: nat)
    requires SameButLedger(s1, s2)
    ensures SameButLedger(Exited(cfg, s1, pkt, now), Exited(cfg, s2, pkt, now))
  {
    ExitsIgnoreLedger(cfg, s1.lags, pkt, now, s1.positions, s1.ledger, s2.ledger, |s1.positions|);
  }

  lemma OpenedIgnoresLedger(cfg: Config, s1: State, s2: State, pkt: Packet, c: Clocks)
    requires SameButLedger(s1, s2) && pkt.symbolId in cfg.idToBybit
    ensures SameButLedger(Opened(cfg, s1, pkt, c), Opened(cfg, s2, pkt, c))
  {
  }

  lemma EnteredIgnoresLedger(cfg: Config, s1: State, s2: State, pkt: Packet, c: Clocks)
    requires SameButLedger(s1, s2)
    ensures SameButLedger(Entered(cfg, s1, pkt, c), Entered(cfg, s2, pkt, c))
  {
    if Opens(cfg, s1, pkt, c.entry) {
      OpenedIgnoresLedger(cfg, Admitted(cfg, s1, pkt, c.entry), Admitted(cfg, s2, pkt, c.entry), pkt, c);
    }
  }

  lemma TickIgnoresLedger(cfg: Config, s1: State, s2: State, t: Entry.Tick, root: real, c: Clocks)
    requires SameButLedger(s1, s2)
    ensures SameButLedger(OnTick(cfg, s1, t, root, c), OnTick(cfg, s2, t, root, c))
  {
    var p1, p2 := Prepared(s1, t, c), Prepared(s2, t, c);
    assert SameButLedger(p1, p2);
    var pkt := PacketOf(cfg, p1, t, root, c);
    assert pkt == PacketOf(cfg, p2, t, root, c);
    ExitedIgnoresLedger(cfg, p1, p2, pkt, c.exit);
    EnteredIgnoresLedger(cfg, Exited(cfg, p1, pkt, c.exit), Exited(cfg, p2, pkt, c.exit), pkt, c);
  }

  /** Events that do not copy the ledger's PnL into the warm state. */
  predicate NoRefresh(cfg: Config, lastHb: nat, e: Event)
  {
    !e.Heartbeat? && (e.Timer? ==> SatSub(e.at, lastHb) <= cfg.heartbeatTimeoutNs)
  }

  lemma TimerIgnoresLedger(cfg: Config, s1: State, s2: State, at: nat)
    requires SameButLedger(s1, s2) && !HeartbeatLate(cfg, s1, at)
    ensures SameButLedger(OnTimer(cfg, s1, at), OnTimer(cfg, s2, at)) && OnTimer(cfg, s1, at).lastHb == s1.lastHb
  {
  }

  lemma CommandIgnoresLedger(s1: State, s2: State, trusted: bool, action: Action)
    requires SameButLedger(s1, s2)
    ensures var n1 := OnCommand(s1, trusted, action);
            SameButLedger(n1, OnCommand(s2, trusted, action)) && n1.lastHb == s1.lastHb
  {
  }

  lemma DepthIgnoresLedger(s1: State, s2: State, id: SymbolId, depth: real)
    requires SameButLedger(s1, s2)
    ensures SameButLedger(DepthSeen(s1, id, depth), DepthSeen(s2, id, depth)) && DepthSeen(s1, id, depth).lastHb == s1.lastHb
  {
  }

  lemma BybitIgnoresLedger(s1: State, s2: State, id: SymbolId, known: bool, mid: real, depth: real, at: nat)
    requires SameButLedger(s1, s2)
    ensures var n1 := OnBybitMid(s1, id, known, mid, depth, at);
            SameButLedger(n1, OnBybitMid(s2, id, known, mid, depth, at)) && n1.lastHb == s1.lastHb
  {
    var m1, m2 := MidSeen(s1, id, mid, at), MidSeen(s2, id, mid, at);
    assert SameButLedger(m1, m2);
    DepthIgnoresLedger(m1, m2, id, depth);
  }

  lemma StepIgnoresLedger(cfg: Config, s1: State, s2: State, e: Event)
    requires SameButLedger(s1, s2) && NoRefresh(cfg, s1.lastHb, e)
    ensures SameButLedger(Step(cfg, s1, e), Step(cfg, s2, e)) && Step(cfg, s1, e).lastHb == s1.lastHb
  {
    match e
    case BinanceTick(t, root, c) =>
      TickIgnoresLedger(cfg, s1, s2, t, root, c);
      TickLeavesHaltsAlone(cfg, s1, t, root, c);
    case Timer(at) => TimerIgnoresLedger(cfg, s1, s2, at);
    case Command(trusted, action) => CommandIgnoresLedger(s1, s2, trusted, action);
    case BybitMid(id, mid, depth, at) => BybitIgnoresLedger(s1, s2, id, id in cfg.idToBybit, mid, depth, at);
    case Funding(rate) => assert SameButLedger(OnFunding(s1, rate), OnFunding(s2, rate));
  }

  /** Between refreshes trading does not look at the ledger: two executors that
      differ only in their profit and loss take the same decisions through any
      sequence of ticks, commands, early timers and feed updates. A loss past
      the limit stops entries only at the next heartbeat or missed heartbeat. */
  lemma {:induction false} LossesWaitForRefresh(cfg: Config, s1: State, s2: State, es: seq<Event>)
    requires SameButLedger(s1, s2) && forall i | 0 <= i < |es| :: NoRefresh(cfg, s1.lastHb, es[i])
    ensures SameButLedger(Run(cfg, s1, es), Run(cfg, s2, es))
    decreases |es|
  {
    if es != [] {
      StepIgnoresLedger(cfg, s1, s2, es[0]);
      LossesWaitForRefresh(cfg, Step(cfg, s1, es[0]), Step(cfg, s2, es[0]), es[1..]);
    }
  }

  // ------------------------------------------------------------------
  // A flatten request waits for a position
  // ------------------------------------------------------------------

  lemma FlattenRequestStep(cfg: Config, s: State, e: Event)
    requires s.flattenRequest && !e.Timer?
    ensures Step(cfg, s, e).flattenRequest
  {
    match e
    case BinanceTick(t, root, c) => TickLeavesHaltsAlone(cfg, s, t, root, c);
    case _ =>
  }

  /** Flatten is sticky: after a trusted FlattenAll, whatever ticks and commands
      come before the next timer, resume included, that timer leaves nothing
      open, even a position opened after the resume. */
  lemma {:induction false} FlattenClosesLaterEntries(cfg: Config, s: State, es: seq<Event>, at: nat)
    requires s.flattenRequest && forall i | 0 <= i < |es| :: !es[i].Timer?
    ensures OnTimer(cfg, Run(cfg, s, es), at).positions == []
    decreases |es|
  {
    if es != [] {
      FlattenRequestStep(cfg, s, es[0]);
      FlattenClosesLaterEntries(cfg, Step(cfg, s, es[0]), es[1..], at);
    }
  }

  /** And it survives timers that find nothing to close. */
  lemma {:induction false} FlattenWaitsForAPosition(cfg: Config, s: State, timers: seq<nat>)
    requires s.flattenRequest && s.positions == []
    ensures var s' := Run(cfg, s, seq(|timers|, i requires 0 <= i < |timers| => Timer(timers[i])));
            s'.flattenRequest && s'.positions == []
    decreases |timers|
  {
    var es := seq(|timers|, i requires 0 <= i < |timers| => Timer(timers[i]));
    if timers != [] {
      var rest := seq(|timers| - 1, i requires 0 <= i < |timers| - 1 => Timer(timers[1..][i]));
      assert es[1..] == rest;
      FlattenWaitsForAPosition(cfg, OnTimer(cfg, s, timers[0]), timers[1..]);
    }
  }
}
