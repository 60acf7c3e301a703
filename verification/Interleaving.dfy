/** The main loop, the Bybit task and the funding task at the grain of single
    lock, write, publish and load operations: every interleaving behaves as the
    atomic steps of the executor model, up to the one known gap. */
module Interleaving {
  import opened Numerics
  import opened Risk
  import opened SafeModes
  import Executor
  import Halts
  import Entry

  /** Everything the warm path shares or derives halts from. Only the main loop
      touches the last two. */
  datatype Shared = Shared(warm: Warm, flags: Flags, operatorHalt: bool, safe: SafeState)

  datatype Thread = Main | BybitTask | FundingTask

  /** What a thread is in the middle of. */
  datatype Section =
    | Halting
    | Resuming
    | Beating(dayPnl: real)
    | Missing(dayPnl: real)
    | StopFailed
    | Ticking
    | Depth(usd: real)
    | Rate(funding: real)

  datatype Op =
    | SetOperatorHalt(halt: bool)
    | CountBeat
    | CountMiss
    | Lock
    | HaltWarm
    | HaltWarmIfSafeMode
    | HaltWarmIfAny
    | SetDayPnl(pnl: real)
    | SetDepth(usd: real)
    | SetFunding(funding: real)
    | ReadHalted
    | Publish
    | Unlock
    | ReadFlags

  /** The operations of each section, in program order. A failed stop order
      takes the lock twice, once to halt and once to publish; a tick looks at
      the halt twice under the lock and at the published word without it. */
  function OpAt(s: Section, pc: nat): Op
    requires pc < Length(s)
  {
    match s
    case Halting => HaltingOp(true, HaltWarm, pc)
    case Resuming => HaltingOp(false, HaltWarmIfSafeMode, pc)
    case Beating(x) => RefreshOp(CountBeat, x, pc)
    case Missing(x) => RefreshOp(CountMiss, x, pc)
    case StopFailed =>
      if pc == 0 then SetOperatorHalt(true) else if pc == 1 then Lock else if pc == 2 then HaltWarm else if pc == 3 then Unlock
      else if pc == 4 then Lock else if pc == 5 then Publish else Unlock
    case Ticking =>
      if pc == 0 || pc == 3 then Lock else if pc == 1 || pc == 4 then ReadHalted else if pc == 2 || pc == 5 then Unlock
      else ReadFlags
    case Depth(x) => if pc == 0 then Lock else if pc == 1 then SetDepth(x) else if pc == 2 then Publish else Unlock
    case Rate(x) => if pc == 0 then Lock else if pc == 1 then SetFunding(x) else if pc == 2 then Publish else Unlock
  }

  function HaltingOp(halt: bool, write: Op, pc: nat): Op
  {
    if pc == 0 then SetOperatorHalt(halt) else if pc == 1 then Lock else if pc == 2 then write else if pc == 3 then Publish else Unlock
  }

  function RefreshOp(count: Op, x: real, pc: nat): Op
  {
    if pc == 0 then count else if pc == 1 then Lock else if pc == 2 then HaltWarmIfAny
    else if pc == 3 then SetDayPnl(x) else if pc == 4 then Publish else Unlock
  }

  function Length(s: Section): nat
  {
    match s
    case Halting => 5
    case Resuming => 5
    case Beating(_) => 6
    case Missing(_) => 6
    case StopFailed => 7
    case Ticking => 7
    case Depth(_) => 4
    case Rate(_) => 4
  }

  /** Which thread runs which sections. */
  predicate Owns(t: Thread, s: Section)
  {
    match s
    case Depth(_) => t == BybitTask
    case Rate(_) => t == FundingTask
    case _ => t == Main
  }

  function Effect(op: Op, sh: Shared): Shared
  {
    match op
    case SetOperatorHalt(b) => sh.(operatorHalt := b)
    case CountBeat => sh.(safe := sh.safe.Heartbeat())
    case CountMiss => sh.(safe := sh.safe.Miss())
    case HaltWarm => sh.(warm := sh.warm.(entriesHalted := true))
    case HaltWarmIfSafeMode => sh.(warm := sh.warm.(entriesHalted := sh.safe.HaltEntries()))
    case HaltWarmIfAny => sh.(warm := sh.warm.(entriesHalted := sh.operatorHalt || sh.safe.HaltEntries()))
    case SetDayPnl(x) => sh.(warm := sh.warm.(dayPnlPct := x))
    case SetDepth(x) => sh.(warm := sh.warm.(bookDepthUsd := x))
    case SetFunding(x) => sh.(warm := sh.warm.(fundingRate := x))
    case Publish => sh.(flags := ComputeFlags(sh.warm))
    case _ => sh
  }

  /** A section run without interruption. */
  function Atomic(sh: Shared, s: Section): Shared
  {
    match s
    case Halting => Republished(sh.(operatorHalt := true), sh.warm.(entriesHalted := true))
    case StopFailed => Republished(sh.(operatorHalt := true), sh.warm.(entriesHalted := true))
    case Resuming => Republished(sh.(operatorHalt := false), sh.warm.(entriesHalted := sh.safe.HaltEntries()))
    case Beating(x) => Refreshed(sh.(safe := sh.safe.Heartbeat()), x)
    case Missing(x) => Refreshed(sh.(safe := sh.safe.Miss()), x)
    case Ticking => sh
    case Depth(x) => Republished(sh, sh.warm.(bookDepthUsd := x))
    case Rate(x) => Republished(sh, sh.warm.(fundingRate := x))
  }

  function Republished(sh: Shared, w: Warm): Shared { sh.(warm := w, flags := ComputeFlags(w)) }

  function Refreshed(sh: Shared, x: real): Shared
  {
    Republished(sh, sh.warm.(entriesHalted := sh.operatorHalt || sh.safe.HaltEntries(), dayPnlPct := x))
  }

  function AtomicRun(sh: Shared, done: seq<Section>, n: nat := |done|): Shared
    requires n <= |done|
    decreases n
  {
    if n == 0 then sh else Atomic(AtomicRun(sh, done, n - 1), done[n - 1])
  }

  // ------------------------------------------------------------------
  // The interleaved system
  // ------------------------------------------------------------------

  datatype Proc = Idle | Busy(section: Section, pc: nat)

  /** `abs` and `done` record the atomic execution the system has committed to;
      no operation reads them. */
  datatype Sys = Sys(shared: Shared, holder: Option<Thread>, main: Proc, bybit: Proc, funding: Proc,
                     abs: Shared, done: seq<Section>)

  function ProcOf(sys: Sys, t: Thread): Proc
  {
    match t
    case Main => sys.main
    case BybitTask => sys.bybit
    case FundingTask => sys.funding
  }

  function WithProc(sys: Sys, t: Thread, p: Proc): Sys
  {
    match t
    case Main => sys.(main := p)
    case BybitTask => sys.(bybit := p)
    case FundingTask => sys.(funding := p)
  }

  function Start(sh: Shared): Sys { Sys(sh, None, Idle, Idle, Idle, sh, []) }

  datatype Move = Begin(t: Thread, section: Section) | Advance(t: Thread)

  predicate Enabled(sys: Sys, m: Move)
  {
    match m
    case Begin(t, s) => ProcOf(sys, t) == Idle && Owns(t, s)
    case Advance(t) =>
      var p := ProcOf(sys, t);
      p.Busy? && p.pc < Length(p.section) && (OpAt(p.section, p.pc) == Lock ==> sys.holder == None)
  }

  /** The operation at which a section takes its place in the atomic order. */
  function CommitAt(s: Section): nat
  {
    match s
    case Beating(_) => 4
    case Missing(_) => 4
    case Ticking => 6
    case Depth(_) => 2
    case Rate(_) => 2
    case _ => 3
  }

  function Next(sys: Sys, m: Move): Sys
    requires Enabled(sys, m)
  {
    match m
    case Begin(t, s) => WithProc(sys, t, Busy(s, 0))
    case Advance(t) =>
      var p := ProcOf(sys, t);
      var op := OpAt(p.section, p.pc);
      var moved := WithProc(sys, t, if p.pc + 1 == Length(p.section) then Idle else Busy(p.section, p.pc + 1));
      var held := moved.(shared := Effect(op, sys.shared),
                         holder := if op == Lock then Some(t) else if op == Unlock then None else sys.holder);
      if p.pc == CommitAt(p.section)
      then held.(abs := Atomic(sys.abs, p.section), done := sys.done + [p.section])
      else held
  }

  ghost predicate Execution(sys: Sys, moves: seq<Move>, sys': Sys)
    decreases |moves|
  {
    if |moves| == 0 then sys' == sys
    else Enabled(sys, moves[0]) && Execution(Next(sys, moves[0]), moves[1..], sys')
  }

  // ------------------------------------------------------------------
  // The link between the two
  // ------------------------------------------------------------------

  predicate Holds(p: Proc)
  {
    p.Busy? &&
    match p.section
    case Halting => 2 <= p.pc <= 4
    case Resuming => 2 <= p.pc <= 4
    case Beating(_) => 2 <= p.pc <= 5
    case Missing(_) => 2 <= p.pc <= 5
    case StopFailed => 2 <= p.pc <= 3 || 5 <= p.pc <= 6
    case Ticking => 1 <= p.pc <= 2 || 4 <= p.pc <= 5
    case Depth(_) => 1 <= p.pc <= 3
    case Rate(_) => 1 <= p.pc <= 3
  }

  /** Halted but not yet published, between the two locks of a failed stop. */
  predicate InGap(main: Proc) { main.Busy? && main.section == StopFailed && 4 <= main.pc <= 5 }

  /** Operator halt and safe mode as the main loop sees them: ahead of the
      committed ones between its first write and its commit. */
  function LocalNow(abs: Shared, main: Proc): (bool, SafeState)
  {
    if main.Busy? && 1 <= main.pc <= CommitAt(main.section) then
      match main.section
      case Halting => (true, abs.safe)
      case StopFailed => (true, abs.safe)
      case Resuming => (false, abs.safe)
      case Beating(_) => (abs.operatorHalt, abs.safe.Heartbeat())
      case Missing(_) => (abs.operatorHalt, abs.safe.Miss())
      case _ => (abs.operatorHalt, abs.safe)
    else (abs.operatorHalt, abs.safe)
  }

  /** The committed warm state plus the writes a main loop that holds the lock
      has made so far. */
  function MainWarm(abs: Shared, main: Proc): Warm
    requires main.Busy?
  {
    var w := abs.warm;
    var (halt, safe) := LocalNow(abs, main);
    match main.section
    case Halting => if main.pc == 3 then w.(entriesHalted := true) else w
    case StopFailed => if main.pc == 3 then w.(entriesHalted := true) else w
    case Resuming => if main.pc == 3 then w.(entriesHalted := safe.HaltEntries()) else w
    case Beating(x) => RefreshWarm(w, halt || safe.HaltEntries(), x, main.pc)
    case Missing(x) => RefreshWarm(w, halt || safe.HaltEntries(), x, main.pc)
    case _ => w
  }

  function RefreshWarm(w: Warm, halted: bool, x: real, pc: nat): Warm
  {
    if pc == 3 then w.(entriesHalted := halted)
    else if pc == 4 then w.(entriesHalted := halted, dayPnlPct := x)
    else w
  }

  function WarmNow(sys: Sys): Warm
  {
    if Holds(sys.main) then MainWarm(sys.abs, sys.main)
    else if sys.bybit.Busy? && sys.bybit.section.Depth? && sys.bybit.pc == 2
    then sys.abs.warm.(bookDepthUsd := sys.bybit.section.usd)
    else if sys.funding.Busy? && sys.funding.section.Rate? && sys.funding.pc == 2
    then sys.abs.warm.(fundingRate := sys.funding.section.funding)
    else sys.abs.warm
  }

  ghost predicate Coherent(sh: Shared)
  {
    sh.flags == ComputeFlags(sh.warm) && sh.warm.entriesHalted == (sh.operatorHalt || sh.safe.HaltEntries())
  }

  ghost predicate Placed(t: Thread, p: Proc)
  {
    p.Busy? ==> Owns(t, p.section) && p.pc < Length(p.section)
  }

  /** Program counters, lock and memory agree with the committed state. */
  ghost predicate Synced(sys: Sys)
  {
    && Placed(Main, sys.main) && Placed(BybitTask, sys.bybit) && Placed(FundingTask, sys.funding)
    && (sys.holder == Some(Main) <==> Holds(sys.main))
    && (sys.holder == Some(BybitTask) <==> Holds(sys.bybit))
    && (sys.holder == Some(FundingTask) <==> Holds(sys.funding))
    && sys.shared.warm == WarmNow(sys)
    && sys.shared.operatorHalt == LocalNow(sys.abs, sys.main).0
    && sys.shared.safe == LocalNow(sys.abs, sys.main).1
    && (!InGap(sys.main) ==> sys.shared.flags == sys.abs.flags)
  }

  ghost predicate Linked(sys: Sys) { Synced(sys) && Coherent(sys.abs) }

  lemma AtomicKeepsCoherent(sh: Shared, s: Section)
    requires Coherent(sh)
    ensures Coherent(Atomic(sh, s))
  {
  }

  lemma MoveKeepsCoherent(sys: Sys, m: Move)
    requires Coherent(sys.abs) && Enabled(sys, m)
    ensures Coherent(Next(sys, m).abs)
  {
    if m.Advance? {
      AtomicKeepsCoherent(sys.abs, ProcOf(sys, m.t).section);
    }
  }

  lemma BeginKeepsSynced(sys: Sys, t: Thread, s: Section)
    requires Synced(sys) && Enabled(sys, Begin(t, s))
    ensures Synced(Next(sys, Begin(t, s)))
  {
  }

  lemma HaltingAdvance(sys: Sys)
    requires Synced(sys) && Enabled(sys, Advance(Main)) && sys.main.section == Halting
    ensures Synced(Next(sys, Advance(Main)))
  {
  }

  lemma ResumingAdvance(sys: Sys)
    requires Synced(sys) && Enabled(sys, Advance(Main)) && sys.main.section == Resuming
    ensures Synced(Next(sys, Advance(Main)))
  {
  }

  lemma BeatStarts(sys: Sys)
    requires Synced(sys) && Enabled(sys, Advance(Main)) && sys.main.section.Beating? && sys.main.pc < 3
    ensures Synced(Next(sys, Advance(Main)))
  {
  }

  lemma BeatEnds(sys: Sys)
    requires Synced(sys) && Enabled(sys, Advance(Main)) && sys.main.section.Beating? && sys.main.pc >= 3
    ensures Synced(Next(sys, Advance(Main)))
  {
  }

  lemma MissStarts(sys: Sys)
    requires Synced(sys) && Enabled(sys, Advance(Main)) && sys.main.section.Missing? && sys.main.pc < 3
    ensures Synced(Next(sys, Advance(Main)))
  {
  }

  lemma MissEnds(sys: Sys)
    requires Synced(sys) && Enabled(sys, Advance(Main)) && sys.main.section.Missing? && sys.main.pc >= 3
    ensures Synced(Next(sys, Advance(Main)))
  {
  }

  lemma StopHalts(sys: Sys)
    requires Linked(sys) && Enabled(sys, Advance(Main)) && sys.main.section == StopFailed && sys.main.pc < 4
    ensures Synced(Next(sys, Advance(Main)))
  {
  }

  lemma StopPublishes(sys: Sys)
    requires Linked(sys) && Enabled(sys, Advance(Main)) && sys.main.section == StopFailed && sys.main.pc >= 4
    ensures Synced(Next(sys, Advance(Main)))
  {
  }

  lemma TickingStarts(sys: Sys)
    requires Synced(sys) && Enabled(sys, Advance(Main)) && sys.main.section == Ticking && sys.main.pc < 3
    ensures Synced(Next(sys, Advance(Main)))
  {
  }

  lemma TickingEnds(sys: Sys)
    requires Synced(sys) && Enabled(sys, Advance(Main)) && sys.main.section == Ticking && sys.main.pc >= 3
    ensures Synced(Next(sys, Advance(Main)))
  {
  }

  lemma BybitStarts(sys: Sys)
    requires Synced(sys) && Enabled(sys, Advance(BybitTask)) && sys.bybit.pc < 2
    ensures Synced(Next(sys, Advance(BybitTask)))
  {
  }

  lemma BybitEnds(sys: Sys)
    requires Synced(sys) && Enabled(sys, Advance(BybitTask)) && sys.bybit.pc >= 2
    ensures Synced(Next(sys, Advance(BybitTask)))
  {
  }

  lemma FundingStarts(sys: Sys)
    requires Synced(sys) && Enabled(sys, Advance(FundingTask)) && sys.funding.pc < 2
    ensures Synced(Next(sys, Advance(FundingTask)))
  {
  }

  lemma FundingEnds(sys: Sys)
    requires Synced(sys) && Enabled(sys, Advance(FundingTask)) && sys.funding.pc >= 2
    ensures Synced(Next(sys, Advance(FundingTask)))
  {
  }

  lemma MainAdvance(sys: Sys)
    requires Linked(sys) && Enabled(sys, Advance(Main))
    ensures Synced(Next(sys, Advance(Main)))
  {
    match sys.main.section
    case Halting => HaltingAdvance(sys);
    case Resuming => ResumingAdvance(sys);
    case Beating(_) => if sys.main.pc < 3 { BeatStarts(sys); } else { BeatEnds(sys); }
    case Missing(_) => if sys.main.pc < 3 { MissStarts(sys); } else { MissEnds(sys); }
    case StopFailed => if sys.main.pc < 4 { StopHalts(sys); } else { StopPublishes(sys); }
    case Ticking => if sys.main.pc < 3 { TickingStarts(sys); } else { TickingEnds(sys); }
  }

  lemma MoveKeepsLinked(sys: Sys, m: Move)
    requires Linked(sys) && Enabled(sys, m)
    ensures Linked(Next(sys, m))
  {
    MoveKeepsCoherent(sys, m);
    match m
    case Begin(t, s) => BeginKeepsSynced(sys, t, s);
    case Advance(t) =>
      match t {
        case Main => MainAdvance(sys);
        case BybitTask => if sys.bybit.pc < 2 { BybitStarts(sys); } else { BybitEnds(sys); }
        case FundingTask => if sys.funding.pc < 2 { FundingStarts(sys); } else { FundingEnds(sys); }
      }
  }

  /** `abs` is the atomic execution of the committed sections in commit order. */
  ghost predicate Replays(start: Shared, sys: Sys) { sys.abs == AtomicRun(start, sys.done) }

  lemma {:induction false} AtomicRunHead(sh: Shared, first: seq<Section>, rest: seq<Section>, n: nat)
    requires n <= |first|
    ensures AtomicRun(sh, first + rest, n) == AtomicRun(sh, first, n)
  {
    if n > 0 {
      AtomicRunHead(sh, first, rest, n - 1);
    }
  }

  lemma MoveKeepsReplay(start: Shared, sys: Sys, m: Move)
    requires Replays(start, sys) && Enabled(sys, m)
    ensures Replays(start, Next(sys, m))
  {
    if m.Advance? {
      var p, sys' := ProcOf(sys, m.t), Next(sys, m);
      if p.pc == CommitAt(p.section) {
        assert sys'.done == sys.done + [p.section] && sys'.abs == Atomic(sys.abs, p.section);
        AtomicRunHead(start, sys.done, [p.section], |sys.done|);
      } else {
        assert sys'.done == sys.done && sys'.abs == sys.abs;
      }
    }
  }

  lemma {:induction false} ExecutionKeepsLinked(start: Shared, sys: Sys, moves: seq<Move>, sys': Sys)
    requires Linked(sys) && Replays(start, sys) && Execution(sys, moves, sys')
    ensures Linked(sys') && Replays(start, sys')
    decreases |moves|
  {
    if |moves| > 0 {
      MoveKeepsLinked(sys, moves[0]);
      MoveKeepsReplay(start, sys, moves[0]);
      ExecutionKeepsLinked(start, Next(sys, moves[0]), moves[1..], sys');
    }
  }

  lemma Reached(start: Shared, moves: seq<Move>, sys: Sys)
    requires Coherent(start) && Execution(Start(start), moves, sys)
    ensures Linked(sys) && Replays(start, sys)
  {
    ExecutionKeepsLinked(start, Start(start), moves, sys);
  }

  // ------------------------------------------------------------------
  // What every interleaving guarantees
  // ------------------------------------------------------------------

  /** Coherence: in every interleaving, whenever the warm lock is free and no
      failed stop is between its two locks, the published word is the one the
      warm state stands for; and whenever the main loop is at its head, the
      warm halt is exactly the operator's or safe mode's. */
  lemma InterleavingsStayCoherent(start: Shared, moves: seq<Move>, sys: Sys)
    requires Coherent(start) && Execution(Start(start), moves, sys)
    ensures sys.holder == None && sys.main != Busy(StopFailed, 4) ==> sys.shared.flags == ComputeFlags(sys.shared.warm)
    ensures sys.main == Idle ==>
              sys.shared.warm.entriesHalted == (sys.shared.operatorHalt || sys.shared.safe.HaltEntries())
  {
    Reached(start, moves, sys);
  }

  /** Atomicity: when every thread is idle the shared state is what running the
      same sections one after another, in commit order, would have left. */
  lemma InterleavingsAreSerializable(start: Shared, moves: seq<Move>, sys: Sys)
    requires Coherent(start) && Execution(Start(start), moves, sys)
    requires sys.main == Idle && sys.bybit == Idle && sys.funding == Idle
    ensures sys.shared == AtomicRun(start, sys.done)
  {
    Reached(start, moves, sys);
  }

  /** What a tick reads, under the lock or without it, is what the atomic
      execution holds at that moment: no tick sees a half-made update. */
  lemma TicksReadCommittedState(start: Shared, moves: seq<Move>, sys: Sys)
    requires Coherent(start) && Execution(Start(start), moves, sys)
    requires sys.main.Busy? && sys.main.section == Ticking
    ensures var abs := AtomicRun(start, sys.done);
            && (sys.main.pc == 6 ==> sys.shared.flags == abs.flags)
            && (sys.main.pc == 1 || sys.main.pc == 4 ==> sys.shared.warm == abs.warm)
            && (sys.shared.operatorHalt, sys.shared.safe) == (abs.operatorHalt, abs.safe)
  {
    Reached(start, moves, sys);
  }

  predicate IsWrite(op: Op)
  {
    op == HaltWarm || op == HaltWarmIfSafeMode || op == HaltWarmIfAny || op.SetDayPnl? || op.SetDepth? || op.SetFunding?
    || op == Publish
  }

  lemma OtherOpsDoNotWrite(op: Op, sh: Shared)
    requires !IsWrite(op)
    ensures Effect(op, sh).warm == sh.warm && Effect(op, sh).flags == sh.flags
  {
  }

  /** The warm state and the word are only written by the thread that holds the lock. */
  lemma WritesHoldTheLock(start: Shared, moves: seq<Move>, sys: Sys, t: Thread)
    requires Coherent(start) && Execution(Start(start), moves, sys) && Enabled(sys, Advance(t))
    ensures var sys' := Next(sys, Advance(t));
            sys'.shared.warm != sys.shared.warm || sys'.shared.flags != sys.shared.flags ==> sys.holder == Some(t)
  {
    Reached(start, moves, sys);
    WriterHolds(sys, t);
  }

  lemma WriterHolds(sys: Sys, t: Thread)
    requires Linked(sys) && Enabled(sys, Advance(t))
    ensures var sys' := Next(sys, Advance(t));
            sys'.shared.warm != sys.shared.warm || sys'.shared.flags != sys.shared.flags ==> sys.holder == Some(t)
  {
    var p := ProcOf(sys, t);
    if IsWrite(OpAt(p.section, p.pc)) {
      assert Holds(p);
    } else {
      OtherOpsDoNotWrite(OpAt(p.section, p.pc), sys.shared);
    }
  }

  /** No deadlock: while any thread is busy some thread can move. */
  lemma SomeThreadCanMove(start: Shared, moves: seq<Move>, sys: Sys)
    requires Coherent(start) && Execution(Start(start), moves, sys)
    ensures sys.main != Idle || sys.bybit != Idle || sys.funding != Idle ==> exists t :: Enabled(sys, Advance(t))
  {
    Reached(start, moves, sys);
    if sys.holder.Some? {
      HolderCanMove(sys, sys.holder.value);
    } else if sys.main != Idle {
      assert Enabled(sys, Advance(Main));
    } else if sys.bybit != Idle {
      assert Enabled(sys, Advance(BybitTask));
    } else if sys.funding != Idle {
      assert Enabled(sys, Advance(FundingTask));
    }
  }

  lemma HolderCanMove(sys: Sys, t: Thread)
    requires Linked(sys) && sys.holder == Some(t)
    ensures Enabled(sys, Advance(t))
  {
    var p := ProcOf(sys, t);
    match p.section
    case _ =>
  }

  /** The gap is real: right after the first lock of a failed stop the published
      word agrees with the warm state exactly when entries were halted before. */
  lemma FailedStopGap(start: Shared)
    requires Coherent(start)
    ensures var sys := AfterFirstLock(start);
            && Execution(Start(start), [Begin(Main, StopFailed), Advance(Main), Advance(Main), Advance(Main), Advance(Main)], sys)
            && sys.holder == None && sys.shared.warm.entriesHalted
            && (sys.shared.flags == ComputeFlags(sys.shared.warm) <==> start.warm.entriesHalted)
  {
    FlagsMeanGuards(start.warm);
    FlagsMeanGuards(start.warm.(entriesHalted := true));
    var s0 := Start(start);
    var s1 := Next(s0, Begin(Main, StopFailed));
    var s2 := Next(s1, Advance(Main));
    var s3 := Next(s2, Advance(Main));
    var s4 := Next(s3, Advance(Main));
    var s5 := Next(s4, Advance(Main));
    assert s5 == AfterFirstLock(start);
    var a := Advance(Main);
    assert Execution(s5, [], s5);
    assert [a][1..] == [];
    assert Execution(s4, [a], s5);
    assert [a, a][1..] == [a];
    assert Execution(s3, [a, a], s5);
    assert [a, a, a][1..] == [a, a];
    assert Execution(s2, [a, a, a], s5);
    assert [a, a, a, a][1..] == [a, a, a];
    assert Execution(s1, [a, a, a, a], s5);
    assert [Begin(Main, StopFailed), a, a, a, a][1..] == [a, a, a, a];
  }

  /** Halted, unlocked, not yet published. */
  function AfterFirstLock(start: Shared): Sys
  {
    Sys(start.(operatorHalt := true, warm := start.warm.(entriesHalted := true)), None, Busy(StopFailed, 4), Idle, Idle,
        Atomic(start, StopFailed), [StopFailed])
  }

  // ------------------------------------------------------------------
  // The atomic sections are the executor's steps
  // ------------------------------------------------------------------

  function SharedOf(s: Executor.State): Shared { Shared(s.warm, s.flags, s.operatorHalt, s.safe) }

  ghost function SectionOf(cfg: Executor.Config, s: Executor.State, e: Executor.Event): Option<Section>
  {
    match e
    case Command(trusted, action) =>
      if !trusted || action.StatusPing? then None else if action.ResumeEntries? then Some(Resuming) else Some(Halting)
    case Heartbeat(_) => Some(Beating(Executor.DayPnl(cfg, s.ledger)))
    case BinanceTick(_, _, _) => Some(Ticking)
    case Timer(at) =>
      if Executor.HeartbeatLate(cfg, s, at) then Some(Missing(Executor.DayPnl(cfg, s.ledger))) else None
    case BybitMid(id, _, usd, _) =>
      if id in cfg.idToBybit && usd > 0.0 then Some(Depth(DepthAfter(s.depths, id, usd))) else None
    case Funding(rate) => Some(Rate(rate))
  }

  ghost function DepthAfter(depths: map<nat, real>, id: nat, usd: real): real
  {
    var seen := depths[id := usd];
    assert id in seen;
    Executor.Least(seen)
  }

  function Done(sh: Shared, s: Option<Section>): Shared
  {
    if s.Some? then Atomic(sh, s.value) else sh
  }

  lemma CommandSections(s: Executor.State)
    ensures SharedOf(Executor.OnCommand(s, true, Executor.HaltEntries)) == Atomic(SharedOf(s), Halting)
    ensures SharedOf(Executor.OnCommand(s, true, Executor.FlattenAll)) == Atomic(SharedOf(s), Halting)
    ensures SharedOf(Executor.OnCommand(s, true, Executor.ResumeEntries)) == Atomic(SharedOf(s), Resuming)
  {
  }

  lemma BeatSection(cfg: Executor.Config, s: Executor.State, at: nat)
    ensures SharedOf(Executor.OnHeartbeat(cfg, s, at)) == Atomic(SharedOf(s), Beating(Executor.DayPnl(cfg, s.ledger)))
  {
  }

  lemma TimerSection(cfg: Executor.Config, s: Executor.State, at: nat)
    ensures SharedOf(Executor.OnTimer(cfg, s, at)) == Done(SharedOf(s), SectionOf(cfg, s, Executor.Timer(at)))
  {
    Halts.FlattenLeavesHaltsAlone(cfg, Executor.MissCounted(cfg, s, at));
  }

  lemma DepthSeenSection(s: Executor.State, id: nat, usd: real)
    ensures SharedOf(Executor.DepthSeen(s, id, usd)) == Atomic(SharedOf(s), Depth(DepthAfter(s.depths, id, usd)))
  {
  }

  lemma DepthSection(s: Executor.State, id: nat, known: bool, mid: real, usd: real, at: nat)
    ensures SharedOf(Executor.OnBybitMid(s, id, known, mid, usd, at))
            == if known && usd > 0.0 then Atomic(SharedOf(s), Depth(DepthAfter(s.depths, id, usd))) else SharedOf(s)
  {
    var s1 := Executor.MidSeen(s, id, mid, at);
    assert s1.depths == s.depths && SharedOf(s1) == SharedOf(s);
    DepthSeenSection(s1, id, usd);
  }

  lemma TickSection(cfg: Executor.Config, s: Executor.State, t: Entry.Tick, root: real, c: Executor.Clocks)
    ensures SharedOf(Executor.OnTick(cfg, s, t, root, c)) == Atomic(SharedOf(s), Ticking)
  {
    Halts.TickLeavesHaltsAlone(cfg, s, t, root, c);
  }

  /** Each step of the executor model acts on the shared state as its section. */
  lemma StepsAreSections(cfg: Executor.Config, s: Executor.State, e: Executor.Event)
    ensures SharedOf(Executor.Step(cfg, s, e)) == Done(SharedOf(s), SectionOf(cfg, s, e))
  {
    match e
    case Command(trusted, action) => CommandSections(s);
    case Heartbeat(at) => BeatSection(cfg, s, at);
    case BinanceTick(t, root, c) => TickSection(cfg, s, t, root, c);
    case Timer(at) => TimerSection(cfg, s, at);
    case BybitMid(id, mid, usd, at) => DepthSection(s, id, id in cfg.idToBybit, mid, usd, at);
    case Funding(_) =>
  }

  /** The sections a run of the executor model goes through. */
  ghost function SectionsOf(cfg: Executor.Config, s: Executor.State, es: seq<Executor.Event>): seq<Section>
    decreases |es|
  {
    if |es| == 0 then []
    else
      (var first := SectionOf(cfg, s, es[0]); if first.Some? then [first.value] else [])
      + SectionsOf(cfg, Executor.Step(cfg, s, es[0]), es[1..])
  }

  /** A serial run goes on from where it has come to. */
  lemma {:induction false} AtomicRunGoesOn(sh: Shared, sh': Shared, all: seq<Section>, k: nat, rest: seq<Section>, n: nat)
    requires n <= |rest| && k <= |all| && all[k..] == rest && AtomicRun(sh, all, k) == sh'
    ensures AtomicRun(sh, all, k + n) == AtomicRun(sh', rest, n)
  {
    if n > 0 {
      AtomicRunGoesOn(sh, sh', all, k, rest, n - 1);
      assert all[k + n - 1] == rest[n - 1];
    }
  }

  /** A run of the executor model is one serial order of sections: on the shared
      state it does what an interleaving that commits the same sections does. */
  lemma {:induction false} RunsAreSectionRuns(cfg: Executor.Config, s: Executor.State, es: seq<Executor.Event>)
    ensures SharedOf(Executor.Run(cfg, s, es)) == AtomicRun(SharedOf(s), SectionsOf(cfg, s, es))
    decreases |es|
  {
    if |es| > 0 {
      var s' := Executor.Step(cfg, s, es[0]);
      var rest := SectionsOf(cfg, s', es[1..]);
      RunsAreSectionRuns(cfg, s', es[1..]);
      StepsAreSections(cfg, s, es[0]);
      OneSection(SharedOf(s), SectionOf(cfg, s, es[0]), rest);
    }
  }

  lemma OneSection(sh: Shared, first: Option<Section>, rest: seq<Section>)
    ensures AtomicRun(sh, (if first.Some? then [first.value] else []) + rest) == AtomicRun(Done(sh, first), rest)
  {
    if first.Some? {
      var all := [first.value] + rest;
      assert all[1..] == rest && AtomicRun(sh, all, 1) == Atomic(AtomicRun(sh, all, 0), all[0]);
      AtomicRunGoesOn(sh, Atomic(sh, first.value), all, 1, rest, |rest|);
    } else {
      assert [] + rest == rest;
    }
  }

  /** An interleaving that has come to rest leaves the shared state exactly as a
      run of the executor model through the same sections does. */
  lemma InterleavingsMatchRuns(cfg: Executor.Config, s: Executor.State, es: seq<Executor.Event>,
                               moves: seq<Move>, sys: Sys)
    requires Coherent(SharedOf(s)) && Execution(Start(SharedOf(s)), moves, sys)
    requires sys.main == Idle && sys.bybit == Idle && sys.funding == Idle
    requires sys.done == SectionsOf(cfg, s, es)
    ensures sys.shared == SharedOf(Executor.Run(cfg, s, es))
  {
    InterleavingsAreSerializable(SharedOf(s), moves, sys);
    RunsAreSectionRuns(cfg, s, es);
  }
}
