/** Every entry's follow-through is judged at most once, late enough, and lands
    in its symbol's window. */
module FollowThroughRuns {
  import opened Numerics
  import opened Packets
  import opened FollowThrough
  import opened Executor
  import opened Entry
  import opened Entries
  import Metrics
  import Conservation

  function OutcomesBy(s: State, t: Tick, c: Clocks): seq<Outcome>
  {
    OutcomesOf(Observed(s, t, c.push), c.now)
  }

  function OutcomesIn(s: State, e: Event): seq<Outcome>
  {
    if e.BinanceTick? then OutcomesBy(s, e.tick, e.clocks) else []
  }

  /** Everything a run decides about pending entries, in order. */
  ghost function OutcomeLog(cfg: Config, s: State, es: seq<Event>): seq<Outcome>
    decreases |es|
  {
    if |es| == 0 then [] else OutcomesIn(s, es[0]) + OutcomeLog(cfg, Step(cfg, s, es[0]), es[1..])
  }

  function PushedBy(cfg: Config, s: State, t: Tick, root: real, c: Clocks): seq<Pending>
  {
    var (s2, pkt) := BeforeEntry(cfg, s, t, root, c);
    if Opens(cfg, s2, pkt, c.entry)
    then [Pending(pkt.symbolId, c.now, pkt.directionBias, LagOf(s2, pkt.symbolId).bybitMid)] else []
  }

  function PushedIn(cfg: Config, s: State, e: Event): seq<Pending>
  {
    if e.BinanceTick? then PushedBy(cfg, s, e.tick, e.root, e.clocks) else []
  }

  ghost function PushLog(cfg: Config, s: State, es: seq<Event>): seq<Pending>
    decreases |es|
  {
    if |es| == 0 then [] else PushedIn(cfg, s, es[0]) + PushLog(cfg, Step(cfg, s, es[0]), es[1..])
  }

  function Items(outcomes: seq<Outcome>): seq<Pending>
  {
    seq(|outcomes|, i requires 0 <= i < |outcomes| => outcomes[i].item)
  }

  // ------------------------------------------------------------------
  // Nothing lost, nothing judged twice
  // ------------------------------------------------------------------

  /** One pass of the settling loop splits the pending list in two. */
  lemma {:induction false} SettlingSplits(tracked: set<SymbolId>, lags: map<SymbolId, LagState>, pending: seq<Pending>,
                                          now: nat, n: nat)
    requires n <= |pending|
    ensures multiset(Waiting(pending, now, n)) + multiset(Items(Outcomes(tracked, lags, pending, now, n)))
            == multiset(pending[..n])
  {
    if n == 0 {
      NothingSplits(Waiting(pending, now, 0), Items(Outcomes(tracked, lags, pending, now, 0)), pending[..0]);
    } else {
      SettlingSplits(tracked, lags, pending, now, n - 1);
      SettleOne(tracked, lags, pending, now, n);
      assert pending[..n] == pending[..n - 1] + [pending[n - 1]];
      SplitStep(Waiting(pending, now, n - 1), Items(Outcomes(tracked, lags, pending, now, n - 1)), pending[..n - 1],
                Waiting(pending, now, n), Items(Outcomes(tracked, lags, pending, now, n)), pending[..n], pending[n - 1]);
    }
  }

  lemma NothingSplits<T>(a: seq<T>, b: seq<T>, whole: seq<T>)
    requires |a| == 0 && |b| == 0 && |whole| == 0
    ensures multiset(a) + multiset(b) == multiset(whole)
  {
    assert a == whole && b == whole;
  }

  lemma SplitStep<T>(a: seq<T>, b: seq<T>, whole: seq<T>, a': seq<T>, b': seq<T>, whole': seq<T>, x: T)
    requires multiset(a) + multiset(b) == multiset(whole) && whole' == whole + [x]
    requires (a' == a + [x] && b' == b) || (a' == a && b' == b + [x])
    ensures multiset(a') + multiset(b') == multiset(whole')
  {
  }

  /** The `n`-th pending entry either waits or is decided. */
  lemma SettleOne(tracked: set<SymbolId>, lags: map<SymbolId, LagState>, pending: seq<Pending>, now: nat, n: nat)
    requires 0 < n <= |pending|
    ensures var p, w, i := pending[n - 1], Waiting(pending, now, n - 1), Items(Outcomes(tracked, lags, pending, now, n - 1));
            && Waiting(pending, now, n) == (if Due(p, now) then w else w + [p])
            && Items(Outcomes(tracked, lags, pending, now, n)) == (if Due(p, now) then i + [p] else i)
  {
    var o := Outcomes(tracked, lags, pending, now, n - 1);
    assert Outcomes(tracked, lags, pending, now, n)
        == if Due(pending[n - 1], now) then o + [Judge(tracked, lags, pending[n - 1], now)] else o;
  }

  lemma EntryAppendsPending(cfg: Config, s: State, pkt: Packets.Packet, c: Clocks)
    ensures Entered(cfg, s, pkt, c).pending
            == s.pending + (if Opens(cfg, s, pkt, c.entry)
                            then [Pending(pkt.symbolId, c.now, pkt.directionBias, LagOf(s, pkt.symbolId).bybitMid)] else [])
  {
  }

  lemma TickSettles(cfg: Config, s: State, t: Tick, root: real, c: Clocks)
    ensures multiset(OnTick(cfg, s, t, root, c).pending) + multiset(Items(OutcomesBy(s, t, c)))
            == multiset(s.pending) + multiset(PushedBy(cfg, s, t, root, c))
  {
    var s0 := Observed(s, t, c.push);
    SettlingSplits(s0.trackers.Keys, s0.lags, s0.pending, c.now, |s0.pending|);
    assert s0.pending[..|s0.pending|] == s.pending;
    var (s2, pkt) := BeforeEntry(cfg, s, t, root, c);
    assert s2.pending == Waiting(s.pending, c.now);
    EntryAppendsPending(cfg, s2, pkt, c);
  }

  lemma StepSettles(cfg: Config, s: State, e: Event)
    ensures multiset(Step(cfg, s, e).pending) + multiset(Items(OutcomesIn(s, e)))
            == multiset(s.pending) + multiset(PushedIn(cfg, s, e))
  {
    if e.BinanceTick? {
      TickSettles(cfg, s, e.tick, e.root, e.clocks);
    } else if e.Timer? {
      MissFrame(cfg, s, e.at);
    } else {
      OnlyTicksAndTimersTrade(cfg, s, e);
    }
  }

  lemma ItemsConcat(a: seq<Outcome>, b: seq<Outcome>)
    ensures Items(a + b) == Items(a) + Items(b)
  {
  }

  /** Conservation over runs: what was pending and what was pushed is, item for
      item, what is pending still and what was decided. So each entry is decided
      at most once and none disappears. */
  lemma {:induction false} EachEntryDecidedOnce(cfg: Config, s: State, es: seq<Event>)
    ensures multiset(Run(cfg, s, es).pending) + multiset(Items(OutcomeLog(cfg, s, es)))
            == multiset(s.pending) + multiset(PushLog(cfg, s, es))
    decreases |es|
  {
    if |es| > 0 {
      var s' := Step(cfg, s, es[0]);
      StepSettles(cfg, s, es[0]);
      EachEntryDecidedOnce(cfg, s', es[1..]);
      ItemsConcat(OutcomesIn(s, es[0]), OutcomeLog(cfg, s', es[1..]));
      ChainBalance(multiset(s.pending), multiset(s'.pending), multiset(Run(cfg, s', es[1..]).pending),
                   OutcomesIn(s, es[0]), OutcomeLog(cfg, s', es[1..]), PushedIn(cfg, s, es[0]), PushLog(cfg, s', es[1..]));
    }
  }

  /** Two balanced stages make a balanced whole. */
  lemma ChainBalance(a: multiset<Pending>, b: multiset<Pending>, c: multiset<Pending>,
                     out1: seq<Outcome>, out2: seq<Outcome>, in1: seq<Pending>, in2: seq<Pending>)
    requires b + multiset(Items(out1)) == a + multiset(in1)
    requires c + multiset(Items(out2)) == b + multiset(in2)
    ensures c + multiset(Items(out1) + Items(out2)) == a + multiset(in1 + in2)
  {
    var o1, o2, i1, i2 := multiset(Items(out1)), multiset(Items(out2)), multiset(in1), multiset(in2);
    calc {
      c + (o1 + o2);
      (c + o2) + o1;
      (b + i2) + o1;
      (b + o1) + i2;
      (a + i1) + i2;
      a + (i1 + i2);
    }
  }

  lemma {:induction false} PushesAreOpens(cfg: Config, s: State, es: seq<Event>)
    ensures |PushLog(cfg, s, es)| == |OpenLog(cfg, s, es)|
    decreases |es|
  {
    if |es| > 0 {
      PushesAreOpens(cfg, Step(cfg, s, es[0]), es[1..]);
      assert |PushedIn(cfg, s, es[0])| == |OpenedIn(cfg, s, es[0])|;
    }
  }

  function Count(outcomes: seq<Outcome>, judged: bool, n: nat := |outcomes|): nat
    requires n <= |outcomes|
    decreases n
  {
    if n == 0 then 0 else Count(outcomes, judged, n - 1) + if outcomes[n - 1].Judged? == judged then 1 else 0
  }

  lemma {:induction false} CountsCover(outcomes: seq<Outcome>, n: nat)
    requires n <= |outcomes|
    ensures Count(outcomes, true, n) + Count(outcomes, false, n) == n
  {
    if n > 0 {
      CountsCover(outcomes, n - 1);
    }
  }

  /** From startup: entries opened = still pending + recorded + discarded. */
  lemma EntriesAreAccountedFor(cfg: Config, at: nat, es: seq<Event>)
    ensures var s, log := Run(cfg, Init(cfg, at), es), OutcomeLog(cfg, Init(cfg, at), es);
            s.ledger.openEntries == |s.pending| + Count(log, true) + Count(log, false)
  {
    var s0 := Init(cfg, at);
    var s, log := Run(cfg, s0, es), OutcomeLog(cfg, s0, es);
    EachEntryDecidedOnce(cfg, s0, es);
    PushesAreOpens(cfg, s0, es);
    RunCountsEntries(cfg, s0, es);
    CountsCover(log, |log|);
    Cardinalities(s.pending, Items(log), s0.pending, PushLog(cfg, s0, es));
    assert |s0.pending| == 0 && s0.ledger.openEntries == 0;
  }

  lemma Cardinalities<T>(a: seq<T>, b: seq<T>, c: seq<T>, d: seq<T>)
    requires multiset(a) + multiset(b) == multiset(c) + multiset(d)
    ensures |a| + |b| == |c| + |d|
  {
    assert |multiset(a) + multiset(b)| == |a| + |b|;
    assert |multiset(c) + multiset(d)| == |c| + |d|;
  }

  /** What becomes of a due entry: it is recorded exactly when its symbol is
      tracked and both its own and the current Bybit mid are known. */
  lemma JudgedExactly(tracked: set<SymbolId>, lags: map<SymbolId, LagState>, p: Pending, now: nat)
    ensures var o := Judge(tracked, lags, p, now);
            && o.item == p && o.at == now
            && (o.Judged? <==> p.symbolId in tracked && p.bybitMid > 0.0
                               && (p.symbolId in lags ==> lags[p.symbolId].bybitMid > 0.0))
  {
  }

  /** Which entries wait on: those under 300 ms old, in their old order; every
      other one is decided. */
  lemma {:induction false} WaitingExactly(tracked: set<SymbolId>, lags: map<SymbolId, LagState>, pending: seq<Pending>,
                                          now: nat, n: nat)
    requires n <= |pending|
    ensures forall p :: p in Waiting(pending, now, n) <==> p in pending[..n] && now < p.tsNs + 300_000_000
    ensures forall p :: p in Items(Outcomes(tracked, lags, pending, now, n)) <==>
                        p in pending[..n] && now >= p.tsNs + 300_000_000
  {
    if n > 0 {
      WaitingExactly(tracked, lags, pending, now, n - 1);
      SettleOne(tracked, lags, pending, now, n);
      assert pending[..n] == pending[..n - 1] + [pending[n - 1]];
      assert Due(pending[n - 1], now) <==> now >= pending[n - 1].tsNs + 300_000_000;
    } else {
      assert |Items(Outcomes(tracked, lags, pending, now, 0))| == 0;
    }
  }

  /** What a recorded outcome means: the entry was a win exactly when Bybit has
      since moved strictly in the direction of the entry. */
  lemma JudgedByDirection(tracked: set<SymbolId>, lags: map<SymbolId, LagState>, p: Pending, now: nat)
    requires p.direction == 1 || p.direction == -1
    requires Judge(tracked, lags, p, now).Judged?
    ensures var mid := if p.symbolId in lags then lags[p.symbolId].bybitMid else p.bybitMid;
            Judge(tracked, lags, p, now).aligned <==> (if p.direction == 1 then mid > p.bybitMid else mid < p.bybitMid)
  {
    var mid := if p.symbolId in lags then lags[p.symbolId].bybitMid else p.bybitMid;
    var ret := (mid - p.bybitMid) / p.bybitMid;
    DivMul(mid - p.bybitMid, p.bybitMid);
    SignOfProduct(p.bybitMid, ret);
  }

  // ------------------------------------------------------------------
  // Never early
  // ------------------------------------------------------------------

  lemma {:induction false} SettledAreDue(tracked: set<SymbolId>, lags: map<SymbolId, LagState>, pending: seq<Pending>,
                                         now: nat, n: nat)
    requires n <= |pending|
    ensures forall o | o in Outcomes(tracked, lags, pending, now, n) :: o.at == now && now >= o.item.tsNs + FOLLOW_THROUGH_DELAY_NS
  {
    if n > 0 {
      SettledAreDue(tracked, lags, pending, now, n - 1);
    }
  }

  /** No outcome is decided within 300 ms of its entry. */
  lemma {:induction false} NeverDecidedEarly(cfg: Config, s: State, es: seq<Event>)
    ensures forall o | o in OutcomeLog(cfg, s, es) :: o.at >= o.item.tsNs + 300_000_000
    decreases |es|
  {
    if |es| > 0 {
      NeverDecidedEarly(cfg, Step(cfg, s, es[0]), es[1..]);
      if es[0].BinanceTick? {
        var s0 := Observed(s, es[0].tick, es[0].clocks.push);
        SettledAreDue(s0.trackers.Keys, s0.lags, s0.pending, es[0].clocks.now, |s0.pending|);
      }
    }
  }

  // ------------------------------------------------------------------
  // Each window holds its symbol's latest outcomes
  // ------------------------------------------------------------------

  /** The recorded outcomes of one symbol among the first `n`. */
  function AlignedOf(outcomes: seq<Outcome>, id: SymbolId, n: nat := |outcomes|): seq<bool>
    requires n <= |outcomes|
    decreases n
  {
    if n == 0 then []
    else
      var o := outcomes[n - 1];
      AlignedOf(outcomes, id, n - 1) + if o.Judged? && o.item.symbolId == id then [o.aligned] else []
  }

  lemma {:induction false} AlignedConcat(a: seq<Outcome>, b: seq<Outcome>, id: SymbolId, n: nat)
    requires n <= |b|
    ensures AlignedOf(a + b, id, |a| + n) == AlignedOf(a, id) + AlignedOf(b, id, n)
  {
    if n > 0 {
      AlignedConcat(a, b, id, n - 1);
    } else {
      AlignedPrefix(a, b, id, |a|);
    }
  }

  lemma {:induction false} AlignedPrefix(a: seq<Outcome>, b: seq<Outcome>, id: SymbolId, n: nat)
    requires n <= |a|
    ensures AlignedOf(a + b, id, n) == AlignedOf(a, id, n)
  {
    if n > 0 {
      AlignedPrefix(a, b, id, n - 1);
    }
  }

  lemma RecordedAppend(t: Tracker, xs: seq<bool>, x: bool)
    ensures Recorded(t, xs + [x]) == Recorded(t, xs).Record(x)
  {
    assert (xs + [x])[..|xs|] == xs;
  }

  lemma {:induction false} RecordedConcat(t: Tracker, xs: seq<bool>, ys: seq<bool>)
    ensures Recorded(t, xs + ys) == Recorded(Recorded(t, xs), ys)
    decreases |ys|
  {
    if |ys| == 0 {
      assert xs + ys == xs;
    } else {
      var init, y := ys[..|ys| - 1], ys[|ys| - 1];
      RecordedConcat(t, xs, init);
      assert xs + ys == (xs + init) + [y] && ys == init + [y];
      RecordedAppend(t, xs + init, y);
      RecordedAppend(Recorded(t, xs), init, y);
    }
  }

  lemma {:induction false} DeliveryRecords(trackers: map<SymbolId, Tracker>, outcomes: seq<Outcome>, id: SymbolId, n: nat)
    requires n <= |outcomes| && id in trackers
    ensures var after := Delivered(trackers, outcomes, n);
            after.Keys == trackers.Keys && after[id] == Recorded(trackers[id], AlignedOf(outcomes, id, n))
  {
    if n > 0 {
      DeliveryRecords(trackers, outcomes, id, n - 1);
      var o := outcomes[n - 1];
      if o.Judged? && o.item.symbolId == id {
        RecordedAppend(trackers[id], AlignedOf(outcomes, id, n - 1), o.aligned);
      } else {
        assert AlignedOf(outcomes, id, n) == AlignedOf(outcomes, id, n - 1);
      }
    }
  }

  lemma TickDelivers(cfg: Config, s: State, t: Tick, root: real, c: Clocks, id: SymbolId)
    requires id in s.trackers
    ensures var s' := OnTick(cfg, s, t, root, c);
            s'.trackers.Keys == s.trackers.Keys
            && s'.trackers[id] == Recorded(s.trackers[id], AlignedOf(OutcomesBy(s, t, c), id))
  {
    var log := OutcomesBy(s, t, c);
    DeliveryRecords(s.trackers, log, id, |log|);
    var (s2, pkt) := BeforeEntry(cfg, s, t, root, c);
    assert s2.trackers == Delivered(s.trackers, log);
    EntryKeepsTrackers(cfg, s2, pkt, c);
  }

  lemma EntryKeepsTrackers(cfg: Config, s: State, pkt: Packets.Packet, c: Clocks)
    ensures Entered(cfg, s, pkt, c).trackers == s.trackers
  {
  }

  lemma StepDelivers(cfg: Config, s: State, e: Event, id: SymbolId)
    requires id in s.trackers
    ensures var s' := Step(cfg, s, e);
            s'.trackers.Keys == s.trackers.Keys
            && s'.trackers[id] == Recorded(s.trackers[id], AlignedOf(OutcomesIn(s, e), id))
  {
    if e.BinanceTick? {
      TickDelivers(cfg, s, e.tick, e.root, e.clocks, id);
    } else if e.Timer? {
      MissFrame(cfg, s, e.at);
    } else {
      OnlyTicksAndTimersTrade(cfg, s, e);
    }
  }

  lemma {:induction false} RunDelivers(cfg: Config, s: State, es: seq<Event>, id: SymbolId)
    requires id in s.trackers
    ensures var s' := Run(cfg, s, es);
            id in s'.trackers && s'.trackers[id] == Recorded(s.trackers[id], AlignedOf(OutcomeLog(cfg, s, es), id))
    decreases |es|
  {
    if |es| > 0 {
      var s' := Step(cfg, s, es[0]);
      StepDelivers(cfg, s, es[0], id);
      RunDelivers(cfg, s', es[1..], id);
      RecordedInTurn(s.trackers[id], OutcomesIn(s, es[0]), OutcomeLog(cfg, s', es[1..]), id);
    }
  }

  lemma RecordedInTurn(t: Tracker, now: seq<Outcome>, later: seq<Outcome>, id: SymbolId)
    ensures Recorded(Recorded(t, AlignedOf(now, id)), AlignedOf(later, id)) == Recorded(t, AlignedOf(now + later, id))
  {
    AlignedConcat(now, later, id, |later|);
    RecordedConcat(t, AlignedOf(now, id), AlignedOf(later, id));
  }

  /** From startup every symbol's window is exactly the last 200 outcomes
      recorded for it over the run, and the entry gate reads their win fraction. */
  lemma WindowsHoldLatestOutcomes(cfg: Config, at: nat, es: seq<Event>, id: SymbolId)
    requires id in cfg.idToBybit
    ensures var s, log := Run(cfg, Init(cfg, at), es), AlignedOf(OutcomeLog(cfg, Init(cfg, at), es), id);
            && id in s.trackers
            && s.trackers[id].window == (if |log| <= 200 then log else log[|log| - 200..])
            && s.trackers[id].minRate
               == if id in cfg.followThroughMin then cfg.followThroughMin[id] else cfg.defaultFollowThroughMin
  {
    var s0 := Init(cfg, at);
    RunDelivers(cfg, s0, es, id);
    WindowIsLatest(FollowThroughMinOf(cfg, id), FOLLOW_THROUGH_CAPACITY, AlignedOf(OutcomeLog(cfg, s0, es), id));
  }
}
