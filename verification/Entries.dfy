/** Which positions whole runs open, and how their take-profits end. */
module Entries {
  import opened Numerics
  import opened Packets
  import opened Metrics
  import opened Risk
  import opened Entry
  import opened Positions
  import opened Executor
  import Conservation
  import Ledger

  /** One opened position, as the log line of the entry names it. */
  datatype OpenRecord = OpenRecord(symbolId: SymbolId, seqNum: nat, side: Side)

  /** State and packet between the exit loop and the entry path. */
  function BeforeEntry(cfg: Config, s: State, t: Tick, root: real, c: Clocks): (State, Packet)
  {
    var s1 := Prepared(s, t, c);
    var pkt := PacketOf(cfg, s1, t, root, c);
    (Exited(cfg, s1, pkt, c.exit), pkt)
  }

  function OpenedBy(cfg: Config, s: State, t: Tick, root: real, c: Clocks): seq<OpenRecord>
  {
    var (s2, pkt) := BeforeEntry(cfg, s, t, root, c);
    if Opens(cfg, s2, pkt, c.entry) then [OpenRecord(pkt.symbolId, pkt.seqNum, EntrySide(pkt))] else []
  }

  function OpenedIn(cfg: Config, s: State, e: Event): seq<OpenRecord>
  {
    if e.BinanceTick? then OpenedBy(cfg, s, e.tick, e.root, e.clocks) else []
  }

  /** Everything a run opens, in order. */
  ghost function OpenLog(cfg: Config, s: State, es: seq<Event>): seq<OpenRecord>
    decreases |es|
  {
    if es == [] then [] else OpenedIn(cfg, s, es[0]) + OpenLog(cfg, Step(cfg, s, es[0]), es[1..])
  }

  // ------------------------------------------------------------------
  // The log is the ledger's
  // ------------------------------------------------------------------

  lemma {:induction false} ExitsKeepEntryCount(cfg: Config, lags: map<SymbolId, LagState>, pkt: Packet, now: nat,
                                               positions: seq<Position>, ledger: Ledger.Account, n: nat)
    requires n <= |positions|
    ensures Exits(cfg, lags, pkt, now, positions, ledger, n).1.openEntries == ledger.openEntries
  {
    if n > 0 {
      ExitsKeepEntryCount(cfg, lags, pkt, now, positions, ledger, n - 1);
    }
  }

  lemma {:induction false} FlattenKeepsEntryCount(cfg: Config, lags: map<SymbolId, LagState>,
                                                  positions: seq<Position>, ledger: Ledger.Account, n: nat)
    requires n <= |positions|
    ensures Flattened(cfg, lags, positions, ledger, n).openEntries == ledger.openEntries
  {
    if n > 0 {
      FlattenKeepsEntryCount(cfg, lags, positions, ledger, n - 1);
    }
  }

  lemma TickCountsEntries(cfg: Config, s: State, t: Tick, root: real, c: Clocks)
    ensures OnTick(cfg, s, t, root, c).ledger.openEntries == s.ledger.openEntries + |OpenedBy(cfg, s, t, root, c)|
  {
    var s1 := Prepared(s, t, c);
    var pkt := PacketOf(cfg, s1, t, root, c);
    ExitsKeepEntryCount(cfg, s1.lags, pkt, c.exit, s1.positions, s1.ledger, |s1.positions|);
  }

  lemma StepCountsEntries(cfg: Config, s: State, e: Event)
    ensures Step(cfg, s, e).ledger.openEntries == s.ledger.openEntries + |OpenedIn(cfg, s, e)|
  {
    if e.BinanceTick? {
      TickCountsEntries(cfg, s, e.tick, e.root, e.clocks);
    } else if e.Timer? {
      MissFrame(cfg, s, e.at);
      FlattenKeepsEntryCount(cfg, s.lags, s.positions, s.ledger, |s.positions|);
    } else {
      OnlyTicksAndTimersTrade(cfg, s, e);
    }
  }

  lemma {:induction false} RunCountsEntries(cfg: Config, s: State, es: seq<Event>)
    ensures Run(cfg, s, es).ledger.openEntries == s.ledger.openEntries + |OpenLog(cfg, s, es)|
    decreases |es|
  {
    if es != [] {
      StepCountsEntries(cfg, s, es[0]);
      RunCountsEntries(cfg, Step(cfg, s, es[0]), es[1..]);
    }
  }

  // ------------------------------------------------------------------
  // No double entry
  // ------------------------------------------------------------------

  /** `log` opens each symbol above its slot, in strictly increasing sequence order. */
  ghost predicate FreshInOrder(lastSeq: Slots, log: seq<OpenRecord>)
  {
    && (forall i | 0 <= i < |log| :: Above(lastSeq, log[i]))
    && (forall i, j | 0 <= i < j < |log| && log[i].symbolId == log[j].symbolId :: log[i].seqNum < log[j].seqNum)
  }

  predicate Above(lastSeq: Slots, r: OpenRecord)
  {
    1 <= r.symbolId <= MAX_SYMBOLS && lastSeq[r.symbolId - 1] < r.seqNum
  }

  lemma DecisionSlots(cfg: Config, s: State, pkt: Packet, now: nat, k: nat)
    requires k < MAX_SYMBOLS
    ensures var (d, slots) := Verdict(cfg, s, pkt, now);
            && s.lastSeq[k] <= slots[k]
            && (d == Risk.Open ==> pkt.entryValid != 0 && 1 <= pkt.symbolId <= MAX_SYMBOLS
                                   && s.lastSeq[pkt.symbolId - 1] < pkt.seqNum == slots[pkt.symbolId - 1])
  {
  }

  lemma TickSlots(cfg: Config, s: State, t: Tick, root: real, c: Clocks, k: nat)
    requires k < MAX_SYMBOLS
    ensures var s', log := OnTick(cfg, s, t, root, c), OpenedBy(cfg, s, t, root, c);
            && s.lastSeq[k] <= s'.lastSeq[k]
            && (|log| == 1 ==> 1 <= log[0].symbolId <= MAX_SYMBOLS
                               && s.lastSeq[log[0].symbolId - 1] < log[0].seqNum == s'.lastSeq[log[0].symbolId - 1])
  {
    var (s2, pkt) := BeforeEntry(cfg, s, t, root, c);
    assert s2.lastSeq == s.lastSeq;
    EntrySlots(cfg, s2, pkt, c, k);
  }

  lemma EntrySlots(cfg: Config, s: State, pkt: Packet, c: Clocks, k: nat)
    requires k < MAX_SYMBOLS
    ensures var s' := Entered(cfg, s, pkt, c);
            && s.lastSeq[k] <= s'.lastSeq[k]
            && (Opens(cfg, s, pkt, c.entry) ==>
                  1 <= pkt.symbolId <= MAX_SYMBOLS
                  && s.lastSeq[pkt.symbolId - 1] < pkt.seqNum == s'.lastSeq[pkt.symbolId - 1])
  {
    DecisionSlots(cfg, s, pkt, c.entry, k);
    assert Entered(cfg, s, pkt, c).lastSeq
        == if EntriesBlocked(s) then s.lastSeq else Verdict(cfg, s, pkt, c.entry).1;
  }

  lemma StepSlots(cfg: Config, s: State, e: Event, k: nat)
    requires k < MAX_SYMBOLS
    ensures var s', log := Step(cfg, s, e), OpenedIn(cfg, s, e);
            && s.lastSeq[k] <= s'.lastSeq[k]
            && |log| <= 1
            && (|log| == 1 ==> 1 <= log[0].symbolId <= MAX_SYMBOLS
                               && s.lastSeq[log[0].symbolId - 1] < log[0].seqNum == s'.lastSeq[log[0].symbolId - 1])
  {
    if e.BinanceTick? {
      TickSlots(cfg, s, e.tick, e.root, e.clocks, k);
    } else if e.Timer? {
      MissFrame(cfg, s, e.at);
    } else {
      OnlyTicksAndTimersTrade(cfg, s, e);
    }
  }

  lemma AboveLater(before: Slots, after: Slots, tail: seq<OpenRecord>)
    requires FreshInOrder(after, tail)
    requires forall k | 0 <= k < MAX_SYMBOLS :: before[k] <= after[k]
    ensures FreshInOrder(before, tail)
  {
    forall i | 0 <= i < |tail| ensures Above(before, tail[i]) {
      assert Above(after, tail[i]);
    }
  }

  lemma PrependFresh(before: Slots, after: Slots, first: OpenRecord, tail: seq<OpenRecord>)
    requires FreshInOrder(after, tail) && FreshInOrder(before, tail) && Above(before, first)
    requires first.seqNum == after[first.symbolId - 1]
    ensures FreshInOrder(before, [first] + tail)
  {
    var log := [first] + tail;
    forall j | 0 < j < |log| ensures log[j] == tail[j - 1] && Above(after, log[j]) && Above(before, log[j]) {
      assert Above(after, tail[j - 1]) && Above(before, tail[j - 1]);
    }
  }

  /** No double entry over runs: whatever ticks, restarts of the feed, halts and
      resumes arrive, a run opens each symbol in strictly increasing sequence
      order, always above the slot it started from. */
  lemma {:induction false} EntriesNeverRepeat(cfg: Config, s: State, es: seq<Event>)
    ensures FreshInOrder(s.lastSeq, OpenLog(cfg, s, es))
    decreases |es|
  {
    if es != [] {
      var s' := Step(cfg, s, es[0]);
      EntriesNeverRepeat(cfg, s', es[1..]);
      forall k | 0 <= k < MAX_SYMBOLS ensures s.lastSeq[k] <= s'.lastSeq[k] {
        StepSlots(cfg, s, es[0], k);
      }
      StepSlots(cfg, s, es[0], 0);
      var head, tail := OpenedIn(cfg, s, es[0]), OpenLog(cfg, s', es[1..]);
      AboveLater(s.lastSeq, s'.lastSeq, tail);
      if |head| == 1 {
        assert head == [head[0]];
        PrependFresh(s.lastSeq, s'.lastSeq, head[0], tail);
      } else {
        assert head + tail == tail;
      }
    }
  }

  // ------------------------------------------------------------------
  // Trades follow the trend
  // ------------------------------------------------------------------

  /** The prices of one symbol in a run, as its metrics received them. */
  function History(es: seq<Event>, id: SymbolId): seq<Sample>
  {
    if |es| == 0 then []
    else SampleIn(es[0], id) + History(es[1..], id)
  }

  function SampleIn(e: Event, id: SymbolId): seq<Sample>
  {
    if e.BinanceTick? && e.tick.symbolId == id then [Sample(e.tick.mid, e.clocks.push)] else []
  }

  lemma TickMetrics(cfg: Config, s: State, t: Tick, root: real, c: Clocks, id: SymbolId)
    ensures MetricsOf(OnTick(cfg, s, t, root, c), id)
            == if t.symbolId == id then Push(MetricsOf(s, id), t.mid, c.push) else MetricsOf(s, id)
  {
    var (s2, pkt) := BeforeEntry(cfg, s, t, root, c);
    assert MetricsOf(s2, id) == MetricsOf(Observed(s, t, c.push), id);
    EntryKeepsMetrics(cfg, s2, pkt, c);
  }

  lemma EntryKeepsMetrics(cfg: Config, s: State, pkt: Packet, c: Clocks)
    ensures Entered(cfg, s, pkt, c).metrics == s.metrics
  {
  }

  lemma StepMetrics(cfg: Config, s: State, e: Event, id: SymbolId, h: seq<Sample>)
    requires MetricsOf(s, id) == Replay(h)
    ensures MetricsOf(Step(cfg, s, e), id) == Replay(h + SampleIn(e, id))
  {
    if e.BinanceTick? {
      TickMetrics(cfg, s, e.tick, e.root, e.clocks, id);
      var sample := Sample(e.tick.mid, e.clocks.push);
      assert (h + [sample])[..|h|] == h;
      assert h + [] == h;
    } else {
      assert h + SampleIn(e, id) == h;
      if e.Timer? {
        MissFrame(cfg, s, e.at);
      } else {
        OnlyTicksAndTimersTrade(cfg, s, e);
      }
    }
  }

  /** What a tick opens takes the side the packet's bias names, on the packet
      built from the history that includes the tick. */
  lemma OpenedFollowsHistory(cfg: Config, s: State, t: Tick, root: real, c: Clocks, h: seq<Sample>)
    requires MetricsOf(s, t.symbolId) == Replay(h)
    requires var h' := h + [Sample(t.mid, c.push)]; PositivePrices(h')
    ensures var h', log := h + [Sample(t.mid, c.push)], OpenedBy(cfg, s, t, root, c);
            && (NonDecreasing(h') ==> forall r | r in log :: r.side == Long)
            && (NonIncreasing(h') ==> forall r | r in log :: r.side == Short)
            && (forall r | r in log :: r.symbolId == t.symbolId)
  {
    var h' := h + [Sample(t.mid, c.push)];
    PreparedHistory(s, t, c, h);
    var (s2, pkt) := BeforeEntry(cfg, s, t, root, c);
    PacketFollowsHistory(cfg, Prepared(s, t, c), t, root, c, h');
    if Opens(cfg, s2, pkt, c.entry) {
      DecisionSlots(cfg, s2, pkt, c.entry, 0);
    }
  }

  lemma PreparedHistory(s: State, t: Tick, c: Clocks, h: seq<Sample>)
    requires MetricsOf(s, t.symbolId) == Replay(h)
    ensures MetricsOf(Prepared(s, t, c), t.symbolId) == Replay(h + [Sample(t.mid, c.push)])
  {
    assert (h + [Sample(t.mid, c.push)])[..|h|] == h;
  }

  /** The packet of a tick whose metrics have seen the history `h`. */
  lemma PacketFollowsHistory(cfg: Config, s: State, t: Tick, root: real, c: Clocks, h: seq<Sample>)
    requires MetricsOf(s, t.symbolId) == Replay(h) && |h| > 0 && PositivePrices(h)
    ensures var pkt := PacketOf(cfg, s, t, root, c);
            && pkt.symbolId == t.symbolId
            && (pkt.entryValid != 0 ==> pkt.directionBias == 1 || pkt.directionBias == -1)
            && (NonDecreasing(h) ==> pkt.directionBias >= 0)
            && (NonIncreasing(h) ==> pkt.directionBias <= 0)
  {
    var gate := TradeHourOk(cfg, t.symbolId, c.now) && FollowThroughOk(s, t.symbolId);
    TrendGateFollowsPrices(cfg.engine, h, root, LagOf(s, t.symbolId), t, c.stale, gate);
    var pkt := PacketOf(cfg, s, t, root, c);
    if pkt.entryValid != 0 {
      ValidPacketLags(cfg.engine, Replay(h), root, LagOf(s, t.symbolId), t, c.stale, gate);
    }
  }

  lemma PrefixTrends(h: seq<Sample>, more: seq<Sample>)
    ensures PositivePrices(h + more) ==> PositivePrices(h)
    ensures NonDecreasing(h + more) ==> NonDecreasing(h)
    ensures NonIncreasing(h + more) ==> NonIncreasing(h)
  {
    var all := h + more;
    if PositivePrices(all) {
      forall i | 0 <= i < |h| ensures h[i].price > 0.0 { assert all[i] == h[i]; }
    }
    if NonDecreasing(all) {
      forall i, j | 0 <= i < j < |h| ensures h[i].price <= h[j].price { assert all[i] == h[i] && all[j] == h[j]; }
    }
    if NonIncreasing(all) {
      forall i, j | 0 <= i < j < |h| ensures h[i].price >= h[j].price { assert all[i] == h[i] && all[j] == h[j]; }
    }
  }

  ghost predicate NeverOpens(log: seq<OpenRecord>, id: SymbolId, side: Side)
  {
    forall i | 0 <= i < |log| :: log[i].symbolId == id ==> log[i].side != side
  }

  /** While a symbol's prices never fall the executor never shorts it, and while
      they never rise it never goes long, whatever every other market, the
      operator and the clock do meanwhile. */
  lemma {:induction false} EntriesFollowTheTrend(cfg: Config, s: State, es: seq<Event>, id: SymbolId, h: seq<Sample>)
    requires MetricsOf(s, id) == Replay(h) && PositivePrices(h + History(es, id))
    ensures NonDecreasing(h + History(es, id)) ==> NeverOpens(OpenLog(cfg, s, es), id, Short)
    ensures NonIncreasing(h + History(es, id)) ==> NeverOpens(OpenLog(cfg, s, es), id, Long)
    decreases |es|
  {
    if es != [] {
      var s', rest := Step(cfg, s, es[0]), es[1..];
      var here := h + SampleIn(es[0], id);
      HistorySplits(h, es, id);
      PrefixTrends(here, History(rest, id));
      StepMetrics(cfg, s, es[0], id, h);
      EntriesFollowTheTrend(cfg, s', rest, id, here);
      FirstEventFollows(cfg, s, es[0], id, h);
      PrependNever(OpenedIn(cfg, s, es[0]), OpenLog(cfg, s', rest), id);
    }
  }

  lemma HistorySplits(h: seq<Sample>, es: seq<Event>, id: SymbolId)
    requires es != []
    ensures h + History(es, id) == (h + SampleIn(es[0], id)) + History(es[1..], id)
  {
  }

  lemma PrependNever(head: seq<OpenRecord>, tail: seq<OpenRecord>, id: SymbolId)
    ensures forall side | (forall r | r in head :: r.symbolId == id ==> r.side != side) && NeverOpens(tail, id, side) ::
              NeverOpens(head + tail, id, side)
  {
    var log := head + tail;
    forall side | (forall r | r in head :: r.symbolId == id ==> r.side != side) && NeverOpens(tail, id, side)
      ensures NeverOpens(log, id, side)
    {
      forall i | 0 <= i < |log| && log[i].symbolId == id ensures log[i].side != side {
        if i < |head| {
          assert log[i] == head[i];
        } else {
          assert log[i] == tail[i - |head|];
        }
      }
    }
  }

  lemma FirstEventFollows(cfg: Config, s: State, e: Event, id: SymbolId, h: seq<Sample>)
    requires MetricsOf(s, id) == Replay(h) && PositivePrices(h + SampleIn(e, id))
    ensures NonDecreasing(h + SampleIn(e, id)) ==> forall r | r in OpenedIn(cfg, s, e) :: r.symbolId == id ==> r.side != Short
    ensures NonIncreasing(h + SampleIn(e, id)) ==> forall r | r in OpenedIn(cfg, s, e) :: r.symbolId == id ==> r.side != Long
  {
    if e.BinanceTick? && e.tick.symbolId == id {
      OpenedFollowsHistory(cfg, s, e.tick, e.root, e.clocks, h);
    } else if e.BinanceTick? {
      var (s2, pkt) := BeforeEntry(cfg, s, e.tick, e.root, e.clocks);
      assert pkt.symbolId == e.tick.symbolId;
    }
  }

  /** From startup. */
  lemma RunsFollowTheTrend(cfg: Config, at: nat, es: seq<Event>, id: SymbolId)
    requires PositivePrices(History(es, id))
    ensures NonDecreasing(History(es, id)) ==> NeverOpens(OpenLog(cfg, Init(cfg, at), es), id, Short)
    ensures NonIncreasing(History(es, id)) ==> NeverOpens(OpenLog(cfg, Init(cfg, at), es), id, Long)
  {
    var h := History(es, id)[..0];
    assert h + History(es, id) == History(es, id);
    EntriesFollowTheTrend(cfg, Init(cfg, at), es, id, h);
  }
}
