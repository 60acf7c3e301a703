/** Warm risk flags and the entry check of crates/executor-core/src/risk.rs and warm_risk.rs. */
module Risk {
  import opened Numerics
  import opened Packets

  type Flags = bv64

  const CAPITAL_OK: Flags := 0x1
  const DD_OK: Flags := 0x2
  const CORR_OK: Flags := 0x4
  const BOOK_OK: Flags := 0x8
  const FUNDING_OK: Flags := 0x10
  const BASIS_OK: Flags := 0x20
  const MICRO_OK: Flags := 0x40
  const PAUSE_OK: Flags := 0x100
  const PAIR_ENABLED: Flags := 0x200
  const ENTRIES_FUTURES_OK: Flags := 0x800
  const FEE_EDGE_OK: Flags := 0x1000

  const ALL_FUTURES: Flags :=
    CAPITAL_OK | DD_OK | CORR_OK | BOOK_OK | FUNDING_OK | BASIS_OK | MICRO_OK | PAUSE_OK
    | PAIR_ENABLED | ENTRIES_FUTURES_OK | FEE_EDGE_OK

  function Cleared(bits: Flags, flag: Flags): Flags { bits & !flag }

  predicate AllRequired(bits: Flags) { bits & ALL_FUTURES == ALL_FUTURES }

  /** The mutex-guarded warm state. */
  datatype Warm = Warm(dayPnlPct: real, maxDailyDd: real, fundingRate: real, maxFundingRate: real,
                       bookDepthUsd: real, minBookDepthUsd: real, entriesHalted: bool)
  {
    predicate DrawdownHit() { dayPnlPct <= -maxDailyDd }

    predicate FundingHigh() { Abs(fundingRate) > maxFundingRate }

    predicate BookThin() { 0.0 < bookDepthUsd < minBookDepthUsd }

    /** Nothing in the warm state stands against an entry. */
    predicate Clear() { !DrawdownHit() && !FundingHigh() && !BookThin() && !entriesHalted }
  }

  predicate Has(bits: Flags, flag: Flags) { bits & flag == flag }

  function ComputeFlags(w: Warm): Flags
  {
    var b0 := ALL_FUTURES;
    var b1 := if w.dayPnlPct <= -w.maxDailyDd then Cleared(b0, DD_OK | ENTRIES_FUTURES_OK) else b0;
    var b2 := if Abs(w.fundingRate) > w.maxFundingRate then Cleared(b1, FUNDING_OK) else b1;
    var b3 := if w.bookDepthUsd > 0.0 && w.bookDepthUsd < w.minBookDepthUsd then Cleared(b2, BOOK_OK | MICRO_OK) else b2;
    if w.entriesHalted then Cleared(b3, ENTRIES_FUTURES_OK | PAUSE_OK) else b3
  }

  /** What the published word says. Each guard clears its own bits and no other,
      no later step restores a bit, and so the word admits an entry exactly when
      no guard has fired. */
  lemma FlagsMeanGuards(w: Warm)
    ensures var bits := ComputeFlags(w);
            && (AllRequired(bits) <==> w.Clear())
            && (Has(bits, DD_OK) <==> !w.DrawdownHit())
            && (Has(bits, FUNDING_OK) <==> !w.FundingHigh())
            && (Has(bits, BOOK_OK) <==> !w.BookThin())
            && (Has(bits, MICRO_OK) <==> !w.BookThin())
            && (Has(bits, PAUSE_OK) <==> !w.entriesHalted)
            && (Has(bits, ENTRIES_FUTURES_OK) <==> !w.DrawdownHit() && !w.entriesHalted)
            && bits | DD_OK | FUNDING_OK | BOOK_OK | MICRO_OK | PAUSE_OK | ENTRIES_FUTURES_OK == ALL_FUTURES
  {
  }

  /** The process-wide atomic the warm path publishes to. */
  class WarmFlags {
    var bits: Flags

    constructor ()
      ensures bits == ALL_FUTURES
    {
      bits := ALL_FUTURES;
    }
  }

  class WarmRiskState {
    var dayPnlPct: real
    const maxDailyDd: real
    var fundingRate: real
    const maxFundingRate: real
    var bookDepthUsd: real
    const minBookDepthUsd: real
    var entriesHalted: bool

    ghost function Value(): Warm
      reads this
    {
      Warm(dayPnlPct, maxDailyDd, fundingRate, maxFundingRate, bookDepthUsd, minBookDepthUsd, entriesHalted)
    }

    constructor (w: Warm)
      ensures Value() == w
    {
      dayPnlPct, maxDailyDd, fundingRate, maxFundingRate, bookDepthUsd, minBookDepthUsd, entriesHalted :=
        w.dayPnlPct, w.maxDailyDd, w.fundingRate, w.maxFundingRate, w.bookDepthUsd, w.minBookDepthUsd, w.entriesHalted;
    }

    method Flagged() returns (bits: Flags)
      ensures bits == ComputeFlags(Value())
    {
      bits := ALL_FUTURES;
      if dayPnlPct <= -maxDailyDd {
        bits := Cleared(bits, DD_OK | ENTRIES_FUTURES_OK);
      }
      if Abs(fundingRate) > maxFundingRate {
        bits := Cleared(bits, FUNDING_OK);
      }
      if bookDepthUsd > 0.0 && bookDepthUsd < minBookDepthUsd {
        bits := Cleared(bits, BOOK_OK | MICRO_OK);
      }
      if entriesHalted {
        bits := Cleared(bits, ENTRIES_FUTURES_OK | PAUSE_OK);
      }
    }

    method Publish(global: WarmFlags)
      modifies global
      ensures global.bits == ComputeFlags(Value())
    {
      global.bits := Flagged();
    }
  }

  // ------------------------------------------------------------------
  // The entry check
  // ------------------------------------------------------------------

  const MAX_SYMBOLS: nat := 35
  const F32_MAX: real := 340282346638528859811704183484516925440.0

  datatype Decision = Open | Skip | Stale | Duplicate | AdverseMoveExceeded

  /** How far Bybit has already moved in the direction of the signal. */
  function AdverseMoveBps(refPrice: real, bybitMid: real, directionBias: int): real
  {
    if refPrice <= 0.0 || bybitMid <= 0.0 then F32_MAX
    else
      var signed := (bybitMid - refPrice) / refPrice * 10_000.0;
      if directionBias > 0 then Max(signed, 0.0)
      else if directionBias < 0 then Max(-signed, 0.0)
      else Abs(signed)
  }

  function BybitOrRef(p: Packet): real
  {
    if p.bybitMidRef > 0.0 then p.bybitMidRef else p.refPrice
  }

  type Slots = s: seq<nat> | |s| == MAX_SYMBOLS witness seq(MAX_SYMBOLS, _ => 0)

  /** `check_entry`: the decision and the deduplication slots it leaves. */
  function Check(lastSeq: Slots, maxLatencyNs: nat, maxAdverse: real, flags: Flags, now: nat, p: Packet)
    : (r: (Decision, Slots))
  {
    if p.entryValid == 0 then (Skip, lastSeq)
    else if SatSub(now, p.tsNs) > maxLatencyNs then (Stale, lastSeq)
    else if p.symbolId == 0 || p.symbolId > MAX_SYMBOLS then (Skip, lastSeq)
    else
      var slot := p.symbolId - 1;
      if p.seqNum <= lastSeq[slot] then (Duplicate, lastSeq)
      else
        var seen := lastSeq[slot := p.seqNum];
        if !AllRequired(flags) then (Skip, seen)
        else if p.dExp < p.dMin then (Skip, seen)
        else if AdverseMoveBps(p.refPrice, BybitOrRef(p), p.directionBias) > maxAdverse then (AdverseMoveExceeded, seen)
        else (Open, seen)
  }

  class RiskEngine {
    const maxLatencyNs: nat
    var maxAdverse: real
    const lastSeq: array<nat>

    ghost predicate Valid()
      reads this
    {
      lastSeq.Length == MAX_SYMBOLS
    }

    constructor (maxLatencyNs: nat, maxAdverse: real)
      ensures Valid() && fresh(lastSeq)
      ensures this.maxLatencyNs == maxLatencyNs && this.maxAdverse == maxAdverse
      ensures lastSeq[..] == seq(MAX_SYMBOLS, _ => 0)
    {
      this.maxLatencyNs := maxLatencyNs;
      this.maxAdverse := maxAdverse;
      lastSeq := new nat[MAX_SYMBOLS](_ => 0);
    }

    method CheckEntry(p: Packet, now: nat, global: WarmFlags) returns (d: Decision)
      requires Valid()
      modifies lastSeq
      ensures (d, lastSeq[..]) == Check(old(lastSeq[..]), maxLatencyNs, maxAdverse, global.bits, now, p)
    {
      if p.entryValid == 0 { return Skip; }
      var latency := SatSub(now, p.tsNs);
      if latency > maxLatencyNs { return Stale; }
      var idx := p.symbolId;
      if idx == 0 || idx > MAX_SYMBOLS { return Skip; }
      var slot := idx - 1;
      if p.seqNum <= lastSeq[slot] { return Duplicate; }
      lastSeq[slot] := p.seqNum;
      if !AllRequired(global.bits) { return Skip; }
      if p.dExp < p.dMin { return Skip; }
      var bybit := if p.bybitMidRef > 0.0 then p.bybitMidRef else p.refPrice;
      var moveBps := AdverseMoveBps(p.refPrice, bybit, p.directionBias);
      if moveBps > maxAdverse { return AdverseMoveExceeded; }
      return Open;
    }
  }

  // ------------------------------------------------------------------
  // What the check decides
  // ------------------------------------------------------------------

  /** Bybit has already moved the signal's way by more than `limit` bps of the
      reference price (either way, for a packet without direction). */
  predicate MovedTooFar(refPrice: real, bybit: real, bias: int, limit: real)
  {
    var up, allowed := (bybit - refPrice) * 10_000.0, Times(limit, refPrice);
    if bias > 0 then up > allowed
    else if bias < 0 then -up > allowed
    else up > allowed || -up > allowed
  }

  lemma BpsOver(x: real, p: real, limit: real)
    requires p > 0.0
    ensures x / p * 10_000.0 > limit <==> x * 10_000.0 > Times(limit, p)
    ensures -(x / p * 10_000.0) > limit <==> -x * 10_000.0 > Times(limit, p)
  {
    QuotientAgainst(x, p, limit / 10_000.0);
    QuotientAgainst(-x, p, limit / 10_000.0);
    DivSub(0.0, x, p);
  }

  lemma AdverseMoveExactly(refPrice: real, bybit: real, bias: int, limit: real)
    requires refPrice > 0.0 && bybit > 0.0
    ensures AdverseMoveBps(refPrice, bybit, bias) > limit <==> limit < 0.0 || MovedTooFar(refPrice, bybit, bias, limit)
  {
    BpsOver(bybit - refPrice, refPrice, limit);
    if limit < 0.0 {
      assert AdverseMoveBps(refPrice, bybit, bias) >= 0.0;
    }
  }

  /** `AdverseMoveExceeded` is for the packets that would open otherwise. */
  predicate Killed(p: Packet, limit: real)
  {
    if p.refPrice <= 0.0 then limit < F32_MAX
    else
      limit < 0.0
      || MovedTooFar(p.refPrice, if p.bybitMidRef > 0.0 then p.bybitMidRef else p.refPrice, p.directionBias, limit)
  }

  /** The entry check, decision by decision, and the slot it leaves: a sequence
      number is used up as soon as the packet is valid, in time, known and new,
      whatever is decided after that. */
  lemma CheckExactly(lastSeq: Slots, maxLatencyNs: nat, maxAdverse: real, flags: Flags, now: nat, p: Packet)
    ensures var (d, slots) := Check(lastSeq, maxLatencyNs, maxAdverse, flags, now, p);
            var valid, late, known := p.entryValid != 0, now > p.tsNs + maxLatencyNs, 1 <= p.symbolId <= 35;
            var new_ := valid && !late && known && lastSeq[p.symbolId - 1] < p.seqNum;
            var wanted := new_ && AllRequired(flags) && p.dExp >= p.dMin;
            && (d == Stale <==> valid && late)
            && (d == Duplicate <==> valid && !late && known && p.seqNum <= lastSeq[p.symbolId - 1])
            && (d == AdverseMoveExceeded <==> wanted && Killed(p, maxAdverse))
            && (d == Open <==> wanted && !Killed(p, maxAdverse))
            && slots == if new_ then lastSeq[p.symbolId - 1 := p.seqNum] else lastSeq
  {
    if p.refPrice > 0.0 {
      AdverseMoveExactly(p.refPrice, BybitOrRef(p), p.directionBias, maxAdverse);
    }
  }

  // ------------------------------------------------------------------
  // Deduplication over runs
  // ------------------------------------------------------------------

  /** One call of the check: everything it reads besides the slots. */
  datatype Call = Call(maxLatencyNs: nat, maxAdverse: real, flags: Flags, now: nat, packet: Packet)

  function Decide(lastSeq: Slots, c: Call): (Decision, Slots)
  {
    Check(lastSeq, c.maxLatencyNs, c.maxAdverse, c.flags, c.now, c.packet)
  }

  function SlotsAfter(lastSeq: Slots, calls: seq<Call>): Slots
  {
    if calls == [] then lastSeq else Decide(SlotsAfter(lastSeq, calls[..|calls| - 1]), calls[|calls| - 1]).1
  }

  function DecisionAt(lastSeq: Slots, calls: seq<Call>, i: nat): Decision
    requires i < |calls|
  {
    Decide(SlotsAfter(lastSeq, calls[..i]), calls[i]).0
  }

  /** Slots only grow, and a call touches no symbol but its own. */
  lemma CheckFrame(lastSeq: Slots, c: Call, k: nat)
    requires k < MAX_SYMBOLS
    ensures var r := Decide(lastSeq, c);
            && lastSeq[k] <= r.1[k]
            && (k + 1 != c.packet.symbolId ==> r.1[k] == lastSeq[k])
            && (r.0 == Open && k + 1 == c.packet.symbolId ==> lastSeq[k] < c.packet.seqNum == r.1[k])
  {
  }

  lemma {:induction false} SlotsGrow(lastSeq: Slots, calls: seq<Call>, i: nat, k: nat)
    requires i <= |calls| && k < MAX_SYMBOLS
    ensures SlotsAfter(lastSeq, calls[..i])[k] <= SlotsAfter(lastSeq, calls)[k]
    decreases |calls|
  {
    if i < |calls| {
      var shorter := calls[..|calls| - 1];
      assert shorter[..i] == calls[..i];
      SlotsGrow(lastSeq, shorter, i, k);
      CheckFrame(SlotsAfter(lastSeq, shorter), calls[|calls| - 1], k);
    } else {
      assert calls[..i] == calls;
    }
  }

  /** No double entry: whatever packets arrive, under whatever flags, clocks
      and limits, two Open decisions for one symbol carry strictly increasing
      sequence numbers. */
  lemma NoDoubleEntry(lastSeq: Slots, calls: seq<Call>, i: nat, j: nat)
    requires i < j < |calls|
    requires calls[i].packet.symbolId == calls[j].packet.symbolId
    requires DecisionAt(lastSeq, calls, i) == Open && DecisionAt(lastSeq, calls, j) == Open
    ensures calls[i].packet.seqNum < calls[j].packet.seqNum
  {
    var k := calls[i].packet.symbolId - 1;
    CheckFrame(SlotsAfter(lastSeq, calls[..i]), calls[i], k);
    assert calls[..i + 1][..i] == calls[..i];
    assert calls[..j][..i + 1] == calls[..i + 1];
    SlotsGrow(lastSeq, calls[..j], i + 1, k);
    CheckFrame(SlotsAfter(lastSeq, calls[..j]), calls[j], k);
  }
}
