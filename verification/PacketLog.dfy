/** Length-prefixed packet logs (crates/shared/src/packet_log.rs). The payload
    encoding is a parameter; the framing around it is what is proved. */
module PacketLog {
  import opened Numerics
  import opened Packets

  type Byte = b: nat | b < 256

  const MAX_RECORD_BYTES: nat := 4096

  /** A serializer that may refuse a packet, and a deserializer that may refuse bytes. */
  datatype Codec = Codec(encode: Packet -> Option<seq<Byte>>, decode: seq<Byte> -> Option<Packet>)
  {
    ghost predicate Invertible()
    {
      forall p :: encode(p).Some? ==> decode(encode(p).value) == Some(p)
    }
  }

  datatype Error = InvalidLength(length: nat) | UnexpectedEof | Undecodable

  datatype Result<+T> = Ok(value: T) | Err(error: Error)

  // ------------------------------------------------------------------
  // Writing
  // ------------------------------------------------------------------

  /** `u32::to_le_bytes`. */
  function LittleEndian(n: nat): seq<Byte>
    requires n < 0x1_0000_0000
  {
    [n % 256, n / 256 % 256, n / 65536 % 256, n / 16777216]
  }

  /** `u32::from_le_bytes`. */
  function FromLittleEndian(b: seq<Byte>): nat
    requires |b| == 4
  {
    var (b0: int, b1: int, b2: int, b3: int) := (b[0], b[1], b[2], b[3]);
    b0 + 256 * b1 + 65536 * b2 + 16777216 * b3
  }

  lemma LengthRoundTrip(n: nat)
    requires n < 0x1_0000_0000
    ensures FromLittleEndian(LittleEndian(n)) == n
  {
    assert n / 65536 == n / 256 / 256;
    assert n / 16777216 == n / 65536 / 256;
  }

  type Payload = b: seq<Byte> | |b| <= MAX_RECORD_BYTES

  function Frame(payload: Payload): seq<Byte>
  {
    LittleEndian(|payload|) + payload
  }

  /** The length is written least significant byte first. */
  lemma LeastByteFirst(n: nat)
    requires n < 0x1_0000_0000
    ensures var b := LittleEndian(n);
            n == b[0] as int + 256 * b[1] as int + 65536 * b[2] as int + 16777216 * b[3] as int
  {
    LengthRoundTrip(n);
  }

  predicate Accepts(c: Codec, p: Packet) { c.encode(p).Some? && |c.encode(p).value| <= MAX_RECORD_BYTES }

  class PacketLogWriter {
    const codec: Codec
    var file: seq<Byte>

    /** Opens for appending: what the file holds already stays. */
    constructor (codec: Codec, existing: seq<Byte>)
      ensures this.codec == codec && file == existing
    {
      this.codec, file := codec, existing;
    }

    /** A refused packet leaves no byte behind. */
    method Append(p: Packet) returns (ok: bool)
      modifies this
      ensures ok == Accepts(codec, p)
      ensures file == if ok then old(file) + Frame(codec.encode(p).value) else old(file)
    {
      var bytes := codec.encode(p);
      if bytes.None? || |bytes.value| > MAX_RECORD_BYTES { return false; }
      file := file + LittleEndian(|bytes.value|);
      file := file + bytes.value;
      return true;
    }

    /** A writing session: refused packets are skipped. */
    method AppendAll(ps: seq<Packet>)
      modifies this
      ensures file == old(file) + Frames(Payloads(codec, ps))
    {
      for i := 0 to |ps|
        invariant file == old(file) + Frames(Payloads(codec, ps[..i]))
      {
        SessionGrows(codec, ps, i, old(file));
        var ok := Append(ps[i]);
      }
      assert ps[..|ps|] == ps;
    }
  }

  /** A log as its payloads determine it. */
  function Frames(payloads: seq<Payload>): seq<Byte>
  {
    if |payloads| == 0 then [] else Frame(payloads[0]) + Frames(payloads[1..])
  }

  lemma {:induction false} FramesAppend(a: seq<Payload>, b: seq<Payload>)
    ensures Frames(a + b) == Frames(a) + Frames(b)
  {
    if |a| == 0 {
      assert a + b == b;
    } else {
      assert (a + b)[0] == a[0] && (a + b)[1..] == a[1..] + b;
      FramesAppend(a[1..], b);
    }
  }

  /** The packets a session keeps, and their encodings. */
  function Kept(c: Codec, ps: seq<Packet>): seq<Packet>
  {
    if |ps| == 0 then [] else Kept(c, ps[..|ps| - 1]) + if Accepts(c, ps[|ps| - 1]) then [ps[|ps| - 1]] else []
  }

  function Payloads(c: Codec, ps: seq<Packet>): (r: seq<Payload>)
    ensures |r| == |Kept(c, ps)|
    ensures forall i | 0 <= i < |r| :: c.encode(Kept(c, ps)[i]) == Some(r[i])
  {
    if |ps| == 0 then []
    else
      var last := ps[|ps| - 1];
      Payloads(c, ps[..|ps| - 1]) + if Accepts(c, last) then [c.encode(last).value] else []
  }

  lemma FramesGrow(c: Codec, ps: seq<Packet>, i: nat)
    requires i < |ps|
    ensures Frames(Payloads(c, ps[..i + 1]))
            == Frames(Payloads(c, ps[..i])) + if Accepts(c, ps[i]) then Frame(c.encode(ps[i]).value) else []
  {
    assert ps[..i + 1][..i] == ps[..i];
    var before, after := Payloads(c, ps[..i]), Payloads(c, ps[..i + 1]);
    if Accepts(c, ps[i]) {
      var payload: Payload := c.encode(ps[i]).value;
      assert after == before + [payload];
      FramesAppend(before, [payload]);
      OneFrame(payload);
    } else {
      assert after == before;
    }
  }

  lemma SessionGrows(c: Codec, ps: seq<Packet>, i: nat, start: seq<Byte>)
    requires i < |ps|
    ensures var before, after := start + Frames(Payloads(c, ps[..i])), start + Frames(Payloads(c, ps[..i + 1]));
            after == if Accepts(c, ps[i]) then before + Frame(c.encode(ps[i]).value) else before
  {
    FramesGrow(c, ps, i);
  }

  lemma OneFrame(payload: Payload)
    ensures Frames([payload]) == Frame(payload)
  {
    assert |[payload][1..]| == 0;
  }

  /** Exactly the packets that encode to at most 4096 bytes are kept, each as
      often as it was offered and in the order offered: `at[i]` says where the
      `i`-th kept one was. */
  lemma {:induction false} KeptExactly(c: Codec, ps: seq<Packet>) returns (at: seq<nat>)
    ensures |at| == |Kept(c, ps)|
    ensures forall i | 0 <= i < |at| :: at[i] < |ps| && Kept(c, ps)[i] == ps[at[i]]
    ensures forall i, j | 0 <= i < j < |at| :: at[i] < at[j]
    ensures forall k | 0 <= k < |ps| :: k in at <==> c.encode(ps[k]).Some? && |c.encode(ps[k]).value| <= 4096
  {
    if |ps| == 0 {
      at := [];
    } else {
      var n := |ps| - 1;
      var before := KeptExactly(c, ps[..n]);
      at := before + if Accepts(c, ps[n]) then [n] else [];
      forall k | 0 <= k < |ps| ensures k in at <==> c.encode(ps[k]).Some? && |c.encode(ps[k]).value| <= 4096 {
        if k < n {
          assert ps[k] == ps[..n][k] && (k in at <==> k in before);
        } else {
          assert n !in before;
        }
      }
    }
  }

  // ------------------------------------------------------------------
  // Reading
  // ------------------------------------------------------------------

  /** What the reader finds at the front of the bytes that are left. */
  datatype Head = Finished | Failed(error: Error) | Record(packet: Packet, size: nat)

  function ReadRecord(c: Codec, bytes: seq<Byte>): (h: Head)
    ensures h.Record? ==> 4 < h.size <= |bytes|
  {
    if |bytes| < 4 then Finished
    else
      var len := FromLittleEndian(bytes[..4]);
      if len == 0 || len > MAX_RECORD_BYTES then Failed(InvalidLength(len))
      else if |bytes| - 4 < len then Failed(UnexpectedEof)
      else
        var p := c.decode(bytes[4..4 + len]);
        if p.None? then Failed(Undecodable) else Record(p.value, 4 + len)
  }

  /** `read_packets`. */
  function Parse(c: Codec, bytes: seq<Byte>): Result<seq<Packet>>
    decreases |bytes|
  {
    match ReadRecord(c, bytes)
    case Finished => Ok([])
    case Failed(e) => Err(e)
    case Record(p, size) => Prepend([p], Parse(c, bytes[size..]))
  }

  function Prepend(xs: seq<Packet>, r: Result<seq<Packet>>): Result<seq<Packet>>
  {
    if r.Ok? then Ok(xs + r.value) else r
  }

  lemma PrependTwice(xs: seq<Packet>, ys: seq<Packet>, r: Result<seq<Packet>>)
    ensures Prepend(xs + ys, r) == Prepend(xs, Prepend(ys, r))
    ensures Prepend([], r) == r
  {
    if r.Ok? {
      assert (xs + ys) + r.value == xs + (ys + r.value);
      assert [] + r.value == r.value;
    }
  }

  /** The packets in `out` are what the bytes before `at` hold. */
  ghost predicate ReadUpTo(c: Codec, file: seq<Byte>, at: nat, out: seq<Packet>)
  {
    at <= |file| && Parse(c, file) == Prepend(out, Parse(c, file[at..]))
  }

  /** One pass of the reading loop. */
  lemma ReadOne(c: Codec, file: seq<Byte>, at: nat, out: seq<Packet>)
    requires ReadUpTo(c, file, at, out)
    ensures var left := |file| - at;
            if left < 4 then Parse(c, file) == Ok(out)
            else
              var len := FromLittleEndian(file[at..at + 4]);
              if len == 0 || len > MAX_RECORD_BYTES then Parse(c, file) == Err(InvalidLength(len))
              else if left - 4 < len then Parse(c, file) == Err(UnexpectedEof)
              else
                var p := c.decode(file[at + 4..at + 4 + len]);
                if p.None? then Parse(c, file) == Err(Undecodable)
                else ReadUpTo(c, file, at + 4 + len, out + [p.value])
  {
    var left := file[at..];
    if |left| < 4 {
      StrayBytes(c, out, left);
    } else {
      assert left[..4] == file[at..at + 4];
      var len := FromLittleEndian(left[..4]);
      if 0 < len <= MAX_RECORD_BYTES && len <= |left| - 4 {
        assert left[4..4 + len] == file[at + 4..at + 4 + len];
        assert left[4 + len..] == file[at + 4 + len..];
        var p := c.decode(left[4..4 + len]);
        if p.Some? {
          PrependTwice(out, [p.value], Parse(c, left[4 + len..]));
        }
      }
    }
  }

  method ReadPackets(c: Codec, file: seq<Byte>) returns (r: Result<seq<Packet>>)
    ensures r == Parse(c, file)
  {
    var out: seq<Packet> := [];
    var at := 0;
    assert file[0..] == file;
    PrependTwice([], [], Parse(c, file));
    while true
      invariant ReadUpTo(c, file, at, out)
      decreases |file| - at
    {
      ReadOne(c, file, at, out);
      if |file| - at < 4 { break; }
      var len := FromLittleEndian(file[at..at + 4]);
      if len == 0 || len > MAX_RECORD_BYTES { return Err(InvalidLength(len)); }
      if |file| - at - 4 < len { return Err(UnexpectedEof); }
      var p := c.decode(file[at + 4..at + 4 + len]);
      if p.None? { return Err(Undecodable); }
      out := out + [p.value];
      at := at + 4 + len;
    }
    return Ok(out);
  }

  // ------------------------------------------------------------------
  // What the reader accepts
  // ------------------------------------------------------------------

  predicate Readable(c: Codec, payload: Payload)
  {
    |payload| > 0 && c.decode(payload).Some?
  }

  ghost predicate AllReadable(c: Codec, payloads: seq<Payload>)
  {
    forall i | 0 <= i < |payloads| :: Readable(c, payloads[i])
  }

  function Decoded(c: Codec, payloads: seq<Payload>): seq<Packet>
    requires AllReadable(c, payloads)
  {
    seq(|payloads|, i requires 0 <= i < |payloads| => c.decode(payloads[i]).value)
  }

  lemma ParseFrame(c: Codec, payload: Payload, rest: seq<Byte>)
    requires Readable(c, payload)
    ensures Parse(c, Frame(payload) + rest) == Prepend([c.decode(payload).value], Parse(c, rest))
  {
    var bytes, n := Frame(payload) + rest, |payload|;
    LengthRoundTrip(n);
    assert bytes[..4] == LittleEndian(n);
    assert bytes[4..4 + n] == payload;
    assert ReadRecord(c, bytes) == Record(c.decode(payload).value, 4 + n);
    assert bytes[4 + n..] == rest;
  }

  /** Whatever follows readable records is parsed as if it stood alone. */
  lemma {:induction false} ParseFrames(c: Codec, payloads: seq<Payload>, rest: seq<Byte>)
    requires AllReadable(c, payloads)
    ensures Parse(c, Frames(payloads) + rest) == Prepend(Decoded(c, payloads), Parse(c, rest))
  {
    if |payloads| == 0 {
      assert Frames(payloads) + rest == rest;
      assert Decoded(c, payloads) == [];
      PrependTwice([], [], Parse(c, rest));
    } else {
      var first, others := payloads[0], payloads[1..];
      assert Frames(payloads) + rest == Frame(first) + (Frames(others) + rest);
      ParseFrame(c, first, Frames(others) + rest);
      ParseFrames(c, others, rest);
      assert Decoded(c, payloads) == [c.decode(first).value] + Decoded(c, others);
      PrependTwice([c.decode(first).value], Decoded(c, others), Parse(c, rest));
    }
  }

  ghost predicate Explains(c: Codec, bytes: seq<Byte>, packets: seq<Packet>, payloads: seq<Payload>)
  {
    && AllReadable(c, payloads) && packets == Decoded(c, payloads)
    && Frames(payloads) <= bytes && |bytes| < |Frames(payloads)| + 4
  }

  /** The reader returns packets for exactly those files that are readable
      records with at most three stray bytes behind them. */
  lemma ReadsExactlyFramedFiles(c: Codec, bytes: seq<Byte>, packets: seq<Packet>)
    ensures Parse(c, bytes) == Ok(packets) <==> exists payloads :: Explains(c, bytes, packets, payloads)
  {
    if Parse(c, bytes) == Ok(packets) {
      var payloads := Unframe(c, bytes);
      assert Explains(c, bytes, packets, payloads);
    }
    if payloads :| Explains(c, bytes, packets, payloads) {
      FramedReads(c, bytes, packets, payloads);
    }
  }

  lemma FramedReads(c: Codec, bytes: seq<Byte>, packets: seq<Packet>, payloads: seq<Payload>)
    requires Explains(c, bytes, packets, payloads)
    ensures Parse(c, bytes) == Ok(packets)
  {
    var rest := bytes[|Frames(payloads)|..];
    assert bytes == Frames(payloads) + rest;
    ParseFrames(c, payloads, rest);
    StrayBytes(c, packets, rest);
  }

  lemma StrayBytes(c: Codec, packets: seq<Packet>, rest: seq<Byte>)
    requires |rest| < 4
    ensures Prepend(packets, Parse(c, rest)) == Ok(packets)
  {
    assert Parse(c, rest) == Ok([]);
    assert packets + [] == packets;
  }

  lemma {:induction false} Unframe(c: Codec, bytes: seq<Byte>) returns (payloads: seq<Payload>)
    requires Parse(c, bytes).Ok?
    ensures Explains(c, bytes, Parse(c, bytes).value, payloads)
    decreases |bytes|
  {
    if |bytes| < 4 {
      payloads := [];
    } else {
      var len := FromLittleEndian(bytes[..4]);
      var payload: Payload, left := bytes[4..4 + len], bytes[4 + len..];
      var others := Unframe(c, left);
      payloads := [payload] + others;
      LengthIsFramed(bytes[..4]);
      assert bytes == Frame(payload) + left;
      ExplainsMore(c, payload, left, Parse(c, left).value, others);
    }
  }

  lemma ExplainsMore(c: Codec, payload: Payload, left: seq<Byte>, packets: seq<Packet>, others: seq<Payload>)
    requires Readable(c, payload) && Explains(c, left, packets, others)
    ensures Explains(c, Frame(payload) + left, [c.decode(payload).value] + packets, [payload] + others)
  {
    var payloads := [payload] + others;
    assert payloads[1..] == others;
    assert Frames(payloads) == Frame(payload) + Frames(others);
    assert Decoded(c, payloads) == [c.decode(payload).value] + Decoded(c, others);
  }

  lemma LengthIsFramed(b: seq<Byte>)
    requires |b| == 4
    ensures FromLittleEndian(b) < 0x1_0000_0000 && LittleEndian(FromLittleEndian(b)) == b
  {
    var n := FromLittleEndian(b);
    var (b0: int, b1: int, b2: int, b3: int) := (b[0], b[1], b[2], b[3]);
    assert n / 256 == b1 + 256 * b2 + 65536 * b3;
    assert n / 65536 == b2 + 256 * b3;
    assert n / 16777216 == b3;
  }

  // ------------------------------------------------------------------
  // Round trip and truncation
  // ------------------------------------------------------------------

  /** Reading back what a session appended returns exactly the packets it
      accepted, unless some accepted packet had an empty encoding: the reader
      refuses the zero length the writer lets through. */
  lemma RoundTripExactly(c: Codec, ps: seq<Packet>)
    requires c.Invertible()
    ensures var read := Parse(c, Frames(Payloads(c, ps)));
            && (read == Ok(Kept(c, ps)) <==> forall p | p in Kept(c, ps) :: c.encode(p) != Some([]))
            && (read != Ok(Kept(c, ps)) ==> read == Err(InvalidLength(0)))
  {
    var payloads, kept := Payloads(c, ps), Kept(c, ps);
    KeptIsReadable(c, ps);
    if i :| 0 <= i < |kept| && |payloads[i]| == 0 {
      assert kept[i] in kept && c.encode(kept[i]) == Some([]) by {
        assert payloads[i] == [];
      }
      EmptyRecordStops(c, payloads, i);
    } else {
      forall p | p in kept ensures c.encode(p) != Some([]) {
        var i :| 0 <= i < |kept| && kept[i] == p;
        assert c.encode(kept[i]) == Some(payloads[i]);
      }
      FramedReads(c, Frames(payloads), kept, payloads);
    }
  }

  lemma KeptIsReadable(c: Codec, ps: seq<Packet>)
    requires c.Invertible()
    ensures var payloads := Payloads(c, ps);
            && (forall i | 0 <= i < |payloads| :: |payloads[i]| == 0 || Readable(c, payloads[i]))
            && (AllReadable(c, payloads) ==> Decoded(c, payloads) == Kept(c, ps))
  {
    var payloads, kept := Payloads(c, ps), Kept(c, ps);
    forall i | 0 <= i < |payloads|
      ensures c.encode(kept[i]) == Some(payloads[i]) && c.decode(payloads[i]) == Some(kept[i])
    {
    }
  }

  lemma {:induction false} EmptyRecordStops(c: Codec, payloads: seq<Payload>, at: nat)
    requires at < |payloads| && |payloads[at]| == 0
    requires forall i | 0 <= i < |payloads| :: |payloads[i]| == 0 || Readable(c, payloads[i])
    ensures Parse(c, Frames(payloads)) == Err(InvalidLength(0))
  {
    var first, others := payloads[0], payloads[1..];
    if |first| == 0 {
      LengthRoundTrip(0);
      assert Frames(payloads)[..4] == LittleEndian(0);
      assert ReadRecord(c, Frames(payloads)) == Failed(InvalidLength(0));
    } else {
      EmptyRecordStops(c, others, at - 1);
      ParseFrame(c, first, Frames(others));
    }
  }

  /** How many whole records lie before byte `cut`. */
  function Whole(payloads: seq<Payload>, cut: nat): (k: nat)
    ensures k <= |payloads|
    ensures |Frames(payloads[..k])| <= cut
    ensures k < |payloads| ==> cut < |Frames(payloads[..k + 1])|
  {
    if |payloads| == 0 || cut < |Frame(payloads[0])| then
      assert |payloads| > 0 ==> payloads[..1][1..] == [] && |Frames(payloads[..1])| == |Frame(payloads[0])|;
      0
    else
      var k := Whole(payloads[1..], cut - |Frame(payloads[0])|);
      assert payloads[..k + 1][1..] == payloads[1..][..k];
      assert k + 1 < |payloads| ==> payloads[..k + 2][1..] == payloads[1..][..k + 1];
      k + 1
  }

  /** A log cut at any byte reads as its whole records when the cut falls at a
      record boundary or inside a length, and as an error when it falls inside a
      payload. */
  lemma TruncationExactly(c: Codec, payloads: seq<Payload>, cut: nat)
    requires AllReadable(c, payloads) && cut <= |Frames(payloads)|
    ensures var k := Whole(payloads, cut);
            var stray := cut - |Frames(payloads[..k])|;
            Parse(c, Frames(payloads)[..cut])
            == if stray < 4 then Ok(Decoded(c, payloads)[..k]) else Err(UnexpectedEof)
  {
    var k := Whole(payloads, cut);
    var whole := payloads[..k];
    var stray := cut - |Frames(whole)|;
    var rest := CutFrames(payloads, k, cut);
    ParseFrames(c, whole, rest);
    assert Decoded(c, whole) == Decoded(c, payloads)[..k];
    if stray < 4 {
      StrayBytes(c, Decoded(c, whole), rest);
    } else {
      NextFrame(payloads, k);
      TornRecord(c, payloads[k], rest);
    }
  }

  lemma CutFrames(payloads: seq<Payload>, k: nat, cut: nat) returns (rest: seq<Byte>)
    requires k <= |payloads| && |Frames(payloads[..k])| <= cut <= |Frames(payloads)|
    ensures Frames(payloads)[..cut] == Frames(payloads[..k]) + rest
    ensures rest <= Frames(payloads[k..])
  {
    assert payloads == payloads[..k] + payloads[k..];
    FramesAppend(payloads[..k], payloads[k..]);
    rest := Frames(payloads[k..])[..cut - |Frames(payloads[..k])|];
  }

  lemma NextFrame(payloads: seq<Payload>, k: nat)
    requires k < |payloads|
    ensures Frames(payloads[..k + 1]) == Frames(payloads[..k]) + Frame(payloads[k])
    ensures Frame(payloads[k]) <= Frames(payloads[k..])
  {
    assert payloads[..k + 1] == payloads[..k] + [payloads[k]];
    FramesAppend(payloads[..k], [payloads[k]]);
    OneFrame(payloads[k]);
  }

  lemma TornRecord(c: Codec, payload: Payload, rest: seq<Byte>)
    requires Readable(c, payload) && 4 <= |rest| < |Frame(payload)| && rest <= Frame(payload)
    ensures Parse(c, rest) == Err(UnexpectedEof)
  {
    LengthRoundTrip(|payload|);
    assert rest[..4] == LittleEndian(|payload|);
    assert ReadRecord(c, rest) == Failed(UnexpectedEof);
  }
}
