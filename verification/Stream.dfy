/** The receiving side: bytes arrive in arbitrary pieces, packets come out. */
module Stream {
  import opened Payloads
  import opened Codec
  import opened Packets

  /** The packets that draining a buffer yields, and the bytes it leaves. */
  function Drain(buf: seq<Byte>): (r: (seq<Inbound>, seq<Byte>))
    ensures |r.1| <= |buf|
    decreases |buf|
  {
    match ParseStep(buf)
    case NeedMore => ([], buf)
    case BadLength => ([], [])
    case BadPublish(rest) => ([], rest)
    case Parsed(p, rest) => Prepend(p, Drain(rest))
  }

  function Prepend(p: Inbound, r: (seq<Inbound>, seq<Byte>)): (seq<Inbound>, seq<Byte>) {
    ([p] + r.0, r.1)
  }

  /** What is still to come when the parser has taken a packet off the buffer, or has not. */
  function Pending(ok: bool, packet: Inbound, buf: seq<Byte>): (seq<Inbound>, seq<Byte>) {
    if ok then Prepend(packet, Drain(buf)) else ([], buf)
  }

  lemma ParsedIsPending(buf: seq<Byte>, ok: bool, packet: Inbound, left: seq<Byte>)
    requires match ParseStep(buf)
             case NeedMore => !ok && left == buf
             case BadLength => !ok && left == []
             case BadPublish(rest) => !ok && left == rest
             case Parsed(p, rest) => ok && packet == p && left == rest
    ensures Pending(ok, packet, left) == Drain(buf)
    ensures ok ==> |left| < |buf|
    ensures |left| <= |buf|
  {
  }

  lemma OneDispatched(before: seq<Inbound>, packet: Inbound, rest: seq<Inbound>)
    ensures before + ([packet] + rest) == before + [packet] + rest
  {
  }

  /** A piece of the stream; `remaining` bytes of the same websocket message are still to come. */
  datatype Piece = Piece(data: seq<Byte>, remaining: nat)

  class Receiver {
    const inbound: ByteBuffer
    var connected: bool
    var dispatched: seq<Inbound>

    constructor ()
      ensures fresh(inbound) && inbound.data == [] && dispatched == [] && !connected
    {
      inbound := new ByteBuffer();
      connected, dispatched := false, [];
    }

    /** Every complete packet at the front is dispatched; each one shrinks the buffer, so this ends. */
    method DrainInbound()
      modifies this, inbound
      ensures (dispatched, inbound.data) == (old(dispatched) + Drain(old(inbound.data)).0, Drain(old(inbound.data)).1)
      ensures connected <==> old(connected) || Other(2) in Drain(old(inbound.data)).0
    {
      var ok, packet := TryParseNextPacket(inbound);
      ParsedIsPending(old(inbound.data), ok, packet, inbound.data);
      while ok
        invariant dispatched + Pending(ok, packet, inbound.data).0 == old(dispatched) + Drain(old(inbound.data)).0
        invariant Pending(ok, packet, inbound.data).1 == Drain(old(inbound.data)).1
        invariant connected || Other(CONNACK) in Pending(ok, packet, inbound.data).0
              <==> old(connected) || Other(CONNACK) in Drain(old(inbound.data)).0
        decreases |inbound.data|, ok
      {
        if packet == Other(CONNACK) {
          connected := true;
        }
        ghost var buf := inbound.data;
        OneDispatched(dispatched, packet, Drain(buf).0);
        dispatched := dispatched + [packet];
        ok, packet := TryParseNextPacket(inbound);
        ParsedIsPending(buf, ok, packet, inbound.data);
      }
      assert dispatched + [] == dispatched;
    }

    method HandleRawMessage(piece: Piece)
      modifies this, inbound
      ensures (dispatched, inbound.data) == Feed((old(dispatched), old(inbound.data)), piece)
    {
      inbound.Append(piece.data);
      if piece.remaining > 0 {
        return;
      }
      DrainInbound();
    }
  }

  const CONNACK: nat := 2

  function Feed(at: (seq<Inbound>, seq<Byte>), piece: Piece): (seq<Inbound>, seq<Byte>) {
    var buf := at.1 + piece.data;
    if piece.remaining > 0 then (at.0, buf) else (at.0 + Drain(buf).0, Drain(buf).1)
  }

  function FeedAll(at: (seq<Inbound>, seq<Byte>), pieces: seq<Piece>): (seq<Inbound>, seq<Byte>)
    decreases |pieces|
  {
    if pieces == [] then at else FeedAll(Feed(at, pieces[0]), pieces[1..])
  }

  function Whole(pieces: seq<Piece>): seq<Byte> {
    if pieces == [] then [] else pieces[0].data + Whole(pieces[1..])
  }

  /** A refused length loses all that was received; a PUBLISH below 128 bytes whose topic does not fit loses its own
      bytes, and what follows has to wait for more. */
  lemma MalformedOnTheWire(first: Byte, a: Byte, b: Byte, c: Byte, d: Byte, flags: nat, body: seq<Byte>,
                           rest: seq<Byte>)
    ensures a >= 128 && b >= 128 && c >= 128 && d >= 128 ==> Drain([first, a, b, c, d] + rest) == ([], [])
    ensures flags < 16 && |body| < 128 && (|body| < 2 || 256 * body[0] + body[1] > |body| - 2) ==>
              Drain([48 + flags, |body|] + body + rest) == ([], rest)
  {
    UnparsedFromTheWire(first, body, 0, a, b, c, d, rest);
    if flags < 16 && |body| < 128 {
      ParsedFromTheWire(flags, 3, body, rest);
    }
  }

  // ---------- More bytes change nothing that was decided ----------

  lemma {:induction false} ContinuationsGrow(a: seq<Byte>, b: seq<Byte>, offset: nat)
    ensures Continuations(a, offset) <= Continuations(a + b, offset)
    ensures offset + Continuations(a, offset) < |a| ==> Continuations(a + b, offset) == Continuations(a, offset)
    decreases |a| - offset
  {
    if offset < |a| && a[offset] >= 128 {
      ContinuationsGrow(a, b, offset + 1);
    }
  }

  lemma {:induction false} VarValueGrow(a: seq<Byte>, b: seq<Byte>, offset: nat, n: nat)
    requires offset + n <= |a|
    ensures VarValue(a + b, offset, n) == VarValue(a, offset, n)
  {
    if n > 0 {
      VarValueGrow(a, b, offset, n - 1);
    }
  }

  lemma LengthGrow(a: seq<Byte>, b: seq<Byte>, offset: nat)
    ensures LengthAt(a, offset) != Incomplete ==> LengthAt(a + b, offset) == LengthAt(a, offset)
  {
    ContinuationsGrow(a, b, offset);
    var n := Continuations(a, offset);
    if n < 4 && offset + n < |a| {
      VarValueGrow(a, b, offset, n + 1);
    }
  }

  lemma StringGrow(a: seq<Byte>, b: seq<Byte>, cursor: nat, end: nat)
    requires end <= |a|
    ensures StringAt(a + b, cursor, end) == StringAt(a, cursor, end)
  {
    if StringAt(a, cursor, end).Some? {
      var next := StringAt(a, cursor, end).value.1;
      assert (a + b)[cursor + 2..next] == a[cursor + 2..next];
    }
  }

  lemma StepGrow(a: seq<Byte>, b: seq<Byte>)
    ensures match ParseStep(a)
            case NeedMore => true
            case BadLength => ParseStep(a + b) == BadLength
            case BadPublish(rest) => ParseStep(a + b) == BadPublish(rest + b)
            case Parsed(p, rest) => ParseStep(a + b) == Parsed(p, rest + b)
  {
    if ParseStep(a) != NeedMore {
      LengthGrow(a, b, 1);
      if LengthAt(a, 1).Length? {
        var start := 1 + LengthAt(a, 1).bytes;
        var total := start + LengthAt(a, 1).value;
        StringGrow(a, b, start, total);
        assert (a + b)[total..] == a[total..] + b;
        PayloadGrow(a, b, start, total);
      }
    }
  }

  lemma PayloadGrow(a: seq<Byte>, b: seq<Byte>, start: nat, total: nat)
    requires total <= |a|
    ensures StringAt(a, start, total).Some? ==>
      (a + b)[StringAt(a, start, total).value.1..total] == a[StringAt(a, start, total).value.1..total]
  {
  }

  // ---------- Where a drain stops ----------

  /** The bytes at which the drain of a stream stops. */
  function StopsAt(s: seq<Byte>): (r: seq<Byte>)
    ensures !ParseStep(r).Parsed?
    decreases |s|
  {
    match ParseStep(s)
    case Parsed(_, rest) => StopsAt(rest)
    case _ => s
  }

  /** Nothing malformed, or nothing to be parsed behind what is malformed. */
  ghost predicate Tolerant(s: seq<Byte>) {
    var stop := StopsAt(s);
    match ParseStep(stop)
    case NeedMore => true
    case BadLength => |stop| == 5
    case BadPublish(rest) => ParseStep(rest).NeedMore?
    case Parsed(_, _) => true
  }

  /** Two pieces, drained one after the other. */
  function InTwo(a: seq<Byte>, b: seq<Byte>): (seq<Inbound>, seq<Byte>) {
    Feed(Drain(a), Piece(b, 0))
  }

  lemma BadLengthStop(a: seq<Byte>, b: seq<Byte>)
    requires ParseStep(a).BadLength? && |a + b| == 5
    ensures b == []
  {
    assert Continuations(a, 1) >= 4;
    FourBytes(a, 1);
  }

  lemma FourBytes(a: seq<Byte>, offset: nat)
    requires Continuations(a, offset) >= 4
    ensures |a| >= offset + 4
  {
    assert Continuations(a, offset + 1) >= 3;
    assert Continuations(a, offset + 2) >= 2;
    assert Continuations(a, offset + 3) >= 1;
  }

  lemma InTwoParsed(a: seq<Byte>, b: seq<Byte>, p: Inbound, rest: seq<Byte>)
    requires ParseStep(a) == Parsed(p, rest)
    ensures InTwo(a, b) == Prepend(p, InTwo(rest, b))
  {
    Reassociate([p], Drain(rest).0, Drain(Drain(rest).1 + b).0);
  }

  lemma InTwoStopped(a: seq<Byte>, b: seq<Byte>)
    requires Drain(a).0 == []
    ensures InTwo(a, b) == Drain(Drain(a).1 + b)
  {
    var r := Drain(Drain(a).1 + b);
    assert [] + r.0 == r.0;
  }

  /** Cutting a tolerant stream anywhere changes nothing, and what is left to be parsed stays tolerant. */
  lemma {:induction false} CutTolerant(a: seq<Byte>, b: seq<Byte>)
    requires Tolerant(a + b)
    ensures InTwo(a, b) == Drain(a + b)
    ensures Tolerant(Drain(a).1 + b)
    decreases |a|
  {
    StepGrow(a, b);
    match ParseStep(a)
    case Parsed(p, rest) =>
      CutTolerant(rest, b);
      InTwoParsed(a, b, p, rest);
    case NeedMore =>
      InTwoStopped(a, b);
    case BadLength =>
      BadLengthStop(a, b);
      InTwoStopped(a, b);
    case BadPublish(rest) =>
      InTwoStopped(a, b);
  }

  lemma Reassociate(a: seq<Inbound>, b: seq<Inbound>, c: seq<Inbound>)
    ensures a + (b + c) == (a + b) + c
  {
  }

  /** A cut right behind the malformed packet shows the difference. */
  lemma {:induction false} BadCut(s: seq<Byte>) returns (k: nat)
    requires !Tolerant(s)
    ensures k <= |s| && InTwo(s[..k], s[k..]) != Drain(s)
    decreases |s|
  {
    match ParseStep(s)
    case Parsed(p, rest) =>
      var j := BadCut(rest);
      k := HeadCut(s, p, rest, j);
      DifferLater(s, s[..k], s[k..], p, rest, rest[..j]);
    case BadLength =>
      k := CutBehindLength(s);
    case BadPublish(rest) =>
      k := CutBehindPublish(s);
    case NeedMore =>
      assert false;
  }

  /** A difference in what follows the first packet is a difference of the whole. */
  lemma DifferLater(s: seq<Byte>, a: seq<Byte>, b: seq<Byte>, p: Inbound, rest: seq<Byte>, ra: seq<Byte>)
    requires ParseStep(s) == Parsed(p, rest) && ParseStep(a) == Parsed(p, ra)
    requires InTwo(ra, b) != Drain(rest)
    ensures InTwo(a, b) != Drain(s)
  {
    InTwoParsed(a, b, p, ra);
    PrependInjective(p, InTwo(ra, b), Drain(rest));
  }

  lemma HeadCut(s: seq<Byte>, p: Inbound, rest: seq<Byte>, j: nat) returns (k: nat)
    requires ParseStep(s) == Parsed(p, rest) && j <= |rest|
    ensures k == |s| - |rest| + j
    ensures ParseStep(s[..k]) == Parsed(p, rest[..j]) && s[k..] == rest[j..]
  {
    k := |s| - |rest| + j;
    ParsedRest(s);
    assert s[..k] == s[..|s| - |rest|] + rest[..j];
    HeadParsed(s, |s| - |rest|, rest[..j]);
  }

  lemma PrependInjective(p: Inbound, a: (seq<Inbound>, seq<Byte>), b: (seq<Inbound>, seq<Byte>))
    ensures Prepend(p, a) == Prepend(p, b) ==> a == b
  {
    assert ([p] + a.0)[1..] == a.0 && ([p] + b.0)[1..] == b.0;
  }

  lemma ParsedRest(s: seq<Byte>)
    requires ParseStep(s).Parsed? || ParseStep(s).BadPublish?
    ensures |ParseStep(s).rest| < |s| && ParseStep(s).rest == s[|s| - |ParseStep(s).rest|..]
  {
  }

  /** The bytes of the first packet alone are parsed as in the whole. */
  lemma HeadParsed(s: seq<Byte>, total: nat, more: seq<Byte>)
    requires ParseStep(s).Parsed? || ParseStep(s).BadPublish?
    requires total == |s| - |ParseStep(s).rest|
    ensures ParseStep(s).Parsed? ==> ParseStep(s[..total] + more) == Parsed(ParseStep(s).packet, more)
    ensures ParseStep(s).BadPublish? ==> ParseStep(s[..total] + more) == BadPublish(more)
  {
    HeadDecided(s, total);
    assert s[..total] + s[total..] == s;
    StepGrow(s[..total], s[total..]);
    StepGrow(s[..total], more);
    assert [] + more == more;
  }

  lemma HeadDecided(s: seq<Byte>, total: nat)
    requires LengthAt(s, 1).Length? && total == 1 + LengthAt(s, 1).bytes + LengthAt(s, 1).value <= |s|
    ensures !ParseStep(s[..total]).NeedMore? && !ParseStep(s[..total]).BadLength?
    ensures ParseStep(s[..total]).Parsed? || ParseStep(s[..total]).BadPublish? ==> ParseStep(s[..total]).rest == []
  {
    HeadLength(s, total);
  }

  lemma HeadLength(s: seq<Byte>, total: nat)
    requires LengthAt(s, 1).Length? && total == 1 + LengthAt(s, 1).bytes + LengthAt(s, 1).value <= |s|
    ensures LengthAt(s[..total], 1) == LengthAt(s, 1)
  {
    var head, tail := s[..total], s[total..];
    assert head + tail == s;
    ContinuationsWithin(head, tail, 1);
    LengthGrow(head, tail, 1);
  }

  lemma {:induction false} ContinuationsWithin(a: seq<Byte>, b: seq<Byte>, offset: nat)
    requires offset + Continuations(a + b, offset) < |a|
    ensures Continuations(a, offset) == Continuations(a + b, offset)
    decreases |a| - offset
  {
    if offset < |a| && a[offset] >= 128 {
      ContinuationsWithin(a, b, offset + 1);
    }
  }

  lemma CutBehindPublish(s: seq<Byte>) returns (k: nat)
    requires ParseStep(s).BadPublish? && !ParseStep(ParseStep(s).rest).NeedMore?
    ensures k <= |s| && InTwo(s[..k], s[k..]) != Drain(s)
  {
    var rest := ParseStep(s).rest;
    k := |s| - |rest|;
    ParsedRest(s);
    HeadParsed(s, k, []);
    assert s[..k] + [] == s[..k];
    assert [] + rest == rest;
    DrainShrinks(rest);
  }

  lemma DrainShrinks(s: seq<Byte>)
    requires !ParseStep(s).NeedMore?
    ensures Drain(s).1 != s
  {
    if ParseStep(s).BadLength? {
      assert |s| >= 2;
    }
  }

  lemma CutBehindLength(s: seq<Byte>) returns (k: nat)
    requires ParseStep(s).BadLength? && |s| != 5
    ensures k <= |s| && InTwo(s[..k], s[k..]) != Drain(s)
  {
    FourBytes(s, 1);
    k := |s| - 1;
    assert s[..k] + s[k..] == s;
    FourStay(s, k);
    assert ParseStep(s[..k]) == BadLength;
    assert [] + s[k..] == s[k..];
    assert Drain(s[k..]) == ([], s[k..]);
  }

  lemma FourStay(s: seq<Byte>, k: nat)
    requires Continuations(s, 1) >= 4 && 5 <= k <= |s|
    ensures Continuations(s[..k], 1) >= 4
  {
    assert s[1] >= 128 && s[2] >= 128 && s[3] >= 128 && s[4] >= 128 by {
      assert Continuations(s, 2) >= 3;
      assert Continuations(s, 3) >= 2;
      assert Continuations(s, 4) >= 1;
    }
    var t := s[..k];
    assert Continuations(t, 4) >= 1;
    assert Continuations(t, 3) >= 2;
    assert Continuations(t, 2) >= 3;
  }

  // ---------- The theorems ----------

  /** Cutting a stream in two never matters exactly when it is tolerant. */
  lemma {:induction false} CuttingExact(s: seq<Byte>)
    ensures (forall k :: 0 <= k <= |s| ==> InTwo(s[..k], s[k..]) == Drain(s)) <==> Tolerant(s)
  {
    if Tolerant(s) {
      forall k | 0 <= k <= |s| ensures InTwo(s[..k], s[k..]) == Drain(s) {
        assert s[..k] + s[k..] == s;
        CutTolerant(s[..k], s[k..]);
      }
    } else {
      var k := BadCut(s);
    }
  }

  /** However a tolerant stream is cut into pieces, and wherever websocket messages end, the same packets
      are dispatched in the same order and the same bytes are left as if it had come in one piece. */
  lemma {:induction false} ChunkingIndependence(at: (seq<Inbound>, seq<Byte>), pieces: seq<Piece>)
    requires Tolerant(at.1 + Whole(pieces))
    requires pieces != [] && pieces[|pieces| - 1].remaining == 0
    ensures FeedAll(at, pieces) == Feed(at, Piece(Whole(pieces), 0))
    decreases |pieces|
  {
    var first, rest := pieces[0], pieces[1..];
    var buf := at.1 + first.data;
    Joined(at.1, first.data, Whole(rest));
    if rest == [] {
      assert FeedAll(Feed(at, first), []) == Feed(at, first);
      assert Whole(pieces) == first.data;
      assert first == Piece(first.data, 0);
    } else {
      if first.remaining == 0 {
        CutTolerant(buf, Whole(rest));
        Reassociate(at.0, Drain(buf).0, Drain(Drain(buf).1 + Whole(rest)).0);
      }
      ChunkingIndependence(Feed(at, first), rest);
    }
  }

  lemma Joined(a: seq<Byte>, b: seq<Byte>, c: seq<Byte>)
    ensures a + (b + c) == (a + b) + c
    ensures b + [] == b
  {
  }

  // ---------- Streams of packets ----------

  /** What a server sends: QoS 0 publishes and packets of other types. */
  datatype Outgoing = OutPublish(topic: Utf8, payload: seq<Byte>) | OutOther(first: Byte, body: seq<Byte>)

  predicate Sendable(p: Outgoing) {
    match p
    case OutPublish(topic, payload) => |topic| <= MAX_STRING && 2 + |topic| + |payload| <= MAX_REMAINING
    case OutOther(first, body) => first / 16 != 3 && |body| <= MAX_REMAINING
  }

  function BytesOf(p: Outgoing): seq<Byte> {
    match p
    case OutPublish(topic, payload) => PublishBytes(topic, payload)
    case OutOther(first, body) => Framed(first, body)
  }

  /** What the client makes of it. */
  function SeenAs(p: Outgoing): Inbound {
    match p
    case OutPublish(topic, payload) => Publish(topic, payload)
    case OutOther(first, _) => Other(first / 16)
  }

  function AllSeenAs(ps: seq<Outgoing>): seq<Inbound> {
    if ps == [] then [] else [SeenAs(ps[0])] + AllSeenAs(ps[1..])
  }

  function StreamOf(ps: seq<Outgoing>): seq<Byte> {
    if ps == [] then [] else BytesOf(ps[0]) + StreamOf(ps[1..])
  }

  lemma {:induction false} PacketsDrain(ps: seq<Outgoing>)
    requires forall i :: 0 <= i < |ps| ==> Sendable(ps[i])
    ensures Drain(StreamOf(ps)) == (AllSeenAs(ps), []) && Tolerant(StreamOf(ps))
    decreases |ps|
  {
    if ps != [] {
      assert Sendable(ps[0]);
      OnePacket(ps[0], StreamOf(ps[1..]));
      PacketsDrain(ps[1..]);
    }
  }

  lemma OnePacket(p: Outgoing, rest: seq<Byte>)
    requires Sendable(p)
    ensures ParseStep(BytesOf(p) + rest) == Parsed(SeenAs(p), rest)
  {
    match p
    case OutPublish(topic, payload) => PublishRoundTrip(topic, payload, rest);
    case OutOther(first, body) => FramedParsed(first, body, rest);
  }

  /** Packets sent back to back arrive complete and in order, however the transport cuts them up. */
  lemma {:induction false} PacketsArrive(ps: seq<Outgoing>, pieces: seq<Piece>)
    requires forall i :: 0 <= i < |ps| ==> Sendable(ps[i])
    requires Whole(pieces) == StreamOf(ps)
    requires pieces != [] && pieces[|pieces| - 1].remaining == 0
    ensures FeedAll(([], []), pieces) == (AllSeenAs(ps), [])
  {
    PacketsDrain(ps);
    assert [] + StreamOf(ps) == StreamOf(ps);
    ChunkingIndependence(([], []), pieces);
    assert [] + AllSeenAs(ps) == AllSeenAs(ps);
  }
}
