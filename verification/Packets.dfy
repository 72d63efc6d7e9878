/** MQTT 3.1.1 packets: what the client encodes, decoders written from the standard, and the parser
    for what the server sends. */
module Packets {
  import opened Payloads
  import opened Codec

  type Utf8 = seq<Byte>

  const MAX_STRING: nat := 0xFFFF

  // ---------- Strings (section 1.5.3) ----------

  function U16(n: nat): seq<Byte> {
    [n / 256 % 256, n % 256]
  }

  function Word(high: nat, low: nat): nat {
    high * 256 + low
  }

  function StringBytes(s: Utf8): seq<Byte> {
    U16(|s|) + s
  }

  /** The string that starts at `cursor` and does not reach beyond `end`, and where it stops. */
  function StringAt(buf: seq<Byte>, cursor: nat, end: nat): (r: Option<(Utf8, nat)>)
    requires end <= |buf|
    ensures r.Some? ==> cursor + 2 <= r.value.1 <= end
  {
    if cursor + 2 > end then None
    else
      var len := Word(buf[cursor], buf[cursor + 1]);
      if cursor + 2 + len > end then None else Some((buf[cursor + 2..cursor + 2 + len], cursor + 2 + len))
  }

  method WriteUtf8String(out: ByteBuffer, s: Utf8)
    requires |s| <= MAX_STRING
    modifies out
    ensures out.data == old(out.data) + StringBytes(s)
  {
    out.Append([|s| / 256]);
    out.Append([|s| % 256]);
    out.Append(s);
    assert old(out.data) + [|s| / 256] + [|s| % 256] + s == old(out.data) + StringBytes(s);
  }

  method ReadUtf8String(buf: seq<Byte>, cursor: nat, end: nat) returns (ok: bool, s: Utf8, next: nat)
    requires end <= |buf|
    ensures StringAt(buf, cursor, end) == if ok then Some((s, next)) else None
  {
    ok, s, next := false, [], cursor;
    if cursor + 2 > end {
      return;
    }
    var len := Word(buf[cursor], buf[cursor + 1]);
    next := cursor + 2;
    if next + len > end {
      return;
    }
    s := buf[next..next + len];
    next := next + len;
    ok := true;
  }

  /** A written string is read back wherever it stands. */
  lemma StringRead(before: seq<Byte>, s: Utf8, rest: seq<Byte>, end: nat)
    requires |s| <= MAX_STRING && |before| + 2 + |s| <= end <= |before| + 2 + |s| + |rest|
    ensures StringAt(before + StringBytes(s) + rest, |before|, end) == Some((s, |before| + 2 + |s|))
  {
    var buf := before + StringBytes(s) + rest;
    assert buf[|before|] == U16(|s|)[0] && buf[|before| + 1] == U16(|s|)[1];
    assert buf[|before| + 2..|before| + 2 + |s|] == s;
  }

  // ---------- Packets the client sends ----------

  function Framed(first: Byte, body: seq<Byte>): seq<Byte> {
    [first] + VarInt(|body|) + body
  }

  /** One entry of a SUBSCRIBE (with its QoS byte) or UNSUBSCRIBE payload. */
  function TopicEntry(t: Utf8, withQos: bool): seq<Byte> {
    StringBytes(t) + if withQos then [0] else []
  }

  function TopicList(topics: seq<Utf8>, withQos: bool): seq<Byte> {
    if topics == [] then [] else TopicEntry(topics[0], withQos) + TopicList(topics[1..], withQos)
  }

  /** Sections 3.8 and 3.10: packet identifier and topic filters. */
  function RequestBytes(first: Byte, packetId: nat, topics: seq<Utf8>, withQos: bool): seq<Byte> {
    Framed(first, U16(packetId) + TopicList(topics, withQos))
  }

  const SUBSCRIBE: Byte := 0x82
  const UNSUBSCRIBE: Byte := 0xA2

  /** Section 3.1: protocol name and level, clean session, keep alive, client identifier. */
  function ConnectBody(clientId: Utf8, keepAlive: nat): seq<Byte> {
    StringBytes([77, 81, 84, 84]) + [4, 2] + U16(keepAlive) + StringBytes(clientId)
  }

  predicate Fits(topics: seq<Utf8>) {
    forall i :: 0 <= i < |topics| ==> |topics[i]| <= MAX_STRING
  }

  lemma {:induction false} TopicListAppend(topics: seq<Utf8>, t: Utf8, withQos: bool)
    ensures TopicList(topics + [t], withQos) == TopicList(topics, withQos) + TopicEntry(t, withQos)
  {
    if topics == [] {
      assert (topics + [t])[1..] == [];
    } else {
      assert (topics + [t])[1..] == topics[1..] + [t];
      TopicListAppend(topics[1..], t, withQos);
    }
  }

  /** Header byte, length, body. */
  method WriteFramed(out: ByteBuffer, first: Byte, body: seq<Byte>)
    modifies out
    ensures out.data == old(out.data) + Framed(first, body)
  {
    out.Append([first]);
    WriteRemainingLength(out, |body|);
    out.Append(body);
    assert old(out.data) + [first] + VarInt(|body|) + body == old(out.data) + Framed(first, body);
  }

  method EncodeConnect(out: ByteBuffer, clientId: Utf8, keepAlive: nat)
    requires |clientId| <= MAX_STRING && keepAlive <= 0xFFFF
    modifies out
    ensures out.data == old(out.data) + Framed(0x10, ConnectBody(clientId, keepAlive))
  {
    var variable := new ByteBuffer();
    WriteUtf8String(variable, [77, 81, 84, 84]);
    variable.Append([4]);
    variable.Append([2]);
    variable.Append([keepAlive / 256]);
    variable.Append([keepAlive % 256]);
    WriteUtf8String(variable, clientId);
    assert variable.data == ConnectBody(clientId, keepAlive);
    WriteFramed(out, 0x10, variable.data);
  }

  /** The packet identifier and the entries, one after the other. */
  method RequestBody(packetId: nat, topics: seq<Utf8>, withQos: bool) returns (variable: ByteBuffer)
    requires packetId <= 0xFFFF && Fits(topics)
    ensures fresh(variable) && variable.data == U16(packetId) + TopicList(topics, withQos)
  {
    variable := new ByteBuffer();
    variable.Append([packetId / 256]);
    variable.Append([packetId % 256]);
    for i := 0 to |topics|
      invariant fresh(variable) && variable.data == U16(packetId) + TopicList(topics[..i], withQos)
    {
      WriteUtf8String(variable, topics[i]);
      if withQos {
        variable.Append([0]);
      }
      EntryWritten(U16(packetId), topics, i, withQos);
    }
    assert topics[..|topics|] == topics;
  }

  lemma EntryWritten(head: seq<Byte>, topics: seq<Utf8>, i: nat, withQos: bool)
    requires i < |topics|
    ensures var entry := head + TopicList(topics[..i], withQos) + StringBytes(topics[i]);
            (if withQos then entry + [0] else entry) == head + TopicList(topics[..i + 1], withQos)
  {
    TopicListAppend(topics[..i], topics[i], withQos);
    assert topics[..i + 1] == topics[..i] + [topics[i]];
  }

  method EncodeSubscribe(out: ByteBuffer, packetId: nat, topics: seq<Utf8>)
    requires packetId <= 0xFFFF && Fits(topics)
    modifies out
    ensures out.data == old(out.data) + RequestBytes(0x82, packetId, topics, true)
  {
    var variable := RequestBody(packetId, topics, true);
    WriteFramed(out, SUBSCRIBE, variable.data);
  }

  method EncodeUnsubscribe(out: ByteBuffer, packetId: nat, topics: seq<Utf8>)
    requires packetId <= 0xFFFF && Fits(topics)
    modifies out
    ensures out.data == old(out.data) + RequestBytes(0xA2, packetId, topics, false)
  {
    var variable := RequestBody(packetId, topics, false);
    WriteFramed(out, UNSUBSCRIBE, variable.data);
  }

  // ---------- Decoders of the standard ----------

  /** The entries of a payload: topic filters, each with a QoS of at most 2 if there is one. */
  function DecodeTopics(body: seq<Byte>, withQos: bool): Option<seq<Utf8>>
    decreases |body|
  {
    if body == [] then Some([])
    else match StringAt(body, 0, |body|)
      case None => None
      case Some((t, next)) =>
        if withQos && (next == |body| || body[next] > 2) then None
        else match DecodeTopics(body[if withQos then next + 1 else next..], withQos)
          case None => None
          case Some(more) => Some([t] + more)
  }

  function DecodeBody(body: seq<Byte>, withQos: bool): Option<(nat, seq<Utf8>)>
    requires |body| >= 2
  {
    match DecodeTopics(body[2..], withQos)
    case None => None
    case Some(topics) => if topics == [] then None else Some((Word(body[0], body[1]), topics))
  }

  /** The body of a packet with the given header byte, when the packet ends where its length says. */
  function BodyOf(first: Byte, buf: seq<Byte>): Option<seq<Byte>> {
    if buf == [] || buf[0] != first || !LengthAt(buf, 1).Length? then None
    else
      var start := 1 + LengthAt(buf, 1).bytes;
      if |buf| != start + LengthAt(buf, 1).value then None else Some(buf[start..])
  }

  /** A SUBSCRIBE or UNSUBSCRIBE packet: its identifier and at least one topic filter. */
  function DecodeRequest(first: Byte, buf: seq<Byte>, withQos: bool): Option<(nat, seq<Utf8>)> {
    match BodyOf(first, buf)
    case None => None
    case Some(body) => if |body| < 2 then None else DecodeBody(body, withQos)
  }

  lemma EntryDecodes(t: Utf8, withQos: bool, rest: seq<Byte>)
    requires |t| <= MAX_STRING
    ensures var body := TopicEntry(t, withQos) + rest;
            && StringAt(body, 0, |body|) == Some((t, 2 + |t|))
            && (withQos ==> 2 + |t| < |body| && body[2 + |t|] == 0)
            && body[if withQos then 3 + |t| else 2 + |t|..] == rest
  {
    var body := TopicEntry(t, withQos) + rest;
    var tail := (if withQos then [0] else []) + rest;
    assert body == [] + StringBytes(t) + tail;
    StringRead([], t, tail, |body|);
  }

  lemma {:induction false} TopicsDecode(topics: seq<Utf8>, withQos: bool)
    requires Fits(topics)
    ensures DecodeTopics(TopicList(topics, withQos), withQos) == Some(topics)
    decreases |topics|
  {
    if topics != [] {
      EntryDecodes(topics[0], withQos, TopicList(topics[1..], withQos));
      TopicsDecode(topics[1..], withQos);
      assert [topics[0]] + topics[1..] == topics;
    }
  }

  lemma FramedLength(first: Byte, body: seq<Byte>, rest: seq<Byte>)
    ensures LengthAt(Framed(first, body) + rest, 1) == Length(|VarInt(|body|)|, |body|) <==> |body| <= MAX_REMAINING
    ensures |body| > MAX_REMAINING ==> LengthAt(Framed(first, body) + rest, 1) == TooLong
    ensures (Framed(first, body) + rest)[0] == first
    ensures (Framed(first, body) + rest)[1 + |VarInt(|body|)|..] == body + rest
  {
    RemainingLengthExact([first], |body|, body + rest);
    assert Framed(first, body) + rest == [first] + VarInt(|body|) + (body + rest);
  }

  lemma BodyParts(packetId: nat, list: seq<Byte>)
    requires packetId <= 0xFFFF
    ensures var body := U16(packetId) + list; body[2..] == list && Word(body[0], body[1]) == packetId
  {
  }

  /** A framed body is found exactly when its length is permitted. */
  lemma BodyExact(first: Byte, body: seq<Byte>)
    ensures BodyOf(first, Framed(first, body)) == if |body| <= MAX_REMAINING then Some(body) else None
  {
    FramedLength(first, body, []);
    assert Framed(first, body) + [] == Framed(first, body) && body + [] == body;
  }

  /** The standard's decoder gets back the identifier and the topics of a SUBSCRIBE or UNSUBSCRIBE exactly when
      there is a topic and the packet is not longer than the standard allows. */
  lemma {:induction false} RequestExact(first: Byte, packetId: nat, topics: seq<Utf8>, withQos: bool)
    requires packetId <= 0xFFFF && Fits(topics)
    ensures DecodeRequest(first, RequestBytes(first, packetId, topics, withQos), withQos) == Some((packetId, topics))
       <==> topics != [] && 2 + |TopicList(topics, withQos)| <= MAX_REMAINING
  {
    var body := U16(packetId) + TopicList(topics, withQos);
    BodyExact(first, body);
    BodyParts(packetId, TopicList(topics, withQos));
    TopicsDecode(topics, withQos);
  }

  lemma U16Bytes(n: nat)
    requires n <= 0xFFFF
    ensures U16(n) == [n / 256, n % 256]
  {
  }

  /** A SUBSCRIBE for one topic, byte by byte: header, length, identifier, topic length and topic, QoS 0. An UNSUBSCRIBE
      ends with the topic. */
  lemma RequestOnTheWire(packetId: nat, t: Utf8)
    requires packetId <= 0xFFFF && |t| <= 0xFFFF
    ensures RequestBytes(0x82, packetId, [t], true)
         == [0x82] + VarInt(5 + |t|) + ([packetId / 256, packetId % 256] + ([|t| / 256, |t| % 256] + t + [0]))
    ensures RequestBytes(0xA2, packetId, [t], false)
         == [0xA2] + VarInt(4 + |t|) + ([packetId / 256, packetId % 256] + ([|t| / 256, |t| % 256] + t))
  {
    U16Bytes(packetId);
    U16Bytes(|t|);
    OneTopic(t, true);
    OneTopic(t, false);
    assert StringBytes(t) + [] == StringBytes(t);
  }

  lemma OneTopic(t: Utf8, withQos: bool)
    ensures TopicList([t], withQos) == StringBytes(t) + if withQos then [0] else []
  {
    assert [t][1..] == [];
    assert TopicEntry(t, withQos) + [] == TopicEntry(t, withQos);
  }

  /** The body of a clean-session CONNECT: keep alive and client identifier. */
  function DecodeConnectBody(body: seq<Byte>): Option<(nat, Utf8)> {
    if |body| < 10 || StringAt(body, 0, |body|) != Some(([77, 81, 84, 84], 6)) || body[6] != 4 || body[7] != 2 then None
    else match StringAt(body, 10, |body|)
      case None => None
      case Some((clientId, next)) => if next == |body| then Some((Word(body[8], body[9]), clientId)) else None
  }

  /** Everything of a CONNECT's body but the client identifier. */
  function ConnectHead(keepAlive: nat): seq<Byte>
    requires keepAlive <= 0xFFFF
  {
    StringBytes([77, 81, 84, 84]) + [4, 2] + U16(keepAlive)
  }

  lemma ConnectHeadParts(keepAlive: nat, rest: seq<Byte>)
    requires keepAlive <= 0xFFFF
    ensures var body := ConnectHead(keepAlive) + rest;
            && |body| == 10 + |rest| && body[6] == 4 && body[7] == 2 && Word(body[8], body[9]) == keepAlive
            && StringAt(body, 0, |body|) == Some(([77, 81, 84, 84], 6))
  {
    var name: seq<Byte> := [77, 81, 84, 84];
    var body := ConnectHead(keepAlive) + rest;
    assert body == [] + StringBytes(name) + ([4, 2] + U16(keepAlive) + rest);
    StringRead([], name, [4, 2] + U16(keepAlive) + rest, |body|);
  }

  lemma ConnectBodyDecodes(clientId: Utf8, keepAlive: nat)
    requires |clientId| <= MAX_STRING && keepAlive <= 0xFFFF
    ensures DecodeConnectBody(ConnectBody(clientId, keepAlive)) == Some((keepAlive, clientId))
  {
    var head, body := ConnectHead(keepAlive), ConnectBody(clientId, keepAlive);
    assert body == head + StringBytes(clientId) && body == head + StringBytes(clientId) + [];
    ConnectHeadParts(keepAlive, StringBytes(clientId));
    StringRead(head, clientId, [], |body|);
  }

  /** A whole CONNECT packet */
  function DecodeConnect(buf: seq<Byte>): Option<(nat, Utf8)> {
    match BodyOf(0x10, buf)
    case None => None
    case Some(body) => DecodeConnectBody(body)
  }

  /** The packet that the client writes, header byte and length included, is read back by the standard's decoder. */
  lemma ConnectRoundTrip(clientId: Utf8, keepAlive: nat)
    requires |clientId| <= MAX_STRING && keepAlive <= 0xFFFF
    ensures DecodeConnect(Framed(0x10, ConnectBody(clientId, keepAlive))) == Some((keepAlive, clientId))
  {
    BodyExact(0x10, ConnectBody(clientId, keepAlive));
    ConnectBodyDecodes(clientId, keepAlive);
  }

  /** The bytes of a CONNECT up to the client identifier: the string MQTT, level 4, clean session, keep alive. */
  lemma ConnectHeadBytes(keepAlive: nat)
    requires keepAlive <= 0xFFFF
    ensures ConnectHead(keepAlive) == [0, 4, 77, 81, 84, 84, 4, 2, keepAlive / 256, keepAlive % 256]
  {
  }

  /** A CONNECT on the wire: header, length, those bytes, then the client identifier with its length. */
  lemma ConnectOnTheWire(clientId: Utf8, keepAlive: nat)
    requires |clientId| <= 0xFFFF && keepAlive <= 0xFFFF
    ensures Framed(0x10, ConnectBody(clientId, keepAlive))
         == [0x10] + VarInt(12 + |clientId|)
            + (ConnectHead(keepAlive) + ([|clientId| / 256, |clientId| % 256] + clientId))
  {
    U16Bytes(|clientId|);
    ConnectLength(clientId, keepAlive);
  }

  lemma ConnectLength(clientId: Utf8, keepAlive: nat)
    requires |clientId| <= 0xFFFF && keepAlive <= 0xFFFF
    ensures ConnectBody(clientId, keepAlive) == ConnectHead(keepAlive) + StringBytes(clientId)
    ensures |ConnectBody(clientId, keepAlive)| == 12 + |clientId|
  {
  }

  // ---------- The parser ----------

  /** A packet from the server: a QoS 0 PUBLISH, or only the type of something else. */
  datatype Inbound = Publish(topic: Utf8, payload: seq<Byte>) | Other(kind: nat)

  datatype Parse = NeedMore | BadLength | BadPublish(rest: seq<Byte>) | Parsed(packet: Inbound, rest: seq<Byte>)

  /** What stands at the front of the buffer. */
  function ParseStep(buf: seq<Byte>): (r: Parse)
    ensures r.Parsed? ==> |r.rest| < |buf|
    ensures r.BadPublish? ==> |r.rest| < |buf|
  {
    if |buf| < 2 then NeedMore
    else match LengthAt(buf, 1)
      case Incomplete => NeedMore
      case TooLong => BadLength
      case Length(bytes, value) =>
        var total := 1 + bytes + value;
        if |buf| < total then NeedMore
        else if buf[0] / 16 % 16 != 3 then Parsed(Other(buf[0] / 16 % 16), buf[total..])
        else match StringAt(buf, 1 + bytes, total)
          case None => BadPublish(buf[total..])
          case Some((topic, next)) => Parsed(Publish(topic, buf[next..total]), buf[total..])
  }

  method TryParseNextPacket(buffer: ByteBuffer) returns (ok: bool, packet: Inbound)
    modifies buffer
    ensures match ParseStep(old(buffer.data))
            case NeedMore => !ok && buffer.data == old(buffer.data)
            case BadLength => !ok && buffer.data == []
            case BadPublish(rest) => !ok && buffer.data == rest
            case Parsed(p, rest) => ok && packet == p && buffer.data == rest
  {
    ok, packet := false, Other(0);
    if |buffer.data| < 2 {
      return;
    }
    var typeNibble := buffer.data[0] / 16 % 16;
    var lenBytes, remainingLen := ReadRemainingLength(buffer.data, 1);
    if lenBytes == 0 {
      return;
    }
    if lenBytes < 0 {
      buffer.data := [];
      return;
    }
    var total := 1 + lenBytes + remainingLen;
    if |buffer.data| < total {
      return;
    }
    if typeNibble == 3 {
      var good, topic, cursor := ReadUtf8String(buffer.data, 1 + lenBytes, total);
      if !good {
        buffer.RemoveFront(total);
        return;
      }
      packet := Publish(topic, buffer.data[cursor..total]);
    } else {
      packet := Other(typeNibble);
    }
    buffer.RemoveFront(total);
    ok := true;
  }

  /** Section 3.3: a QoS 0 PUBLISH. */
  function PublishBytes(topic: Utf8, payload: seq<Byte>): seq<Byte> {
    Framed(0x30, StringBytes(topic) + payload)
  }

  lemma HighNibble(kind: nat, flags: nat)
    requires kind < 16 && flags < 16
    ensures (16 * kind + flags) / 16 == kind && 16 * kind + flags < 256
  {
  }

  lemma ShortParsed(first: Byte, body: seq<Byte>, rest: seq<Byte>)
    requires |body| < 128
    ensures ParseStep([first, |body|] + body + rest)
         == if first / 16 != 3 then Parsed(Other(first / 16), rest)
            else match StringAt(body, 0, |body|)
              case None => BadPublish(rest)
              case Some((topic, next)) => Parsed(Publish(topic, body[next..]), rest)
  {
    FramedParsed(first, body, rest);
    assert VarInt(|body|) == [|body|];
    assert [first] + [|body|] + body == [first, |body|] + body;
  }

  /** What the parser makes of bytes, for packets below 128 bytes: a PUBLISH is header, length, topic length, topic and
      payload, and malformed when the topic does not fit; of other packets only the type counts. */
  lemma ParsedFromTheWire(flags: nat, kind: nat, body: seq<Byte>, rest: seq<Byte>)
    requires flags < 16 && kind < 16 && |body| < 128
    ensures kind != 3 ==> ParseStep([16 * kind + flags, |body|] + body + rest) == Parsed(Other(kind), rest)
    ensures kind == 3 && |body| >= 2 && 256 * body[0] + body[1] <= |body| - 2 ==>
              var n := 256 * body[0] + body[1];
              ParseStep([16 * kind + flags, |body|] + body + rest)
              == Parsed(Publish(body[2..2 + n], body[2 + n..]), rest)
    ensures kind == 3 && (|body| < 2 || 256 * body[0] + body[1] > |body| - 2) ==>
              ParseStep([16 * kind + flags, |body|] + body + rest) == BadPublish(rest)
  {
    HighNibble(kind, flags);
    ShortParsed(16 * kind + flags, body, rest);
  }

  /** A packet of which bytes are missing is left for later; four length bytes that announce another one are refused. */
  lemma UnparsedFromTheWire(first: Byte, body: seq<Byte>, n: nat, a: Byte, b: Byte, c: Byte, d: Byte, rest: seq<Byte>)
    ensures ParseStep([]) == ParseStep([first]) == NeedMore
    ensures |body| < n < 128 ==> ParseStep([first, n] + body) == NeedMore
    ensures a >= 128 && b >= 128 && c >= 128 && d >= 128 ==> ParseStep([first, a, b, c, d] + rest) == BadLength
  {
    if |body| < n < 128 {
      var buf := [first, n] + body;
      assert buf[1] == n && Continuations(buf, 1) == 0 && VarValue(buf, 1, 1) == n;
    }
    if a >= 128 && b >= 128 && c >= 128 && d >= 128 {
      var buf := [first, a, b, c, d] + rest;
      assert buf[1] == a && buf[2] == b && buf[3] == c && buf[4] == d;
      assert Continuations(buf, 3) == 2 + Continuations(buf, 5);
    }
  }

  /** A string inside a larger buffer. */
  lemma StringShift(head: seq<Byte>, body: seq<Byte>, rest: seq<Byte>)
    ensures StringAt(head + body + rest, |head|, |head| + |body|)
         == match StringAt(body, 0, |body|)
            case None => None
            case Some((s, next)) => Some((s, |head| + next))
  {
    var buf := head + body + rest;
    assert forall i :: 0 <= i < |body| ==> buf[|head| + i] == body[i];
    if StringAt(body, 0, |body|).Some? {
      var next := StringAt(body, 0, |body|).value.1;
      assert buf[|head| + 2..|head| + next] == body[2..next];
    }
  }

  lemma SliceShift(head: seq<Byte>, body: seq<Byte>, rest: seq<Byte>, next: nat)
    requires next <= |body|
    ensures (head + body + rest)[|head| + next..|head| + |body|] == body[next..]
    ensures (head + body + rest)[|head| + |body|..] == rest
  {
  }

  /** What the parser makes of a whole packet of a permitted length, whatever follows. */
  lemma FramedParsed(first: Byte, body: seq<Byte>, rest: seq<Byte>)
    requires |body| <= MAX_REMAINING
    ensures ParseStep(Framed(first, body) + rest)
         == if first / 16 != 3 then Parsed(Other(first / 16), rest)
            else match StringAt(body, 0, |body|)
              case None => BadPublish(rest)
              case Some((topic, next)) => Parsed(Publish(topic, body[next..]), rest)
  {
    FramedLength(first, body, rest);
    StringShift([first] + VarInt(|body|), body, rest);
    SliceShift([first] + VarInt(|body|), body, rest, 0);
    if StringAt(body, 0, |body|).Some? {
      SliceShift([first] + VarInt(|body|), body, rest, StringAt(body, 0, |body|).value.1);
    }
  }

  /** A PUBLISH followed by anything is parsed back, and exactly the rest remains. */
  lemma PublishRoundTrip(topic: Utf8, payload: seq<Byte>, rest: seq<Byte>)
    requires |topic| <= MAX_STRING && 2 + |topic| + |payload| <= MAX_REMAINING
    ensures ParseStep(PublishBytes(topic, payload) + rest) == Parsed(Publish(topic, payload), rest)
  {
    var body := StringBytes(topic) + payload;
    FramedParsed(0x30, body, rest);
    assert body == [] + StringBytes(topic) + payload;
    StringRead([], topic, payload, |body|);
    assert body[2 + |topic|..] == payload;
  }
}
