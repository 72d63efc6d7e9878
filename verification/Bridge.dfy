/** The cross-node bridge of one node: it takes what Redis delivers, drops the node's own
    publishes, and publishes the rest on the local broker. */
module Bridge {
  import opened Payloads
  import opened Protocol
  import opened Topics
  import B = MqttBroker
  import F = TileFanout

  /** A message as Redis delivers it. */
  datatype Wire = Wire(channel: string, buf: seq<Byte>)

  /** The local publish a bridge makes of a message, if any. */
  function Accepted(validUtf8: seq<Byte> -> bool, me: seq<Byte>, w: Wire): seq<B.Event> {
    match SplitEnvelope(validUtf8, w.buf)
    case None => []
    case Some((source, body)) =>
      if source == me then []
      else match ChannelToTopic(w.channel)
        case None => []
        case Some(topic) => [B.PublishLocal(B.Packet(topic, body))]
  }

  /** A message is passed on exactly when something valid stands before its first bar that is not this node, and its
      channel has a topic; what follows the bar is passed on untouched. */
  lemma AcceptedExact(validUtf8: seq<Byte> -> bool, me: seq<Byte>, w: Wire)
    ensures 124 !in w.buf ==> Accepted(validUtf8, me, w) == []
    ensures forall i :: 0 <= i < |w.buf| && w.buf[i] == 124 && 124 !in w.buf[..i] ==>
      Accepted(validUtf8, me, w)
      == if validUtf8(w.buf[..i]) && w.buf[..i] != me && ChannelToTopic(w.channel).Some?
         then [B.PublishLocal(B.Packet(ChannelToTopic(w.channel).value, w.buf[i + 1..]))] else []
  {
    forall i | 0 <= i < |w.buf| && w.buf[i] == 124 && 124 !in w.buf[..i]
      ensures Position(w.buf, PIPE) == Some(i)
    {
      PositionAfter(w.buf[..i], PIPE, w.buf[i + 1..]);
      assert w.buf == w.buf[..i] + [PIPE] + w.buf[i + 1..];
    }
  }

  function AllAccepted(validUtf8: seq<Byte> -> bool, me: seq<Byte>, ws: seq<Wire>): seq<B.Event> {
    if ws == [] then [] else Accepted(validUtf8, me, ws[0]) + AllAccepted(validUtf8, me, ws[1..])
  }

  lemma {:induction false} AllAcceptedAppend(validUtf8: seq<Byte> -> bool, me: seq<Byte>, ws: seq<Wire>, w: Wire)
    ensures AllAccepted(validUtf8, me, ws + [w]) == AllAccepted(validUtf8, me, ws) + Accepted(validUtf8, me, w)
  {
    if ws == [] {
      assert (ws + [w])[1..] == [];
    } else {
      assert (ws + [w])[1..] == ws[1..] + [w];
      AllAcceptedAppend(validUtf8, me, ws[1..], w);
    }
  }

  lemma RunOne(st: B.State, e: B.Event)
    ensures B.Run(st, [e]) == B.Next(st, e)
  {
    assert [e][1..] == [];
    assert B.Run(st, [e]) == B.Run(B.Next(st, e), []);
  }

  /** One received message. */
  method Receive(broker: B.Broker, validUtf8: seq<Byte> -> bool, me: seq<Byte>, w: Wire)
    modifies broker
    ensures broker.Value() == B.Run(old(broker.Value()), Accepted(validUtf8, me, w))
  {
    var split := SplitEnvelope(validUtf8, w.buf);
    if split.None? || split.value.0 == me {
      return;
    }
    var topic := ChannelToTopic(w.channel);
    if topic.None? {
      return;
    }
    RunOne(broker.Value(), B.PublishLocal(B.Packet(topic.value, split.value.1)));
    var _ := broker.PublishLocal(topic.value, split.value.1);
  }

  lemma OneMoreAccepted(validUtf8: seq<Byte> -> bool, me: seq<Byte>, ws: seq<Wire>, i: nat)
    requires i < |ws|
    ensures AllAccepted(validUtf8, me, ws[..i + 1])
         == AllAccepted(validUtf8, me, ws[..i]) + Accepted(validUtf8, me, ws[i])
  {
    AllAcceptedAppend(validUtf8, me, ws[..i], ws[i]);
    assert ws[..i + 1] == ws[..i] + [ws[i]];
  }

  lemma OneMore(st: B.State, validUtf8: seq<Byte> -> bool, me: seq<Byte>, ws: seq<Wire>, i: nat)
    requires i < |ws|
    ensures B.Run(B.Run(st, AllAccepted(validUtf8, me, ws[..i])), Accepted(validUtf8, me, ws[i]))
         == B.Run(st, AllAccepted(validUtf8, me, ws[..i + 1]))
  {
    OneMoreAccepted(validUtf8, me, ws, i);
    F.RunAppend(st, AllAccepted(validUtf8, me, ws[..i]), Accepted(validUtf8, me, ws[i]));
  }

  /** The receive loop, over what has arrived. */
  method RunBridge(broker: B.Broker, validUtf8: seq<Byte> -> bool, me: seq<Byte>, ws: seq<Wire>)
    modifies broker
    ensures broker.Value() == B.Run(old(broker.Value()), AllAccepted(validUtf8, me, ws))
  {
    for i := 0 to |ws|
      invariant broker.Value() == B.Run(old(broker.Value()), AllAccepted(validUtf8, me, ws[..i]))
    {
      OneMore(old(broker.Value()), validUtf8, me, ws, i);
      Receive(broker, validUtf8, me, ws[i]);
    }
    assert ws[..|ws|] == ws;
  }

  // ---------- Bridging is re-publishing ----------

  /** How a node puts a message on the bus. */
  function ToWire(encode: Message -> seq<Byte>, name: nat -> seq<Byte>, e: Envelope): Wire {
    Wire(ChannelText(TopicOf(e.msg)), BuildEnvelope(name(e.origin), encode(e.msg)))
  }

  function AllToWire(encode: Message -> seq<Byte>, name: nat -> seq<Byte>, es: seq<Envelope>): (ws: seq<Wire>)
    ensures |ws| == |es|
    ensures forall i :: 0 <= i < |es| ==> ws[i] == ToWire(encode, name, es[i])
  {
    seq(|es|, i requires 0 <= i < |es| => ToWire(encode, name, es[i]))
  }

  /** Node names are valid, different, and without a bar. */
  ghost predicate GoodNames(validUtf8: seq<Byte> -> bool, name: nat -> seq<Byte>) {
    && (forall n: nat :: validUtf8(name(n)) && PIPE !in name(n))
    && (forall m: nat, n: nat :: name(m) == name(n) ==> m == n)
  }

  predicate NoColon(m: Message) {
    m.TileMsg? ==> ':' !in m.layer
  }

  /** Of one message on the bus: nothing at its own node, the sender's local publish elsewhere. */
  function Replayed(encode: Message -> seq<Byte>, n: nat, e: Envelope): seq<B.Event> {
    if e.origin == n then [] else [F.LocalPublish(encode, e.msg)]
  }

  function AllReplayed(encode: Message -> seq<Byte>, n: nat, es: seq<Envelope>): seq<B.Event> {
    if es == [] then [] else Replayed(encode, n, es[0]) + AllReplayed(encode, n, es[1..])
  }

  lemma OneBridged(validUtf8: seq<Byte> -> bool, encode: Message -> seq<Byte>, name: nat -> seq<Byte>, n: nat,
                   e: Envelope)
    requires GoodNames(validUtf8, name) && NoColon(e.msg)
    ensures Accepted(validUtf8, name(n), ToWire(encode, name, e)) == Replayed(encode, n, e)
  {
    EnvelopeExact(validUtf8, name(e.origin), encode(e.msg));
    match e.msg
    case TileMsg(layer, tile, _) => TileChannelExact(layer, tile);
    case ObjectMsg(obid, _) => ObjectChannelRoundTrip(obid);
  }

  lemma LocalPublishesCons(encode: Message -> seq<Byte>, m: Message, ms: seq<Message>)
    ensures F.LocalPublishes(encode, [m] + ms) == [F.LocalPublish(encode, m)] + F.LocalPublishes(encode, ms)
  {
  }

  lemma {:induction false} ReplayedForeign(encode: Message -> seq<Byte>, n: nat, es: seq<Envelope>)
    ensures AllReplayed(encode, n, es) == F.LocalPublishes(encode, Foreign(es, n))
  {
    if es != [] {
      ReplayedForeign(encode, n, es[1..]);
      LocalPublishesCons(encode, es[0].msg, Foreign(es[1..], n));
      assert [] + Foreign(es[1..], n) == Foreign(es[1..], n);
      assert [] + AllReplayed(encode, n, es[1..]) == AllReplayed(encode, n, es[1..]);
    }
  }

  lemma AllAcceptedCons(validUtf8: seq<Byte> -> bool, me: seq<Byte>, w: Wire, ws: seq<Wire>)
    ensures AllAccepted(validUtf8, me, [w] + ws) == Accepted(validUtf8, me, w) + AllAccepted(validUtf8, me, ws)
  {
    assert ([w] + ws)[1..] == ws;
  }

  lemma AllToWireCons(encode: Message -> seq<Byte>, name: nat -> seq<Byte>, es: seq<Envelope>)
    requires es != []
    ensures AllToWire(encode, name, es) == [ToWire(encode, name, es[0])] + AllToWire(encode, name, es[1..])
  {
  }

  /** When every message is accepted for what it is, so is the whole list. */
  lemma {:induction false} AllBridged(validUtf8: seq<Byte> -> bool, encode: Message -> seq<Byte>,
                                      name: nat -> seq<Byte>, n: nat, es: seq<Envelope>)
    requires forall i :: 0 <= i < |es| ==>
      Accepted(validUtf8, name(n), ToWire(encode, name, es[i])) == Replayed(encode, n, es[i])
    ensures AllAccepted(validUtf8, name(n), AllToWire(encode, name, es)) == AllReplayed(encode, n, es)
  {
    if es != [] {
      AllBridged(validUtf8, encode, name, n, es[1..]);
      AllToWireCons(encode, name, es);
      AllAcceptedCons(validUtf8, name(n), ToWire(encode, name, es[0]), AllToWire(encode, name, es[1..]));
    }
  }

  /** From the bytes on the bus, the bridge of node n makes exactly the local publishes that the
      other nodes made for their own clients, in bus order, and none for the node's own messages. */
  lemma {:induction false} BridgeReplaysForeign(validUtf8: seq<Byte> -> bool, encode: Message -> seq<Byte>,
                                                name: nat -> seq<Byte>, n: nat, es: seq<Envelope>)
    requires GoodNames(validUtf8, name) && forall i :: 0 <= i < |es| ==> NoColon(es[i].msg)
    ensures AllAccepted(validUtf8, name(n), AllToWire(encode, name, es)) == F.LocalPublishes(encode, Foreign(es, n))
  {
    forall i | 0 <= i < |es|
      ensures Accepted(validUtf8, name(n), ToWire(encode, name, es[i])) == Replayed(encode, n, es[i])
    {
      OneBridged(validUtf8, encode, name, n, es[i]);
    }
    AllBridged(validUtf8, encode, name, n, es);
    ReplayedForeign(encode, n, es);
  }
}
