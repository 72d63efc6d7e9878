/** From the bytes a node puts on Redis to the client's map: what the broker queues for the session of a tuned-in
    client, decoded and handled in order, is what the protocol's step delivers. */
module EndToEnd {
  import opened Payloads
  import opened Topics
  import opened RedisStore
  import opened Protocol
  import opened SessionDelivery
  import opened MapClient
  import B = MqttBroker
  import F = TileFanout
  import R = Bridge

  /** The client gets the messages back as they were encoded. JSON texts cannot carry every real number exactly, so this
      is asked of the messages at hand and not of all. */
  predicate Readable(w: Wiring, decode: B.Packet -> Message, ms: seq<Message>) {
    forall i :: 0 <= i < |ms| ==> decode(F.PacketOf(w.encode, ms[i])) == ms[i]
  }

  lemma {:induction false} HeardReadable(w: Wiring, decode: B.Packet -> Message, s: B.Session, ms: seq<Message>)
    requires Readable(w, decode, ms)
    ensures Readable(w, decode, HeardBy(s, ms))
  {
    if ms != [] {
      HeardReadable(w, decode, s, ms[1..]);
    }
  }

  /** What the client makes of the items of its queue: replies to its own packets carry no message. */
  function Unpacked(decode: B.Packet -> Message, items: seq<B.Outbound>): seq<Message> {
    if items == [] then []
    else (if items[0].Publish? then [decode(items[0].packet)] else []) + Unpacked(decode, items[1..])
  }

  lemma {:induction false} UnpackedPackaged(w: Wiring, decode: B.Packet -> Message, ms: seq<Message>)
    requires Readable(w, decode, ms)
    ensures Unpacked(decode, AllPackaged(w.encode, ms)) == ms
  {
    if ms != [] {
      UnpackedPackaged(w, decode, ms[1..]);
      assert AllPackaged(w.encode, ms)[1..] == AllPackaged(w.encode, ms[1..]);
    }
  }

  /** The session is read from, and its filters are the client's tile topics. */
  ghost predicate TunedTo(s: B.Session, c: Client) {
    && s.open
    && (forall t :: t in c.subs ==> PlainTopic(TileTopic(c.layer, t)) && TopicText(TileTopic(c.layer, t)) in s.subs)
    && forall f :: f in s.subs ==> exists t :: t in c.subs && f == TopicText(TileTopic(c.layer, t))
  }

  lemma TunedHears(s: B.Session, c: Client, m: Message)
    requires TunedTo(s, c)
    ensures B.Hears(s, TextOf(m)) <==> Wants(c, m)
  {
    if Wants(c, m) {
      SubscriptionIsMembership(TopicOf(m), TileTopic(c.layer, m.tile));
    }
    if f :| f in s.subs && Matches(TextOf(m), f) {
      var t :| t in c.subs && f == TopicText(TileTopic(c.layer, t));
      SubscriptionIsMembership(TopicOf(m), TileTopic(c.layer, t));
    }
  }

  /** Handling what the session hears is what the protocol delivers. */
  lemma {:induction false} HeardIsDelivered(s: B.Session, c: Client, ms: seq<Message>)
    requires TunedTo(s, c)
    ensures ReceiveAll(c.features, HeardBy(s, ms)) == DeliverAllTo(c, ms).features
    decreases |ms|
  {
    if ms != [] {
      TunedHears(s, c, ms[0]);
      HeardIsDelivered(s, DeliverTo(c, ms[0]), ms[1..]);
      if Wants(c, ms[0]) {
        assert HeardBy(s, ms)[1..] == HeardBy(s, ms[1..]);
      } else {
        assert HeardBy(s, ms) == HeardBy(s, ms[1..]);
      }
    }
  }

  /** The move of the network that a step of the protocol is. */
  function MoveOf(cfg: Config, r: Redis, s: Step): Move
    requires s.Execute? || s.Bridge?
  {
    if s.Execute? then Emits(s.node, MessagesOf(cfg, r, s.cmd, s.order)) else Bridged(s.node)
  }

  /** The messages that a step hands to brokers. */
  function HandedAround(cfg: Config, st: Cluster, s: Step): seq<Message> {
    match s
    case Execute(_, cmd, order) => MessagesOf(cfg, st.redis, cmd, order)
    case Bridge(n) => if n < |st.read| && st.read[n] < |st.bus| then [st.bus[st.read[n]].msg] else []
    case _ => []
  }

  /** The same bus, the same progress. */
  predicate SameRouting(st: Cluster, net: Network) {
    net.bus == st.bus && net.read == st.read
  }

  /** The messages that a move queues for a session. */
  function NewFor(net: Network, s: Move, n: nat, session: B.Session): seq<Message> {
    match s
    case Emits(m, ms) => if m == n then HeardBy(session, ms) else []
    case Bridged(m) =>
      if m == n && n < |net.read| && net.read[n] < |net.bus| && net.bus[net.read[n]].origin != n
      then HeardBy(session, [net.bus[net.read[n]].msg]) else []
    case Session(_, _) => []
  }

  lemma MoveQueues(w: Wiring, net: Network, s: Move, n: nat, id: nat)
    requires R.GoodNames(w.validUtf8, w.name) && NoColons(net.bus) && Wired(net)
    requires Connected(net, n, id) && !s.Session?
    ensures var session, net' := net.brokers[n].sessions[id], Advance(w, net, s);
            && Connected(net', n, id)
            && net'.brokers[n].sessions[id]
               == session.(outbound := session.outbound + AllPackaged(w.encode, NewFor(net, s, n, session)))
  {
    var session := net.brokers[n].sessions[id];
    assert session.outbound + [] == session.outbound;
    match s
    case Emits(m, ms) =>
      if m == n {
        EmitsReaches(w, net, n, ms, id);
      }
    case Bridged(m) =>
      if m == n && net.read[n] < |net.bus| {
        BridgedReaches(w, net, n, id);
      }
  }

  lemma OneDelivered(c: Client, m: Message)
    ensures DeliverAllTo(c, [m]) == DeliverTo(c, m)
  {
    assert [m][1..] == [];
    assert DeliverAllTo(DeliverTo(c, m), []) == DeliverTo(c, m);
  }

  lemma NewIsDelivered(cfg: Config, st: Cluster, net: Network, s: Step, c: nat, session: B.Session)
    requires SameRouting(st, net) && c < |st.clients| && (s.Execute? || s.Bridge?)
    requires TunedTo(session, st.clients[c])
    ensures |Next(cfg, st, s).clients| == |st.clients|
    ensures Next(cfg, st, s).clients[c]
         == st.clients[c].(features := ReceiveAll(st.clients[c].features,
                                                  NewFor(net, MoveOf(cfg, st.redis, s), st.clients[c].node, session)))
  {
    var cl := st.clients[c];
    match s
    case Execute(n, cmd, order) =>
      if cl.node == n {
        HeardIsDelivered(session, cl, MessagesOf(cfg, st.redis, cmd, order));
        DeliverAllToMember(cl, MessagesOf(cfg, st.redis, cmd, order), "");
      }
    case Bridge(n) =>
      if cl.node == n && n < |st.read| && st.read[n] < |st.bus| && st.bus[st.read[n]].origin != n {
        HeardIsDelivered(session, cl, [st.bus[st.read[n]].msg]);
        OneDelivered(cl, st.bus[st.read[n]].msg);
      }
    case _ =>
  }

  /** What is new in the session's queue, decoded and handled in order, turns the client into what it is now, and the
      session stays tuned. */
  ghost predicate Took(decode: B.Packet -> Message, s: B.Session, s': B.Session, c: Client, c': Client) {
    && TunedTo(s', c')
    && s.outbound <= s'.outbound
    && c' == c.(features := ReceiveAll(c.features, Unpacked(decode, s'.outbound[|s.outbound|..])))
  }

  lemma SessionTakes(w: Wiring, decode: B.Packet -> Message, s: B.Session, s': B.Session, c: Client, c': Client,
                     ms: seq<Message>)
    requires Readable(w, decode, ms) && TunedTo(s, c)
    requires s' == s.(outbound := s.outbound + AllPackaged(w.encode, ms))
    requires c' == c.(features := ReceiveAll(c.features, ms))
    ensures Took(decode, s, s', c, c')
  {
    UnpackedPackaged(w, decode, ms);
    assert s'.outbound[|s.outbound|..] == AllPackaged(w.encode, ms);
  }

  lemma RoutingStep(cfg: Config, w: Wiring, st: Cluster, net: Network, s: Step)
    requires Wired(net) && SameRouting(st, net) && (s.Execute? ==> s.node < |net.brokers|) && (s.Execute? || s.Bridge?)
    ensures SameRouting(Next(cfg, st, s), Advance(w, net, MoveOf(cfg, st.redis, s)))
  {
  }

  /** A proxied command, or one message bridged, step for step: the network puts the same on the bus, and the session of
      a client gets packets which, decoded and handled in order, turn the client's map into what the protocol says. The
      session stays tuned, so that this goes on from step to step. */
  lemma {:induction false} StepIsReceived(cfg: Config, w: Wiring, decode: B.Packet -> Message, st: Cluster,
                                          net: Network, s: Step, c: nat, id: nat)
    requires R.GoodNames(w.validUtf8, w.name) && NoColons(net.bus) && Wired(net)
    requires Readable(w, decode, HandedAround(cfg, st, s))
    requires SameRouting(st, net) && (s.Execute? ==> s.node < |net.brokers|) && (s.Execute? || s.Bridge?)
    requires c < |st.clients| && Connected(net, st.clients[c].node, id)
    requires TunedTo(net.brokers[st.clients[c].node].sessions[id], st.clients[c])
    ensures var n, net', st' := st.clients[c].node, Advance(w, net, MoveOf(cfg, st.redis, s)), Next(cfg, st, s);
            && SameRouting(st', net') && Connected(net', n, id) && |st'.clients| == |st.clients|
            && Took(decode, net.brokers[n].sessions[id], net'.brokers[n].sessions[id], st.clients[c], st'.clients[c])
  {
    var n, m := st.clients[c].node, MoveOf(cfg, st.redis, s);
    var session := net.brokers[n].sessions[id];
    RoutingStep(cfg, w, st, net, s);
    MoveQueues(w, net, m, n, id);
    NewIsDelivered(cfg, st, net, s, c, session);
    HeardReadable(w, decode, session, HandedAround(cfg, st, s));
    SessionTakes(w, decode, session, Advance(w, net, m).brokers[n].sessions[id], st.clients[c],
                 Next(cfg, st, s).clients[c],
                 NewFor(net, m, n, session));
  }
}
