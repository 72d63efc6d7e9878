/** Whole runs of the code: brokers with their sessions, bridges that read bytes, and clients that decode and handle
    what is queued for them. Deed by deed this is the protocol, so the protocol's theorems hold of it. */
module Refinement {
  import opened Payloads
  import opened Topics
  import opened RedisStore
  import opened Protocol
  import opened SessionDelivery
  import opened EndToEnd
  import B = MqttBroker
  import C = MapClient
  import F = TileFanout
  import P = Subscriptions
  import R = Bridge
  import S = Snapshots
  import T = Settling

  /** Redis, the nodes, and the clients, each with the id of its session. A client's `awaiting` are its snapshot
      tasks. */
  datatype System = System(redis: Redis, net: Network, clients: seq<Client>, ids: seq<nat>)

  /** What can happen, with the choices that the code makes on the way: the order of topics in packets and of hits in a
      snapshot, and packet identifiers. */
  datatype Deed =
    | Proxied(node: nat, cmd: Command, order: seq<string>)
    | TakeNext(node: nat)
    | Look(client: nat, zoom: nat, tiles: set<Tile>, dropped: seq<Topic>, added: seq<Topic>, packetId: nat)
    | SendSnapshot(client: nat, tile: Tile, hits: seq<S.GeoHit>)

  function StepOf(d: Deed): Step {
    match d
    case Proxied(n, cmd, order) => Execute(n, cmd, order)
    case TakeNext(n) => Bridge(n)
    case Look(c, zoom, tiles, _, _, _) => SetViewport(c, zoom, tiles)
    case SendSnapshot(c, t, _) => RunSnapshot(c, t)
  }

  function AsCluster(sys: System): Cluster {
    Cluster(sys.redis, sys.net.bus, sys.net.read, sys.clients)
  }

  // ---------- What happens at the broker ----------

  function TextsOf(topics: seq<Topic>): (r: seq<string>)
    ensures |r| == |topics| && forall i :: 0 <= i < |r| ==> r[i] == TopicText(topics[i])
  {
    seq(|topics|, i requires 0 <= i < |topics| => TopicText(topics[i]))
  }

  /** How a connection handles one packet: the filters in order, and the reply. */
  function Handled(id: nat, packetId: nat, p: C.Packet): seq<B.Event> {
    if p.SubscribePacket? then S.SubscribeEvents(id, packetId, TextsOf(p.topics))
    else S.UnsubscribeEvents(id, packetId, TextsOf(p.topics))
  }

  function AllHandled(id: nat, packetId: nat, ps: seq<C.Packet>): seq<B.Event>
    decreases |ps|
  {
    if ps == [] then [] else Handled(id, packetId, ps[0]) + AllHandled(id, packetId + 1, ps[1..])
  }

  /** What the snapshot task of a tile's filter sends. */
  function SnapshotEvents(cfg: Config, w: Wiring, r: Redis, id: nat, filter: string, hits: seq<S.GeoHit>): seq<B.Event>
  {
    match ParseTileFilter(filter)
    case Some((layer, tile)) => S.Directs(id, w.encode, S.Burst(cfg, r, layer, tile, hits))
    case None => S.Directs(id, w.encode, S.ObjectBurst(r, filter))
  }

  /** The events of a client's own session. */
  function OwnEvents(cfg: Config, w: Wiring, r: Redis, cl: Client, id: nat, d: Deed): seq<B.Event>
    requires d.Look? || d.SendSnapshot?
  {
    match d
    case Look(_, _, _, dropped, added, packetId) => AllHandled(id, packetId, C.Packets(dropped, added))
    case SendSnapshot(_, t, hits) => SnapshotEvents(cfg, w, r, id, TopicText(TileTopic(cl.layer, t)), hits)
  }

  function OnSession(n: nat, es: seq<B.Event>): (ms: seq<Move>)
    ensures |ms| == |es| && forall i :: 0 <= i < |ms| ==> ms[i] == Session(n, es[i])
  {
    seq(|es|, i requires 0 <= i < |es| => Session(n, es[i]))
  }

  function NetAfter(cfg: Config, w: Wiring, sys: System, d: Deed): Network {
    match d
    case Proxied(n, cmd, order) => Advance(w, sys.net, Emits(n, MessagesOf(cfg, sys.redis, cmd, order)))
    case TakeNext(n) => Advance(w, sys.net, Bridged(n))
    case _ =>
      var c := d.client;
      if c >= |sys.clients| || c >= |sys.ids| then sys.net
      else
        var es := OwnEvents(cfg, w, sys.redis, sys.clients[c], sys.ids[c], d);
        AdvanceAll(w, sys.net, OnSession(sys.clients[c].node, es))
  }

  // ---------- What happens at the clients ----------

  /** What a client does by itself; `ClientView.LookIsChangeViewport` says that its code does this. */
  function Meanwhile(cfg: Config, cl: Client, d: Deed, c: nat): Client {
    match d
    case Look(i, zoom, tiles, _, _, _) => if i == c then ChangeViewport(cfg, cl, zoom, tiles) else cl
    case SendSnapshot(i, t, _) => if i == c then cl.(awaiting := cl.awaiting - {t}) else cl
    case _ => cl
  }

  /** The messages among what is new in the queue of a session. */
  function News(decode: B.Packet -> Message, net: Network, net': Network, n: nat, id: nat): seq<Message> {
    if !Connected(net, n, id) || !Connected(net', n, id) then []
    else
      var was, now := net.brokers[n].sessions[id].outbound, net'.brokers[n].sessions[id].outbound;
      if |was| <= |now| then Unpacked(decode, now[|was|..]) else []
  }

  function ClientAfter(cfg: Config, decode: B.Packet -> Message, net: Network, net': Network, cl: Client, id: nat,
                       d: Deed, c: nat): Client
  {
    var own := Meanwhile(cfg, cl, d, c);
    own.(features := C.ReceiveAll(own.features, News(decode, net, net', cl.node, id)))
  }

  function Perform(cfg: Config, w: Wiring, decode: B.Packet -> Message, sys: System, d: Deed): System {
    var net' := NetAfter(cfg, w, sys, d);
    System(if d.Proxied? then Apply(sys.redis, d.cmd) else sys.redis,
           net',
           seq(|sys.clients|, c requires 0 <= c < |sys.clients| =>
             if c < |sys.ids| then ClientAfter(cfg, decode, sys.net, net', sys.clients[c], sys.ids[c], d, c)
             else sys.clients[c]),
           sys.ids)
  }

  // ---------- Sound systems, possible deeds ----------

  /** Every client has a session of its own that is read from and tuned to the client's tiles. */
  ghost predicate Sound(sys: System) {
    && Wired(sys.net) && NoColons(sys.net.bus) && |sys.ids| == |sys.clients|
    && (forall c :: 0 <= c < |sys.clients| ==> HasSession(sys.net, sys.clients[c], sys.ids[c]))
    && forall c, k :: 0 <= c < k < |sys.clients| ==>
         sys.clients[c].node != sys.clients[k].node || sys.ids[c] != sys.ids[k]
  }

  ghost predicate HasSession(net: Network, cl: Client, id: nat) {
    Connected(net, cl.node, id) && TunedTo(net.brokers[cl.node].sessions[id], cl)
  }

  ghost predicate Possible(cfg: Config, sys: System, d: Deed) {
    match d
    case Proxied(n, cmd, order) =>
      n < |sys.net.brokers| && forall m :: m in MessagesOf(cfg, sys.redis, cmd, order) ==> R.NoColon(m)
    case TakeNext(_) => true
    case Look(c, _, tiles, dropped, added, _) =>
      && c < |sys.clients|
      && var (was, now) := (C.TileTopics(sys.clients[c].layer, sys.clients[c].subs),
                            C.TileTopics(sys.clients[c].layer, tiles));
         && C.Enumerates(dropped, was - now) && C.Enumerates(added, now - was)
         && forall t :: t in now ==> PlainTopic(t)
    case SendSnapshot(c, t, hits) =>
      && c < |sys.clients| && t in sys.clients[c].awaiting
      && S.ListsHits(cfg, sys.redis, sys.clients[c].layer, t, hits)
      && '/' !in sys.clients[c].layer && t.z <= MAX_U8 && t.x <= MAX_U32 && t.y <= MAX_U32
  }

  /** Clients can read what the deed sends them. */
  ghost predicate Legible(cfg: Config, w: Wiring, decode: B.Packet -> Message, sys: System, d: Deed) {
    match d
    case Look(_, _, _, _, _, _) => true
    case SendSnapshot(c, t, hits) =>
      c < |sys.clients| ==> Readable(w, decode, S.Burst(cfg, sys.redis, sys.clients[c].layer, t, hits))
    case _ => Readable(w, decode, HandedAround(cfg, AsCluster(sys), StepOf(d)))
  }

  // ---------- Commands and bridging ----------

  lemma EmittedNoColons(bus: seq<Envelope>, n: nat, ms: seq<Message>)
    requires NoColons(bus) && forall m :: m in ms ==> R.NoColon(m)
    ensures NoColons(bus + Envelopes(n, ms))
  {
  }

  lemma MessageClient(cfg: Config, w: Wiring, decode: B.Packet -> Message, sys: System, d: Deed, c: nat)
    requires R.GoodNames(w.validUtf8, w.name)
    requires Sound(sys) && Possible(cfg, sys, d) && Legible(cfg, w, decode, sys, d) && (d.Proxied? || d.TakeNext?)
    requires c < |sys.clients| && HasSession(sys.net, sys.clients[c], sys.ids[c])
    ensures var st', sys' := Next(cfg, AsCluster(sys), StepOf(d)), Perform(cfg, w, decode, sys, d);
            && c < |st'.clients| && st'.clients[c].node == sys.clients[c].node
            && sys'.clients[c] == st'.clients[c] && HasSession(sys'.net, sys'.clients[c], sys.ids[c])
  {
    StepIsReceived(cfg, w, decode, AsCluster(sys), sys.net, StepOf(d), c, sys.ids[c]);
  }

  /** A command, or a bridge that takes the next message. */
  lemma MessageDeed(cfg: Config, w: Wiring, decode: B.Packet -> Message, sys: System, d: Deed)
    requires R.GoodNames(w.validUtf8, w.name)
    requires Sound(sys) && Possible(cfg, sys, d) && Legible(cfg, w, decode, sys, d) && (d.Proxied? || d.TakeNext?)
    ensures Sound(Perform(cfg, w, decode, sys, d))
    ensures AsCluster(Perform(cfg, w, decode, sys, d)) == Next(cfg, AsCluster(sys), StepOf(d))
  {
    var sys', st' := Perform(cfg, w, decode, sys, d), Next(cfg, AsCluster(sys), StepOf(d));
    MessageNet(cfg, w, sys, d);
    forall c | 0 <= c < |sys.clients|
      ensures sys'.clients[c] == st'.clients[c] && HasSession(sys'.net, sys'.clients[c], sys.ids[c])
      ensures st'.clients[c].node == sys.clients[c].node
    {
      assert HasSession(sys.net, sys.clients[c], sys.ids[c]);
      MessageClient(cfg, w, decode, sys, d, c);
    }
    assert sys'.clients == st'.clients;
  }

  lemma MessageNet(cfg: Config, w: Wiring, sys: System, d: Deed)
    requires Sound(sys) && Possible(cfg, sys, d) && (d.Proxied? || d.TakeNext?)
    ensures var net', st' := NetAfter(cfg, w, sys, d), Next(cfg, AsCluster(sys), StepOf(d));
            && net' == Advance(w, sys.net, MoveOf(cfg, sys.redis, StepOf(d)))
            && Wired(net') && NoColons(net'.bus) && |st'.clients| == |sys.clients|
            && st'.redis == if d.Proxied? then Apply(sys.redis, d.cmd) else sys.redis
  {
    if |sys.net.read| > 0 {
      AdvanceFrame(w, sys.net, MoveOf(cfg, sys.redis, StepOf(d)), 0);
    }
    if d.Proxied? {
      EmittedNoColons(sys.net.bus, d.node, MessagesOf(cfg, sys.redis, d.cmd, d.order));
    }
  }

  // ---------- Events of one session ----------

  /** An event that only concerns session `id` and leaves it connected and read from. */
  predicate Own(e: B.Event, id: nat) {
    (e.Subscribe? || e.Unsubscribe? || e.SendDirect?) && e.id == id
  }

  ghost predicate AllOwn(es: seq<B.Event>, id: nat) {
    forall i :: 0 <= i < |es| ==> Own(es[i], id)
  }

  lemma {:induction false} SessionMoves(w: Wiring, net: Network, n: nat, es: seq<B.Event>, id: nat)
    requires n < |net.brokers| && AllOwn(es, id)
    ensures AdvanceAll(w, net, OnSession(n, es)) == net.(brokers := net.brokers[n := B.Run(net.brokers[n], es)])
    decreases |es|
  {
    if es == [] {
      assert net.brokers[n := net.brokers[n]] == net.brokers;
    } else {
      assert OnSession(n, es)[1..] == OnSession(n, es[1..]);
      assert Own(es[0], id);
      SessionMoves(w, Advance(w, net, Session(n, es[0])), n, es[1..], id);
    }
  }

  lemma {:induction false} OthersUntouched(st: B.State, es: seq<B.Event>, id: nat, other: nat)
    requires AllOwn(es, id) && other != id && other in st.sessions
    ensures other in B.Run(st, es).sessions && B.Run(st, es).sessions[other] == st.sessions[other]
    decreases |es|
  {
    if es != [] {
      assert Own(es[0], id);
      OthersUntouched(B.Next(st, es[0]), es[1..], id, other);
    }
  }

  lemma OwnFollows(st: B.State, es: seq<B.Event>, id: nat)
    requires B.Valid(st) && id in st.sessions && AllOwn(es, id)
    ensures id in B.Run(st, es).sessions && B.Valid(B.Run(st, es))
    ensures B.AsSubscriber(B.Run(st, es).sessions[id]) == B.FollowAll(B.AsSubscriber(st.sessions[id]), es, id)
  {
    forall i | 0 <= i < |es| ensures es[i] != B.Deregister(id) {
      assert Own(es[i], id);
    }
    B.SessionIsolation(st, es, id);
    B.RunValid(st, es);
  }

  /** A session is tuned by what it is as a subscriber: it reads, and its filters are the texts of the tile topics. */
  lemma TunedBySubscriber(s: B.Session, c: Client)
    requires s.open && B.AsSubscriber(s).filters == P.Texts(C.TileTopics(c.layer, c.subs))
    requires forall t :: t in C.TileTopics(c.layer, c.subs) ==> PlainTopic(t)
    ensures TunedTo(s, c)
  {
    var topics := C.TileTopics(c.layer, c.subs);
    assert forall f :: f in s.subs <==> f in B.AsSubscriber(s).filters;
    forall t | t in c.subs ensures PlainTopic(TileTopic(c.layer, t)) && TopicText(TileTopic(c.layer, t)) in s.subs {
      assert TileTopic(c.layer, t) in topics;
    }
  }

  lemma SubscriberOfTuned(s: B.Session, c: Client)
    requires TunedTo(s, c)
    ensures B.AsSubscriber(s).reading && B.AsSubscriber(s).filters == P.Texts(C.TileTopics(c.layer, c.subs))
    ensures forall t :: t in C.TileTopics(c.layer, c.subs) ==> PlainTopic(t)
  {
    var topics := C.TileTopics(c.layer, c.subs);
    forall f | f in s.subs ensures f in P.Texts(topics) {
      var t :| t in c.subs && f == TopicText(TileTopic(c.layer, t));
      assert TileTopic(c.layer, t) in topics;
    }
  }

  // ---------- Packets ----------

  lemma {:induction false} FiltersOnly(s: B.Subscriber, es: seq<B.Event>, id: nat)
    requires forall i :: 0 <= i < |es| ==> es[i].Subscribe? || es[i].Unsubscribe?
    ensures B.FollowAll(s, es, id) == s.(filters := B.FollowAll(s, es, id).filters)
    decreases |es|
  {
    if es != [] {
      FiltersOnly(B.Follow(s, es[0], id), es[1..], id);
    }
  }

  lemma OneDirect(s: B.Subscriber, id: nat, item: B.Outbound)
    requires s.reading
    ensures B.FollowAll(s, [B.SendDirect(id, item)], id) == s.(inbox := s.inbox + [item])
  {
    assert [B.SendDirect(id, item)][1..] == [];
    assert B.FollowAll(B.Follow(s, B.SendDirect(id, item), id), [], id) == B.Follow(s, B.SendDirect(id, item), id);
  }

  /** The reply to a packet. */
  function Reply(packetId: nat, p: C.Packet): B.Outbound {
    if p.SubscribePacket? then B.SubAck(packetId, S.Granted(|p.topics|)) else B.UnsubAck(packetId)
  }

  lemma HandledParts(id: nat, packetId: nat, p: C.Packet)
    ensures Handled(id, packetId, p) == P.PacketEvents(id, p) + [B.SendDirect(id, Reply(packetId, p))]
    ensures AllOwn(Handled(id, packetId, p), id)
  {
    if p.SubscribePacket? {
      assert S.Subscribes(id, TextsOf(p.topics)) == P.PacketEvents(id, p);
    } else {
      assert S.Unsubscribes(id, TextsOf(p.topics)) == P.PacketEvents(id, p);
    }
  }

  /** Handling a packet changes the filters as the packet says and queues the reply. */
  lemma PacketFollowed(s: B.Subscriber, topics: set<Topic>, id: nat, packetId: nat, p: C.Packet)
    requires s.reading && s.filters == P.Texts(topics)
    ensures B.FollowAll(s, Handled(id, packetId, p), id)
         == s.(filters := P.Texts(P.ApplyPacket(topics, p)), inbox := s.inbox + [Reply(packetId, p)])
  {
    HandledParts(id, packetId, p);
    P.FollowAppend(s, P.PacketEvents(id, p), [B.SendDirect(id, Reply(packetId, p))], id);
    P.OnePacketFollowed(s, topics, id, p);
    FiltersOnly(s, P.PacketEvents(id, p), id);
    OneDirect(B.FollowAll(s, P.PacketEvents(id, p), id), id, Reply(packetId, p));
  }

  function Replies(packetId: nat, ps: seq<C.Packet>): (r: seq<B.Outbound>)
    ensures forall i :: 0 <= i < |r| ==> !r[i].Publish?
    decreases |ps|
  {
    if ps == [] then [] else [Reply(packetId, ps[0])] + Replies(packetId + 1, ps[1..])
  }

  lemma {:induction false} PacketsFollowed(s: B.Subscriber, topics: set<Topic>, id: nat, packetId: nat,
                                           ps: seq<C.Packet>)
    requires s.reading && s.filters == P.Texts(topics)
    ensures AllOwn(AllHandled(id, packetId, ps), id)
    ensures B.FollowAll(s, AllHandled(id, packetId, ps), id)
         == s.(filters := P.Texts(P.ApplyPackets(topics, ps)), inbox := s.inbox + Replies(packetId, ps))
    decreases |ps|
  {
    if ps == [] {
      assert s.inbox + [] == s.inbox;
    } else {
      var first, rest := Handled(id, packetId, ps[0]), AllHandled(id, packetId + 1, ps[1..]);
      HandledParts(id, packetId, ps[0]);
      PacketFollowed(s, topics, id, packetId, ps[0]);
      P.FollowAppend(s, first, rest, id);
      PacketsFollowed(B.FollowAll(s, first, id), P.ApplyPacket(topics, ps[0]), id, packetId + 1, ps[1..]);
      Assoc(s.inbox, [Reply(packetId, ps[0])], Replies(packetId + 1, ps[1..]));
    }
  }

  lemma {:induction false} RepliesCarryNothing(decode: B.Packet -> Message, items: seq<B.Outbound>)
    requires forall i :: 0 <= i < |items| ==> !items[i].Publish?
    ensures Unpacked(decode, items) == []
  {
    if items != [] {
      RepliesCarryNothing(decode, items[1..]);
    }
  }

  lemma DifferencesApplied(was: set<Topic>, now: set<Topic>, dropped: seq<Topic>, added: seq<Topic>)
    requires C.Enumerates(dropped, was - now) && C.Enumerates(added, now - was)
    ensures P.ApplyPackets(was, C.Packets(dropped, added)) == now
  {
    assert P.ToSet(dropped) == was - now && P.ToSet(added) == now - was;
    var drop, add := C.UnsubscribePacket(dropped), C.SubscribePacket(added);
    assert [drop, add][1..] == [add] && [add][1..] == [] && [drop][1..] == [];
    assert P.ApplyPackets(P.ApplyPacket(was, drop), [add]) == P.ApplyPacket(P.ApplyPacket(was, drop), add);
    if dropped == [] && added == [] {
      assert C.Packets(dropped, added) == [];
    } else if dropped == [] {
      assert C.Packets(dropped, added) == [add];
      assert P.ApplyPackets(was, [add]) == P.ApplyPacket(was, add);
    } else if added == [] {
      assert C.Packets(dropped, added) == [drop];
      assert P.ApplyPackets(was, [drop]) == P.ApplyPacket(was, drop);
    } else {
      assert C.Packets(dropped, added) == [drop, add];
    }
  }

  // ---------- Deeds of one client ----------

  /** The network after events of client c's session. */
  ghost predicate OnlyTouches(sys: System, c: nat, es: seq<B.Event>, net': Network)
    requires c < |sys.clients| == |sys.ids| && sys.clients[c].node < |sys.net.brokers|
  {
    var n := sys.clients[c].node;
    net' == sys.net.(brokers := sys.net.brokers[n := B.Run(sys.net.brokers[n], es)])
  }

  lemma TouchedWired(sys: System, c: nat, es: seq<B.Event>, net': Network)
    requires Sound(sys) && c < |sys.clients|
    requires HasSession(sys.net, sys.clients[c], sys.ids[c])
    requires AllOwn(es, sys.ids[c]) && OnlyTouches(sys, c, es, net')
    ensures Wired(net') && net'.bus == sys.net.bus && net'.read == sys.net.read
  {
    OwnFollows(sys.net.brokers[sys.clients[c].node], es, sys.ids[c]);
  }

  /** Another client's session is as it was, and has no news. */
  lemma OtherClient(sys: System, c: nat, es: seq<B.Event>, net': Network, k: nat, decode: B.Packet -> Message)
    requires Sound(sys) && c < |sys.clients| && k < |sys.clients| && k != c
    requires HasSession(sys.net, sys.clients[c], sys.ids[c]) && HasSession(sys.net, sys.clients[k], sys.ids[k])
    requires AllOwn(es, sys.ids[c]) && OnlyTouches(sys, c, es, net')
    ensures HasSession(net', sys.clients[k], sys.ids[k])
    ensures News(decode, sys.net, net', sys.clients[k].node, sys.ids[k]) == []
  {
    var n := sys.clients[c].node;
    if sys.clients[k].node == n {
      OthersUntouched(sys.net.brokers[n], es, sys.ids[c], sys.ids[k]);
    }
    var now := net'.brokers[sys.clients[k].node].sessions[sys.ids[k]].outbound;
    assert now[|now|..] == [];
  }

  /** The session of client c, when following its events gives it new filters and items. */
  lemma OwnClient(sys: System, c: nat, es: seq<B.Event>, net': Network, filters: set<string>, items: seq<B.Outbound>,
                  decode: B.Packet -> Message)
    requires Sound(sys) && c < |sys.clients| && HasSession(sys.net, sys.clients[c], sys.ids[c])
    requires AllOwn(es, sys.ids[c]) && OnlyTouches(sys, c, es, net')
    requires var s := B.AsSubscriber(sys.net.brokers[sys.clients[c].node].sessions[sys.ids[c]]);
             B.FollowAll(s, es, sys.ids[c]) == s.(filters := filters, inbox := s.inbox + items)
    ensures Connected(net', sys.clients[c].node, sys.ids[c])
    ensures net'.brokers[sys.clients[c].node].sessions[sys.ids[c]].open
    ensures B.AsSubscriber(net'.brokers[sys.clients[c].node].sessions[sys.ids[c]]).filters == filters
    ensures News(decode, sys.net, net', sys.clients[c].node, sys.ids[c]) == Unpacked(decode, items)
  {
    var n, id := sys.clients[c].node, sys.ids[c];
    var was := sys.net.brokers[n].sessions[id].outbound;
    OwnFollows(sys.net.brokers[n], es, id);
    assert net'.brokers[n].sessions[id].outbound == was + items;
    assert (was + items)[|was|..] == items;
  }

  lemma LookNet(cfg: Config, w: Wiring, sys: System, d: Deed)
    requires Sound(sys) && Possible(cfg, sys, d) && d.Look?
        && HasSession(sys.net, sys.clients[d.client], sys.ids[d.client])
    ensures var (c, ps) := (d.client, C.Packets(d.dropped, d.added));
            var es := AllHandled(sys.ids[c], d.packetId, ps);
            var s := B.AsSubscriber(sys.net.brokers[sys.clients[c].node].sessions[sys.ids[c]]);
            && AllOwn(es, sys.ids[c]) && OnlyTouches(sys, c, es, NetAfter(cfg, w, sys, d))
            && B.FollowAll(s, es, sys.ids[c])
               == s.(filters := P.Texts(C.TileTopics(sys.clients[c].layer, d.tiles)),
                     inbox := s.inbox + Replies(d.packetId, ps))
  {
    var c, ps := d.client, C.Packets(d.dropped, d.added);
    var cl, n, id := sys.clients[c], sys.clients[c].node, sys.ids[c];
    var session, es := sys.net.brokers[n].sessions[id], AllHandled(id, d.packetId, ps);
    SubscriberOfTuned(session, cl);
    PacketsFollowed(B.AsSubscriber(session), C.TileTopics(cl.layer, cl.subs), id, d.packetId, ps);
    DifferencesApplied(C.TileTopics(cl.layer, cl.subs), C.TileTopics(cl.layer, d.tiles), d.dropped, d.added);
    SessionMoves(w, sys.net, n, es, id);
  }

  lemma LookClient(cfg: Config, w: Wiring, decode: B.Packet -> Message, sys: System, d: Deed)
    requires Sound(sys) && Possible(cfg, sys, d) && d.Look?
    requires HasSession(sys.net, sys.clients[d.client], sys.ids[d.client])
    ensures var (c, cl, net') := (d.client, sys.clients[d.client], NetAfter(cfg, w, sys, d));
            var cl' := ChangeViewport(cfg, cl, d.zoom, d.tiles);
            HasSession(net', cl', sys.ids[c]) && ClientAfter(cfg, decode, sys.net, net', cl, sys.ids[c], d, c) == cl'
  {
    var c, cl, net' := d.client, sys.clients[d.client], NetAfter(cfg, w, sys, d);
    var items := Replies(d.packetId, C.Packets(d.dropped, d.added));
    LookNet(cfg, w, sys, d);
    OwnClient(sys, c, AllHandled(sys.ids[c], d.packetId, C.Packets(d.dropped, d.added)), net',
              P.Texts(C.TileTopics(cl.layer, d.tiles)), items, decode);
    RepliesCarryNothing(decode, items);
    TunedBySubscriber(net'.brokers[cl.node].sessions[sys.ids[c]], ChangeViewport(cfg, cl, d.zoom, d.tiles));
  }

  lemma LookTouches(cfg: Config, w: Wiring, sys: System, d: Deed) returns (es: seq<B.Event>)
    requires Sound(sys) && Possible(cfg, sys, d) && d.Look?
    requires HasSession(sys.net, sys.clients[d.client], sys.ids[d.client])
    ensures AllOwn(es, sys.ids[d.client]) && OnlyTouches(sys, d.client, es, NetAfter(cfg, w, sys, d))
  {
    LookNet(cfg, w, sys, d);
    es := AllHandled(sys.ids[d.client], d.packetId, C.Packets(d.dropped, d.added));
  }

  /** A client looks elsewhere. */
  lemma LookDeed(cfg: Config, w: Wiring, decode: B.Packet -> Message, sys: System, d: Deed)
    requires Sound(sys) && Possible(cfg, sys, d) && d.Look?
    ensures Sound(Perform(cfg, w, decode, sys, d))
    ensures AsCluster(Perform(cfg, w, decode, sys, d)) == Next(cfg, AsCluster(sys), StepOf(d))
  {
    var c := d.client;
    assert HasSession(sys.net, sys.clients[c], sys.ids[c]);
    var es := LookTouches(cfg, w, sys, d);
    LookClient(cfg, w, decode, sys, d);
    OneClientDeed(cfg, w, decode, sys, d, c, es, ChangeViewport(cfg, sys.clients[c], d.zoom, d.tiles));
  }

  /** A deed that only concerns client c and turns it into `cl'`. */
  lemma OneClientDeed(cfg: Config, w: Wiring, decode: B.Packet -> Message, sys: System, d: Deed, c: nat,
                      es: seq<B.Event>, cl': Client)
    requires Sound(sys) && (d.Look? || d.SendSnapshot?) && c == d.client < |sys.clients|
    requires HasSession(sys.net, sys.clients[c], sys.ids[c])
    requires AllOwn(es, sys.ids[c]) && OnlyTouches(sys, c, es, NetAfter(cfg, w, sys, d))
    requires ClientAfter(cfg, decode, sys.net, NetAfter(cfg, w, sys, d), sys.clients[c], sys.ids[c], d, c) == cl'
    requires cl'.node == sys.clients[c].node && HasSession(NetAfter(cfg, w, sys, d), cl', sys.ids[c])
    ensures Sound(Perform(cfg, w, decode, sys, d))
    ensures AsCluster(Perform(cfg, w, decode, sys, d)) == AsCluster(sys).(clients := sys.clients[c := cl'])
  {
    TouchedWired(sys, c, es, NetAfter(cfg, w, sys, d));
    forall k | 0 <= k < |sys.clients|
      ensures Perform(cfg, w, decode, sys, d).clients[k] == sys.clients[c := cl'][k]
      ensures HasSession(NetAfter(cfg, w, sys, d), sys.clients[c := cl'][k], sys.ids[k])
    {
      assert HasSession(sys.net, sys.clients[k], sys.ids[k]);
      ClientOfDeed(cfg, w, decode, sys, d, c, es, cl', k);
    }
    assert Perform(cfg, w, decode, sys, d).clients == sys.clients[c := cl'];
  }

  lemma ClientOfDeed(cfg: Config, w: Wiring, decode: B.Packet -> Message, sys: System, d: Deed, c: nat,
                     es: seq<B.Event>, cl': Client, k: nat)
    requires Sound(sys) && (d.Look? || d.SendSnapshot?) && c == d.client < |sys.clients| && k < |sys.clients|
    requires HasSession(sys.net, sys.clients[c], sys.ids[c]) && HasSession(sys.net, sys.clients[k], sys.ids[k])
    requires AllOwn(es, sys.ids[c]) && OnlyTouches(sys, c, es, NetAfter(cfg, w, sys, d))
    requires ClientAfter(cfg, decode, sys.net, NetAfter(cfg, w, sys, d), sys.clients[c], sys.ids[c], d, c) == cl'
    requires HasSession(NetAfter(cfg, w, sys, d), cl', sys.ids[c])
    ensures Perform(cfg, w, decode, sys, d).clients[k] == sys.clients[c := cl'][k]
    ensures HasSession(NetAfter(cfg, w, sys, d), sys.clients[c := cl'][k], sys.ids[k])
  {
    if k != c {
      OtherClient(sys, c, es, NetAfter(cfg, w, sys, d), k, decode);
    }
  }

  // ---------- Snapshots ----------

  lemma {:induction false} DirectsFollowed(s: B.Subscriber, id: nat, encode: Message -> seq<Byte>, ms: seq<Message>)
    requires s.reading
    ensures AllOwn(S.Directs(id, encode, ms), id)
    ensures B.FollowAll(s, S.Directs(id, encode, ms), id) == s.(inbox := s.inbox + AllPackaged(encode, ms))
    decreases |ms|
  {
    if ms == [] {
      assert s.inbox + [] == s.inbox;
    } else {
      var first := B.Publish(F.PacketOf(encode, ms[0]));
      assert S.Directs(id, encode, ms)[1..] == S.Directs(id, encode, ms[1..]);
      DirectsFollowed(B.Follow(s, B.SendDirect(id, first), id), id, encode, ms[1..]);
      Assoc(s.inbox, [first], AllPackaged(encode, ms[1..]));
    }
  }

  lemma SnapshotNet(cfg: Config, w: Wiring, sys: System, d: Deed)
    requires Sound(sys) && Possible(cfg, sys, d) && d.SendSnapshot?
    requires HasSession(sys.net, sys.clients[d.client], sys.ids[d.client])
    ensures var (c, cl) := (d.client, sys.clients[d.client]);
            var ms := S.Burst(cfg, sys.redis, cl.layer, d.tile, d.hits);
            var es, s := S.Directs(sys.ids[c], w.encode,
                                   ms), B.AsSubscriber(sys.net.brokers[cl.node].sessions[sys.ids[c]]);
            && AllOwn(es, sys.ids[c]) && OnlyTouches(sys, c, es, NetAfter(cfg, w, sys, d))
            && B.FollowAll(s, es, sys.ids[c])
               == s.(filters := P.Texts(C.TileTopics(cl.layer, cl.subs)), inbox := s.inbox + AllPackaged(w.encode, ms))
  {
    var c, cl := d.client, sys.clients[d.client];
    var id, session := sys.ids[c], sys.net.brokers[cl.node].sessions[sys.ids[c]];
    var ms := S.Burst(cfg, sys.redis, cl.layer, d.tile, d.hits);
    ParseTileFilterExact(cl.layer, d.tile);
    SubscriberOfTuned(session, cl);
    DirectsFollowed(B.AsSubscriber(session), id, w.encode, ms);
    SessionMoves(w, sys.net, cl.node, S.Directs(id, w.encode, ms), id);
  }

  lemma SnapshotSession(cfg: Config, w: Wiring, decode: B.Packet -> Message, sys: System, d: Deed)
    requires Sound(sys) && Possible(cfg, sys, d) && Legible(cfg, w, decode, sys, d) && d.SendSnapshot?
    requires HasSession(sys.net, sys.clients[d.client], sys.ids[d.client])
    ensures var (c, cl, net') := (d.client, sys.clients[d.client], NetAfter(cfg, w, sys, d));
            && HasSession(net', T.AfterBurst(cfg, sys.redis, cl, d.tile), sys.ids[c])
            && News(decode, sys.net, net', cl.node, sys.ids[c]) == S.Burst(cfg, sys.redis, cl.layer, d.tile, d.hits)
  {
    var c, cl, net' := d.client, sys.clients[d.client], NetAfter(cfg, w, sys, d);
    var ms := S.Burst(cfg, sys.redis, cl.layer, d.tile, d.hits);
    SubscriberOfTuned(sys.net.brokers[cl.node].sessions[sys.ids[c]], cl);
    SnapshotNet(cfg, w, sys, d);
    OwnClient(sys, c, S.Directs(sys.ids[c], w.encode, ms), net', P.Texts(C.TileTopics(cl.layer, cl.subs)),
              AllPackaged(w.encode, ms), decode);
    UnpackedPackaged(w, decode, ms);
    TunedBySubscriber(net'.brokers[cl.node].sessions[sys.ids[c]], T.AfterBurst(cfg, sys.redis, cl, d.tile));
  }

  lemma SnapshotClient(cfg: Config, w: Wiring, decode: B.Packet -> Message, sys: System, d: Deed)
    requires Sound(sys) && Possible(cfg, sys, d) && Legible(cfg, w, decode, sys, d) && d.SendSnapshot?
    requires HasSession(sys.net, sys.clients[d.client], sys.ids[d.client])
    ensures var (c, cl, net') := (d.client, sys.clients[d.client], NetAfter(cfg, w, sys, d));
            && HasSession(net', T.AfterBurst(cfg, sys.redis, cl, d.tile), sys.ids[c])
            && ClientAfter(cfg, decode, sys.net, net', cl, sys.ids[c], d, c) == T.AfterBurst(cfg, sys.redis, cl, d.tile)
  {
    var cl := sys.clients[d.client];
    SnapshotSession(cfg, w, decode, sys, d);
    S.BurstIsSnapshot(cfg, sys.redis, cl.layer, d.tile, cl.features, d.hits);
  }

  lemma SnapshotTouches(cfg: Config, w: Wiring, sys: System, d: Deed) returns (es: seq<B.Event>)
    requires Sound(sys) && Possible(cfg, sys, d) && d.SendSnapshot?
    requires HasSession(sys.net, sys.clients[d.client], sys.ids[d.client])
    ensures AllOwn(es, sys.ids[d.client]) && OnlyTouches(sys, d.client, es, NetAfter(cfg, w, sys, d))
  {
    SnapshotNet(cfg, w, sys, d);
    var cl := sys.clients[d.client];
    es := S.Directs(sys.ids[d.client], w.encode, S.Burst(cfg, sys.redis, cl.layer, d.tile, d.hits));
  }

  lemma SnapshotStep(cfg: Config, st: Cluster, c: nat, t: Tile)
    requires c < |st.clients| && t in st.clients[c].awaiting
    ensures Next(cfg, st, RunSnapshot(c, t))
         == st.(clients := st.clients[c := T.AfterBurst(cfg, st.redis, st.clients[c], t)])
  {
  }

  /** The snapshot task of one tile runs. */
  lemma SnapshotDeed(cfg: Config, w: Wiring, decode: B.Packet -> Message, sys: System, d: Deed)
    requires Sound(sys) && Possible(cfg, sys, d) && Legible(cfg, w, decode, sys, d) && d.SendSnapshot?
    ensures Sound(Perform(cfg, w, decode, sys, d))
    ensures AsCluster(Perform(cfg, w, decode, sys, d)) == Next(cfg, AsCluster(sys), StepOf(d))
  {
    var c, cl := d.client, sys.clients[d.client];
    assert HasSession(sys.net, cl, sys.ids[c]);
    var es := SnapshotTouches(cfg, w, sys, d);
    SnapshotClient(cfg, w, decode, sys, d);
    SnapshotStep(cfg, AsCluster(sys), c, d.tile);
    OneClientDeed(cfg, w, decode, sys, d, c, es, T.AfterBurst(cfg, sys.redis, cl, d.tile));
  }

  // ---------- Whole runs ----------

  /** Every deed of the code is a step of the protocol. */
  lemma {:induction false} DeedIsStep(cfg: Config, w: Wiring, decode: B.Packet -> Message, sys: System, d: Deed)
    requires R.GoodNames(w.validUtf8, w.name)
    requires Sound(sys) && Possible(cfg, sys, d) && Legible(cfg, w, decode, sys, d)
    ensures Sound(Perform(cfg, w, decode, sys, d))
    ensures AsCluster(Perform(cfg, w, decode, sys, d)) == Next(cfg, AsCluster(sys), StepOf(d))
  {
    match d
    case Look(_, _, _, _, _, _) => LookDeed(cfg, w, decode, sys, d);
    case SendSnapshot(_, _, _) => SnapshotDeed(cfg, w, decode, sys, d);
    case _ => MessageDeed(cfg, w, decode, sys, d);
  }

  function PerformAll(cfg: Config, w: Wiring, decode: B.Packet -> Message, sys: System, ds: seq<Deed>): System
    decreases |ds|
  {
    if ds == [] then sys else PerformAll(cfg, w, decode, Perform(cfg, w, decode, sys, ds[0]), ds[1..])
  }

  ghost predicate AllPossible(cfg: Config, w: Wiring, decode: B.Packet -> Message, sys: System, ds: seq<Deed>)
    decreases |ds|
  {
    ds == [] || (Possible(cfg, sys, ds[0]) && Legible(cfg, w, decode, sys, ds[0])
                 && AllPossible(cfg, w, decode, Perform(cfg, w, decode, sys, ds[0]), ds[1..]))
  }

  function StepsOf(ds: seq<Deed>): (steps: seq<Step>)
    ensures |steps| == |ds|
    ensures forall i :: 0 <= i < |ds| ==> steps[i] == StepOf(ds[i])
  {
    seq(|ds|, i requires 0 <= i < |ds| => StepOf(ds[i]))
  }

  lemma FirstDeed(cfg: Config, w: Wiring, decode: B.Packet -> Message, sys: System, ds: seq<Deed>, st: Cluster)
    requires ds != []
    ensures PerformAll(cfg, w, decode, sys, ds)
         == PerformAll(cfg, w, decode, Perform(cfg, w, decode, sys, ds[0]), ds[1..])
    ensures Run(cfg, st, StepsOf(ds)) == Run(cfg, Next(cfg, st, StepOf(ds[0])), StepsOf(ds[1..]))
  {
    assert StepsOf(ds)[1..] == StepsOf(ds[1..]);
  }

  /** Every run of brokers, bridges, bytes and decoding clients is a run of the protocol, deed by deed: the same Redis,
      the same bus, the same progress, and the same map at every client. */
  lemma {:induction false} RunsOfTheCode(cfg: Config, w: Wiring, decode: B.Packet -> Message, sys: System,
                                         ds: seq<Deed>)
    requires R.GoodNames(w.validUtf8, w.name)
    requires Sound(sys) && AllPossible(cfg, w, decode, sys, ds)
    ensures Sound(PerformAll(cfg, w, decode, sys, ds))
    ensures AsCluster(PerformAll(cfg, w, decode, sys, ds)) == Run(cfg, AsCluster(sys), StepsOf(ds))
    decreases |ds|
  {
    if ds != [] {
      DeedIsStep(cfg, w, decode, sys, ds[0]);
      FirstDeed(cfg, w, decode, sys, ds, AsCluster(sys));
      RunsOfTheCode(cfg, w, decode, Perform(cfg, w, decode, sys, ds[0]), ds[1..]);
    }
  }

  /** The view theorem for the code: after deeds that keep to the protocol's conditions, a client whose node has bridged
      everything and whose snapshots have come has decoded exactly what the query of Redis returns. */
  lemma {:induction false} DecodedMapIsRight(cfg: Config, w: Wiring, decode: B.Packet -> Message, sys: System,
                                             ds: seq<Deed>, c: nat, full: bool)
    requires ValidConfig(cfg) && R.GoodNames(w.validUtf8, w.name)
    requires Sound(sys) && Init(cfg, AsCluster(sys)) && AllPossible(cfg, w, decode, sys, ds)
    requires Allowed(cfg, AsCluster(sys), StepsOf(ds), full)
    ensures var after := PerformAll(cfg, w, decode, sys, ds);
            c < |after.clients| && after.clients[c].awaiting == {}
            && Undelivered(AsCluster(after), after.clients[c].node) == [] ==>
              Agrees(after.clients[c].features, Wanted(cfg, AsCluster(after), c), full)
  {
    var after := PerformAll(cfg, w, decode, sys, ds);
    RunsOfTheCode(cfg, w, decode, sys, ds);
    InitInv(cfg, AsCluster(sys), full);
    RunKeeps(cfg, AsCluster(sys), StepsOf(ds), full);
    if c < |after.clients| && after.clients[c].awaiting == {} && Undelivered(AsCluster(after),
        after.clients[c].node) == [] {
      CaughtUp(cfg, AsCluster(after), c, full);
    }
  }
}
