/** A connection's subscriptions and the snapshot bursts they cause. */
module Snapshots {
  import opened Payloads
  import opened RedisStore
  import opened Protocol
  import opened Topics
  import B = MqttBroker
  import C = MapClient
  import F = TileFanout

  // ---------- SUBSCRIBE and UNSUBSCRIBE ----------

  function Subscribes(id: nat, filters: seq<string>): (es: seq<B.Event>)
    ensures |es| == |filters| && forall i :: 0 <= i < |filters| ==> es[i] == B.Subscribe(id, filters[i])
  {
    seq(|filters|, i requires 0 <= i < |filters| => B.Subscribe(id, filters[i]))
  }

  function Unsubscribes(id: nat, filters: seq<string>): (es: seq<B.Event>)
    ensures |es| == |filters| && forall i :: 0 <= i < |filters| ==> es[i] == B.Unsubscribe(id, filters[i])
  {
    seq(|filters|, i requires 0 <= i < |filters| => B.Unsubscribe(id, filters[i]))
  }

  /** One granted QoS 0 per filter. */
  function Granted(n: nat): (r: seq<nat>)
    ensures |r| == n && forall i :: 0 <= i < n ==> r[i] == 0
  {
    seq(n, _ => 0)
  }

  /** All that a SUBSCRIBE does at the broker: its filters in order, then the reply with one code each. */
  function SubscribeEvents(id: nat, packetId: nat, filters: seq<string>): seq<B.Event> {
    Subscribes(id, filters) + [B.SendDirect(id, B.SubAck(packetId, Granted(|filters|)))]
  }

  function UnsubscribeEvents(id: nat, packetId: nat, filters: seq<string>): seq<B.Event> {
    Unsubscribes(id, filters) + [B.SendDirect(id, B.UnsubAck(packetId))]
  }

  lemma {:induction false} RunLast(st: B.State, es: seq<B.Event>, e: B.Event)
    ensures B.Run(st, es + [e]) == B.Next(B.Run(st, es), e)
  {
    F.RunAppend(st, es, [e]);
    assert [e][1..] == [];
    assert B.Run(B.Run(st, es), [e]) == B.Run(B.Next(B.Run(st, es), e), []);
  }

  lemma FirstOfFilters(held: set<string>, filters: seq<string>)
    requires filters != []
    ensures held + {filters[0]} + (set f | f in filters[1..]) == held + set f | f in filters
    ensures held - {filters[0]} - (set f | f in filters[1..]) == held - set f | f in filters
  {
    assert (set f | f in filters) == {filters[0]} + set f | f in filters[1..];
  }

  lemma LastReply(s: B.Subscriber, id: nat, reply: B.Outbound)
    requires s.reading
    ensures B.FollowAll(s, [B.SendDirect(id, reply)], id) == s.(inbox := s.inbox + [reply])
  {
    var es := [B.SendDirect(id, reply)];
    assert B.FollowAll(s, es, id) == B.FollowAll(B.Follow(s, es[0], id), es[1..], id);
  }

  lemma {:induction false} FiltersNoted(s: B.Subscriber, id: nat, filters: seq<string>, reply: B.Outbound)
    requires s.reading
    ensures B.FollowAll(s, Subscribes(id, filters) + [B.SendDirect(id, reply)], id)
         == B.Subscriber(s.filters + (set f | f in filters), true, s.inbox + [reply])
    decreases |filters|
  {
    var es := Subscribes(id, filters) + [B.SendDirect(id, reply)];
    if filters == [] {
      assert es == [B.SendDirect(id, reply)];
      LastReply(s, id, reply);
    } else {
      assert es[1..] == Subscribes(id, filters[1..]) + [B.SendDirect(id, reply)];
      FiltersNoted(s.(filters := s.filters + {filters[0]}), id, filters[1..], reply);
      FirstOfFilters(s.filters, filters);
    }
  }

  lemma {:induction false} FiltersTaken(s: B.Subscriber, id: nat, filters: seq<string>, reply: B.Outbound)
    requires s.reading
    ensures B.FollowAll(s, Unsubscribes(id, filters) + [B.SendDirect(id, reply)], id)
         == B.Subscriber(s.filters - (set f | f in filters), true, s.inbox + [reply])
    decreases |filters|
  {
    var es := Unsubscribes(id, filters) + [B.SendDirect(id, reply)];
    if filters == [] {
      assert es == [B.SendDirect(id, reply)];
      LastReply(s, id, reply);
    } else {
      assert es[1..] == Unsubscribes(id, filters[1..]) + [B.SendDirect(id, reply)];
      FiltersTaken(s.(filters := s.filters - {filters[0]}), id, filters[1..], reply);
      FirstOfFilters(s.filters, filters);
    }
  }

  /** A request adds or takes away exactly its filters, and is answered once, under its own identifier; a SUBSCRIBE with
      a granted QoS 0 for each filter. */
  lemma RequestsAreAnswered(st: B.State, id: nat, packetId: nat, filters: seq<string>)
    requires B.Valid(st) && id in st.sessions && st.sessions[id].open
    ensures var s, s' := B.AsSubscriber(st.sessions[id]), B.Run(st, SubscribeEvents(id, packetId, filters)).sessions;
            id in s' && B.AsSubscriber(s'[id])
            == B.Subscriber(s.filters + (set f | f in filters), true,
                            s.inbox + [B.SubAck(packetId, seq(|filters|, _ => 0))])
    ensures var s, s' := B.AsSubscriber(st.sessions[id]), B.Run(st, UnsubscribeEvents(id, packetId, filters)).sessions;
            id in s' && B.AsSubscriber(s'[id])
            == B.Subscriber(s.filters - (set f | f in filters), true, s.inbox + [B.UnsubAck(packetId)])
  {
    var s := B.AsSubscriber(st.sessions[id]);
    FiltersNoted(s, id, filters, B.SubAck(packetId, Granted(|filters|)));
    FiltersTaken(s, id, filters, B.UnsubAck(packetId));
    B.SessionIsolation(st, SubscribeEvents(id, packetId, filters), id);
    B.SessionIsolation(st, UnsubscribeEvents(id, packetId, filters), id);
    assert Granted(|filters|) == seq(|filters|, _ => 0);
  }

  class Connection {
    const broker: B.Broker
    const id: nat
    var connectSeen: bool

    constructor (broker: B.Broker)
      modifies broker
      ensures this.broker == broker && id == old(broker.nextId) && !connectSeen
      ensures broker.Value() == B.Next(old(broker.Value()), B.Register)
    {
      var session := broker.Register();
      this.broker, id, connectSeen := broker, session, false;
    }

    method HandleConnect()
      modifies this, broker
      ensures connectSeen
      ensures broker.Value() == B.Next(old(broker.Value()), B.SendDirect(id, B.ConnAck))
    {
      connectSeen := true;
      broker.SendDirect(id, B.ConnAck);
    }

    /** Before CONNECT this is an error; otherwise each filter is noted, granted QoS 0, and will get its snapshot. */
    method HandleSubscribe(packetId: nat, filters: seq<string>) returns (targets: Option<seq<string>>)
      modifies broker
      ensures targets == if connectSeen then Some(filters) else None
      ensures broker.Value()
           == if connectSeen then B.Run(old(broker.Value()), SubscribeEvents(id, packetId, filters))
             else old(broker.Value())
    {
      if !connectSeen {
        return None;
      }
      var granted: seq<nat> := [];
      for i := 0 to |filters|
        invariant broker.Value() == B.Run(old(broker.Value()), Subscribes(id, filters[..i]))
        invariant granted == Granted(i)
      {
        broker.Subscribe(id, filters[i]);
        granted := granted + [0];
        RunLast(old(broker.Value()), Subscribes(id, filters[..i]), B.Subscribe(id, filters[i]));
        assert Subscribes(id, filters[..i + 1]) == Subscribes(id, filters[..i]) + [B.Subscribe(id, filters[i])];
      }
      assert filters[..|filters|] == filters;
      RunLast(old(broker.Value()), Subscribes(id, filters), B.SendDirect(id, B.SubAck(packetId, granted)));
      broker.SendDirect(id, B.SubAck(packetId, granted));
      targets := Some(filters);
    }

    method HandleUnsubscribe(packetId: nat, filters: seq<string>)
      modifies broker
      ensures broker.Value() == B.Run(old(broker.Value()), UnsubscribeEvents(id, packetId, filters))
    {
      for i := 0 to |filters|
        invariant broker.Value() == B.Run(old(broker.Value()), Unsubscribes(id, filters[..i]))
      {
        broker.Unsubscribe(id, filters[i]);
        RunLast(old(broker.Value()), Unsubscribes(id, filters[..i]), B.Unsubscribe(id, filters[i]));
        assert Unsubscribes(id, filters[..i + 1]) == Unsubscribes(id, filters[..i]) + [B.Unsubscribe(id, filters[i])];
      }
      assert filters[..|filters|] == filters;
      RunLast(old(broker.Value()), Unsubscribes(id, filters), B.SendDirect(id, B.UnsubAck(packetId)));
      broker.SendDirect(id, B.UnsubAck(packetId));
    }

    /** The snapshot task of one filter: every member on the tile, to this session only. */
    method SnapshotForFilter(cfg: Config, redis: Redis, encode: Message -> seq<Byte>, filter: string)
      returns (ghost hits: seq<GeoHit>)
      modifies broker
      ensures ParseTileFilter(filter).Some? ==>
        var (layer, tile) := ParseTileFilter(filter).value;
        && ListsHits(cfg, redis, layer, tile, hits)
        && broker.Value() == B.Run(old(broker.Value()), Directs(id, encode, Burst(cfg, redis, layer, tile, hits)))
      ensures ParseTileFilter(filter).None? ==>
          broker.Value() == B.Run(old(broker.Value()), Directs(id, encode, ObjectBurst(redis, filter)))
    {
      hits := [];
      var target := ParseTileFilter(filter);
      if target.Some? {
        var (layer, tile) := target.value;
        hits := SnapshotTile(cfg, redis, encode, layer, tile);
      } else {
        var ms := ObjectBurst(redis, filter);
        if ms != [] {
          broker.SendDirect(id, B.Publish(F.PacketOf(encode, ms[0])));
          assert Directs(id, encode, ms) == [] + [B.SendDirect(id, B.Publish(F.PacketOf(encode, ms[0])))];
          RunLast(old(broker.Value()), [], Directs(id, encode, ms)[0]);
        }
      }
    }

    method SnapshotTile(cfg: Config, redis: Redis, encode: Message -> seq<Byte>, layer: string, tile: Tile)
      returns (ghost hits: seq<GeoHit>)
      modifies broker
      ensures ListsHits(cfg, redis, layer, tile, hits)
      ensures broker.Value() == B.Run(old(broker.Value()), Directs(id, encode, Burst(cfg, redis, layer, tile, hits)))
    {
      var found := GeoSearch(cfg, redis, layer, tile);
      hits := found;
      for i := 0 to |found|
        invariant broker.Value()
             == B.Run(old(broker.Value()), Directs(id, encode, Burst(cfg, redis, layer, tile, found[..i])))
      {
        var m := SnapshotOf(cfg, redis, layer, tile, found[i]);
        broker.SendDirect(id, B.Publish(F.PacketOf(encode, m)));
        RunLast(old(broker.Value()), Directs(id, encode, Burst(cfg, redis, layer, tile, found[..i])),
                B.SendDirect(id, B.Publish(F.PacketOf(encode, m))));
        BurstGrows(cfg, redis, layer, tile, found, i, id, encode);
      }
      assert found[..|found|] == found;
    }
  }

  // ---------- What a burst contains ----------

  datatype GeoHit = GeoHit(member: Id, pos: Pos)

  function FindHit(hits: seq<GeoHit>, id: Id): Option<Pos> {
    if hits == [] then None else if hits[0].member == id then Some(hits[0].pos) else FindHit(hits[1..], id)
  }

  predicate OnTile(cfg: Config, r: Redis, layer: string, tile: Tile, id: Id) {
    id in MembersIn(cfg, r, layer, {tile})
  }

  /** The hits are the members of the tile, each once, with their positions. */
  ghost predicate ListsHits(cfg: Config, r: Redis, layer: string, tile: Tile, hits: seq<GeoHit>) {
    && (forall id :: FindHit(hits, id) == if OnTile(cfg, r, layer, tile, id) then Truth(r, layer, id) else None)
    && forall i, j :: 0 <= i < j < |hits| ==> hits[i].member != hits[j].member
  }

  /** GEOSEARCH over a tile: its members in some order. */
  method GeoSearch(cfg: Config, r: Redis, layer: string, tile: Tile) returns (hits: seq<GeoHit>)
    ensures ListsHits(cfg, r, layer, tile, hits)
  {
    hits := HitsOf(r, layer, MembersIn(cfg, r, layer, {tile}));
  }

  method HitsOf(r: Redis, layer: string, members: set<Id>) returns (hits: seq<GeoHit>)
    requires forall id :: id in members ==> Key(layer, id) in r.geo
    ensures forall id :: FindHit(hits, id) == if id in members then Truth(r, layer, id) else None
    ensures forall i, j :: 0 <= i < j < |hits| ==> hits[i].member != hits[j].member
  {
    hits := [];
    var rest := members;
    while rest != {}
      invariant rest <= members
      invariant forall id :: FindHit(hits, id) == if id in members && id !in rest then Truth(r, layer, id) else None
      invariant forall i :: 0 <= i < |hits| ==> hits[i].member !in rest
      invariant forall i, j :: 0 <= i < j < |hits| ==> hits[i].member != hits[j].member
      decreases |rest|
    {
      var id :| id in rest;
      rest := rest - {id};
      var hit := GeoHit(id, r.geo[Key(layer, id)]);
      assert ([hit] + hits)[1..] == hits;
      hits := [hit] + hits;
    }
  }

  function SnapshotOf(cfg: Config, r: Redis, layer: string, tile: Tile, hit: GeoHit): Message {
    TileMsg(layer, tile, Snapshot(hit.member, hit.pos, Enriched(cfg, r, hit.member)))
  }

  function Burst(cfg: Config, r: Redis, layer: string, tile: Tile, hits: seq<GeoHit>): (ms: seq<Message>)
    ensures |ms| == |hits| && forall i :: 0 <= i < |hits| ==> ms[i] == SnapshotOf(cfg, r, layer, tile, hits[i])
  {
    seq(|hits|, i requires 0 <= i < |hits| => SnapshotOf(cfg, r, layer, tile, hits[i]))
  }

  /** The snapshot of a watched object, if it has any fields. */
  function ObjectBurst(r: Redis, filter: string): seq<Message> {
    match StripPrefix(filter, "objects/")
    case None => []
    case Some(obid) => if HashOf(r, obid) == map[] then [] else [ObjectMsg(obid, ObjectSnapshot(obid, HashOf(r, obid)))]
  }

  function Directs(id: nat, encode: Message -> seq<Byte>, ms: seq<Message>): (es: seq<B.Event>)
    ensures |es| == |ms|
    ensures forall i :: 0 <= i < |ms| ==> es[i] == B.SendDirect(id, B.Publish(F.PacketOf(encode, ms[i])))
  {
    seq(|ms|, i requires 0 <= i < |ms| => B.SendDirect(id, B.Publish(F.PacketOf(encode, ms[i]))))
  }

  lemma BurstGrows(cfg: Config, r: Redis, layer: string, tile: Tile, hits: seq<GeoHit>, i: nat, id: nat,
                   encode: Message -> seq<Byte>)
    requires i < |hits|
    ensures var m := SnapshotOf(cfg, r, layer, tile, hits[i]);
            Directs(id, encode, Burst(cfg, r, layer, tile, hits[..i + 1]))
            == Directs(id, encode, Burst(cfg, r, layer, tile, hits[..i]))
               + [B.SendDirect(id, B.Publish(F.PacketOf(encode, m)))]
  {
  }

  // ---------- What a burst does to the client ----------

  lemma {:induction false} NotFound(hits: seq<GeoHit>, id: Id)
    requires forall i :: 0 <= i < |hits| ==> hits[i].member != id
    ensures FindHit(hits, id) == None
  {
    if hits != [] {
      NotFound(hits[1..], id);
    }
  }

  lemma {:induction false} BurstAt(cfg: Config, r: Redis, layer: string, tile: Tile, features: map<Id, Feature>,
                                   hits: seq<GeoHit>, id: Id)
    requires forall i, j :: 0 <= i < j < |hits| ==> hits[i].member != hits[j].member
    ensures Lookup(C.ReceiveAll(features, Burst(cfg, r, layer, tile, hits)), id)
         == match FindHit(hits, id)
            case None => Lookup(features, id)
            case Some(pos) => Touch(Lookup(features, id), Snapshot(id, pos, Enriched(cfg, r, id)))
    decreases |hits|
  {
    if hits != [] {
      var ms := Burst(cfg, r, layer, tile, hits);
      assert ms[1..] == Burst(cfg, r, layer, tile, hits[1..]);
      BurstAt(cfg, r, layer, tile, HandleTile(features, ms[0].payload), hits[1..], id);
      if hits[0].member == id {
        NotFound(hits[1..], id);
      }
    }
  }

  /** Message by message, in whatever order the members are found, a burst leaves the client with
      what the protocol's snapshot step says. */
  lemma BurstIsSnapshot(cfg: Config, r: Redis, layer: string, tile: Tile, features: map<Id, Feature>, hits: seq<GeoHit>)
    requires ListsHits(cfg, r, layer, tile, hits)
    ensures C.ReceiveAll(features, Burst(cfg, r, layer, tile, hits)) == SnapshotInto(cfg, r, layer, features, {tile})
  {
    var a, b := C.ReceiveAll(features, Burst(cfg, r, layer, tile, hits)), SnapshotInto(cfg, r, layer, features, {tile});
    forall id ensures Lookup(a, id) == Lookup(b, id) {
      BurstAt(cfg, r, layer, tile, features, hits, id);
      SnapshotIntoAt(cfg, r, layer, features, {tile}, id);
      if Truth(r, layer, id).Some? && InTiles(cfg, Truth(r, layer, id).value, {tile}) {
        assert Key(layer, id) in r.geo;
        assert id in MembersIn(cfg, r, layer, {tile});
      }
    }
    SameMaps(a, b);
  }

  lemma SameMaps(a: map<Id, Feature>, b: map<Id, Feature>)
    requires forall id :: Lookup(a, id) == Lookup(b, id)
    ensures a == b
  {
    forall id | id in a ensures id in b && a[id] == b[id] {
      assert Lookup(a, id) == Lookup(b, id);
    }
    forall id | id in b ensures id in a {
      assert Lookup(a, id) == Lookup(b, id);
    }
  }
}
