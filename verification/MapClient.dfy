/** The map client: what it holds, what it subscribes to, and what it tells the broker. */
module MapClient {
  import opened Payloads
  import opened Tiles
  import opened Zooms

  /** What the client sends to change its subscriptions. */
  datatype Packet = SubscribePacket(topics: seq<Topic>) | UnsubscribePacket(topics: seq<Topic>)

  /** `sent` is what went out on the current connection. */
  datatype State = State(connected: bool, features: map<Id, Feature>, tileSubs: set<Topic>, objectSubs: set<Topic>,
                         sent: seq<Packet>)

  datatype Action =
    | Connect
    | Disconnect
    | Look(layer: string, zoom: nat, tiles: set<Tile>)
    | Watch(obid: Id)
    | Unwatch(obid: Id)
    | Receive(m: Message)

  const NOTHING: State := State(false, map[], {}, {}, [])

  // ---------- What each action does ----------

  ghost predicate Enumerates(order: seq<Topic>, topics: set<Topic>) {
    && (forall t :: t in order <==> t in topics)
    && forall i, j :: 0 <= i < j < |order| ==> order[i] != order[j]
  }

  function TileTopics(layer: string, tiles: set<Tile>): set<Topic> {
    set t | t in tiles :: TileTopic(layer, t)
  }

  /** A feature stays when its tile is still wanted or its object is watched. */
  predicate Stays(tileAt: (nat, Pos) -> Tile, id: Id, pos: Pos, layer: string, zoom: nat, next: set<Topic>,
                  objectSubs: set<Topic>)
  {
    TileTopic(layer, tileAt(zoom, pos)) in next || ObjectTopic(id) in objectSubs
  }

  function Keep(tileAt: (nat, Pos) -> Tile, features: map<Id, Feature>, layer: string, zoom: nat,
                next: set<Topic>, objectSubs: set<Topic>): map<Id, Feature>
  {
    map id | id in features && Stays(tileAt, id, features[id].pos, layer, zoom, next, objectSubs) :: features[id]
  }

  /** What an object message does to the feature it names. */
  function TouchObject(slot: Option<Feature>, p: ObjectPayload): Option<Feature> {
    if slot.None? || p.ObjectDelete? then slot else Some(slot.value.(props := slot.value.props + p.attrs))
  }

  function Received(features: map<Id, Feature>, m: Message): map<Id, Feature> {
    match m
    case TileMsg(_, _, p) => HandleTile(features, p)
    case ObjectMsg(id, p) => Replace(features, id, TouchObject(Lookup(features, id), p))
  }

  /** The client takes what is queued for it without looking at its topic. */
  function ReceiveAll(features: map<Id, Feature>, ms: seq<Message>): map<Id, Feature>
    decreases |ms|
  {
    if ms == [] then features else ReceiveAll(Received(features, ms[0]), ms[1..])
  }

  function Packets(dropped: seq<Topic>, added: seq<Topic>): seq<Packet> {
    (if dropped == [] then [] else [UnsubscribePacket(dropped)])
      + (if added == [] then [] else [SubscribePacket(added)])
  }

  function Send(s: State, ps: seq<Packet>): seq<Packet> {
    if s.connected then s.sent + ps else s.sent
  }

  ghost predicate Step(tileAt: (nat, Pos) -> Tile, s: State, a: Action, s': State) {
    match a
    case Connect => s' == if s.connected then s else s.(connected := true, sent := [])
    case Disconnect => s' == NOTHING
    case Look(layer, zoom, tiles) =>
      var next := TileTopics(layer, tiles);
      exists dropped, added ::
        && Enumerates(dropped, s.tileSubs - next) && Enumerates(added, next - s.tileSubs)
        && s' == s.(tileSubs := next,
                    features := if s.tileSubs - next != {}
                      then Keep(tileAt, s.features, layer, zoom, next, s.objectSubs) else s.features,
                    sent := Send(s, Packets(dropped, added)))
    case Watch(obid) =>
      s' == if ObjectTopic(obid) in s.objectSubs then s
            else s.(objectSubs := s.objectSubs + {ObjectTopic(obid)},
                    sent := Send(s, [SubscribePacket([ObjectTopic(obid)])]))
    case Unwatch(obid) =>
      s' == if ObjectTopic(obid) !in s.objectSubs then s
            else s.(objectSubs := s.objectSubs - {ObjectTopic(obid)},
                    sent := Send(s, [UnsubscribePacket([ObjectTopic(obid)])]))
    case Receive(m) => s' == s.(features := Received(s.features, m))
  }

  // ---------- The client itself ----------

  /** The topics to add and to drop. */
  method DiffSubscriptions(previous: set<Topic>, next: set<Topic>)
    returns (toSubscribe: seq<Topic>, toUnsubscribe: seq<Topic>)
    ensures Enumerates(toSubscribe, next - previous)
    ensures Enumerates(toUnsubscribe, previous - next)
  {
    toSubscribe := NotIn(next, previous);
    toUnsubscribe := NotIn(previous, next);
  }

  /** One of the two loops: the topics of one set that another lacks. */
  method NotIn(these: set<Topic>, those: set<Topic>) returns (out: seq<Topic>)
    ensures Enumerates(out, these - those)
  {
    out := [];
    var rest := these;
    while rest != {}
      invariant rest <= these
      invariant Enumerates(out, these - rest - those)
      decreases |rest|
    {
      var t :| t in rest;
      assert t !in out;
      rest := rest - {t};
      if t !in those {
        out := out + [t];
      }
    }
  }

  class GeomqttClient {
    const mercator: Mercator
    const publishedZooms: seq<nat>
    var connected: bool
    var features: map<Id, Feature>
    var tileSubs: set<Topic>
    var objectSubs: set<Topic>
    var sent: seq<Packet>

    constructor (mercator: Mercator, zooms: seq<nat>)
      ensures Value() == NOTHING && this.mercator == mercator
      ensures Ordered(publishedZooms) && forall z :: z in publishedZooms <==> z in zooms
    {
      this.mercator := mercator;
      publishedZooms := Sort(zooms);
      connected, features, tileSubs, objectSubs, sent := false, map[], {}, {}, [];
    }

    function Value(): State
      reads this
    {
      State(connected, features, tileSubs, objectSubs, sent)
    }

    function TileAt(): (nat, Pos) -> Tile {
      (z: nat, p: Pos) => TileForCoord(mercator, z, p)
    }

    method Connect()
      modifies this
      ensures Step(TileAt(), old(Value()), Action.Connect, Value())
    {
      if connected {
        return;
      }
      connected, sent := true, [];
    }

    method Disconnect()
      modifies this
      ensures Step(TileAt(), old(Value()), Action.Disconnect, Value())
    {
      connected, sent := false, [];
      features, tileSubs, objectSubs := map[], {}, {};
    }

    /** The tiles at the closest published zoom that touch the box become the subscribed ones. */
    method SetViewport(layer: string, zoom: real, w: real, s: real, e: real, n: real)
      returns (tiles: seq<Tile>, ghost z: nat)
      requires ValidMercator(mercator)
      requires publishedZooms != [] || zoom >= 0.0
      modifies this
      ensures Closest(zoom, publishedZooms, z)
      ensures forall t :: t in tiles <==> t.z == z && Touches(mercator, t, TopLeft(z, w, n), BottomRight(z, s, e))
      ensures Step(TileAt(), old(Value()), Look(layer, z, set t | t in tiles), Value())
    {
      var closest: int := ClosestPublishedZoom(zoom, publishedZooms);
      var level: nat := closest;
      z := level;
      tiles := TilesCoveringBbox(mercator, level, w, s, e, n);
      var nextTopics := set t | t in tiles :: TileTopic(layer, t);
      assert nextTopics == TileTopics(layer, set t | t in tiles);
      var toSubscribe, toUnsubscribe := DiffSubscriptions(tileSubs, nextTopics);
      if toUnsubscribe != [] {
        DropTiles(toUnsubscribe);
        EvictFeaturesNotInTopics(nextTopics, layer, level);
      }
      if toSubscribe != [] {
        AddTiles(toSubscribe);
      }
      LookDone(TileAt(), old(Value()), Value(), layer, z, (set t | t in tiles), toUnsubscribe, toSubscribe);
    }

    method DropTiles(topics: seq<Topic>)
      modifies this
      ensures Value()
           == old(Value()).(tileSubs := old(tileSubs) - (set t | t in topics),
                            sent := Send(old(Value()), [UnsubscribePacket(topics)]))
    {
      Tell(UnsubscribePacket(topics));
      for i := 0 to |topics|
        invariant Value()
             == old(Value()).(tileSubs := tileSubs, sent := Send(old(Value()), [UnsubscribePacket(topics)]))
        invariant tileSubs == old(tileSubs) - set t | t in topics[..i]
      {
        tileSubs := tileSubs - {topics[i]};
        assert topics[..i + 1] == topics[..i] + [topics[i]];
      }
      assert topics[..|topics|] == topics;
    }

    method AddTiles(topics: seq<Topic>)
      modifies this
      ensures Value()
           == old(Value()).(tileSubs := old(tileSubs) + (set t | t in topics),
                            sent := Send(old(Value()), [SubscribePacket(topics)]))
    {
      Tell(SubscribePacket(topics));
      for i := 0 to |topics|
        invariant Value() == old(Value()).(tileSubs := tileSubs, sent := Send(old(Value()), [SubscribePacket(topics)]))
        invariant tileSubs == old(tileSubs) + set t | t in topics[..i]
      {
        tileSubs := tileSubs + {topics[i]};
        assert topics[..i + 1] == topics[..i] + [topics[i]];
      }
      assert topics[..|topics|] == topics;
    }

    /** A packet goes out if there is a connection. */
    method Tell(p: Packet)
      modifies this`sent
      ensures sent == Send(old(Value()), [p])
    {
      if connected {
        sent := sent + [p];
      }
    }

    method EvictFeaturesNotInTopics(nextTopics: set<Topic>, layer: string, z: nat)
      modifies this`features
      ensures features == Keep(TileAt(), old(features), layer, z, nextTopics, objectSubs)
    {
      var todo := features.Keys;
      while todo != {}
        invariant todo <= features.Keys <= old(features).Keys
        invariant forall id :: id in features ==> features[id] == old(features)[id]
        invariant forall id :: id in old(features) && id !in todo ==>
          (id in features <==> Stays(TileAt(), id, old(features)[id].pos, layer, z, nextTopics, objectSubs))
        decreases |todo|
      {
        var id :| id in todo;
        todo := todo - {id};
        if !Stays(TileAt(), id, features[id].pos, layer, z, nextTopics, objectSubs) {
          features := features - {id};
        }
      }
      assert features == Keep(TileAt(), old(features), layer, z, nextTopics, objectSubs);
    }

    method SubscribeObject(obid: Id)
      modifies this
      ensures Step(TileAt(), old(Value()), Watch(obid), Value())
    {
      var topic := ObjectTopic(obid);
      if topic in objectSubs {
        return;
      }
      Tell(SubscribePacket([topic]));
      objectSubs := objectSubs + {topic};
    }

    method UnsubscribeObject(obid: Id)
      modifies this
      ensures Step(TileAt(), old(Value()), Unwatch(obid), Value())
    {
      var topic := ObjectTopic(obid);
      if topic !in objectSubs {
        return;
      }
      Tell(UnsubscribePacket([topic]));
      objectSubs := objectSubs - {topic};
    }

    method OnMessage(m: Message)
      modifies this
      ensures Step(TileAt(), old(Value()), Receive(m), Value())
    {
      match m
      case TileMsg(_, _, p) => HandleTile(p);
      case ObjectMsg(id, p) => HandleObject(id, p);
    }

    method HandleTile(p: TilePayload)
      modifies this`features
      ensures features == Payloads.HandleTile(old(features), p)
    {
      match p
      case Snapshot(id, pos, attrs) =>
        var props := if id in features then features[id].props + attrs else attrs;
        assert map[] + attrs == attrs;
        features := features[id := Feature(pos, props)];
      case Add(id, pos, attrs) =>
        var props := if id in features then features[id].props + attrs else attrs;
        assert map[] + attrs == attrs;
        features := features[id := Feature(pos, props)];
      case Move(id, pos) =>
        var props := if id in features then features[id].props else map[];
        features := features[id := Feature(pos, props)];
      case Remove(id) =>
        features := features - {id};
      case Attr(id, attrs) =>
        if id in features {
          features := features[id := Feature(features[id].pos, features[id].props + attrs)];
        }
    }

    method HandleObject(id: Id, p: ObjectPayload)
      modifies this`features
      ensures features == Received(old(features), ObjectMsg(id, p))
    {
      if !p.ObjectDelete? && id in features {
        features := features[id := features[id].(props := features[id].props + p.attrs)];
      }
      assert id in old(features) ==> old(features)[id := old(features)[id]] == old(features);
      assert id !in old(features) ==> old(features) - {id} == old(features);
    }
  }

  lemma EmptyDifference(order: seq<Topic>, topics: set<Topic>)
    requires Enumerates(order, topics)
    ensures order == [] <==> topics == {}
  {
    if order != [] {
      assert order[0] in order;
    }
  }

  /** Dropping first and adding then, each only when there is something to do, is one step. */
  lemma LookDone(tileAt: (nat, Pos) -> Tile, s: State, s': State, layer: string, zoom: nat, tiles: set<Tile>,
                 dropped: seq<Topic>, added: seq<Topic>)
    requires Enumerates(dropped, s.tileSubs - TileTopics(layer, tiles))
        && Enumerates(added, TileTopics(layer, tiles) - s.tileSubs)
    requires s'.connected == s.connected && s'.objectSubs == s.objectSubs
    requires s'.features
         == if dropped == [] then s.features
           else Keep(tileAt, s.features, layer, zoom, TileTopics(layer, tiles), s.objectSubs)
    requires s'.tileSubs == s.tileSubs - (set t | t in dropped) + set t | t in added
    requires s'.sent == if s.connected then Sent(s.sent, dropped, added) else s.sent
    ensures Step(tileAt, s, Look(layer, zoom, tiles), s')
  {
    var next := TileTopics(layer, tiles);
    EmptyDifference(dropped, s.tileSubs - next);
    assert (set t | t in dropped) == s.tileSubs - next;
    assert (set t | t in added) == next - s.tileSubs;
    assert s'.tileSubs == next;
    assert s.sent + (Packets(dropped, added)) == Sent(s.sent, dropped, added);
  }

  function Sent(before: seq<Packet>, dropped: seq<Topic>, added: seq<Topic>): seq<Packet> {
    var mid := if dropped == [] then before else before + [UnsubscribePacket(dropped)];
    if added == [] then mid else mid + [SubscribePacket(added)]
  }

  // ---------- What a change of the viewport tells ----------

  lemma NothingLacks(these: set<Topic>, those: set<Topic>)
    ensures these <= those <==> these - those == {}
  {
    assert these <= those + (these - those);
  }

  /** Looking elsewhere: when no tile is given up nothing is taken off the map, and a connected client first gives up
      tiles and then asks for others, in one packet each. */
  lemma LookInOrder(tileAt: (nat, Pos) -> Tile, s: State, layer: string, zoom: nat, tiles: set<Tile>, s': State)
    requires Step(tileAt, s, Look(layer, zoom, tiles), s')
    ensures var next := TileTopics(layer, tiles);
            && (s.tileSubs <= next ==> s'.features == s.features)
            && (!s.connected || s.tileSubs == next ==> s'.sent == s.sent)
            && (s.connected && !(s.tileSubs <= next) && !(next <= s.tileSubs) ==>
                  exists dropped, added ::
                    && Enumerates(dropped, s.tileSubs - next) && Enumerates(added, next - s.tileSubs)
                    && s'.sent == s.sent + [UnsubscribePacket(dropped), SubscribePacket(added)])
  {
    var next := TileTopics(layer, tiles);
    var dropped, added :| Enumerates(dropped, s.tileSubs - next) && Enumerates(added, next - s.tileSubs)
      && s'.sent == Send(s, Packets(dropped, added));
    EmptyDifference(dropped, s.tileSubs - next);
    EmptyDifference(added, next - s.tileSubs);
    NothingLacks(s.tileSubs, next);
    NothingLacks(next, s.tileSubs);
  }

  // ---------- A fresh start ----------

  lemma {:induction false} RunOfMessages(tileAt: (nat, Pos) -> Tile, s: State, ms: seq<Message>, trace: seq<State>)
    requires |trace| == |ms| + 1 && trace[0] == s
    requires forall i :: 0 <= i < |ms| ==> Step(tileAt, trace[i], Receive(ms[i]), trace[i + 1])
    ensures trace[|ms|] == s.(features := ReceiveAll(s.features, ms))
    decreases |ms|
  {
    if ms != [] {
      RunOfMessages(tileAt, trace[1], ms[1..], trace[1..]);
    }
  }

  /** After a disconnect nothing that was held or subscribed before is left: reconnected, looking at some tiles and
      hearing some messages, the client shows what those messages say and nothing else, and has asked for exactly those
      tiles. */
  lemma FreshAfterDisconnect(tileAt: (nat, Pos) -> Tile, s: State, away: State, back: State, layer: string, zoom: nat,
                             tiles: set<Tile>, ms: seq<Message>, trace: seq<State>)
    requires Step(tileAt, s, Disconnect, away) && Step(tileAt, away, Connect, back) && |trace| == |ms| + 1
    requires Step(tileAt, back, Look(layer, zoom, tiles), trace[0])
    requires forall i :: 0 <= i < |ms| ==> Step(tileAt, trace[i], Receive(ms[i]), trace[i + 1])
    ensures trace[|ms|].connected && trace[|ms|].features == ReceiveAll(map[], ms)
    ensures trace[|ms|].tileSubs == TileTopics(layer, tiles) && trace[|ms|].objectSubs == {}
    ensures if tiles == {} then trace[|ms|].sent == []
            else exists order :: Enumerates(order, TileTopics(layer, tiles))
                                 && trace[|ms|].sent == [SubscribePacket(order)]
  {
    var next := TileTopics(layer, tiles);
    assert back.tileSubs - next == {} && next - back.tileSubs == next;
    var dropped, added :| Enumerates(dropped, back.tileSubs - next) && Enumerates(added, next - back.tileSubs)
      && trace[0].sent == Send(back, Packets(dropped, added));
    EmptyDifference(dropped, {});
    EmptyDifference(added, next);
    if t :| t in tiles {
      assert TileTopic(layer, t) in next;
    }
    RunOfMessages(tileAt, trace[0], ms, trace);
  }
}
