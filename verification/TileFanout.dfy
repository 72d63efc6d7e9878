/** The fanout of one node: every message goes to the node's own broker and, under the node's
    id, to Redis, in one order. */
module TileFanout {
  import opened Payloads
  import opened MemberTracking
  import opened RedisStore
  import opened Protocol
  import opened Topics
  import B = MqttBroker

  /** The packet of a message, given its encoding. */
  function PacketOf(encode: Message -> seq<Byte>, m: Message): B.Packet {
    B.Packet(TopicText(TopicOf(m)), encode(m))
  }

  function LocalPublish(encode: Message -> seq<Byte>, m: Message): B.Event {
    B.PublishLocal(PacketOf(encode, m))
  }

  function LocalPublishes(encode: Message -> seq<Byte>, ms: seq<Message>): (es: seq<B.Event>)
    ensures |es| == |ms|
    ensures forall i :: 0 <= i < |ms| ==> es[i] == LocalPublish(encode, ms[i])
  {
    seq(|ms|, i requires 0 <= i < |ms| => LocalPublish(encode, ms[i]))
  }

  lemma {:induction false} RunAppend(st: B.State, a: seq<B.Event>, b: seq<B.Event>)
    ensures B.Run(st, a + b) == B.Run(B.Run(st, a), b)
    decreases |a|
  {
    if a == [] {
      assert a + b == b;
    } else {
      assert (a + b)[1..] == a[1..] + b;
      RunAppend(B.Next(st, a[0]), a[1..], b);
    }
  }

  /** What the outside sees after a list of messages: the bus and the node's broker. */
  datatype Outside = Outside(bus: seq<Envelope>, broker: B.State)

  function Emit(o: Outside, nodeId: nat, encode: Message -> seq<Byte>, ms: seq<Message>): Outside {
    Outside(o.bus + Envelopes(nodeId, ms), B.Run(o.broker, LocalPublishes(encode, ms)))
  }

  lemma BusAppend(bus: seq<Envelope>, nodeId: nat, a: seq<Message>, b: seq<Message>)
    ensures bus + Envelopes(nodeId, a) + Envelopes(nodeId, b) == bus + Envelopes(nodeId, a + b)
  {
    assert Envelopes(nodeId, a + b) == Envelopes(nodeId, a) + Envelopes(nodeId, b);
  }

  lemma LocalAppend(st: B.State, encode: Message -> seq<Byte>, a: seq<Message>, b: seq<Message>)
    ensures B.Run(B.Run(st, LocalPublishes(encode, a)), LocalPublishes(encode, b))
         == B.Run(st, LocalPublishes(encode, a + b))
  {
    assert LocalPublishes(encode, a + b) == LocalPublishes(encode, a) + LocalPublishes(encode, b);
    RunAppend(st, LocalPublishes(encode, a), LocalPublishes(encode, b));
  }

  lemma EmitAppend(o: Outside, nodeId: nat, encode: Message -> seq<Byte>, a: seq<Message>, b: seq<Message>)
    ensures Emit(Emit(o, nodeId, encode, a), nodeId, encode, b) == Emit(o, nodeId, encode, a + b)
  {
    BusAppend(o.bus, nodeId, a, b);
    LocalAppend(o.broker, encode, a, b);
  }

  lemma EmitOneMore(o: Outside, nodeId: nat, encode: Message -> seq<Byte>, ms: seq<Message>, i: nat)
    requires i < |ms|
    ensures Emit(Emit(o, nodeId, encode, ms[..i]), nodeId, encode, [ms[i]]) == Emit(o, nodeId, encode, ms[..i + 1])
  {
    EmitAppend(o, nodeId, encode, ms[..i], [ms[i]]);
    assert ms[..i + 1] == ms[..i] + [ms[i]];
  }

  lemma EmitNothing(o: Outside, nodeId: nat, encode: Message -> seq<Byte>)
    ensures Emit(o, nodeId, encode, []) == o
  {
    assert o.bus + Envelopes(nodeId, []) == o.bus;
  }

  lemma EmitOne(o: Outside, nodeId: nat, encode: Message -> seq<Byte>, m: Message)
    ensures Emit(o, nodeId, encode, [m])
         == Outside(o.bus + [Envelope(nodeId, m)], B.Next(o.broker, LocalPublish(encode, m)))
  {
    var es := LocalPublishes(encode, [m]);
    assert es[1..] == [];
    assert B.Run(o.broker, es) == B.Run(B.Next(o.broker, es[0]), []);
    assert Envelopes(nodeId, [m]) == [Envelope(nodeId, m)];
  }

  // ---------- Helpers of the loops ----------

  function TilesForPoint(cfg: Config, zooms: seq<nat>, pos: Pos): (ts: seq<Tile>)
    ensures |ts| == |zooms|
    ensures forall i :: 0 <= i < |zooms| ==> ts[i] == cfg.tileAt(zooms[i], pos)
  {
    seq(|zooms|, i requires 0 <= i < |zooms| => cfg.tileAt(zooms[i], pos))
  }

  function FindZoom(tiles: seq<Tile>, z: nat): Option<Tile> {
    if tiles == [] then None else if tiles[0].z == z then Some(tiles[0]) else FindZoom(tiles[1..], z)
  }

  lemma {:induction false} FindOldTile(cfg: Config, zooms: seq<nat>, pos: Pos, z: nat)
    requires ValidConfig(cfg) && z in zooms
    ensures FindZoom(TilesForPoint(cfg, zooms, pos), z) == Some(cfg.tileAt(z, pos))
  {
    assert TilesForPoint(cfg, zooms, pos)[1..] == TilesForPoint(cfg, zooms[1..], pos);
    if zooms[0] != z {
      FindOldTile(cfg, zooms[1..], pos, z);
    }
  }

  lemma {:induction false} WriteOpsAppend(cfg: Config, a: seq<nat>, z: nat, id: Id, was: Option<Pos>, pos: Pos,
                                          attrs: Attrs)
    ensures WriteOps(cfg, a + [z], id, was, pos, attrs)
         == WriteOps(cfg, a, id, was, pos, attrs) + OpsAtZoom(cfg, id, was, pos, attrs, z)
  {
    if a == [] {
      assert (a + [z])[1..] == [];
    } else {
      assert (a + [z])[1..] == a[1..] + [z];
      WriteOpsAppend(cfg, a[1..], z, id, was, pos, attrs);
    }
  }

  lemma WriteMessagesStep(cfg: Config, i: nat, layer: string, id: Id, was: Option<Pos>, pos: Pos, attrs: Attrs)
    requires i < |cfg.zooms|
    ensures TileMessages(layer, WriteOps(cfg, cfg.zooms[..i + 1], id, was, pos, attrs))
         == TileMessages(layer, WriteOps(cfg, cfg.zooms[..i], id, was, pos, attrs))
          + TileMessages(layer, OpsAtZoom(cfg, id, was, pos, attrs, cfg.zooms[i]))
  {
    assert cfg.zooms[..i + 1] == cfg.zooms[..i] + [cfg.zooms[i]];
    WriteOpsAppend(cfg, cfg.zooms[..i], cfg.zooms[i], id, was, pos, attrs);
  }

  lemma {:induction false} AttrTileMessagesAppend(cfg: Config, r: Redis, id: Id, delta: Attrs, order: seq<string>,
                                                  layer: string)
    ensures AttrTileMessages(cfg, r, id, delta, order + [layer])
         == AttrTileMessages(cfg, r, id, delta, order) + AttrMessagesIn(cfg, r, id, delta, layer)
    decreases |order|
  {
    if order == [] {
      assert (order + [layer])[1..] == [];
    } else {
      assert (order + [layer])[1..] == order[1..] + [layer];
      AttrTileMessagesAppend(cfg, r, id, delta, order[1..], layer);
    }
  }

  /** SMEMBERS lists a set in some order. */
  method Members(layers: set<string>) returns (order: seq<string>)
    ensures Lists(order, layers)
  {
    order := [];
    var rest := layers;
    while rest != {}
      invariant rest <= layers
      invariant forall l :: l in order <==> l in layers && l !in rest
      invariant forall i, j :: 0 <= i < j < |order| ==> order[i] != order[j]
      decreases |rest|
    {
      var l :| l in rest;
      rest := rest - {l};
      order := order + [l];
    }
  }

  // ---------- What goes to InfluxDB ----------

  /** A point for the InfluxDB sink. */
  datatype Point = PositionPoint(layer: string, member: Id, pos: Pos) | AttrPoint(obid: Id, attrs: Attrs)

  /** An attribute write gives a point if it has any field. */
  function ObjectPoints(metered: bool, obid: Id, body: ObjectPayload): seq<Point> {
    if metered && body.ObjectAttr? && body.attrs != map[] then [AttrPoint(obid, body.attrs)] else []
  }

  class Fanout {
    const cfg: Config
    const nodeId: nat
    const encode: Message -> seq<Byte>
    const broker: B.Broker
    /** Whether InfluxDB is configured */
    const metered: bool
    var redis: Redis
    var bus: seq<Envelope>
    /** What was handed to the InfluxDB sink */
    var points: seq<Point>

    constructor (cfg: Config, nodeId: nat, encode: Message -> seq<Byte>, broker: B.Broker, metered: bool, redis: Redis)
      ensures this.cfg == cfg && this.nodeId == nodeId && this.encode == encode && this.broker == broker
      ensures this.metered == metered && this.redis == redis && bus == [] && points == []
    {
      this.cfg, this.nodeId, this.encode, this.broker, this.metered := cfg, nodeId, encode, broker, metered;
      this.redis, this.bus, this.points := redis, [], [];
    }

    function Seen(): Outside
      reads this, broker
    {
      Outside(bus, broker.Value())
    }

    method PublishTile(layer: string, tile: Tile, payload: TilePayload)
      modifies this`bus, broker
      ensures Seen() == Emit(old(Seen()), nodeId, encode, [TileMsg(layer, tile, payload)])
    {
      EmitOne(Seen(), nodeId, encode, TileMsg(layer, tile, payload));
      var _ := broker.PublishLocal(TopicText(TileTopic(layer, tile)), encode(TileMsg(layer, tile, payload)));
      bus := bus + [Envelope(nodeId, TileMsg(layer, tile, payload))];
    }

    method PublishObject(obid: Id, body: ObjectPayload)
      modifies this`bus, this`points, broker
      ensures Seen() == Emit(old(Seen()), nodeId, encode, [ObjectMsg(obid, body)])
      ensures points == old(points) + ObjectPoints(metered, obid, body)
    {
      EmitOne(Seen(), nodeId, encode, ObjectMsg(obid, body));
      var _ := broker.PublishLocal(TopicText(ObjectTopic(obid)), encode(ObjectMsg(obid, body)));
      points := points + ObjectPoints(metered, obid, body);
      bus := bus + [Envelope(nodeId, ObjectMsg(obid, body))];
    }

    /** A write at one zoom: `there` is the member's tile now, `here` where it was before. */
    method WriteAtZoom(layer: string, member: Id, ghost was: Option<Pos>, pos: Pos, attrs: Attrs, there: Tile,
                       here: Option<Tile>)
      requires there == cfg.tileAt(there.z, pos)
      requires here == if was.Some? then Some(cfg.tileAt(there.z, was.value)) else None
      modifies this`bus, broker
      ensures Seen()
           == Emit(old(Seen()), nodeId, encode, TileMessages(layer, OpsAtZoom(cfg, member, was, pos, attrs, there.z)))
    {
      ghost var ops := OpsAtZoom(cfg, member, was, pos, attrs, there.z);
      if here.None? {
        PublishTile(layer, there, Add(member, pos, attrs));
        assert TileMessages(layer, ops) == [TileMsg(layer, there, Add(member, pos, attrs))];
      } else if here.value == there {
        PublishTile(layer, there, Move(member, pos));
        assert TileMessages(layer, ops) == [TileMsg(layer, there, Move(member, pos))];
      } else {
        PublishTile(layer, here.value, Remove(member));
        PublishTile(layer, there, Add(member, pos, attrs));
        SwapEmitted(old(Seen()), nodeId, encode, layer, ops);
      }
    }

    /** After a GEOADD of a member that was at `was`. */
    method OnGeoWrite(layer: string, member: Id, was: Option<Pos>, pos: Pos, attrs: Attrs)
      requires ValidConfig(cfg)
      modifies this, broker
      ensures Seen()
           == Emit(old(Seen()), nodeId, encode, TileMessages(layer, UpdateOps(cfg, member, was, Some(pos), attrs)))
      ensures redis == old(redis).(inset := old(redis).inset[member := LayersOf(old(redis), member) + {layer}])
      ensures points == old(points) + if metered then [PositionPoint(layer, member, pos)] else []
    {
      points := points + if metered then [PositionPoint(layer, member, pos)] else [];
      var newTiles := TilesForPoint(cfg, cfg.zooms, pos);
      var oldTiles := if was.Some? then TilesForPoint(cfg, cfg.zooms, was.value) else [];
      EmitNothing(Seen(), nodeId, encode);
      ghost var sent: seq<Message> := [];
      for i := 0 to |newTiles|
        modifies this`bus, broker
        invariant sent == TileMessages(layer, WriteOps(cfg, cfg.zooms[..i], member, was, pos, attrs))
        invariant Seen() == Emit(old(Seen()), nodeId, encode, sent)
      {
        var there := newTiles[i];
        if was.Some? {
          FindOldTile(cfg, cfg.zooms, was.value, cfg.zooms[i]);
        }
        ghost var ops := OpsAtZoom(cfg, member, was, pos, attrs, cfg.zooms[i]);
        WriteAtZoom(layer, member, was, pos, attrs, there, FindZoom(oldTiles, there.z));
        EmitAppend(old(Seen()), nodeId, encode, sent, TileMessages(layer, ops));
        WriteMessagesStep(cfg, i, layer, member, was, pos, attrs);
        sent := sent + TileMessages(layer, ops);
      }
      assert cfg.zooms[..|newTiles|] == cfg.zooms;
      redis := redis.(inset := redis.inset[member := LayersOf(redis, member) + {layer}]);
    }

    /** After a ZREM of a member that was at `was`. */
    method OnGeoRemove(layer: string, member: Id, was: Pos)
      modifies this, broker
      ensures Seen() == Emit(old(Seen()), nodeId, encode, TileMessages(layer, RemoveOps(cfg, cfg.zooms, member, was)))
      ensures redis == old(redis).(inset := old(redis).inset[member := LayersOf(old(redis), member) - {layer}])
      ensures points == old(points)
    {
      var tiles := TilesForPoint(cfg, cfg.zooms, was);
      ghost var all := TileMessages(layer, RemoveOps(cfg, cfg.zooms, member, was));
      EmitNothing(Seen(), nodeId, encode);
      for i := 0 to |tiles|
        modifies this`bus, broker
        invariant Seen() == Emit(old(Seen()), nodeId, encode, all[..i])
      {
        PublishTile(layer, tiles[i], Remove(member));
        EmitOneMore(old(Seen()), nodeId, encode, all, i);
      }
      assert all[..|tiles|] == all;
      redis := redis.(inset := redis.inset[member := LayersOf(redis, member) - {layer}]);
    }

    /** One `attr` per covering tile of the object's position in one set. */
    method AttrInLayer(layer: string, obid: Id, attrs: Attrs)
      modifies this`bus, broker
      ensures Seen() == Emit(old(Seen()), nodeId, encode, AttrMessagesIn(cfg, redis, obid, attrs, layer))
    {
      EmitNothing(Seen(), nodeId, encode);
      var here := Truth(redis, layer, obid);
      if here.None? {
        return;
      }
      var tiles := TilesForPoint(cfg, cfg.zooms, here.value);
      ghost var all := AttrMessagesIn(cfg, redis, obid, attrs, layer);
      for i := 0 to |tiles|
        invariant Seen() == Emit(old(Seen()), nodeId, encode, all[..i])
      {
        PublishTile(layer, tiles[i], Attr(obid, attrs));
        EmitOneMore(old(Seen()), nodeId, encode, all, i);
      }
      assert all[..|tiles|] == all;
    }

    /** After an HSET: the given fields to every covering tile in every set that the index lists. */
    method OnAttrTile(obid: Id, attrs: Attrs) returns (ghost order: seq<string>)
      modifies this`bus, broker
      ensures Lists(order, LayersOf(redis, obid))
      ensures Seen()
           == Emit(old(Seen()), nodeId, encode,
                   if attrs == map[] then [] else AttrTileMessages(cfg, redis, obid, attrs, order))
    {
      EmitNothing(Seen(), nodeId, encode);
      var sets := Members(LayersOf(redis, obid));
      order := sets;
      if attrs == map[] {
        return;
      }
      for i := 0 to |sets|
        invariant Seen() == Emit(old(Seen()), nodeId, encode, AttrTileMessages(cfg, redis, obid, attrs, sets[..i]))
      {
        AttrInLayer(sets[i], obid, attrs);
        EmitAppend(old(Seen()), nodeId, encode, AttrTileMessages(cfg, redis, obid, attrs, sets[..i]),
                   AttrMessagesIn(cfg, redis, obid, attrs, sets[i]));
        AttrTileMessagesAppend(cfg, redis, obid, attrs, sets[..i], sets[i]);
        assert sets[..i + 1] == sets[..i] + [sets[i]];
      }
      assert sets[..|sets|] == sets;
    }
  }

  /** A `remove` and an `add` published one after the other. */
  lemma SwapEmitted(o: Outside, nodeId: nat, encode: Message -> seq<Byte>, layer: string, ops: seq<Op>)
    requires |ops| == 2
    ensures Emit(Emit(o, nodeId, encode, [TileMsg(layer, ops[0].tile, ops[0].payload)]), nodeId, encode,
                 [TileMsg(layer, ops[1].tile, ops[1].payload)])
         == Emit(o, nodeId, encode, TileMessages(layer, ops))
  {
    var first, second := TileMsg(layer, ops[0].tile, ops[0].payload), TileMsg(layer, ops[1].tile, ops[1].payload);
    EmitAppend(o, nodeId, encode, [first], [second]);
    assert [first] + [second] == TileMessages(layer, ops);
  }
}
