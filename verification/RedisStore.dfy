/** The part of upstream Redis that geomqtt reads and writes, the effect of each
    proxied command on it, and the messages the proxy publishes for the command. */
module RedisStore {
  import opened Payloads
  import opened MemberTracking

  /** A member of a GEO set. */
  datatype Key = Key(layer: string, id: Id)

  /** GEO sets (flattened), object hashes, and the `gmq:inset:<obid>` index. */
  datatype Redis = Redis(geo: map<Key, Pos>, hashes: map<Id, Attrs>, inset: map<Id, set<string>>)

  /** GEOPOS */
  function Truth(r: Redis, layer: string, id: Id): Option<Pos> {
    Lookup(r.geo, Key(layer, id))
  }

  /** HGETALL */
  function HashOf(r: Redis, id: Id): Attrs {
    if id in r.hashes then r.hashes[id] else map[]
  }

  /** HMGET of the enrich attributes: missing fields are simply left out. */
  function Enriched(cfg: Config, r: Redis, id: Id): Attrs {
    Restrict(HashOf(r, id), cfg.enrich)
  }

  /** SMEMBERS of the member's index entry */
  function LayersOf(r: Redis, id: Id): set<string> {
    if id in r.inset then r.inset[id] else {}
  }

  // ---------- Commands ----------

  datatype Command =
    | GeoAdd(layer: string, id: Id, pos: Pos)
    | ZRem(layer: string, id: Id)
    | HSet(id: Id, fields: Attrs)
    | HDel(id: Id, names: set<string>)
    | DelObject(id: Id)
    | DelLayer(layer: string)

  /** The command and the index update of its fanout. */
  function Apply(r: Redis, c: Command): Redis {
    match c
    case GeoAdd(layer, id, pos) =>
      r.(geo := r.geo[Key(layer, id) := pos], inset := r.inset[id := LayersOf(r, id) + {layer}])
    case ZRem(layer, id) =>
      if Key(layer, id) !in r.geo then r
      else r.(geo := r.geo - {Key(layer, id)}, inset := r.inset[id := LayersOf(r, id) - {layer}])
    case HSet(id, fields) => r.(hashes := r.hashes[id := HashOf(r, id) + fields])
    case HDel(id, names) => r.(hashes := r.hashes[id := HashOf(r, id) - names])
    case DelObject(id) => r.(hashes := r.hashes - {id})
    case DelLayer(layer) => r.(geo := map k | k in r.geo && k.layer != layer :: r.geo[k])
  }

  function ApplyAll(r: Redis, cs: seq<Command>): Redis
    decreases |cs|
  {
    if cs == [] then r else ApplyAll(Apply(r, cs[0]), cs[1..])
  }

  // ---------- Fanout ----------

  function TileMessages(layer: string, ops: seq<Op>): (ms: seq<Message>)
    ensures |ms| == |ops|
    ensures forall i :: 0 <= i < |ops| ==> ms[i] == TileMsg(layer, ops[i].tile, ops[i].payload)
  {
    seq(|ops|, i requires 0 <= i < |ops| => TileMsg(layer, ops[i].tile, ops[i].payload))
  }

  /** One `attr` per covering tile of the object's position in one set, if it has any. */
  function AttrMessagesIn(cfg: Config, r: Redis, id: Id, delta: Attrs, layer: string): seq<Message> {
    var here := Truth(r, layer, id);
    if here.None? then [] else TileMessages(layer, AttrOps(cfg, cfg.zooms, id, here.value, delta))
  }

  /** The same for every set in `order`. */
  function AttrTileMessages(cfg: Config, r: Redis, id: Id, delta: Attrs, order: seq<string>): seq<Message>
    decreases |order|
  {
    if order == [] then []
    else AttrMessagesIn(cfg, r, id, delta, order[0]) + AttrTileMessages(cfg, r, id, delta, order[1..])
  }

  /** The messages a command makes its node publish; `order` is the order in which SMEMBERS
      lists the object's sets. */
  function MessagesOf(cfg: Config, r: Redis, c: Command, order: seq<string>): seq<Message> {
    match c
    case GeoAdd(layer, id, pos) =>
      TileMessages(layer, UpdateOps(cfg, id, Truth(r, layer, id), Some(pos), Enriched(cfg, r, id)))
    case ZRem(layer, id) => TileMessages(layer, UpdateOps(cfg, id, Truth(r, layer, id), None, Enriched(cfg, r, id)))
    case HSet(id, fields) =>
      var delta := Restrict(fields, cfg.enrich);
      [ObjectMsg(id, ObjectAttr(id, fields))]
        + (if delta == map[] then [] else AttrTileMessages(cfg, r, id, delta, order))
    case HDel(id, _) => [ObjectMsg(id, ObjectAttr(id, map[]))]
    case DelObject(id) => [ObjectMsg(id, ObjectDelete(id))]
    case DelLayer(_) => []
  }

  /** `order` lists a set without repetition. */
  ghost predicate Lists(order: seq<string>, layers: set<string>) {
    && (forall l :: l in order <==> l in layers)
    && (forall i, j :: 0 <= i < j < |order| ==> order[i] != order[j])
  }

  // ---------- The index of sets per object ----------

  /** Every set that holds an object is listed in the object's index entry. */
  ghost predicate IndexCovers(r: Redis) {
    forall k :: k in r.geo ==> k.layer in LayersOf(r, k.id)
  }

  lemma IndexCoversStep(r: Redis, c: Command)
    requires IndexCovers(r)
    ensures IndexCovers(Apply(r, c))
  {
  }

  /** However commands follow each other, and however stale the index gets, it lists every set of every object. */
  lemma {:induction false} IndexCoversRun(r: Redis, cs: seq<Command>)
    requires IndexCovers(r)
    ensures IndexCovers(ApplyAll(r, cs))
    decreases |cs|
  {
    if cs != [] {
      IndexCoversStep(r, cs[0]);
      IndexCoversRun(Apply(r, cs[0]), cs[1..]);
    }
  }

  /** The index lists exactly the sets that hold the object. */
  ghost predicate IndexExact(r: Redis) {
    forall layer, id :: layer in LayersOf(r, id) <==> Key(layer, id) in r.geo
  }

  lemma IndexExactStep(r: Redis, c: Command)
    requires IndexExact(r) && !c.DelLayer?
    ensures IndexExact(Apply(r, c))
  {
    forall layer, id ensures layer in LayersOf(Apply(r, c), id) <==> Key(layer, id) in Apply(r, c).geo {
      assert layer in LayersOf(r, id) <==> Key(layer, id) in r.geo;
    }
  }

  /** While no set's key is deleted the index stays exact: ZREM takes out what GEOADD put in. */
  lemma {:induction false} IndexExactRun(r: Redis, cs: seq<Command>)
    requires IndexExact(r) && forall i :: 0 <= i < |cs| ==> !cs[i].DelLayer?
    ensures IndexExact(ApplyAll(r, cs))
    decreases |cs|
  {
    if cs != [] {
      IndexExactStep(r, cs[0]);
      IndexExactRun(Apply(r, cs[0]), cs[1..]);
    }
  }

  /** The index may keep sets that no longer hold the object: deleting a set's key leaves its entries behind. */
  lemma IndexGoesStale(r: Redis, layer: string, id: Id, pos: Pos)
    ensures var r' := ApplyAll(r, [GeoAdd(layer, id, pos), DelLayer(layer)]);
            layer in LayersOf(r', id) && Truth(r', layer, id) == None
  {
    var added := Apply(r, GeoAdd(layer, id, pos));
    assert [GeoAdd(layer, id, pos), DelLayer(layer)][1..] == [DelLayer(layer)];
    assert ApplyAll(added, [DelLayer(layer)]) == Apply(added, DelLayer(layer));
  }

  /** A tile message that tells `delta` of `id` on a tile covering the object's current position in `m.layer`. */
  ghost predicate ReportsAttr(cfg: Config, r: Redis, id: Id, delta: Attrs, m: Message) {
    && m.TileMsg?
    && m.payload == Attr(id, delta)
    && m.tile.z in cfg.zooms
    && Covers(cfg, Truth(r, m.layer, id), m.tile)
  }

  lemma {:induction false} AttrTileMessagesExact(cfg: Config, r: Redis, id: Id, delta: Attrs, order: seq<string>,
                                                 m: Message)
    requires ValidConfig(cfg)
    ensures m in AttrTileMessages(cfg, r, id, delta, order)
       <==> m.TileMsg? && m.layer in order && ReportsAttr(cfg, r, id, delta, m)
    decreases |order|
  {
    if order != [] {
      AttrTileMessagesExact(cfg, r, id, delta, order[1..], m);
      var here := Truth(r, order[0], id);
      if here.Some? {
        var ms := TileMessages(order[0], AttrOps(cfg, cfg.zooms, id, here.value, delta));
        if m.TileMsg? && m.layer == order[0] && ReportsAttr(cfg, r, id, delta, m) {
          var i :| 0 <= i < |cfg.zooms| && cfg.zooms[i] == m.tile.z;
          assert ms[i] == m;
        }
      }
    }
  }

  /** HSET reaches exactly the tiles that cover the object, in every set that holds it, no matter what stale entries the
      index has; and no tile when none of the fields is enriched. */
  lemma HSetReachesCoveringTiles(cfg: Config, r: Redis, id: Id, fields: Attrs, order: seq<string>, m: Message)
    requires ValidConfig(cfg) && IndexCovers(r) && Lists(order, LayersOf(r, id))
    ensures m in MessagesOf(cfg, r, HSet(id, fields), order) <==>
      || m == ObjectMsg(id, ObjectAttr(id, fields))
      || (fields.Keys * cfg.enrich != {} && ReportsAttr(cfg, r, id, Restrict(fields, cfg.enrich), m))
  {
    assert Restrict(fields, cfg.enrich).Keys == fields.Keys * cfg.enrich;
    AttrTileMessagesExact(cfg, r, id, Restrict(fields, cfg.enrich), order, m);
  }

  // ---------- What travels on tile topics ----------

  function AttrsOf(p: TilePayload): Attrs {
    if p.Snapshot? || p.Add? || p.Attr? then p.attrs else map[]
  }

  /** Only attributes of the configured names, each with its value in Redis. */
  ghost predicate CarriesOnly(cfg: Config, r: Redis, m: Message) {
    m.TileMsg? ==> forall k :: k in AttrsOf(m.payload) ==>
      k in cfg.enrich && k in HashOf(r, m.payload.id) && AttrsOf(m.payload)[k] == HashOf(r, m.payload.id)[k]
  }

  lemma {:induction false} WriteCarries(cfg: Config, zooms: seq<nat>, id: Id, was: Option<Pos>, pos: Pos, attrs: Attrs)
    ensures forall o :: o in WriteOps(cfg, zooms, id, was, pos, attrs) ==>
              o.payload.id == id && (AttrsOf(o.payload) == map[] || AttrsOf(o.payload) == attrs)
  {
    if zooms != [] {
      WriteCarries(cfg, zooms[1..], id, was, pos, attrs);
    }
  }

  lemma {:induction false} AttrsCarry(cfg: Config, r: Redis, id: Id, delta: Attrs, order: seq<string>)
    ensures forall m :: m in AttrTileMessages(cfg, r, id, delta, order) ==> m.TileMsg? && m.payload == Attr(id, delta)
  {
    if order != [] {
      AttrsCarry(cfg, r, id, delta, order[1..]);
    }
  }

  /** Whatever a command publishes on tile topics tells nothing but attributes of the configured names, as Redis has
      them after the command. */
  lemma OnlyEnrichedTravels(cfg: Config, r: Redis, c: Command, order: seq<string>, m: Message)
    requires m in MessagesOf(cfg, r, c, order)
    ensures CarriesOnly(cfg, Apply(r, c), m)
  {
    match c
    case GeoAdd(layer, id, pos) => WriteCarries(cfg, cfg.zooms, id, Truth(r, layer, id), pos, Enriched(cfg, r, id));
    case HSet(id, fields) => AttrsCarry(cfg, r, id, Restrict(fields, cfg.enrich), order);
    case _ =>
  }
}
