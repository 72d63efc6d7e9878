/** The entities that travel through geomqtt: positions, tiles, tile and object
    payloads, and the feature map a client keeps. */
module Payloads {

  datatype Option<+T> = None | Some(value: T)

  type Id = string

  type Byte = n: nat | n < 256

  /** Attribute maps: every value on the wire is the string read from the object hash. */
  type Attrs = map<string, string>

  datatype Pos = Pos(lat: real, lng: real)

  datatype Tile = Tile(z: nat, x: nat, y: nat)

  datatype TilePayload =
    | Snapshot(id: Id, pos: Pos, attrs: Attrs)
    | Add(id: Id, pos: Pos, attrs: Attrs)
    | Move(id: Id, pos: Pos)
    | Remove(id: Id)
    | Attr(id: Id, attrs: Attrs)

  datatype ObjectPayload =
    | ObjectSnapshot(id: Id, attrs: Attrs)
    | ObjectAttr(id: Id, attrs: Attrs)
    | ObjectDelete(id: Id)

  /** MQTT topics: `geo/<layer>/<z>/<x>/<y>` and `objects/<obid>`. A layer is the name of a Redis GEO set. */
  datatype Topic = TileTopic(layer: string, tile: Tile) | ObjectTopic(obid: Id)

  datatype Message = TileMsg(layer: string, tile: Tile, payload: TilePayload) | ObjectMsg(obid: Id, body: ObjectPayload)

  function TopicOf(m: Message): Topic {
    match m
    case TileMsg(layer, tile, _) => TileTopic(layer, tile)
    case ObjectMsg(obid, _) => ObjectTopic(obid)
  }

  /** What the client remembers of one object. */
  datatype Feature = Feature(pos: Pos, props: Attrs)

  /** The part of the configuration the tile protocol depends on: effective zooms, the
      attribute names that travel on tile topics, and the tile of a position at a zoom. */
  datatype Config = Config(zooms: seq<nat>, enrich: set<string>, tileAt: (nat, Pos) -> Tile)

  predicate Ascending(zooms: seq<nat>) {
    forall i, j :: 0 <= i < j < |zooms| ==> zooms[i] < zooms[j]
  }

  ghost predicate ValidConfig(cfg: Config) {
    && Ascending(cfg.zooms)
    && forall z: nat, p: Pos :: cfg.tileAt(z, p).z == z
  }

  function Lookup<K, V>(m: map<K, V>, k: K): Option<V> {
    if k in m then Some(m[k]) else None
  }

  /** `m` with the entry for `k` replaced: removed, or set to the given value. */
  function Replace<K, V>(m: map<K, V>, k: K, v: Option<V>): map<K, V> {
    match v
    case None => m - {k}
    case Some(value) => m[k := value]
  }

  function Restrict(attrs: Attrs, keys: set<string>): Attrs {
    map k | k in attrs && k in keys :: attrs[k]
  }

  function PropsOf(slot: Option<Feature>): Attrs {
    match slot
    case None => map[]
    case Some(f) => f.props
  }

  /** What one tile message does to the feature it names. */
  function Touch(slot: Option<Feature>, p: TilePayload): Option<Feature> {
    match p
    case Snapshot(_, pos, attrs) => Some(Feature(pos, PropsOf(slot) + attrs))
    case Add(_, pos, attrs) => Some(Feature(pos, PropsOf(slot) + attrs))
    case Move(_, pos) => Some(Feature(pos, PropsOf(slot)))
    case Remove(_) => None
    case Attr(_, attrs) => if slot.None? then None else Some(Feature(slot.value.pos, slot.value.props + attrs))
  }

  function HandleTile(features: map<Id, Feature>, p: TilePayload): map<Id, Feature> {
    Replace(features, p.id, Touch(Lookup(features, p.id), p))
  }
}
