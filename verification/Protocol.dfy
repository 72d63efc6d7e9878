/** Nodes around one Redis, with their MQTT clients, as a state machine.

    A proxied command with its fanout is one step. Redis delivers every publish to every
    node's bridge in the order of the publishes; a node drops its own. Snapshot bursts run
    some time after the subscription that caused them. */
module Protocol {
  import opened Payloads
  import opened MemberTracking
  import opened RedisStore

  /** A Redis publish: the message under the id of the node that published it. */
  datatype Envelope = Envelope(origin: nat, msg: Message)

  /** A connected client; `awaiting` are the subscribed tiles whose snapshot burst has not run yet. */
  datatype Client = Client(node: nat, layer: string, zoom: nat, subs: set<Tile>, awaiting: set<Tile>,
                           features: map<Id, Feature>)

  /** `bus` is all that was ever published, `read[n]` how far node n's bridge has got. */
  datatype Cluster = Cluster(redis: Redis, bus: seq<Envelope>, read: seq<nat>, clients: seq<Client>)

  datatype Step =
    | Execute(node: nat, cmd: Command, order: seq<string>)
    | Bridge(node: nat)
    | SetViewport(client: nat, zoom: nat, tiles: set<Tile>)
    | RunSnapshot(client: nat, tile: Tile)

  // ---------- Clients ----------

  predicate Wants(c: Client, m: Message) {
    m.TileMsg? && m.layer == c.layer && m.tile in c.subs
  }

  function DeliverTo(c: Client, m: Message): Client {
    if Wants(c, m)
    then c.(features := HandleTile(c.features, m.payload))
    else c
  }

  function DeliverAllTo(c: Client, ms: seq<Message>): Client
    decreases |ms|
  {
    if ms == [] then c else DeliverAllTo(DeliverTo(c, ms[0]), ms[1..])
  }

  function EvictAll(cfg: Config, features: map<Id, Feature>, z: nat, next: set<Tile>): map<Id, Feature> {
    map id | id in features && cfg.tileAt(z, features[id].pos) in next :: features[id]
  }

  /** setViewport, once the tiles are known: unsubscribe and evict, then subscribe. */
  function ChangeViewport(cfg: Config, c: Client, zoom: nat, tiles: set<Tile>): Client {
    c.(zoom := zoom,
       subs := tiles,
       awaiting := c.awaiting + (tiles - c.subs),
       features := if c.subs - tiles != {} then EvictAll(cfg, c.features, zoom, tiles) else c.features)
  }

  predicate InTiles(cfg: Config, pos: Pos, tiles: set<Tile>) {
    exists t :: t in tiles && cfg.tileAt(t.z, pos) == t
  }

  function MembersIn(cfg: Config, r: Redis, layer: string, tiles: set<Tile>): set<Id> {
    set k | k in r.geo && k.layer == layer && InTiles(cfg, r.geo[k], tiles) :: k.id
  }

  /** The feature map after the snapshot bursts of the given tiles. */
  function SnapshotInto(cfg: Config, r: Redis, layer: string, features: map<Id, Feature>,
                        tiles: set<Tile>): map<Id, Feature>
  {
    var hits := MembersIn(cfg, r, layer, tiles);
    map id | id in features.Keys + hits ::
      if id in hits then Touch(Lookup(features, id), Snapshot(id, r.geo[Key(layer, id)], Enriched(cfg, r, id))).value
      else features[id]
  }

  // ---------- Steps ----------

  function Envelopes(n: nat, ms: seq<Message>): (es: seq<Envelope>)
    ensures |es| == |ms|
    ensures forall i :: 0 <= i < |ms| ==> es[i] == Envelope(n, ms[i])
  {
    seq(|ms|, i requires 0 <= i < |ms| => Envelope(n, ms[i]))
  }

  /** Node n hands messages to its own sessions and to Redis. */
  function Publish(st: Cluster, n: nat, ms: seq<Message>): Cluster {
    st.(bus := st.bus + Envelopes(n, ms),
        clients := seq(|st.clients|, i requires 0 <= i < |st.clients| =>
                     if st.clients[i].node == n then DeliverAllTo(st.clients[i], ms) else st.clients[i]))
  }

  /** Node n's bridge takes the next publish; its own it has already delivered. */
  function BridgeNext(st: Cluster, n: nat): Cluster
    requires n < |st.read|
  {
    if st.read[n] >= |st.bus| then st
    else
      var e := st.bus[st.read[n]];
      st.(read := st.read[n := st.read[n] + 1],
          clients := seq(|st.clients|, i requires 0 <= i < |st.clients| =>
                       if st.clients[i].node == n && e.origin != n then DeliverTo(st.clients[i], e.msg)
                       else st.clients[i]))
  }

  function Next(cfg: Config, st: Cluster, s: Step): Cluster {
    match s
    case Execute(n, cmd, order) => Publish(st, n, MessagesOf(cfg, st.redis, cmd, order)).(redis := Apply(st.redis, cmd))
    case Bridge(n) => if n < |st.read| then BridgeNext(st, n) else st
    case SetViewport(c, zoom, tiles) =>
      if c < |st.clients| then st.(clients := st.clients[c := ChangeViewport(cfg, st.clients[c], zoom, tiles)]) else st
    case RunSnapshot(c, t) =>
      if c < |st.clients| && t in st.clients[c].awaiting then
        var cl := st.clients[c];
        st.(clients := st.clients[c := cl.(awaiting := cl.awaiting - {t},
                                           features := SnapshotInto(cfg, st.redis, cl.layer, cl.features, {t}))])
      else st
  }

  function Run(cfg: Config, st: Cluster, steps: seq<Step>): Cluster
    decreases |steps|
  {
    if steps == [] then st else Run(cfg, Next(cfg, st, steps[0]), steps[1..])
  }

  lemma {:induction false} RunOneMore(cfg: Config, st: Cluster, steps: seq<Step>, s: Step)
    ensures Run(cfg, st, steps + [s]) == Next(cfg, Run(cfg, st, steps), s)
    decreases |steps|
  {
    if steps == [] {
      assert steps + [s] == [s];
      RunOne(cfg, st, s);
    } else {
      var all, mid := steps + [s], Next(cfg, st, steps[0]);
      assert all[0] == steps[0] && all[1..] == steps[1..] + [s];
      RunOneMore(cfg, mid, steps[1..], s);
    }
  }

  lemma RunOne(cfg: Config, st: Cluster, s: Step)
    ensures Run(cfg, st, [s]) == Next(cfg, st, s)
  {
    assert [s][1..] == [];
    assert Run(cfg, st, [s]) == Run(cfg, Next(cfg, st, s), []);
  }

  // ---------- Messages a node has not bridged yet ----------

  function Foreign(es: seq<Envelope>, n: nat): seq<Message> {
    if es == [] then []
    else (if es[0].origin == n then [] else [es[0].msg]) + Foreign(es[1..], n)
  }

  function IsAbout(m: Message, layer: string, id: Id): bool {
    m.TileMsg? && m.layer == layer && m.payload.id == id
  }

  function OpOf(m: Message, layer: string, id: Id): seq<Op> {
    if IsAbout(m, layer, id) then [Op(m.tile, m.payload)] else []
  }

  function OpsAbout(ms: seq<Message>, layer: string, id: Id): seq<Op> {
    if ms == [] then [] else OpOf(ms[0], layer, id) + OpsAbout(ms[1..], layer, id)
  }

  function Undelivered(st: Cluster, n: nat): seq<Message> {
    if n < |st.read| && st.read[n] <= |st.bus| then Foreign(st.bus[st.read[n]..], n) else []
  }

  lemma {:induction false} ForeignAppend(a: seq<Envelope>, b: seq<Envelope>, n: nat)
    ensures Foreign(a + b, n) == Foreign(a, n) + Foreign(b, n)
  {
    if a == [] {
      assert a + b == b;
    } else {
      assert (a + b)[1..] == a[1..] + b;
      ForeignAppend(a[1..], b, n);
    }
  }

  lemma {:induction false} OpsAboutAppend(a: seq<Message>, b: seq<Message>, layer: string, id: Id)
    ensures OpsAbout(a + b, layer, id) == OpsAbout(a, layer, id) + OpsAbout(b, layer, id)
  {
    if a == [] {
      assert a + b == b;
    } else {
      assert (a + b)[0] == a[0] && (a + b)[1..] == a[1..] + b;
      OpsAboutAppend(a[1..], b, layer, id);
      var first, rest, more := OpOf(a[0], layer, id), OpsAbout(a[1..], layer, id), OpsAbout(b, layer, id);
      assert first + (rest + more) == (first + rest) + more;
    }
  }

  lemma {:induction false} ForeignEnvelopes(origin: nat, ms: seq<Message>, n: nat)
    ensures Foreign(Envelopes(origin, ms), n) == if origin == n then [] else ms
    decreases |ms|
  {
    if ms != [] {
      assert Envelopes(origin, ms)[1..] == Envelopes(origin, ms[1..]);
      ForeignEnvelopes(origin, ms[1..], n);
    }
  }

  lemma {:induction false} OpsAboutTileMessages(layer: string, ops: seq<Op>, layer': string, id: Id, id': Id)
    requires forall i :: 0 <= i < |ops| ==> ops[i].payload.id == id
    ensures OpsAbout(TileMessages(layer, ops), layer', id') == if layer == layer' && id == id' then ops else []
    decreases |ops|
  {
    if ops != [] {
      assert TileMessages(layer, ops)[1..] == TileMessages(layer, ops[1..]);
      OpsAboutTileMessages(layer, ops[1..], layer', id, id');
    }
  }

  lemma {:induction false} OpsAboutCons(m: Message, rest: seq<Message>, layer: string, id: Id)
    ensures OpsAbout([m] + rest, layer, id) == OpOf(m, layer, id) + OpsAbout(rest, layer, id)
  {
    assert ([m] + rest)[1..] == rest;
  }

  /** No message in the list is about the member. */
  predicate Quiet(ms: seq<Message>, layer: string, id: Id) {
    forall i :: 0 <= i < |ms| ==> !IsAbout(ms[i], layer, id)
  }

  lemma {:induction false} QuietMeansNone(ms: seq<Message>, layer: string, id: Id)
    ensures Quiet(ms, layer, id) <==> OpsAbout(ms, layer, id) == []
  {
    if ms != [] {
      QuietMeansNone(ms[1..], layer, id);
      if Quiet(ms[1..], layer, id) && !IsAbout(ms[0], layer, id) {
        forall i | 0 <= i < |ms| ensures !IsAbout(ms[i], layer, id) {
          if i > 0 { assert ms[i] == ms[1..][i - 1]; }
        }
      }
    }
  }

  /** Delivery, seen from one member. */
  lemma {:induction false} DeliverAllToMember(c: Client, ms: seq<Message>, id: Id)
    ensures var c' := DeliverAllTo(c, ms);
            && c' == c.(features := c'.features)
            && Lookup(c'.features, id) == DeliverAll(Lookup(c.features, id), OpsAbout(ms, c.layer, id), c.subs)
    decreases |ms|
  {
    if ms != [] {
      DeliverAllToMember(DeliverTo(c, ms[0]), ms[1..], id);
      if IsAbout(ms[0], c.layer, id) {
        assert OpsAbout(ms, c.layer, id)[1..] == OpsAbout(ms[1..], c.layer, id);
      } else {
        assert Lookup(DeliverTo(c, ms[0]).features, id) == Lookup(c.features, id);
        assert OpsAbout(ms, c.layer, id) == OpsAbout(ms[1..], c.layer, id);
      }
    }
  }

  // ---------- The invariant ----------

  ghost predicate WellFormedCluster(cfg: Config, st: Cluster) {
    && (forall n :: 0 <= n < |st.read| ==> st.read[n] <= |st.bus|)
    && (forall i :: 0 <= i < |st.bus| ==> st.bus[i].origin < |st.read|)
    && (forall c :: 0 <= c < |st.clients| ==> WellFormedClient(cfg, st, st.clients[c]))
  }

  ghost predicate WellFormedClient(cfg: Config, st: Cluster, c: Client) {
    && c.node < |st.read|
    && c.zoom in cfg.zooms
    && forall t :: t in c.subs ==> t.z == c.zoom
  }

  /** The client awaits snapshots of subscribed tiles only. */
  predicate AwaitsOwn(c: Client) {
    c.awaiting <= c.subs
  }

  ghost predicate QueueOk(cfg: Config, st: Cluster, n: nat, layer: string, id: Id, full: bool) {
    Coherent(cfg, id, OpsAbout(Undelivered(st, n), layer, id), Truth(st.redis, layer, id), Enriched(cfg, st.redis, id),
             full)
  }

  ghost predicate ClientOk(cfg: Config, st: Cluster, c: Client, id: Id, full: bool) {
    SlotOk(cfg, OpsAbout(Undelivered(st, c.node), c.layer, id), Truth(st.redis, c.layer, id),
           Enriched(cfg, st.redis, id),
           c.zoom, c.subs, c.awaiting, Lookup(c.features, id), full)
  }

  ghost predicate Inv(cfg: Config, st: Cluster, full: bool) {
    && WellFormedCluster(cfg, st)
    && (forall c :: 0 <= c < |st.clients| ==> AwaitsOwn(st.clients[c]))
    && IndexCovers(st.redis)
    && (forall n, layer, id :: 0 <= n < |st.read| ==> QueueOk(cfg, st, n, layer, id, full))
    && (forall c, id :: 0 <= c < |st.clients| ==> ClientOk(cfg, st, st.clients[c], id, full))
  }

  // ---------- Which steps are allowed ----------

  /** A node writes a member only when it has bridged everything other nodes published about
      it, or when the write leaves the position as it is. With `full`, the same holds for
      hash fields, and fields are never deleted. */
  ghost predicate MayExecute(cfg: Config, st: Cluster, n: nat, cmd: Command, order: seq<string>, full: bool) {
    && n < |st.read|
    && match cmd
       case GeoAdd(layer, id, pos) => Quiet(Undelivered(st, n), layer, id) || Truth(st.redis, layer, id) == Some(pos)
       case ZRem(layer, id) => Quiet(Undelivered(st, n), layer, id) || Truth(st.redis, layer, id) == None
       case HSet(id, _) => Lists(order, LayersOf(st.redis, id))
         && (full ==> forall layer :: Quiet(Undelivered(st, n), layer, id))
       case HDel(_, _) => !full
       case DelObject(_) => !full
       case DelLayer(_) => false
  }

  /** Tiles are at a published zoom. A tile is not dropped while its snapshot burst is still
      to come, and the zoom changes only when the node has bridged all of the client's layer. */
  ghost predicate MayMove(cfg: Config, st: Cluster, c: Client, zoom: nat, tiles: set<Tile>) {
    && zoom in cfg.zooms
    && (forall t :: t in tiles ==> t.z == zoom)
    && (c.subs - tiles) !! c.awaiting
    && (zoom == c.zoom || forall id :: Quiet(Undelivered(st, c.node), c.layer, id))
  }

  ghost predicate May(cfg: Config, st: Cluster, s: Step, full: bool) {
    match s
    case Execute(n, cmd, order) => MayExecute(cfg, st, n, cmd, order, full)
    case Bridge(n) => n < |st.read|
    case SetViewport(c, zoom, tiles) => c < |st.clients| && MayMove(cfg, st, st.clients[c], zoom, tiles)
    case RunSnapshot(c, t) => c < |st.clients| && t in st.clients[c].awaiting
  }

  ghost predicate Allowed(cfg: Config, st: Cluster, steps: seq<Step>, full: bool)
    decreases |steps|
  {
    steps == [] || (May(cfg, st, steps[0], full) && Allowed(cfg, Next(cfg, st, steps[0]), steps[1..], full))
  }

  /** Any Redis contents written through the proxy, nothing in flight, nobody subscribed. */
  ghost predicate Init(cfg: Config, st: Cluster) {
    && IndexCovers(st.redis)
    && st.bus == []
    && (forall n :: 0 <= n < |st.read| ==> st.read[n] == 0)
    && forall c :: 0 <= c < |st.clients| ==>
         var cl := st.clients[c];
         cl.node < |st.read| && cl.zoom in cfg.zooms && cl.subs == {} && cl.awaiting == {} && cl.features == map[]
  }

  lemma InitInv(cfg: Config, st: Cluster, full: bool)
    requires Init(cfg, st)
    ensures Inv(cfg, st, full)
  {
  }

  // ---------- What a command says about one member ----------

  /** The messages of the command's fanout that are about the member. */
  function Effect(cfg: Config, r: Redis, cmd: Command, order: seq<string>, layer: string, id: Id): seq<Op> {
    var here := Truth(r, layer, id);
    match cmd
    case GeoAdd(l, i, pos) => if l == layer && i == id then UpdateOps(cfg, id, here, Some(pos), Enriched(cfg, r, id))
      else []
    case ZRem(l, i) => if l == layer && i == id then UpdateOps(cfg, id, here, None, Enriched(cfg, r, id)) else []
    case HSet(i, fields) =>
      var delta := Restrict(fields, cfg.enrich);
      if i == id && delta != map[] && layer in order && here.Some? then AttrOps(cfg, cfg.zooms, id, here.value, delta)
      else []
    case HDel(_, _) => []
    case DelObject(_) => []
    case DelLayer(_) => []
  }

  lemma UpdateOpsNameMember(cfg: Config, id: Id, was: Option<Pos>, now: Option<Pos>, attrs: Attrs)
    requires ValidConfig(cfg)
    ensures forall o :: o in UpdateOps(cfg, id, was, now, attrs) ==> o.payload.id == id
  {
    if now.Some? {
      WriteOpsCoherent(cfg, cfg.zooms, id, was, now.value, attrs, false);
    }
  }

  lemma AttrMessagesInAbout(cfg: Config, r: Redis, i: Id, delta: Attrs, l: string, layer: string, id: Id)
    ensures OpsAbout(AttrMessagesIn(cfg, r, i, delta, l), layer, id)
         == if i == id && l == layer && Truth(r, layer, id).Some?
           then AttrOps(cfg, cfg.zooms, id, Truth(r, layer, id).value, delta) else []
  {
    if Truth(r, l, i).Some? {
      OpsAboutTileMessages(l, AttrOps(cfg, cfg.zooms, i, Truth(r, l, i).value, delta), layer, i, id);
    }
  }

  /** Of the sets listed, only `layer` contributes messages about its member. */
  lemma {:induction false} OneLayerContributes(cfg: Config, r: Redis, i: Id, delta: Attrs, order: seq<string>,
                                               layer: string, id: Id, mine: seq<Op>)
    requires forall a, b :: 0 <= a < b < |order| ==> order[a] != order[b]
    requires forall l :: l in order ==>
        OpsAbout(AttrMessagesIn(cfg, r, i, delta, l), layer, id) == if l == layer then mine else []
    ensures OpsAbout(AttrTileMessages(cfg, r, i, delta, order), layer, id) == if layer in order then mine else []
    decreases |order|
  {
    if order != [] {
      var first, rest := AttrMessagesIn(cfg, r, i, delta, order[0]), AttrTileMessages(cfg, r, i, delta, order[1..]);
      assert forall k :: 0 <= k < |order[1..]| ==> order[1..][k] == order[k + 1];
      assert order[0] in order && order[0] !in order[1..] && forall l :: l in order[1..] ==> l in order;
      OneLayerContributes(cfg, r, i, delta, order[1..], layer, id, mine);
      OpsAboutAppend(first, rest, layer, id);
      OneSide(OpsAbout(first, layer, id), OpsAbout(rest, layer, id), layer == order[0], layer in order[1..], mine);
      assert layer in order <==> layer == order[0] || layer in order[1..];
    }
  }

  lemma OneSide(a: seq<Op>, b: seq<Op>, left: bool, right: bool, mine: seq<Op>)
    requires !(left && right) && a == (if left then mine else []) && b == if right then mine else []
    ensures a + b == if left || right then mine else []
  {
  }

  lemma AttrTileMessagesAbout(cfg: Config, r: Redis, i: Id, delta: Attrs, order: seq<string>, layer: string, id: Id)
    requires forall a, b :: 0 <= a < b < |order| ==> order[a] != order[b]
    ensures OpsAbout(AttrTileMessages(cfg, r, i, delta, order), layer, id)
         == if i == id && layer in order && Truth(r, layer, id).Some?
            then AttrOps(cfg, cfg.zooms, id, Truth(r, layer, id).value, delta) else []
  {
    forall l | l in order {
      AttrMessagesInAbout(cfg, r, i, delta, l, layer, id);
    }
    var mine := if i == id && Truth(r, layer, id).Some?
      then AttrOps(cfg, cfg.zooms, id, Truth(r, layer, id).value, delta) else [];
    OneLayerContributes(cfg, r, i, delta, order, layer, id, mine);
  }

  lemma FanoutAbout(cfg: Config, r: Redis, cmd: Command, order: seq<string>, layer: string, id: Id)
    requires ValidConfig(cfg)
    requires cmd.HSet? ==> forall a, b :: 0 <= a < b < |order| ==> order[a] != order[b]
    ensures OpsAbout(MessagesOf(cfg, r, cmd, order), layer, id) == Effect(cfg, r, cmd, order, layer, id)
  {
    match cmd
    case GeoAdd(l, i, pos) =>
      UpdateOpsNameMember(cfg, i, Truth(r, l, i), Some(pos), Enriched(cfg, r, i));
      OpsAboutTileMessages(l, UpdateOps(cfg, i, Truth(r, l, i), Some(pos), Enriched(cfg, r, i)), layer, i, id);
    case ZRem(l, i) =>
      UpdateOpsNameMember(cfg, i, Truth(r, l, i), None, Enriched(cfg, r, i));
      OpsAboutTileMessages(l, UpdateOps(cfg, i, Truth(r, l, i), None, Enriched(cfg, r, i)), layer, i, id);
    case HSet(i, fields) =>
      var delta := Restrict(fields, cfg.enrich);
      var tiles := if delta == map[] then [] else AttrTileMessages(cfg, r, i, delta, order);
      AttrTileMessagesAbout(cfg, r, i, delta, order, layer, id);
      OpsAboutAppend([ObjectMsg(i, ObjectAttr(i, fields))], tiles, layer, id);
      assert OpsAbout([ObjectMsg(i, ObjectAttr(i, fields))], layer, id) == [];
    case HDel(_, _) =>
    case DelObject(_) =>
    case DelLayer(_) =>
  }

  /** Messages `b` about a member keep pace with a change of its position and enriched hash. */
  ghost predicate KeepsPace(cfg: Config, id: Id, b: seq<Op>, was: Option<Pos>, h: Attrs, now: Option<Pos>, h': Attrs,
                            z: nat, subs: set<Tile>, awaiting: set<Tile>, slot: Option<Feature>, full: bool)
  {
    && Coherent(cfg, id, b, now, h', full)
    && Pays(cfg, id, b, was, h, now, h', full)
    && (z in cfg.zooms ==> SlotPays(cfg, b, was, h, now, h', z, subs, awaiting, slot, full))
    && (full ==> h.Keys <= h'.Keys)
  }

  lemma SilenceKeepsPace(cfg: Config, id: Id, truth: Option<Pos>, h: Attrs, h': Attrs,
                         z: nat, subs: set<Tile>, awaiting: set<Tile>, slot: Option<Feature>, full: bool)
    requires full ==> h == h' || (truth.None? && h.Keys <= h'.Keys)
    ensures KeepsPace(cfg, id, [], truth, h, truth, h', z, subs, awaiting, slot, full)
  {
  }

  lemma UpdateKeepsPace(cfg: Config, r: Redis, cmd: Command, order: seq<string>, layer: string, id: Id,
                        z: nat, subs: set<Tile>, awaiting: set<Tile>, slot: Option<Feature>, full: bool)
    requires ValidConfig(cfg)
    requires (cmd.GeoAdd? || cmd.ZRem?) && cmd.layer == layer && cmd.id == id
    ensures KeepsPace(cfg, id, Effect(cfg, r, cmd, order, layer, id), Truth(r, layer, id), Enriched(cfg, r, id),
                      Truth(Apply(r, cmd), layer, id), Enriched(cfg, r, id), z, subs, awaiting, slot, full)
  {
    var now := if cmd.GeoAdd? then Some(cmd.pos) else None;
    UpdateOpsFacts(cfg, id, Truth(r, layer, id), now, Enriched(cfg, r, id), z, subs, awaiting, slot, full);
  }

  lemma HSetKeepsPace(cfg: Config, r: Redis, i: Id, fields: Attrs, order: seq<string>, layer: string, id: Id,
                      z: nat, subs: set<Tile>, awaiting: set<Tile>, slot: Option<Feature>, full: bool)
    requires ValidConfig(cfg) && IndexCovers(r) && Lists(order, LayersOf(r, i))
    ensures KeepsPace(cfg, id, Effect(cfg, r, HSet(i, fields), order, layer, id), Truth(r, layer, id),
                      Enriched(cfg, r, id),
                      Truth(r, layer, id), Enriched(cfg, Apply(r, HSet(i, fields)), id), z, subs, awaiting, slot, full)
  {
    var truth, h := Truth(r, layer, id), Enriched(cfg, r, id);
    var delta := Restrict(fields, cfg.enrich);
    if i == id {
      assert Enriched(cfg, Apply(r, HSet(i, fields)), id) == h + delta;
      if truth.Some? && delta != map[] {
        assert Key(layer, id) in r.geo;
        AttrOpsFacts(cfg, id, truth.value, h, delta, z, subs, awaiting, slot, full);
      } else {
        assert delta == map[] ==> h + delta == h;
        SilenceKeepsPace(cfg, id, truth, h, h + delta, z, subs, awaiting, slot, full);
      }
    } else {
      SilenceKeepsPace(cfg, id, truth, h, h, z, subs, awaiting, slot, full);
    }
  }

  /** The command's messages about a member keep pace with what the command does to it in Redis. */
  lemma EffectFacts(cfg: Config, st: Cluster, n: nat, cmd: Command, order: seq<string>, layer: string, id: Id,
                    z: nat, subs: set<Tile>, awaiting: set<Tile>, slot: Option<Feature>, full: bool)
    requires ValidConfig(cfg) && IndexCovers(st.redis)
    requires MayExecute(cfg, st, n, cmd, order, full)
    ensures var r, r' := st.redis, Apply(st.redis, cmd);
            KeepsPace(cfg, id, Effect(cfg, r, cmd, order, layer, id), Truth(r, layer, id), Enriched(cfg, r, id),
                      Truth(r', layer, id), Enriched(cfg, r', id), z, subs, awaiting, slot, full)
  {
    var r, r' := st.redis, Apply(st.redis, cmd);
    var was, h := Truth(r, layer, id), Enriched(cfg, r, id);
    if cmd.HSet? {
      HSetKeepsPace(cfg, r, cmd.id, cmd.fields, order, layer, id, z, subs, awaiting, slot, full);
    } else if (cmd.GeoAdd? || cmd.ZRem?) && cmd.layer == layer && cmd.id == id {
      UpdateKeepsPace(cfg, r, cmd, order, layer, id, z, subs, awaiting, slot, full);
    } else {
      SilenceKeepsPace(cfg, id, was, h, Enriched(cfg, r', id), z, subs, awaiting, slot, full);
    }
  }

  // ---------- Execute ----------

  lemma UndeliveredAfterPublish(cfg: Config, st: Cluster, n: nat, ms: seq<Message>, m: nat)
    requires WellFormedCluster(cfg, st) && m < |st.read|
    ensures Undelivered(Publish(st, n, ms), m) == Undelivered(st, m) + if m == n then [] else ms
  {
    var from := st.read[m];
    assert (st.bus + Envelopes(n, ms))[from..] == st.bus[from..] + Envelopes(n, ms);
    ForeignAppend(st.bus[from..], Envelopes(n, ms), m);
    ForeignEnvelopes(n, ms, m);
  }

  /** The undelivered messages about a member, before and after a command. */
  lemma ExecuteAbout(cfg: Config, st: Cluster, n: nat, cmd: Command, order: seq<string>, full: bool, m: nat,
                     layer: string, id: Id)
    requires ValidConfig(cfg) && WellFormedCluster(cfg, st) && m < |st.read|
    requires MayExecute(cfg, st, n, cmd, order, full)
    ensures OpsAbout(Undelivered(Next(cfg, st, Execute(n, cmd, order)), m), layer, id)
         == OpsAbout(Undelivered(st, m), layer, id) + if m == n then []
           else Effect(cfg, st.redis, cmd, order, layer, id)
  {
    var ms := MessagesOf(cfg, st.redis, cmd, order);
    UndeliveredAfterPublish(cfg, st, n, ms, m);
    var after := Publish(st, n, ms);
    assert Undelivered(Next(cfg, st, Execute(n, cmd, order)), m) == Undelivered(after, m);
    if m != n {
      FanoutAbout(cfg, st.redis, cmd, order, layer, id);
      OpsAboutAppend(Undelivered(st, m), ms, layer, id);
    } else {
      assert Undelivered(after, m) == Undelivered(st, m);
      assert OpsAbout(Undelivered(st, m), layer, id) + [] == OpsAbout(Undelivered(st, m), layer, id);
    }
  }

  /** A command that overtakes undelivered messages about a member leaves its position alone,
      and its hash too when attributes are tracked. */
  lemma OvertakingIsHarmless(cfg: Config, st: Cluster, n: nat, cmd: Command, order: seq<string>, full: bool,
                             layer: string, id: Id)
    requires MayExecute(cfg, st, n, cmd, order, full)
    requires OpsAbout(Undelivered(st, n), layer, id) != []
    ensures var r' := Apply(st.redis, cmd);
            && Truth(r', layer, id) == Truth(st.redis, layer, id)
            && (full ==> Enriched(cfg, r', id) == Enriched(cfg, st.redis, id))
            && (full && cmd.HSet? ==> cmd.id != id)
  {
    QuietMeansNone(Undelivered(st, n), layer, id);
  }

  lemma ExecuteQueue(cfg: Config, st: Cluster, n: nat, cmd: Command, order: seq<string>, full: bool, m: nat,
                     layer: string, id: Id)
    requires ValidConfig(cfg) && WellFormedCluster(cfg, st) && IndexCovers(st.redis) && m < |st.read|
    requires MayExecute(cfg, st, n, cmd, order, full)
    requires QueueOk(cfg, st, m, layer, id, full)
    ensures QueueOk(cfg, Next(cfg, st, Execute(n, cmd, order)), m, layer, id, full)
  {
    var st' := Next(cfg, st, Execute(n, cmd, order));
    var q := OpsAbout(Undelivered(st, m), layer, id);
    var b := Effect(cfg, st.redis, cmd, order, layer, id);
    var was, h := Truth(st.redis, layer, id), Enriched(cfg, st.redis, id);
    var now, h' := Truth(st'.redis, layer, id), Enriched(cfg, st'.redis, id);
    ExecuteAbout(cfg, st, n, cmd, order, full, m, layer, id);
    if m != n {
      EffectFacts(cfg, st, n, cmd, order, layer, id, 0, {}, {}, None, full);
      CoherentAppend(cfg, id, q, b, was, h, now, h', full);
    } else {
      assert q + [] == q;
      if q != [] {
        OvertakingIsHarmless(cfg, st, n, cmd, order, full, layer, id);
        if !full {
          HashUnreported(cfg, id, q, was, h, h', 0, {}, {}, None, full);
        }
      }
    }
  }

  /** Outside the scope of attributes, `attr` messages change nothing that is tracked. */
  lemma {:induction false} DeliverAttrs(cfg: Config, q: seq<Op>, b: seq<Op>, truth: Option<Pos>, hash: Attrs,
                                        z: nat, subs: set<Tile>, awaiting: set<Tile>, slot: Option<Feature>)
    requires forall o :: o in b ==> o.payload.Attr?
    requires SlotOk(cfg, q, truth, hash, z, subs, awaiting, slot, false)
    ensures SlotOk(cfg, q, truth, hash, z, subs, awaiting, DeliverAll(slot, b, subs), false)
    decreases |b|
  {
    if b != [] {
      var after := Deliver(slot, b[0], subs);
      forall w | InScope(w, false) && SlotDemands(cfg, truth, hash, z, subs - awaiting, after, w)
        ensures Later(q, 0, w)
      {
        assert SlotDemands(cfg, truth, hash, z, subs - awaiting, slot, w);
      }
      DeliverAttrs(cfg, q, b[1..], truth, hash, z, subs, awaiting, after);
    }
  }

  lemma ExecuteSlot(cfg: Config, st: Cluster, n: nat, cmd: Command, order: seq<string>, full: bool, layer: string,
                    id: Id, z: nat, subs: set<Tile>, awaiting: set<Tile>, slot: Option<Feature>)
    requires ValidConfig(cfg) && IndexCovers(st.redis) && z in cfg.zooms
    requires MayExecute(cfg, st, n, cmd, order, full)
    requires forall t :: t in subs ==> t.z == z
    requires QueueOk(cfg, st, n, layer, id, full)
    requires SlotOk(cfg, OpsAbout(Undelivered(st, n), layer, id), Truth(st.redis, layer, id),
                    Enriched(cfg, st.redis, id), z, subs, awaiting, slot, full)
    ensures var r' := Apply(st.redis, cmd);
            SlotOk(cfg, OpsAbout(Undelivered(st, n), layer, id), Truth(r', layer, id), Enriched(cfg, r', id), z, subs,
                   awaiting,
                   DeliverAll(slot, Effect(cfg, st.redis, cmd, order, layer, id), subs), full)
  {
    var q := OpsAbout(Undelivered(st, n), layer, id);
    var b := Effect(cfg, st.redis, cmd, order, layer, id);
    var was, h := Truth(st.redis, layer, id), Enriched(cfg, st.redis, id);
    var now, h' := Truth(Apply(st.redis, cmd), layer, id), Enriched(cfg, Apply(st.redis, cmd), id);
    EffectFacts(cfg, st, n, cmd, order, layer, id, z, subs, awaiting, slot, full);
    if q == [] {
      DeliverLocally(cfg, id, b, was, h, now, h', z, subs, awaiting, slot, full);
    } else {
      OvertakingIsHarmless(cfg, st, n, cmd, order, full, layer, id);
      if cmd.GeoAdd? && cmd.layer == layer && cmd.id == id {
        DeliverSamePosition(cfg, id, q, cmd.pos, h, cfg.zooms, h, z, subs, awaiting, slot, full);
      } else if !full {
        HashUnreported(cfg, id, q, was, h, h', z, subs, awaiting, slot, full);
        DeliverAttrs(cfg, q, b, now, h', z, subs, awaiting, slot);
      }
    }
  }

  lemma ExecuteClient(cfg: Config, st: Cluster, n: nat, cmd: Command, order: seq<string>, full: bool, c: nat, id: Id)
    requires ValidConfig(cfg) && WellFormedCluster(cfg, st) && IndexCovers(st.redis) && c < |st.clients|
    requires MayExecute(cfg, st, n, cmd, order, full)
    requires QueueOk(cfg, st, st.clients[c].node, st.clients[c].layer, id, full)
    requires ClientOk(cfg, st, st.clients[c], id, full)
    ensures ClientOk(cfg, Next(cfg, st, Execute(n, cmd, order)), Next(cfg, st, Execute(n, cmd, order)).clients[c], id,
                     full)
  {
    var st' := Next(cfg, st, Execute(n, cmd, order));
    var cl := st.clients[c];
    var q := OpsAbout(Undelivered(st, cl.node), cl.layer, id);
    var b := Effect(cfg, st.redis, cmd, order, cl.layer, id);
    assert WellFormedClient(cfg, st, cl);
    ExecuteAbout(cfg, st, n, cmd, order, full, cl.node, cl.layer, id);
    if cl.node == n {
      ExecuteSlot(cfg, st, n, cmd, order, full, cl.layer, id, cl.zoom, cl.subs, cl.awaiting, Lookup(cl.features, id));
      DeliverAllToMember(cl, MessagesOf(cfg, st.redis, cmd, order), id);
      FanoutAbout(cfg, st.redis, cmd, order, cl.layer, id);
      assert q + [] == q;
    } else {
      EffectFacts(cfg, st, n, cmd, order, cl.layer, id, cl.zoom, cl.subs, cl.awaiting, Lookup(cl.features, id), full);
      SlotAppend(cfg, q, b, Truth(st.redis, cl.layer, id), Enriched(cfg, st.redis, id),
                 Truth(st'.redis, cl.layer, id), Enriched(cfg, st'.redis, id),
                 cl.zoom, cl.subs, cl.awaiting, Lookup(cl.features, id), full);
    }
  }

  /** A command touches nothing of a client but its features. */
  lemma AfterExecuteWellFormed(cfg: Config, st: Cluster, n: nat, cmd: Command, order: seq<string>)
    requires WellFormedCluster(cfg, st) && n < |st.read|
    ensures var st' := Next(cfg, st, Execute(n, cmd, order));
            && WellFormedCluster(cfg, st') && |st'.clients| == |st.clients|
            && forall c :: 0 <= c < |st.clients| ==>
                 st'.clients[c] == st.clients[c].(features := st'.clients[c].features)
  {
    var st' := Next(cfg, st, Execute(n, cmd, order));
    forall c | 0 <= c < |st'.clients|
      ensures WellFormedClient(cfg, st', st'.clients[c])
      ensures st'.clients[c] == st.clients[c].(features := st'.clients[c].features)
    {
      assert WellFormedClient(cfg, st, st.clients[c]);
      DeliverAllToMember(st.clients[c], MessagesOf(cfg, st.redis, cmd, order), "");
    }
  }

  lemma ExecuteKeeps(cfg: Config, st: Cluster, n: nat, cmd: Command, order: seq<string>, full: bool)
    requires ValidConfig(cfg) && Inv(cfg, st, full) && MayExecute(cfg, st, n, cmd, order, full)
    ensures Inv(cfg, Next(cfg, st, Execute(n, cmd, order)), full)
  {
    var st' := Next(cfg, st, Execute(n, cmd, order));
    IndexCoversStep(st.redis, cmd);
    AfterExecuteWellFormed(cfg, st, n, cmd, order);
    forall m, layer, id | 0 <= m < |st'.read| ensures QueueOk(cfg, st', m, layer, id, full) {
      assert QueueOk(cfg, st, m, layer, id, full);
      ExecuteQueue(cfg, st, n, cmd, order, full, m, layer, id);
    }
    forall c, id | 0 <= c < |st'.clients| ensures ClientOk(cfg, st', st'.clients[c], id, full) {
      assert ClientOk(cfg, st, st.clients[c], id, full);
      assert QueueOk(cfg, st, st.clients[c].node, st.clients[c].layer, id, full) by {
        assert WellFormedClient(cfg, st, st.clients[c]);
      }
      ExecuteClient(cfg, st, n, cmd, order, full, c, id);
    }
  }

  // ---------- Bridge ----------

  lemma UndeliveredAfterBridge(cfg: Config, st: Cluster, n: nat, m: nat)
    requires WellFormedCluster(cfg, st) && n < |st.read| && st.read[n] < |st.bus| && m < |st.read|
    ensures var e := st.bus[st.read[n]];
            Undelivered(st, m) == (if m == n && e.origin != n then [e.msg] else []) + Undelivered(BridgeNext(st, n), m)
  {
    if m == n {
      var rest := st.bus[st.read[n]..];
      assert rest[0] == st.bus[st.read[n]];
      assert rest[1..] == st.bus[st.read[n] + 1..];
    }
    assert [] + Undelivered(BridgeNext(st, n), m) == Undelivered(BridgeNext(st, n), m);
  }

  /** One bridged message, seen from one member. */
  lemma BridgeAbout(cfg: Config, st: Cluster, n: nat, m: nat, layer: string, id: Id)
    requires WellFormedCluster(cfg, st) && n < |st.read| && st.read[n] < |st.bus| && m < |st.read|
    ensures OpsAbout(Undelivered(st, m), layer, id)
         == (if m == n && st.bus[st.read[n]].origin != n then OpOf(st.bus[st.read[n]].msg, layer, id) else [])
            + OpsAbout(Undelivered(BridgeNext(st, n), m), layer, id)
  {
    var rest := Undelivered(BridgeNext(st, n), m);
    UndeliveredAfterBridge(cfg, st, n, m);
    OpsAboutCons(st.bus[st.read[n]].msg, rest, layer, id);
    assert [] + rest == rest && [] + OpsAbout(rest, layer, id) == OpsAbout(rest, layer, id);
  }

  lemma BridgeQueue(cfg: Config, st: Cluster, n: nat, full: bool, m: nat, layer: string, id: Id)
    requires WellFormedCluster(cfg, st) && n < |st.read| && st.read[n] < |st.bus| && m < |st.read|
    requires QueueOk(cfg, st, m, layer, id, full)
    ensures QueueOk(cfg, BridgeNext(st, n), m, layer, id, full)
  {
    var e := st.bus[st.read[n]];
    var q := OpsAbout(Undelivered(st, m), layer, id);
    var q' := OpsAbout(Undelivered(BridgeNext(st, n), m), layer, id);
    BridgeAbout(cfg, st, n, m, layer, id);
    if m == n && e.origin != n && IsAbout(e.msg, layer, id) {
      assert q[1..] == q';
      CoherentTail(cfg, id, q, Truth(st.redis, layer, id), Enriched(cfg, st.redis, id), full);
    } else {
      assert q == q';
    }
  }

  lemma DeliverToMember(c: Client, m: Message, id: Id)
    ensures Lookup(DeliverTo(c, m).features, id)
         == if IsAbout(m, c.layer, id) then Deliver(Lookup(c.features, id), Op(m.tile, m.payload), c.subs)
           else Lookup(c.features, id)
  {
  }

  lemma BridgeClient(cfg: Config, st: Cluster, n: nat, full: bool, c: nat, id: Id)
    requires WellFormedCluster(cfg, st) && n < |st.read| && st.read[n] < |st.bus| && c < |st.clients|
    requires QueueOk(cfg, st, st.clients[c].node, st.clients[c].layer, id, full)
    requires ClientOk(cfg, st, st.clients[c], id, full)
    ensures ClientOk(cfg, BridgeNext(st, n), BridgeNext(st, n).clients[c], id, full)
  {
    var e := st.bus[st.read[n]];
    var cl := st.clients[c];
    assert WellFormedClient(cfg, st, cl);
    var q := OpsAbout(Undelivered(st, cl.node), cl.layer, id);
    var q' := OpsAbout(Undelivered(BridgeNext(st, n), cl.node), cl.layer, id);
    BridgeAbout(cfg, st, n, cl.node, cl.layer, id);
    DeliverToMember(cl, e.msg, id);
    if cl.node == n && e.origin != n && IsAbout(e.msg, cl.layer, id) {
      assert q[1..] == q';
      DeliverHead(cfg, id, q, Truth(st.redis, cl.layer, id), Enriched(cfg, st.redis, id),
                  cl.zoom, cl.subs, cl.awaiting, Lookup(cl.features, id), full);
    } else {
      assert q == q';
    }
  }

  lemma BridgeKeeps(cfg: Config, st: Cluster, n: nat, full: bool)
    requires Inv(cfg, st, full) && n < |st.read|
    ensures Inv(cfg, BridgeNext(st, n), full)
  {
    if st.read[n] < |st.bus| {
      var st' := BridgeNext(st, n);
      forall c | 0 <= c < |st'.clients| ensures WellFormedClient(cfg, st', st'.clients[c]) {
        assert WellFormedClient(cfg, st, st.clients[c]);
      }
      forall m, layer, id | 0 <= m < |st'.read| ensures QueueOk(cfg, st', m, layer, id, full) {
        assert QueueOk(cfg, st, m, layer, id, full);
        BridgeQueue(cfg, st, n, full, m, layer, id);
      }
      forall c, id | 0 <= c < |st'.clients| ensures ClientOk(cfg, st', st'.clients[c], id, full) {
        assert WellFormedClient(cfg, st, st.clients[c]);
        assert ClientOk(cfg, st, st.clients[c], id, full);
        assert QueueOk(cfg, st, st.clients[c].node, st.clients[c].layer, id, full);
        BridgeClient(cfg, st, n, full, c, id);
      }
    }
  }

  // ---------- SetViewport and RunSnapshot ----------

  /** A step that changes one client only, and keeps that client's debts paid. */
  lemma ClientStepKeeps(cfg: Config, st: Cluster, c: nat, cl: Client, full: bool)
    requires Inv(cfg, st, full) && c < |st.clients|
    requires cl.node == st.clients[c].node && WellFormedClient(cfg, st, cl) && AwaitsOwn(cl)
    requires forall id :: ClientOk(cfg, st, cl, id, full)
    ensures Inv(cfg, st.(clients := st.clients[c := cl]), full)
  {
    var st' := st.(clients := st.clients[c := cl]);
    assert forall n :: Undelivered(st', n) == Undelivered(st, n);
    forall i | 0 <= i < |st'.clients| ensures WellFormedClient(cfg, st', st'.clients[i]) {
      assert i != c ==> WellFormedClient(cfg, st, st.clients[i]);
    }
    forall m, layer, id | 0 <= m < |st'.read| ensures QueueOk(cfg, st', m, layer, id, full) {
      assert QueueOk(cfg, st, m, layer, id, full);
    }
    forall i, id | 0 <= i < |st'.clients| ensures ClientOk(cfg, st', st'.clients[i], id, full) {
      assert i != c ==> ClientOk(cfg, st, st.clients[i], id, full);
      assert i == c ==> ClientOk(cfg, st, cl, id, full);
    }
  }

  /** A zoom change throws everything away and starts afresh. */
  lemma ZoomChange(cfg: Config, truth: Option<Pos>, hash: Attrs, c: Client, zoom: nat, tiles: set<Tile>, id: Id,
                   full: bool)
    requires ValidConfig(cfg) && zoom != c.zoom
    requires forall t :: t in c.subs ==> t.z == c.zoom
    requires forall t :: t in tiles ==> t.z == zoom
    requires SlotOk(cfg, [], truth, hash, c.zoom, c.subs, c.awaiting, Lookup(c.features, id), full)
    ensures var c' := ChangeViewport(cfg, c, zoom, tiles);
            SlotOk(cfg, [], truth, hash, zoom, tiles, c'.awaiting, Lookup(c'.features, id), full)
  {
    Settled(cfg, truth, hash, c.zoom, c.subs, c.awaiting, Lookup(c.features, id), full);
    if Lookup(c.features, id).Some? {
      assert c.subs - tiles == c.subs != {};
    }
  }

  lemma ViewportKeepsInv(cfg: Config, st: Cluster, c: nat, zoom: nat, tiles: set<Tile>, full: bool)
    requires ValidConfig(cfg) && Inv(cfg, st, full) && c < |st.clients| && MayMove(cfg, st, st.clients[c], zoom, tiles)
    ensures Inv(cfg, Next(cfg, st, SetViewport(c, zoom, tiles)), full)
  {
    var cl := st.clients[c];
    assert WellFormedClient(cfg, st, cl);
    var cl' := ChangeViewport(cfg, cl, zoom, tiles);
    forall id ensures ClientOk(cfg, st, cl', id, full) {
      var q := OpsAbout(Undelivered(st, cl.node), cl.layer, id);
      var truth, hash := Truth(st.redis, cl.layer, id), Enriched(cfg, st.redis, id);
      assert ClientOk(cfg, st, cl, id, full);
      assert QueueOk(cfg, st, cl.node, cl.layer, id, full);
      if zoom == cl.zoom {
        ViewportKeeps(cfg, id, q, truth, hash, zoom, cl.subs, cl.awaiting, Lookup(cl.features, id), full, tiles);
        if t :| t in cl.subs && t !in tiles {
          assert t in cl.subs - tiles;
        }
        assert Lookup(cl'.features, id) == Evict(cfg, Lookup(cl.features, id), zoom, tiles);
      } else {
        assert Quiet(Undelivered(st, cl.node), cl.layer, id);
        QuietMeansNone(Undelivered(st, cl.node), cl.layer, id);
        ZoomChange(cfg, truth, hash, cl, zoom, tiles, id, full);
      }
    }
    ClientStepKeeps(cfg, st, c, cl', full);
  }

  lemma SnapshotIntoAt(cfg: Config, r: Redis, layer: string, features: map<Id, Feature>, tiles: set<Tile>, id: Id)
    ensures Lookup(SnapshotInto(cfg, r, layer, features, tiles), id)
         == if Truth(r, layer, id).Some? && InTiles(cfg, Truth(r, layer, id).value, tiles)
            then Touch(Lookup(features, id), Snapshot(id, Truth(r, layer, id).value, Enriched(cfg, r, id)))
            else Lookup(features, id)
  {
    var truth := Truth(r, layer, id);
    if truth.Some? && InTiles(cfg, truth.value, tiles) {
      assert Key(layer, id) in r.geo;
      assert id in MembersIn(cfg, r, layer, tiles);
    }
  }

  lemma SnapshotKeepsInv(cfg: Config, st: Cluster, c: nat, t: Tile, full: bool)
    requires ValidConfig(cfg) && Inv(cfg, st, full) && c < |st.clients| && t in st.clients[c].awaiting
    ensures Inv(cfg, Next(cfg, st, RunSnapshot(c, t)), full)
  {
    var cl := st.clients[c];
    assert WellFormedClient(cfg, st, cl);
    var cl' := cl.(awaiting := cl.awaiting - {t}, features := SnapshotInto(cfg, st.redis, cl.layer, cl.features, {t}));
    forall id ensures ClientOk(cfg, st, cl', id, full) {
      var q := OpsAbout(Undelivered(st, cl.node), cl.layer, id);
      var truth, hash := Truth(st.redis, cl.layer, id), Enriched(cfg, st.redis, id);
      assert ClientOk(cfg, st, cl, id, full);
      assert QueueOk(cfg, st, cl.node, cl.layer, id, full);
      SnapshotIntoAt(cfg, st.redis, cl.layer, cl.features, {t}, id);
      SnapshotKeeps(cfg, id, q, truth, hash, cl.zoom, cl.subs, cl.awaiting, Lookup(cl.features, id), full, t);
    }
    ClientStepKeeps(cfg, st, c, cl', full);
  }

  // ---------- Runs ----------

  lemma StepKeeps(cfg: Config, st: Cluster, s: Step, full: bool)
    requires ValidConfig(cfg) && Inv(cfg, st, full) && May(cfg, st, s, full)
    ensures Inv(cfg, Next(cfg, st, s), full)
  {
    match s
    case Execute(n, cmd, order) => ExecuteKeeps(cfg, st, n, cmd, order, full);
    case Bridge(n) => BridgeKeeps(cfg, st, n, full);
    case SetViewport(c, zoom, tiles) => ViewportKeepsInv(cfg, st, c, zoom, tiles, full);
    case RunSnapshot(c, t) => SnapshotKeepsInv(cfg, st, c, t, full);
  }

  lemma {:induction false} RunKeeps(cfg: Config, st: Cluster, steps: seq<Step>, full: bool)
    requires ValidConfig(cfg) && Inv(cfg, st, full) && Allowed(cfg, st, steps, full)
    ensures Inv(cfg, Run(cfg, st, steps), full)
    decreases |steps|
  {
    if steps != [] {
      StepKeeps(cfg, st, steps[0], full);
      RunKeeps(cfg, Next(cfg, st, steps[0]), steps[1..], full);
    }
  }

  // ---------- The main theorem ----------

  /** Node n bridges all that is on the bus. */
  function BridgeAll(st: Cluster, n: nat): Cluster
    requires n < |st.read|
    decreases |st.bus| - st.read[n]
  {
    if st.read[n] >= |st.bus| then st else BridgeAll(BridgeNext(st, n), n)
  }

  /** The client's map once its node has bridged what is on the bus and the pending snapshot bursts have run. */
  function Eventually(cfg: Config, st: Cluster, c: nat): map<Id, Feature>
    requires c < |st.clients| && st.clients[c].node < |st.read|
  {
    var drained := BridgeAll(st, st.clients[c].node);
    if c < |drained.clients| then
      SnapshotInto(cfg, drained.redis, drained.clients[c].layer, drained.clients[c].features,
                   drained.clients[c].awaiting)
    else map[]
  }

  /** A direct query of Redis: the members of the layer on the given tiles with their position and enriched hash. */
  function Query(cfg: Config, r: Redis, layer: string, tiles: set<Tile>): map<Id, Feature> {
    map id | id in MembersIn(cfg, r, layer, tiles) :: Feature(r.geo[Key(layer, id)], Enriched(cfg, r, id))
  }

  /** Two maps show the same objects at the same positions. */
  predicate SamePlaces(f: map<Id, Feature>, g: map<Id, Feature>) {
    f.Keys == g.Keys && forall id :: id in f.Keys ==> f[id].pos == g[id].pos
  }

  /** The map shows the right objects at the right positions and, with `full`, with the right attributes. */
  ghost predicate Agrees(features: map<Id, Feature>, query: map<Id, Feature>, full: bool) {
    SamePlaces(features, query) && (full ==> features == query)
  }

  /** What the client's subscriptions should show. */
  function Wanted(cfg: Config, st: Cluster, c: nat): map<Id, Feature>
    requires c < |st.clients|
  {
    Query(cfg, st.redis, st.clients[c].layer, st.clients[c].subs)
  }

  /** Bridging changes no more than the node's place on the bus and its clients' features. */
  lemma {:induction false} BridgeAllKeeps(cfg: Config, st: Cluster, n: nat, full: bool)
    requires Inv(cfg, st, full) && n < |st.read|
    ensures var st' := BridgeAll(st, n);
            && Inv(cfg, st', full) && Undelivered(st', n) == []
            && st'.redis == st.redis && |st'.read| == |st.read| && |st'.clients| == |st.clients|
            && forall c :: 0 <= c < |st.clients| ==>
              st'.clients[c] == st.clients[c].(features := st'.clients[c].features)
    decreases |st.bus| - st.read[n]
  {
    if st.read[n] < |st.bus| {
      BridgeKeeps(cfg, st, n, full);
      BridgeAllKeeps(cfg, BridgeNext(st, n), n, full);
    } else {
      assert st.bus[st.read[n]..] == [];
    }
  }

  /** Bridging everything delivers to each client all that was undelivered, member by member. */
  lemma {:induction false} BridgeAllDelivers(cfg: Config, st: Cluster, n: nat, c: nat, id: Id)
    requires WellFormedCluster(cfg, st) && n < |st.read| && c < |st.clients| && st.clients[c].node == n
    ensures |BridgeAll(st, n).clients| == |st.clients|
    ensures Lookup(BridgeAll(st, n).clients[c].features, id)
         == DeliverAll(Lookup(st.clients[c].features, id), OpsAbout(Undelivered(st, n), st.clients[c].layer, id),
                       st.clients[c].subs)
    decreases |st.bus| - st.read[n]
  {
    var cl := st.clients[c];
    if st.read[n] < |st.bus| {
      var st' := BridgeNext(st, n);
      var e := st.bus[st.read[n]];
      forall i | 0 <= i < |st'.clients| ensures WellFormedClient(cfg, st', st'.clients[i]) {
        assert WellFormedClient(cfg, st, st.clients[i]);
      }
      BridgeAbout(cfg, st, n, n, cl.layer, id);
      DeliverToMember(cl, e.msg, id);
      BridgeAllDelivers(cfg, st', n, c, id);
      var q := OpsAbout(Undelivered(st, n), cl.layer, id);
      var q' := OpsAbout(Undelivered(st', n), cl.layer, id);
      if e.origin != n && IsAbout(e.msg, cl.layer, id) {
        assert q[0] == Op(e.msg.tile, e.msg.payload) && q[1..] == q';
      } else {
        assert q == q';
      }
    } else {
      assert st.bus[st.read[n]..] == [];
    }
  }

  lemma QueryAt(cfg: Config, st: Cluster, c: Client, id: Id)
    requires ValidConfig(cfg) && WellFormedClient(cfg, st, c)
    ensures Lookup(Query(cfg, st.redis, c.layer, c.subs), id)
         == Ideal(cfg, Truth(st.redis, c.layer, id), Enriched(cfg, st.redis, id), c.zoom, c.subs)
  {
    var truth := Truth(st.redis, c.layer, id);
    if truth.Some? && cfg.tileAt(c.zoom, truth.value) in c.subs {
      var t := cfg.tileAt(c.zoom, truth.value);
      assert cfg.tileAt(t.z, truth.value) == t;
      assert Key(c.layer, id) in st.redis.geo && InTiles(cfg, truth.value, c.subs);
    }
  }

  /** With nothing undelivered, running the pending snapshot bursts makes the map equal to the query. */
  lemma SettledMap(cfg: Config, st: Cluster, c: nat, full: bool)
    requires ValidConfig(cfg) && Inv(cfg, st, full) && c < |st.clients|
    requires Undelivered(st, st.clients[c].node) == []
    ensures var cl := st.clients[c];
            Agrees(SnapshotInto(cfg, st.redis, cl.layer, cl.features, cl.awaiting), Wanted(cfg, st, c), full)
  {
    var cl := st.clients[c];
    var settled := SnapshotInto(cfg, st.redis, cl.layer, cl.features, cl.awaiting);
    var query := Query(cfg, st.redis, cl.layer, cl.subs);
    assert WellFormedClient(cfg, st, cl);
    forall id
      ensures PosOf(Lookup(settled, id)) == PosOf(Lookup(query, id))
      ensures full ==> Lookup(settled, id) == Lookup(query, id)
    {
      assert ClientOk(cfg, st, cl, id, full);
      var truth, hash := Truth(st.redis, cl.layer, id), Enriched(cfg, st.redis, id);
      SnapshotIntoAt(cfg, st.redis, cl.layer, cl.features, cl.awaiting, id);
      QueryAt(cfg, st, cl, id);
      SettledBySnapshots(cfg, id, truth, hash, cl.zoom, cl.subs, cl.awaiting, Lookup(cl.features, id), full);
      if truth.Some? {
        var t := cfg.tileAt(cl.zoom, truth.value);
        assert cfg.tileAt(t.z, truth.value) == t;
        assert t in cl.awaiting ==> InTiles(cfg, truth.value, cl.awaiting);
      }
    }
    AgreeFromMembers(settled, query, full);
  }

  lemma AgreeFromMembers(f: map<Id, Feature>, g: map<Id, Feature>, full: bool)
    requires forall id :: PosOf(Lookup(f, id)) == PosOf(Lookup(g, id)) && (full ==> Lookup(f, id) == Lookup(g, id))
    ensures Agrees(f, g, full)
  {
    forall id | id in f ensures id in g && f[id].pos == g[id].pos && (full ==> f[id] == g[id]) {
      assert PosOf(Lookup(f, id)) == PosOf(Lookup(g, id));
    }
    forall id | id in g ensures id in f {
      assert PosOf(Lookup(f, id)) == PosOf(Lookup(g, id));
    }
    assert f.Keys == g.Keys && (full ==> f == g);
  }

  /** The state at the end of some allowed run. */
  ghost predicate Reachable(cfg: Config, st: Cluster, full: bool) {
    exists st0, steps :: Init(cfg, st0) && Allowed(cfg, st0, steps, full) && st == Run(cfg, st0, steps)
  }

  lemma ReachableInv(cfg: Config, st: Cluster, full: bool)
    requires ValidConfig(cfg) && Reachable(cfg, st, full)
    ensures Inv(cfg, st, full)
  {
    var st0, steps :| Init(cfg, st0) && Allowed(cfg, st0, steps, full) && st == Run(cfg, st0, steps);
    InitInv(cfg, st0, full);
    RunKeeps(cfg, st0, steps, full);
  }

  lemma {:induction false} AllowedOneMore(cfg: Config, st: Cluster, steps: seq<Step>, s: Step, full: bool)
    requires Allowed(cfg, st, steps, full) && May(cfg, Run(cfg, st, steps), s, full)
    ensures Allowed(cfg, st, steps + [s], full)
    decreases |steps|
  {
    var all := steps + [s];
    if steps == [] {
      assert all == [s] && all[1..] == [];
    } else {
      assert all[0] == steps[0] && all[1..] == steps[1..] + [s];
      AllowedOneMore(cfg, Next(cfg, st, steps[0]), steps[1..], s, full);
    }
  }

  lemma ReachableNext(cfg: Config, st: Cluster, s: Step, full: bool)
    requires Reachable(cfg, st, full) && May(cfg, st, s, full)
    ensures Reachable(cfg, Next(cfg, st, s), full)
  {
    var st0, steps :| Init(cfg, st0) && Allowed(cfg, st0, steps, full) && st == Run(cfg, st0, steps);
    AllowedOneMore(cfg, st0, steps, s, full);
    RunOneMore(cfg, st0, steps, s);
  }

  lemma InitReachable(cfg: Config, st: Cluster, full: bool)
    requires Init(cfg, st)
    ensures Reachable(cfg, st, full)
  {
    assert Allowed(cfg, st, [], full) && st == Run(cfg, st, []);
  }

  /** In every reachable state of N nodes, what is still in flight will turn every client's
      map into exactly what a direct query over its subscribed tiles returns: positions in all
      allowed runs, and whole features where fields are never deleted. */
  lemma {:induction false} InFlightCorrect(cfg: Config, st: Cluster, c: nat, full: bool)
    requires ValidConfig(cfg) && Reachable(cfg, st, full) && c < |st.clients|
    ensures st.clients[c].node < |st.read| && Agrees(Eventually(cfg, st, c), Wanted(cfg, st, c), full)
  {
    ReachableInv(cfg, st, full);
    assert WellFormedClient(cfg, st, st.clients[c]);
    BridgeAllKeeps(cfg, st, st.clients[c].node, full);
    SettledMap(cfg, BridgeAll(st, st.clients[c].node), c, full);
  }

  lemma OwnMessagesOnly(es: seq<Envelope>)
    requires forall i :: 0 <= i < |es| ==> es[i].origin == 0
    ensures Foreign(es, 0) == []
  {
  }

  lemma NothingAwaited(cfg: Config, r: Redis, layer: string, features: map<Id, Feature>)
    ensures SnapshotInto(cfg, r, layer, features, {}) == features
  {
    assert MembersIn(cfg, r, layer, {}) == {};
  }

  /** A client whose node has nothing to bridge and whose snapshot bursts have run is up to date. */
  lemma CaughtUp(cfg: Config, st: Cluster, c: nat, full: bool)
    requires ValidConfig(cfg) && Inv(cfg, st, full) && c < |st.clients|
    requires Undelivered(st, st.clients[c].node) == [] && st.clients[c].awaiting == {}
    ensures Agrees(st.clients[c].features, Wanted(cfg, st, c), full)
  {
    SettledMap(cfg, st, c, full);
    NothingAwaited(cfg, st.redis, st.clients[c].layer, st.clients[c].features);
  }

  lemma AloneIsCaughtUp(cfg: Config, st: Cluster, c: nat, full: bool)
    requires ValidConfig(cfg) && Inv(cfg, st, full) && |st.read| == 1
    requires c < |st.clients| && st.clients[c].awaiting == {}
    ensures Agrees(st.clients[c].features, Wanted(cfg, st, c), full)
  {
    assert WellFormedClient(cfg, st, st.clients[c]);
    OwnMessagesOnly(st.bus[st.read[0]..]);
    CaughtUp(cfg, st, c, full);
  }
}
