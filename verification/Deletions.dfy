/** Deletions that the tiles are not told about: HDEL, and DEL of a hash or of a set. Exactly when the client still
    comes right, with everything in flight that a reachable state may have. */
module Deletions {
  import opened Payloads
  import opened MemberTracking
  import opened RedisStore
  import opened Protocol
  import opened Settling
  import opened Limits
  import opened HashWrites

  // ---------- Clients that are up to date ----------

  lemma HDelHash(cfg: Config, r: Redis, id: Id, names: set<string>)
    ensures forall i :: i != id ==> Enriched(cfg, Apply(r, HDel(id, names)), i) == Enriched(cfg, r, i)
    ensures Enriched(cfg, Apply(r, HDel(id, names)), id) == Enriched(cfg, r, id) <==> names !! Enriched(cfg, r, id).Keys
  {
    var h, h' := Enriched(cfg, r, id), Enriched(cfg, Apply(r, HDel(id, names)), id);
    assert h'.Keys == h.Keys - names;
    if h' == h {
      assert h.Keys - names == h.Keys;
    }
  }

  lemma HDelQueryAt(cfg: Config, r: Redis, layer: string, tiles: set<Tile>, id: Id, names: set<string>, i: Id)
    ensures Lookup(Query(cfg, Apply(r, HDel(id, names)), layer, tiles), i) == Lookup(Query(cfg, r, layer, tiles), i)
       <==> i != id || Lookup(Query(cfg, r, layer, tiles), id).None? || names !! Enriched(cfg, r, id).Keys
    ensures PosOf(Lookup(Query(cfg, Apply(r, HDel(id, names)), layer, tiles), i))
         == PosOf(Lookup(Query(cfg, r, layer, tiles), i))
  {
    HDelHash(cfg, r, id, names);
    QueryLookup(cfg, r, layer, tiles, i);
    QueryLookup(cfg, Apply(r, HDel(id, names)), layer, tiles, i);
  }

  /** HDEL is not reported on tile topics: an up-to-date client stays so exactly when it does not
      hold the object or no enriched field of it goes away. */
  lemma {:induction false} FieldDeletionExact(cfg: Config, r: Redis, c: Client, id: Id, names: set<string>)
    requires UpToDate(cfg, r, c, true)
    ensures UpToDate(cfg, Apply(r, HDel(id, names)), c, true)
       <==> id !in c.features || names !! Enriched(cfg, r, id).Keys
  {
    var after := Query(cfg, Apply(r, HDel(id, names)), c.layer, c.subs);
    AgreeByMember(c.features, after, true);
    forall i {
      HDelQueryAt(cfg, r, c.layer, c.subs, id, names, i);
    }
  }

  lemma DelObjectHash(cfg: Config, r: Redis, id: Id)
    ensures forall i :: i != id ==> Enriched(cfg, Apply(r, DelObject(id)), i) == Enriched(cfg, r, i)
    ensures Enriched(cfg, Apply(r, DelObject(id)), id) == map[]
  {
  }

  lemma DelObjectQueryAt(cfg: Config, r: Redis, layer: string, tiles: set<Tile>, id: Id, i: Id)
    ensures Lookup(Query(cfg, Apply(r, DelObject(id)), layer, tiles), i) == Lookup(Query(cfg, r, layer, tiles), i)
       <==> i != id || Lookup(Query(cfg, r, layer, tiles), id).None? || Enriched(cfg, r, id) == map[]
    ensures PosOf(Lookup(Query(cfg, Apply(r, DelObject(id)), layer, tiles), i))
         == PosOf(Lookup(Query(cfg, r, layer, tiles), i))
  {
    DelObjectHash(cfg, r, id);
    QueryLookup(cfg, r, layer, tiles, i);
    QueryLookup(cfg, Apply(r, DelObject(id)), layer, tiles, i);
  }

  /** Deleting an object's hash is told to those who watch the object, not on tile topics: an up-to-date
      client stays so exactly when it does not hold the object or the object has no enriched field. */
  lemma {:induction false} ObjectDeletionExact(cfg: Config, r: Redis, c: Client, id: Id)
    requires UpToDate(cfg, r, c, true)
    ensures UpToDate(cfg, Apply(r, DelObject(id)), c, true) <==> id !in c.features || Enriched(cfg, r, id) == map[]
  {
    AgreeByMember(c.features, Query(cfg, Apply(r, DelObject(id)), c.layer, c.subs), true);
    forall i {
      DelObjectQueryAt(cfg, r, c.layer, c.subs, id, i);
    }
  }

  lemma DelLayerQueryAt(cfg: Config, r: Redis, layer: string, followed: string, tiles: set<Tile>, i: Id)
    ensures PosOf(Lookup(Query(cfg, Apply(r, DelLayer(layer)), followed, tiles), i))
         == if layer == followed then None else PosOf(Lookup(Query(cfg, r, followed, tiles), i))
  {
    QueryLookup(cfg, r, followed, tiles, i);
    QueryLookup(cfg, Apply(r, DelLayer(layer)), followed, tiles, i);
  }

  /** DEL of a set's key is not reported at all: an up-to-date client stays so exactly when it
      follows another set or shows nothing. */
  lemma {:induction false} LayerDeletionExact(cfg: Config, r: Redis, c: Client, layer: string)
    requires UpToDate(cfg, r, c, false)
    ensures UpToDate(cfg, Apply(r, DelLayer(layer)), c, false) <==> layer != c.layer || c.features == map[]
  {
    var before, after := Query(cfg, r, c.layer, c.subs), Query(cfg, Apply(r, DelLayer(layer)), c.layer, c.subs);
    AgreeByMember(c.features, before, false);
    AgreeByMember(c.features, after, false);
    forall i ensures PosOf(Lookup(after, i)) == if layer == c.layer then None else PosOf(Lookup(before, i)) {
      DelLayerQueryAt(cfg, r, layer, c.layer, c.subs, i);
    }
    if c.features != map[] {
      var id :| id in c.features;
      assert PosOf(Lookup(c.features, id)).Some?;
    }
  }

  // ---------- With messages in flight ----------

  predicate Deletes(cmd: Command) {
    cmd.HDel? || cmd.DelObject? || cmd.DelLayer?
  }

  lemma NoTileMessages(cfg: Config, r: Redis, cmd: Command, c: Client)
    requires Deletes(cmd)
    ensures var ms := MessagesOf(cfg, r, cmd, []);
            DeliverAllTo(c, ms) == c && forall layer, id :: OpsAbout(ms, layer, id) == []
  {
    var ms := MessagesOf(cfg, r, cmd, []);
    assert ms == [] || (ms == [ms[0]] && ms[0].ObjectMsg? && ms[1..] == []);
  }

  /** A deletion at any node leaves the client's map and what is in flight for it as they were. */
  lemma Unreported(cfg: Config, st: Cluster, n: nat, cmd: Command, c: nat, id: Id)
    requires WellFormedCluster(cfg, st) && n < |st.read| && c < |st.clients| && Deletes(cmd)
    ensures var st' := Next(cfg, st, Execute(n, cmd, []));
            && WellFormedCluster(cfg, st') && |st'.clients| == |st.clients| && st'.clients[c] == st.clients[c]
            && InFlight(st', st'.clients[c], id) == InFlight(st, st.clients[c], id)
  {
    var cl, ms, st' := st.clients[c], MessagesOf(cfg, st.redis, cmd, []), Next(cfg, st, Execute(n, cmd, []));
    assert WellFormedClient(cfg, st, cl);
    AfterExecuteWellFormed(cfg, st, n, cmd, []);
    NoTileMessages(cfg, st.redis, cmd, cl);
    UndeliveredAfterPublish(cfg, st, n, ms, cl.node);
    assert Undelivered(st', cl.node) == Undelivered(Publish(st, n, ms), cl.node);
    OpsAboutAppend(Undelivered(st, cl.node), if cl.node == n then [] else ms, cl.layer, id);
  }

  /** One member whose set has been deleted: after all that was in flight the client shows nothing exactly when it was
      not to see the member, or had not come to know of it and nothing in flight tells it. */
  lemma GoneExact(cfg: Config, id: Id, q: seq<Op>, was: Option<Pos>, hash: Attrs, z: nat, subs: set<Tile>,
                  awaiting: set<Tile>, slot: Option<Feature>)
    requires ValidConfig(cfg) && awaiting <= subs && forall t :: t in subs ==> t.z == z
    requires Coherent(cfg, id, q, was, hash, false) && SlotOk(cfg, q, was, hash, z, subs, awaiting, slot, false)
    ensures PosOf(DeliverAll(slot, q, subs)).None?
       <==> View(cfg, was, z, subs).None?
            || (View(cfg, was, z, awaiting).Some? && slot.None? && !Repositions(q, subs))
  {
    DeliverQueue(cfg, id, q, was, hash, z, subs, awaiting, slot, false);
    Settled(cfg, was, hash, z, subs, awaiting, DeliverAll(slot, q, subs), false);
    if Repositions(q, subs) {
      RepositioningLands(cfg, id, q, was, hash, z, subs, slot);
    } else {
      LastMessageDecides(q, subs, slot, slot);
    }
  }

  /** DEL of the client's set in any reachable state. However everything in flight arrives, the client ends right about
      an object exactly when it was not to see it before, or its snapshot was still to come and neither the client's
      map nor anything in flight has it. */
  lemma {:induction false} LayerDeletionSettlesExact(cfg: Config, st: Cluster, n: nat, c: nat, steps: seq<Step>,
                                                     id: Id)
    requires ValidConfig(cfg) && Inv(cfg, st, false) && n < |st.read| && c < |st.clients|
    requires Settles(cfg, Next(cfg, st, Execute(n, DelLayer(st.clients[c].layer), [])), steps, c)
    ensures var cl, gone := st.clients[c], Next(cfg, st, Execute(n, DelLayer(st.clients[c].layer), []));
            Shown(Run(cfg, gone, steps).clients[c], id) == Due(cfg, gone.redis, cl, id)
            <==> Due(cfg, st.redis, cl, id).None?
                 || (View(cfg, Truth(st.redis, cl.layer, id), cl.zoom, cl.awaiting).Some?
                     && Lookup(cl.features, id).None? && !WillReposition(st, cl, id))
  {
    var cl := st.clients[c];
    assert WellFormedClient(cfg, st, cl) && ClientOk(cfg, st, cl, id, false)
        && QueueOk(cfg, st, cl.node, cl.layer, id, false);
    Unreported(cfg, st, n, DelLayer(cl.layer), c, id);
    SettlesWithoutBurst(cfg, Next(cfg, st, Execute(n, DelLayer(cl.layer), [])), steps, c, id);
    GoneExact(cfg, id, InFlight(st, cl, id), Truth(st.redis, cl.layer, id), Enriched(cfg, st.redis, id),
              cl.zoom, cl.subs, cl.awaiting, Lookup(cl.features, id));
  }

  /** HDEL, or DEL of a hash, in any reachable state, for an object that awaits no snapshot: however everything in
      flight arrives, the client ends with what the query returns exactly when it does not see the object or no enriched
      field has gone. */
  lemma {:induction false} HashDeletionSettlesExact(cfg: Config, st: Cluster, n: nat, cmd: Command, c: nat,
                                                    steps: seq<Step>, id: Id)
    requires ValidConfig(cfg) && Inv(cfg, st, true) && n < |st.read| && c < |st.clients|
    requires cmd.HDel? || cmd.DelObject?
    requires NoBurst(cfg, st.redis, st.clients[c], id)
    requires Settles(cfg, Next(cfg, st, Execute(n, cmd, [])), steps, c)
    ensures var after, cl := Run(cfg, Next(cfg, st, Execute(n, cmd, [])), steps), st.clients[c];
            Lookup(after.clients[c].features, id) == Lookup(Wanted(cfg, after, c), id) <==>
              Due(cfg, st.redis, cl, id).None? || Enriched(cfg, Apply(st.redis, cmd), id) == Enriched(cfg, st.redis, id)
  {
    var cl, st' := st.clients[c], Next(cfg, st, Execute(n, cmd, []));
    var truth, hash := Truth(st.redis, cl.layer, id), Enriched(cfg, st.redis, id);
    assert WellFormedClient(cfg, st, cl) && ClientOk(cfg, st, cl, id, true)
        && QueueOk(cfg, st, cl.node, cl.layer, id, true);
    NoBurstOfOwn(cfg, st, cl, id, st.redis);
    Unreported(cfg, st, n, cmd, c, id);
    SettlesWithoutBurst(cfg, st', steps, c, id);
    WantedAfter(cfg, st', steps, c, id);
    QueueLandsWhole(cfg, id, InFlight(st, cl, id), truth, hash, cl.zoom, cl.subs, cl.awaiting, Lookup(cl.features, id));
  }

  lemma QueueLandsWhole(cfg: Config, id: Id, q: seq<Op>, truth: Option<Pos>, hash: Attrs, z: nat, subs: set<Tile>,
                        awaiting: set<Tile>, slot: Option<Feature>)
    requires ValidConfig(cfg) && forall t :: t in subs ==> t.z == z
    requires Coherent(cfg, id, q, truth, hash, true) && SlotOk(cfg, q, truth, hash, z, subs, awaiting, slot, true)
    requires View(cfg, truth, z, awaiting).None?
    ensures DeliverAll(slot, q, subs) == Ideal(cfg, truth, hash, z, subs)
  {
    DeliverQueue(cfg, id, q, truth, hash, z, subs, awaiting, slot, true);
    Settled(cfg, truth, hash, z, subs, awaiting, DeliverAll(slot, q, subs), true);
  }

  /** The fields that have gone are forgotten: the client does not hold them, and nothing in flight brings them. */
  ghost predicate Forgotten(q: seq<Op>, subs: set<Tile>, slot: Option<Feature>, hash: Attrs, left: Attrs) {
    forall k :: k in hash && k !in left ==> k !in PropsOf(slot) && !FieldInFlight(q, subs, k)
  }

  predicate PartOf(left: Attrs, hash: Attrs) {
    forall k :: k in left ==> k in hash && hash[k] == left[k]
  }

  /** One field, when the burst runs without the fields that have gone and then what is still in flight arrives. */
  lemma FieldAfterDeletion(q: seq<Op>, subs: set<Tile>, slot: Option<Feature>, pos: Pos, hash: Attrs, left: Attrs,
                           k: string)
    requires forall i :: 0 <= i < |q| ==> !q[i].payload.Snapshot?
    requires PartOf(left, hash) && PropsOf(slot).Keys <= hash.Keys
    requires FieldOf(DeliverAll(Some(Feature(pos, hash)), q, subs), k) == Lookup(hash, k)
    ensures FieldOf(DeliverAll(Some(Feature(pos, PropsOf(slot) + left)), q, subs), k) == Lookup(left, k)
       <==> (k in hash && k !in left ==> k !in PropsOf(slot) && !FieldInFlight(q, subs, k))
  {
    LastSettlerDecides(q, subs, Some(Feature(pos, PropsOf(slot) + left)), Some(Feature(pos, hash)), k);
  }

  /** The burst of the member's tile runs after the deletion and after part of what was in flight. */
  lemma DeletionBeforeBurst(cfg: Config, id: Id, q: seq<Op>, pos: Pos, hash: Attrs, left: Attrs, z: nat,
                            subs: set<Tile>, slot: Option<Feature>)
    requires ValidConfig(cfg) && cfg.tileAt(z, pos) in subs && forall t :: t in subs ==> t.z == z
    requires Coherent(cfg, id, q, Some(pos), hash, true)
    requires PartOf(left, hash) && PropsOf(slot).Keys <= hash.Keys
    ensures DeliverAll(Touch(slot, Snapshot(id, pos, left)), q, subs) == Some(Feature(pos, left))
       <==> Forgotten(q, subs, slot, hash, left)
  {
    var bursted, right := Some(Feature(pos, PropsOf(slot) + left)), Some(Feature(pos, hash));
    DeliverQueue(cfg, id, q, Some(pos), hash, z, subs, {}, right, true);
    Settled(cfg, Some(pos), hash, z, subs, {}, DeliverAll(right, q, subs), true);
    LastMessageDecides(q, subs, bursted, right);
    forall k {
      FieldAfterDeletion(q, subs, slot, pos, hash, left, k);
    }
    SameFeature(DeliverAll(bursted, q, subs).value, pos, left);
  }

  lemma LeftOver(cfg: Config, r: Redis, cmd: Command, id: Id)
    requires cmd.HDel? || cmd.DelObject?
    ensures PartOf(Enriched(cfg, Apply(r, cmd), id), Enriched(cfg, r, id))
  {
  }

  /** If the object's tile still awaits its snapshot, what counts is what the client holds and what is in flight when
      that comes. */
  lemma {:induction false} HashDeletionBeforeBurstExact(cfg: Config, st: Cluster, n: nat, cmd: Command, c: nat,
                                                        before: seq<Step>, t: Tile, mid: Cluster, steps: seq<Step>,
                                                        id: Id)
    requires ValidConfig(cfg) && Inv(cfg, st, true) && n < |st.read| && c < |st.clients|
    requires cmd.HDel? || cmd.DelObject?
    requires Due(cfg, st.redis, st.clients[c], id).Some?
    requires t == cfg.tileAt(st.clients[c].zoom, Truth(st.redis, st.clients[c].layer, id).value)
    requires AtBurst(cfg, st, n, cmd, [], before, c, t, mid)
    requires Settles(cfg, Next(cfg, mid, RunSnapshot(c, t)), steps, c)
    ensures var after, cl := Run(cfg, Next(cfg, mid, RunSnapshot(c, t)), steps), mid.clients[c];
            Lookup(after.clients[c].features, id) == Lookup(Wanted(cfg, after, c), id) <==>
              Forgotten(InFlight(mid, cl, id), cl.subs, Lookup(cl.features, id), Enriched(cfg, st.redis, id),
                        Enriched(cfg, mid.redis, id))
  {
    var cl, st' := st.clients[c], Next(cfg, st, Execute(n, cmd, []));
    var truth, hash := Truth(st.redis, cl.layer, id), Enriched(cfg, st.redis, id);
    assert WellFormedClient(cfg, st, cl) && ClientOk(cfg, st, cl, id, true)
        && QueueOk(cfg, st, cl.node, cl.layer, id, true);
    Unreported(cfg, st, n, cmd, c, id);
    ArrivalsKeepAgreement(cfg, st', before, c, id, truth, hash, true);
    ArrivalsKeepFields(cfg, st', before, c, id, t, hash, hash.Keys);
    LeftOver(cfg, st.redis, cmd, id);
    BurstThenRest(cfg, mid, c, t, id, steps);
    DeletionBeforeBurst(cfg, id, InFlight(mid, mid.clients[c], id), truth.value, hash, Enriched(cfg, mid.redis, id),
                        cl.zoom, cl.subs, Lookup(mid.clients[c].features, id));
  }
}
