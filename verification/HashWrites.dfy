/** Where attribute reports end: exactly when an HSET that overtakes undelivered messages leaves the client right. */
module HashWrites {
  import opened Payloads
  import opened MemberTracking
  import opened RedisStore
  import opened Protocol
  import opened Settling
  import opened Limits

  /** The message decides a field of the feature it names, whatever that was before. */
  predicate Decides(p: TilePayload, k: string) {
    p.Remove? || ((p.Add? || p.Attr?) && k in p.attrs)
  }

  /** Some undelivered message will decide the field on a subscribed tile. */
  ghost predicate FieldInFlight(q: seq<Op>, subs: set<Tile>, k: string) {
    exists i :: 0 <= i < |q| && q[i].tile in subs && Decides(q[i].payload, k)
  }

  function FieldOf(slot: Option<Feature>, k: string): Option<string> {
    Lookup(PropsOf(slot), k)
  }

  lemma FieldStep(o: Op, subs: set<Tile>, a: Option<Feature>, b: Option<Feature>, k: string)
    requires a.Some? == b.Some? && !o.payload.Snapshot?
    ensures Deliver(a, o, subs).Some? == Deliver(b, o, subs).Some?
    ensures FieldOf(a, k) == FieldOf(b, k) || (o.tile in subs && Decides(o.payload, k)) ==>
      FieldOf(Deliver(a, o, subs), k) == FieldOf(Deliver(b, o, subs), k)
    ensures !(o.tile in subs && Decides(o.payload, k)) && a.Some? ==>
      Deliver(a, o, subs).Some? && FieldOf(Deliver(a, o, subs), k) == FieldOf(a, k)
  {
  }

  lemma InFlightTail(q: seq<Op>, subs: set<Tile>, k: string)
    requires q != []
    ensures FieldInFlight(q, subs, k)
       <==> (q[0].tile in subs && Decides(q[0].payload, k)) || FieldInFlight(q[1..], subs, k)
  {
    if FieldInFlight(q, subs, k) && !(q[0].tile in subs && Decides(q[0].payload, k)) {
      var i :| 0 <= i < |q| && q[i].tile in subs && Decides(q[i].payload, k);
      assert q[1..][i - 1] == q[i];
    }
    if FieldInFlight(q[1..], subs, k) {
      var i :| 0 <= i < |q[1..]| && q[1..][i].tile in subs && Decides(q[1..][i].payload, k);
      assert q[i + 1] == q[1..][i];
    }
  }

  /** The last message that decides a field counts; without one the field stays. */
  lemma {:induction false} LastSettlerDecides(q: seq<Op>, subs: set<Tile>, a: Option<Feature>, b: Option<Feature>,
                                              k: string)
    requires a.Some? == b.Some?
    requires forall i :: 0 <= i < |q| ==> !q[i].payload.Snapshot?
    ensures DeliverAll(a, q, subs).Some? == DeliverAll(b, q, subs).Some?
    ensures FieldInFlight(q, subs, k) || FieldOf(a, k) == FieldOf(b, k) ==>
      FieldOf(DeliverAll(a, q, subs), k) == FieldOf(DeliverAll(b, q, subs), k)
    ensures !FieldInFlight(q, subs, k) && a.Some? ==> FieldOf(DeliverAll(a, q, subs), k) == FieldOf(a, k)
    decreases |q|
  {
    if q != [] {
      InFlightTail(q, subs, k);
      FieldStep(q[0], subs, a, b, k);
      LastSettlerDecides(q[1..], subs, Deliver(a, q[0], subs), Deliver(b, q[0], subs), k);
    }
  }

  function WithFields(slot: Option<Feature>, delta: Attrs): Option<Feature> {
    if slot.None? then None else Some(Feature(slot.value.pos, slot.value.props + delta))
  }

  /** What the `attr` messages of an HSET do to the client's feature. */
  lemma {:induction false} AttrsApplied(cfg: Config, zooms: seq<nat>, id: Id, pos: Pos, delta: Attrs,
                                        z: nat, subs: set<Tile>, slot: Option<Feature>)
    requires ValidConfig(cfg)
    requires forall t :: t in subs ==> t.z == z
    ensures DeliverAll(slot, AttrOps(cfg, zooms, id, pos, delta), subs)
         == if z in zooms && cfg.tileAt(z, pos) in subs then WithFields(slot, delta) else slot
    decreases |zooms|
  {
    if zooms != [] {
      var ops := AttrOps(cfg, zooms, id, pos, delta);
      assert ops[1..] == AttrOps(cfg, zooms[1..], id, pos, delta);
      AttrsApplied(cfg, zooms[1..], id, pos, delta, z, subs, Deliver(slot, ops[0], subs));
      assert slot.Some? ==> slot.value.props + delta + delta == slot.value.props + delta;
    }
  }

  /** The fields that are written anew are safe: nothing in flight settles them, and the client holds the feature. */
  ghost predicate ChangedFieldsSafe(q: seq<Op>, subs: set<Tile>, slot: Option<Feature>, hash: Attrs, delta: Attrs) {
    forall k :: k in delta && Lookup(hash, k) != Some(delta[k]) ==> slot.Some? && !FieldInFlight(q, subs, k)
  }

  lemma SameFeature(f: Feature, pos: Pos, attrs: Attrs)
    ensures f == Feature(pos, attrs) <==> f.pos == pos && forall k :: Lookup(f.props, k) == Lookup(attrs, k)
  {
    if forall k :: Lookup(f.props, k) == Lookup(attrs, k) {
      assert forall k :: k in f.props <==> Lookup(f.props, k).Some?;
      assert forall k :: k in attrs <==> Lookup(attrs, k).Some?;
      forall k | k in f.props ensures k in attrs && f.props[k] == attrs[k] {
        assert Lookup(f.props, k) == Lookup(attrs, k);
      }
      forall k | k in attrs ensures k in f.props {
        assert Lookup(f.props, k) == Lookup(attrs, k);
      }
      assert f.props == attrs;
    }
  }

  /** One field, after the local HSET and all that was in flight. */
  lemma FieldAfter(q: seq<Op>, subs: set<Tile>, slot: Option<Feature>, hash: Attrs, delta: Attrs, k: string)
    requires forall i :: 0 <= i < |q| ==> !q[i].payload.Snapshot?
    requires FieldOf(DeliverAll(slot, q, subs), k) == Lookup(hash, k)
    ensures FieldOf(DeliverAll(WithFields(slot, delta), q, subs), k) == Lookup(hash + delta, k)
       <==> (k in delta && Lookup(hash, k) != Some(delta[k]) ==> slot.Some? && !FieldInFlight(q, subs, k))
  {
    LastSettlerDecides(q, subs, WithFields(slot, delta), slot, k);
  }

  /** One member that a client sees on a tile whose burst has run. Once what is in flight has arrived, the
      client has the new hash exactly when every field that really changes is safe. */
  lemma HashWriteExact(cfg: Config, id: Id, q: seq<Op>, pos: Pos, hash: Attrs, delta: Attrs,
                       z: nat, subs: set<Tile>, awaiting: set<Tile>, slot: Option<Feature>)
    requires ValidConfig(cfg) && z in cfg.zooms && cfg.tileAt(z, pos) in subs - awaiting
    requires forall t :: t in subs ==> t.z == z
    requires Coherent(cfg, id, q, Some(pos), hash, true)
    requires SlotOk(cfg, q, Some(pos), hash, z, subs, awaiting, slot, true)
    ensures DeliverAll(DeliverAll(slot, AttrOps(cfg, cfg.zooms, id, pos, delta), subs), q, subs)
         == Some(Feature(pos, hash + delta))
       <==> ChangedFieldsSafe(q, subs, slot, hash, delta)
  {
    AttrsApplied(cfg, cfg.zooms, id, pos, delta, z, subs, slot);
    DeliverQueue(cfg, id, q, Some(pos), hash, z, subs, awaiting, slot, true);
    Settled(cfg, Some(pos), hash, z, subs, awaiting, DeliverAll(slot, q, subs), true);
    var after := DeliverAll(WithFields(slot, delta), q, subs);
    LastMessageDecides(q, subs, WithFields(slot, delta), slot);
    forall k {
      FieldAfter(q, subs, slot, hash, delta, k);
    }
    SameFeature(after.value, pos, hash + delta);
  }

  /** One member that the client does not see: whatever is sent about its fields, it stays away. */
  lemma UnseenHashWrite(cfg: Config, id: Id, q: seq<Op>, truth: Option<Pos>, hash: Attrs, b: seq<Op>,
                        z: nat, subs: set<Tile>, awaiting: set<Tile>, slot: Option<Feature>)
    requires ValidConfig(cfg)
    requires forall t :: t in subs ==> t.z == z
    requires Coherent(cfg, id, q, truth, hash, true)
    requires SlotOk(cfg, q, truth, hash, z, subs, awaiting, slot, true)
    requires View(cfg, truth, z, subs).None?
    requires forall i :: 0 <= i < |b| ==> b[i].payload.Attr?
    ensures DeliverAll(DeliverAll(slot, b, subs), q, subs) == None
  {
    DeliverQueue(cfg, id, q, truth, hash, z, subs, awaiting, slot, true);
    Settled(cfg, truth, hash, z, subs, awaiting, DeliverAll(slot, q, subs), true);
    LastMessageDecides(b, subs, slot, slot);
    LastMessageDecides(q, subs, DeliverAll(slot, b, subs), slot);
  }

  /** The fields that are written anew are safe once the burst has run: nothing in flight settles them. */
  ghost predicate ChangedFieldsUntouched(q: seq<Op>, subs: set<Tile>, hash: Attrs, delta: Attrs) {
    forall k :: k in delta && Lookup(hash, k) != Some(delta[k]) ==> !FieldInFlight(q, subs, k)
  }

  /** One field, when the burst runs with the new hash and then what is still in flight arrives. */
  lemma FieldAfterBurst(q: seq<Op>, subs: set<Tile>, bursted: Option<Feature>, right: Option<Feature>, hash: Attrs,
                        delta: Attrs, k: string)
    requires forall i :: 0 <= i < |q| ==> !q[i].payload.Snapshot?
    requires bursted.Some? && right.Some?
    requires FieldOf(bursted, k) == Lookup(hash + delta, k) && FieldOf(right, k) == Lookup(hash, k)
    requires FieldOf(DeliverAll(right, q, subs), k) == Lookup(hash, k)
    ensures FieldOf(DeliverAll(bursted, q, subs), k) == Lookup(hash + delta, k)
       <==> (k in delta && Lookup(hash, k) != Some(delta[k]) ==> !FieldInFlight(q, subs, k))
  {
    LastSettlerDecides(q, subs, bursted, right, k);
  }

  /** The burst of the member's tile runs after the HSET and after part of what was in flight. */
  lemma HashWriteBeforeBurstExact(cfg: Config, id: Id, q: seq<Op>, pos: Pos, hash: Attrs, delta: Attrs,
                                  z: nat, subs: set<Tile>, slot: Option<Feature>)
    requires ValidConfig(cfg) && cfg.tileAt(z, pos) in subs
    requires forall t :: t in subs ==> t.z == z
    requires Coherent(cfg, id, q, Some(pos), hash, true)
    requires PropsOf(slot).Keys <= (hash + delta).Keys
    ensures DeliverAll(Touch(slot, Snapshot(id, pos, hash + delta)), q, subs) == Some(Feature(pos, hash + delta))
       <==> ChangedFieldsUntouched(q, subs, hash, delta)
  {
    var bursted, right := Touch(slot, Snapshot(id, pos, hash + delta)), Some(Feature(pos, hash));
    assert PropsOf(slot) + (hash + delta) == hash + delta;
    DeliverQueue(cfg, id, q, Some(pos), hash, z, subs, {}, right, true);
    Settled(cfg, Some(pos), hash, z, subs, {}, DeliverAll(right, q, subs), true);
    LastMessageDecides(q, subs, bursted, right);
    var after := DeliverAll(bursted, q, subs);
    forall k {
      FieldAfterBurst(q, subs, bursted, right, hash, delta, k);
    }
    SameFeature(after.value, pos, hash + delta);
  }

  // ---------- In the cluster ----------

  lemma EnrichedAfter(cfg: Config, r: Redis, id: Id, fields: Attrs)
    ensures Enriched(cfg, Apply(r, HSet(id, fields)), id) == Enriched(cfg, r, id) + Restrict(fields, cfg.enrich)
  {
  }

  /** The messages about the object that an HSET publishes in the client's set. */
  function HashOps(cfg: Config, r: Redis, layer: string, id: Id, fields: Attrs): seq<Op> {
    if Truth(r, layer, id).None? then []
    else AttrOps(cfg, cfg.zooms, id, Truth(r, layer, id).value, Restrict(fields, cfg.enrich))
  }

  /** The feature after the local delivery of an HSET, with everything else as before. */
  lemma HashWriteDelivered(cfg: Config, st: Cluster, n: nat, id: Id, fields: Attrs, order: seq<string>, c: nat)
    requires ValidConfig(cfg) && WellFormedCluster(cfg, st) && IndexCovers(st.redis) && n < |st.read|
    requires Lists(order, LayersOf(st.redis, id))
    requires c < |st.clients| && st.clients[c].node == n
    ensures var st' := Next(cfg, st, Execute(n, HSet(id, fields), order));
            var cl := st.clients[c];
            && WellFormedCluster(cfg, st') && |st'.clients| == |st.clients|
            && st'.clients[c] == cl.(features := st'.clients[c].features)
            && InFlight(st', st'.clients[c], id) == InFlight(st, cl, id)
            && Lookup(st'.clients[c].features, id)
               == DeliverAll(Lookup(cl.features, id), HashOps(cfg, st.redis, cl.layer, id, fields), cl.subs)
  {
    var cl, cmd := st.clients[c], HSet(id, fields);
    var delta := Restrict(fields, cfg.enrich);
    assert WellFormedClient(cfg, st, cl);
    LocalDelivery(cfg, st, n, cmd, order, c, id);
    FanoutAbout(cfg, st.redis, cmd, order, cl.layer, id);
    if Truth(st.redis, cl.layer, id).Some? {
      assert Key(cl.layer, id) in st.redis.geo;
      if delta == map[] {
        NothingApplied(cfg, id, Truth(st.redis, cl.layer, id).value, cl.zoom, cl.subs, Lookup(cl.features, id));
      }
    }
  }

  lemma NothingApplied(cfg: Config, id: Id, pos: Pos, z: nat, subs: set<Tile>, slot: Option<Feature>)
    requires ValidConfig(cfg)
    requires forall t :: t in subs ==> t.z == z
    ensures DeliverAll(slot, AttrOps(cfg, cfg.zooms, id, pos, map[]), subs) == slot
  {
    AttrsApplied(cfg, cfg.zooms, id, pos, map[], z, subs, slot);
    assert slot.Some? ==> slot.value.props + map[] == slot.value.props;
  }

  /** An HSET at a node with undelivered messages about the object. However those arrive, any client of the node
      ends up with what the query returns exactly when it does not see the object or every field that really
      changes is safe. */
  lemma {:induction false} OvertakingHashWriteExact(cfg: Config, st: Cluster, n: nat, id: Id, fields: Attrs,
                                                    order: seq<string>, c: nat, steps: seq<Step>)
    requires ValidConfig(cfg) && Inv(cfg, st, true) && n < |st.read|
    requires Lists(order, LayersOf(st.redis, id))
    requires c < |st.clients| && st.clients[c].node == n && NoBurst(cfg, st.redis, st.clients[c], id)
    requires Settles(cfg, Next(cfg, st, Execute(n, HSet(id, fields), order)), steps, c)
    ensures var after := Run(cfg, Next(cfg, st, Execute(n, HSet(id, fields), order)), steps);
            var cl := st.clients[c];
            Lookup(after.clients[c].features, id) == Lookup(Wanted(cfg, after, c), id) <==>
              Due(cfg, st.redis, cl, id).None? ||
              ChangedFieldsSafe(InFlight(st, cl, id), cl.subs, Lookup(cl.features, id), Enriched(cfg, st.redis, id),
                                Restrict(fields, cfg.enrich))
  {
    var cl, st' := st.clients[c], Next(cfg, st, Execute(n, HSet(id, fields), order));
    var truth, hash := Truth(st.redis, cl.layer, id), Enriched(cfg, st.redis, id);
    assert WellFormedClient(cfg, st, cl) && ClientOk(cfg, st, cl, id, true) && QueueOk(cfg, st, n, cl.layer, id, true);
    HashWriteDelivered(cfg, st, n, id, fields, order, c);
    SettlesWithoutBurst(cfg, st', steps, c, id);
    WantedAfter(cfg, st', steps, c, id);
    EnrichedAfter(cfg, st.redis, id, fields);
    if Due(cfg, st.redis, cl, id).None? {
      UnseenHashWrite(cfg, id, InFlight(st, cl, id), truth, hash, HashOps(cfg, st.redis, cl.layer, id, fields),
                      cl.zoom, cl.subs, cl.awaiting, Lookup(cl.features, id));
    } else {
      HashWriteExact(cfg, id, InFlight(st, cl, id), truth.value, hash, Restrict(fields, cfg.enrich),
                     cl.zoom, cl.subs, cl.awaiting, Lookup(cl.features, id));
    }
  }

  /** What the query returns for one object after arrivals. */
  lemma WantedAfter(cfg: Config, st: Cluster, steps: seq<Step>, c: nat, id: Id)
    requires ValidConfig(cfg) && WellFormedCluster(cfg, st) && c < |st.clients|
    requires forall s :: s in steps ==> Arrives(s)
    ensures var after := Run(cfg, st, steps);
            && c < |after.clients|
            && Lookup(Wanted(cfg, after, c), id)
               == Ideal(cfg, Truth(st.redis, st.clients[c].layer, id), Enriched(cfg, st.redis, id), st.clients[c].zoom,
                        st.clients[c].subs)
  {
    ArrivalsFrame(cfg, st, steps, c, id);
    var after := Run(cfg, st, steps);
    assert WellFormedClient(cfg, after, after.clients[c]);
    QueryAt(cfg, after, after.clients[c], id);
  }

  lemma {:induction false} ArrivalsFrame(cfg: Config, st: Cluster, steps: seq<Step>, c: nat, id: Id)
    requires ValidConfig(cfg) && WellFormedCluster(cfg, st) && c < |st.clients|
    requires forall s :: s in steps ==> Arrives(s)
    ensures WellFormedCluster(cfg, Run(cfg, st, steps)) && Framed(st, Run(cfg, st, steps), c)
    decreases |steps|
  {
    if steps != [] {
      ArrivalFrame(cfg, st, steps[0], c, id);
      assert forall s :: s in steps[1..] ==> s in steps;
      ArrivalsFrame(cfg, Next(cfg, st, steps[0]), steps[1..], c, id);
    }
  }

  /** While the object's own burst is still to come, the client's feature has no fields but those of its hash. */
  lemma {:induction false} ArrivalsKeepFields(cfg: Config, st: Cluster, steps: seq<Step>, c: nat, id: Id, t: Tile,
                                              hash: Attrs, keys: set<string>)
    requires ValidConfig(cfg) && WellFormedCluster(cfg, st) && c < |st.clients|
    requires forall s :: s in steps ==> Arrives(s)
    requires AwaitsOwn(st.clients[c]) && Truth(st.redis, st.clients[c].layer, id).Some?
    requires t == cfg.tileAt(st.clients[c].zoom, Truth(st.redis, st.clients[c].layer, id).value)
    requires c < |Run(cfg, st, steps).clients| && t in Run(cfg, st, steps).clients[c].awaiting
    requires Coherent(cfg, id, InFlight(st, st.clients[c], id), Truth(st.redis, st.clients[c].layer, id), hash, true)
    requires hash.Keys <= keys && PropsOf(Lookup(st.clients[c].features, id)).Keys <= keys
    ensures PropsOf(Lookup(Run(cfg, st, steps).clients[c].features, id)).Keys <= keys
    decreases |steps|
  {
    if steps != [] {
      var mid := Next(cfg, st, steps[0]);
      assert forall s :: s in steps[1..] ==> s in steps;
      ArrivalFrame(cfg, st, steps[0], c, id);
      ArrivalsFrame(cfg, mid, steps[1..], c, id);
      if InFlight(st, st.clients[c], id) != [] {
        CoherentTail(cfg, id, InFlight(st, st.clients[c], id), Truth(st.redis, st.clients[c].layer, id), hash, true);
      }
      ArrivalKeepsFields(cfg, st, steps[0], c, id, t, hash, keys);
      ArrivalsKeepFields(cfg, mid, steps[1..], c, id, t, hash, keys);
    }
  }

  lemma ArrivalKeepsFields(cfg: Config, st: Cluster, s: Step, c: nat, id: Id, t: Tile, hash: Attrs, keys: set<string>)
    requires ValidConfig(cfg) && WellFormedCluster(cfg, st) && c < |st.clients| && Arrives(s)
    requires AwaitsOwn(st.clients[c]) && Truth(st.redis, st.clients[c].layer, id).Some?
    requires t == cfg.tileAt(st.clients[c].zoom, Truth(st.redis, st.clients[c].layer, id).value)
    requires c < |Next(cfg, st, s).clients| && t in Next(cfg, st, s).clients[c].awaiting
    requires Coherent(cfg, id, InFlight(st, st.clients[c], id), Truth(st.redis, st.clients[c].layer, id), hash, true)
    requires hash.Keys <= keys && PropsOf(Lookup(st.clients[c].features, id)).Keys <= keys
    ensures PropsOf(Lookup(Next(cfg, st, s).clients[c].features, id)).Keys <= keys
  {
    match s
    case Bridge(n) =>
      if n < |st.read| && st.read[n] < |st.bus| {
        BridgeArrives(cfg, st, n, c, id);
        var q := InFlight(st, st.clients[c], id);
        assert q != [] ==> WellFormed(cfg, id, hash, q[0], true);
      }
    case RunSnapshot(i, u) =>
      if i < |st.clients| && u in st.clients[i].awaiting {
        BurstArrives(cfg, st, i, u, c, id);
        assert WellFormedClient(cfg, st, st.clients[c]);
        if i == c {
          BurstAt(cfg, st, st.clients[c], u, id);
        }
      }
    case _ =>
  }

  /** If the object's tile still awaits its burst, what counts is what is in flight when the burst runs. */
  lemma {:induction false} OvertakingHashWriteBeforeBurstExact(cfg: Config, st: Cluster, n: nat, id: Id, fields: Attrs,
                                                               order: seq<string>, c: nat, before: seq<Step>, t: Tile,
                                                               mid: Cluster, steps: seq<Step>)
    requires ValidConfig(cfg) && Inv(cfg, st, true) && n < |st.read|
    requires Lists(order, LayersOf(st.redis, id))
    requires c < |st.clients| && st.clients[c].node == n
    requires Truth(st.redis, st.clients[c].layer, id).Some?
    requires t == cfg.tileAt(st.clients[c].zoom, Truth(st.redis, st.clients[c].layer, id).value)
    requires AtBurst(cfg, st, n, HSet(id, fields), order, before, c, t, mid)
    requires Settles(cfg, Next(cfg, mid, RunSnapshot(c, t)), steps, c)
    ensures var after := Run(cfg, Next(cfg, mid, RunSnapshot(c, t)), steps);
            Lookup(after.clients[c].features, id) == Lookup(Wanted(cfg, after, c), id) <==>
              ChangedFieldsUntouched(InFlight(mid, mid.clients[c], id), st.clients[c].subs, Enriched(cfg, st.redis, id),
                                     Restrict(fields, cfg.enrich))
  {
    var cl, st' := st.clients[c], Next(cfg, st, Execute(n, HSet(id, fields), order));
    var truth, hash, delta := Truth(st.redis, cl.layer, id), Enriched(cfg, st.redis, id), Restrict(fields, cfg.enrich);
    assert WellFormedClient(cfg, st, cl) && ClientOk(cfg, st, cl, id, true) && QueueOk(cfg, st, n, cl.layer, id, true);
    HashWriteDelivered(cfg, st, n, id, fields, order, c);
    AttrsApplied(cfg, cfg.zooms, id, truth.value, delta, cl.zoom, cl.subs, Lookup(cl.features, id));
    ArrivalsKeepAgreement(cfg, st', before, c, id, truth, hash, true);
    ArrivalsKeepFields(cfg, st', before, c, id, t, hash, (hash + delta).Keys);
    EnrichedAfter(cfg, st.redis, id, fields);
    BurstThenRest(cfg, mid, c, t, id, steps);
    HashWriteBeforeBurstExact(cfg, id, InFlight(mid, mid.clients[c], id), truth.value, hash, delta, cl.zoom, cl.subs,
                              Lookup(mid.clients[c].features, id));
  }

  /** The burst of the object's tile, and then whatever remains. */
  lemma BurstThenRest(cfg: Config, mid: Cluster, c: nat, t: Tile, id: Id, steps: seq<Step>)
    requires ValidConfig(cfg) && WellFormedCluster(cfg, mid) && c < |mid.clients| && t in mid.clients[c].awaiting
    requires AwaitsOwn(mid.clients[c]) && Truth(mid.redis, mid.clients[c].layer, id).Some?
    requires t == cfg.tileAt(mid.clients[c].zoom, Truth(mid.redis, mid.clients[c].layer, id).value)
    requires Settles(cfg, Next(cfg, mid, RunSnapshot(c, t)), steps, c)
    ensures var after := Run(cfg, Next(cfg, mid, RunSnapshot(c, t)), steps);
            var cl := mid.clients[c];
            var truth, hash := Truth(mid.redis, cl.layer, id), Enriched(cfg, mid.redis, id);
            && Lookup(after.clients[c].features, id)
               == DeliverAll(Touch(Lookup(cl.features, id), Snapshot(id, truth.value, hash)), InFlight(mid, cl, id),
                             cl.subs)
            && Lookup(Wanted(cfg, after, c), id) == Some(Feature(truth.value, hash))
  {
    assert WellFormedClient(cfg, mid, mid.clients[c]);
    BurstArrives(cfg, mid, c, t, c, id);
    BurstAt(cfg, mid, mid.clients[c], t, id);
    SettlesWithoutBurst(cfg, Next(cfg, mid, RunSnapshot(c, t)), steps, c, id);
    WantedAfter(cfg, Next(cfg, mid, RunSnapshot(c, t)), steps, c, id);
  }
}
