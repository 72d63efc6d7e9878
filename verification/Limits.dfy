/** Where the protocol's promises end: for each precondition of the main theorem, exactly
    when a step that ignores it still leaves the client right. */
module Limits {
  import opened Payloads
  import opened MemberTracking
  import opened RedisStore
  import opened Protocol
  import opened Settling

  // ---------- Writes that overtake ----------

  /** Whether an undelivered message will reposition the member on a tile the client subscribes to. */
  ghost predicate WillReposition(st: Cluster, c: Client, id: Id) {
    Repositions(InFlight(st, c, id), c.subs)
  }

  /** A command at the client's own node is delivered at once; what was in flight still is. */
  lemma LocalDelivery(cfg: Config, st: Cluster, n: nat, cmd: Command, order: seq<string>, c: nat, id: Id)
    requires WellFormedCluster(cfg, st) && n < |st.read| && c < |st.clients| && st.clients[c].node == n
    ensures var st' := Next(cfg, st, Execute(n, cmd, order));
            var cl := st.clients[c];
            && WellFormedCluster(cfg, st') && |st'.clients| == |st.clients|
            && st'.clients[c] == cl.(features := st'.clients[c].features)
            && InFlight(st', st'.clients[c], id) == InFlight(st, cl, id)
            && Lookup(st'.clients[c].features, id)
               == DeliverAll(Lookup(cl.features, id), OpsAbout(MessagesOf(cfg, st.redis, cmd, order), cl.layer, id),
                             cl.subs)
  {
    var ms := MessagesOf(cfg, st.redis, cmd, order);
    DeliverAllToMember(st.clients[c], ms, id);
    UndeliveredAfterPublish(cfg, st, n, ms, n);
    assert Undelivered(Next(cfg, st, Execute(n, cmd, order)), n) == Undelivered(Publish(st, n, ms), n)
         == Undelivered(st, n);
    AfterExecuteWellFormed(cfg, st, n, cmd, order);
  }

  function Moved(cmd: Command): Option<Pos> {
    if cmd.GeoAdd? then Some(cmd.pos) else None
  }

  lemma UpdateDelivered(cfg: Config, st: Cluster, n: nat, cmd: Command, c: nat)
    requires ValidConfig(cfg) && WellFormedCluster(cfg, st) && n < |st.read| && (cmd.GeoAdd? || cmd.ZRem?)
    requires c < |st.clients| && st.clients[c].node == n && st.clients[c].layer == cmd.layer
    ensures var st' := Next(cfg, st, Execute(n, cmd, []));
            var cl := st.clients[c];
            var b := UpdateOps(cfg, cmd.id, Truth(st.redis, cl.layer, cmd.id), Moved(cmd),
                               Enriched(cfg, st.redis, cmd.id));
            && WellFormedCluster(cfg, st') && |st'.clients| == |st.clients|
            && st'.clients[c] == cl.(features := st'.clients[c].features)
            && InFlight(st', st'.clients[c], cmd.id) == InFlight(st, cl, cmd.id)
            && Truth(st'.redis, cl.layer, cmd.id) == Moved(cmd)
            && Lookup(st'.clients[c].features, cmd.id) == DeliverAll(Lookup(cl.features, cmd.id), b, cl.subs)
  {
    LocalDelivery(cfg, st, n, cmd, [], c, cmd.id);
    FanoutAbout(cfg, st.redis, cmd, [], cmd.layer, cmd.id);
  }

  /** A node delivers its own GEOADD or ZREM to its clients at once, ahead of what other nodes published
      earlier. However the rest arrives, the client ends up right exactly when nothing in flight repositions
      the member for it, or the command changes nothing it can see. */
  lemma {:induction false} OvertakingWriteExact(cfg: Config, st: Cluster, n: nat, cmd: Command, c: nat,
                                                steps: seq<Step>)
    requires ValidConfig(cfg) && Inv(cfg, st, false) && n < |st.read| && (cmd.GeoAdd? || cmd.ZRem?)
    requires c < |st.clients| && st.clients[c].node == n && st.clients[c].layer == cmd.layer
    requires NoBurst(cfg, Apply(st.redis, cmd), st.clients[c], cmd.id)
    requires Settles(cfg, Next(cfg, st, Execute(n, cmd, [])), steps, c)
    ensures var after := Run(cfg, Next(cfg, st, Execute(n, cmd, [])), steps);
            var cl, r' := st.clients[c], Apply(st.redis, cmd);
            Shown(after.clients[c], cmd.id) == Due(cfg, r', cl, cmd.id)
            <==> !WillReposition(st, cl, cmd.id) || Due(cfg, st.redis, cl, cmd.id) == Due(cfg, r', cl, cmd.id)
  {
    var cl, id := st.clients[c], cmd.id;
    assert WellFormedClient(cfg, st, cl) && ClientOk(cfg, st, cl, id, false)
        && QueueOk(cfg, st, n, cl.layer, id, false);
    UpdateDelivered(cfg, st, n, cmd, c);
    SettlesWithoutBurst(cfg, Next(cfg, st, Execute(n, cmd, [])), steps, c, id);
    LocalWriteExact(cfg, id, InFlight(st, cl, id), Truth(st.redis, cl.layer, id), Moved(cmd),
                    Enriched(cfg, st.redis, id),
                    cl.zoom, cl.subs, cl.awaiting, Lookup(cl.features, id));
  }

  /** The state when the burst of a tile is about to run, some time after a local command. */
  ghost predicate AtBurst(cfg: Config, st: Cluster, n: nat, cmd: Command, order: seq<string>, before: seq<Step>, c: nat,
                          t: Tile, mid: Cluster)
  {
    && (forall s :: s in before ==> Arrives(s))
    && mid == Run(cfg, Next(cfg, st, Execute(n, cmd, order)), before)
    && c < |mid.clients| && t in mid.clients[c].awaiting
  }

  /** A feature stays where it is exactly when what is in flight does not reposition it, or does so to the same
      place. */
  lemma StaysExact(cfg: Config, id: Id, q: seq<Op>, truth: Option<Pos>, hash: Attrs, z: nat, subs: set<Tile>,
                   slot: Option<Feature>)
    requires ValidConfig(cfg)
    requires forall t :: t in subs ==> t.z == z
    requires Coherent(cfg, id, q, truth, hash, false)
    ensures PosOf(DeliverAll(slot, q, subs)) == PosOf(slot)
       <==> !Repositions(q, subs) || View(cfg, truth, z, subs) == PosOf(slot)
  {
    if Repositions(q, subs) {
      RepositioningLands(cfg, id, q, truth, hash, z, subs, slot);
    } else {
      LastMessageDecides(q, subs, slot, slot);
    }
  }

  /** After the burst the member is at its position, and stays there under the condition above. */
  lemma BurstThenStays(cfg: Config, mid: Cluster, c: nat, t: Tile, id: Id, was: Option<Pos>, hash: Attrs,
                       steps: seq<Step>)
    requires ValidConfig(cfg) && WellFormedCluster(cfg, mid) && c < |mid.clients| && t in mid.clients[c].awaiting
    requires AwaitsOwn(mid.clients[c]) && Covers(cfg, Truth(mid.redis, mid.clients[c].layer, id), t)
    requires Coherent(cfg, id, InFlight(mid, mid.clients[c], id), was, hash, false)
    requires Settles(cfg, Next(cfg, mid, RunSnapshot(c, t)), steps, c)
    ensures var after, cl := Run(cfg, Next(cfg, mid, RunSnapshot(c, t)), steps), mid.clients[c];
            Shown(after.clients[c], id) == Truth(mid.redis, cl.layer, id)
            <==> !WillReposition(mid, cl, id) || View(cfg, was, cl.zoom, cl.subs) == Truth(mid.redis, cl.layer, id)
  {
    var cl, bursted := mid.clients[c], Next(cfg, mid, RunSnapshot(c, t));
    assert WellFormedClient(cfg, mid, cl);
    BurstArrives(cfg, mid, c, t, c, id);
    BurstAt(cfg, mid, cl, t, id);
    assert NoBurst(cfg, bursted.redis, bursted.clients[c], id);
    SettlesWithoutBurst(cfg, bursted, steps, c, id);
    StaysExact(cfg, id, InFlight(mid, cl, id), was, hash, cl.zoom, cl.subs, Lookup(bursted.clients[c].features, id));
  }

  /** If the member's new tile still awaits its burst, what counts is what is in flight when the burst runs: the client
      ends up right exactly when nothing then repositions the member for it, or it did not move for the client. */
  lemma {:induction false} OvertakingWriteBeforeBurstExact(cfg: Config, st: Cluster, n: nat, layer: string, id: Id,
                                                           pos: Pos, c: nat, before: seq<Step>, t: Tile, mid: Cluster,
                                                           steps: seq<Step>)
    requires ValidConfig(cfg) && Inv(cfg, st, false) && n < |st.read|
    requires c < |st.clients| && st.clients[c].node == n && st.clients[c].layer == layer
    requires t == cfg.tileAt(st.clients[c].zoom, pos)
    requires AtBurst(cfg, st, n, GeoAdd(layer, id, pos), [], before, c, t, mid)
    requires Settles(cfg, Next(cfg, mid, RunSnapshot(c, t)), steps, c)
    ensures var after := Run(cfg, Next(cfg, mid, RunSnapshot(c, t)), steps);
            Shown(after.clients[c], id) == Some(pos)
            <==> !WillReposition(mid, mid.clients[c], id) || Due(cfg, st.redis, st.clients[c], id) == Some(pos)
  {
    var cl, cmd := st.clients[c], GeoAdd(layer, id, pos);
    var was, hash := Truth(st.redis, layer, id), Enriched(cfg, st.redis, id);
    assert WellFormedClient(cfg, st, cl) && QueueOk(cfg, st, n, layer, id, false);
    UpdateDelivered(cfg, st, n, cmd, c);
    ArrivalsKeepAgreement(cfg, Next(cfg, st, Execute(n, cmd, [])), before, c, id, was, hash, false);
    BurstThenStays(cfg, mid, c, t, id, was, hash, steps);
  }

  // ---------- Snapshot bursts ----------

  /** The client is up to date: it shows what the query returns. */
  ghost predicate UpToDate(cfg: Config, r: Redis, c: Client, full: bool) {
    Agrees(c.features, Query(cfg, r, c.layer, c.subs), full)
  }

  /** Two maps agree exactly when they agree on every object. */
  lemma AgreeByMember(f: map<Id, Feature>, g: map<Id, Feature>, full: bool)
    ensures Agrees(f, g, full)
       <==> forall id :: PosOf(Lookup(f, id)) == PosOf(Lookup(g, id)) && (full ==> Lookup(f, id) == Lookup(g, id))
  {
    if Agrees(f, g, full) {
      forall id ensures PosOf(Lookup(f, id)) == PosOf(Lookup(g, id)) {
        assert id in f.Keys <==> id in g.Keys;
      }
    }
    if forall id :: PosOf(Lookup(f, id)) == PosOf(Lookup(g, id)) && (full ==> Lookup(f, id) == Lookup(g, id)) {
      AgreeFromMembers(f, g, full);
    }
  }

  lemma QueryLookup(cfg: Config, r: Redis, layer: string, tiles: set<Tile>, id: Id)
    ensures Lookup(Query(cfg, r, layer, tiles), id)
         == if Truth(r, layer, id).Some? && InTiles(cfg, Truth(r, layer, id).value, tiles)
            then Some(Feature(Truth(r, layer, id).value, Enriched(cfg, r, id))) else None
  {
    if Truth(r, layer, id).Some? && InTiles(cfg, Truth(r, layer, id).value, tiles) {
      assert Key(layer, id) in r.geo;
    }
  }

  /** One object after a burst. */
  lemma BurstAgrees(cfg: Config, r: Redis, c: Client, t: Tile, id: Id)
    requires PosOf(Lookup(c.features, id)) == PosOf(Lookup(Query(cfg, r, c.layer, c.subs), id))
    ensures PosOf(Lookup(SnapshotInto(cfg, r, c.layer, c.features, {t}), id))
         == PosOf(Lookup(Query(cfg, r, c.layer, c.subs), id))
       <==> id !in MembersIn(cfg, r, c.layer, {t}) || id in MembersIn(cfg, r, c.layer, c.subs)
  {
    SnapshotIntoAt(cfg, r, c.layer, c.features, {t}, id);
    QueryLookup(cfg, r, c.layer, c.subs, id);
    MemberAt(cfg, r, c.layer, {t}, id);
    MemberAt(cfg, r, c.layer, c.subs, id);
  }

  lemma MemberAt(cfg: Config, r: Redis, layer: string, tiles: set<Tile>, id: Id)
    ensures id in MembersIn(cfg, r, layer, tiles)
       <==> Truth(r, layer, id).Some? && InTiles(cfg, Truth(r, layer, id).value, tiles)
  {
    if Truth(r, layer, id).Some? && InTiles(cfg, Truth(r, layer, id).value, tiles) {
      assert Key(layer, id) in r.geo;
    }
  }

  /** A snapshot burst for any tile, of whatever zoom and subscribed or not, keeps an up-to-date client right
      exactly when every member on that tile is on a tile the client subscribes to. */
  lemma {:induction false} UpToDateBurstExact(cfg: Config, r: Redis, c: Client, t: Tile)
    requires UpToDate(cfg, r, c, false)
    ensures UpToDate(cfg, r, c.(features := SnapshotInto(cfg, r, c.layer, c.features, {t})), false)
       <==> MembersIn(cfg, r, c.layer, {t}) <= MembersIn(cfg, r, c.layer, c.subs)
  {
    var after := SnapshotInto(cfg, r, c.layer, c.features, {t});
    var query := Query(cfg, r, c.layer, c.subs);
    AgreeByMember(c.features, query, false);
    AgreeByMember(after, query, false);
    forall id {
      BurstAgrees(cfg, r, c, t, id);
    }
  }

  // ---------- Zoom changes ----------

  /** A zoom change while messages about a member are in flight; the snapshot of the member's new tile, if it has one,
      arrives after some of them (`a`) and before the others (`b`). The client comes right exactly when the member is
      visible at the new zoom, or eviction dropped it, or something in flight takes it off the new tiles. */
  lemma ZoomChangeExact(cfg: Config, id: Id, a: seq<Op>, b: seq<Op>, truth: Option<Pos>, hash: Attrs,
                        zoom: nat, tiles: set<Tile>, slot: Option<Feature>)
    requires ValidConfig(cfg)
    requires Coherent(cfg, id, a + b, truth, hash, false)
    requires forall t :: t in tiles ==> t.z == zoom
    ensures var kept := Evict(cfg, slot, zoom, tiles);
            var first := DeliverAll(kept, a, tiles);
            var visible := View(cfg, truth, zoom, tiles).Some?;
            var final := DeliverAll(if visible then Touch(first, Snapshot(id, truth.value, hash)) else first, b, tiles);
            PosOf(final) == View(cfg, truth, zoom, tiles) <==> visible || kept.None? || Repositions(a + b, tiles)
  {
    var kept := Evict(cfg, slot, zoom, tiles);
    if View(cfg, truth, zoom, tiles).Some? {
      CoherentRest(cfg, id, a, b, truth, hash);
      RightStaysRight(cfg, id, b, truth, hash, zoom, tiles,
                      Touch(DeliverAll(kept, a, tiles), Snapshot(id, truth.value, hash)));
    } else {
      DeliverAllAppend(kept, a, b, tiles);
      UnseenAfterZoom(cfg, id, a + b, truth, hash, zoom, tiles, kept);
    }
  }

  lemma {:induction false} CoherentRest(cfg: Config, id: Id, a: seq<Op>, b: seq<Op>, truth: Option<Pos>, hash: Attrs)
    requires Coherent(cfg, id, a + b, truth, hash, false)
    ensures Coherent(cfg, id, b, truth, hash, false)
    decreases |a|
  {
    if a == [] {
      assert a + b == b;
    } else {
      CoherentTail(cfg, id, a + b, truth, hash, false);
      assert (a + b)[1..] == a[1..] + b;
      CoherentRest(cfg, id, a[1..], b, truth, hash);
    }
  }

  /** A member that is not visible goes away exactly when it is not held or something in flight takes it off. */
  lemma UnseenAfterZoom(cfg: Config, id: Id, q: seq<Op>, truth: Option<Pos>, hash: Attrs, zoom: nat, tiles: set<Tile>,
                        kept: Option<Feature>)
    requires ValidConfig(cfg)
    requires Coherent(cfg, id, q, truth, hash, false)
    requires forall t :: t in tiles ==> t.z == zoom
    requires View(cfg, truth, zoom, tiles).None?
    ensures PosOf(DeliverAll(kept, q, tiles)).None? <==> kept.None? || Repositions(q, tiles)
  {
    StaysExact(cfg, id, q, truth, hash, zoom, tiles, kept);
    if Repositions(q, tiles) {
      RepositioningLands(cfg, id, q, truth, hash, zoom, tiles, kept);
    }
  }
}
