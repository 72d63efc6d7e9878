/** Snapshot bursts and viewport changes at any moment: messages may be in flight, and a tile may be dropped before its
    snapshot has come. For every order of arrival, exactly when the client comes right. */
module Viewports {
  import opened Payloads
  import opened MemberTracking
  import opened RedisStore
  import opened Protocol
  import opened Settling
  import opened Limits

  // ---------- A member that the client ought to see ----------

  /** Either the member's own snapshot is still to come, or what is in flight leaves it at its position. */
  ghost predicate Bound(cfg: Config, st: Cluster, c: Client, id: Id) {
    var truth := Truth(st.redis, c.layer, id);
    && Due(cfg, st.redis, c, id).Some?
    && CoherentFor(cfg, st, c, id)
    && (View(cfg, truth, c.zoom, c.awaiting).Some?
        || PosOf(DeliverAll(Lookup(c.features, id), InFlight(st, c, id), c.subs)) == truth)
  }

  /** Bursts of tiles the client no longer subscribes to included. */
  lemma BurstKeepsBound(cfg: Config, st: Cluster, i: nat, t: Tile, c: nat, id: Id)
    requires ValidConfig(cfg) && WellFormedCluster(cfg, st) && c < |st.clients|
    requires i < |st.clients| && t in st.clients[i].awaiting
    requires Bound(cfg, st, st.clients[c], id)
    ensures Bound(cfg, Next(cfg, st, RunSnapshot(i, t)), Next(cfg, st, RunSnapshot(i, t)).clients[c], id)
  {
    var cl, st' := st.clients[c], Next(cfg, st, RunSnapshot(i, t));
    var truth := Truth(st.redis, cl.layer, id);
    assert WellFormedClient(cfg, st, cl);
    BurstArrives(cfg, st, i, t, c, id);
    if i == c {
      BurstAt(cfg, st, cl, t, id);
      if Covers(cfg, truth, t) {
        RightStaysRight(cfg, id, InFlight(st, cl, id), truth, Enriched(cfg, st.redis, id), cl.zoom, cl.subs,
                        Lookup(st'.clients[c].features, id));
      } else {
        assert t != cfg.tileAt(cl.zoom, truth.value);
      }
    }
  }

  lemma ArrivalKeepsBound(cfg: Config, st: Cluster, s: Step, c: nat, id: Id)
    requires ValidConfig(cfg) && WellFormedCluster(cfg, st) && c < |st.clients| && Arrives(s)
    requires Bound(cfg, st, st.clients[c], id)
    ensures Framed(st, Next(cfg, st, s), c) && Bound(cfg, Next(cfg, st, s), Next(cfg, st, s).clients[c], id)
  {
    ArrivalFrame(cfg, st, s, c, id);
    ArrivalKeepsCoherent(cfg, st, s, c, id);
    match s
    case Bridge(n) =>
      if n < |st.read| && st.read[n] < |st.bus| {
        BridgeArrives(cfg, st, n, c, id);
        assert BridgeNext(st, n).clients[c].awaiting == st.clients[c].awaiting;
      }
    case RunSnapshot(i, t) =>
      if i < |st.clients| && t in st.clients[i].awaiting {
        BurstKeepsBound(cfg, st, i, t, c, id);
      }
    case _ =>
  }

  /** Then the client comes to show it where it is, whatever the order of arrival. */
  lemma {:induction false} BoundSettles(cfg: Config, st: Cluster, steps: seq<Step>, c: nat, id: Id)
    requires ValidConfig(cfg) && WellFormedCluster(cfg, st) && c < |st.clients|
    requires Bound(cfg, st, st.clients[c], id) && Settles(cfg, st, steps, c)
    ensures |Run(cfg, st, steps).clients| == |st.clients|
    ensures Shown(Run(cfg, st, steps).clients[c], id) == Due(cfg, st.redis, st.clients[c], id)
    decreases |steps|
  {
    if steps == [] {
      assert st.clients[c].awaiting == {} && InFlight(st, st.clients[c], id) == [];
    } else {
      ArrivalFrame(cfg, st, steps[0], c, id);
      ArrivalKeepsBound(cfg, st, steps[0], c, id);
      assert forall s :: s in steps[1..] ==> s in steps;
      BoundSettles(cfg, Next(cfg, st, steps[0]), steps[1..], c, id);
    }
  }

  /** A feature that owes nothing the queue does not pay ends right, unless its tile awaits a snapshot. */
  lemma QueueLands(cfg: Config, id: Id, q: seq<Op>, truth: Option<Pos>, hash: Attrs, z: nat, subs: set<Tile>,
                   awaiting: set<Tile>, slot: Option<Feature>)
    requires ValidConfig(cfg)
    requires forall t :: t in subs ==> t.z == z
    requires Coherent(cfg, id, q, truth, hash, false) && SlotOk(cfg, q, truth, hash, z, subs, awaiting, slot, false)
    ensures View(cfg, truth, z, awaiting).None? ==> PosOf(DeliverAll(slot, q, subs)) == View(cfg, truth, z, subs)
  {
    DeliverQueue(cfg, id, q, truth, hash, z, subs, awaiting, slot, false);
    Settled(cfg, truth, hash, z, subs, awaiting, DeliverAll(slot, q, subs), false);
  }

  // ---------- A burst out of turn ----------

  /** The state after a snapshot burst of any tile for one client, asked for or not. */
  function Burst(cfg: Config, st: Cluster, c: nat, t: Tile): Cluster
    requires c < |st.clients|
  {
    st.(clients := st.clients[c := AfterBurst(cfg, st.redis, st.clients[c], t)])
  }

  lemma BurstFacts(cfg: Config, st: Cluster, c: nat, t: Tile, id: Id)
    requires ValidConfig(cfg) && WellFormedCluster(cfg, st) && c < |st.clients|
    ensures var st' := Burst(cfg, st, c, t);
            && WellFormedCluster(cfg, st') && InFlight(st', st'.clients[c], id) == InFlight(st, st.clients[c], id)
  {
    var st' := Burst(cfg, st, c, t);
    assert Undelivered(st', st.clients[c].node) == Undelivered(st, st.clients[c].node);
    forall k | 0 <= k < |st'.clients| ensures WellFormedClient(cfg, st', st'.clients[k]) {
      assert WellFormedClient(cfg, st, st.clients[k]);
    }
  }

  /** A burst for a tile of whatever zoom, subscribed or not, at any moment of any allowed run. However the rest
      arrives, the client ends up right about an object exactly when the object is not on that tile, or is on a tile
      the client subscribes to, or something then in flight takes it off again. */
  lemma {:induction false} LateSnapshotExact(cfg: Config, st: Cluster, c: nat, t: Tile, steps: seq<Step>, id: Id)
    requires ValidConfig(cfg) && Inv(cfg, st, false) && c < |st.clients|
    requires Settles(cfg, Burst(cfg, st, c, t), steps, c)
    ensures var after, cl := Run(cfg, Burst(cfg, st, c, t), steps), st.clients[c];
            Shown(after.clients[c], id) == Due(cfg, st.redis, cl, id)
            <==> !Covers(cfg, Truth(st.redis, cl.layer, id), t) || Due(cfg, st.redis, cl, id).Some?
                 || WillReposition(st, cl, id)
  {
    assert WellFormedClient(cfg, st, st.clients[c]);
    BurstFacts(cfg, st, c, t, id);
    if Due(cfg, st.redis, st.clients[c], id).Some? {
      BurstLeavesBound(cfg, st, c, t, id);
      BoundSettles(cfg, Burst(cfg, st, c, t), steps, c, id);
    } else {
      UnseenBurstSettles(cfg, st, c, t, steps, id);
    }
  }

  lemma UnseenBurstSettles(cfg: Config, st: Cluster, c: nat, t: Tile, steps: seq<Step>, id: Id)
    requires ValidConfig(cfg) && Inv(cfg, st, false) && c < |st.clients|
    requires Due(cfg, st.redis, st.clients[c], id).None?
    requires Settles(cfg, Burst(cfg, st, c, t), steps, c)
    ensures var after, cl := Run(cfg, Burst(cfg, st, c, t), steps), st.clients[c];
            Shown(after.clients[c], id).None?
            <==> !Covers(cfg, Truth(st.redis, cl.layer, id), t) || WillReposition(st, cl, id)
  {
    var cl, st' := st.clients[c], Burst(cfg, st, c, t);
    var truth, hash, q := Truth(st.redis, cl.layer, id), Enriched(cfg, st.redis, id), InFlight(st, cl, id);
    assert WellFormedClient(cfg, st, cl) && ClientOk(cfg, st, cl, id, false)
        && QueueOk(cfg, st, cl.node, cl.layer, id, false);
    BurstFacts(cfg, st, c, t, id);
    BurstAt(cfg, st, cl, t, id);
    NoBurstOfOwn(cfg, st, cl, id, st.redis);
    SettlesWithoutBurst(cfg, st', steps, c, id);
    if Covers(cfg, truth, t) {
      UnseenAfterZoom(cfg, id, q, truth, hash, cl.zoom, cl.subs, Lookup(st'.clients[c].features, id));
    } else {
      QueueLands(cfg, id, q, truth, hash, cl.zoom, cl.subs, cl.awaiting, Lookup(cl.features, id));
    }
  }

  lemma BurstLeavesBound(cfg: Config, st: Cluster, c: nat, t: Tile, id: Id)
    requires ValidConfig(cfg) && Inv(cfg, st, false) && c < |st.clients|
    requires Due(cfg, st.redis, st.clients[c], id).Some?
    ensures Bound(cfg, Burst(cfg, st, c, t), Burst(cfg, st, c, t).clients[c], id)
  {
    var cl, st' := st.clients[c], Burst(cfg, st, c, t);
    var truth, hash, q := Truth(st.redis, cl.layer, id), Enriched(cfg, st.redis, id), InFlight(st, cl, id);
    assert WellFormedClient(cfg, st, cl) && ClientOk(cfg, st, cl, id, false)
        && QueueOk(cfg, st, cl.node, cl.layer, id, false);
    BurstFacts(cfg, st, c, t, id);
    BurstAt(cfg, st, cl, t, id);
    if Covers(cfg, truth, t) {
      RightStaysRight(cfg, id, q, truth, hash, cl.zoom, cl.subs, Lookup(st'.clients[c].features, id));
    } else {
      QueueLands(cfg, id, q, truth, hash, cl.zoom, cl.subs, cl.awaiting, Lookup(cl.features, id));
      assert t != cfg.tileAt(cl.zoom, truth.value);
    }
  }

  // ---------- Viewport changes ----------

  /** The client after the change, member by member. */
  lemma Looked(cfg: Config, st: Cluster, c: nat, zoom: nat, tiles: set<Tile>, id: Id)
    requires ValidConfig(cfg) && Inv(cfg, st, false) && c < |st.clients|
    requires zoom in cfg.zooms && forall t :: t in tiles ==> t.z == zoom
    ensures var st' := Next(cfg, st, SetViewport(c, zoom, tiles));
            var cl, cl' := st.clients[c], st'.clients[c];
            && WellFormedCluster(cfg, st') && InFlight(st', cl', id) == InFlight(st, cl, id)
            && CoherentFor(cfg, st', cl', id)
            && cl' == cl.(zoom := zoom, subs := tiles, awaiting := cl.awaiting + (tiles - cl.subs),
                          features := cl'.features)
            && Lookup(cl'.features, id) == Evict(cfg, Lookup(cl.features, id), zoom, tiles)
  {
    var cl, st' := st.clients[c], Next(cfg, st, SetViewport(c, zoom, tiles));
    assert WellFormedClient(cfg, st, cl) && ClientOk(cfg, st, cl, id, false)
        && QueueOk(cfg, st, cl.node, cl.layer, id, false);
    assert Undelivered(st', cl.node) == Undelivered(st, cl.node);
    forall k | 0 <= k < |st'.clients| ensures WellFormedClient(cfg, st', st'.clients[k]) {
      assert WellFormedClient(cfg, st, st.clients[k]);
    }
    if cl.subs - tiles == {} && Lookup(cl.features, id).Some? {
      var u := cfg.tileAt(cl.zoom, Lookup(cl.features, id).value.pos);
      assert u in cl.subs && u !in cl.subs - tiles;
    }
  }

  /** A member that is visible afterwards is bound to come right. */
  lemma VisibleIsBound(cfg: Config, st: Cluster, c: nat, zoom: nat, tiles: set<Tile>, id: Id)
    requires ValidConfig(cfg) && Inv(cfg, st, false) && c < |st.clients|
    requires zoom in cfg.zooms && forall t :: t in tiles ==> t.z == zoom
    requires View(cfg, Truth(st.redis, st.clients[c].layer, id), zoom, tiles).Some?
    ensures var st' := Next(cfg, st, SetViewport(c, zoom, tiles)); Bound(cfg, st', st'.clients[c], id)
  {
    var cl := st.clients[c];
    var truth, hash, q := Truth(st.redis, cl.layer, id), Enriched(cfg, st.redis, id), InFlight(st, cl, id);
    Looked(cfg, st, c, zoom, tiles, id);
    if zoom == cl.zoom {
      SameZoomLands(cfg, st, c, tiles, id);
    } else {
      assert WellFormedClient(cfg, st, cl);
      assert cfg.tileAt(zoom, truth.value) in tiles - cl.subs;
    }
  }

  /** At the same zoom the queue still lands the member, unless its tile awaits a snapshot. */
  lemma SameZoomLands(cfg: Config, st: Cluster, c: nat, tiles: set<Tile>, id: Id)
    requires ValidConfig(cfg) && Inv(cfg, st, false) && c < |st.clients|
    requires forall t :: t in tiles ==> t.z == st.clients[c].zoom
    ensures var cl := st.clients[c];
            var truth := Truth(st.redis, cl.layer, id);
            View(cfg, truth, cl.zoom, cl.awaiting + (tiles - cl.subs)).None? ==>
            PosOf(DeliverAll(Evict(cfg, Lookup(cl.features, id), cl.zoom, tiles), InFlight(st, cl, id), tiles))
            == View(cfg, truth, cl.zoom, tiles)
  {
    var cl := st.clients[c];
    var truth, hash, q := Truth(st.redis, cl.layer, id), Enriched(cfg, st.redis, id), InFlight(st, cl, id);
    assert ClientOk(cfg, st, cl, id, false) && QueueOk(cfg, st, cl.node, cl.layer, id, false);
    ViewportKeeps(cfg, id, q, truth, hash, cl.zoom, cl.subs, cl.awaiting, Lookup(cl.features, id), false, tiles);
    QueueLands(cfg, id, q, truth, hash, cl.zoom, tiles, cl.awaiting + (tiles - cl.subs),
               Evict(cfg, Lookup(cl.features, id), cl.zoom, tiles));
  }

  /** The state in which the burst of one of the client's tiles runs, or the last one if it does not. */
  function WhenBurstRuns(cfg: Config, st: Cluster, steps: seq<Step>, c: nat, t: Tile): Cluster
    decreases |steps|
  {
    if steps == [] || steps[0] == RunSnapshot(c, t) then st
    else WhenBurstRuns(cfg, Next(cfg, st, steps[0]), steps[1..], c, t)
  }

  /** The member is on no subscribed tile, but one dropped tile still brings its snapshot: what counts is what is in
      flight when that comes. */
  lemma {:induction false} DroppedSettles(cfg: Config, st: Cluster, steps: seq<Step>, c: nat, t: Tile, id: Id)
    requires ValidConfig(cfg) && WellFormedCluster(cfg, st) && c < |st.clients|
    requires CoherentFor(cfg, st, st.clients[c], id) && Due(cfg, st.redis, st.clients[c], id).None?
    requires t in st.clients[c].awaiting && Covers(cfg, Truth(st.redis, st.clients[c].layer, id), t)
    requires forall u :: u in st.clients[c].awaiting && u != t ==>
        !Covers(cfg, Truth(st.redis, st.clients[c].layer, id), u)
    requires Settles(cfg, st, steps, c)
    ensures |Run(cfg, st, steps).clients| == |st.clients|
    ensures var mid := WhenBurstRuns(cfg, st, steps, c, t);
            c < |mid.clients|
            && (Shown(Run(cfg, st, steps).clients[c], id).None? <==> WillReposition(mid, mid.clients[c], id))
    decreases |steps|
  {
    var cl := st.clients[c];
    var truth := Truth(st.redis, cl.layer, id);
    assert steps != [];
    assert forall s :: s in steps[1..] ==> s in steps;
    var mid := Next(cfg, st, steps[0]);
    if steps[0] == RunSnapshot(c, t) {
      assert WellFormedClient(cfg, st, cl);
      BurstArrives(cfg, st, c, t, c, id);
      BurstAt(cfg, st, cl, t, id);
      SettlesWithoutBurst(cfg, mid, steps[1..], c, id);
      UnseenAfterZoom(cfg, id, InFlight(st, cl, id), truth, Enriched(cfg, st.redis, id), cl.zoom, cl.subs,
                      Lookup(mid.clients[c].features, id));
    } else {
      ArrivalFrame(cfg, st, steps[0], c, id);
      ArrivalKeepsCoherent(cfg, st, steps[0], c, id);
      StillAwaited(cfg, st, steps[0], c, t);
      DroppedSettles(cfg, mid, steps[1..], c, t, id);
    }
  }

  lemma StillAwaited(cfg: Config, st: Cluster, s: Step, c: nat, t: Tile)
    requires c < |st.clients| && t in st.clients[c].awaiting && Arrives(s) && s != RunSnapshot(c, t)
    ensures c < |Next(cfg, st, s).clients| && t in Next(cfg, st, s).clients[c].awaiting
  {
  }

  /** The client's old tile of the member still awaits its snapshot and is dropped. */
  predicate Drops(cfg: Config, r: Redis, c: Client, id: Id, tiles: set<Tile>) {
    View(cfg, Truth(r, c.layer, id), c.zoom, c.awaiting - tiles).Some?
  }

  /** What takes an object off the map that is on none of the new tiles. If a tile with its snapshot still to come was
      dropped, it is a message in flight when that snapshot comes; else eviction, or a message in flight at the
      change. */
  ghost predicate Clears(cfg: Config, st: Cluster, c: nat, zoom: nat, tiles: set<Tile>, steps: seq<Step>, id: Id)
    requires c < |st.clients|
  {
    var cl, truth := st.clients[c], Truth(st.redis, st.clients[c].layer, id);
    if Drops(cfg, st.redis, cl, id, tiles) then
      var mid := WhenBurstRuns(cfg, Next(cfg, st, SetViewport(c, zoom, tiles)), steps, c,
                               cfg.tileAt(cl.zoom, truth.value));
      c < |mid.clients| && WillReposition(mid, mid.clients[c], id)
    else
      || zoom == cl.zoom
      || Evict(cfg, Lookup(cl.features, id), zoom, tiles).None?
      || Repositions(InFlight(st, cl, id), tiles)
  }

  /** Any viewport change in any allowed run, whatever is in flight and whatever tiles are dropped: for any order of
      bursts and deliveries the client ends up right about an object exactly when the object is visible, or something
      clears it away. */
  lemma {:induction false} ViewportChangeExact(cfg: Config, st: Cluster, c: nat, zoom: nat, tiles: set<Tile>,
                                               steps: seq<Step>, id: Id)
    requires ValidConfig(cfg) && Inv(cfg, st, false) && c < |st.clients|
    requires zoom in cfg.zooms && forall t :: t in tiles ==> t.z == zoom
    requires Settles(cfg, Next(cfg, st, SetViewport(c, zoom, tiles)), steps, c)
    ensures var looked := Next(cfg, st, SetViewport(c, zoom, tiles));
            var due := Due(cfg, st.redis, looked.clients[c], id);
            Shown(Run(cfg, looked, steps).clients[c], id) == due
            <==> due.Some? || Clears(cfg, st, c, zoom, tiles, steps, id)
  {
    var cl, looked := st.clients[c], Next(cfg, st, SetViewport(c, zoom, tiles));
    var truth := Truth(st.redis, cl.layer, id);
    assert WellFormedClient(cfg, st, cl);
    Looked(cfg, st, c, zoom, tiles, id);
    if View(cfg, truth, zoom, tiles).Some? {
      VisibleIsBound(cfg, st, c, zoom, tiles, id);
      BoundSettles(cfg, looked, steps, c, id);
    } else if Drops(cfg, st.redis, cl, id, tiles) {
      DroppedSettles(cfg, looked, steps, c, cfg.tileAt(cl.zoom, truth.value), id);
    } else {
      UnseenSettles(cfg, st, c, zoom, tiles, steps, id);
    }
  }

  lemma UnseenSettles(cfg: Config, st: Cluster, c: nat, zoom: nat, tiles: set<Tile>, steps: seq<Step>, id: Id)
    requires ValidConfig(cfg) && Inv(cfg, st, false) && c < |st.clients|
    requires zoom in cfg.zooms && forall t :: t in tiles ==> t.z == zoom
    requires Settles(cfg, Next(cfg, st, SetViewport(c, zoom, tiles)), steps, c)
    requires View(cfg, Truth(st.redis, st.clients[c].layer, id), zoom, tiles).None?
    requires !Drops(cfg, st.redis, st.clients[c], id, tiles)
    ensures var looked, cl := Next(cfg, st, SetViewport(c, zoom, tiles)), st.clients[c];
            && |Run(cfg, looked, steps).clients| == |st.clients|
            && (Shown(Run(cfg, looked, steps).clients[c], id).None? <==>
                zoom == cl.zoom || Evict(cfg, Lookup(cl.features, id), zoom, tiles).None?
                || Repositions(InFlight(st, cl, id), tiles))
  {
    var cl, looked := st.clients[c], Next(cfg, st, SetViewport(c, zoom, tiles));
    var truth, hash, q := Truth(st.redis, cl.layer, id), Enriched(cfg, st.redis, id), InFlight(st, cl, id);
    assert WellFormedClient(cfg, st, cl) && QueueOk(cfg, st, cl.node, cl.layer, id, false);
    Looked(cfg, st, c, zoom, tiles, id);
    assert NoBurst(cfg, st.redis, looked.clients[c], id) by {
      if truth.Some? {
        assert cfg.tileAt(cl.zoom, truth.value) !in cl.awaiting && cfg.tileAt(zoom, truth.value) !in tiles;
      }
    }
    SettlesWithoutBurst(cfg, looked, steps, c, id);
    if zoom == cl.zoom {
      SameZoomLands(cfg, st, c, tiles, id);
    } else {
      UnseenAfterZoom(cfg, id, q, truth, hash, zoom, tiles, Evict(cfg, Lookup(cl.features, id), zoom, tiles));
    }
  }
}
