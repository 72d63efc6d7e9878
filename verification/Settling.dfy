/** What a client comes to show once everything in flight has arrived, whatever the order: bridges
    deliver in bus order, but snapshot bursts may run before, between or after those deliveries. */
module Settling {
  import opened Payloads
  import opened MemberTracking
  import opened RedisStore
  import opened Protocol

  /** A step by which something in flight arrives. */
  predicate Arrives(s: Step) {
    s.Bridge? || s.RunSnapshot?
  }

  /** The arrivals leave nothing in flight for the client. */
  ghost predicate Settles(cfg: Config, st: Cluster, steps: seq<Step>, c: nat) {
    && (forall s :: s in steps ==> Arrives(s))
    && var st' := Run(cfg, st, steps);
       c < |st'.clients| && Undelivered(st', st'.clients[c].node) == [] && st'.clients[c].awaiting == {}
  }

  /** What the client shows for an object. */
  function Shown(c: Client, id: Id): Option<Pos> {
    PosOf(Lookup(c.features, id))
  }

  /** What the client ought to show for it. */
  function Due(cfg: Config, r: Redis, c: Client, id: Id): Option<Pos> {
    View(cfg, Truth(r, c.layer, id), c.zoom, c.subs)
  }

  /** What is undelivered about an object of the client's set. */
  function InFlight(st: Cluster, c: Client, id: Id): seq<Op> {
    OpsAbout(Undelivered(st, c.node), c.layer, id)
  }

  function OutlookOf(cfg: Config, st: Cluster, c: Client, id: Id): Option<Pos> {
    Outlook(cfg, Truth(st.redis, c.layer, id), c.zoom, c.subs, c.awaiting, Lookup(c.features, id), InFlight(st, c, id))
  }

  ghost predicate CoherentFor(cfg: Config, st: Cluster, c: Client, id: Id) {
    QueueOk(cfg, st, c.node, c.layer, id, false)
  }

  // ---------- One arrival ----------

  /** A feature at the right place stays there. */
  lemma RightStaysRight(cfg: Config, id: Id, q: seq<Op>, truth: Option<Pos>, hash: Attrs, z: nat, subs: set<Tile>,
                        slot: Option<Feature>)
    requires ValidConfig(cfg)
    requires forall t :: t in subs ==> t.z == z
    requires Coherent(cfg, id, q, truth, hash, false)
    requires PosOf(slot) == truth == View(cfg, truth, z, subs)
    ensures PosOf(DeliverAll(slot, q, subs)) == truth
  {
    DeliverQueue(cfg, id, q, truth, hash, z, subs, {}, slot, false);
    Settled(cfg, truth, hash, z, subs, {}, DeliverAll(slot, q, subs), false);
  }

  /** The rest of a queue after at most one delivery. */
  predicate Shorter(q: seq<Op>, q': seq<Op>) {
    q' == q || (q != [] && q' == q[1..])
  }

  /** At most the head of the queue was delivered to the feature. */
  predicate WorkedOff(slot: Option<Feature>, q: seq<Op>, subs: set<Tile>, slot': Option<Feature>, q': seq<Op>) {
    (slot' == slot && q' == q) || (q != [] && slot' == Deliver(slot, q[0], subs) && q' == q[1..])
  }

  lemma BridgeArrives(cfg: Config, st: Cluster, n: nat, c: nat, id: Id)
    requires WellFormedCluster(cfg, st) && c < |st.clients| && n < |st.read| && st.read[n] < |st.bus|
    ensures var cl, st' := st.clients[c], BridgeNext(st, n);
            var q, q' := InFlight(st, cl, id), InFlight(st', st'.clients[c], id);
            && WellFormedCluster(cfg, st')
            && WorkedOff(Lookup(cl.features, id), q, cl.subs, Lookup(st'.clients[c].features, id), q')
  {
    var cl, e, st' := st.clients[c], st.bus[st.read[n]], BridgeNext(st, n);
    forall i | 0 <= i < |st'.clients| ensures WellFormedClient(cfg, st', st'.clients[i]) {
      assert WellFormedClient(cfg, st, st.clients[i]);
    }
    assert WellFormedClient(cfg, st, cl);
    BridgeAbout(cfg, st, n, cl.node, cl.layer, id);
    DeliverToMember(cl, e.msg, id);
    var q, q' := InFlight(st, cl, id), InFlight(st', st'.clients[c], id);
    if cl.node == n && e.origin != n && IsAbout(e.msg, cl.layer, id) {
      assert q[0] == Op(e.msg.tile, e.msg.payload) && q[1..] == q';
    } else {
      assert q == q';
    }
  }

  /** A client after the burst of one of its tiles. */
  function AfterBurst(cfg: Config, r: Redis, c: Client, t: Tile): Client {
    c.(awaiting := c.awaiting - {t}, features := SnapshotInto(cfg, r, c.layer, c.features, {t}))
  }

  /** A burst touches the objects on its tile and no others. */
  lemma BurstAt(cfg: Config, st: Cluster, c: Client, t: Tile, id: Id)
    ensures var truth := Truth(st.redis, c.layer, id);
            Lookup(AfterBurst(cfg, st.redis, c, t).features, id)
            == if Covers(cfg, truth, t)
               then Touch(Lookup(c.features, id), Snapshot(id, truth.value, Enriched(cfg, st.redis, id)))
               else Lookup(c.features, id)
  {
    var truth := Truth(st.redis, c.layer, id);
    SnapshotIntoAt(cfg, st.redis, c.layer, c.features, {t}, id);
    if Covers(cfg, truth, t) {
      assert InTiles(cfg, truth.value, {t});
    }
  }

  lemma BurstArrives(cfg: Config, st: Cluster, i: nat, t: Tile, c: nat, id: Id)
    requires ValidConfig(cfg) && WellFormedCluster(cfg, st) && c < |st.clients|
    requires i < |st.clients| && t in st.clients[i].awaiting
    ensures var st' := Next(cfg, st, RunSnapshot(i, t));
            && WellFormedCluster(cfg, st') && InFlight(st', st'.clients[c], id) == InFlight(st, st.clients[c], id)
            && st'.clients[c] == if i == c then AfterBurst(cfg, st.redis, st.clients[c], t) else st.clients[c]
  {
    var st' := Next(cfg, st, RunSnapshot(i, t));
    assert forall n :: Undelivered(st', n) == Undelivered(st, n);
    forall k | 0 <= k < |st'.clients| ensures WellFormedClient(cfg, st', st'.clients[k]) {
      assert WellFormedClient(cfg, st, st.clients[k]);
    }
  }

  /** What an arrival leaves alone. */
  ghost predicate Framed(st: Cluster, st': Cluster, c: nat) {
    && c < |st.clients| && |st'.clients| == |st.clients| && st'.redis == st.redis
    && st'.clients[c] == st.clients[c].(features := st'.clients[c].features, awaiting := st'.clients[c].awaiting)
    && st'.clients[c].awaiting <= st.clients[c].awaiting
  }

  lemma ArrivalFrame(cfg: Config, st: Cluster, s: Step, c: nat, id: Id)
    requires ValidConfig(cfg) && WellFormedCluster(cfg, st) && c < |st.clients| && Arrives(s)
    ensures var st' := Next(cfg, st, s);
            && WellFormedCluster(cfg, st') && Framed(st, st', c)
            && Shorter(InFlight(st, st.clients[c], id), InFlight(st', st'.clients[c], id))
  {
    match s
    case Bridge(n) =>
      if n < |st.read| && st.read[n] < |st.bus| {
        BridgeArrives(cfg, st, n, c, id);
      }
    case RunSnapshot(i, t) =>
      if i < |st.clients| && t in st.clients[i].awaiting {
        BurstArrives(cfg, st, i, t, c, id);
      }
    case _ =>
  }

  /** No burst that is still to come concerns the object. */
  predicate NoBurst(cfg: Config, r: Redis, c: Client, id: Id) {
    forall t :: t in c.awaiting ==> !Covers(cfg, Truth(r, c.layer, id), t)
  }

  /** For a client that awaits snapshots of its own tiles only, this is about the object's tile at its zoom. */
  lemma NoBurstOfOwn(cfg: Config, st: Cluster, c: Client, id: Id, r: Redis)
    requires ValidConfig(cfg) && WellFormedClient(cfg, st, c) && AwaitsOwn(c)
    ensures NoBurst(cfg, r, c, id) <==> View(cfg, Truth(r, c.layer, id), c.zoom, c.awaiting).None?
  {
    var truth := Truth(r, c.layer, id);
    if truth.Some? && cfg.tileAt(c.zoom, truth.value) in c.awaiting {
      assert Covers(cfg, truth, cfg.tileAt(c.zoom, truth.value));
    }
  }

  /** Then arrivals just work off the queue. */
  lemma ArrivalWorksOff(cfg: Config, st: Cluster, s: Step, c: nat, id: Id)
    requires ValidConfig(cfg) && WellFormedCluster(cfg, st) && c < |st.clients| && Arrives(s)
    requires NoBurst(cfg, st.redis, st.clients[c], id)
    ensures var cl, st' := st.clients[c], Next(cfg, st, s);
            && Framed(st, st', c)
            && DeliverAll(Lookup(st'.clients[c].features, id), InFlight(st', st'.clients[c], id), cl.subs)
               == DeliverAll(Lookup(cl.features, id), InFlight(st, cl, id), cl.subs)
  {
    ArrivalFrame(cfg, st, s, c, id);
    match s
    case Bridge(n) =>
      if n < |st.read| && st.read[n] < |st.bus| {
        BridgeArrives(cfg, st, n, c, id);
      }
    case RunSnapshot(i, t) =>
      if i < |st.clients| && t in st.clients[i].awaiting {
        BurstArrives(cfg, st, i, t, c, id);
        assert WellFormedClient(cfg, st, st.clients[c]);
        if i == c {
          BurstAt(cfg, st, st.clients[c], t, id);
        }
      }
    case _ =>
  }

  lemma ArrivalKeepsCoherent(cfg: Config, st: Cluster, s: Step, c: nat, id: Id)
    requires ValidConfig(cfg) && WellFormedCluster(cfg, st) && c < |st.clients| && Arrives(s)
    requires CoherentFor(cfg, st, st.clients[c], id)
    ensures Framed(st, Next(cfg, st, s), c) && CoherentFor(cfg, Next(cfg, st, s), Next(cfg, st, s).clients[c], id)
  {
    var cl := st.clients[c];
    var q := InFlight(st, cl, id);
    ArrivalFrame(cfg, st, s, c, id);
    if q != [] {
      CoherentTail(cfg, id, q, Truth(st.redis, cl.layer, id), Enriched(cfg, st.redis, id), false);
    }
  }

  /** The burst that concerns the object puts it where it belongs, and the agreeing queue leaves it there. */
  lemma BurstKeeps(cfg: Config, st: Cluster, t: Tile, c: nat, id: Id)
    requires ValidConfig(cfg) && WellFormedCluster(cfg, st) && c < |st.clients| && t in st.clients[c].awaiting
    requires CoherentFor(cfg, st, st.clients[c], id)
    requires AwaitsOwn(st.clients[c]) && Covers(cfg, Truth(st.redis, st.clients[c].layer, id), t)
    ensures var st' := Next(cfg, st, RunSnapshot(c, t));
            OutlookOf(cfg, st', st'.clients[c], id) == Truth(st.redis, st.clients[c].layer, id)
  {
    var cl, st' := st.clients[c], Next(cfg, st, RunSnapshot(c, t));
    assert WellFormedClient(cfg, st, cl);
    BurstArrives(cfg, st, c, t, c, id);
    BurstAt(cfg, st, cl, t, id);
    RightStaysRight(cfg, id, InFlight(st, cl, id), Truth(st.redis, cl.layer, id), Enriched(cfg, st.redis, id),
                    cl.zoom, cl.subs, Lookup(st'.clients[c].features, id));
  }

  lemma StillNoBurst(cfg: Config, r: Redis, c: Client, c': Client, id: Id)
    requires NoBurst(cfg, r, c, id) && c'.layer == c.layer && c'.zoom == c.zoom && c'.awaiting <= c.awaiting
    ensures NoBurst(cfg, r, c', id)
  {
  }

  /** While the queue agrees with Redis, an arrival changes nothing about what the client will come to show. */
  lemma ArrivalKeeps(cfg: Config, st: Cluster, s: Step, c: nat, id: Id)
    requires ValidConfig(cfg) && WellFormedCluster(cfg, st) && c < |st.clients| && Arrives(s)
    requires CoherentFor(cfg, st, st.clients[c], id) && AwaitsOwn(st.clients[c])
    ensures var st' := Next(cfg, st, s);
            Framed(st, st', c) && OutlookOf(cfg, st', st'.clients[c], id) == OutlookOf(cfg, st, st.clients[c], id)
  {
    ArrivalFrame(cfg, st, s, c, id);
    assert WellFormedClient(cfg, st, st.clients[c])
        && WellFormedClient(cfg, Next(cfg, st, s), Next(cfg, st, s).clients[c]);
    NoBurstOfOwn(cfg, st, st.clients[c], id, st.redis);
    NoBurstOfOwn(cfg, Next(cfg, st, s), Next(cfg, st, s).clients[c], id, st.redis);
    if NoBurst(cfg, st.redis, st.clients[c], id) {
      ArrivalWorksOff(cfg, st, s, c, id);
      StillNoBurst(cfg, st.redis, st.clients[c], Next(cfg, st, s).clients[c], id);
    } else if NoBurst(cfg, st.redis, Next(cfg, st, s).clients[c], id) {
      BurstKeeps(cfg, st, s.tile, c, id);
    }
  }

  // ---------- All arrivals ----------

  /** Whatever the order in which things arrive, the client comes to show the same. */
  lemma {:induction false} SettlesToOutlook(cfg: Config, st: Cluster, steps: seq<Step>, c: nat, id: Id)
    requires ValidConfig(cfg) && WellFormedCluster(cfg, st) && c < |st.clients|
    requires CoherentFor(cfg, st, st.clients[c], id) && AwaitsOwn(st.clients[c])
    requires Settles(cfg, st, steps, c)
    ensures Framed(st, Run(cfg, st, steps), c)
    ensures Shown(Run(cfg, st, steps).clients[c], id) == OutlookOf(cfg, st, st.clients[c], id)
    decreases |steps|
  {
    if steps == [] {
      assert st.clients[c].awaiting == {};
    } else {
      ArrivalFrame(cfg, st, steps[0], c, id);
      ArrivalKeepsCoherent(cfg, st, steps[0], c, id);
      ArrivalKeeps(cfg, st, steps[0], c, id);
      assert forall s :: s in steps[1..] ==> s in steps;
      SettlesToOutlook(cfg, Next(cfg, st, steps[0]), steps[1..], c, id);
    }
  }

  /** Without a burst for the object the queue alone decides, whether or not it agrees with Redis. */
  lemma {:induction false} SettlesWithoutBurst(cfg: Config, st: Cluster, steps: seq<Step>, c: nat, id: Id)
    requires ValidConfig(cfg) && WellFormedCluster(cfg, st) && c < |st.clients|
    requires NoBurst(cfg, st.redis, st.clients[c], id)
    requires Settles(cfg, st, steps, c)
    ensures Framed(st, Run(cfg, st, steps), c)
    ensures Lookup(Run(cfg, st, steps).clients[c].features, id)
         == DeliverAll(Lookup(st.clients[c].features, id), InFlight(st, st.clients[c], id), st.clients[c].subs)
    decreases |steps|
  {
    if steps != [] {
      ArrivalFrame(cfg, st, steps[0], c, id);
      ArrivalWorksOff(cfg, st, steps[0], c, id);
      assert forall s :: s in steps[1..] ==> s in steps;
      SettlesWithoutBurst(cfg, Next(cfg, st, steps[0]), steps[1..], c, id);
    }
  }

  /** Arrivals before the burst leave a shorter queue that agrees with what it agreed with. */
  lemma {:induction false} ArrivalsKeepAgreement(cfg: Config, st: Cluster, steps: seq<Step>, c: nat, id: Id,
                                                 truth: Option<Pos>, hash: Attrs, full: bool)
    requires ValidConfig(cfg) && WellFormedCluster(cfg, st) && c < |st.clients|
    requires forall s :: s in steps ==> Arrives(s)
    requires Coherent(cfg, id, InFlight(st, st.clients[c], id), truth, hash, full)
    ensures var st' := Run(cfg, st, steps);
            && WellFormedCluster(cfg, st') && Framed(st, st', c)
            && Coherent(cfg, id, InFlight(st', st'.clients[c], id), truth, hash, full)
    decreases |steps|
  {
    if steps != [] {
      ArrivalFrame(cfg, st, steps[0], c, id);
      if InFlight(st, st.clients[c], id) != [] {
        CoherentTail(cfg, id, InFlight(st, st.clients[c], id), truth, hash, full);
      }
      assert forall s :: s in steps[1..] ==> s in steps;
      ArrivalsKeepAgreement(cfg, Next(cfg, st, steps[0]), steps[1..], c, id, truth, hash, full);
    }
  }

  /** From every state there are arrivals that leave nothing in flight. */
  lemma {:induction false} SettlingExists(cfg: Config, st: Cluster, c: nat) returns (steps: seq<Step>)
    requires WellFormedCluster(cfg, st) && c < |st.clients|
    ensures Settles(cfg, st, steps, c)
    decreases |st.bus| - st.read[st.clients[c].node], st.clients[c].awaiting
  {
    var cl := st.clients[c];
    assert WellFormedClient(cfg, st, cl);
    if st.read[cl.node] < |st.bus| {
      var mid := Next(cfg, st, Bridge(cl.node));
      forall i | 0 <= i < |mid.clients| ensures WellFormedClient(cfg, mid, mid.clients[i]) {
        assert WellFormedClient(cfg, st, st.clients[i]);
      }
      steps := SettlingExists(cfg, mid, c);
      steps := PrependArrival(cfg, st, Bridge(cl.node), steps, c);
    } else if t :| t in cl.awaiting {
      var mid := Next(cfg, st, RunSnapshot(c, t));
      forall i | 0 <= i < |mid.clients| ensures WellFormedClient(cfg, mid, mid.clients[i]) {
        assert WellFormedClient(cfg, st, st.clients[i]);
      }
      steps := SettlingExists(cfg, mid, c);
      steps := PrependArrival(cfg, st, RunSnapshot(c, t), steps, c);
    } else {
      steps := [];
      assert st.bus[st.read[cl.node]..] == [];
    }
  }

  lemma PrependArrival(cfg: Config, st: Cluster, s: Step, steps: seq<Step>, c: nat) returns (all: seq<Step>)
    requires Arrives(s) && Settles(cfg, Next(cfg, st, s), steps, c)
    ensures Settles(cfg, st, all, c) && all == [s] + steps
  {
    all := [s] + steps;
    assert all[1..] == steps;
  }

  /** The view theorem for every order of arrivals: from any reachable state they lead to exactly what the query
      returns. */
  lemma {:induction false} EverySettlingAgrees(cfg: Config, st: Cluster, steps: seq<Step>, c: nat, full: bool)
    requires ValidConfig(cfg) && Inv(cfg, st, full)
    requires Settles(cfg, st, steps, c)
    ensures var st' := Run(cfg, st, steps);
            st'.redis == st.redis && Agrees(st'.clients[c].features, Wanted(cfg, st', c), full)
    decreases |steps|
  {
    if steps == [] {
      CaughtUp(cfg, st, c, full);
    } else {
      ArrivalKeepsInv(cfg, st, steps[0], full);
      assert forall s :: s in steps[1..] ==> s in steps;
      EverySettlingAgrees(cfg, Next(cfg, st, steps[0]), steps[1..], c, full);
    }
  }

  lemma ArrivalKeepsInv(cfg: Config, st: Cluster, s: Step, full: bool)
    requires ValidConfig(cfg) && Inv(cfg, st, full) && Arrives(s)
    ensures Inv(cfg, Next(cfg, st, s), full) && Next(cfg, st, s).redis == st.redis
  {
    match s
    case Bridge(n) =>
      if n < |st.read| {
        BridgeKeeps(cfg, st, n, full);
      }
    case RunSnapshot(i, t) =>
      if i < |st.clients| && t in st.clients[i].awaiting {
        SnapshotKeepsInv(cfg, st, i, t, full);
      }
    case _ =>
  }
}
