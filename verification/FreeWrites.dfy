/** Runs without any condition: every node writes when it likes. Where a client ends up is the place that was due just
    after the last write that counted for it, and a write does not count exactly when the client's own node makes it
    while something in flight still repositions the object. */
module FreeWrites {
  import opened Payloads
  import opened MemberTracking
  import opened RedisStore
  import opened Protocol
  import opened Settling
  import opened Limits

  /** Commands of any kind at any node, and arrivals. */
  predicate WritesAndArrivals(st: Cluster, steps: seq<Step>) {
    forall s :: s in steps ==> if s.Execute? then s.node < |st.read| else Arrives(s)
  }

  /** What the client will show if nothing more is written. */
  function Heading(cfg: Config, st: Cluster, c: Client, id: Id): Option<Pos> {
    PosOf(DeliverAll(Lookup(c.features, id), InFlight(st, c, id), c.subs))
  }

  /** The messages of a command about one object of a client's set. */
  function Said(cfg: Config, st: Cluster, s: Step, c: Client, id: Id): seq<Op>
    requires s.Execute?
  {
    OpsAbout(MessagesOf(cfg, st.redis, s.cmd, s.order), c.layer, id)
  }

  /** The step counts: a command that repositions the object for the client, or the burst of a tile with the object;
      but nothing counts that happens at the client's own node ahead of a message that repositions the object. */
  ghost predicate Counts(cfg: Config, st: Cluster, s: Step, c: nat, id: Id)
    requires c < |st.clients|
  {
    var cl := st.clients[c];
    match s
    case Execute(n, _, _) =>
      Repositions(Said(cfg, st, s, cl, id), cl.subs) && (n != cl.node || !WillReposition(st, cl, id))
    case RunSnapshot(i, t) =>
      i == c && t in cl.awaiting && Covers(cfg, Truth(st.redis, cl.layer, id), t) && !WillReposition(st, cl, id)
    case _ => false
  }

  /** The object's place on the client's map just after the last step that counted; `place` if none does. */
  ghost function LastCounted(cfg: Config, st: Cluster, steps: seq<Step>, c: nat, id: Id,
                             place: Option<Pos>): Option<Pos>
    decreases |steps|
  {
    if steps == [] || c >= |st.clients| then place
    else
      var st' := Next(cfg, st, steps[0]);
      LastCounted(cfg, st', steps[1..], c, id,
                  if Counts(cfg, st, steps[0], c, id) then Due(cfg, st'.redis, st.clients[c], id) else place)
  }

  // ---------- One command ----------

  lemma {:induction false} AttrsOnly(ms: seq<Message>, layer: string, id: Id)
    requires forall m :: m in ms && m.TileMsg? ==> m.payload.Attr?
    ensures forall i :: 0 <= i < |OpsAbout(ms, layer, id)| ==> OpsAbout(ms, layer, id)[i].payload.Attr?
  {
    if ms != [] {
      assert ms[0] in ms && forall m :: m in ms[1..] ==> m in ms;
      AttrsOnly(ms[1..], layer, id);
    }
  }

  lemma {:induction false} AttrMessages(cfg: Config, r: Redis, id: Id, delta: Attrs, order: seq<string>)
    ensures forall m :: m in AttrTileMessages(cfg, r, id, delta, order) ==> m.TileMsg? && m.payload.Attr?
  {
    if order != [] {
      AttrMessages(cfg, r, id, delta, order[1..]);
    }
  }

  /** A command that repositions the object puts it where it is due, whatever the client held. */
  lemma CommandLands(cfg: Config, r: Redis, cmd: Command, order: seq<string>, layer: string, id: Id, z: nat,
                     subs: set<Tile>, slot: Option<Feature>)
    requires ValidConfig(cfg) && forall t :: t in subs ==> t.z == z
    requires Repositions(OpsAbout(MessagesOf(cfg, r, cmd, order), layer, id), subs)
    ensures PosOf(DeliverAll(slot, OpsAbout(MessagesOf(cfg, r, cmd, order), layer, id), subs))
         == View(cfg, Truth(Apply(r, cmd), layer, id), z, subs)
  {
    if cmd.GeoAdd? || cmd.ZRem? {
      FanoutAbout(cfg, r, cmd, order, layer, id);
      UpdateOpsFacts(cfg, id, Truth(r, layer, id), Moved(cmd), Enriched(cfg, r, id), z, subs, {}, None, false);
      RepositioningLands(cfg, id, UpdateOps(cfg, id, Truth(r, layer, id), Moved(cmd), Enriched(cfg, r, id)), Moved(cmd),
                         Enriched(cfg, r, id), z, subs, slot);
    } else {
      OnlyUpdatesReposition(cfg, r, cmd, order, layer, id, subs);
    }
  }

  lemma OnlyUpdatesReposition(cfg: Config, r: Redis, cmd: Command, order: seq<string>, layer: string, id: Id,
                              subs: set<Tile>)
    requires !cmd.GeoAdd? && !cmd.ZRem?
    ensures !Repositions(OpsAbout(MessagesOf(cfg, r, cmd, order), layer, id), subs)
  {
    if cmd.HSet? {
      AttrMessages(cfg, r, cmd.id, Restrict(cmd.fields, cfg.enrich), order);
    }
    AttrsOnly(MessagesOf(cfg, r, cmd, order), layer, id);
  }

  /** A list of messages ahead of, or behind, what is in flight. */
  lemma Ahead(q: seq<Op>, b: seq<Op>, subs: set<Tile>, slot: Option<Feature>)
    ensures PosOf(DeliverAll(DeliverAll(slot, b, subs), q, subs))
         == if Repositions(q, subs) || !Repositions(b, subs) then PosOf(DeliverAll(slot, q, subs))
            else PosOf(DeliverAll(slot, b, subs))
    ensures PosOf(DeliverAll(slot, q + b, subs))
         == if Repositions(b, subs) then PosOf(DeliverAll(slot, b, subs)) else PosOf(DeliverAll(slot, q, subs))
  {
    var ahead, behind := DeliverAll(slot, b, subs), DeliverAll(slot, q, subs);
    DeliverAllAppend(slot, q, b, subs);
    LastMessageDecides(b, subs, slot, slot);
    if Repositions(q, subs) || !Repositions(b, subs) {
      LastMessageDecides(q, subs, ahead, slot);
    } else {
      LastMessageDecides(q, subs, ahead, ahead);
    }
    LastMessageDecides(b, subs, behind, if Repositions(b, subs) then slot else behind);
  }

  /** What a command does to the client and to what is in flight for it. */
  lemma CommandArrives(cfg: Config, st: Cluster, s: Step, c: nat, id: Id)
    requires WellFormedCluster(cfg, st) && c < |st.clients| && s.Execute? && s.node < |st.read|
    ensures var cl, st' := st.clients[c], Next(cfg, st, s);
            && WellFormedCluster(cfg, st') && |st'.clients| == |st.clients|
            && st'.clients[c] == cl.(features := st'.clients[c].features)
            && if s.node == cl.node
               then InFlight(st', st'.clients[c], id) == InFlight(st, cl, id)
                    && Lookup(st'.clients[c].features, id)
                       == DeliverAll(Lookup(cl.features, id), Said(cfg, st, s, cl, id), cl.subs)
               else InFlight(st', st'.clients[c], id) == InFlight(st, cl, id) + Said(cfg, st, s, cl, id)
                    && st'.clients[c] == cl
  {
    var cl, ms, st' := st.clients[c], MessagesOf(cfg, st.redis, s.cmd, s.order), Next(cfg, st, s);
    assert WellFormedClient(cfg, st, cl);
    if s.node == cl.node {
      LocalDelivery(cfg, st, s.node, s.cmd, s.order, c, id);
    } else {
      AfterExecuteWellFormed(cfg, st, s.node, s.cmd, s.order);
      UndeliveredAfterPublish(cfg, st, s.node, ms, cl.node);
      assert Undelivered(st', cl.node) == Undelivered(Publish(st, s.node, ms), cl.node);
      OpsAboutAppend(Undelivered(st, cl.node), ms, cl.layer, id);
    }
  }

  lemma CommandTurns(cfg: Config, st: Cluster, s: Step, c: nat, id: Id)
    requires ValidConfig(cfg) && WellFormedCluster(cfg, st) && c < |st.clients| && s.Execute? && s.node < |st.read|
    ensures var cl, st' := st.clients[c], Next(cfg, st, s);
            && |st'.clients| == |st.clients|
            && Heading(cfg, st', st'.clients[c], id)
               == if Counts(cfg, st, s, c, id) then Due(cfg, st'.redis, cl, id) else Heading(cfg, st, cl, id)
  {
    var cl := st.clients[c];
    assert WellFormedClient(cfg, st, cl);
    CommandArrives(cfg, st, s, c, id);
    Ahead(InFlight(st, cl, id), Said(cfg, st, s, cl, id), cl.subs, Lookup(cl.features, id));
    if Repositions(Said(cfg, st, s, cl, id), cl.subs) {
      CommandLands(cfg, st.redis, s.cmd, s.order, cl.layer, id, cl.zoom, cl.subs, Lookup(cl.features, id));
    }
  }

  // ---------- One arrival ----------

  /** A bridged message only moves from the queue to the map. */
  lemma BridgeTurns(cfg: Config, st: Cluster, n: nat, c: nat, id: Id)
    requires ValidConfig(cfg) && WellFormedCluster(cfg, st) && c < |st.clients|
    ensures var st' := Next(cfg, st, Bridge(n));
            && |st'.clients| == |st.clients|
              && Heading(cfg, st', st'.clients[c], id) == Heading(cfg, st, st.clients[c], id)
  {
    ArrivalFrame(cfg, st, Bridge(n), c, id);
    if n < |st.read| && st.read[n] < |st.bus| {
      BridgeArrives(cfg, st, n, c, id);
    }
  }

  lemma BurstTurns(cfg: Config, st: Cluster, i: nat, t: Tile, c: nat, id: Id)
    requires ValidConfig(cfg) && WellFormedCluster(cfg, st) && c < |st.clients| && AwaitsOwn(st.clients[c])
    ensures var cl, st', s := st.clients[c], Next(cfg, st, RunSnapshot(i, t)), RunSnapshot(i, t);
            && |st'.clients| == |st.clients|
            && Heading(cfg, st', st'.clients[c], id)
               == if Counts(cfg, st, s, c, id) then Due(cfg, st.redis, cl, id) else Heading(cfg, st, cl, id)
  {
    var cl, st' := st.clients[c], Next(cfg, st, RunSnapshot(i, t));
    assert WellFormedClient(cfg, st, cl);
    if i < |st.clients| && t in st.clients[i].awaiting {
      BurstArrives(cfg, st, i, t, c, id);
      if i == c {
        BurstAt(cfg, st, cl, t, id);
        var slot, slot' := Lookup(cl.features, id), Lookup(st'.clients[c].features, id);
        LastMessageDecides(InFlight(st, cl, id), cl.subs, slot', if WillReposition(st, cl, id) then slot else slot');
      }
    }
  }

  // ---------- Runs ----------

  lemma StepTurns(cfg: Config, st: Cluster, s: Step, c: nat, id: Id)
    requires ValidConfig(cfg) && WellFormedCluster(cfg, st) && c < |st.clients| && AwaitsOwn(st.clients[c])
    requires if s.Execute? then s.node < |st.read| else Arrives(s)
    ensures var cl, st' := st.clients[c], Next(cfg, st, s);
            && WellFormedCluster(cfg, st') && |st'.clients| == |st.clients| && |st'.read| == |st.read|
            && st'.clients[c] == cl.(features := st'.clients[c].features, awaiting := st'.clients[c].awaiting)
            && st'.clients[c].awaiting <= cl.awaiting
            && Heading(cfg, st', st'.clients[c], id)
               == if Counts(cfg, st, s, c, id) then Due(cfg, st'.redis, cl, id) else Heading(cfg, st, cl, id)
  {
    if s.Execute? {
      CommandArrives(cfg, st, s, c, id);
      CommandTurns(cfg, st, s, c, id);
    } else {
      ArrivalFrame(cfg, st, s, c, id);
      if s.Bridge? {
        BridgeTurns(cfg, st, s.node, c, id);
      } else {
        BurstTurns(cfg, st, s.client, s.tile, c, id);
      }
    }
  }

  lemma {:induction false} RunTurns(cfg: Config, st: Cluster, steps: seq<Step>, c: nat, id: Id)
    requires ValidConfig(cfg) && WellFormedCluster(cfg, st) && c < |st.clients| && AwaitsOwn(st.clients[c])
    requires WritesAndArrivals(st, steps)
    ensures var cl, after := st.clients[c], Run(cfg, st, steps);
            && |after.clients| == |st.clients|
            && after.clients[c] == cl.(features := after.clients[c].features, awaiting := after.clients[c].awaiting)
            && Heading(cfg, after, after.clients[c], id)
               == LastCounted(cfg, st, steps, c, id, Heading(cfg, st, cl, id))
    decreases |steps|
  {
    if steps != [] {
      assert steps[0] in steps && forall s :: s in steps[1..] ==> s in steps;
      StepTurns(cfg, st, steps[0], c, id);
      RunTurns(cfg, Next(cfg, st, steps[0]), steps[1..], c, id);
    }
  }

  /** Any commands at any nodes at any time, and any arrivals, until nothing is in flight to the client: it shows the
      object at the place that was due just after the last step that counted. So it ends up right exactly when that
      place is still due. */
  lemma AnyWritesExact(cfg: Config, st: Cluster, steps: seq<Step>, c: nat, id: Id)
    requires ValidConfig(cfg) && WellFormedCluster(cfg, st) && c < |st.clients| && AwaitsOwn(st.clients[c])
    requires WritesAndArrivals(st, steps)
    ensures var cl, after := st.clients[c], Run(cfg, st, steps);
            var place := LastCounted(cfg, st, steps, c, id, Heading(cfg, st, cl, id));
            && |after.clients| == |st.clients|
            && (InFlight(after, after.clients[c], id) == [] ==>
                && Shown(after.clients[c], id) == place
                && (Shown(after.clients[c], id) == Due(cfg, after.redis, after.clients[c], id)
                    <==> place == Due(cfg, after.redis, cl, id)))
  {
    RunTurns(cfg, st, steps, c, id);
  }

  // ---------- Whose writes are harmless ----------

  /** The client's own node writes the object ahead of a message that repositions it. */
  ghost predicate Overtakes(cfg: Config, st: Cluster, s: Step, c: nat, id: Id)
    requires c < |st.clients|
  {
    s.Execute? && s.node == st.clients[c].node && WillReposition(st, st.clients[c], id)
    && Repositions(Said(cfg, st, s, st.clients[c], id), st.clients[c].subs)
  }

  /** The client's own node waits its turn, and nobody deletes the set. What other nodes do is not restricted. */
  ghost predicate OwnNodeWaits(cfg: Config, st: Cluster, steps: seq<Step>, c: nat, id: Id)
    decreases |steps|
  {
    steps == [] || c >= |st.clients| ||
    (!Overtakes(cfg, st, steps[0], c, id) && !(steps[0].Execute? && steps[0].cmd.DelLayer?)
     && OwnNodeWaits(cfg, Next(cfg, st, steps[0]), steps[1..], c, id))
  }

  /** A command that does not reposition the object for the client changes nothing it ought to see. */
  lemma UnseenCommand(cfg: Config, r: Redis, cmd: Command, order: seq<string>, layer: string, id: Id, z: nat,
                      subs: set<Tile>)
    requires ValidConfig(cfg) && z in cfg.zooms && (forall t :: t in subs ==> t.z == z) && !cmd.DelLayer?
    requires !Repositions(OpsAbout(MessagesOf(cfg, r, cmd, order), layer, id), subs)
    ensures View(cfg, Truth(Apply(r, cmd), layer, id), z, subs) == View(cfg, Truth(r, layer, id), z, subs)
  {
    if (cmd.GeoAdd? || cmd.ZRem?) && cmd.layer == layer && cmd.id == id {
      var was, now, hash := Truth(r, layer, id), Moved(cmd), Enriched(cfg, r, id);
      FanoutAbout(cfg, r, cmd, order, layer, id);
      UnseenUpdate(cfg, id, was, now, hash, z, subs);
    }
  }

  lemma UnseenUpdate(cfg: Config, id: Id, was: Option<Pos>, now: Option<Pos>, hash: Attrs, z: nat, subs: set<Tile>)
    requires ValidConfig(cfg) && z in cfg.zooms && forall t :: t in subs ==> t.z == z
    requires !Repositions(UpdateOps(cfg, id, was, now, hash), subs)
    ensures View(cfg, now, z, subs) == View(cfg, was, z, subs)
  {
    var b, right := UpdateOps(cfg, id, was, now, hash), Ideal(cfg, was, hash, z, subs);
    UpdateOpsFacts(cfg, id, was, now, hash, z, subs, {}, right, false);
    DeliverLocally(cfg, id, b, was, hash, now, hash, z, subs, {}, right, false);
    Settled(cfg, now, hash, z, subs, {}, DeliverAll(right, b, subs), false);
    LastMessageDecides(b, subs, right, right);
  }

  lemma WaitingStep(cfg: Config, st: Cluster, s: Step, c: nat, id: Id)
    requires ValidConfig(cfg) && WellFormedCluster(cfg, st) && c < |st.clients| && st.clients[c].awaiting == {}
    requires if s.Execute? then s.node < |st.read| else Arrives(s)
    requires !Overtakes(cfg, st, s, c, id) && !(s.Execute? && s.cmd.DelLayer?)
    requires OnTheWay(cfg, st, c, id)
    ensures WellFormedCluster(cfg, Next(cfg, st, s)) && |Next(cfg, st, s).read| == |st.read|
    ensures |Next(cfg, st, s).clients| == |st.clients| && Next(cfg, st, s).clients[c].awaiting == {}
    ensures OnTheWay(cfg, Next(cfg, st, s), c, id)
  {
    var cl := st.clients[c];
    assert WellFormedClient(cfg, st, cl);
    StepTurns(cfg, st, s, c, id);
    if s.Execute? && !Counts(cfg, st, s, c, id) {
      UnseenCommand(cfg, st.redis, s.cmd, s.order, cl.layer, id, cl.zoom, cl.subs);
    }
  }

  /** What is in flight leads the client to the right place. */
  ghost predicate OnTheWay(cfg: Config, st: Cluster, c: nat, id: Id) {
    c < |st.clients| && Heading(cfg, st, st.clients[c], id) == Due(cfg, st.redis, st.clients[c], id)
  }

  /** A client whose snapshots are in and who is on the way to the right place stays on it, however other nodes overtake
      each other, as long as its own node waits. */
  lemma {:induction false} OnlyOwnNodeHarms(cfg: Config, st: Cluster, steps: seq<Step>, c: nat, id: Id)
    requires ValidConfig(cfg) && WellFormedCluster(cfg, st) && c < |st.clients| && st.clients[c].awaiting == {}
    requires WritesAndArrivals(st, steps) && OwnNodeWaits(cfg, st, steps, c, id)
    requires OnTheWay(cfg, st, c, id)
    ensures OnTheWay(cfg, Run(cfg, st, steps), c, id)
    decreases |steps|
  {
    if steps != [] {
      assert steps[0] in steps && forall s :: s in steps[1..] ==> s in steps;
      WaitingStep(cfg, st, steps[0], c, id);
      OnlyOwnNodeHarms(cfg, Next(cfg, st, steps[0]), steps[1..], c, id);
    }
  }
}
