/** The failing inputs: for each limit, a reachable state of two nodes and one client from which a single step, or a
    single GEOADD, leaves the client wrong for good. */
module Witnesses {
  import opened Payloads
  import opened MemberTracking
  import opened RedisStore
  import opened Protocol
  import opened Settling
  import opened Limits
  import opened Viewports
  import opened HashWrites
  import opened Deletions
  import opened GeoAddOptions
  import opened RespProxy
  import C = MapClient
  import T = Tiles
  import V = ClientView

  // ---------- A small world ----------

  const WEST: Pos := Pos(0.0, -1.0)
  const EAST: Pos := Pos(0.0, 1.0)

  /** A server's configuration: its projection may be any. */
  function Server(m: T.Mercator, zooms: seq<nat>): Config {
    T.ServerConfig(m, zooms, {"k"})
  }

  /** All that matters of it here: at the published zooms west and east are different tiles. */
  ghost predicate World(cfg: Config, zooms: seq<nat>) {
    && ValidConfig(cfg) && cfg.zooms == zooms && cfg.enrich == {"k"}
    && forall z :: z in zooms ==> cfg.tileAt(z, WEST) != cfg.tileAt(z, EAST)
  }

  lemma ServerIsWorld(m: T.Mercator, zooms: seq<nat>)
    requires zooms == [1] || zooms == [1, 2]
    ensures World(Server(m, zooms), zooms)
  {
    T.ServerConfigValid(m, zooms, {"k"});
    WestAndEast(m);
  }

  /** Zoom 1 has two columns and zoom 2 has four; the meridian is a boundary in both. */
  lemma WestAndEast(m: T.Mercator)
    ensures T.TileForCoord(m, 1, WEST).x == 0 && T.TileForCoord(m, 1, EAST).x == 1
    ensures T.TileForCoord(m, 2, WEST).x == 1 && T.TileForCoord(m, 2, EAST).x == 2
  {
    var w, e := T.Easting(-1.0), T.Easting(1.0);
    assert T.Scale(1, w) == 2.0 * w && T.Scale(1, e) == 2.0 * e;
    assert T.Scale(2, w) == T.Scale(1, 2.0 * w) == 4.0 * w && T.Scale(2, e) == T.Scale(1, 2.0 * e) == 4.0 * e;
    assert T.Pow2(1) == 2 && T.Pow2(2) == 4;
  }

  /** The object "a" in the set "s", at a position or nowhere. */
  function Holding(here: Option<Pos>): Redis {
    Redis(if here.Some? then map[Key("s", "a") := here.value] else map[], map[], map["a" := {"s"}])
  }

  lemma HoldingCovers(here: Option<Pos>)
    ensures IndexCovers(Holding(here))
  {
    var r := Holding(here);
    assert forall k :: k in r.geo ==> k.id == "a" && k.layer in LayersOf(r, k.id);
  }

  function Opening(r: Redis, z: nat): Cluster {
    Cluster(r, [], [0, 0], [Client(0, "s", z, {}, {}, map[])])
  }

  /** A client of node 0 has asked for one tile. */
  function Asked(cfg: Config, r: Redis, t: Tile): Cluster {
    Next(cfg, Opening(r, t.z), SetViewport(0, t.z, {t}))
  }

  /** And has got its snapshot. */
  function Watching(cfg: Config, r: Redis, t: Tile): Cluster {
    Next(cfg, Asked(cfg, r, t), RunSnapshot(0, t))
  }

  /** Nothing was published, and there is this one client. */
  ghost predicate Quietly(cfg: Config, st: Cluster, r: Redis, c: Client) {
    && st == Cluster(r, [], [0, 0], [c])
    && forall full :: Reachable(cfg, st, full)
  }

  lemma AskedIs(cfg: Config, r: Redis, t: Tile)
    requires ValidConfig(cfg) && IndexCovers(r) && t.z in cfg.zooms
    ensures Quietly(cfg, Asked(cfg, r, t), r, Client(0, "s", t.z, {t}, {t}, map[]))
  {
    var open, c := Opening(r, t.z), Client(0, "s", t.z, {}, {}, map[]);
    assert {t} - {} == {t} && {} + {t} == {t} && {} - {t} == {};
    assert ChangeViewport(cfg, c, t.z, {t}) == Client(0, "s", t.z, {t}, {t}, map[]);
    forall full ensures Reachable(cfg, Asked(cfg, r, t), full) {
      InitReachable(cfg, open, full);
      ReachableNext(cfg, open, SetViewport(0, t.z, {t}), full);
    }
  }

  lemma WatchedIs(cfg: Config, r: Redis, t: Tile)
    requires ValidConfig(cfg) && IndexCovers(r) && t.z in cfg.zooms
    ensures Quietly(cfg, Watching(cfg, r, t), r,
                    Client(0, "s", t.z, {t}, {}, SnapshotInto(cfg, r, "s", map[], {t})))
  {
    AskedIs(cfg, r, t);
    assert {t} - {t} == {};
    forall full ensures Reachable(cfg, Watching(cfg, r, t), full) {
      ReachableNext(cfg, Asked(cfg, r, t), RunSnapshot(0, t), full);
    }
  }

  /** What the snapshot shows. */
  function Seen(cfg: Config, here: Option<Pos>, t: Tile): map<Id, Feature> {
    if here.Some? && cfg.tileAt(t.z, here.value) == t then map["a" := Feature(here.value, map[])] else map[]
  }

  lemma SnapshotSeen(cfg: Config, here: Option<Pos>, t: Tile)
    requires World(cfg, cfg.zooms)
    ensures SnapshotInto(cfg, Holding(here), "s", map[], {t}) == Seen(cfg, here, t)
  {
    var r := Holding(here);
    assert forall id ::
      id in MembersIn(cfg, r, "s", {t}) <==> id == "a" && here.Some? && cfg.tileAt(t.z, here.value) == t by {
      forall id {
        MemberAt(cfg, r, "s", {t}, id);
      }
    }
    assert map[] + Enriched(cfg, r, "a") == map[];
  }

  lemma WatchingIs(cfg: Config, here: Option<Pos>, t: Tile)
    requires World(cfg, cfg.zooms)
    requires t.z in cfg.zooms
    ensures Quietly(cfg, Watching(cfg, Holding(here), t), Holding(here),
                    Client(0, "s", t.z, {t}, {}, Seen(cfg, here, t)))
  {
    HoldingCovers(here);
    WatchedIs(cfg, Holding(here), t);
    SnapshotSeen(cfg, here, t);
  }

  // ---------- A write at the other node ----------

  /** Node 1 runs a command on "a"; node 0 has bridged none of it. */
  function FarWrite(cfg: Config, r: Redis, t: Tile, cmd: Command): Cluster {
    Next(cfg, Watching(cfg, r, t), Execute(1, cmd, ["s"]))
  }

  /** A reachable state in which the messages of the command are in flight to the client's node. */
  ghost predicate Underway(cfg: Config, st: Cluster, here: Option<Pos>, t: Tile, cmd: Command, full: bool) {
    && Reachable(cfg, st, full) && Inv(cfg, st, full)
    && st.redis == Apply(Holding(here), cmd) && st.read == [0, 0]
      && st.bus == Envelopes(1, MessagesOf(cfg, Holding(here), cmd, ["s"]))
    && st.clients == [Client(0, "s", t.z, {t}, {}, Seen(cfg, here, t))]
    && InFlight(st, st.clients[0], "a") == Effect(cfg, Holding(here), cmd, ["s"], "s", "a")
  }

  lemma FarMessages(cfg: Config, was: Cluster, r: Redis, c: Client, cmd: Command, st: Cluster)
    requires was == Cluster(r, [], [0, 0], [c]) && c.node == 0
    requires st == Next(cfg, was, Execute(1, cmd, ["s"]))
    ensures st.redis == Apply(r, cmd) && st.read == [0, 0] && st.clients == [c]
    ensures st.bus == Envelopes(1, MessagesOf(cfg, r, cmd, ["s"]))
    ensures Undelivered(st, 0) == MessagesOf(cfg, r, cmd, ["s"])
  {
    var ms := MessagesOf(cfg, r, cmd, ["s"]);
    assert st.clients == was.clients;
    assert st.bus == [] + Envelopes(1, ms) == Envelopes(1, ms);
    assert st.bus[0..] == st.bus;
    ForeignEnvelopes(1, ms, 0);
  }

  lemma FarReachable(cfg: Config, was: Cluster, r: Redis, c: Client, cmd: Command, full: bool)
    requires Quietly(cfg, was, r, c) && ValidConfig(cfg)
    requires cmd.GeoAdd? || (cmd.HSet? && Lists(["s"], LayersOf(r, cmd.id)))
    ensures Reachable(cfg, Next(cfg, was, Execute(1, cmd, ["s"])), full)
        && Inv(cfg, Next(cfg, was, Execute(1, cmd, ["s"])), full)
  {
    assert Undelivered(was, 1) == [];
    assert MayExecute(cfg, was, 1, cmd, ["s"], full);
    ReachableNext(cfg, was, Execute(1, cmd, ["s"]), full);
    ReachableInv(cfg, Next(cfg, was, Execute(1, cmd, ["s"])), full);
  }

  lemma FarWriteIs(cfg: Config, here: Option<Pos>, t: Tile, cmd: Command, full: bool)
    requires World(cfg, cfg.zooms)
    requires t.z in cfg.zooms
    requires cmd.GeoAdd? || (cmd.HSet? && cmd.id == "a")
    ensures Underway(cfg, FarWrite(cfg, Holding(here), t, cmd), here, t, cmd, full)
  {
    var r := Holding(here);
    var was, c := Watching(cfg, r, t), Client(0, "s", t.z, {t}, {}, Seen(cfg, here, t));
    WatchingIs(cfg, here, t);
    FarMessages(cfg, was, r, c, cmd, FarWrite(cfg, r, t, cmd));
    FarReachable(cfg, was, r, c, cmd, full);
    FanoutAbout(cfg, r, cmd, ["s"], "s", "a");
  }

  /** From every reachable state after a local command there is a way for everything in flight to arrive. */
  lemma ThenSettles(cfg: Config, st: Cluster, s: Step) returns (steps: seq<Step>)
    requires ValidConfig(cfg) && Inv(cfg, st, false) && |st.read| == 2 && |st.clients| == 1
    requires s.Execute? && s.node == 0
    ensures Settles(cfg, Next(cfg, st, s), steps, 0)
  {
    AfterExecuteWellFormed(cfg, st, 0, s.cmd, s.order);
    steps := SettlingExists(cfg, Next(cfg, st, s), 0);
  }

  // ---------- Writes that overtake ----------

  /** Node 1 has put "a" into the west; before node 0 hears of it, it puts "a" into the east. Its client, who
      watches the west, shows "a" there for good. */
  lemma OvertakingWriteFails(m: T.Mercator) returns (st: Cluster, steps: seq<Step>)
    ensures var cfg, cmd := Server(m, [1]), GeoAdd("s", "a", EAST);
            && Reachable(cfg, st, false) && |st.read| == 2 && |st.clients| == 1
            && Settles(cfg, Next(cfg, st, Execute(0, cmd, [])), steps, 0)
            && Shown(Run(cfg, Next(cfg, st, Execute(0, cmd, [])), steps).clients[0], "a")
               != Due(cfg, Apply(st.redis, cmd), st.clients[0], "a")
  {
    var cfg := Server(m, [1]);
    ServerIsWorld(m, [1]);
    var first := GeoAdd("s", "a", WEST);
    st := FarWrite(cfg, Holding(None), cfg.tileAt(1, WEST), first);
    FarWriteIs(cfg, None, cfg.tileAt(1, WEST), first, false);
    steps := ThenSettles(cfg, st, Execute(0, GeoAdd("s", "a", EAST), []));
    WriteGoesWrong(cfg, st, steps);
  }

  lemma WriteGoesWrong(cfg: Config, st: Cluster, steps: seq<Step>)
    requires World(cfg, [1])
    requires Underway(cfg, st, None, cfg.tileAt(1, WEST), GeoAdd("s", "a", WEST), false)
    requires Settles(cfg, Next(cfg, st, Execute(0, GeoAdd("s", "a", EAST), [])), steps, 0)
    ensures var cmd := GeoAdd("s", "a", EAST);
            && |st.clients| == 1
            && Shown(Run(cfg, Next(cfg, st, Execute(0, cmd, [])), steps).clients[0], "a")
               != Due(cfg, Apply(st.redis, cmd), st.clients[0], "a")
  {
    AddedInFlight(cfg, cfg.tileAt(1, WEST));
    WriteCrosses(cfg, st);
    OvertakingWriteExact(cfg, st, 0, GeoAdd("s", "a", EAST), 0, steps);
  }

  /** The condition of the limit fails. */
  lemma WriteCrosses(cfg: Config, st: Cluster)
    requires World(cfg, [1])
    requires st.redis == Apply(Holding(None), GeoAdd("s", "a", WEST))
    requires st.clients == [Client(0, "s", 1, {cfg.tileAt(1, WEST)}, {}, map[])]
    requires InFlight(st, st.clients[0], "a") == [Op(cfg.tileAt(1, WEST), Add("a", WEST, map[]))]
    ensures var c, r' := st.clients[0], Apply(st.redis, GeoAdd("s", "a", EAST));
            && NoBurst(cfg, r', c, "a") && WillReposition(st, c, "a")
            && Due(cfg, st.redis, c, "a") == Some(WEST) && Due(cfg, r', c, "a") == None
  {
    assert InFlight(st, st.clients[0], "a")[0].tile in st.clients[0].subs;
  }

  lemma AddedInFlight(cfg: Config, t: Tile)
    requires World(cfg, [1])
    requires t == cfg.tileAt(1, WEST)
    ensures Effect(cfg, Holding(None), GeoAdd("s", "a", WEST), ["s"], "s", "a")
         == [Op(t, Add("a", WEST, map[]))]
  {
    var r := Holding(None);
    assert Enriched(cfg, r, "a") == map[];
    assert WriteOps(cfg, [1][1..], "a", None, WEST, map[]) == [];
  }

  /** Node 1 has set a field; before node 0 hears of it, it sets the field again. Its clients get the first value
      last. */
  lemma OvertakingHashWriteFails(m: T.Mercator) returns (st: Cluster, steps: seq<Step>)
    ensures var cfg, fields := Server(m, [1]), map["k" := "new"];
            && Reachable(cfg, st, true) && |st.read| == 2 && |st.clients| == 1
            && Settles(cfg, Next(cfg, st, Execute(0, HSet("a", fields), ["s"])), steps, 0)
            && var after := Run(cfg, Next(cfg, st, Execute(0, HSet("a", fields), ["s"])), steps);
               Lookup(after.clients[0].features, "a") != Lookup(Wanted(cfg, after, 0), "a")
  {
    var cfg := Server(m, [1]);
    ServerIsWorld(m, [1]);
    var first := HSet("a", map["k" := "old"]);
    st := FarWrite(cfg, Holding(Some(WEST)), cfg.tileAt(1, WEST), first);
    FarWriteIs(cfg, Some(WEST), cfg.tileAt(1, WEST), first, true);
    FarWriteIs(cfg, Some(WEST), cfg.tileAt(1, WEST), first, false);
    steps := ThenSettles(cfg, st, Execute(0, HSet("a", map["k" := "new"]), ["s"]));
    HashWriteGoesWrong(cfg, st, steps);
  }

  lemma HashWriteGoesWrong(cfg: Config, st: Cluster, steps: seq<Step>)
    requires World(cfg, [1])
    requires Underway(cfg, st, Some(WEST), cfg.tileAt(1, WEST), HSet("a", map["k" := "old"]), true)
    requires Settles(cfg, Next(cfg, st, Execute(0, HSet("a", map["k" := "new"]), ["s"])), steps, 0)
    ensures var after := Run(cfg, Next(cfg, st, Execute(0, HSet("a", map["k" := "new"]), ["s"])), steps);
            && |after.clients| > 0
            && Lookup(after.clients[0].features, "a") != Lookup(Wanted(cfg, after, 0), "a")
  {
    FieldSetInFlight(cfg, cfg.tileAt(1, WEST));
    FieldCrosses(cfg, st);
    OvertakingHashWriteExact(cfg, st, 0, "a", map["k" := "new"], ["s"], 0, steps);
  }

  /** The condition of the limit fails. */
  lemma FieldCrosses(cfg: Config, st: Cluster)
    requires World(cfg, [1])
    requires st.redis == Apply(Holding(Some(WEST)), HSet("a", map["k" := "old"]))
    requires |st.clients| == 1 && st.clients[0] == Client(0, "s", 1, {cfg.tileAt(1, WEST)}, {}, st.clients[0].features)
    requires InFlight(st, st.clients[0], "a") == [Op(cfg.tileAt(1, WEST), Attr("a", map["k" := "old"]))]
    ensures var c := st.clients[0];
            && Lists(["s"], LayersOf(st.redis, "a"))
            && NoBurst(cfg, st.redis, c, "a") && Due(cfg, st.redis, c, "a").Some?
            && !ChangedFieldsSafe(InFlight(st, c, "a"), c.subs, Lookup(c.features, "a"), Enriched(cfg, st.redis, "a"),
                                  Restrict(map["k" := "new"], {"k"}))
  {
    var c := st.clients[0];
    var q := InFlight(st, c, "a");
    assert q[0].tile in c.subs && Decides(q[0].payload, "k");
    assert FieldInFlight(q, c.subs, "k");
    assert Enriched(cfg, st.redis, "a")["k"] == "old" && Restrict(map["k" := "new"], {"k"})["k"] == "new";
    assert LayersOf(st.redis, "a") == {"s"};
  }

  lemma FieldSetInFlight(cfg: Config, t: Tile)
    requires World(cfg, [1])
    requires t == cfg.tileAt(1, WEST)
    ensures Effect(cfg, Holding(Some(WEST)), HSet("a", map["k" := "old"]), ["s"], "s", "a")
         == [Op(t, Attr("a", map["k" := "old"]))]
  {
    var delta := Restrict(map["k" := "old"], {"k"});
    assert delta["k"] == "old" && delta == map["k" := "old"];
  }

  // ---------- Snapshots and zooms ----------

  /** A client looks at the western half and, before its snapshot has come, at the east of another zoom. It is right
      until the snapshot comes, and wrong for good after that. */
  lemma LateSnapshotFails(m: T.Mercator) returns (st: Cluster, steps: seq<Step>)
    ensures var cfg := Server(m, [1, 2]);
            var moved := Next(cfg, st, SetViewport(0, 2, {cfg.tileAt(2, EAST)}));
            && (forall full :: Reachable(cfg, st, full)) && |st.clients| == 1 && |moved.clients| == 1
            && UpToDate(cfg, moved.redis, moved.clients[0], false)
            && Settles(cfg, moved, steps, 0)
            && Shown(Run(cfg, moved, steps).clients[0], "a") != Due(cfg, st.redis, moved.clients[0], "a")
  {
    var cfg := Server(m, [1, 2]);
    ServerIsWorld(m, [1, 2]);
    var late, now := cfg.tileAt(1, WEST), cfg.tileAt(2, EAST);
    st := Asked(cfg, Holding(Some(WEST)), late);
    HoldingCovers(Some(WEST));
    AskedIs(cfg, Holding(Some(WEST)), late);
    LooksAway(cfg, st);
    steps := SettlingExists(cfg, Next(cfg, st, SetViewport(0, 2, {now})), 0);
    LateGoesWrong(cfg, st, steps);
  }

  ghost predicate WestAsked(cfg: Config, st: Cluster) {
    Quietly(cfg, st, Holding(Some(WEST)), Client(0, "s", 1, {cfg.tileAt(1, WEST)}, {cfg.tileAt(1, WEST)}, map[]))
  }

  lemma LooksAway(cfg: Config, st: Cluster)
    requires World(cfg, [1, 2]) && WestAsked(cfg, st)
    ensures var moved := Next(cfg, st, SetViewport(0, 2, {cfg.tileAt(2, EAST)}));
            && Inv(cfg, st, false) && WellFormedCluster(cfg, moved) && |moved.clients| == 1
            && moved.redis == st.redis && moved.bus == []
            && UpToDate(cfg, st.redis, moved.clients[0], false)
  {
    assert 2 in cfg.zooms by { assert cfg.zooms[1] == 2; }
    ReachableInv(cfg, st, false);
    Looked(cfg, st, 0, 2, {cfg.tileAt(2, EAST)}, "a");
    NothingInTheEast(cfg, ChangeViewport(cfg, st.clients[0], 2, {cfg.tileAt(2, EAST)}));
  }

  lemma NothingInTheEast(cfg: Config, c: Client)
    requires World(cfg, [1, 2]) && c.layer == "s" && c.subs == {cfg.tileAt(2, EAST)} && c.features == map[]
    ensures UpToDate(cfg, Holding(Some(WEST)), c, false)
  {
    assert 2 in cfg.zooms by { assert cfg.zooms[1] == 2; }
    AgreeByMember(c.features, Query(cfg, Holding(Some(WEST)), "s", c.subs), false);
    forall id {
      QueryLookup(cfg, Holding(Some(WEST)), "s", c.subs, id);
    }
  }

  /** Without publishes nothing is ever in flight. */
  lemma {:induction false} QuietArrivals(cfg: Config, st: Cluster, steps: seq<Step>, c: nat, t: Tile)
    requires st.bus == [] && forall s :: s in steps ==> Arrives(s)
    ensures WhenBurstRuns(cfg, st, steps, c, t).bus == []
    decreases |steps|
  {
    if steps != [] {
      assert steps[0] in steps && forall s :: s in steps[1..] ==> s in steps;
      QuietArrivals(cfg, Next(cfg, st, steps[0]), steps[1..], c, t);
    }
  }

  /** The limit, when its condition fails. */
  lemma LateGoesWrong(cfg: Config, st: Cluster, steps: seq<Step>)
    requires World(cfg, [1, 2]) && WestAsked(cfg, st)
    requires Settles(cfg, Next(cfg, st, SetViewport(0, 2, {cfg.tileAt(2, EAST)})), steps, 0)
    ensures var moved := Next(cfg, st, SetViewport(0, 2, {cfg.tileAt(2, EAST)}));
            && |moved.clients| == 1
            && Shown(Run(cfg, moved, steps).clients[0], "a") != Due(cfg, st.redis, moved.clients[0], "a")
  {
    assert 2 in cfg.zooms by { assert cfg.zooms[1] == 2; }
    var late, tiles := cfg.tileAt(1, WEST), {cfg.tileAt(2, EAST)};
    LooksAway(cfg, st);
    QuietArrivals(cfg, Next(cfg, st, SetViewport(0, 2, tiles)), steps, 0, late);
    assert Drops(cfg, st.redis, st.clients[0], "a", tiles);
    ViewportChangeExact(cfg, st, 0, 2, tiles, steps, "a");
  }

  lemma OneBridged(st: Cluster, c: Client, ms: seq<Message>, k: nat)
    requires st.bus == Envelopes(1, ms) && st.read == [k, 0] && st.clients == [c]
    requires c.node == 0 && k < |ms| && !Wants(c, ms[k])
    ensures var st' := BridgeNext(st, 0);
            && st'.redis == st.redis && st'.bus == st.bus && st'.read == [k + 1, 0] && st'.clients == [c]
            && Undelivered(st', 0) == ms[k + 1..]
  {
    var st' := BridgeNext(st, 0);
    assert st'.clients == [c];
    assert st.bus[k + 1..] == Envelopes(1, ms[k + 1..]);
    ForeignEnvelopes(1, ms[k + 1..], 0);
  }

  /** The messages when "a" goes from west to east, two zooms. */
  lemma CrossingOps(cfg: Config)
    requires World(cfg, [1, 2])
    ensures Effect(cfg, Holding(Some(WEST)), GeoAdd("s", "a", EAST), ["s"], "s", "a")
            == [Op(cfg.tileAt(1, WEST), Remove("a")), Op(cfg.tileAt(1, EAST), Add("a", EAST, map[])),
                Op(cfg.tileAt(2, WEST), Remove("a")), Op(cfg.tileAt(2, EAST), Add("a", EAST, map[]))]
  {
    assert Enriched(cfg, Holding(Some(WEST)), "a") == map[];
    assert [1, 2][1..] == [2] && [2][1..] == [];
    assert WriteOps(cfg, [2], "a", Some(WEST), EAST, map[])
        == OpsAtZoom(cfg, "a", Some(WEST), EAST, map[], 2) + WriteOps(cfg, [], "a", Some(WEST), EAST, map[]);
  }

  /** "a" has gone east at node 1, and node 0 has bridged what that means at zoom 1. A client that shows "a" in the
      west of zoom 2 now looks at the west of zoom 1: it keeps "a" there for good. */
  lemma ZoomChangeFails(m: T.Mercator) returns (st: Cluster, steps: seq<Step>)
    ensures var cfg := Server(m, [1, 2]);
            var looked := Next(cfg, st, SetViewport(0, 1, {cfg.tileAt(1, WEST)}));
            && Reachable(cfg, st, false) && |st.clients| == 1 && |looked.clients| == 1
            && Settles(cfg, looked, steps, 0)
            && Shown(Run(cfg, looked, steps).clients[0], "a") != Due(cfg, st.redis, looked.clients[0], "a")
  {
    var cfg := Server(m, [1, 2]);
    ServerIsWorld(m, [1, 2]);
    var cmd := GeoAdd("s", "a", EAST);
    var far := FarWrite(cfg, Holding(Some(WEST)), cfg.tileAt(2, WEST), cmd);
    FarWriteIs(cfg, Some(WEST), cfg.tileAt(2, WEST), cmd, false);
    st := HalfBridged(cfg, far);
    LookedWellFormed(cfg, st);
    steps := SettlingExists(cfg, Next(cfg, st, SetViewport(0, 1, {cfg.tileAt(1, WEST)})), 0);
    ZoomGoesWrong(cfg, st, steps);
  }

  /** Two of the four messages are bridged. */
  ghost predicate TwoBridged(cfg: Config, st: Cluster) {
    && st.redis == Apply(Holding(Some(WEST)), GeoAdd("s", "a", EAST)) && st.read == [2, 0]
    && st.clients == [Client(0, "s", 2, {cfg.tileAt(2, WEST)}, {}, map["a" := Feature(WEST, map[])])]
    && InFlight(st, st.clients[0], "a")
      == [Op(cfg.tileAt(2, WEST), Remove("a")), Op(cfg.tileAt(2, EAST), Add("a", EAST, map[]))]
  }

  ghost predicate Halfway(cfg: Config, st: Cluster) {
    Reachable(cfg, st, false) && Inv(cfg, st, false) && TwoBridged(cfg, st)
  }

  lemma BridgedTwice(far: Cluster, ms: seq<Message>)
    requires far.bus == Envelopes(1, ms) && far.read == [0, 0] && |far.clients| == 1 && far.clients[0].node == 0
    requires |ms| >= 2 && !Wants(far.clients[0], ms[0]) && !Wants(far.clients[0], ms[1])
    ensures var st := BridgeNext(BridgeNext(far, 0), 0);
            && st.redis == far.redis && st.read == [2, 0] && st.clients == far.clients && Undelivered(st, 0) == ms[2..]
  {
    var c := far.clients[0];
    assert far.clients == [c];
    OneBridged(far, c, ms, 0);
    OneBridged(BridgeNext(far, 0), c, ms, 1);
  }

  lemma BridgingReachable(cfg: Config, far: Cluster)
    requires ValidConfig(cfg) && Reachable(cfg, far, false) && |far.read| == 2
    ensures |BridgeNext(far, 0).read| == 2
    ensures Reachable(cfg, BridgeNext(BridgeNext(far, 0), 0), false)
        && Inv(cfg, BridgeNext(BridgeNext(far, 0), 0), false)
  {
    ReachableNext(cfg, far, Bridge(0), false);
    ReachableNext(cfg, BridgeNext(far, 0), Bridge(0), false);
    ReachableInv(cfg, BridgeNext(BridgeNext(far, 0), 0), false);
  }

  lemma FourMessages(cfg: Config, far: Cluster, ops: seq<Op>)
    requires World(cfg, [1, 2])
    requires Underway(cfg, far, Some(WEST), cfg.tileAt(2, WEST), GeoAdd("s", "a", EAST), false)
    requires ops == [Op(cfg.tileAt(1, WEST), Remove("a")), Op(cfg.tileAt(1, EAST), Add("a", EAST, map[])),
                     Op(cfg.tileAt(2, WEST), Remove("a")), Op(cfg.tileAt(2, EAST), Add("a", EAST, map[]))]
    ensures far.bus == Envelopes(1, TileMessages("s", ops))
  {
    CrossingOps(cfg);
  }

  /** Neither of the first two messages is for the client; the others stay in flight. */
  lemma TwoPassBy(far: Cluster, c: Client, ops: seq<Op>)
    requires far.bus == Envelopes(1, TileMessages("s", ops)) && far.read == [0, 0] && far.clients == [c]
    requires c.node == 0 && c.layer == "s" && |ops| >= 2 && ops[0].tile !in c.subs && ops[1].tile !in c.subs
    requires forall i :: 0 <= i < |ops| ==> ops[i].payload.id == "a"
    ensures var st := BridgeNext(BridgeNext(far, 0), 0);
            st.redis == far.redis && st.read == [2, 0] && st.clients == [c] && InFlight(st, c, "a") == ops[2..]
  {
    BridgedTwice(far, TileMessages("s", ops));
    RestOfOps(ops);
  }

  lemma NowTwoBridged(cfg: Config, far: Cluster)
    requires World(cfg, [1, 2])
    requires Underway(cfg, far, Some(WEST), cfg.tileAt(2, WEST), GeoAdd("s", "a", EAST), false)
    ensures TwoBridged(cfg, BridgeNext(BridgeNext(far, 0), 0))
  {
    var ops := [Op(cfg.tileAt(1, WEST), Remove("a")), Op(cfg.tileAt(1, EAST), Add("a", EAST, map[])),
                Op(cfg.tileAt(2, WEST), Remove("a")), Op(cfg.tileAt(2, EAST), Add("a", EAST, map[]))];
    FourMessages(cfg, far, ops);
    TwoPassBy(far, far.clients[0], ops);
  }

  lemma HalfBridged(cfg: Config, far: Cluster) returns (st: Cluster)
    requires World(cfg, [1, 2])
    requires Underway(cfg, far, Some(WEST), cfg.tileAt(2, WEST), GeoAdd("s", "a", EAST), false)
    ensures Halfway(cfg, st)
  {
    st := BridgeNext(BridgeNext(far, 0), 0);
    BridgingReachable(cfg, far);
    NowTwoBridged(cfg, far);
  }

  lemma RestOfOps(ops: seq<Op>)
    requires |ops| >= 2 && forall i :: 0 <= i < |ops| ==> ops[i].payload.id == "a"
    ensures OpsAbout(TileMessages("s", ops)[2..], "s", "a") == ops[2..]
  {
    assert TileMessages("s", ops)[2..] == TileMessages("s", ops[2..]);
    OpsAboutTileMessages("s", ops[2..], "s", "a", "a");
  }

  lemma LookedWellFormed(cfg: Config, st: Cluster)
    requires World(cfg, [1, 2])
    requires Halfway(cfg, st)
    ensures var looked := Next(cfg, st, SetViewport(0, 1, {cfg.tileAt(1, WEST)}));
            WellFormedCluster(cfg, looked) && |looked.clients| == 1
  {
    assert 1 in cfg.zooms by { assert cfg.zooms[0] == 1; }
    Looked(cfg, st, 0, 1, {cfg.tileAt(1, WEST)}, "a");
  }

  /** The condition of the limit fails. */
  lemma ZoomCrosses(cfg: Config, st: Cluster)
    requires World(cfg, [1, 2])
    requires Halfway(cfg, st)
    ensures var c, tiles := st.clients[0], {cfg.tileAt(1, WEST)};
            && Evict(cfg, Lookup(c.features, "a"), 1, tiles).Some? && !Repositions(InFlight(st, c, "a"), tiles)
            && View(cfg, Truth(st.redis, "s", "a"), 1, tiles).None?
  {
  }

  lemma ZoomGoesWrong(cfg: Config, st: Cluster, steps: seq<Step>)
    requires World(cfg, [1, 2])
    requires Halfway(cfg, st)
    requires Settles(cfg, Next(cfg, st, SetViewport(0, 1, {cfg.tileAt(1, WEST)})), steps, 0)
    ensures var looked := Next(cfg, st, SetViewport(0, 1, {cfg.tileAt(1, WEST)}));
            && |looked.clients| == 1
            && Shown(Run(cfg, looked, steps).clients[0], "a") != Due(cfg, st.redis, looked.clients[0], "a")
  {
    assert 1 in cfg.zooms by { assert cfg.zooms[0] == 1; }
    ZoomCrosses(cfg, st);
    NeverLeaves(cfg, st, 1, {cfg.tileAt(1, WEST)}, steps);
  }

  /** The limit, when its condition fails. */
  lemma NeverLeaves(cfg: Config, st: Cluster, zoom: nat, tiles: set<Tile>, steps: seq<Step>)
    requires ValidConfig(cfg) && Inv(cfg, st, false) && |st.clients| == 1 && st.clients[0].awaiting == {}
    requires zoom in cfg.zooms && zoom != st.clients[0].zoom && forall t :: t in tiles ==> t.z == zoom
    requires Settles(cfg, Next(cfg, st, SetViewport(0, zoom, tiles)), steps, 0)
    requires Evict(cfg, Lookup(st.clients[0].features, "a"), zoom, tiles).Some?
    requires !Repositions(InFlight(st, st.clients[0], "a"), tiles)
    requires View(cfg, Truth(st.redis, st.clients[0].layer, "a"), zoom, tiles).None?
    ensures var looked := Next(cfg, st, SetViewport(0, zoom, tiles));
            && |looked.clients| == 1
            && Shown(Run(cfg, looked, steps).clients[0], "a") != Due(cfg, st.redis, looked.clients[0], "a")
  {
    ViewportChangeExact(cfg, st, 0, zoom, tiles, steps, "a");
  }

  // ---------- GEOADD with options and repetitions ----------

  function Number(s: string): Option<real> {
    if s == "1" then Some(1.0) else if s == "-1" then Some(-1.0) else if s == "0" then Some(0.0) else None
  }

  /** "a" into the east, if it is new. */
  const IF_NEW: seq<string> := ["GEOADD", "s", "NX", "1", "0", "a"]

  lemma IfNewIs()
    ensures KindOf(IF_NEW) == GeoAddKind && OptionOf(IF_NEW) == OnlyNew
    ensures GeoAddEntries(Number, IF_NEW) == [Entry("a", EAST)]
  {
    assert Upper("GEOADD") == "GEOADD" && Upper("NX") == "NX" && Upper("1") == "1";
    assert IF_NEW[2..] == ["NX", "1", "0", "a"] && ["NX", "1", "0", "a"][1..] == ["1", "0", "a"];
    assert AfterFlags(["1", "0", "a"]) == ["1", "0", "a"];
    assert LeadingFlags(["1", "0", "a"]) == [];
    assert Entries(Number, ["1", "0", "a"][3..]) == [];
  }

  lemma {:induction false} OnePosition(e: Entry, id: Id)
    ensures PositionsOf([e], id) == if e.member == id then [e.pos] else []
  {
    assert [e][..0] == [];
  }

  /** Redis leaves "a" in the west, but the client that watches the west is told that it went. */
  lemma FlaggedWriteFails(m: T.Mercator) returns (st: Cluster)
    ensures var cfg := Server(m, [1]);
            && (forall full :: Reachable(cfg, st, full)) && |st.clients| == 1
            && Taken(Number, st.redis, st.redis, IF_NEW)
            && Shown(st.clients[0], "a") == Due(cfg, st.redis, st.clients[0], "a")
            && Shown(AfterReport(cfg, "", Number, st.redis, st.redis, IF_NEW, [], st.clients[0]), "a")
               != Due(cfg, st.redis, st.clients[0], "a")
  {
    var cfg := Server(m, [1]);
    ServerIsWorld(m, [1]);
    var r, t := Holding(Some(WEST)), cfg.tileAt(1, WEST);
    st := Watching(cfg, r, t);
    WatchingIs(cfg, Some(WEST), t);
    IfNewIs();
    FlaggedGoesWrong(cfg, r, st.clients[0]);
  }

  lemma NewOnly(was: Option<Pos>, p: Pos)
    ensures TruthAfter(OnlyNew, was, [p]) == if was.None? then Some(p) else was
  {
    assert [p][..0] == [];
  }

  lemma IfNewTaken(r: Redis)
    requires r == Holding(Some(WEST)) && OptionOf(IF_NEW) == OnlyNew
    requires GeoAddEntries(Number, IF_NEW) == [Entry("a", EAST)]
    ensures Taken(Number, r, r, IF_NEW)
  {
    forall id ensures Truth(r, "s", id) == TruthAfter(OnlyNew, Truth(r, "s", id), PositionsOf([Entry("a", EAST)], id)) {
      OnePosition(Entry("a", EAST), id);
      NewOnly(Truth(r, "s", id), EAST);
    }
  }

  lemma FlaggedGoesWrong(cfg: Config, r: Redis, c: Client)
    requires World(cfg, [1])
    requires r == Holding(Some(WEST))
    requires c == Client(0, "s", 1, {cfg.tileAt(1, WEST)}, {}, map["a" := Feature(WEST, map[])])
    requires KindOf(IF_NEW) == GeoAddKind && OptionOf(IF_NEW) == OnlyNew
    requires GeoAddEntries(Number, IF_NEW) == [Entry("a", EAST)]
    ensures Taken(Number, r, r, IF_NEW)
    ensures Shown(AfterReport(cfg, "", Number, r, r, IF_NEW, [], c), "a") != Due(cfg, r, c, "a")
  {
    IfNewTaken(r);
    OnePosition(Entry("a", EAST), "a");
    assert Due(cfg, r, c, "a") == Some(WEST) && View(cfg, Some(EAST), 1, c.subs) == None;
    FlaggedWriteExact(cfg, "", Number, r, r, IF_NEW, [], c, "a", EAST);
  }

  /** "a" into the west and then into the east. */
  const TWICE: seq<string> := ["GEOADD", "s", "-1", "0", "a", "1", "0", "a"]

  lemma TwiceIs()
    ensures KindOf(TWICE) == GeoAddKind && OptionOf(TWICE) == Always
    ensures GeoAddEntries(Number, TWICE) == [Entry("a", WEST), Entry("a", EAST)]
  {
    assert Upper("GEOADD") == "GEOADD" && Upper("-1")[0] == '-';
    var tail := ["-1", "0", "a", "1", "0", "a"];
    assert TWICE[2..] == tail;
    assert AfterFlags(tail) == tail && LeadingFlags(tail) == [];
    assert tail[3..] == ["1", "0", "a"] && ["1", "0", "a"][3..] == [];
    assert Entries(Number, []) == [];
    assert Entries(Number, ["1", "0", "a"]) == [Entry("a", EAST)];
  }

  lemma TwoPositions(d: Entry, e: Entry, id: Id)
    ensures PositionsOf([d, e], id) == (if d.member == id then [d.pos] else []) + if e.member == id then [e.pos] else []
  {
    assert [d, e][..1] == [d];
    OnePosition(d, id);
  }

  /** Redis ends up with "a" in the east, but the client that watches the west is told of its passing there only. */
  lemma RepeatedMemberFails(m: T.Mercator) returns (st: Cluster)
    ensures var cfg, after := Server(m, [1]), Holding(Some(EAST));
            && (forall full :: Reachable(cfg, st, full)) && |st.clients| == 1
            && Taken(Number, st.redis, after, TWICE)
            && Shown(st.clients[0], "a") == Due(cfg, st.redis, st.clients[0], "a")
            && Shown(AfterReport(cfg, "", Number, st.redis, after, TWICE, [], st.clients[0]), "a")
               != Due(cfg, after, st.clients[0], "a")
  {
    var cfg := Server(m, [1]);
    ServerIsWorld(m, [1]);
    var r, t := Holding(None), cfg.tileAt(1, WEST);
    st := Watching(cfg, r, t);
    WatchingIs(cfg, None, t);
    TwiceIs();
    RepeatedGoesWrong(cfg, r, Holding(Some(EAST)), st.clients[0]);
  }

  lemma TwiceTaken(r: Redis, after: Redis)
    requires r == Holding(None) && after == Holding(Some(EAST)) && OptionOf(TWICE) == Always
    requires GeoAddEntries(Number, TWICE) == [Entry("a", WEST), Entry("a", EAST)]
    ensures Taken(Number, r, after, TWICE)
  {
    var entries := [Entry("a", WEST), Entry("a", EAST)];
    forall id ensures Truth(after, "s", id) == TruthAfter(Always, Truth(r, "s", id), PositionsOf(entries, id)) {
      TwoPositions(entries[0], entries[1], id);
      AlwaysSets(Truth(r, "s", id), PositionsOf(entries, id));
    }
  }

  lemma RepeatedGoesWrong(cfg: Config, r: Redis, after: Redis, c: Client)
    requires World(cfg, [1])
    requires r == Holding(None) && after == Holding(Some(EAST))
    requires c == Client(0, "s", 1, {cfg.tileAt(1, WEST)}, {}, map[])
    requires KindOf(TWICE) == GeoAddKind && OptionOf(TWICE) == Always
    requires GeoAddEntries(Number, TWICE) == [Entry("a", WEST), Entry("a", EAST)]
    ensures Taken(Number, r, after, TWICE)
    ensures Shown(AfterReport(cfg, "", Number, r, after, TWICE, [], c), "a") != Due(cfg, after, c, "a")
  {
    TwiceTaken(r, after);
    TwoPositions(Entry("a", WEST), Entry("a", EAST), "a");
    var ps := PositionsOf(GeoAddEntries(Number, TWICE), "a");
    assert ps == [WEST, EAST] && cfg.tileAt(1, ps[0]) in c.subs && cfg.tileAt(1, ps[1]) !in c.subs;
    RepeatedMemberExact(cfg, "", Number, r, after, TWICE, [], c, "a");
  }

  // ---------- Deletions, watched objects, queued messages ----------

  lemma SeenIsRight(cfg: Config, r: Redis, t: Tile)
    requires World(cfg, [1])
    requires r == Holding(Some(WEST)) && t == cfg.tileAt(1, WEST)
    ensures forall id :: PosOf(Lookup(Seen(cfg, Some(WEST), t), id)) == PosOf(Lookup(Query(cfg, r, "s", {t}), id))
  {
    assert InTiles(cfg, WEST, {t});
    forall id ensures PosOf(Lookup(Seen(cfg, Some(WEST), t), id)) == PosOf(Lookup(Query(cfg, r, "s", {t}), id)) {
      QueryLookup(cfg, r, "s", {t}, id);
    }
  }

  lemma WatchingWest(cfg: Config) returns (st: Cluster)
    requires World(cfg, [1])
    ensures var c := Client(0, "s", 1, {cfg.tileAt(1, WEST)}, {}, map["a" := Feature(WEST, map[])]);
            Quietly(cfg, st, Holding(Some(WEST)), c) && UpToDate(cfg, st.redis, c, false)
  {
    var t, r := cfg.tileAt(1, WEST), Holding(Some(WEST));
    st := Watching(cfg, r, t);
    WatchingIs(cfg, Some(WEST), t);
    SeenIsRight(cfg, r, t);
    AgreeByMember(Seen(cfg, Some(WEST), t), Query(cfg, r, "s", {t}), false);
  }

  /** DEL of the set: the client keeps what it shows. */
  lemma LayerDeletionFails(m: T.Mercator) returns (st: Cluster)
    ensures var cfg := Server(m, [1]);
            && (forall full :: Reachable(cfg, st, full)) && |st.clients| == 1
            && UpToDate(cfg, st.redis, st.clients[0], false)
            && !UpToDate(cfg, Apply(st.redis, DelLayer("s")), st.clients[0], false)
  {
    ServerIsWorld(m, [1]);
    st := WatchingWest(Server(m, [1]));
    KeepsShowing(Server(m, [1]), st.redis, st.clients[0]);
  }

  lemma KeepsShowing(cfg: Config, r: Redis, c: Client)
    requires UpToDate(cfg, r, c, false) && c.layer == "s" && "a" in c.features
    ensures !UpToDate(cfg, Apply(r, DelLayer("s")), c, false)
  {
    LayerDeletionExact(cfg, r, c, "s");
  }

  /** "a" in the west, with a field in its hash. */
  function WithField(): Redis {
    Holding(Some(WEST)).(hashes := map["a" := map["k" := "v"]])
  }

  lemma FreshSnapshotIsQuery(cfg: Config, r: Redis, tiles: set<Tile>)
    ensures Agrees(SnapshotInto(cfg, r, "s", map[], tiles), Query(cfg, r, "s", tiles), true)
  {
    var shown, query := SnapshotInto(cfg, r, "s", map[], tiles), Query(cfg, r, "s", tiles);
    forall id ensures Lookup(shown, id) == Lookup(query, id) {
      SnapshotIntoAt(cfg, r, "s", map[], tiles, id);
      QueryLookup(cfg, r, "s", tiles, id);
      assert map[] + Enriched(cfg, r, id) == Enriched(cfg, r, id);
    }
    AgreeByMember(shown, query, true);
  }

  /** Deleting the field, or the whole hash: the client keeps the field. */
  lemma HashDeletionFails(m: T.Mercator) returns (st: Cluster)
    ensures var cfg := Server(m, [1]);
            && (forall full :: Reachable(cfg, st, full)) && |st.clients| == 1
            && UpToDate(cfg, st.redis, st.clients[0], true)
            && !UpToDate(cfg, Apply(st.redis, HDel("a", {"k"})), st.clients[0], true)
            && !UpToDate(cfg, Apply(st.redis, DelObject("a")), st.clients[0], true)
  {
    var cfg, r := Server(m, [1]), WithField();
    var t := cfg.tileAt(1, WEST);
    ServerIsWorld(m, [1]);
    HoldingCovers(Some(WEST));
    assert r.geo == Holding(Some(WEST)).geo && IndexCovers(r);
    assert 1 in cfg.zooms by { assert cfg.zooms[0] == 1; }
    st := Watching(cfg, r, t);
    WatchedIs(cfg, r, t);
    FreshSnapshotIsQuery(cfg, r, {t});
    KeepsField(cfg, r, st.clients[0], t);
  }

  lemma KeepsField(cfg: Config, r: Redis, c: Client, t: Tile)
    requires World(cfg, [1]) && r == WithField() && t == cfg.tileAt(1, WEST)
    requires c.layer == "s" && c.subs == {t} && UpToDate(cfg, r, c, true)
    ensures !UpToDate(cfg, Apply(r, HDel("a", {"k"})), c, true) && !UpToDate(cfg, Apply(r, DelObject("a")), c, true)
  {
    assert InTiles(cfg, WEST, {t});
    QueryLookup(cfg, r, "s", {t}, "a");
    assert "a" in c.features;
    assert "k" in Enriched(cfg, r, "a") && "k" in {"k"};
    FieldDeletionExact(cfg, r, c, "a", {"k"});
    ObjectDeletionExact(cfg, r, c, "a");
  }

  /** A client that watches "a" looks east: "a" stays on its map. */
  lemma WatchedObjectFails(m: T.Mercator) returns (st: Cluster)
    ensures var cfg := Server(m, [1]);
            var tiles := {cfg.tileAt(1, EAST)};
            && (forall full :: Reachable(cfg, st, full)) && |st.clients| == 1
            && UpToDate(cfg, st.redis, st.clients[0], false)
            && !SamePlaces(V.Moved(cfg, st.redis, st.clients[0], 1, tiles, {ObjectTopic("a")}),
                           Query(cfg, st.redis, "s", tiles))
  {
    ServerIsWorld(m, [1]);
    st := WatchingWest(Server(m, [1]));
    StaysWatched(Server(m, [1]), st.redis, st.clients[0]);
  }

  lemma StaysWatched(cfg: Config, r: Redis, c: Client)
    requires World(cfg, [1]) && UpToDate(cfg, r, c, false)
    requires c == Client(0, "s", 1, {cfg.tileAt(1, WEST)}, {}, map["a" := Feature(WEST, map[])])
    ensures var tiles := {cfg.tileAt(1, EAST)};
            !SamePlaces(V.Moved(cfg, r, c, 1, tiles, {ObjectTopic("a")}), Query(cfg, r, "s", tiles))
  {
    assert 1 in cfg.zooms by { assert cfg.zooms[0] == 1; }
    assert c.features["a"].pos == WEST;
    V.WatchedObjectsExact(cfg, r, c, 1, {cfg.tileAt(1, EAST)}, {ObjectTopic("a")});
  }

  /** A `move` of "a" is queued for the client when it looks east: "a" comes back. */
  lemma QueuedMessageFails(m: T.Mercator) returns (st: Cluster, ms: seq<Message>)
    ensures var cfg := Server(m, [1]);
            var tiles := {cfg.tileAt(1, EAST)};
            && (forall full :: Reachable(cfg, st, full)) && |st.clients| == 1
            && (forall i :: 0 <= i < |ms| ==> Wants(st.clients[0], ms[i]))
            && (forall id ::
                  PosOf(Lookup(C.ReceiveAll(st.clients[0].features, ms), id)) == Due(cfg, st.redis, st.clients[0], id))
            && exists id :: PosOf(Lookup(V.LookedWithQueue(cfg, st.redis, st.clients[0], ms, 1, tiles), id))
                            != View(cfg, Truth(st.redis, "s", id), 1, tiles)
  {
    ServerIsWorld(m, [1]);
    st, ms := MoveIsQueued(Server(m, [1]));
  }

  lemma MoveIsQueued(cfg: Config) returns (st: Cluster, ms: seq<Message>)
    requires World(cfg, [1])
    ensures (forall full :: Reachable(cfg, st, full)) && |st.clients| == 1
    ensures BringsBack(cfg, st.redis, st.clients[0], ms, {cfg.tileAt(1, EAST)})
  {
    st := WatchingWest(cfg);
    ms := [TileMsg("s", cfg.tileAt(1, WEST), Move("a", WEST))];
    MoveBringsBack(cfg, st.redis, st.clients[0], ms);
  }

  /** Queued messages that would leave the client right where it is, and do not where it looks next. */
  ghost predicate BringsBack(cfg: Config, r: Redis, c: Client, ms: seq<Message>, tiles: set<Tile>) {
    && (forall i :: 0 <= i < |ms| ==> Wants(c, ms[i]))
    && (forall id :: PosOf(Lookup(C.ReceiveAll(c.features, ms), id)) == Due(cfg, r, c, id))
    && exists id ::
        PosOf(Lookup(V.LookedWithQueue(cfg, r, c, ms, 1, tiles), id)) != View(cfg, Truth(r, "s", id), 1, tiles)
  }

  lemma MoveBringsBack(cfg: Config, r: Redis, c: Client, ms: seq<Message>)
    requires World(cfg, [1])
    requires r == Holding(Some(WEST))
    requires c == Client(0, "s", 1, {cfg.tileAt(1, WEST)}, {}, map["a" := Feature(WEST, map[])])
    requires ms == [TileMsg("s", cfg.tileAt(1, WEST), Move("a", WEST))]
    ensures BringsBack(cfg, r, c, ms, {cfg.tileAt(1, EAST)})
  {
    MoveChangesNothing(cfg, r, c, ms);
    QueuedGoesWrong(cfg, r, c, ms);
  }

  lemma MoveChangesNothing(cfg: Config, r: Redis, c: Client, ms: seq<Message>)
    requires World(cfg, [1])
    requires r == Holding(Some(WEST))
        && c == Client(0, "s", 1, {cfg.tileAt(1, WEST)}, {}, map["a" := Feature(WEST, map[])])
    requires ms == [TileMsg("s", cfg.tileAt(1, WEST), Move("a", WEST))]
    ensures Wants(c, ms[0])
    ensures forall id :: PosOf(Lookup(C.ReceiveAll(c.features, ms), id)) == Due(cfg, r, c, id)
  {
    assert ms[1..] == [];
    assert C.ReceiveAll(c.features, ms) == c.features;
  }

  lemma QueuedGoesWrong(cfg: Config, r: Redis, c: Client, ms: seq<Message>)
    requires World(cfg, [1])
    requires r == Holding(Some(WEST))
        && c == Client(0, "s", 1, {cfg.tileAt(1, WEST)}, {}, map["a" := Feature(WEST, map[])])
    requires ms == [TileMsg("s", cfg.tileAt(1, WEST), Move("a", WEST))]
    requires forall id :: PosOf(Lookup(C.ReceiveAll(c.features, ms), id)) == Due(cfg, r, c, id)
    ensures exists id :: PosOf(Lookup(V.LookedWithQueue(cfg, r, c, ms, 1, {cfg.tileAt(1, EAST)}), id))
                         != View(cfg, Truth(r, "s", id), 1, {cfg.tileAt(1, EAST)})
  {
    MoveRepositions(ms[0], c.subs);
    V.QueuedMessagesExact(cfg, r, c, ms, 1, {cfg.tileAt(1, EAST)});
    assert Due(cfg, r, c, "a").Some? && View(cfg, Truth(r, "s", "a"), 1, {cfg.tileAt(1, EAST)}).None?;
  }

  lemma MoveRepositions(m: Message, subs: set<Tile>)
    requires m.TileMsg? && m.payload == Move("a", WEST) && m.tile in subs
    ensures Repositions(OpsAbout([m], m.layer, "a"), subs)
  {
    assert OpsAbout([m], m.layer, "a") == [Op(m.tile, m.payload)] + OpsAbout([], m.layer, "a");
    assert OpsAbout([m], m.layer, "a")[0].tile in subs;
  }
}
