/** One node: nothing is ever in flight between nodes, so writers need not wait for anything. */
module SingleNode {
  import opened Payloads
  import opened RedisStore
  import opened Protocol

  lemma NothingForeign(cfg: Config, st: Cluster)
    requires WellFormedCluster(cfg, st) && |st.read| == 1
    ensures Undelivered(st, 0) == []
  {
    OwnMessagesOnly(st.bus[st.read[0]..]);
  }

  /** What remains of the conditions on a step: nothing about messages in flight. */
  ghost predicate MayAlone(cfg: Config, st: Cluster, s: Step, full: bool) {
    match s
    case Execute(n, cmd, order) =>
      && n == 0 && !cmd.DelLayer?
      && (cmd.HSet? ==> Lists(order, LayersOf(st.redis, cmd.id)))
      && (full ==> !cmd.HDel? && !cmd.DelObject?)
    case Bridge(n) => n == 0
    case SetViewport(c, zoom, tiles) =>
      && c < |st.clients| && zoom in cfg.zooms && (forall t :: t in tiles ==> t.z == zoom)
      && (st.clients[c].subs - tiles) !! st.clients[c].awaiting
    case RunSnapshot(c, t) => c < |st.clients| && t in st.clients[c].awaiting
  }

  /** On one node the conditions on writes and zoom changes hold by themselves. */
  lemma {:induction false} AloneExact(cfg: Config, st: Cluster, s: Step, full: bool)
    requires WellFormedCluster(cfg, st) && |st.read| == 1
    ensures May(cfg, st, s, full) <==> MayAlone(cfg, st, s, full)
  {
    NothingForeign(cfg, st);
    if s.SetViewport? && s.client < |st.clients| {
      assert WellFormedClient(cfg, st, st.clients[s.client]);
    }
  }

  // ---------- Any sequence of actions ----------

  /** GEOADD, ZREM, HSET, and looking elsewhere, which includes the snapshots of the new tiles. */
  datatype Action =
    | Write(layer: string, id: Id, pos: Pos)
    | Remove(layer: string, id: Id)
    | SetFields(id: Id, fields: Attrs)
    | Look(client: nat, zoom: nat, tiles: set<Tile>)

  function Bursts(cfg: Config, st: Cluster, c: nat, order: seq<Tile>): Cluster
    decreases |order|
  {
    if order == [] then st else Bursts(cfg, Next(cfg, st, RunSnapshot(c, order[0])), c, order[1..])
  }

  /** The action leads from one state to the other; SMEMBERS and the bursts may take any order. */
  ghost predicate Does(cfg: Config, st: Cluster, a: Action, st': Cluster) {
    match a
    case Write(layer, id, pos) => st' == Next(cfg, st, Execute(0, GeoAdd(layer, id, pos), []))
    case Remove(layer, id) => st' == Next(cfg, st, Execute(0, ZRem(layer, id), []))
    case SetFields(id, fields) =>
      exists order :: Lists(order, LayersOf(st.redis, id)) && st' == Next(cfg, st, Execute(0, HSet(id, fields), order))
    case Look(c, zoom, tiles) =>
      && c < |st.clients|
      && exists order: seq<Tile> ::
           (forall t :: t in tiles - st.clients[c].subs ==> t in order)
           && st' == Bursts(cfg, Next(cfg, st, SetViewport(c, zoom, tiles)), c, order)
  }

  /** A client always looks at tiles of a published zoom. */
  predicate Sensible(cfg: Config, a: Action) {
    a.Look? ==> a.zoom in cfg.zooms && forall t :: t in a.tiles ==> t.z == a.zoom
  }

  ghost predicate History(cfg: Config, states: seq<Cluster>, actions: seq<Action>) {
    && |states| == |actions| + 1
    && Init(cfg, states[0]) && |states[0].read| == 1
    && forall i :: 0 <= i < |actions| ==> Sensible(cfg, actions[i]) && Does(cfg, states[i], actions[i], states[i + 1])
  }

  /** One node, all debts payable, and no snapshot outstanding. */
  ghost predicate Calm(cfg: Config, st: Cluster) {
    && Inv(cfg, st, true) && |st.read| == 1
    && forall c :: 0 <= c < |st.clients| ==> st.clients[c].awaiting == {}
  }

  lemma ExecuteCalm(cfg: Config, st: Cluster, cmd: Command, order: seq<string>)
    requires ValidConfig(cfg) && Calm(cfg, st) && MayAlone(cfg, st, Execute(0, cmd, order), true)
    ensures Calm(cfg, Next(cfg, st, Execute(0, cmd, order)))
  {
    AloneExact(cfg, st, Execute(0, cmd, order), true);
    ExecuteKeeps(cfg, st, 0, cmd, order, true);
    var st' := Next(cfg, st, Execute(0, cmd, order));
    forall c | 0 <= c < |st'.clients| ensures st'.clients[c].awaiting == {} {
      DeliverAllToMember(st.clients[c], MessagesOf(cfg, st.redis, cmd, order), "");
    }
  }

  lemma {:induction false} BurstsKeep(cfg: Config, st: Cluster, c: nat, order: seq<Tile>)
    requires ValidConfig(cfg) && Inv(cfg, st, true) && c < |st.clients|
    ensures var st' := Bursts(cfg, st, c, order);
            && Inv(cfg, st', true) && st'.read == st.read && |st'.clients| == |st.clients|
            && st'.clients[c].awaiting == st.clients[c].awaiting - (set t | t in order)
            && forall i :: 0 <= i < |st.clients| && i != c ==> st'.clients[i] == st.clients[i]
    decreases |order|
  {
    if order != [] {
      var mid := Next(cfg, st, RunSnapshot(c, order[0]));
      if order[0] in st.clients[c].awaiting {
        SnapshotKeepsInv(cfg, st, c, order[0], true);
      }
      BurstsKeep(cfg, mid, c, order[1..]);
      assert (set t | t in order) == {order[0]} + set t | t in order[1..];
    }
  }

  lemma LookCalm(cfg: Config, st: Cluster, c: nat, zoom: nat, tiles: set<Tile>, order: seq<Tile>)
    requires ValidConfig(cfg) && Calm(cfg, st) && c < |st.clients| && Sensible(cfg, Look(c, zoom, tiles))
    requires forall t :: t in tiles - st.clients[c].subs ==> t in order
    ensures Calm(cfg, Bursts(cfg, Next(cfg, st, SetViewport(c, zoom, tiles)), c, order))
  {
    var s := SetViewport(c, zoom, tiles);
    var looked := Next(cfg, st, s);
    AloneExact(cfg, st, s, true);
    ViewportKeepsInv(cfg, st, c, zoom, tiles, true);
    BurstsKeep(cfg, looked, c, order);
    assert looked.clients[c].awaiting == tiles - st.clients[c].subs;
  }

  lemma ActionCalm(cfg: Config, st: Cluster, a: Action, st': Cluster)
    requires ValidConfig(cfg) && Calm(cfg, st) && Sensible(cfg, a) && Does(cfg, st, a, st')
    ensures Calm(cfg, st')
  {
    match a
    case Write(layer, id, pos) => ExecuteCalm(cfg, st, GeoAdd(layer, id, pos), []);
    case Remove(layer, id) => ExecuteCalm(cfg, st, ZRem(layer, id), []);
    case SetFields(id, fields) =>
      var order :| Lists(order, LayersOf(st.redis, id)) && st' == Next(cfg, st, Execute(0, HSet(id, fields), order));
      ExecuteCalm(cfg, st, HSet(id, fields), order);
    case Look(c, zoom, tiles) =>
      var order: seq<Tile> :| (forall t :: t in tiles - st.clients[c].subs ==> t in order)
        && st' == Bursts(cfg, Next(cfg, st, SetViewport(c, zoom, tiles)), c, order);
      LookCalm(cfg, st, c, zoom, tiles, order);
  }

  lemma {:induction false} HistoryCalm(cfg: Config, states: seq<Cluster>, actions: seq<Action>, i: nat)
    requires ValidConfig(cfg) && History(cfg, states, actions) && i < |states|
    ensures Calm(cfg, states[i])
  {
    if i == 0 {
      InitInv(cfg, states[0], true);
    } else {
      HistoryCalm(cfg, states, actions, i - 1);
      assert Sensible(cfg, actions[i - 1]) && Does(cfg, states[i - 1], actions[i - 1], states[i - 1 + 1]);
      ActionCalm(cfg, states[i - 1], actions[i - 1], states[i]);
    }
  }

  /** On one node, after every action of any sequence of GEOADD, ZREM, HSET and viewport changes by any number of
      clients, every client's map equals what a direct query over its tiles returns, attributes included. */
  lemma {:induction false} AlwaysRight(cfg: Config, states: seq<Cluster>, actions: seq<Action>, i: nat, c: nat)
    requires ValidConfig(cfg) && History(cfg, states, actions) && i < |states| && c < |states[i].clients|
    ensures states[i].clients[c].features == Wanted(cfg, states[i], c)
  {
    HistoryCalm(cfg, states, actions, i);
    AloneIsCaughtUp(cfg, states[i], c, true);
  }
}
