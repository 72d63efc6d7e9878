/** Who gets which publish, over whole runs of the cluster. No precondition on the steps:
    routing works however nodes write, bridge, and clients move. */
module Delivery {
  import opened Payloads
  import opened RedisStore
  import opened Protocol

  /** The positions on the bus that node n hands to its broker in one step. */
  function HandedOver(cfg: Config, st: Cluster, s: Step, n: nat): seq<nat> {
    match s
    case Execute(m, cmd, order) =>
      if m == n then seq(|MessagesOf(cfg, st.redis, cmd, order)|, i requires 0 <= i => |st.bus| + i) else []
    case Bridge(m) =>
      if m == n && n < |st.read| && st.read[n] < |st.bus| && st.bus[st.read[n]].origin != n then [st.read[n]] else []
    case SetViewport(_, _, _) => []
    case RunSnapshot(_, _) => []
  }

  function AllHandedOver(cfg: Config, st: Cluster, steps: seq<Step>, n: nat): seq<nat>
    decreases |steps|
  {
    if steps == [] then []
    else HandedOver(cfg, st, steps[0], n) + AllHandedOver(cfg, Next(cfg, st, steps[0]), steps[1..], n)
  }

  ghost predicate NoRepeats(s: seq<nat>) {
    forall i, j :: 0 <= i < j < |s| ==> s[i] != s[j]
  }

  /** Publishes of any one node are listed in bus order. */
  ghost predicate InOrder(d: seq<nat>, bus: seq<Envelope>) {
    forall a, b :: 0 <= a < b < |d| && d[a] < |bus| && d[b] < |bus| && bus[d[a]].origin == bus[d[b]].origin ==>
      d[a] < d[b]
  }

  function StepPublishes(cfg: Config, st: Cluster, s: Step): seq<Envelope> {
    if s.Execute? then Envelopes(s.node, MessagesOf(cfg, st.redis, s.cmd, s.order)) else []
  }

  /** The publishes of a run: those of the executed commands, and no others. */
  function Published(cfg: Config, st: Cluster, steps: seq<Step>): seq<Envelope>
    decreases |steps|
  {
    if steps == [] then [] else StepPublishes(cfg, st, steps[0]) + Published(cfg, Next(cfg, st, steps[0]), steps[1..])
  }

  lemma StepBus(cfg: Config, st: Cluster, s: Step)
    ensures Next(cfg, st, s).bus == st.bus + StepPublishes(cfg, st, s)
  {
    assert st.bus + [] == st.bus;
  }

  lemma Regroup(whole: seq<Envelope>, a: seq<Envelope>, b: seq<Envelope>, c: seq<Envelope>, tail: seq<Envelope>)
    requires whole == (a + b) + c && tail == b + c
    ensures whole == a + tail
  {
  }

  /** Bridges never put anything on the bus. */
  lemma {:induction false} OnlyCommandsPublish(cfg: Config, st: Cluster, steps: seq<Step>)
    ensures Run(cfg, st, steps).bus == st.bus + Published(cfg, st, steps)
    decreases |steps|
  {
    if steps == [] {
      assert st.bus + [] == st.bus;
    } else {
      var mid := Next(cfg, st, steps[0]);
      StepBus(cfg, st, steps[0]);
      OnlyCommandsPublish(cfg, mid, steps[1..]);
      Regroup(Run(cfg, st, steps).bus, st.bus, StepPublishes(cfg, st, steps[0]), Published(cfg, mid, steps[1..]),
              Published(cfg, st, steps));
    }
  }

  /** What a run may hand over at node n: its own publishes as they are made, and the
      other nodes' publishes that its bridge passes. */
  ghost predicate Due(before: Cluster, after: Cluster, n: nat, i: nat)
    requires n < |before.read| && n < |after.read|
  {
    && i < |after.bus|
    && if after.bus[i].origin == n then |before.bus| <= i else before.read[n] <= i < after.read[n]
  }

  ghost predicate ReadsBehind(st: Cluster) {
    forall n :: 0 <= n < |st.read| ==> st.read[n] <= |st.bus|
  }

  lemma RunFrame(cfg: Config, st: Cluster, s: Step, n: nat)
    requires ReadsBehind(st) && n < |st.read|
    ensures var st' := Next(cfg, st, s);
            && ReadsBehind(st') && |st'.read| == |st.read| && st.bus <= st'.bus && st.read[n] <= st'.read[n]
  {
  }

  lemma {:induction false} RunGrows(cfg: Config, st: Cluster, steps: seq<Step>, n: nat)
    requires ReadsBehind(st) && n < |st.read|
    ensures var st' := Run(cfg, st, steps);
            && ReadsBehind(st') && |st'.read| == |st.read| && st.bus <= st'.bus && st.read[n] <= st'.read[n]
    decreases |steps|
  {
    if steps != [] {
      RunFrame(cfg, st, steps[0], n);
      RunGrows(cfg, Next(cfg, st, steps[0]), steps[1..], n);
    }
  }

  /** One step hands over exactly what is due in it, in bus order. */
  lemma HandedOverExact(cfg: Config, st: Cluster, s: Step, n: nat)
    requires ReadsBehind(st) && n < |st.read|
    ensures var st' := Next(cfg, st, s);
            var d := HandedOver(cfg, st, s, n);
            && |st'.read| == |st.read|
            && (forall i :: i in d <==> Due(st, st', n, i))
            && (forall a, b :: 0 <= a < b < |d| ==> d[a] < d[b])
  {
    var st' := Next(cfg, st, s);
    var d := HandedOver(cfg, st, s, n);
    forall i: nat ensures i in d <==> Due(st, st', n, i) {
      if s.Execute? && s.node == n && |st.bus| <= i < |st'.bus| {
        assert d[i - |st.bus|] == i;
      }
    }
  }

  /** Over every run, each node hands every publish that is due to its broker exactly once, and
      the publishes of any one node in the order they were made. */
  lemma {:induction false} ExactlyOnce(cfg: Config, st: Cluster, steps: seq<Step>, n: nat)
    requires ReadsBehind(st) && n < |st.read|
    ensures var st' := Run(cfg, st, steps);
            var d := AllHandedOver(cfg, st, steps, n);
            && |st'.read| == |st.read|
            && NoRepeats(d)
            && (forall i :: i in d <==> Due(st, st', n, i))
            && InOrder(d, st'.bus)
    decreases |steps|
  {
    if steps != [] {
      var mid := Next(cfg, st, steps[0]);
      var st' := Run(cfg, st, steps);
      var first, rest := HandedOver(cfg, st, steps[0], n), AllHandedOver(cfg, mid, steps[1..], n);
      RunFrame(cfg, st, steps[0], n);
      HandedOverExact(cfg, st, steps[0], n);
      ExactlyOnce(cfg, mid, steps[1..], n);
      RunGrows(cfg, mid, steps[1..], n);
      JoinOrder(st, mid, st', n, first, rest);
      forall i: nat {
        DueSplits(st, mid, st', n, i);
      }
    }
  }

  /** Positions that are due in one part of a run come before those due in the next. */
  lemma JoinOrder(before: Cluster, mid: Cluster, after: Cluster, n: nat, first: seq<nat>, rest: seq<nat>)
    requires n < |before.read| && |before.read| == |mid.read| == |after.read|
    requires mid.bus <= after.bus && before.read[n] <= mid.read[n]
    requires ReadsBehind(mid)
    requires forall i :: i in first ==> Due(before, mid, n, i)
    requires forall i :: i in rest ==> Due(mid, after, n, i)
    requires forall a, b :: 0 <= a < b < |first| ==> first[a] < first[b]
    requires NoRepeats(rest) && InOrder(rest, after.bus)
    ensures NoRepeats(first + rest) && InOrder(first + rest, after.bus)
  {
    var d := first + rest;
    forall i | i in first ensures !Due(mid, after, n, i) {
      assert mid.bus[i] == after.bus[i];
    }
    forall a, b | 0 <= a < b < |d| && d[a] < |after.bus| && d[b] < |after.bus|
      && after.bus[d[a]].origin == after.bus[d[b]].origin
      ensures d[a] < d[b]
    {
      if a < |first| && b >= |first| {
        assert d[a] in first && d[b] in rest;
        assert mid.bus[d[a]] == after.bus[d[a]];
      }
    }
    forall a, b | 0 <= a < b < |d| ensures d[a] != d[b] {
      assert a < |first| ==> d[a] in first;
      assert b >= |first| ==> d[b] in rest;
    }
  }

  /** What is due over two parts of a run is due in exactly one of them. */
  lemma DueSplits(before: Cluster, mid: Cluster, after: Cluster, n: nat, i: nat)
    requires n < |before.read| && |before.read| == |mid.read| == |after.read|
    requires before.bus <= mid.bus <= after.bus && before.read[n] <= mid.read[n] <= after.read[n]
    requires ReadsBehind(mid)
    ensures Due(before, after, n, i) <==> Due(before, mid, n, i) || Due(mid, after, n, i)
    ensures !(Due(before, mid, n, i) && Due(mid, after, n, i))
  {
    if i < |mid.bus| {
      assert mid.bus[i] == after.bus[i];
    }
  }

  // ---------- What this means for clients ----------

  /** The messages at the given bus positions. */
  function MessagesAt(bus: seq<Envelope>, d: seq<nat>): seq<Message> {
    if d == [] then [] else (if d[0] < |bus| then [bus[d[0]].msg] else []) + MessagesAt(bus, d[1..])
  }

  /** The positions of what node n has just appended. */
  function PlacesFrom(from: nat, n: nat): (d: seq<nat>)
    ensures |d| == n && forall i :: 0 <= i < n ==> d[i] == from + i
  {
    seq(n, i requires 0 <= i => from + i)
  }

  lemma EndOfBus(bus: seq<Envelope>, n: nat, ms: seq<Message>, from: nat)
    requires from <= |bus| && bus[from..] == Envelopes(n, ms) && ms != []
    ensures from < |bus| && bus[from] == Envelope(n, ms[0]) && bus[from + 1..] == Envelopes(n, ms[1..])
  {
    assert bus[from..][0] == bus[from] && bus[from..][1..] == bus[from + 1..];
    assert Envelopes(n, ms)[1..] == Envelopes(n, ms[1..]);
  }

  lemma {:induction false} AppendedAt(bus: seq<Envelope>, n: nat, ms: seq<Message>, from: nat)
    requires from <= |bus| && bus[from..] == Envelopes(n, ms)
    ensures MessagesAt(bus, PlacesFrom(from, |ms|)) == ms
    decreases |ms|
  {
    if ms != [] {
      EndOfBus(bus, n, ms, from);
      AppendedAt(bus, n, ms[1..], from + 1);
      assert PlacesFrom(from, |ms|)[1..] == PlacesFrom(from + 1, |ms[1..]|);
    }
  }

  lemma ExecuteAppends(cfg: Config, st: Cluster, n: nat, cmd: Command, order: seq<string>)
    ensures Next(cfg, st, Execute(n, cmd, order)).bus == st.bus + Envelopes(n, MessagesOf(cfg, st.redis, cmd, order))
    ensures HandedOver(cfg, st, Execute(n, cmd, order), n)
         == PlacesFrom(|st.bus|, |MessagesOf(cfg, st.redis, cmd, order)|)
  {
  }

  /** What a step's own node appends to the bus is what it hands over. */
  lemma ExecuteHandsOver(cfg: Config, st: Cluster, n: nat, cmd: Command, order: seq<string>)
    ensures var s := Execute(n, cmd, order);
            MessagesAt(Next(cfg, st, s).bus, HandedOver(cfg, st, s, n)) == MessagesOf(cfg, st.redis, cmd, order)
  {
    var ms, bus' := MessagesOf(cfg, st.redis, cmd, order), Next(cfg, st, Execute(n, cmd, order)).bus;
    ExecuteAppends(cfg, st, n, cmd, order);
    AppendedAt(bus', n, ms, |st.bus|);
  }

  /** In every step that delivers, each client folds exactly the messages that its node hands over. */
  lemma {:induction false} StepDelivers(cfg: Config, st: Cluster, s: Step, c: nat)
    requires c < |st.clients| && (s.Execute? || s.Bridge?)
    ensures |Next(cfg, st, s).clients| == |st.clients|
    ensures Next(cfg, st, s).clients[c]
         == DeliverAllTo(st.clients[c], MessagesAt(Next(cfg, st, s).bus, HandedOver(cfg, st, s, st.clients[c].node)))
  {
    match s
    case Execute(n, cmd, order) =>
      if st.clients[c].node == n {
        ExecuteHandsOver(cfg, st, n, cmd, order);
      }
    case Bridge(n) =>
      var d := HandedOver(cfg, st, s, st.clients[c].node);
      if d != [] {
        var m := st.bus[st.read[n]].msg;
        assert MessagesAt(st.bus, d) == [m] + MessagesAt(st.bus, d[1..]) && d[1..] == [];
        assert DeliverAllTo(st.clients[c], [m]) == DeliverAllTo(DeliverTo(st.clients[c], m), [m][1..]);
      }
    case _ =>
  }

  // ---------- Clients over runs ----------

  /** Of the publishes at the given bus positions, those a client takes. */
  function Taken(c: Client, bus: seq<Envelope>, d: seq<nat>): seq<nat> {
    if d == [] then []
    else (if d[0] < |bus| && Wants(c, bus[d[0]].msg) then [d[0]] else []) + Taken(c, bus, d[1..])
  }

  /** The client with the tile messages at the given positions handled one after the other, no questions asked. */
  function Handled(c: Client, bus: seq<Envelope>, d: seq<nat>): Client
    decreases |d|
  {
    if d == [] then c
    else
      var c' := if d[0] < |bus| && bus[d[0]].msg.TileMsg?
        then c.(features := HandleTile(c.features, bus[d[0]].msg.payload)) else c;
      Handled(c', bus, d[1..])
  }

  lemma {:induction false} DeliveredIsHandled(c: Client, bus: seq<Envelope>, d: seq<nat>)
    ensures DeliverAllTo(c, MessagesAt(bus, d)) == Handled(c, bus, Taken(c, bus, d))
    decreases |d|
  {
    if d != [] {
      var ms, rest := MessagesAt(bus, d[1..]), Taken(c, bus, d[1..]);
      if d[0] < |bus| {
        var m := bus[d[0]].msg;
        assert ([m] + ms)[0] == m && ([m] + ms)[1..] == ms;
        var c' := DeliverTo(c, m);
        SameTaste(c, c', bus, d[1..]);
        DeliveredIsHandled(c', bus, d[1..]);
        if Wants(c, m) {
          assert ([d[0]] + rest)[0] == d[0] && ([d[0]] + rest)[1..] == rest;
        } else {
          assert [] + rest == rest;
        }
      } else {
        DeliveredIsHandled(c, bus, d[1..]);
        assert [] + ms == ms && [] + rest == rest;
      }
    }
  }

  /** What a client takes does not depend on its features. */
  lemma {:induction false} SameTaste(c: Client, c': Client, bus: seq<Envelope>, d: seq<nat>)
    requires c' == c.(features := c'.features)
    ensures Taken(c', bus, d) == Taken(c, bus, d)
  {
    if d != [] {
      SameTaste(c, c', bus, d[1..]);
    }
  }

  /** The bus positions of all publishes a client takes in a run. */
  function Inbox(cfg: Config, st: Cluster, steps: seq<Step>, c: nat): seq<nat>
    decreases |steps|
  {
    if steps == [] || c >= |st.clients| then []
    else
      var st' := Next(cfg, st, steps[0]);
      Taken(st.clients[c], st'.bus, HandedOver(cfg, st, steps[0], st.clients[c].node)) + Inbox(cfg, st', steps[1..], c)
  }

  /** The client's own part of a step: it looks elsewhere, or receives a burst. */
  function OwnStep(cfg: Config, r: Redis, cl: Client, s: Step, c: nat): Client {
    match s
    case SetViewport(i, zoom, tiles) => if i == c then ChangeViewport(cfg, cl, zoom, tiles) else cl
    case RunSnapshot(i, t) =>
      if i == c && t in cl.awaiting
      then cl.(awaiting := cl.awaiting - {t}, features := SnapshotInto(cfg, r, cl.layer, cl.features, {t})) else cl
    case _ => cl
  }

  /** A client that lives through a run on nothing but its own steps and the publishes at the positions of its inbox;
      with the client, those positions. The clients of `st` are not consulted. */
  function Lived(cfg: Config, st: Cluster, steps: seq<Step>, c: nat, cl: Client): (Client, seq<nat>)
    decreases |steps|
  {
    if steps == [] then (cl, [])
    else
      var st' := Next(cfg, st, steps[0]);
      var d := Taken(cl, st'.bus, HandedOver(cfg, st, steps[0], cl.node));
      var (end, more) := Lived(cfg, st', steps[1..], c, OwnStep(cfg, st.redis, Handled(cl, st'.bus, d), steps[0], c));
      (end, d + more)
  }

  lemma StepLived(cfg: Config, st: Cluster, s: Step, c: nat)
    requires c < |st.clients|
    ensures var cl, st' := st.clients[c], Next(cfg, st, s);
            && |st'.clients| == |st.clients|
            && st'.clients[c]
              == OwnStep(cfg, st.redis, Handled(cl, st'.bus, Taken(cl, st'.bus, HandedOver(cfg, st, s, cl.node))), s, c)
  {
    var cl, st' := st.clients[c], Next(cfg, st, s);
    var d := HandedOver(cfg, st, s, cl.node);
    if s.Execute? || s.Bridge? {
      StepDelivers(cfg, st, s, c);
      DeliveredIsHandled(cl, st'.bus, d);
    } else {
      assert d == [];
    }
  }

  /** The inbox is what the client folds: over every run its map comes from its own steps and exactly the publishes
      at the positions of its inbox, in that order. */
  lemma {:induction false} InboxIsFolded(cfg: Config, st: Cluster, steps: seq<Step>, c: nat)
    requires c < |st.clients|
    ensures c < |Run(cfg, st, steps).clients|
    ensures Lived(cfg, st, steps, c, st.clients[c]) == (Run(cfg, st, steps).clients[c], Inbox(cfg, st, steps, c))
    decreases |steps|
  {
    if steps != [] {
      StepLived(cfg, st, steps[0], c);
      InboxIsFolded(cfg, Next(cfg, st, steps[0]), steps[1..], c);
    }
  }

  /** The client subscribes to the topic in every state of the run. */
  ghost predicate Follows(cfg: Config, st: Cluster, steps: seq<Step>, c: nat, m: Message)
    decreases |steps|
  {
    && c < |st.clients|
    && Wants(st.clients[c], m)
    && (steps != [] ==> Follows(cfg, Next(cfg, st, steps[0]), steps[1..], c, m))
  }

  function Count(s: seq<nat>, i: nat): nat {
    if s == [] then 0 else (if s[0] == i then 1 else 0) + Count(s[1..], i)
  }

  lemma {:induction false} CountAppend(a: seq<nat>, b: seq<nat>, i: nat)
    ensures Count(a + b, i) == Count(a, i) + Count(b, i)
  {
    if a == [] {
      assert a + b == b;
    } else {
      assert (a + b)[0] == a[0] && (a + b)[1..] == a[1..] + b;
      CountAppend(a[1..], b, i);
    }
  }

  lemma {:induction false} CountNoRepeats(s: seq<nat>, i: nat)
    requires NoRepeats(s)
    ensures Count(s, i) == if i in s then 1 else 0
  {
    if s != [] {
      forall a, b | 0 <= a < b < |s[1..]| ensures s[1..][a] != s[1..][b] {
        assert s[a + 1] != s[b + 1];
      }
      CountNoRepeats(s[1..], i);
      assert s[0] == i ==> i !in s[1..];
    }
  }

  lemma {:induction false} CountTaken(c: Client, bus: seq<Envelope>, d: seq<nat>, i: nat)
    ensures Count(Taken(c, bus, d), i) == if i < |bus| && Wants(c, bus[i].msg) then Count(d, i) else 0
  {
    if d != [] {
      CountTaken(c, bus, d[1..], i);
      var rest := Taken(c, bus, d[1..]);
      assert ([d[0]] + rest)[1..] == rest && [] + rest == rest;
    }
  }

  lemma ClientFrame(cfg: Config, st: Cluster, s: Step, c: nat)
    requires c < |st.clients|
    ensures |Next(cfg, st, s).clients| == |st.clients|
    ensures Next(cfg, st, s).clients[c].node == st.clients[c].node
  {
    if s.Execute? && st.clients[c].node == s.node {
      DeliverAllToMember(st.clients[c], MessagesOf(cfg, st.redis, s.cmd, s.order), "");
    }
  }

  /** A client takes each publish at most as often as its node hands it over, and, while it
      follows the topic, just as often. */
  lemma {:induction false} InboxCount(cfg: Config, st: Cluster, steps: seq<Step>, c: nat, i: nat)
    requires ReadsBehind(st) && c < |st.clients| && st.clients[c].node < |st.read|
    ensures var n := st.clients[c].node;
            var st' := Run(cfg, st, steps);
            && Count(Inbox(cfg, st, steps, c), i) <= Count(AllHandedOver(cfg, st, steps, n), i)
            && (i < |st'.bus| && Follows(cfg, st, steps, c, st'.bus[i].msg)
                ==> Count(Inbox(cfg, st, steps, c), i) == Count(AllHandedOver(cfg, st, steps, n), i))
    decreases |steps|
  {
    if steps != [] {
      var n := st.clients[c].node;
      var mid := Next(cfg, st, steps[0]);
      var d := HandedOver(cfg, st, steps[0], n);
      RunFrame(cfg, st, steps[0], n);
      ClientFrame(cfg, st, steps[0], c);
      RunGrows(cfg, mid, steps[1..], n);
      InboxCount(cfg, mid, steps[1..], c, i);
      CountAppend(d, AllHandedOver(cfg, mid, steps[1..], n), i);
      CountAppend(Taken(st.clients[c], mid.bus, d), Inbox(cfg, mid, steps[1..], c), i);
      CountTaken(st.clients[c], mid.bus, d, i);
      HandedOverExact(cfg, st, steps[0], n);
      if i !in d {
        CountAbsent(d, i);
      }
    }
  }

  lemma {:induction false} CountAbsent(d: seq<nat>, i: nat)
    requires i !in d
    ensures Count(d, i) == 0
  {
    if d != [] {
      CountAbsent(d[1..], i);
    }
  }

  /** Over every run, no client takes a publish twice. A client that follows a topic throughout
      takes each of its publishes made during the run, and each still in flight at the start,
      exactly once as soon as its node has bridged everything. */
  lemma ExactlyOncePerClient(cfg: Config, st: Cluster, steps: seq<Step>, c: nat, i: nat)
    requires ReadsBehind(st) && c < |st.clients| && st.clients[c].node < |st.read|
    ensures var n := st.clients[c].node;
            var st' := Run(cfg, st, steps);
            var times := Count(Inbox(cfg, st, steps, c), i);
            && times <= 1
            && n < |st'.read|
            && (i < |st'.bus| && Follows(cfg, st, steps, c, st'.bus[i].msg) && st'.read[n] == |st'.bus|
                && (|st.bus| <= i || (st'.bus[i].origin != n && st.read[n] <= i))
                ==> times == 1)
  {
    var n := st.clients[c].node;
    var d := AllHandedOver(cfg, st, steps, n);
    ExactlyOnce(cfg, st, steps, n);
    CountNoRepeats(d, i);
    InboxCount(cfg, st, steps, c, i);
    RunGrows(cfg, st, steps, n);
    assert i in d <==> Due(st, Run(cfg, st, steps), n, i);
  }
}
