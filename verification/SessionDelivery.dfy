/** Who gets which publish, for real broker sessions with any filters: nodes with their brokers, their bridges, and
    the bytes that go over Redis. Nodes emit whatever messages they like, so that nothing hangs on how a command's
    messages are interleaved with the rest. */
module SessionDelivery {
  import opened Payloads
  import opened Topics
  import opened RedisStore
  import opened Protocol
  import opened Delivery
  import B = MqttBroker
  import F = TileFanout
  import R = Bridge

  /** How messages, senders and text are written. */
  datatype Wiring = Wiring(encode: Message -> seq<Byte>, validUtf8: seq<Byte> -> bool, name: nat -> seq<Byte>)

  /** What was ever published on Redis, how far each node's bridge has got, and each node's broker. */
  datatype Network = Network(bus: seq<Envelope>, read: seq<nat>, brokers: seq<B.State>)

  datatype Move =
    | Emits(node: nat, ms: seq<Message>)
    | Bridged(node: nat)
    | Session(node: nat, event: B.Event)

  function Advance(w: Wiring, st: Network, s: Move): Network {
    match s
    case Emits(n, ms) =>
      if n >= |st.brokers| then st
      else
        var o := F.Emit(F.Outside(st.bus, st.brokers[n]), n, w.encode, ms);
        st.(bus := o.bus, brokers := st.brokers[n := o.broker])
    case Bridged(n) =>
      if n >= |st.brokers| || n >= |st.read| || st.read[n] >= |st.bus| then st
      else
        var wire := R.ToWire(w.encode, w.name, st.bus[st.read[n]]);
        st.(read := st.read[n := st.read[n] + 1],
            brokers := st.brokers[n := B.Run(st.brokers[n], R.Accepted(w.validUtf8, w.name(n), wire))])
    case Session(n, e) =>
      if n >= |st.brokers| || e.PublishLocal? then st
      else st.(brokers := st.brokers[n := B.Next(st.brokers[n], e)])
  }

  function AdvanceAll(w: Wiring, st: Network, moves: seq<Move>): Network
    decreases |moves|
  {
    if moves == [] then st else AdvanceAll(w, Advance(w, st, moves[0]), moves[1..])
  }

  /** The routing part of the network, as the protocol has it. */
  function Routing(st: Network): Cluster {
    Cluster(Redis(map[], map[], map[]), st.bus, st.read, [])
  }

  ghost predicate Wired(st: Network) {
    && |st.read| == |st.brokers|
    && ReadsBehind(Routing(st))
    && forall n :: 0 <= n < |st.brokers| ==> B.Valid(st.brokers[n])
  }

  ghost predicate NoColons(bus: seq<Envelope>) {
    forall i :: 0 <= i < |bus| ==> R.NoColon(bus[i].msg)
  }

  // ---------- One broker, one session ----------

  function TextOf(m: Message): string {
    TopicText(TopicOf(m))
  }

  /** Of a list of messages, those the session hears. */
  function HeardBy(s: B.Session, ms: seq<Message>): seq<Message> {
    if ms == [] then [] else (if B.Hears(s, TextOf(ms[0])) then [ms[0]] else []) + HeardBy(s, ms[1..])
  }

  function AllPackaged(encode: Message -> seq<Byte>, ms: seq<Message>): seq<B.Outbound> {
    if ms == [] then [] else [B.Publish(F.PacketOf(encode, ms[0]))] + AllPackaged(encode, ms[1..])
  }

  lemma {:induction false} PackagedAppend(encode: Message -> seq<Byte>, a: seq<Message>, b: seq<Message>)
    ensures AllPackaged(encode, a + b) == AllPackaged(encode, a) + AllPackaged(encode, b)
  {
    if a == [] {
      assert a + b == b;
    } else {
      assert (a + b)[0] == a[0] && (a + b)[1..] == a[1..] + b;
      PackagedAppend(encode, a[1..], b);
    }
  }

  lemma OnePublished(encode: Message -> seq<Byte>, st: B.State, id: nat, m: Message)
    requires id in st.sessions
    ensures var s, st' := st.sessions[id], B.Next(st, F.LocalPublish(encode, m));
            && id in st'.sessions
            && st'.sessions[id] == s.(outbound := s.outbound + AllPackaged(encode, HeardBy(s, [m])))
  {
    var s := st.sessions[id];
    assert HeardBy(s, [m]) == if B.Hears(s, TextOf(m)) then [m] else [];
    assert AllPackaged(encode, [m]) == [B.Publish(F.PacketOf(encode, m))];
    assert s.outbound + [] == s.outbound;
  }

  lemma HeardByCons(s: B.Session, ms: seq<Message>)
    requires ms != []
    ensures HeardBy(s, ms) == HeardBy(s, [ms[0]]) + HeardBy(s, ms[1..])
  {
    assert [ms[0]][1..] == [];
  }

  lemma {:induction false} SameEars(s: B.Session, s': B.Session, ms: seq<Message>)
    requires s' == s.(outbound := s'.outbound)
    ensures HeardBy(s', ms) == HeardBy(s, ms)
  {
    if ms != [] {
      SameEars(s, s', ms[1..]);
    }
  }

  lemma PushedTwice(s: B.Session, a: seq<B.Outbound>, b: seq<B.Outbound>, mid: B.Session)
    requires mid == s.(outbound := s.outbound + a)
    ensures mid.(outbound := mid.outbound + b) == s.(outbound := s.outbound + (a + b))
  {
    assert s.outbound + a + b == s.outbound + (a + b);
  }

  lemma FirstPublish(encode: Message -> seq<Byte>, st: B.State, ms: seq<Message>)
    requires ms != []
    ensures B.Run(st, F.LocalPublishes(encode, ms))
         == B.Run(B.Next(st, F.LocalPublish(encode, ms[0])), F.LocalPublishes(encode, ms[1..]))
  {
    assert F.LocalPublishes(encode, ms)[1..] == F.LocalPublishes(encode, ms[1..]);
  }

  /** A list of local publishes queues for a session just the packets of the messages it hears, in order. */
  lemma {:induction false} PublishesReach(encode: Message -> seq<Byte>, st: B.State, id: nat, ms: seq<Message>)
    requires id in st.sessions
    ensures var s, st' := st.sessions[id], B.Run(st, F.LocalPublishes(encode, ms));
            && id in st'.sessions
            && st'.sessions[id] == s.(outbound := s.outbound + AllPackaged(encode, HeardBy(s, ms)))
    decreases |ms|
  {
    var s := st.sessions[id];
    if ms == [] {
      assert s.outbound + [] == s.outbound;
    } else {
      var mid := B.Next(st, F.LocalPublish(encode, ms[0]));
      FirstPublish(encode, st, ms);
      OnePublished(encode, st, id, ms[0]);
      PublishesReach(encode, mid, id, ms[1..]);
      SameEars(s, mid.sessions[id], ms[1..]);
      HeardByCons(s, ms);
      PackagedAppend(encode, HeardBy(s, [ms[0]]), HeardBy(s, ms[1..]));
      PushedTwice(s, AllPackaged(encode, HeardBy(s, [ms[0]])), AllPackaged(encode, HeardBy(s, ms[1..])),
                  mid.sessions[id]);
    }
  }

  // ---------- What a session receives in a run ----------

  /** The positions on the bus that node n hands to its broker. */
  function HandedTo(st: Network, s: Move, n: nat): seq<nat> {
    match s
    case Emits(m, ms) => if m == n && n < |st.brokers| then PlacesFrom(|st.bus|, |ms|) else []
    case Bridged(m) =>
      if m == n && n < |st.brokers| && n < |st.read| && st.read[n] < |st.bus| && st.bus[st.read[n]].origin != n
      then [st.read[n]] else []
    case Session(_, _) => []
  }

  /** An item in a session's queue: a copy of the publish at a bus position, or something sent to this session only. */
  datatype Item = Copy(at: nat) | Direct(item: B.Outbound)

  predicate HearsAt(s: B.Session, bus: seq<Envelope>, i: nat) {
    i < |bus| && B.Hears(s, TextOf(bus[i].msg))
  }

  function HeardAt(s: B.Session, bus: seq<Envelope>, d: seq<nat>): seq<Item> {
    if d == [] then [] else (if HearsAt(s, bus, d[0]) then [Copy(d[0])] else []) + HeardAt(s, bus, d[1..])
  }

  predicate Connected(st: Network, n: nat, id: nat) {
    n < |st.brokers| && id in st.brokers[n].sessions
  }

  function StepItems(w: Wiring, st: Network, s: Move, n: nat, id: nat): seq<Item> {
    if !Connected(st, n, id) then []
    else
      var session := st.brokers[n].sessions[id];
      match s
      case Session(m, SendDirect(i, item)) => if m == n && i == id && session.open then [Direct(item)] else []
      case _ => HeardAt(session, Advance(w, st, s).bus, HandedTo(st, s, n))
  }

  function Received(w: Wiring, st: Network, moves: seq<Move>, n: nat, id: nat): seq<Item>
    decreases |moves|
  {
    if moves == [] then []
    else StepItems(w, st, moves[0], n, id) + Received(w, Advance(w, st, moves[0]), moves[1..], n, id)
  }

  /** The items as they stand in the queue. */
  function Queued(encode: Message -> seq<Byte>, bus: seq<Envelope>, items: seq<Item>): seq<B.Outbound> {
    if items == [] then []
    else
      (match items[0]
       case Copy(i) => if i < |bus| then [B.Publish(F.PacketOf(encode, bus[i].msg))] else []
       case Direct(item) => [item]) + Queued(encode, bus, items[1..])
  }

  /** The bus positions among the items. */
  function Places(items: seq<Item>): seq<nat> {
    if items == [] then [] else (if items[0].Copy? then [items[0].at] else []) + Places(items[1..])
  }

  lemma {:induction false} QueuedAppend(encode: Message -> seq<Byte>, bus: seq<Envelope>, a: seq<Item>, b: seq<Item>)
    ensures Queued(encode, bus, a + b) == Queued(encode, bus, a) + Queued(encode, bus, b)
  {
    if a == [] {
      assert a + b == b;
    } else {
      assert (a + b)[0] == a[0] && (a + b)[1..] == a[1..] + b;
      QueuedAppend(encode, bus, a[1..], b);
    }
  }

  lemma {:induction false} PlacesAppend(a: seq<Item>, b: seq<Item>)
    ensures Places(a + b) == Places(a) + Places(b)
  {
    if a == [] {
      assert a + b == b;
    } else {
      assert (a + b)[0] == a[0] && (a + b)[1..] == a[1..] + b;
      PlacesAppend(a[1..], b);
    }
  }

  /** All copies are of publishes that are on the bus. */
  ghost predicate OnBus(items: seq<Item>, bus: seq<Envelope>) {
    forall k :: 0 <= k < |items| && items[k].Copy? ==> items[k].at < |bus|
  }

  /** A longer bus does not change what has been queued. */
  lemma {:induction false} QueuedGrows(encode: Message -> seq<Byte>, bus: seq<Envelope>, longer: seq<Envelope>,
                                       items: seq<Item>)
    requires bus <= longer && OnBus(items, bus)
    ensures Queued(encode, longer, items) == Queued(encode, bus, items)
  {
    if items != [] {
      assert OnBus(items[1..], bus);
      QueuedGrows(encode, bus, longer, items[1..]);
    }
  }

  lemma {:induction false} HeardAtOnBus(s: B.Session, bus: seq<Envelope>, d: seq<nat>)
    ensures OnBus(HeardAt(s, bus, d), bus)
  {
    if d != [] {
      HeardAtOnBus(s, bus, d[1..]);
    }
  }

  lemma OnePlace(i: nat)
    ensures Places([Copy(i)]) == [i]
  {
    assert [Copy(i)][1..] == [];
  }

  lemma PutFirst(first: nat, keep: bool, rest: seq<nat>, all: seq<nat>)
    requires all == if keep then [first] + rest else rest
    requires Ascending(rest) && forall i :: i in rest ==> first < i
    ensures Ascending(all)
    ensures forall i :: i in all <==> (keep && i == first) || i in rest
  {
    forall a, b | 0 <= a < b < |all| ensures all[a] < all[b] {
      assert keep ==> all[b] == rest[b - 1] && all[b] in rest;
    }
    assert keep ==> all[0] == first && forall k :: 0 <= k < |rest| ==> all[k + 1] == rest[k];
  }

  lemma HeardAtFirst(s: B.Session, bus: seq<Envelope>, d: seq<nat>)
    requires d != []
    ensures var rest := Places(HeardAt(s, bus, d[1..]));
            Places(HeardAt(s, bus, d)) == if HearsAt(s, bus, d[0]) then [d[0]] + rest else rest
  {
    if HearsAt(s, bus, d[0]) {
      PlacesAppend([Copy(d[0])], HeardAt(s, bus, d[1..]));
      OnePlace(d[0]);
    } else {
      assert HeardAt(s, bus, d) == HeardAt(s, bus, d[1..]);
    }
  }

  lemma TailAscends(d: seq<nat>)
    requires d != [] && Ascending(d)
    ensures Ascending(d[1..]) && forall i :: i in d[1..] ==> d[0] < i
    ensures forall i :: i in d <==> i == d[0] || i in d[1..]
  {
  }

  /** Of the positions handed over, exactly those the session hears arrive, in that order. */
  lemma {:induction false} HeardAtExact(s: B.Session, bus: seq<Envelope>, d: seq<nat>)
    requires Ascending(d)
    ensures var p := Places(HeardAt(s, bus, d));
            Ascending(p) && forall i :: i in p <==> i in d && HearsAt(s, bus, i)
  {
    if d != [] {
      TailAscends(d);
      HeardAtExact(s, bus, d[1..]);
      HeardAtFirst(s, bus, d);
      PutFirst(d[0], HearsAt(s, bus, d[0]), Places(HeardAt(s, bus, d[1..])), Places(HeardAt(s, bus, d)));
    }
  }

  /** What the session hears of the messages at the end of the bus. */
  lemma {:induction false} AppendedHeard(encode: Message -> seq<Byte>, s: B.Session, bus: seq<Envelope>, n: nat,
                                         ms: seq<Message>, from: nat)
    requires from <= |bus| && bus[from..] == Envelopes(n, ms)
    ensures Queued(encode, bus, HeardAt(s, bus, PlacesFrom(from, |ms|))) == AllPackaged(encode, HeardBy(s, ms))
    decreases |ms|
  {
    if ms != [] {
      var d := PlacesFrom(from, |ms|);
      EndOfBus(bus, n, ms, from);
      AppendedHeard(encode, s, bus, n, ms[1..], from + 1);
      assert d[1..] == PlacesFrom(from + 1, |ms[1..]|);
      OneHeard(encode, s, bus, d, ms);
    }
  }

  lemma OneHeard(encode: Message -> seq<Byte>, s: B.Session, bus: seq<Envelope>, d: seq<nat>, ms: seq<Message>)
    requires d != [] && ms != [] && d[0] < |bus| && bus[d[0]].msg == ms[0]
    requires Queued(encode, bus, HeardAt(s, bus, d[1..])) == AllPackaged(encode, HeardBy(s, ms[1..]))
    ensures Queued(encode, bus, HeardAt(s, bus, d)) == AllPackaged(encode, HeardBy(s, ms))
  {
    if B.Hears(s, TextOf(ms[0])) {
      assert HeardAt(s, bus, d)[1..] == HeardAt(s, bus, d[1..]);
      assert HeardBy(s, ms)[1..] == HeardBy(s, ms[1..]);
    } else {
      assert HeardAt(s, bus, d) == HeardAt(s, bus, d[1..]);
      assert HeardBy(s, ms) == HeardBy(s, ms[1..]);
    }
  }

  // ---------- One step ----------

  lemma BridgedReaches(w: Wiring, st: Network, n: nat, id: nat)
    requires R.GoodNames(w.validUtf8, w.name) && NoColons(st.bus) && Connected(st, n, id)
    requires n < |st.read| && st.read[n] < |st.bus|
    ensures var e, s, st' := st.bus[st.read[n]], st.brokers[n].sessions[id], Advance(w, st, Bridged(n));
            && Connected(st', n, id)
            && st'.brokers[n].sessions[id]
               == s.(outbound := s.outbound + if e.origin == n then [] else AllPackaged(w.encode, HeardBy(s, [e.msg])))
  {
    var e, s := st.bus[st.read[n]], st.brokers[n].sessions[id];
    R.OneBridged(w.validUtf8, w.encode, w.name, n, e);
    if e.origin == n {
      assert s.outbound + [] == s.outbound;
    } else {
      R.RunOne(st.brokers[n], F.LocalPublish(w.encode, e.msg));
      OnePublished(w.encode, st.brokers[n], id, e.msg);
    }
  }

  lemma BridgedItems(w: Wiring, st: Network, n: nat, id: nat)
    requires Connected(st, n, id) && n < |st.read| && st.read[n] < |st.bus|
    ensures var e, s := st.bus[st.read[n]], st.brokers[n].sessions[id];
            Queued(w.encode, st.bus, StepItems(w, st, Bridged(n), n, id))
            == if e.origin == n then [] else AllPackaged(w.encode, HeardBy(s, [e.msg]))
  {
    var e, s := st.bus[st.read[n]], st.brokers[n].sessions[id];
    if e.origin != n {
      var d := [st.read[n]];
      assert d[1..] == [] && [e.msg][1..] == [];
      OneHeard(w.encode, s, st.bus, d, [e.msg]);
    }
  }

  /** One step queues for a session exactly its items, and what is on the bus stays. */
  lemma {:induction false} StepReaches(w: Wiring, st: Network, s: Move, n: nat, id: nat)
    requires R.GoodNames(w.validUtf8, w.name) && NoColons(st.bus) && Wired(st)
    requires Connected(st, n, id) && s != Session(n, B.Deregister(id))
    ensures var st' := Advance(w, st, s);
            && Connected(st', n, id)
            && st'.brokers[n].sessions[id].outbound
               == st.brokers[n].sessions[id].outbound + Queued(w.encode, st'.bus, StepItems(w, st, s, n, id))
  {
    var session, items := st.brokers[n].sessions[id], StepItems(w, st, s, n, id);
    assert session.outbound + [] == session.outbound;
    match s
    case Emits(m, ms) =>
      if m == n {
        EmitsReaches(w, st, n, ms, id);
        EmitsQueued(w, st, n, ms, id);
      }
    case Bridged(m) =>
      if m == n && st.read[n] < |st.bus| {
        BridgedReaches(w, st, n, id);
        BridgedItems(w, st, n, id);
      }
    case Session(m, e) =>
      assert items != [] ==> items == [Direct(e.item)] && items[1..] == [];
  }

  lemma EmitsAdvance(w: Wiring, st: Network, n: nat, ms: seq<Message>)
    requires n < |st.brokers|
    ensures var st' := Advance(w, st, Emits(n, ms));
            && st'.bus == st.bus + Envelopes(n, ms) && |st'.brokers| == |st.brokers|
            && st'.brokers[n] == B.Run(st.brokers[n], F.LocalPublishes(w.encode, ms))
  {
  }

  lemma EmitsItems(w: Wiring, st: Network, n: nat, ms: seq<Message>, id: nat)
    requires Connected(st, n, id)
    ensures StepItems(w, st, Emits(n, ms), n, id)
         == HeardAt(st.brokers[n].sessions[id], Advance(w, st, Emits(n, ms)).bus, PlacesFrom(|st.bus|, |ms|))
  {
  }

  lemma EmitsReaches(w: Wiring, st: Network, n: nat, ms: seq<Message>, id: nat)
    requires Connected(st, n, id)
    ensures var s, st' := st.brokers[n].sessions[id], Advance(w, st, Emits(n, ms));
            && Connected(st', n, id)
            && st'.brokers[n].sessions[id] == s.(outbound := s.outbound + AllPackaged(w.encode, HeardBy(s, ms)))
  {
    EmitsAdvance(w, st, n, ms);
    PublishesReach(w.encode, st.brokers[n], id, ms);
  }

  lemma EmitsQueued(w: Wiring, st: Network, n: nat, ms: seq<Message>, id: nat)
    requires Connected(st, n, id)
    ensures Queued(w.encode, Advance(w, st, Emits(n, ms)).bus, StepItems(w, st, Emits(n, ms), n, id))
         == AllPackaged(w.encode, HeardBy(st.brokers[n].sessions[id], ms))
  {
    EmitsAdvance(w, st, n, ms);
    EmitsItems(w, st, n, ms, id);
    AppendedHeard(w.encode, st.brokers[n].sessions[id], Advance(w, st, Emits(n, ms)).bus, n, ms, |st.bus|);
  }

  // ---------- Runs ----------

  /** Positions handed over in one step are those due in it. */
  lemma HandedToExact(w: Wiring, st: Network, s: Move, n: nat)
    requires Wired(st) && n < |st.brokers|
    ensures var st' := Advance(w, st, s);
            var d := HandedTo(st, s, n);
            && |st'.read| == |st.read| && Ascending(d)
            && forall i :: i in d <==> Due(Routing(st), Routing(st'), n, i)
  {
    var st' := Advance(w, st, s);
    var d := HandedTo(st, s, n);
    forall i: nat ensures i in d <==> Due(Routing(st), Routing(st'), n, i) {
      if s.Emits? && s.node == n && |st.bus| <= i < |st'.bus| {
        assert d[i - |st.bus|] == i;
      }
    }
  }

  lemma AdvanceFrame(w: Wiring, st: Network, s: Move, n: nat)
    requires Wired(st) && n < |st.read|
    ensures var st' := Advance(w, st, s);
            && Wired(st') && |st'.read| == |st.read| && st.bus <= st'.bus && st.read[n] <= st'.read[n]
  {
    match s
    case Emits(m, ms) =>
      if m < |st.brokers| {
        B.RunValid(st.brokers[m], F.LocalPublishes(w.encode, ms));
      }
    case Bridged(m) =>
      if m < |st.brokers| && st.read[m] < |st.bus| {
        B.RunValid(st.brokers[m], R.Accepted(w.validUtf8, w.name(m), R.ToWire(w.encode, w.name, st.bus[st.read[m]])));
      }
    case Session(m, e) =>
      if m < |st.brokers| {
        B.NextValid(st.brokers[m], e);
      }
  }

  lemma {:induction false} AdvanceAllFrame(w: Wiring, st: Network, moves: seq<Move>, n: nat)
    requires Wired(st) && n < |st.read|
    ensures var st' := AdvanceAll(w, st, moves);
            && Wired(st') && |st'.read| == |st.read| && st.bus <= st'.bus && st.read[n] <= st'.read[n]
    decreases |moves|
  {
    if moves != [] {
      AdvanceFrame(w, st, moves[0], n);
      AdvanceAllFrame(w, Advance(w, st, moves[0]), moves[1..], n);
    }
  }

  /** The session is connected, read from, and hears the topic. */
  predicate Listening(st: Network, n: nat, id: nat, topic: string) {
    Connected(st, n, id) && B.Hears(st.brokers[n].sessions[id], topic)
  }

  ghost predicate ListensThroughout(w: Wiring, st: Network, moves: seq<Move>, n: nat, id: nat, topic: string)
    decreases |moves|
  {
    && Listening(st, n, id, topic)
    && (moves != [] ==> ListensThroughout(w, Advance(w, st, moves[0]), moves[1..], n, id, topic))
  }

  ghost predicate ListensSometime(w: Wiring, st: Network, moves: seq<Move>, n: nat, id: nat, topic: string)
    decreases |moves|
  {
    || Listening(st, n, id, topic)
    || (moves != [] && ListensSometime(w, Advance(w, st, moves[0]), moves[1..], n, id, topic))
  }

  lemma StepPlaces(w: Wiring, st: Network, s: Move, n: nat, id: nat)
    requires Wired(st) && Connected(st, n, id)
    ensures var st' := Advance(w, st, s);
            var p := Places(StepItems(w, st, s, n, id));
            && |st'.read| == |st.read| && Ascending(p)
            && OnBus(StepItems(w, st, s, n, id), st'.bus)
            && forall i ::
              i in p <==> Due(Routing(st), Routing(st'), n, i) && HearsAt(st.brokers[n].sessions[id], st'.bus, i)
  {
    var session, st' := st.brokers[n].sessions[id], Advance(w, st, s);
    HandedToExact(w, st, s, n);
    HeardAtExact(session, st'.bus, HandedTo(st, s, n));
    HeardAtOnBus(session, st'.bus, HandedTo(st, s, n));
    if s.Session? {
      var items := StepItems(w, st, s, n, id);
      assert items != [] ==> items[1..] == [];
      assert Places(items) == [];
    }
  }

  /** A run queues for a session exactly the items it receives. */
  lemma {:induction false} RunReaches(w: Wiring, st: Network, moves: seq<Move>, n: nat, id: nat)
    requires R.GoodNames(w.validUtf8, w.name) && Wired(st) && NoColons(AdvanceAll(w, st, moves).bus)
    requires Connected(st, n, id) && Session(n, B.Deregister(id)) !in moves
    ensures var st' := AdvanceAll(w, st, moves);
            && Connected(st', n, id)
            && st'.brokers[n].sessions[id].outbound
               == st.brokers[n].sessions[id].outbound + Queued(w.encode, st'.bus, Received(w, st, moves, n, id))
    decreases |moves|
  {
    var was := st.brokers[n].sessions[id].outbound;
    if moves == [] {
      assert was + [] == was;
    } else {
      var mid, st' := Advance(w, st, moves[0]), AdvanceAll(w, st, moves);
      var items, rest := StepItems(w, st, moves[0], n, id), Received(w, mid, moves[1..], n, id);
      AdvanceFrame(w, st, moves[0], n);
      AdvanceAllFrame(w, mid, moves[1..], n);
      PrefixHasNone(st.bus, st'.bus);
      StepReaches(w, st, moves[0], n, id);
      RunReaches(w, mid, moves[1..], n, id);
      StepPlaces(w, st, moves[0], n, id);
      QueuedGrows(w.encode, mid.bus, st'.bus, items);
      QueuedAppend(w.encode, st'.bus, items, rest);
      Assoc(was, Queued(w.encode, mid.bus, items), Queued(w.encode, st'.bus, rest));
    }
  }

  lemma PrefixHasNone(a: seq<Envelope>, b: seq<Envelope>)
    requires a <= b && NoColons(b)
    ensures NoColons(a)
  {
    forall i | 0 <= i < |a| ensures R.NoColon(a[i].msg) {
      assert a[i] == b[i];
    }
  }

  lemma Assoc(a: seq<B.Outbound>, b: seq<B.Outbound>, c: seq<B.Outbound>)
    ensures a + b + c == a + (b + c)
  {
  }

  /** Which publishes a session receives in a run, and in what order. */
  lemma {:induction false} ReceivedPlaces(w: Wiring, st: Network, moves: seq<Move>, n: nat, id: nat)
    requires R.GoodNames(w.validUtf8, w.name) && Wired(st) && NoColons(AdvanceAll(w, st, moves).bus)
    requires Connected(st, n, id) && Session(n, B.Deregister(id)) !in moves
    ensures var st' := AdvanceAll(w, st, moves);
            var p := Places(Received(w, st, moves, n, id));
            && |st'.read| == |st.read|
            && NoRepeats(p) && InOrder(p, st'.bus)
            && (forall i :: i in p ==>
                  && Due(Routing(st), Routing(st'), n, i)
                  && ListensSometime(w, st, moves, n, id, TextOf(st'.bus[i].msg)))
            && (forall i: nat ::
                  && Due(Routing(st), Routing(st'), n, i)
                  && ListensThroughout(w, st, moves, n, id, TextOf(st'.bus[i].msg))
                  ==> i in p)
    decreases |moves|
  {
    if moves != [] {
      var mid, st' := Advance(w, st, moves[0]), AdvanceAll(w, st, moves);
      var items, rest := StepItems(w, st, moves[0], n, id), Received(w, mid, moves[1..], n, id);
      AdvanceFrame(w, st, moves[0], n);
      AdvanceAllFrame(w, mid, moves[1..], n);
      PrefixHasNone(st.bus, st'.bus);
      StepReaches(w, st, moves[0], n, id);
      StepPlaces(w, st, moves[0], n, id);
      ReceivedPlaces(w, mid, moves[1..], n, id);
      PlacesAppend(items, rest);
      JoinOrder(Routing(st), Routing(mid), Routing(st'), n, Places(items), Places(rest));
      forall i: nat {
        DueSplits(Routing(st), Routing(mid), Routing(st'), n, i);
      }
    }
  }

  /** Over every run of any number of nodes, whatever filters the sessions set and change: what is new in a connected
      session's queue is copies of publishes, each as its own node would have sent it and none twice, and what was sent
      to that session directly. The copies are of publishes that were due at its node and that it heard at some time,
      those of one node in the order they were made; and every publish that was due, tile or object, is there when the
      session heard its topic throughout. */
  lemma {:induction false} ExactlyOncePerSession(w: Wiring, st: Network, moves: seq<Move>, n: nat, id: nat)
    requires R.GoodNames(w.validUtf8, w.name) && Wired(st) && NoColons(AdvanceAll(w, st, moves).bus)
    requires Connected(st, n, id) && Session(n, B.Deregister(id)) !in moves
    ensures var st', items := AdvanceAll(w, st, moves), Received(w, st, moves, n, id);
            var p := Places(items);
            && Connected(st', n, id) && |st'.read| == |st.read|
            && st'.brokers[n].sessions[id].outbound
               == st.brokers[n].sessions[id].outbound + Queued(w.encode, st'.bus, items)
            && NoRepeats(p) && InOrder(p, st'.bus)
            && (forall i :: i in p ==>
                  && Due(Routing(st), Routing(st'), n, i)
                  && ListensSometime(w, st, moves, n, id, TextOf(st'.bus[i].msg)))
            && (forall i: nat ::
                  && Due(Routing(st), Routing(st'), n, i)
                  && ListensThroughout(w, st, moves, n, id, TextOf(st'.bus[i].msg))
                  ==> i in p)
  {
    RunReaches(w, st, moves, n, id);
    ReceivedPlaces(w, st, moves, n, id);
  }
}
