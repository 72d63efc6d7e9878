/** The in-memory MQTT broker of one node: sessions, their filters, and local delivery. */
module MqttBroker {
  import opened Payloads
  import opened Topics

  /** An encoded PUBLISH */
  datatype Packet = Packet(topic: string, payload: seq<Byte>)

  /** What is queued for a session: publishes, and the replies to its own packets. */
  datatype Outbound =
    | Publish(packet: Packet)
    | ConnAck
    | SubAck(packetId: nat, granted: seq<nat>)
    | UnsubAck(packetId: nat)

  /** A connected session: what was queued for it, its filters, and whether somebody still reads the queue. */
  datatype Session = Session(outbound: seq<Outbound>, subs: seq<string>, open: bool)

  datatype State = State(nextId: nat, sessions: map<nat, Session>)

  datatype Event =
    | Register
    | Deregister(id: nat)
    | Subscribe(id: nat, filter: string)
    | Unsubscribe(id: nat, filter: string)
    | PublishLocal(packet: Packet)
    | SendDirect(id: nat, item: Outbound)
    | CloseReader(id: nat)

  predicate Hears(s: Session, topic: string) {
    s.open && exists f :: f in s.subs && Matches(topic, f)
  }

  function Push(s: Session, item: Outbound): Session {
    if s.open then s.(outbound := s.outbound + [item]) else s
  }

  function Without(subs: seq<string>, filter: string): (r: seq<string>)
    ensures forall f :: f in r <==> f in subs && f != filter
    ensures |r| <= |subs|
  {
    if subs == [] then [] else (if subs[0] == filter then [] else [subs[0]]) + Without(subs[1..], filter)
  }

  function AddFilter(subs: seq<string>, filter: string): seq<string> {
    if filter in subs then subs else subs + [filter]
  }

  function Update(st: State, id: nat, s: Session): State
    requires id in st.sessions
  {
    st.(sessions := st.sessions[id := s])
  }

  /** A packet published to those of the given sessions that hear it. */
  function PublishTo(sessions: map<nat, Session>, p: Packet, ids: set<nat>): map<nat, Session> {
    map id | id in sessions :: if id in ids && Hears(sessions[id], p.topic) then Push(sessions[id], Publish(p))
      else sessions[id]
  }

  /** The given sessions that hear a topic. */
  function Receivers(sessions: map<nat, Session>, topic: string, ids: set<nat>): set<nat> {
    set id | id in sessions && id in ids && Hears(sessions[id], topic)
  }

  lemma PublishToOneMore(sessions: map<nat, Session>, p: Packet, ids: set<nat>, id: nat)
    requires id in sessions && id !in ids
    ensures PublishTo(sessions, p, ids + {id})
         == if Hears(sessions[id], p.topic) then PublishTo(sessions, p, ids)[id := Push(sessions[id], Publish(p))]
           else PublishTo(sessions, p, ids)
    ensures |Receivers(sessions, p.topic, ids + {id})|
         == |Receivers(sessions, p.topic, ids)| + if Hears(sessions[id], p.topic) then 1 else 0
  {
    var before, after := Receivers(sessions, p.topic, ids), Receivers(sessions, p.topic, ids + {id});
    assert after == if Hears(sessions[id], p.topic) then before + {id} else before;
  }

  function Next(st: State, e: Event): State {
    match e
    case Register => State(st.nextId + 1, st.sessions[st.nextId := Session([], [], true)])
    case Deregister(id) => st.(sessions := st.sessions - {id})
    case Subscribe(id, f) =>
      if id in st.sessions then Update(st, id, st.sessions[id].(subs := AddFilter(st.sessions[id].subs, f))) else st
    case Unsubscribe(id, f) =>
      if id in st.sessions then Update(st, id, st.sessions[id].(subs := Without(st.sessions[id].subs, f))) else st
    case PublishLocal(p) => st.(sessions := PublishTo(st.sessions, p, st.sessions.Keys))
    case SendDirect(id, item) => if id in st.sessions then Update(st, id, Push(st.sessions[id], item)) else st
    case CloseReader(id) => if id in st.sessions then Update(st, id, st.sessions[id].(open := false)) else st
  }

  function Run(st: State, es: seq<Event>): State
    decreases |es|
  {
    if es == [] then st else Run(Next(st, es[0]), es[1..])
  }

  class Broker {
    var nextId: nat
    var sessions: map<nat, Session>

    constructor ()
      ensures Value() == State(1, map[])
    {
      nextId, sessions := 1, map[];
    }

    function Value(): State
      reads this
    {
      State(nextId, sessions)
    }

    method Register() returns (id: nat)
      modifies this
      ensures id == old(nextId) && Value() == Next(old(Value()), Event.Register)
    {
      id := nextId;
      nextId := nextId + 1;
      sessions := sessions[id := Session([], [], true)];
    }

    method Deregister(id: nat)
      modifies this
      ensures Value() == Next(old(Value()), Event.Deregister(id))
    {
      sessions := sessions - {id};
    }

    method Subscribe(id: nat, filter: string)
      modifies this
      ensures Value() == Next(old(Value()), Event.Subscribe(id, filter))
    {
      if id in sessions {
        var s := sessions[id];
        if filter !in s.subs {
          sessions := sessions[id := s.(subs := s.subs + [filter])];
        }
        assert sessions == Next(old(Value()), Event.Subscribe(id, filter)).sessions;
      }
    }

    method Unsubscribe(id: nat, filter: string)
      modifies this
      ensures Value() == Next(old(Value()), Event.Unsubscribe(id, filter))
    {
      if id in sessions {
        sessions := sessions[id := sessions[id].(subs := Without(sessions[id].subs, filter))];
      }
    }

    /** Every session with a matching filter and a reader gets the packet once; the result counts them. */
    method PublishLocal(topic: string, payload: seq<Byte>) returns (delivered: nat)
      modifies this
      ensures Value() == Next(old(Value()), Event.PublishLocal(Packet(topic, payload)))
      ensures delivered == |Receivers(old(sessions), topic, old(sessions.Keys))|
    {
      var packet := Packet(topic, payload);
      ghost var was := sessions;
      var todo := sessions.Keys;
      delivered := 0;
      while todo != {}
        invariant nextId == old(nextId) && todo <= was.Keys
        invariant sessions == PublishTo(was, packet, was.Keys - todo)
        invariant delivered == |Receivers(was, topic, was.Keys - todo)|
        decreases |todo|
      {
        var id :| id in todo;
        PublishToOneMore(was, packet, was.Keys - todo, id);
        assert was.Keys - todo + {id} == was.Keys - (todo - {id});
        todo := todo - {id};
        if Hears(sessions[id], topic) {
          sessions := sessions[id := Push(sessions[id], Publish(packet))];
          delivered := delivered + 1;
        }
      }
      assert was.Keys - todo == was.Keys;
    }

    method SendDirect(id: nat, item: Outbound)
      modifies this
      ensures Value() == Next(old(Value()), Event.SendDirect(id, item))
    {
      if id in sessions {
        sessions := sessions[id := Push(sessions[id], item)];
      }
    }
  }

  // ---------- What one subscriber may expect ----------

  /** A subscriber on its own: a set of filters and an inbox. */
  datatype Subscriber = Subscriber(filters: set<string>, reading: bool, inbox: seq<Outbound>)

  /** What an event means to subscriber `id`: only publishes, and what is addressed to it, matter. */
  function Follow(s: Subscriber, e: Event, id: nat): Subscriber {
    match e
    case Register => s
    case Deregister(_) => s
    case Subscribe(i, f) => if i == id then s.(filters := s.filters + {f}) else s
    case Unsubscribe(i, f) => if i == id then s.(filters := s.filters - {f}) else s
    case PublishLocal(p) =>
      if s.reading && exists f :: f in s.filters && Matches(p.topic, f) then s.(inbox := s.inbox + [Publish(p)]) else s
    case SendDirect(i, item) => if i == id && s.reading then s.(inbox := s.inbox + [item]) else s
    case CloseReader(i) => if i == id then s.(reading := false) else s
  }

  function FollowAll(s: Subscriber, es: seq<Event>, id: nat): Subscriber
    decreases |es|
  {
    if es == [] then s else FollowAll(Follow(s, es[0], id), es[1..], id)
  }

  function AsSubscriber(s: Session): Subscriber {
    Subscriber((set f | f in s.subs), s.open, s.outbound)
  }

  ghost predicate NoDuplicates(subs: seq<string>) {
    forall i, j :: 0 <= i < j < |subs| ==> subs[i] != subs[j]
  }

  /** Ids in use are below the next one, and no filter is listed twice. */
  ghost predicate Valid(st: State) {
    forall id :: id in st.sessions ==> id < st.nextId && NoDuplicates(st.sessions[id].subs)
  }

  lemma {:induction false} WithoutNoDuplicates(subs: seq<string>, filter: string)
    requires NoDuplicates(subs)
    ensures NoDuplicates(Without(subs, filter))
  {
    if subs != [] {
      WithoutNoDuplicates(subs[1..], filter);
      assert subs[0] !in subs[1..];
      var rest := Without(subs[1..], filter);
      assert forall i :: 0 <= i < |rest| ==> rest[i] in subs[1..];
    }
  }

  lemma NextValid(st: State, e: Event)
    requires Valid(st)
    ensures Valid(Next(st, e)) && st.nextId <= Next(st, e).nextId
  {
    if e.Unsubscribe? && e.id in st.sessions {
      WithoutNoDuplicates(st.sessions[e.id].subs, e.filter);
    }
  }

  lemma {:induction false} RunValid(st: State, es: seq<Event>)
    requires Valid(st)
    ensures Valid(Run(st, es)) && st.nextId <= Run(st, es).nextId
    decreases |es|
  {
    if es != [] {
      NextValid(st, es[0]);
      RunValid(Next(st, es[0]), es[1..]);
    }
  }

  lemma NextFollows(st: State, e: Event, id: nat)
    requires Valid(st) && id in st.sessions && e != Deregister(id)
    ensures id in Next(st, e).sessions
        && AsSubscriber(Next(st, e).sessions[id]) == Follow(AsSubscriber(st.sessions[id]), e, id)
  {
    var s := st.sessions[id];
    if e.PublishLocal? {
      assert (exists f :: f in s.subs && Matches(e.packet.topic, f)) <==>
             (exists f :: f in AsSubscriber(s).filters && Matches(e.packet.topic, f));
    }
  }

  /** Over every run a session behaves as if it were alone with a set of filters: it gets each
      matching publish once, in order, plus what is sent to it directly, and nothing else. */
  lemma {:induction false} SessionIsolation(st: State, es: seq<Event>, id: nat)
    requires Valid(st) && id in st.sessions && Deregister(id) !in es
    ensures id in Run(st, es).sessions
    ensures AsSubscriber(Run(st, es).sessions[id]) == FollowAll(AsSubscriber(st.sessions[id]), es, id)
    decreases |es|
  {
    if es != [] {
      NextValid(st, es[0]);
      NextFollows(st, es[0], id);
      assert Deregister(id) !in es[1..];
      SessionIsolation(Next(st, es[0]), es[1..], id);
    }
  }

  /** An id that was given out and is not connected any more never comes back. */
  lemma {:induction false} IdsNeverReused(st: State, es: seq<Event>, id: nat)
    requires Valid(st) && id < st.nextId && id !in st.sessions
    ensures id !in Run(st, es).sessions
    decreases |es|
  {
    if es != [] {
      NextValid(st, es[0]);
      IdsNeverReused(Next(st, es[0]), es[1..], id);
    }
  }

  /** The life of a session: from its registration on it is a lone subscriber that starts without filters and without
      messages; and once it is deregistered it is gone for good, whatever is sent to its id. */
  lemma LifeOfASession(st: State, es: seq<Event>, later: seq<Event>)
    requires Valid(st) && Deregister(st.nextId) !in es
    ensures var id, during := st.nextId, Run(Next(st, Register), es);
            && id in during.sessions
            && AsSubscriber(during.sessions[id]) == FollowAll(Subscriber({}, true, []), es, id)
            && id !in Run(Next(during, Deregister(id)), later).sessions
  {
    var id, start := st.nextId, Next(st, Register);
    assert AsSubscriber(start.sessions[id]) == Subscriber({}, true, []);
    NextValid(st, Register);
    SessionIsolation(start, es, id);
    RunValid(start, es);
    var during := Run(start, es);
    NextValid(during, Deregister(id));
    IdsNeverReused(Next(during, Deregister(id)), later, id);
  }

  /** A subscriber hears a publish exactly when one of its filters matches: one copy, at the end of its queue. */
  lemma OneCopy(s: Subscriber, filter: string, p: Packet, id: nat)
    requires s.reading
    ensures var s' := FollowAll(s, [Subscribe(id, filter), PublishLocal(p)], id);
            && s'.filters == s.filters + {filter} && s'.reading
            && s'.inbox == s.inbox + if Matches(p.topic, filter) || exists f :: f in s.filters && Matches(p.topic, f)
                                     then [Publish(p)] else []
  {
    var two := [Subscribe(id, filter), PublishLocal(p)];
    assert two[1..] == [PublishLocal(p)] && two[1..][1..] == [];
    var mid := Follow(s, two[0], id);
    assert FollowAll(s, two, id) == FollowAll(mid, [PublishLocal(p)], id) == FollowAll(Follow(mid, two[1], id), [], id);
    assert filter in mid.filters;
  }

  // ---------- Late snapshot tasks ----------

  /** The run without what is sent directly to one session. */
  function NoDirect(es: seq<Event>, id: nat): seq<Event> {
    if es == [] then []
    else (if es[0].SendDirect? && es[0].id == id then [] else [es[0]]) + NoDirect(es[1..], id)
  }

  /** The same up to the queue of one session. */
  ghost predicate SameBut(a: State, b: State, id: nat) {
    && a.nextId == b.nextId && a.sessions.Keys == b.sessions.Keys
    && forall i :: i in a.sessions ==>
         a.sessions[i] == if i == id then b.sessions[i].(outbound := a.sessions[i].outbound) else b.sessions[i]
  }

  lemma NextSameBut(a: State, b: State, e: Event, id: nat)
    requires SameBut(a, b, id)
    ensures SameBut(Next(a, e), Next(b, e), id)
    ensures e.SendDirect? && e.id == id ==> SameBut(Next(a, e), b, id)
  {
  }

  lemma {:induction false} DirectTouchesOne(a: State, b: State, es: seq<Event>, id: nat)
    requires SameBut(a, b, id)
    ensures SameBut(Run(a, es), Run(b, NoDirect(es, id)), id)
    decreases |es|
  {
    if es != [] {
      NextSameBut(a, b, es[0], id);
      var rest := NoDirect(es[1..], id);
      if es[0].SendDirect? && es[0].id == id {
        DirectTouchesOne(Next(a, es[0]), b, es[1..], id);
        assert [] + rest == rest;
      } else {
        DirectTouchesOne(Next(a, es[0]), Next(b, es[0]), es[1..], id);
        assert ([es[0]] + rest)[1..] == rest;
      }
    }
  }

  /** Whenever the snapshot task of a session gets to send, even after the session is gone, no
      other session sees anything of it: the run is the same for all others without it. */
  lemma {:induction false} LateSnapshotReachesOwner(st: State, es: seq<Event>, id: nat, other: nat)
    requires Valid(st) && other != id
    ensures var (a, b) := (Run(st, es), Run(st, NoDirect(es, id)));
            && (other in a.sessions <==> other in b.sessions)
            && (other in a.sessions ==> a.sessions[other] == b.sessions[other])
    ensures id < st.nextId && id !in st.sessions ==> Run(st, es) == Run(st, NoDirect(es, id))
  {
    DirectTouchesOne(st, st, es, id);
    if id < st.nextId && id !in st.sessions {
      IdsNeverReused(st, es, id);
      assert Run(st, es).sessions == Run(st, NoDirect(es, id)).sessions;
    }
  }
}
