/** What the broker has noted for a client is what the client thinks it subscribes to. */
module Subscriptions {
  import opened Payloads
  import opened Topics
  import opened MapClient
  import B = MqttBroker

  // ---------- Packets on the wire ----------

  function ToSet(topics: seq<Topic>): set<Topic> {
    set t | t in topics
  }

  /** What a packet does to the filters of the client's session. */
  function ApplyPacket(filters: set<Topic>, p: Packet): set<Topic> {
    match p
    case SubscribePacket(topics) => filters + ToSet(topics)
    case UnsubscribePacket(topics) => filters - ToSet(topics)
  }

  function ApplyPackets(filters: set<Topic>, ps: seq<Packet>): set<Topic>
    decreases |ps|
  {
    if ps == [] then filters else ApplyPackets(ApplyPacket(filters, ps[0]), ps[1..])
  }

  /** No packet asks for what is already there or gives up what is not. */
  ghost predicate Tidy(filters: set<Topic>, ps: seq<Packet>)
    decreases |ps|
  {
    ps == [] ||
    (&& ps[0].topics != []
     && (match ps[0]
         case SubscribePacket(topics) => ToSet(topics) !! filters
         case UnsubscribePacket(topics) => ToSet(topics) <= filters)
     && Tidy(ApplyPacket(filters, ps[0]), ps[1..]))
  }

  lemma {:induction false} ApplyAppend(filters: set<Topic>, a: seq<Packet>, b: seq<Packet>)
    ensures ApplyPackets(filters, a + b) == ApplyPackets(ApplyPackets(filters, a), b)
    ensures Tidy(filters, a + b) <==> Tidy(filters, a) && Tidy(ApplyPackets(filters, a), b)
    decreases |a|
  {
    if a == [] {
      assert a + b == b;
    } else {
      assert (a + b)[1..] == a[1..] + b;
      ApplyAppend(ApplyPacket(filters, a[0]), a[1..], b);
    }
  }

  lemma ApplyOne(filters: set<Topic>, p: Packet)
    ensures ApplyPackets(filters, [p]) == ApplyPacket(filters, p)
    ensures Tidy(filters, [p]) <==>
      p.topics != [] && if p.SubscribePacket? then ToSet(p.topics) !! filters else ToSet(p.topics) <= filters
  {
    assert [p][1..] == [];
  }

  // ---------- The client's invariant ----------

  /** The packets sent so far produce exactly the two sets the client keeps. */
  ghost predicate Agreement(s: State) {
    s.connected ==> ApplyPackets({}, s.sent) == s.tileSubs + s.objectSubs
  }

  ghost predicate Sane(s: State) {
    && (forall t :: t in s.tileSubs ==> t.TileTopic?)
    && (forall t :: t in s.objectSubs ==> t.ObjectTopic?)
    && (s.connected ==> Tidy({}, s.sent))
  }

  /** A connection is opened before anything is subscribed. */
  ghost predicate ConnectsFirst(s: State, a: Action) {
    a.Connect? && !s.connected ==> s.tileSubs + s.objectSubs == {}
  }

  lemma SendKeeps(s: State, s': State, p: Packet)
    requires s.connected && s'.connected && Agreement(s) && Tidy({}, s.sent)
    requires s'.sent == s.sent + [p] && p.topics != []
    requires if p.SubscribePacket? then ToSet(p.topics) !! s.tileSubs + s.objectSubs
        else ToSet(p.topics) <= s.tileSubs + s.objectSubs
    requires s'.tileSubs + s'.objectSubs == ApplyPacket(s.tileSubs + s.objectSubs, p)
    ensures Agreement(s') && Tidy({}, s'.sent)
  {
    ApplyAppend({}, s.sent, [p]);
    ApplyOne(s.tileSubs + s.objectSubs, p);
  }

  lemma LookKeeps(s: State, s': State, next: set<Topic>, dropped: seq<Topic>, added: seq<Topic>)
    requires s.connected && s'.connected && Agreement(s) && Sane(s)
    requires forall t :: t in next ==> t.TileTopic?
    requires Enumerates(dropped, s.tileSubs - next) && Enumerates(added, next - s.tileSubs)
    requires s'.tileSubs == next && s'.objectSubs == s.objectSubs && s'.sent == s.sent + Packets(dropped, added)
    ensures Agreement(s') && Tidy({}, s'.sent)
  {
    var mid := s.(tileSubs := s.tileSubs * next,
                  sent := if dropped == [] then s.sent else s.sent + [UnsubscribePacket(dropped)]);
    if dropped == [] {
      EmptyDifference(dropped, s.tileSubs - next);
      assert forall t :: t in s.tileSubs ==> t !in s.tileSubs - next;
      assert s.tileSubs * next == s.tileSubs;
    } else {
      assert s.tileSubs * next + s.objectSubs == s.tileSubs + s.objectSubs - ToSet(dropped);
      SendKeeps(s, mid, UnsubscribePacket(dropped));
    }
    if added == [] {
      EmptyDifference(added, next - s.tileSubs);
      assert forall t :: t in next ==> t !in next - s.tileSubs;
      assert mid.tileSubs == next;
      assert s'.sent == mid.sent;
    } else {
      assert s'.sent == mid.sent + [SubscribePacket(added)];
      assert next + s.objectSubs == mid.tileSubs + s.objectSubs + ToSet(added);
      SendKeeps(mid, s', SubscribePacket(added));
    }
  }

  lemma StepAgrees(tileAt: (nat, Pos) -> Tile, s: State, a: Action, s': State)
    requires Step(tileAt, s, a, s') && Agreement(s) && Sane(s) && ConnectsFirst(s, a)
    ensures Agreement(s') && Sane(s')
  {
    if s.connected {
      match a
      case Look(layer, zoom, tiles) =>
        var next := TileTopics(layer, tiles);
        var dropped, added :| Enumerates(dropped, s.tileSubs - next) && Enumerates(added, next - s.tileSubs)
          && s'.sent == Send(s, Packets(dropped, added));
        LookKeeps(s, s', next, dropped, added);
      case Watch(obid) =>
        if ObjectTopic(obid) !in s.objectSubs {
          assert s'.tileSubs + s'.objectSubs == s.tileSubs + s.objectSubs + {ObjectTopic(obid)};
          SendKeeps(s, s', SubscribePacket([ObjectTopic(obid)]));
        }
      case Unwatch(obid) =>
        if ObjectTopic(obid) in s.objectSubs {
          assert s'.tileSubs + s'.objectSubs == s.tileSubs + s.objectSubs - {ObjectTopic(obid)};
          SendKeeps(s, s', UnsubscribePacket([ObjectTopic(obid)]));
        }
      case _ =>
    }
  }

  /** Connecting sends nothing: the broker then knows what the client wants exactly when that is nothing. */
  lemma LateConnectExact(tileAt: (nat, Pos) -> Tile, s: State, s': State)
    requires Step(tileAt, s, Action.Connect, s') && !s.connected
    ensures Agreement(s') <==> s.tileSubs == {} && s.objectSubs == {}
  {
  }

  // ---------- Runs ----------

  ghost predicate Run(tileAt: (nat, Pos) -> Tile, states: seq<State>, actions: seq<Action>) {
    && |states| == |actions| + 1
    && states[0] == NOTHING
    && forall i :: 0 <= i < |actions| ==>
         Step(tileAt, states[i], actions[i], states[i + 1]) && ConnectsFirst(states[i], actions[i])
  }

  /** The topics of the last viewport since the client was last disconnected. */
  function LastViewport(actions: seq<Action>): set<Topic> {
    if actions == [] then {}
    else
      match actions[|actions| - 1]
      case Look(layer, _, tiles) => TileTopics(layer, tiles)
      case Disconnect => {}
      case _ => LastViewport(actions[..|actions| - 1])
  }

  lemma {:induction false} RunAgrees(tileAt: (nat, Pos) -> Tile, states: seq<State>, actions: seq<Action>, i: nat)
    requires Run(tileAt, states, actions) && i < |states|
    ensures Agreement(states[i]) && Sane(states[i])
    ensures states[i].tileSubs == LastViewport(actions[..i])
  {
    if i > 0 {
      RunAgrees(tileAt, states, actions, i - 1);
      StepAgrees(tileAt, states[i - 1], actions[i - 1], states[i]);
      assert actions[..i][..i - 1] == actions[..i - 1];
    }
  }

  /** In every run, at any moment while connected: whatever part of its packets the broker has seen,
      applying the rest gives exactly the tiles of the last viewport and the watched objects, and
      nothing was ever asked for twice or given up in vain. */
  lemma SubscriptionAgreement(tileAt: (nat, Pos) -> Tile, states: seq<State>, actions: seq<Action>, i: nat, seen: nat)
    requires Run(tileAt, states, actions) && i < |states| && states[i].connected && seen <= |states[i].sent|
    ensures var s := states[i];
            && ApplyPackets(ApplyPackets({}, s.sent[..seen]), s.sent[seen..]) == s.tileSubs + s.objectSubs
            && s.tileSubs == LastViewport(actions[..i])
            && Tidy({}, s.sent)
  {
    RunAgrees(tileAt, states, actions, i);
    ApplyAppend({}, states[i].sent[..seen], states[i].sent[seen..]);
    assert states[i].sent[..seen] + states[i].sent[seen..] == states[i].sent;
  }

  // ---------- At the broker ----------

  function Texts(topics: set<Topic>): set<string> {
    set t | t in topics :: TopicText(t)
  }

  /** The broker calls that one packet leads to. */
  function PacketEvents(id: nat, p: Packet): (es: seq<B.Event>)
    ensures |es| == |p.topics|
    ensures forall i :: 0 <= i < |es| ==>
      es[i] == if p.SubscribePacket? then B.Subscribe(id, TopicText(p.topics[i]))
        else B.Unsubscribe(id, TopicText(p.topics[i]))
  {
    seq(|p.topics|, i requires 0 <= i < |p.topics| =>
      if p.SubscribePacket? then B.Subscribe(id, TopicText(p.topics[i])) else B.Unsubscribe(id, TopicText(p.topics[i])))
  }

  function AllPacketEvents(id: nat, ps: seq<Packet>): seq<B.Event> {
    if ps == [] then [] else PacketEvents(id, ps[0]) + AllPacketEvents(id, ps[1..])
  }

  predicate ChangesFilters(e: B.Event, id: nat) {
    (e.Subscribe? || e.Unsubscribe?) && e.id == id
  }

  /** The calls that change the filters of one session. */
  function FilterEvents(es: seq<B.Event>, id: nat): seq<B.Event> {
    if es == [] then [] else (if ChangesFilters(es[0], id) then [es[0]] else []) + FilterEvents(es[1..], id)
  }

  lemma {:induction false} FiltersFollow(s: B.Subscriber, s': B.Subscriber, es: seq<B.Event>, id: nat)
    requires s.filters == s'.filters
    ensures B.FollowAll(s, es, id).filters == B.FollowAll(s', FilterEvents(es, id), id).filters
    decreases |es|
  {
    if es != [] {
      var rest := FilterEvents(es[1..], id);
      if ChangesFilters(es[0], id) {
        assert ([es[0]] + rest)[1..] == rest;
        FiltersFollow(B.Follow(s, es[0], id), B.Follow(s', es[0], id), es[1..], id);
      } else {
        assert [] + rest == rest;
        FiltersFollow(B.Follow(s, es[0], id), s', es[1..], id);
      }
    }
  }

  lemma {:induction false} FollowAppend(s: B.Subscriber, a: seq<B.Event>, b: seq<B.Event>, id: nat)
    ensures B.FollowAll(s, a + b, id) == B.FollowAll(B.FollowAll(s, a, id), b, id)
    decreases |a|
  {
    if a == [] {
      assert a + b == b;
    } else {
      assert (a + b)[1..] == a[1..] + b;
      FollowAppend(B.Follow(s, a[0], id), a[1..], b, id);
    }
  }

  lemma TextsChange(topics: set<Topic>, t: Topic)
    ensures Texts(topics + {t}) == Texts(topics) + {TopicText(t)}
    ensures Texts(topics - {t}) == Texts(topics) - {TopicText(t)}
  {
    forall u | u in topics && TopicText(u) == TopicText(t) {
      TopicTextInjective(u, t);
    }
    forall x | x in Texts(topics) && x != TopicText(t) ensures x in Texts(topics - {t}) {
      var u :| u in topics && TopicText(u) == x;
      assert u in topics - {t};
    }
  }

  lemma {:induction false} OnePacketFollowed(s: B.Subscriber, filters: set<Topic>, id: nat, p: Packet)
    requires s.filters == Texts(filters)
    ensures B.FollowAll(s, PacketEvents(id, p), id).filters == Texts(ApplyPacket(filters, p))
    decreases |p.topics|
  {
    if p.topics == [] {
      assert ApplyPacket(filters, p) == filters;
    } else {
      var t, rest := p.topics[0], p.(topics := p.topics[1..]);
      var one := if p.SubscribePacket? then filters + {t} else filters - {t};
      TextsChange(filters, t);
      assert PacketEvents(id, p)[1..] == PacketEvents(id, rest);
      OnePacketFollowed(B.Follow(s, PacketEvents(id, p)[0], id), one, id, rest);
      assert ToSet(p.topics) == {t} + ToSet(rest.topics);
      assert ApplyPacket(one, rest) == ApplyPacket(filters, p);
    }
  }

  lemma {:induction false} PacketsFollowed(s: B.Subscriber, filters: set<Topic>, id: nat, ps: seq<Packet>)
    requires s.filters == Texts(filters)
    ensures B.FollowAll(s, AllPacketEvents(id, ps), id).filters == Texts(ApplyPackets(filters, ps))
    decreases |ps|
  {
    if ps != [] {
      FollowAppend(s, PacketEvents(id, ps[0]), AllPacketEvents(id, ps[1..]), id);
      OnePacketFollowed(s, filters, id, ps[0]);
      PacketsFollowed(B.FollowAll(s, PacketEvents(id, ps[0]), id), ApplyPacket(filters, ps[0]), id, ps[1..]);
    }
  }

  /** A fresh session whose packets have been handled, among whatever else happened at the broker,
      has exactly the filters of those packets; it hears a topic exactly when that is among them. */
  lemma {:induction false} BrokerFollowsPackets(st: B.State, es: seq<B.Event>, id: nat, ps: seq<Packet>, topic: Topic)
    requires B.Valid(st) && id in st.sessions && st.sessions[id].subs == []
    requires B.Deregister(id) !in es && B.CloseReader(id) !in es && st.sessions[id].open
    requires FilterEvents(es, id) == AllPacketEvents(id, ps)
    requires forall t :: t in ApplyPackets({}, ps) ==> PlainTopic(t)
    ensures id in B.Run(st, es).sessions
    ensures B.Hears(B.Run(st, es).sessions[id], TopicText(topic)) <==> topic in ApplyPackets({}, ps)
  {
    var s0 := B.AsSubscriber(st.sessions[id]);
    B.SessionIsolation(st, es, id);
    assert s0.filters == Texts({});
    FiltersFollow(s0, s0, es, id);
    PacketsFollowed(s0, {}, id, ps);
    StaysOpen(s0, es, id);
    var s := B.Run(st, es).sessions[id];
    var topics := ApplyPackets({}, ps);
    assert forall f :: f in s.subs <==> f in B.AsSubscriber(s).filters;
    if topic in topics {
      SubscriptionIsMembership(topic, topic);
      assert TopicText(topic) in Texts(topics);
    }
    forall f | f in s.subs && Matches(TopicText(topic), f) ensures topic in topics {
      var t :| t in topics && TopicText(t) == f;
      SubscriptionIsMembership(topic, t);
    }
  }

  lemma {:induction false} StaysOpen(s: B.Subscriber, es: seq<B.Event>, id: nat)
    requires s.reading && B.CloseReader(id) !in es
    ensures B.FollowAll(s, es, id).reading
    decreases |es|
  {
    if es != [] {
      assert es[0] in es;
      StaysOpen(B.Follow(s, es[0], id), es[1..], id);
    }
  }
}
