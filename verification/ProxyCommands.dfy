/** A proxied command is the sequence of its single-member commands: the messages the proxy
    publishes and the Redis it leaves behind are those of the protocol's atomic steps. */
module ProxyCommands {
  import opened Payloads
  import opened RedisStore
  import opened Protocol
  import opened RespProxy
  import F = TileFanout

  function GeoAdds(layer: string, entries: seq<Entry>): (cs: seq<Command>)
    ensures |cs| == |entries|
    ensures forall i :: 0 <= i < |entries| ==> cs[i] == GeoAdd(layer, entries[i].member, entries[i].pos)
  {
    seq(|entries|, i requires 0 <= i < |entries| => GeoAdd(layer, entries[i].member, entries[i].pos))
  }

  function ZRems(layer: string, members: seq<Id>): (cs: seq<Command>)
    ensures |cs| == |members|
    ensures forall i :: 0 <= i < |members| ==> cs[i] == ZRem(layer, members[i])
  {
    seq(|members|, i requires 0 <= i < |members| => ZRem(layer, members[i]))
  }

  function Dels(prefix: string, keys: seq<string>): (cs: seq<Command>)
    ensures |cs| == |keys|
    ensures forall i :: 0 <= i < |keys| ==>
      cs[i] == if prefix <= keys[i] then DelObject(keys[i][|prefix|..]) else DelLayer(keys[i])
  {
    seq(|keys|,
        i requires 0 <= i < |keys| => if prefix <= keys[i] then DelObject(keys[i][|prefix|..]) else DelLayer(keys[i]))
  }

  /** What the arguments ask for, one member, object or key at a time. */
  function Commands(prefix: string, parse: string -> Option<real>, args: seq<string>): seq<Command>
    requires args != []
  {
    match KindOf(args)
    case GeoAddKind => GeoAdds(args[1], GeoAddEntries(parse, args))
    case ZRemKind => ZRems(args[1], args[2..])
    case HashSetKind => if IsHashWrite(prefix, args) then [HSet(args[1][|prefix|..], Fields(args[2..]))] else []
    case HashDelKind =>
      if |args| >= 2 && prefix <= args[1] then [HDel(args[1][|prefix|..], set name | name in args[2..])] else []
    case DelKind => Dels(prefix, args[1..])
    case NotReported => []
  }

  /** The messages of the commands, executed one after the other. */
  function FanoutAll(cfg: Config, r: Redis, cs: seq<Command>, order: seq<string>): seq<Message> {
    if cs == [] then []
    else
      var n := |cs| - 1;
      FanoutAll(cfg, r, cs[..n], order) + MessagesOf(cfg, ApplyAll(r, cs[..n]), cs[n], order)
  }

  lemma {:induction false} ApplyAllLast(r: Redis, cs: seq<Command>)
    requires cs != []
    ensures ApplyAll(r, cs) == Apply(ApplyAll(r, cs[..|cs| - 1]), cs[|cs| - 1])
    decreases |cs|
  {
    if |cs| > 1 {
      ApplyAllLast(Apply(r, cs[0]), cs[1..]);
      assert cs[1..][..|cs| - 2] == cs[..|cs| - 1][1..];
    }
  }

  // ---------- GEOADD ----------

  ghost predicate DistinctIds(ids: seq<Id>) {
    forall i, j :: 0 <= i < j < |ids| ==> ids[i] != ids[j]
  }

  function MembersOf(entries: seq<Entry>): (ids: seq<Id>)
    ensures |ids| == |entries| && forall i :: 0 <= i < |entries| ==> ids[i] == entries[i].member
  {
    seq(|entries|, i requires 0 <= i < |entries| => entries[i].member)
  }

  /** Members not named keep their positions. */
  lemma {:induction false} GeoAddsKeepOthers(r: Redis, layer: string, entries: seq<Entry>, other: Id)
    requires other !in MembersOf(entries)
    ensures Truth(ApplyAll(r, GeoAdds(layer, entries)), layer, other) == Truth(r, layer, other)
    decreases |entries|
  {
    if entries != [] {
      assert GeoAdds(layer, entries)[1..] == GeoAdds(layer, entries[1..]);
      assert MembersOf(entries)[1..] == MembersOf(entries[1..]);
      assert MembersOf(entries)[0] in MembersOf(entries);
      GeoAddsKeepOthers(Apply(r, GeoAdds(layer, entries)[0]), layer, entries[1..], other);
    }
  }

  /** The index after the adds does not depend on the positions. */
  lemma {:induction false} GeoAddsApplied(r: Redis, after: Redis, layer: string, entries: seq<Entry>)
    requires after.inset == r.inset
    ensures var r' := ApplyAll(r, GeoAdds(layer, entries));
            r'.hashes == r.hashes && r'.inset == AddToIndex(after, layer, entries).inset
    ensures AddToIndex(after, layer, entries) == after.(inset := AddToIndex(after, layer, entries).inset)
    decreases |entries|
  {
    if entries != [] {
      var n := |entries| - 1;
      GeoAddsApplied(r, after, layer, entries[..n]);
      ApplyAllLast(r, GeoAdds(layer, entries));
      assert GeoAdds(layer, entries)[..n] == GeoAdds(layer, entries[..n]);
    }
  }

  lemma {:induction false} GeoAddMessagesAre(cfg: Config, r: Redis, after: Redis, layer: string, entries: seq<Entry>,
                                             order: seq<string>)
    requires DistinctIds(MembersOf(entries)) && after.inset == r.inset && after.hashes == r.hashes
    ensures GeoAddMessages(cfg, r, after, layer, entries) == FanoutAll(cfg, r, GeoAdds(layer, entries), order)
    decreases |entries|
  {
    if entries != [] {
      var n := |entries| - 1;
      assert MembersOf(entries[..n]) == MembersOf(entries)[..n];
      assert DistinctIds(MembersOf(entries[..n]));
      GeoAddMessagesAre(cfg, r, after, layer, entries[..n], order);
      assert GeoAdds(layer, entries)[..n] == GeoAdds(layer, entries[..n]);
      GeoAddsApplied(r, after, layer, entries[..n]);
      GeoAddsKeepOthers(r, layer, entries[..n], entries[n].member);
    }
  }

  // ---------- ZREM ----------

  lemma {:induction false} ZRemsKeepOthers(r: Redis, layer: string, members: seq<Id>, other: Id)
    requires other !in members
    ensures Truth(ApplyAll(r, ZRems(layer, members)), layer, other) == Truth(r, layer, other)
    decreases |members|
  {
    if members != [] {
      assert ZRems(layer, members)[1..] == ZRems(layer, members[1..]);
      ZRemsKeepOthers(Apply(r, ZRem(layer, members[0])), layer, members[1..], other);
    }
  }

  lemma {:induction false} ZRemsApplied(r: Redis, after: Redis, layer: string, members: seq<Id>)
    requires DistinctIds(members) && after.inset == r.inset
    ensures var r' := ApplyAll(r, ZRems(layer, members));
            r'.hashes == r.hashes && r'.inset == RemoveFromIndex(r, after, layer, members).inset
    ensures RemoveFromIndex(r, after, layer, members)
         == after.(inset := RemoveFromIndex(r, after, layer, members).inset)
    decreases |members|
  {
    if members != [] {
      var n := |members| - 1;
      ZRemsApplied(r, after, layer, members[..n]);
      ZRemsKeepOthers(r, layer, members[..n], members[n]);
      ApplyAllLast(r, ZRems(layer, members));
      assert ZRems(layer, members)[..n] == ZRems(layer, members[..n]);
    }
  }

  lemma {:induction false} ZRemMessagesAre(cfg: Config, r: Redis, layer: string, members: seq<Id>, order: seq<string>)
    requires DistinctIds(members)
    ensures ZRemMessages(cfg, r, layer, members) == FanoutAll(cfg, r, ZRems(layer, members), order)
    decreases |members|
  {
    if members != [] {
      var n := |members| - 1;
      assert DistinctIds(members[..n]);
      ZRemMessagesAre(cfg, r, layer, members[..n], order);
      assert ZRems(layer, members)[..n] == ZRems(layer, members[..n]);
      ZRemsKeepOthers(r, layer, members[..n], members[n]);
    }
  }

  // ---------- Hashes and keys ----------

  lemma OneKey(cfg: Config, r: Redis, prefix: string, keys: seq<string>, i: nat, order: seq<string>)
    requires i < |keys|
    ensures MessagesOf(cfg, r, Dels(prefix, keys)[i], order)
         == if prefix <= keys[i] then [ObjectMsg(keys[i][|prefix|..], ObjectDelete(keys[i][|prefix|..]))] else []
    ensures Apply(r, Dels(prefix, keys)[i]).inset == r.inset
  {
  }

  lemma DelsPrefix(prefix: string, keys: seq<string>)
    requires keys != []
    ensures Dels(prefix, keys)[..|keys| - 1] == Dels(prefix, keys[..|keys| - 1])
  {
  }

  lemma {:induction false} DelMessagesAre(cfg: Config, r: Redis, prefix: string, keys: seq<string>, order: seq<string>)
    ensures DelMessages(prefix, keys) == FanoutAll(cfg, r, Dels(prefix, keys), order)
    ensures ApplyAll(r, Dels(prefix, keys)).inset == r.inset
    decreases |keys|
  {
    if keys != [] {
      var n := |keys| - 1;
      DelMessagesAre(cfg, r, prefix, keys[..n], order);
      ApplyAllLast(r, Dels(prefix, keys));
      DelsPrefix(prefix, keys);
      OneKey(cfg, ApplyAll(r, Dels(prefix, keys[..n])), prefix, keys, n, order);
    }
  }

  lemma OneCommand(cfg: Config, r: Redis, c: Command, order: seq<string>)
    ensures ApplyAll(r, [c]) == Apply(r, c) && FanoutAll(cfg, r, [c], order) == MessagesOf(cfg, r, c, order)
  {
    ApplyAllLast(r, [c]);
    assert [] + MessagesOf(cfg, r, c, order) == MessagesOf(cfg, r, c, order);
  }

  lemma {:induction false} AttrMessagesSameGeo(cfg: Config, a: Redis, b: Redis, id: Id, delta: Attrs,
                                               order: seq<string>)
    requires a.geo == b.geo
    ensures AttrTileMessages(cfg, a, id, delta, order) == AttrTileMessages(cfg, b, id, delta, order)
    decreases |order|
  {
    if order != [] {
      AttrMessagesSameGeo(cfg, a, b, id, delta, order[1..]);
    }
  }

  // ---------- The theorem ----------

  /** Redis took the arguments at their word: every pair is set, every member removed, every field and key written. */
  ghost predicate TakenPlainly(prefix: string, parse: string -> Option<real>, before: Redis, after: Redis,
                               args: seq<string>)
    requires args != []
  {
    after == ApplyAll(before, Commands(prefix, parse, args)).(inset := before.inset)
  }

  /** No member is named twice in one GEOADD or ZREM. */
  ghost predicate NamesOnce(parse: string -> Option<real>, args: seq<string>)
    requires args != []
  {
    match KindOf(args)
    case GeoAddKind => DistinctIds(MembersOf(GeoAddEntries(parse, args)))
    case ZRemKind => DistinctIds(args[2..])
    case _ => true
  }

  lemma GeoAddIsSequence(cfg: Config, r: Redis, after: Redis, layer: string, entries: seq<Entry>, order: seq<string>)
    requires DistinctIds(MembersOf(entries))
    requires after == ApplyAll(r, GeoAdds(layer, entries)).(inset := r.inset)
    ensures GeoAddMessages(cfg, r, after, layer, entries) == FanoutAll(cfg, r, GeoAdds(layer, entries), order)
    ensures AddToIndex(after, layer, entries) == ApplyAll(r, GeoAdds(layer, entries))
  {
    GeoAddsApplied(r, after, layer, entries);
    GeoAddMessagesAre(cfg, r, after, layer, entries, order);
  }

  lemma ZRemIsSequence(cfg: Config, r: Redis, after: Redis, layer: string, members: seq<Id>, order: seq<string>)
    requires DistinctIds(members)
    requires after == ApplyAll(r, ZRems(layer, members)).(inset := r.inset)
    ensures ZRemMessages(cfg, r, layer, members) == FanoutAll(cfg, r, ZRems(layer, members), order)
    ensures RemoveFromIndex(r, after, layer, members) == ApplyAll(r, ZRems(layer, members))
  {
    ZRemsApplied(r, after, layer, members);
    ZRemMessagesAre(cfg, r, layer, members, order);
  }

  lemma HashWriteIsCommand(cfg: Config, prefix: string, before: Redis, after: Redis, args: seq<string>,
                           order: seq<string>)
    requires |args| >= 2 && prefix <= args[1] && after.geo == before.geo
    ensures HashMessages(cfg, prefix, after, args, false, order)
         == MessagesOf(cfg, before, HSet(args[1][|prefix|..], Fields(args[2..])), order)
    ensures HashMessages(cfg, prefix, after, args, true, order)
         == MessagesOf(cfg, before, HDel(args[1][|prefix|..], set name | name in args[2..]), order)
  {
    var obid := args[1][|prefix|..];
    AttrMessagesSameGeo(cfg, after, before, obid, Restrict(Fields(args[2..]), cfg.enrich), order);
    assert Restrict(map[], cfg.enrich) == map[];
    assert [ObjectMsg(obid, ObjectAttr(obid, map[]))] + [] == [ObjectMsg(obid, ObjectAttr(obid, map[]))];
  }

  /** What the proxy does with a command that Redis took plainly is what the single-member commands do one by one. */
  lemma ProxyIsCommandSequence(cfg: Config, prefix: string, parse: string -> Option<real>, before: Redis, after: Redis,
                               args: seq<string>, order: seq<string>)
    requires args != [] && TakenPlainly(prefix, parse, before, after, args) && NamesOnce(parse, args)
    ensures Reported(cfg, prefix, parse, before, after, args, order)
         == FanoutAll(cfg, before, Commands(prefix, parse, args), order)
    ensures Indexed(parse, before, after, args) == ApplyAll(before, Commands(prefix, parse, args))
  {
    match KindOf(args)
    case GeoAddKind => GeoAddIsSequence(cfg, before, after, args[1], GeoAddEntries(parse, args), order);
    case ZRemKind => ZRemIsSequence(cfg, before, after, args[1], args[2..], order);
    case DelKind => DelMessagesAre(cfg, before, prefix, args[1..], order);
    case NotReported =>
    case _ =>
      if |args| >= 2 && prefix <= args[1] {
        OneCommand(cfg, before, Commands(prefix, parse, args)[0], order);
        HashWriteIsCommand(cfg, prefix, before, after, args, order);
      }
  }

  // ---------- In the cluster ----------

  function Executes(n: nat, cs: seq<Command>, order: seq<string>): (steps: seq<Step>)
    ensures |steps| == |cs|
    ensures forall i :: 0 <= i < |cs| ==> steps[i] == Execute(n, cs[i], order)
  {
    seq(|cs|, i requires 0 <= i < |cs| => Execute(n, cs[i], order))
  }

  lemma {:induction false} DeliverAllToAppend(c: Client, a: seq<Message>, b: seq<Message>)
    ensures DeliverAllTo(c, a + b) == DeliverAllTo(DeliverAllTo(c, a), b)
    decreases |a|
  {
    if a == [] {
      assert a + b == b;
    } else {
      assert (a + b)[1..] == a[1..] + b;
      DeliverAllToAppend(DeliverTo(c, a[0]), a[1..], b);
    }
  }

  /** What a client of the cluster is after node n has published a list of messages. */
  function AfterPublish(c: Client, n: nat, ms: seq<Message>): Client {
    if c.node == n then DeliverAllTo(c, ms) else c
  }

  lemma AfterPublishAppend(c: Client, n: nat, a: seq<Message>, b: seq<Message>)
    ensures AfterPublish(AfterPublish(c, n, a), n, b) == AfterPublish(c, n, a + b)
  {
    DeliverAllToAppend(c, a, b);
    DeliverAllToMember(c, a, "");
  }

  lemma ExecutesLast(cfg: Config, st: Cluster, n: nat, cs: seq<Command>, order: seq<string>)
    requires cs != []
    ensures var k := |cs| - 1;
            Run(cfg, st, Executes(n, cs, order))
              == Next(cfg, Run(cfg, st, Executes(n, cs[..k], order)), Execute(n, cs[k], order))
  {
    var k := |cs| - 1;
    assert Executes(n, cs, order) == Executes(n, cs[..k], order) + [Execute(n, cs[k], order)];
    RunOneMore(cfg, st, Executes(n, cs[..k], order), Execute(n, cs[k], order));
  }

  /** Node n has published `ms`, all else being as before. */
  ghost predicate HasPublished(st: Cluster, st': Cluster, n: nat, ms: seq<Message>) {
    && st'.bus == st.bus + Envelopes(n, ms)
    && st'.read == st.read && |st'.clients| == |st.clients|
    && forall i :: 0 <= i < |st.clients| ==> st'.clients[i] == AfterPublish(st.clients[i], n, ms)
  }

  lemma PublishedMore(st: Cluster, mid: Cluster, n: nat, ms: seq<Message>, more: seq<Message>, r: Redis)
    requires HasPublished(st, mid, n, ms)
    ensures HasPublished(st, Publish(mid, n, more).(redis := r), n, ms + more)
  {
    F.BusAppend(st.bus, n, ms, more);
    forall i | 0 <= i < |st.clients| {
      AfterPublishAppend(st.clients[i], n, ms, more);
    }
  }

  /** The cluster's steps for the commands put on the bus exactly what the proxy publishes, and deliver exactly
      that to the clients of the node. */
  lemma {:induction false} ExecutesPublish(cfg: Config, st: Cluster, n: nat, cs: seq<Command>, order: seq<string>)
    ensures Run(cfg, st, Executes(n, cs, order)).redis == ApplyAll(st.redis, cs)
    ensures HasPublished(st, Run(cfg, st, Executes(n, cs, order)), n, FanoutAll(cfg, st.redis, cs, order))
    decreases |cs|
  {
    if cs == [] {
      assert st.bus + Envelopes(n, []) == st.bus;
    } else {
      var k := |cs| - 1;
      ExecutesPublish(cfg, st, n, cs[..k], order);
      ExecutesLast(cfg, st, n, cs, order);
      ApplyAllLast(st.redis, cs);
      PublishedMore(st, Run(cfg, st, Executes(n, cs[..k], order)), n, FanoutAll(cfg, st.redis, cs[..k], order),
                    MessagesOf(cfg, ApplyAll(st.redis, cs[..k]), cs[k], order), ApplyAll(st.redis, cs));
    }
  }
}
