/** What a client that watches an object shows of the object's hash, when it holds the object's feature. */
module WatchedObjects {
  import opened Payloads
  import opened RedisStore
  import opened Topics
  import opened MapClient
  import S = Snapshots

  // ---------- What a watcher hears ----------

  /** The messages of a list that are on one topic, in order. */
  function OnTopic(ms: seq<Message>, t: Topic): seq<Message> {
    if ms == [] then []
    else (if TopicOf(ms[0]) == t then [ms[0]] else []) + OnTopic(ms[1..], t)
  }

  lemma {:induction false} NothingOnTopic(ms: seq<Message>, id: Id)
    requires forall m :: m in ms ==> m.TileMsg?
    ensures OnTopic(ms, ObjectTopic(id)) == []
  {
    if ms != [] {
      assert ms[0] in ms && forall m :: m in ms[1..] ==> m in ms;
      NothingOnTopic(ms[1..], id);
    }
  }

  lemma {:induction false} TileMessagesOnly(cfg: Config, r: Redis, id: Id, delta: Attrs, order: seq<string>)
    ensures forall m :: m in AttrTileMessages(cfg, r, id, delta, order) ==> m.TileMsg?
  {
    if order != [] {
      TileMessagesOnly(cfg, r, id, delta, order[1..]);
    }
  }

  lemma FirstOnTopic(m: Message, rest: seq<Message>, id: Id)
    requires forall k :: k in rest ==> k.TileMsg?
    ensures OnTopic([m] + rest, ObjectTopic(id)) == if TopicOf(m) == ObjectTopic(id) then [m] else []
  {
    NothingOnTopic(rest, id);
    assert ([m] + rest)[1..] == rest;
  }

  /** Every write of an object's hash is told once on the object's topic: an HSET with its fields, an HDEL with none, a
      DEL as a deletion; and nothing else is. */
  lemma {:induction false} EveryWriteIsTold(cfg: Config, r: Redis, cmd: Command, order: seq<string>, id: Id)
    ensures OnTopic(MessagesOf(cfg, r, cmd, order), ObjectTopic(id))
         == match cmd
            case HSet(i, fields) => if i == id then [ObjectMsg(id, ObjectAttr(id, fields))] else []
            case HDel(i, _) => if i == id then [ObjectMsg(id, ObjectAttr(id, map[]))] else []
            case DelObject(i) => if i == id then [ObjectMsg(id, ObjectDelete(id))] else []
            case _ => []
  {
    match cmd
    case HSet(i, fields) =>
      var delta := Restrict(fields, cfg.enrich);
      TileMessagesOnly(cfg, r, i, delta, order);
      FirstOnTopic(ObjectMsg(i, ObjectAttr(i, fields)),
                   if delta == map[] then [] else AttrTileMessages(cfg, r, i, delta, order), id);
    case HDel(i, _) => FirstOnTopic(ObjectMsg(i, ObjectAttr(i, map[])), [], id);
    case DelObject(i) => FirstOnTopic(ObjectMsg(i, ObjectDelete(i)), [], id);
    case _ => NothingOnTopic(MessagesOf(cfg, r, cmd, order), id);
  }

  // ---------- What it then shows ----------

  /** The client holds the object and shows every field of its hash with its value. */
  ghost predicate ShowsHash(features: map<Id, Feature>, r: Redis, id: Id) {
    id in features && forall k :: k in HashOf(r, id) ==>
      k in features[id].props && features[id].props[k] == HashOf(r, id)[k]
  }

  /** The client's map after what it hears of a command. */
  function Told(cfg: Config, r: Redis, cmd: Command, order: seq<string>, features: map<Id, Feature>,
                id: Id): map<Id, Feature>
  {
    ReceiveAll(features, OnTopic(MessagesOf(cfg, r, cmd, order), ObjectTopic(id)))
  }

  /** The fields a command sets on the object. */
  function FieldsSet(cmd: Command, id: Id): Attrs {
    if cmd.HSet? && cmd.id == id then cmd.fields else map[]
  }

  /** A command leaves of the hash nothing but what it sets and what was there. */
  lemma HashAfter(r: Redis, cmd: Command, id: Id)
    ensures var before, set', after := HashOf(r, id), FieldsSet(cmd, id), HashOf(Apply(r, cmd), id);
            forall k :: k in after ==>
              if k in set' then after[k] == set'[k] else k in before && after[k] == before[k]
  {
  }

  lemma ReceiveOne(features: map<Id, Feature>, m: Message)
    ensures ReceiveAll(features, [m]) == Received(features, m)
  {
    assert [m][1..] == [];
    assert ReceiveAll(features, [m]) == ReceiveAll(Received(features, m), []);
  }

  /** Of two maps, one has fields for the object laid over those of the other. */
  predicate LaidOver(features: map<Id, Feature>, features': map<Id, Feature>, id: Id, attrs: Attrs) {
    && id in features && id in features' && features' - {id} == features - {id}
    && features'[id].pos == features[id].pos
    && features'[id].props.Keys == features[id].props.Keys + attrs.Keys
    && forall k :: k in features'[id].props ==>
         features'[id].props[k] == if k in attrs then attrs[k] else features[id].props[k]
  }

  lemma FieldsLaidOver(features: map<Id, Feature>, id: Id, body: ObjectPayload)
    requires id in features
    ensures LaidOver(features, ReceiveAll(features, [ObjectMsg(id, body)]), id,
                     if body.ObjectDelete? then map[] else body.attrs)
  {
    ReceiveOne(features, ObjectMsg(id, body));
  }

  /** One command: the object stays where it is, the client goes on showing all of its hash, and the fields it shows are
      those it showed and those that were set. Other objects are left alone. */
  lemma WatchKeeps(cfg: Config, r: Redis, cmd: Command, order: seq<string>, features: map<Id, Feature>, id: Id)
    requires ShowsHash(features, r, id)
    ensures var features' := Told(cfg, r, cmd, order, features, id);
            && ShowsHash(features', Apply(r, cmd), id)
            && features'[id].pos == features[id].pos
            && features'[id].props.Keys == features[id].props.Keys + FieldsSet(cmd, id).Keys
            && features' - {id} == features - {id}
  {
    ToldLaysOver(cfg, r, cmd, order, features, id);
    HashAfter(r, cmd, id);
  }

  lemma ToldLaysOver(cfg: Config, r: Redis, cmd: Command, order: seq<string>, features: map<Id, Feature>, id: Id)
    requires id in features
    ensures LaidOver(features, Told(cfg, r, cmd, order, features, id), id, FieldsSet(cmd, id))
  {
    EveryWriteIsTold(cfg, r, cmd, order, id);
    match cmd
    case HSet(i, fields) => if i == id { FieldsLaidOver(features, id, ObjectAttr(id, fields)); }
    case HDel(i, _) => if i == id { FieldsLaidOver(features, id, ObjectAttr(id, map[])); }
    case DelObject(i) => if i == id { FieldsLaidOver(features, id, ObjectDelete(id)); }
    case _ =>
  }

  /** A command with the order in which the index lists the object's sets. */
  datatype Ordered = Ordered(cmd: Command, order: seq<string>)

  function After(r: Redis, run: seq<Ordered>): Redis
    decreases |run|
  {
    if run == [] then r else After(Apply(r, run[0].cmd), run[1..])
  }

  function ToldAll(cfg: Config, r: Redis, run: seq<Ordered>, features: map<Id, Feature>, id: Id): map<Id, Feature>
    decreases |run|
  {
    if run == [] then features
    else ToldAll(cfg, Apply(r, run[0].cmd), run[1..], Told(cfg, r, run[0].cmd, run[0].order, features, id), id)
  }

  function NamesEverSet(run: seq<Ordered>, id: Id): set<string> {
    if run == [] then {} else FieldsSet(run[0].cmd, id).Keys + NamesEverSet(run[1..], id)
  }

  /** The snapshot that answers the subscription makes the client show the whole hash; it is one message, or none when
      there is no hash. */
  lemma ObjectSnapshotShows(r: Redis, features: map<Id, Feature>, id: Id)
    requires id in features
    ensures var features' := ReceiveAll(features, S.ObjectBurst(r, TopicText(ObjectTopic(id))));
            && ShowsHash(features', r, id) && features'[id].pos == features[id].pos
            && features'[id].props.Keys == features[id].props.Keys + HashOf(r, id).Keys
            && features' - {id} == features - {id}
    ensures |S.ObjectBurst(r, TopicText(ObjectTopic(id)))| == if HashOf(r, id) == map[] then 0 else 1
  {
    assert "objects/" <= TopicText(ObjectTopic(id)) && TopicText(ObjectTopic(id))[|"objects/"|..] == id;
    if HashOf(r, id) != map[] {
      FieldsLaidOver(features, id, ObjectSnapshot(id, HashOf(r, id)));
    }
  }

  lemma {:induction false} WatchRunKeeps(cfg: Config, r: Redis, run: seq<Ordered>, features: map<Id, Feature>, id: Id)
    requires ShowsHash(features, r, id)
    ensures var features' := ToldAll(cfg, r, run, features, id);
            && ShowsHash(features', After(r, run), id)
            && features'[id].pos == features[id].pos
            && features'[id].props.Keys == features[id].props.Keys + NamesEverSet(run, id)
            && features' - {id} == features - {id}
    decreases |run|
  {
    if run != [] {
      WatchKeeps(cfg, r, run[0].cmd, run[0].order, features, id);
      WatchRunKeeps(cfg, Apply(r, run[0].cmd), run[1..], Told(cfg, r, run[0].cmd, run[0].order, features, id), id);
    }
  }

  /** From the snapshot on, after any run of commands a watching client that holds the object shows every field of its
      hash. It shows exactly the hash if and only if no field is left over: none that it showed before, that the
      snapshot brought or that was ever set is missing from the hash now. */
  lemma WatchedObjectExact(cfg: Config, r: Redis, run: seq<Ordered>, features: map<Id, Feature>, id: Id)
    requires id in features
    ensures var shown := ToldAll(cfg, r, run, ReceiveAll(features, S.ObjectBurst(r, TopicText(ObjectTopic(id)))), id);
            var hash := HashOf(After(r, run), id);
            && ShowsHash(shown, After(r, run), id) && shown[id].pos == features[id].pos
            && (shown[id].props == hash
                <==> features[id].props.Keys + HashOf(r, id).Keys + NamesEverSet(run, id) <= hash.Keys)
  {
    var first := ReceiveAll(features, S.ObjectBurst(r, TopicText(ObjectTopic(id))));
    ObjectSnapshotShows(r, features, id);
    WatchRunKeeps(cfg, r, run, first, id);
    var shown, hash := ToldAll(cfg, r, run, first, id)[id].props, HashOf(After(r, run), id);
    if shown.Keys <= hash.Keys {
      assert shown.Keys == hash.Keys;
      assert shown == hash;
    }
  }
}
