/** The RESP proxy: it forwards a command to Redis and, when that succeeds, reports it. */
module RespProxy {
  import opened Payloads
  import opened MemberTracking
  import opened RedisStore
  import F = TileFanout

  function UpperChar(c: char): char {
    if 'a' <= c <= 'z' then c - 'a' + 'A' else c
  }

  function Upper(s: string): string {
    seq(|s|, i requires 0 <= i < |s| => UpperChar(s[i]))
  }

  /** The commands that the proxy intercepts. */
  datatype Kind = GeoAddKind | ZRemKind | HashSetKind | HashDelKind | DelKind | NotReported

  function KindOf(args: seq<string>): Kind
    requires args != []
  {
    var cmd := Upper(args[0]);
    if cmd == "GEOADD" && |args| >= 5 then GeoAddKind
    else if cmd == "ZREM" && |args| >= 3 then ZRemKind
    else if cmd == "HSET" || cmd == "HMSET" then HashSetKind
    else if cmd == "HDEL" then HashDelKind
    else if cmd == "DEL" then DelKind
    else NotReported
  }

  /** Reads a coordinate; what is not a number becomes 0. */
  function Coordinate(parse: string -> Option<real>, s: string): real {
    if parse(s).Some? then parse(s).value else 0.0
  }

  // ---------- GEOADD arguments ----------

  predicate IsFlag(s: string) {
    Upper(s) == "NX" || Upper(s) == "XX" || Upper(s) == "CH"
  }

  function AfterFlags(tail: seq<string>): seq<string> {
    if tail != [] && IsFlag(tail[0]) then AfterFlags(tail[1..]) else tail
  }

  datatype Entry = Entry(member: Id, pos: Pos)

  /** Longitude, latitude, member, over and over; an incomplete rest is ignored. */
  function Entries(parse: string -> Option<real>, rest: seq<string>): seq<Entry> {
    if |rest| < 3 then []
    else [Entry(rest[2], Pos(Coordinate(parse, rest[1]), Coordinate(parse, rest[0])))] + Entries(parse, rest[3..])
  }

  function GeoAddEntries(parse: string -> Option<real>, args: seq<string>): seq<Entry> {
    if |args| < 5 then [] else Entries(parse, AfterFlags(args[2..]))
  }

  method ExtractGeoAddMembers(parse: string -> Option<real>, tail: seq<string>)
    returns (members: seq<Id>, positions: seq<Pos>)
    ensures |members| == |positions| == |Entries(parse, AfterFlags(tail))|
    ensures forall i :: 0 <= i < |members| ==> Entries(parse, AfterFlags(tail))[i] == Entry(members[i], positions[i])
  {
    var i := 0;
    while i < |tail| && IsFlag(tail[i])
      invariant i <= |tail| && AfterFlags(tail[i..]) == AfterFlags(tail)
    {
      assert tail[i..][1..] == tail[i + 1..];
      i := i + 1;
    }
    var rest := tail[i..];
    members, positions := [], [];
    ghost var done: seq<Entry> := [];
    var j := 0;
    while j + 2 < |rest|
      invariant j <= |rest| && |members| == |positions| == |done|
      invariant forall k :: 0 <= k < |done| ==> done[k] == Entry(members[k], positions[k])
      invariant done + Entries(parse, rest[j..]) == Entries(parse, rest)
    {
      var lng, lat := Coordinate(parse, rest[j]), Coordinate(parse, rest[j + 1]);
      members := members + [rest[j + 2]];
      positions := positions + [Pos(lat, lng)];
      assert rest[j..][3..] == rest[j + 3..];
      ghost var more := Entries(parse, rest[j + 3..]);
      assert done + ([Entry(rest[j + 2], Pos(lat, lng))] + more) == done + [Entry(rest[j + 2], Pos(lat, lng))] + more;
      done := done + [Entry(rest[j + 2], Pos(lat, lng))];
      j := j + 3;
    }
    assert done + [] == done;
  }

  // ---------- HSET arguments ----------

  /** Name and value, over and over; the last value of a name counts. */
  function Fields(tail: seq<string>): Attrs {
    if |tail| < 2 then map[] else map[tail[0] := tail[1]] + Fields(tail[2..])
  }

  method ExtractFields(args: seq<string>) returns (attrs: Attrs)
    requires |args| >= 2
    ensures attrs == Fields(args[2..])
  {
    attrs := map[];
    var i := 2;
    while i + 1 < |args|
      invariant 2 <= i <= |args|
      invariant attrs + Fields(args[i..]) == Fields(args[2..])
    {
      assert args[i..][2..] == args[i + 2..];
      ghost var more := Fields(args[i + 2..]);
      assert attrs + (map[args[i] := args[i + 1]] + more) == attrs[args[i] := args[i + 1]] + more;
      attrs := attrs[args[i] := args[i + 1]];
      i := i + 2;
    }
    assert attrs + map[] == attrs;
  }

  // ---------- What the proxy reports ----------

  /** Positions before, attributes after the command. */
  function GeoAddMessages(cfg: Config, before: Redis, after: Redis, layer: string, entries: seq<Entry>): seq<Message> {
    if entries == [] then []
    else
      var n := |entries| - 1;
      GeoAddMessages(cfg, before, after, layer, entries[..n])
      + TileMessages(layer,
                     UpdateOps(cfg, entries[n].member, Truth(before, layer, entries[n].member), Some(entries[n].pos),
                                      Enriched(cfg, after, entries[n].member)))
  }

  function AddToIndex(r: Redis, layer: string, entries: seq<Entry>): Redis {
    if entries == [] then r
    else
      var n := |entries| - 1;
      var so := AddToIndex(r, layer, entries[..n]);
      so.(inset := so.inset[entries[n].member := LayersOf(so, entries[n].member) + {layer}])
  }

  function ZRemMessages(cfg: Config, before: Redis, layer: string, members: seq<Id>): seq<Message> {
    if members == [] then []
    else
      var n := |members| - 1;
      var was := Truth(before, layer, members[n]);
      ZRemMessages(cfg, before, layer, members[..n])
      + if was.None? then [] else TileMessages(layer, RemoveOps(cfg, cfg.zooms, members[n], was.value))
  }

  function RemoveFromIndex(before: Redis, r: Redis, layer: string, members: seq<Id>): Redis {
    if members == [] then r
    else
      var n := |members| - 1;
      var so := RemoveFromIndex(before, r, layer, members[..n]);
      if Truth(before, layer, members[n]).None? then so
      else so.(inset := so.inset[members[n] := LayersOf(so, members[n]) - {layer}])
  }

  function DelMessages(prefix: string, keys: seq<string>): seq<Message> {
    if keys == [] then []
    else
      var n := |keys| - 1;
      DelMessages(prefix, keys[..n])
      + if prefix <= keys[n] then [ObjectMsg(keys[n][|prefix|..], ObjectDelete(keys[n][|prefix|..]))] else []
  }

  /** HSET or HMSET on the hash of an object */
  predicate IsHashWrite(prefix: string, args: seq<string>) {
    |args| >= 2 && KindOf(args) == HashSetKind && prefix <= args[1]
  }

  function HashMessages(cfg: Config, prefix: string, after: Redis, args: seq<string>, isDel: bool,
                        order: seq<string>): seq<Message>
  {
    if |args| < 2 || !(prefix <= args[1]) then []
    else
      var obid := args[1][|prefix|..];
      var attrs := if isDel then map[] else Fields(args[2..]);
      [ObjectMsg(obid, ObjectAttr(obid, attrs))] + AttrPart(cfg, after, obid, Restrict(attrs, cfg.enrich), order)
  }

  function AttrPart(cfg: Config, r: Redis, obid: Id, delta: Attrs, order: seq<string>): seq<Message> {
    if delta == map[] then [] else AttrTileMessages(cfg, r, obid, delta, order)
  }

  /** All that is published for a command that Redis accepted. */
  function Reported(cfg: Config, prefix: string, parse: string -> Option<real>, before: Redis, after: Redis,
                    args: seq<string>, order: seq<string>): seq<Message>
    requires args != []
  {
    match KindOf(args)
    case GeoAddKind => GeoAddMessages(cfg, before, after, args[1], GeoAddEntries(parse, args))
    case ZRemKind => ZRemMessages(cfg, before, args[1], args[2..])
    case HashSetKind => HashMessages(cfg, prefix, after, args, false, order)
    case HashDelKind => HashMessages(cfg, prefix, after, args, true, order)
    case DelKind => DelMessages(prefix, args[1..])
    case NotReported => []
  }

  function PositionPoints(layer: string, entries: seq<Entry>): (ps: seq<F.Point>)
    ensures |ps| == |entries|
    ensures forall i :: 0 <= i < |ps| ==> ps[i] == F.PositionPoint(layer, entries[i].member, entries[i].pos)
  {
    seq(|entries|, i requires 0 <= i < |entries| => F.PositionPoint(layer, entries[i].member, entries[i].pos))
  }

  lemma PositionPointsStep(metered: bool, was: seq<F.Point>, layer: string, entries: seq<Entry>, i: nat)
    requires i < |entries|
    ensures was + (if metered then PositionPoints(layer, entries[..i]) else [])
                + (if metered then [F.PositionPoint(layer, entries[i].member, entries[i].pos)] else [])
         == was + if metered then PositionPoints(layer, entries[..i + 1]) else []
  {
    assert PositionPoints(layer, entries[..i + 1])
        == PositionPoints(layer, entries[..i]) + [F.PositionPoint(layer, entries[i].member, entries[i].pos)];
  }

  /** What InfluxDB gets of a command: every position given, and the fields of an object's HSET, if there are any. */
  function Recorded(prefix: string, parse: string -> Option<real>, args: seq<string>): seq<F.Point>
    requires args != []
  {
    match KindOf(args)
    case GeoAddKind => PositionPoints(args[1], GeoAddEntries(parse, args))
    case HashSetKind =>
      if |args| < 2 || !(prefix <= args[1]) || Fields(args[2..]) == map[] then []
      else [F.AttrPoint(args[1][|prefix|..], Fields(args[2..]))]
    case _ => []
  }

  /** Redis after the command and the index updates of its fanout. */
  function Indexed(parse: string -> Option<real>, before: Redis, after: Redis, args: seq<string>): Redis
    requires args != []
  {
    match KindOf(args)
    case GeoAddKind => AddToIndex(after, args[1], GeoAddEntries(parse, args))
    case ZRemKind => RemoveFromIndex(before, after, args[1], args[2..])
    case _ => after
  }

  function GeoPosBatch(r: Redis, layer: string, members: seq<Id>): (ps: seq<Option<Pos>>)
    ensures |ps| == |members|
    ensures forall i :: 0 <= i < |members| ==> ps[i] == Truth(r, layer, members[i])
  {
    seq(|members|, i requires 0 <= i < |members| => Truth(r, layer, members[i]))
  }

  class Proxy {
    const fanout: F.Fanout
    const prefix: string
    const parse: string -> Option<real>
    /** What Redis makes of a command; nothing for an error reply. */
    const upstream: (Redis, seq<string>) -> Option<Redis>

    constructor (fanout: F.Fanout, prefix: string, parse: string -> Option<real>,
                 upstream: (Redis, seq<string>) -> Option<Redis>)
      ensures this.fanout == fanout && this.prefix == prefix && this.parse == parse && this.upstream == upstream
    {
      this.fanout, this.prefix, this.parse, this.upstream := fanout, prefix, parse, upstream;
    }

    /** Whatever Redis does with the command, an error reply is not reported and changes nothing,
        and anything else is reported from the positions before and the hashes after it. */
    method HandleCommand(args: seq<string>) returns (ok: bool, ghost order: seq<string>)
      requires ValidConfig(fanout.cfg)
      modifies fanout, fanout.broker
      ensures ok <==> args != [] && upstream(old(fanout.redis), args).Some?
      ensures !ok ==> fanout.Seen() == old(fanout.Seen()) && fanout.redis == old(fanout.redis)
      ensures ok ==> var after := upstream(old(fanout.redis), args).value;
                     && fanout.Seen() == F.Emit(old(fanout.Seen()), fanout.nodeId, fanout.encode,
                                                Reported(fanout.cfg, prefix, parse, old(fanout.redis), after, args,
                                                         order))
                     && fanout.redis == Indexed(parse, old(fanout.redis), after, args)
                     && (IsHashWrite(prefix, args) ==> Lists(order, LayersOf(after, args[1][|prefix|..])))
      ensures fanout.points == old(fanout.points) + if ok && fanout.metered then Recorded(prefix, parse, args) else []
    {
      ok, order := false, [];
      if args == [] {
        return;
      }
      var kind := KindOf(args);
      ghost var before := fanout.redis;
      F.EmitNothing(fanout.Seen(), fanout.nodeId, fanout.encode);
      var prePositions: seq<Option<Pos>> := [];
      var preMembers: seq<Id> := [];
      if kind == GeoAddKind {
        var members, _ := ExtractGeoAddMembers(parse, args[2..]);
        prePositions, preMembers := GeoPosBatch(fanout.redis, args[1], members), members;
      } else if kind == ZRemKind {
        prePositions, preMembers := GeoPosBatch(fanout.redis, args[1], args[2..]), args[2..];
      }
      var reply := upstream(fanout.redis, args);
      if reply.None? {
        return;
      }
      ok := true;
      fanout.redis := reply.value;
      match kind {
        case GeoAddKind =>
          var members, positions := ExtractGeoAddMembers(parse, args[2..]);
          ReportGeoAdd(before, args[1], members, positions, prePositions, GeoAddEntries(parse, args));
        case ZRemKind => ReportZRem(before, args[1], preMembers, prePositions);
        case HashSetKind => order := HandleHashWrite(args, false);
        case HashDelKind => order := HandleHashWrite(args, true);
        case DelKind => HandleDel(args[1..]);
        case NotReported =>
      }
    }

    method ReportGeoAdd(ghost before: Redis, layer: string, members: seq<Id>, positions: seq<Pos>,
                        was: seq<Option<Pos>>, ghost entries: seq<Entry>)
      requires ValidConfig(fanout.cfg)
      requires |entries| == |members| == |positions| == |was|
      requires forall i :: 0 <= i < |members| ==>
        entries[i] == Entry(members[i], positions[i]) && was[i] == Truth(before, layer, members[i])
      modifies fanout, fanout.broker
      ensures fanout.redis == AddToIndex(old(fanout.redis), layer, entries)
      ensures fanout.Seen() == F.Emit(old(fanout.Seen()), fanout.nodeId, fanout.encode,
                                      GeoAddMessages(fanout.cfg, before, old(fanout.redis), layer, entries))
      ensures fanout.points == old(fanout.points) + if fanout.metered then PositionPoints(layer, entries) else []
    {
      F.EmitNothing(fanout.Seen(), fanout.nodeId, fanout.encode);
      ghost var after, seen := fanout.redis, fanout.Seen();
      for i := 0 to |members|
        invariant fanout.redis == AddToIndex(after, layer, entries[..i]) && fanout.redis.hashes == after.hashes
        invariant fanout.Seen() == F.Emit(seen, fanout.nodeId, fanout.encode,
                                          GeoAddMessages(fanout.cfg, before, after, layer, entries[..i]))
        invariant fanout.points
             == old(fanout.points) + if fanout.metered then PositionPoints(layer, entries[..i]) else []
      {
        assert entries[..i + 1][..i] == entries[..i];
        var attrs := Enriched(fanout.cfg, fanout.redis, members[i]);
        PositionPointsStep(fanout.metered, old(fanout.points), layer, entries, i);
        fanout.OnGeoWrite(layer, members[i], was[i], positions[i], attrs);
        F.EmitAppend(seen, fanout.nodeId, fanout.encode, GeoAddMessages(fanout.cfg, before, after, layer, entries[..i]),
                     TileMessages(layer, UpdateOps(fanout.cfg, members[i], was[i], Some(positions[i]), attrs)));
      }
      assert entries[..|members|] == entries;
    }

    method ReportZRem(ghost before: Redis, layer: string, members: seq<Id>, was: seq<Option<Pos>>)
      requires |members| == |was|
      requires forall i :: 0 <= i < |members| ==> was[i] == Truth(before, layer, members[i])
      modifies fanout, fanout.broker
      ensures fanout.redis == RemoveFromIndex(before, old(fanout.redis), layer, members)
      ensures fanout.Seen() == F.Emit(old(fanout.Seen()), fanout.nodeId, fanout.encode,
                                      ZRemMessages(fanout.cfg, before, layer, members))
      ensures fanout.points == old(fanout.points)
    {
      F.EmitNothing(fanout.Seen(), fanout.nodeId, fanout.encode);
      ghost var after, seen := fanout.redis, fanout.Seen();
      for i := 0 to |members|
        invariant fanout.redis == RemoveFromIndex(before, after, layer, members[..i])
        invariant fanout.Seen()
             == F.Emit(seen, fanout.nodeId, fanout.encode, ZRemMessages(fanout.cfg, before, layer, members[..i]))
        invariant fanout.points == old(fanout.points)
      {
        assert members[..i + 1][..i] == members[..i];
        ghost var sent := ZRemMessages(fanout.cfg, before, layer, members[..i]);
        if was[i].Some? {
          fanout.OnGeoRemove(layer, members[i], was[i].value);
          F.EmitAppend(seen, fanout.nodeId, fanout.encode, sent,
                       TileMessages(layer, RemoveOps(fanout.cfg, fanout.cfg.zooms, members[i], was[i].value)));
        } else {
          assert sent + [] == sent;
        }
      }
      assert members[..|members|] == members;
    }

    method HandleHashWrite(args: seq<string>, isDel: bool) returns (ghost order: seq<string>)
      modifies fanout, fanout.broker
      ensures fanout.redis == old(fanout.redis)
      ensures |args| >= 2 && prefix <= args[1] ==> Lists(order, LayersOf(fanout.redis, args[1][|prefix|..]))
      ensures fanout.Seen() == F.Emit(old(fanout.Seen()), fanout.nodeId, fanout.encode,
                                      HashMessages(fanout.cfg, prefix, old(fanout.redis), args, isDel, order))
      ensures fanout.points == old(fanout.points) +
              if |args| < 2 || !(prefix <= args[1]) || isDel then []
              else F.ObjectPoints(fanout.metered, args[1][|prefix|..],
                                  ObjectAttr(args[1][|prefix|..], Fields(args[2..])))
    {
      order := [];
      F.EmitNothing(fanout.Seen(), fanout.nodeId, fanout.encode);
      if |args| < 2 || !(prefix <= args[1]) {
        return;
      }
      var obid := args[1][|prefix|..];
      order := F.Members(LayersOf(fanout.redis, obid));
      var attrs: Attrs := map[];
      if !isDel {
        attrs := ExtractFields(args);
      }
      ghost var seen := fanout.Seen();
      fanout.PublishObject(obid, ObjectAttr(obid, attrs));
      ghost var first := [ObjectMsg(obid, ObjectAttr(obid, attrs))];
      var tileAttrs := Restrict(attrs, fanout.cfg.enrich);
      if !isDel && fanout.cfg.enrich != {} && attrs != map[] && tileAttrs != map[] {
        order := fanout.OnAttrTile(obid, tileAttrs);
        F.EmitAppend(seen, fanout.nodeId, fanout.encode, first,
                     AttrPart(fanout.cfg, fanout.redis, obid, tileAttrs, order));
      } else {
        assert tileAttrs == map[];
        assert first + [] == first;
      }
    }

    method HandleDel(keys: seq<string>)
      modifies fanout, fanout.broker
      ensures fanout.redis == old(fanout.redis)
      ensures fanout.Seen() == F.Emit(old(fanout.Seen()), fanout.nodeId, fanout.encode, DelMessages(prefix, keys))
      ensures fanout.points == old(fanout.points)
    {
      F.EmitNothing(fanout.Seen(), fanout.nodeId, fanout.encode);
      ghost var seen := fanout.Seen();
      for i := 0 to |keys|
        invariant fanout.redis == old(fanout.redis)
        invariant fanout.Seen() == F.Emit(seen, fanout.nodeId, fanout.encode, DelMessages(prefix, keys[..i]))
        invariant fanout.points == old(fanout.points)
      {
        assert keys[..i + 1][..i] == keys[..i];
        ghost var sent := DelMessages(prefix, keys[..i]);
        if prefix <= keys[i] {
          var obid := keys[i][|prefix|..];
          fanout.PublishObject(obid, ObjectDelete(obid));
          F.EmitAppend(seen, fanout.nodeId, fanout.encode, sent, [ObjectMsg(obid, ObjectDelete(obid))]);
        } else {
          assert sent + [] == sent;
        }
      }
      assert keys[..|keys|] == keys;
    }
  }
}
