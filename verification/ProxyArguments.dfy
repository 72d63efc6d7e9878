/** What the proxy reads out of a command's arguments, said from the side of whoever wrote them. */
module ProxyArguments {
  import opened Payloads
  import opened RedisStore
  import opened RespProxy
  import opened ProxyCommands
  import F = TileFanout

  // ---------- Command names and flags ----------

  /** A spelling of a name in capitals, with any of its letters small. */
  predicate Spells(s: string, name: string) {
    |s| == |name| && forall i :: 0 <= i < |name| ==> s[i] == name[i] || s[i] as int == name[i] as int + 32
  }

  lemma UpperSpells(s: string, name: string)
    requires forall i :: 0 <= i < |name| ==> 'A' <= name[i] <= 'Z'
    ensures Upper(s) == name <==> Spells(s, name)
  {
    if Spells(s, name) {
      forall i | 0 <= i < |s| ensures Upper(s)[i] == name[i] {
        LetterSpells(s[i], name[i]);
      }
    }
    if Upper(s) == name {
      forall i | 0 <= i < |name| ensures s[i] == name[i] || s[i] as int == name[i] as int + 32 {
        assert Upper(s)[i] == UpperChar(s[i]);
        LetterSpells(s[i], name[i]);
      }
    }
  }

  lemma LetterSpells(c: char, letter: char)
    requires 'A' <= letter <= 'Z'
    ensures UpperChar(c) == letter <==> c == letter || c as int == letter as int + 32
  {
  }

  /** Exactly these commands are reported, in any spelling, and GEOADD and ZREM only when they name a member. */
  lemma KindsExact(args: seq<string>)
    requires args != []
    ensures KindOf(args) == GeoAddKind <==> Spells(args[0], "GEOADD") && |args| >= 5
    ensures KindOf(args) == ZRemKind <==> Spells(args[0], "ZREM") && |args| >= 3
    ensures KindOf(args) == HashSetKind <==> Spells(args[0], "HSET") || Spells(args[0], "HMSET")
    ensures KindOf(args) == HashDelKind <==> Spells(args[0], "HDEL")
    ensures KindOf(args) == DelKind <==> Spells(args[0], "DEL")
  {
    UpperSpells(args[0], "GEOADD");
    UpperSpells(args[0], "ZREM");
    UpperSpells(args[0], "HSET");
    UpperSpells(args[0], "HMSET");
    UpperSpells(args[0], "HDEL");
    UpperSpells(args[0], "DEL");
  }

  lemma FlagsExact(s: string)
    ensures IsFlag(s) <==> Spells(s, "NX") || Spells(s, "XX") || Spells(s, "CH")
  {
    UpperSpells(s, "NX");
    UpperSpells(s, "XX");
    UpperSpells(s, "CH");
  }

  // ---------- GEOADD ----------

  /** A member as it is written behind GEOADD. */
  datatype Triple = Triple(longitude: string, latitude: string, member: string)

  function Written(triples: seq<Triple>): seq<string> {
    if triples == [] then []
    else [triples[0].longitude, triples[0].latitude, triples[0].member] + Written(triples[1..])
  }

  lemma {:induction false} FlagsSkipped(flags: seq<string>, tail: seq<string>)
    requires forall i :: 0 <= i < |flags| ==> IsFlag(flags[i])
    requires tail != [] ==> !IsFlag(tail[0])
    ensures AfterFlags(flags + tail) == tail
  {
    if flags == [] {
      assert flags + tail == tail;
    } else {
      assert (flags + tail)[1..] == flags[1..] + tail;
      FlagsSkipped(flags[1..], tail);
    }
  }

  /** What a triple says; an unreadable number counts as 0. */
  function Said(parse: string -> Option<real>, t: Triple): Entry {
    var lat, lng := parse(t.latitude), parse(t.longitude);
    Entry(t.member, Pos(if lat == None then 0.0 else lat.value, if lng == None then 0.0 else lng.value))
  }

  lemma {:induction false} TriplesRead(parse: string -> Option<real>, triples: seq<Triple>, rest: seq<string>)
    requires |rest| < 3
    ensures var entries := Entries(parse, Written(triples) + rest);
            |entries| == |triples| && forall i :: 0 <= i < |triples| ==> entries[i] == Said(parse, triples[i])
  {
    if triples == [] {
      assert Written(triples) + rest == rest;
    } else {
      var all := Written(triples) + rest;
      assert all[3..] == Written(triples[1..]) + rest;
      assert all[0] == triples[0].longitude && all[1] == triples[0].latitude && all[2] == triples[0].member;
      TriplesRead(parse, triples[1..], rest);
    }
  }

  /** After any flags, exactly the written members come out, in order and each at its place; up to two arguments that
      complete no member are ignored. */
  lemma GeoAddExact(parse: string -> Option<real>, name: string, layer: string, flags: seq<string>,
                    triples: seq<Triple>, rest: seq<string>)
    requires forall i :: 0 <= i < |flags| ==> Spells(flags[i], "NX") || Spells(flags[i], "XX") || Spells(flags[i], "CH")
    requires triples != [] && !IsFlag(triples[0].longitude) && |rest| < 3
    ensures var entries := GeoAddEntries(parse, [name, layer] + (flags + (Written(triples) + rest)));
            |entries| == |triples| && forall i :: 0 <= i < |triples| ==> entries[i] == Said(parse, triples[i])
  {
    forall i | 0 <= i < |flags| ensures IsFlag(flags[i]) {
      FlagsExact(flags[i]);
    }
    FlagsSkipped(flags, Written(triples) + rest);
    TriplesRead(parse, triples, rest);
    assert ([name, layer] + (flags + (Written(triples) + rest)))[2..] == flags + (Written(triples) + rest);
  }

  // ---------- HSET ----------

  datatype Pair = Pair(name: string, value: string)

  function Flat(pairs: seq<Pair>): seq<string> {
    if pairs == [] then [] else [pairs[0].name, pairs[0].value] + Flat(pairs[1..])
  }

  /** Exactly the written names are fields, each with the value of its last pair; a name without a value is ignored. */
  lemma {:induction false} FieldsExact(pairs: seq<Pair>, rest: seq<string>)
    requires |rest| < 2
    ensures var fields := Fields(Flat(pairs) + rest);
            && (forall k :: k in fields <==> exists i :: 0 <= i < |pairs| && pairs[i].name == k)
            && forall i :: 0 <= i < |pairs| && (forall j :: i < j < |pairs| ==> pairs[j].name != pairs[i].name) ==>
                 pairs[i].name in fields && fields[pairs[i].name] == pairs[i].value
  {
    if pairs == [] {
      assert Flat(pairs) + rest == rest;
    } else {
      var all, tail := Flat(pairs) + rest, pairs[1..];
      assert all[2..] == Flat(tail) + rest;
      assert all[0] == pairs[0].name && all[1] == pairs[0].value;
      FieldsExact(tail, rest);
      FirstPair(pairs, Fields(all), Fields(all[2..]));
    }
  }

  lemma FirstPair(pairs: seq<Pair>, fields: Attrs, later: Attrs)
    requires pairs != [] && fields == map[pairs[0].name := pairs[0].value] + later
    requires forall k :: k in later <==> exists i :: 0 <= i < |pairs[1..]| && pairs[1..][i].name == k
    requires forall i ::
      0 <= i < |pairs[1..]| && (forall j :: i < j < |pairs[1..]| ==> pairs[1..][j].name != pairs[1..][i].name) ==>
        pairs[1..][i].name in later && later[pairs[1..][i].name] == pairs[1..][i].value
    ensures forall k :: k in fields <==> exists i :: 0 <= i < |pairs| && pairs[i].name == k
    ensures forall i :: 0 <= i < |pairs| && (forall j :: i < j < |pairs| ==> pairs[j].name != pairs[i].name) ==>
              pairs[i].name in fields && fields[pairs[i].name] == pairs[i].value
  {
    var tail := pairs[1..];
    assert forall i :: 0 <= i < |tail| ==> tail[i] == pairs[i + 1];
    assert forall i :: 1 <= i < |pairs| ==> pairs[i] == tail[i - 1];
    forall k ensures k in fields <==> exists i :: 0 <= i < |pairs| && pairs[i].name == k {
      if i :| 0 <= i < |tail| && tail[i].name == k {
        assert pairs[i + 1].name == k;
      }
      if i :| 0 <= i < |pairs| && pairs[i].name == k {
        assert i > 0 ==> tail[i - 1].name == k;
      }
    }
    forall i | 0 <= i < |pairs| && forall j :: i < j < |pairs| ==> pairs[j].name != pairs[i].name
      ensures pairs[i].name in fields && fields[pairs[i].name] == pairs[i].value
    {
      if i > 0 {
        assert tail[i - 1] == pairs[i];
        forall j | i - 1 < j < |tail| ensures tail[j].name != tail[i - 1].name {
          assert tail[j] == pairs[j + 1];
        }
      } else {
        forall j | 0 <= j < |tail| ensures tail[j].name != pairs[0].name {
          assert tail[j] == pairs[j + 1];
        }
      }
    }
  }

  // ---------- What InfluxDB gets ----------

  /** The point of a single command: a position for a GEOADD, the fields of an HSET if there are any. */
  function PointsOf(c: Command): seq<F.Point> {
    match c
    case GeoAdd(layer, id, pos) => [F.PositionPoint(layer, id, pos)]
    case HSet(id, fields) => if fields == map[] then [] else [F.AttrPoint(id, fields)]
    case _ => []
  }

  function AllPointsOf(cs: seq<Command>): seq<F.Point> {
    if cs == [] then [] else PointsOf(cs[0]) + AllPointsOf(cs[1..])
  }

  lemma {:induction false} GeoAddPoints(layer: string, entries: seq<Entry>)
    ensures AllPointsOf(GeoAdds(layer, entries)) == PositionPoints(layer, entries)
  {
    if entries != [] {
      GeoAddPoints(layer, entries[1..]);
      assert GeoAdds(layer, entries)[1..] == GeoAdds(layer, entries[1..]);
      assert PositionPoints(layer, entries)
          == [F.PositionPoint(layer, entries[0].member, entries[0].pos)] + PositionPoints(layer, entries[1..]);
    }
  }

  lemma {:induction false} NoPoints(cs: seq<Command>)
    requires forall i :: 0 <= i < |cs| ==> !cs[i].GeoAdd? && !cs[i].HSet?
    ensures AllPointsOf(cs) == []
  {
    if cs != [] {
      NoPoints(cs[1..]);
    }
  }

  /** Whatever options a command has and however often it names a member: the points handed to InfluxDB are those of its
      single commands, in order. */
  lemma RecordedExact(prefix: string, parse: string -> Option<real>, args: seq<string>)
    requires args != []
    ensures Recorded(prefix, parse, args) == AllPointsOf(Commands(prefix, parse, args))
  {
    var cs := Commands(prefix, parse, args);
    match KindOf(args)
    case GeoAddKind => GeoAddPoints(args[1], GeoAddEntries(parse, args));
    case HashSetKind =>
      if cs != [] {
        assert cs[1..] == [];
        assert AllPointsOf(cs) == PointsOf(cs[0]) + AllPointsOf([]);
      }
    case _ => NoPoints(cs);
  }
}
