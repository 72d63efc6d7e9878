/** The lines written to InfluxDB, and a reader of the line protocol that gets the data back. */
module LineProtocol {
  import opened Payloads

  const BACKSLASH: char := '\\'
  const QUOTE: char := '"'
  const NEWLINE: char := '\n'

  const ATTR_HEAD := "geomqtt_attr,obid="
  const POSITION_HEAD := "geomqtt_position,set="
  const OBID := ",obid="
  const LAT := " lat="
  const LON := ",lon="
  const FIELD := "=\""

  predicate Special(c: char) {
    c == ',' || c == '=' || c == ' '
  }

  // ---------- Printing ----------

  function TagChar(c: char): string {
    if Special(c) then [BACKSLASH, c] else [c]
  }

  function TextChar(c: char): string {
    if c == QUOTE || c == BACKSLASH then [BACKSLASH, c] else [c]
  }

  function EscapedTag(s: string): string {
    if s == [] then [] else TagChar(s[0]) + EscapedTag(s[1..])
  }

  function EscapedText(s: string): string {
    if s == [] then [] else TextChar(s[0]) + EscapedText(s[1..])
  }

  lemma Regroup(a: string, b: string, c: string)
    ensures a + (b + c) == (a + b) + c
  {
  }

  method EscapeTag(before: string, s: string) returns (out: string)
    ensures out == before + EscapedTag(s)
  {
    out := before;
    for i := 0 to |s|
      invariant out + EscapedTag(s[i..]) == before + EscapedTag(s)
    {
      assert s[i..][1..] == s[i + 1..];
      Regroup(out, TagChar(s[i]), EscapedTag(s[i + 1..]));
      if Special(s[i]) {
        out := out + [BACKSLASH, s[i]];
      } else {
        out := out + [s[i]];
      }
    }
    assert out + [] == out;
  }

  method PushStringField(before: string, s: string) returns (out: string)
    ensures out == before + [QUOTE] + EscapedText(s) + [QUOTE]
  {
    out := before + [QUOTE];
    for i := 0 to |s|
      invariant out + EscapedText(s[i..]) == before + [QUOTE] + EscapedText(s)
    {
      assert s[i..][1..] == s[i + 1..];
      Regroup(out, TextChar(s[i]), EscapedText(s[i + 1..]));
      if s[i] == QUOTE || s[i] == BACKSLASH {
        out := out + [BACKSLASH, s[i]];
      } else {
        out := out + [s[i]];
      }
    }
    assert out + [] == out;
    out := out + [QUOTE];
  }

  /** The values an attribute may have; numbers and nested values come as their JSON text. */
  datatype Value = Text(s: string) | Number(text: string) | Bool(b: bool) | Null | Nested(text: string)

  function TextOf(v: Value): Option<string> {
    match v
    case Text(s) => Some(s)
    case Number(text) => Some(text)
    case Bool(b) => Some(if b then "true" else "false")
    case Null => None
    case Nested(text) => Some(text)
  }

  datatype Field = Field(key: string, value: string)

  /** The fields that get written: all but the nulls, in order. */
  function Written(attrs: seq<(string, Value)>): seq<Field> {
    if attrs == [] then []
    else (if TextOf(attrs[0].1).None? then [] else [Field(attrs[0].0, TextOf(attrs[0].1).value)]) + Written(attrs[1..])
  }

  function FieldText(f: Field): string {
    EscapedTag(f.key) + (FIELD + (EscapedText(f.value) + [QUOTE]))
  }

  function FieldsText(fields: seq<Field>): string {
    if fields == [] then []
    else if |fields| == 1 then FieldText(fields[0])
    else FieldText(fields[0]) + ([','] + FieldsText(fields[1..]))
  }

  function AttrText(obid: string, fields: seq<Field>): string {
    ATTR_HEAD + (EscapedTag(obid) + ([' '] + FieldsText(fields)))
  }

  lemma {:induction false} FieldsTextAppend(fields: seq<Field>, f: Field)
    requires fields != []
    ensures FieldsText(fields + [f]) == FieldsText(fields) + ([','] + FieldText(f))
  {
    assert (fields + [f])[1..] == fields[1..] + [f];
    if |fields| > 1 {
      FieldsTextAppend(fields[1..], f);
      Regroup([','], FieldsText(fields[1..]), [','] + FieldText(f));
      Regroup(FieldText(fields[0]), [','] + FieldsText(fields[1..]), [','] + FieldText(f));
    }
  }

  lemma {:induction false} WrittenAppend(attrs: seq<(string, Value)>, a: (string, Value))
    ensures Written(attrs + [a]) == Written(attrs) + if TextOf(a.1).None? then [] else [Field(a.0, TextOf(a.1).value)]
  {
    if attrs == [] {
      assert (attrs + [a])[1..] == [];
    } else {
      assert (attrs + [a])[1..] == attrs[1..] + [a];
      WrittenAppend(attrs[1..], a);
    }
  }

  /** One more field behind what has been written. */
  method PushField(before: string, key: string, value: string) returns (out: string)
    ensures out == before + FieldText(Field(key, value))
  {
    out := EscapeTag(before, key);
    out := PushStringField(out + ['='], value);
    var k, v := EscapedTag(key), EscapedText(value);
    assert FIELD == ['='] + [QUOTE];
    assert before + k + ['='] + [QUOTE] + v + [QUOTE] == before + (k + (['='] + [QUOTE] + (v + [QUOTE])));
  }

  lemma OneMoreField(head: string, fields: seq<Field>, f: Field)
    ensures fields == [] ==> head + FieldsText(fields) + FieldText(f) == head + FieldsText(fields + [f])
    ensures fields != [] ==> head + FieldsText(fields) + [','] + FieldText(f) == head + FieldsText(fields + [f])
  {
    if fields == [] {
      assert fields + [f] == [f];
      assert head + [] == head;
    } else {
      FieldsTextAppend(fields, f);
      Regroup(head, FieldsText(fields), [','] + FieldText(f));
      Regroup(head + FieldsText(fields), [','], FieldText(f));
    }
  }

  /** The line of an attribute write; nothing when no field remains. */
  method Attr(obid: string, attrs: seq<(string, Value)>) returns (line: Option<string>)
    ensures line == if Written(attrs) == [] then None else Some(AttrText(obid, Written(attrs)))
  {
    if attrs == [] {
      return None;
    }
    var out := EscapeTag(ATTR_HEAD, obid);
    out := out + [' '];
    ghost var head := out;
    var first := true;
    for i := 0 to |attrs|
      invariant first <==> Written(attrs[..i]) == []
      invariant out == head + FieldsText(Written(attrs[..i]))
    {
      assert attrs[..i + 1] == attrs[..i] + [attrs[i]];
      WrittenAppend(attrs[..i], attrs[i]);
      ghost var fields := Written(attrs[..i]);
      var text := TextOf(attrs[i].1);
      if text.None? {
        assert fields + [] == fields;
        continue;
      }
      OneMoreField(head, fields, Field(attrs[i].0, text.value));
      if !first {
        out := out + [','];
      }
      first := false;
      out := PushField(out, attrs[i].0, text.value);
    }
    assert attrs[..|attrs|] == attrs;
    AttrParts(obid, FieldsText(Written(attrs)));
    line := if first then None else Some(out);
  }

  lemma AttrParts(obid: string, fields: string)
    ensures ATTR_HEAD + EscapedTag(obid) + [' '] + fields == ATTR_HEAD + (EscapedTag(obid) + ([' '] + fields))
  {
    Regroup(ATTR_HEAD, EscapedTag(obid), [' '] + fields);
    Regroup(ATTR_HEAD + EscapedTag(obid), [' '], fields);
  }

  function NumbersText(lat: string, lon: string): string {
    LAT + (lat + (LON + lon))
  }

  function PositionText(layer: string, member: string, lat: string, lon: string): string {
    POSITION_HEAD + (EscapedTag(layer) + (OBID + (EscapedTag(member) + NumbersText(lat, lon))))
  }

  /** The line of a position; the numbers come as their printed text. */
  method Position(layer: string, member: string, lon: string, lat: string) returns (line: string)
    ensures line == PositionText(layer, member, lat, lon)
  {
    line := EscapeTag(POSITION_HEAD, layer);
    line := EscapeTag(line + OBID, member);
    line := line + LAT + lat + LON + lon;
    PositionParts(POSITION_HEAD + EscapedTag(layer), OBID, EscapedTag(member), LAT, lat, LON, lon);
    Regroup(POSITION_HEAD, EscapedTag(layer), OBID + (EscapedTag(member) + NumbersText(lat, lon)));
  }

  lemma PositionParts(a: string, b: string, c: string, d: string, e: string, f: string, g: string)
    ensures a + b + c + d + e + f + g == a + (b + (c + (d + (e + (f + g)))))
  {
    Regroup(a + b + c + d + e, f, g);
    Regroup(a + b + c + d, e, f + g);
    Regroup(a + b + c, d, e + (f + g));
    Regroup(a + b, c, d + (e + (f + g)));
    Regroup(a, b, c + (d + (e + (f + g))));
  }

  /** Nothing in the text needs an escape. */
  predicate Harmless(s: string) {
    forall i :: 0 <= i < |s| ==> s[i] != ',' && s[i] != '=' && s[i] != ' ' && s[i] != '"' && s[i] != '\\'
  }

  lemma {:induction false} HarmlessStays(s: string)
    requires Harmless(s)
    ensures EscapedTag(s) == s && EscapedText(s) == s
  {
    if s != [] {
      HarmlessStays(s[1..]);
    }
  }

  /** The layout of the lines, for names that need no escape. */
  lemma LinesOnTheWire(layer: string, member: string, lat: string, lon: string, key: string, value: string)
    requires Harmless(layer) && Harmless(member) && Harmless(key) && Harmless(value)
    ensures PositionText(layer, member, lat, lon)
         == "geomqtt_position,set=" + (layer + (",obid=" + (member + (" lat=" + (lat + (",lon=" + lon))))))
    ensures AttrText(member, [Field(key, value)])
         == "geomqtt_attr,obid=" + (member + (" " + (key + ("=\"" + (value + "\"")))))
  {
    HarmlessStays(layer);
    HarmlessStays(member);
    HarmlessStays(key);
    HarmlessStays(value);
  }

  /** The escapes: a backslash before comma, equals sign and blank in names, before quote and backslash in values. */
  lemma EscapesOnTheWire(c: char)
    ensures EscapedTag([c]) == if c in {',', '=', ' '} then ['\\', c] else [c]
    ensures EscapedText([c]) == if c in {'"', '\\'} then ['\\', c] else [c]
  {
    assert [c][1..] == [];
    assert EscapedTag([c]) == TagChar(c) + [] && EscapedText([c]) == TextChar(c) + [];
  }

  lemma {:induction false} EscapesConcatenate(a: string, b: string)
    ensures EscapedTag(a + b) == EscapedTag(a) + EscapedTag(b)
    ensures EscapedText(a + b) == EscapedText(a) + EscapedText(b)
  {
    if a == [] {
      assert a + b == b;
    } else {
      assert (a + b)[1..] == a[1..] + b;
      EscapesConcatenate(a[1..], b);
      Regroup(TagChar(a[0]), EscapedTag(a[1..]), EscapedTag(b));
      Regroup(TextChar(a[0]), EscapedText(a[1..]), EscapedText(b));
    }
  }

  /** What becomes of the values of one attribute: nulls are left out, everything else is a text. */
  lemma ValuesOnTheWire(key: string, s: string)
    ensures Written([(key, Text(s))]) == Written([(key, Number(s))]) == Written([(key, Nested(s))]) == [Field(key, s)]
    ensures Written([(key, Bool(true))]) == [Field(key, "true")]
        && Written([(key, Bool(false))]) == [Field(key, "false")]
    ensures Written([(key, Null)]) == []
  {
    OneWritten(key, Text(s));
    OneWritten(key, Number(s));
    OneWritten(key, Nested(s));
    OneWritten(key, Bool(true));
    OneWritten(key, Bool(false));
    OneWritten(key, Null);
  }

  lemma OneWritten(key: string, v: Value)
    ensures Written([(key, v)]) == if TextOf(v).None? then [] else [Field(key, TextOf(v).value)]
  {
    WrittenAppend([], (key, v));
    assert [] + [(key, v)] == [(key, v)];
  }

  // ---------- Reading ----------

  predicate EndsTag(c: char) {
    Special(c) || c == NEWLINE
  }

  /** A tag value or field key: up to the line's end or the next special character that no backslash precedes. */
  function ReadTag(s: string): (r: (string, string))
    ensures |r.1| <= |s| && NEWLINE !in r.0
    decreases |s|
  {
    if s == [] || EndsTag(s[0]) then ([], s)
    else if s[0] == BACKSLASH && |s| > 1 && Special(s[1]) then Longer(s[1], ReadTag(s[2..]))
    else Longer(s[0], ReadTag(s[1..]))
  }

  function Longer(c: char, r: (string, string)): (string, string) {
    ([c] + r.0, r.1)
  }

  /** The inside of a quoted string, line breaks and all, and what follows the closing quote. */
  function ReadText(s: string): (r: Option<(string, string)>)
    ensures r.Some? ==> |r.value.1| < |s|
    decreases |s|
  {
    if s == [] then None
    else if s[0] == QUOTE then Some(([], s[1..]))
    else if s[0] == BACKSLASH && |s| > 1 && (s[1] == QUOTE || s[1] == BACKSLASH) then LongerText(s[1], ReadText(s[2..]))
    else LongerText(s[0], ReadText(s[1..]))
  }

  function LongerText(c: char, r: Option<(string, string)>): Option<(string, string)> {
    if r.None? then None else Some(Longer(c, r.value))
  }

  function Expect(s: string, prefix: string): (r: Option<string>)
    ensures r.Some? ==> |r.value| == |s| - |prefix|
  {
    if prefix <= s then Some(s[|prefix|..]) else None
  }

  /** Nothing more, or the next line. */
  predicate AtEnd(s: string) {
    s == [] || s[0] == NEWLINE
  }

  /** Fields up to the end of the line, and what follows them. */
  function ReadFields(s: string): (r: Option<(seq<Field>, string)>)
    ensures r.Some? ==> |r.value.1| < |s|
    decreases |s|
  {
    var (key, r) := ReadTag(s);
    match Expect(r, FIELD)
    case None => None
    case Some(r) =>
      match ReadText(r)
      case None => None
      case Some((value, r)) =>
        if AtEnd(r) then Some(([Field(key, value)], r))
        else if r[0] != ',' then None
        else AddField(Field(key, value), ReadFields(r[1..]))
  }

  function AddField(f: Field, r: Option<(seq<Field>, string)>): Option<(seq<Field>, string)> {
    if r.None? then None else Some(([f] + r.value.0, r.value.1))
  }

  datatype Line =
    | PositionLine(layer: string, member: string, lat: string, lon: string)
    | AttrLine(obid: string, fields: seq<Field>)

  function ReadAttr(s: string): (r: Option<(Line, string)>)
    ensures r.Some? ==> |r.value.1| < |s|
  {
    match Expect(s, ATTR_HEAD)
    case None => None
    case Some(r) =>
      var (obid, r) := ReadTag(r);
      match Expect(r, [' '])
      case None => None
      case Some(r) =>
        match ReadFields(r)
        case None => None
        case Some((fields, r)) => Some((AttrLine(obid, fields), r))
  }

  /** A number reaches up to a comma or the line's end. */
  function ReadNumber(s: string): (r: (string, string))
    ensures |r.1| <= |s|
  {
    if AtEnd(s) || s[0] == ',' then ([], s) else Longer(s[0], ReadNumber(s[1..]))
  }

  function ReadPosition(s: string): (r: Option<(Line, string)>)
    ensures r.Some? ==> |r.value.1| < |s|
  {
    match Expect(s, POSITION_HEAD)
    case None => None
    case Some(r) =>
      var (layer, r) := ReadTag(r);
      match Expect(r, OBID)
      case None => None
      case Some(r) =>
        var (member, r) := ReadTag(r);
        ReadNumbers(layer, member, r)
  }

  function ReadNumbers(layer: string, member: string, s: string): (r: Option<(Line, string)>)
    ensures r.Some? ==> |r.value.1| < |s|
  {
    match Expect(s, LAT)
    case None => None
    case Some(r) =>
      var (lat, r) := ReadNumber(r);
      match Expect(r, LON)
      case None => None
      case Some(r) =>
        var (lon, r) := ReadNumber(r);
        if AtEnd(r) then Some((PositionLine(layer, member, lat, lon), r)) else None
  }

  function ReadLine(s: string): (r: Option<(Line, string)>)
    ensures r.Some? ==> |r.value.1| < |s|
  {
    if POSITION_HEAD <= s then ReadPosition(s) else ReadAttr(s)
  }

  /** The lines of a request's body. */
  function ReadBatch(s: string): Option<seq<Line>>
    decreases |s|
  {
    match ReadLine(s)
    case None => None
    case Some((line, r)) =>
      if r == [] then Some([line])
      else if r[0] != NEWLINE then None
      else AddLine(line, ReadBatch(r[1..]))
  }

  function AddLine(line: Line, r: Option<seq<Line>>): Option<seq<Line>> {
    if r.None? then None else Some([line] + r.value)
  }

  // ---------- Round trips ----------

  predicate EndsInBackslash(s: string) {
    s != [] && s[|s| - 1] == BACKSLASH
  }

  /** The names that the writer's escapes are enough for. */
  predicate GoodName(s: string) {
    !EndsInBackslash(s) && NEWLINE !in s
  }

  lemma ExpectPrefix(prefix: string, r: string)
    ensures Expect(prefix + r, prefix) == Some(r)
  {
  }

  lemma ReadEscaped(c: char, tail: string)
    requires Special(c)
    ensures ReadTag([BACKSLASH, c] + tail) == Longer(c, ReadTag(tail))
  {
    assert ([BACKSLASH, c] + tail)[2..] == tail;
  }

  lemma ReadPlain(c: char, tail: string)
    requires !EndsTag(c) && (c == BACKSLASH ==> tail == [] || !Special(tail[0]))
    ensures ReadTag([c] + tail) == Longer(c, ReadTag(tail))
  {
    assert ([c] + tail)[1..] == tail;
  }

  lemma EscapedStart(v: string)
    requires v != []
    ensures EscapedTag(v) != [] && !Special(EscapedTag(v)[0])
  {
  }

  /** A tag is read back, up to the separator that follows it, exactly when it neither ends in a backslash nor holds
      a line break. */
  lemma {:induction false} TagExact(v: string, rest: string)
    requires rest != [] && Special(rest[0])
    ensures GoodName(v) ==> ReadTag(EscapedTag(v) + rest) == (v, rest)
    ensures !GoodName(v) ==> ReadTag(EscapedTag(v) + rest).0 != v
  {
    if NEWLINE !in v {
      TagOnOneLine(v, rest);
    }
  }

  lemma {:induction false} TagOnOneLine(v: string, rest: string)
    requires rest != [] && Special(rest[0]) && NEWLINE !in v
    ensures !EndsInBackslash(v) ==> ReadTag(EscapedTag(v) + rest) == (v, rest)
    ensures EndsInBackslash(v) ==> ReadTag(EscapedTag(v) + rest).0 != v
  {
    if v == [] {
      assert EscapedTag(v) + rest == rest;
    } else if v == [BACKSLASH] {
      assert EscapedTag(v) + rest == [BACKSLASH, rest[0]] + rest[1..];
      ReadEscaped(rest[0], rest[1..]);
      assert Longer(rest[0], ReadTag(rest[1..])).0[0] == rest[0];
    } else {
      var tail := EscapedTag(v[1..]) + rest;
      Regroup(TagChar(v[0]), EscapedTag(v[1..]), rest);
      TagOnOneLine(v[1..], rest);
      if Special(v[0]) {
        ReadEscaped(v[0], tail);
      } else {
        if v[0] == BACKSLASH {
          EscapedStart(v[1..]);
        }
        ReadPlain(v[0], tail);
      }
      LongerDecides(v, ReadTag(tail));
    }
  }

  lemma LongerDecides(v: string, r: (string, string))
    requires v != []
    ensures Longer(v[0], r).0 == v <==> r.0 == v[1..]
  {
    assert ([v[0]] + r.0)[1..] == r.0;
    assert [v[0]] + v[1..] == v;
  }

  /** A quoted string is read back whatever it holds and whatever follows. */
  lemma {:induction false} TextRoundTrip(v: string, rest: string)
    ensures ReadText(EscapedText(v) + ([QUOTE] + rest)) == Some((v, rest))
  {
    if v == [] {
      assert EscapedText(v) + ([QUOTE] + rest) == [QUOTE] + rest;
      assert ([QUOTE] + rest)[1..] == rest;
    } else {
      var tail := EscapedText(v[1..]) + ([QUOTE] + rest);
      Regroup(TextChar(v[0]), EscapedText(v[1..]), [QUOTE] + rest);
      TextRoundTrip(v[1..], rest);
      assert [v[0]] + v[1..] == v;
      ReadTextChar(v[0], tail);
    }
  }

  lemma ReadTextChar(c: char, tail: string)
    ensures ReadText(TextChar(c) + tail) == LongerText(c, ReadText(tail))
  {
    assert (TextChar(c) + tail)[|TextChar(c)|..] == tail;
  }

  /** What follows the key of a field. */
  function AfterKey(f: Field, rest: string): string {
    FIELD + (EscapedText(f.value) + ([QUOTE] + rest))
  }

  lemma FieldParts(f: Field, rest: string)
    ensures FieldText(f) + rest == EscapedTag(f.key) + AfterKey(f, rest)
  {
    Regroup(EscapedText(f.value), [QUOTE], rest);
    Regroup(FIELD, EscapedText(f.value) + [QUOTE], rest);
    Regroup(EscapedTag(f.key), FIELD + (EscapedText(f.value) + [QUOTE]), rest);
  }

  /** The first field and what follows it. */
  lemma FieldRead(f: Field, rest: string)
    ensures !GoodName(f.key) ==> ReadTag(FieldText(f) + rest).0 != f.key
    ensures GoodName(f.key) ==> ReadTag(FieldText(f) + rest) == (f.key, AfterKey(f, rest))
    ensures Expect(AfterKey(f, rest), FIELD).Some?
    ensures ReadText(Expect(AfterKey(f, rest), FIELD).value) == Some((f.value, rest))
  {
    FieldParts(f, rest);
    TagExact(f.key, AfterKey(f, rest));
    ExpectPrefix(FIELD, EscapedText(f.value) + ([QUOTE] + rest));
    TextRoundTrip(f.value, rest);
  }

  predicate GoodKeys(fields: seq<Field>) {
    fields == [] || (GoodName(fields[0].key) && GoodKeys(fields[1..]))
  }

  /** Reading a field, then the rest. */
  lemma FirstField(f: Field, rest: string)
    ensures !GoodName(f.key) ==>
      var r := ReadFields(FieldText(f) + rest); r.None? || (r.value.0 != [] && r.value.0[0] != f)
    ensures GoodName(f.key) && AtEnd(rest) ==> ReadFields(FieldText(f) + rest) == Some(([f], rest))
    ensures GoodName(f.key) && rest != [] && rest[0] == ',' ==>
      ReadFields(FieldText(f) + rest) == AddField(f, ReadFields(rest[1..]))
  {
    FieldRead(f, rest);
  }

  /** Exactly what was written comes back, and nothing of what follows is touched; or else something different. */
  predicate ReadBack<T(==)>(r: Option<(T, string)>, written: T, rest: string, good: bool) {
    if good then r == Some((written, rest)) else r.None? || r.value.0 != written
  }

  lemma {:induction false} FieldsExact(fields: seq<Field>, rest: string)
    requires fields != [] && AtEnd(rest)
    ensures ReadBack(ReadFields(FieldsText(fields) + rest), fields, rest, GoodKeys(fields))
    decreases |fields|
  {
    if |fields| == 1 {
      FirstField(fields[0], rest);
      assert fields == [fields[0]];
      assert GoodKeys(fields) <==> GoodName(fields[0].key);
    } else {
      FieldsExact(fields[1..], rest);
      MoreFields(fields, FieldsText(fields[1..]) + rest, rest);
      Regroup([','], FieldsText(fields[1..]), rest);
      Regroup(FieldText(fields[0]), [','] + FieldsText(fields[1..]), rest);
    }
  }

  lemma MoreFields(fields: seq<Field>, text: string, rest: string)
    requires |fields| > 1 && ReadBack(ReadFields(text), fields[1..], rest, GoodKeys(fields[1..]))
    ensures ReadBack(ReadFields(FieldText(fields[0]) + ([','] + text)), fields, rest, GoodKeys(fields))
  {
    FirstField(fields[0], [','] + text);
    assert ([','] + text)[1..] == text;
    assert fields == [fields[0]] + fields[1..];
    if ReadFields(text).Some? {
      assert ([fields[0]] + ReadFields(text).value.0)[1..] == ReadFields(text).value.0;
    }
  }

  /** An attribute line gives back the object and every field, whatever lines follow, exactly when neither the object's
      name nor a field's name ends in a backslash or holds a line break; the values may be anything. */
  lemma AttrExact(obid: string, fields: seq<Field>, rest: string)
    requires fields != [] && AtEnd(rest)
    ensures ReadBack(ReadLine(AttrText(obid, fields) + rest), AttrLine(obid, fields), rest,
                     GoodName(obid) && GoodKeys(fields))
  {
    var body := FieldsText(fields) + rest;
    AttrBehind(obid, FieldsText(fields), rest);
    ExpectPrefix(ATTR_HEAD, EscapedTag(obid) + ([' '] + body));
    TagExact(obid, [' '] + body);
    ExpectPrefix([' '], body);
    FieldsExact(fields, rest);
    HeadsDiffer(EscapedTag(obid) + ([' '] + body));
  }

  lemma AttrBehind(obid: string, fields: string, rest: string)
    ensures ATTR_HEAD + (EscapedTag(obid) + ([' '] + fields)) + rest
         == ATTR_HEAD + (EscapedTag(obid) + ([' '] + (fields + rest)))
  {
    Regroup([' '], fields, rest);
    Regroup(EscapedTag(obid), [' '] + fields, rest);
    Regroup(ATTR_HEAD, EscapedTag(obid) + ([' '] + fields), rest);
  }

  lemma HeadsDiffer(s: string)
    ensures !(POSITION_HEAD <= ATTR_HEAD + s) && POSITION_HEAD <= POSITION_HEAD + s
  {
    assert POSITION_HEAD[8] == 'p' && (ATTR_HEAD + s)[8] == 'a';
  }

  /** A printed number. */
  predicate Printed(text: string) {
    ',' !in text && NEWLINE !in text
  }

  lemma {:induction false} NumberRead(text: string, rest: string)
    requires Printed(text) && (AtEnd(rest) || rest[0] == ',')
    ensures ReadNumber(text + rest) == (text, rest)
  {
    if text == [] {
      assert text + rest == rest;
    } else {
      assert (text + rest)[1..] == text[1..] + rest;
      NumberRead(text[1..], rest);
      assert [text[0]] + text[1..] == text;
    }
  }

  lemma NumbersRead(layer: string, member: string, lat: string, lon: string, rest: string)
    requires Printed(lat) && Printed(lon) && AtEnd(rest)
    ensures ReadNumbers(layer, member, LAT + (lat + (LON + (lon + rest))))
         == Some((PositionLine(layer, member, lat, lon), rest))
  {
    ExpectPrefix(LAT, lat + (LON + (lon + rest)));
    NumberRead(lat, LON + (lon + rest));
    ExpectPrefix(LON, lon + rest);
    NumberRead(lon, rest);
  }

  /** A position line gives back set, member and both numbers, whatever lines follow, exactly when neither name ends in
      a backslash or holds a line break. */
  lemma PositionExact(layer: string, member: string, lat: string, lon: string, rest: string)
    requires Printed(lat) && Printed(lon) && AtEnd(rest)
    ensures ReadBack(ReadLine(PositionText(layer, member, lat, lon) + rest), PositionLine(layer, member, lat, lon),
                     rest,
                     GoodName(layer) && GoodName(member))
  {
    var numbers := LAT + (lat + (LON + (lon + rest)));
    var behind := OBID + (EscapedTag(member) + numbers);
    PositionBehind(layer, member, lat, lon, rest);
    ExpectPrefix(POSITION_HEAD, EscapedTag(layer) + behind);
    TagExact(layer, behind);
    ExpectPrefix(OBID, EscapedTag(member) + numbers);
    TagExact(member, numbers);
    NumbersRead(layer, member, lat, lon, rest);
    HeadsDiffer(EscapedTag(layer) + behind);
  }

  lemma PositionBehind(layer: string, member: string, lat: string, lon: string, rest: string)
    ensures PositionText(layer, member, lat, lon) + rest
         == POSITION_HEAD + (EscapedTag(layer) + (OBID + (EscapedTag(member) + (LAT + (lat + (LON + (lon + rest)))))))
  {
    NumbersBehind(lat, lon, rest);
    Regroup(EscapedTag(member), NumbersText(lat, lon), rest);
    Regroup(OBID, EscapedTag(member) + NumbersText(lat, lon), rest);
    Regroup(EscapedTag(layer), OBID + (EscapedTag(member) + NumbersText(lat, lon)), rest);
    Regroup(POSITION_HEAD, EscapedTag(layer) + (OBID + (EscapedTag(member) + NumbersText(lat, lon))), rest);
  }

  lemma NumbersBehind(lat: string, lon: string, rest: string)
    ensures NumbersText(lat, lon) + rest == LAT + (lat + (LON + (lon + rest)))
  {
    Regroup(LON, lon, rest);
    Regroup(lat, LON + lon, rest);
    Regroup(LAT, lat + (LON + lon), rest);
  }

  // ---------- Batches ----------

  function LineText(l: Line): string {
    match l
    case PositionLine(layer, member, lat, lon) => PositionText(layer, member, lat, lon)
    case AttrLine(obid, fields) => AttrText(obid, fields)
  }

  /** The lines as the writer makes them: printed numbers, at least one field. */
  predicate Writable(l: Line) {
    match l
    case PositionLine(_, _, lat, lon) => Printed(lat) && Printed(lon)
    case AttrLine(_, fields) => fields != []
  }

  predicate GoodNames(l: Line) {
    match l
    case PositionLine(layer, member, _, _) => GoodName(layer) && GoodName(member)
    case AttrLine(obid, fields) => GoodName(obid) && GoodKeys(fields)
  }

  /** The body of a request: the lines with a line break between any two. */
  function Joined(lines: seq<Line>): string {
    if lines == [] then []
    else if |lines| == 1 then LineText(lines[0])
    else LineText(lines[0]) + ([NEWLINE] + Joined(lines[1..]))
  }

  lemma FirstOfThree(a: string, b: string, c: string, sep: string)
    ensures a + (sep + (b + sep + c)) == a + (sep + b) + sep + c
  {
  }

  /** One line break between two batches makes one of them. */
  lemma {:induction false} BatchOnTheWire(a: seq<Line>, b: seq<Line>)
    requires a != [] && b != []
    ensures Joined([a[0]]) == LineText(a[0])
    ensures Joined(a + b) == Joined(a) + "\n" + Joined(b)
  {
    assert (a + b)[1..] == a[1..] + b;
    if |a| > 1 {
      BatchOnTheWire(a[1..], b);
      FirstOfThree(LineText(a[0]), Joined(a[1..]), Joined(b), [NEWLINE]);
    } else {
      assert a[1..] + b == b;
      Regroup(LineText(a[0]), [NEWLINE], Joined(b));
    }
  }

  lemma LineExact(l: Line, rest: string)
    requires Writable(l) && AtEnd(rest)
    ensures ReadBack(ReadLine(LineText(l) + rest), l, rest, GoodNames(l))
  {
    match l
    case PositionLine(layer, member, lat, lon) => PositionExact(layer, member, lat, lon, rest);
    case AttrLine(obid, fields) => AttrExact(obid, fields, rest);
  }

  /** All lines of a batch come back, in order and nothing else, exactly when no set, object or field name in any of
      them ends in a backslash or holds a line break. */
  lemma BatchExact(lines: seq<Line>)
    requires lines != [] && forall i :: 0 <= i < |lines| ==> Writable(lines[i])
    ensures ReadBatch(Joined(lines)) == Some(lines) <==> forall i :: 0 <= i < |lines| ==> GoodNames(lines[i])
  {
    LinesRead(lines);
    EveryLine(lines);
  }

  predicate GoodLines(lines: seq<Line>) {
    lines == [] || (GoodNames(lines[0]) && GoodLines(lines[1..]))
  }

  lemma {:induction false} EveryLine(lines: seq<Line>)
    ensures GoodLines(lines) <==> forall i :: 0 <= i < |lines| ==> GoodNames(lines[i])
  {
    if lines != [] {
      EveryLine(lines[1..]);
      if GoodLines(lines) {
        forall i | 0 <= i < |lines| ensures GoodNames(lines[i]) {
          assert i > 0 ==> lines[i] == lines[1..][i - 1];
        }
      }
    }
  }

  lemma {:induction false} LinesRead(lines: seq<Line>)
    requires lines != [] && forall i :: 0 <= i < |lines| ==> Writable(lines[i])
    ensures ReadBatch(Joined(lines)) == Some(lines) <==> GoodLines(lines)
    decreases |lines|
  {
    if |lines| == 1 {
      OneLine(lines[0]);
      assert lines == [lines[0]];
    } else {
      LinesRead(lines[1..]);
      LineExact(lines[0], [NEWLINE] + Joined(lines[1..]));
      NextLines(lines, Joined(lines[1..]));
    }
  }

  lemma OneLine(l: Line)
    requires Writable(l)
    ensures ReadBatch(LineText(l)) == Some([l]) <==> GoodNames(l)
  {
    LineExact(l, []);
    assert LineText(l) + [] == LineText(l);
    FirstLine(LineText(l));
  }

  lemma FirstLine(s: string)
    ensures ReadBatch(s).Some? ==>
        ReadLine(s).Some? && ReadBatch(s).value != [] && ReadBatch(s).value[0] == ReadLine(s).value.0
  {
  }

  lemma NextLines(lines: seq<Line>, text: string)
    requires lines != []
    requires ReadBack(ReadLine(LineText(lines[0]) + ([NEWLINE] + text)), lines[0], [NEWLINE] + text,
                      GoodNames(lines[0]))
    ensures ReadBatch(LineText(lines[0]) + ([NEWLINE] + text)) == Some(lines)
       <==> GoodNames(lines[0]) && ReadBatch(text) == Some(lines[1..])
  {
    assert ([NEWLINE] + text)[1..] == text;
    assert lines == [lines[0]] + lines[1..];
    if ReadBatch(text).Some? {
      assert ([lines[0]] + ReadBatch(text).value)[1..] == ReadBatch(text).value;
    }
  }
}
