/** Topics, Redis channels and bus envelopes as they appear on the wire. */
module Topics {
  import opened Payloads
  import opened Text

  const MAX_U8: nat := 255
  const MAX_U32: nat := 0xFFFF_FFFF

  // ---------- Topics ----------

  function TopicText(t: Topic): string {
    match t
    case TileTopic(layer, tile) =>
      "geo/" + layer + ['/'] + Decimal(tile.z) + ['/'] + Decimal(tile.x) + ['/'] + Decimal(tile.y)
    case ObjectTopic(obid) => "objects/" + obid
  }

  lemma FirstLetter(t: Topic)
    ensures TopicText(t) != [] && TopicText(t)[0] == if t.TileTopic? then 'g' else 'o'
  {
  }

  /** Different topics never share a text, whatever the names contain. */
  lemma TopicTextInjective(a: Topic, b: Topic)
    requires TopicText(a) == TopicText(b)
    ensures a == b
  {
    FirstLetter(a);
    FirstLetter(b);
    match (a, b)
    case (TileTopic(l, t), TileTopic(l', t')) =>
      SameLastPart("geo/" + l + ['/'] + Decimal(t.z) + ['/'] + Decimal(t.x), Decimal(t.y),
                   "geo/" + l' + ['/'] + Decimal(t'.z) + ['/'] + Decimal(t'.x), Decimal(t'.y), '/');
      SameLastPart("geo/" + l + ['/'] + Decimal(t.z), Decimal(t.x), "geo/" + l' + ['/'] + Decimal(t'.z), Decimal(t'.x),
                   '/');
      SameLastPart("geo/" + l, Decimal(t.z), "geo/" + l', Decimal(t'.z), '/');
      DecimalInjective(t.z, t'.z);
      DecimalInjective(t.x, t'.x);
      DecimalInjective(t.y, t'.y);
      assert ("geo/" + l)[4..] == l && ("geo/" + l')[4..] == l';
    case (ObjectTopic(i), ObjectTopic(i')) =>
      assert ("objects/" + i)[8..] == i && ("objects/" + i')[8..] == i';
    case _ =>
  }

  /** What stands on the wire: `geo/<layer>/<z>/<x>/<y>` and `objects/<obid>`. */
  lemma TopicLevels(layer: string, t: Tile, obid: Id)
    ensures '/' !in layer ==>
      Split(TopicText(TileTopic(layer, t)), '/') == ["geo", layer, Decimal(t.z), Decimal(t.x), Decimal(t.y)]
    ensures '/' !in obid ==> Split(TopicText(ObjectTopic(obid)), '/') == ["objects", obid]
  {
    if '/' !in layer {
      SplitFive("geo", layer, Decimal(t.z), Decimal(t.x), Decimal(t.y), '/');
      assert "geo/" + layer == "geo" + ['/'] + layer;
    }
    if '/' !in obid {
      SplitTwo("objects", '/', obid);
      assert TopicText(ObjectTopic(obid)) == "objects" + ['/'] + obid;
    }
  }

  /** The tile that the levels of a filter name, if they name one. */
  function TileOfLevels(parts: seq<string>): Option<(string, Tile)> {
    if |parts| != 5 || parts[0] != "geo" then None
    else
      var z := ParseUnsigned(parts[2], MAX_U8);
      var x, y := ParseUnsigned(parts[3], MAX_U32), ParseUnsigned(parts[4], MAX_U32);
      if z.None? || x.None? || y.None? then None
      else Some((parts[1], Tile(z.value, x.value, y.value)))
  }

  function ParseTileFilter(filter: string): Option<(string, Tile)> {
    TileOfLevels(SplitN(filter, '/', 5))
  }

  lemma {:induction false} SplitNCut(a: string, sep: char, rest: string, n: nat)
    requires sep !in a && n >= 2
    ensures SplitN(a + [sep] + rest, sep, n) == [a] + SplitN(rest, sep, n - 1)
  {
    SplitOnceAt(a, sep, rest);
  }

  /** A layer, then three numbers: four parts, when the layer has no separator. */
  lemma SplitTileParts(layer: string, z: string, x: string, y: string, sep: char)
    requires sep !in layer && sep !in z && sep !in x
    ensures SplitN(layer + [sep] + z + [sep] + x + [sep] + y, sep, 4) == [layer, z, x, y]
  {
    var tail := x + [sep] + y;
    assert layer + [sep] + z + [sep] + x + [sep] + y == layer + [sep] + (z + [sep] + tail);
    SplitNCut(layer, sep, z + [sep] + tail, 4);
    SplitNCut(z, sep, tail, 3);
    SplitNCut(x, sep, y, 2);
  }

  lemma SplitNFirst(s: string, sep: char, n: nat)
    requires n >= 2
    ensures sep !in SplitN(s, sep, n)[0]
  {
  }

  /** The text of a tile topic after the first level. */
  function TileTail(layer: string, t: Tile): string {
    layer + ['/'] + Decimal(t.z) + ['/'] + Decimal(t.x) + ['/'] + Decimal(t.y)
  }

  lemma TileFilterParts(layer: string, t: Tile)
    ensures SplitN(TopicText(TileTopic(layer, t)), '/', 5) == ["geo"] + SplitN(TileTail(layer, t), '/', 4)
  {
    assert TopicText(TileTopic(layer, t)) == "geo" + ['/'] + TileTail(layer, t);
    SplitNCut("geo", '/', TileTail(layer, t), 5);
  }

  /** A subscription to a tile is recognised for what it is exactly when the set's name has no slash, the zoom fits into
      8 bits and the tile's numbers into 32; otherwise its snapshot is never sent. */
  lemma ParseTileFilterExact(layer: string, t: Tile)
    ensures ParseTileFilter(TopicText(TileTopic(layer, t))) == Some((layer, t))
       <==> '/' !in layer && t.z <= 255 && t.x <= 4294967295 && t.y <= 4294967295
  {
    if '/' !in layer {
      TileRecognised(layer, t);
    } else {
      TileFilterParts(layer, t);
      SplitNFirst(TileTail(layer, t), '/', 4);
      LayerIsSecondLevel(["geo"] + SplitN(TileTail(layer, t), '/', 4), layer, t);
    }
  }

  lemma TileRecognised(layer: string, t: Tile)
    requires '/' !in layer
    ensures ParseTileFilter(TopicText(TileTopic(layer, t)))
         == if t.z <= 255 && t.x <= 4294967295 && t.y <= 4294967295 then Some((layer, t)) else None
  {
    TileFilterParts(layer, t);
    SplitTileParts(layer, Decimal(t.z), Decimal(t.x), Decimal(t.y), '/');
    LevelsOfTile(["geo"] + [layer, Decimal(t.z), Decimal(t.x), Decimal(t.y)], layer, t);
  }

  lemma LevelsOfTile(parts: seq<string>, layer: string, t: Tile)
    requires parts == ["geo", layer, Decimal(t.z), Decimal(t.x), Decimal(t.y)]
    ensures TileOfLevels(parts)
         == if t.z <= 255 && t.x <= 4294967295 && t.y <= 4294967295 then Some((layer, t)) else None
  {
    ParseDecimal(t.z, MAX_U8);
    ParseDecimal(t.x, MAX_U32);
    ParseDecimal(t.y, MAX_U32);
  }

  lemma LayerIsSecondLevel(parts: seq<string>, layer: string, t: Tile)
    requires |parts| >= 2 && '/' !in parts[1] && '/' in layer
    ensures TileOfLevels(parts) != Some((layer, t))
  {
  }

  /** Of all filters, exactly those with five levels are taken for tiles that start with `geo` and end in three numbers
      that fit. */
  lemma TileFiltersExact(filter: string)
    ensures var levels := Split(filter, '/');
            ParseTileFilter(filter)
            == if |levels| == 5 && levels[0] == "geo" && ParseUnsigned(levels[2], 255).Some?
                  && ParseUnsigned(levels[3], 4294967295).Some? && ParseUnsigned(levels[4], 4294967295).Some?
               then Some((levels[1],
                          Tile(ParseUnsigned(levels[2], 255).value, ParseUnsigned(levels[3], 4294967295).value,
                               ParseUnsigned(levels[4], 4294967295).value)))
               else None
  {
    var parts := SplitN(filter, '/', 5);
    SplitNCounts(filter, '/', 5);
    if |Split(filter, '/')| > 5 {
      var i :| 0 <= i < |parts[4]| && parts[4][i] == '/';
      ParseUnsignedRefuses(parts[4], i, MAX_U32);
    }
  }

  // ---------- Subscription filters (section 4.7 of MQTT 3.1.1) ----------

  function LevelsMatch(topic: seq<string>, filter: seq<string>): bool {
    if filter == [] then topic == []
    else if filter[0] == "#" then true
    else topic != [] && (filter[0] == "+" || filter[0] == topic[0]) && LevelsMatch(topic[1..], filter[1..])
  }

  predicate Wildcard(level: string) {
    level == "+" || level == "#"
  }

  predicate Matches(topic: string, filter: string) {
    var levels := Split(filter, '/');
    !(topic != [] && topic[0] == '$' && Wildcard(levels[0])) && LevelsMatch(Split(topic, '/'), levels)
  }

  /** A filter level stands for a topic level. */
  predicate Fits(level: string, part: string) {
    level == "+" || level == part
  }

  /** Level by level: `+` stands for any one level. */
  lemma {:induction false} PlusExact(topic: seq<string>, filter: seq<string>)
    requires "#" !in filter
    ensures LevelsMatch(topic, filter)
       <==> |topic| == |filter| && forall i :: 0 <= i < |filter| ==> Fits(filter[i], topic[i])
  {
    if filter != [] && topic != [] {
      assert filter[0] != "#";
      PlusExact(topic[1..], filter[1..]);
      if |topic| == |filter| {
        FitsTail(topic, filter, |filter| - 1);
      }
    }
  }

  lemma FitsTail(topic: seq<string>, filter: seq<string>, n: nat)
    requires topic != [] && filter != [] && n + 1 <= |filter| && n + 1 <= |topic|
    ensures (forall i :: 0 <= i < n + 1 ==> Fits(filter[i], topic[i]))
       <==> Fits(filter[0], topic[0]) && forall i :: 0 <= i < n ==> Fits(filter[1..][i], topic[1..][i])
  {
    if forall i :: 0 <= i < n ==> Fits(filter[1..][i], topic[1..][i]) {
      forall i | 0 < i < n + 1 ensures Fits(filter[i], topic[i]) {
        assert Fits(filter[1..][i - 1], topic[1..][i - 1]);
      }
    }
  }

  /** `#` stands for all that follows, and for nothing. */
  lemma {:induction false} HashExact(topic: seq<string>, filter: seq<string>, k: nat)
    requires k < |filter| && filter[k] == "#" && "#" !in filter[..k]
    ensures LevelsMatch(topic, filter) <==> k <= |topic| && forall i :: 0 <= i < k ==> Fits(filter[i], topic[i])
    decreases k
  {
    if k > 0 {
      assert filter[0] == filter[..k][0] && filter[0] != "#";
      if topic != [] {
        assert filter[1..][..k - 1] == filter[..k][1..];
        HashExact(topic[1..], filter[1..], k - 1);
        if k <= |topic| {
          FitsTail(topic, filter, k - 1);
        }
      }
    }
  }

  /** Section 4.7 by positions, for every filter and every topic. Filters that start with a wildcard do not match topics
      that start with `$`. */
  lemma MatchesExact(topic: string, filter: string)
    ensures var parts, levels := Split(topic, '/'), Split(filter, '/');
            var hidden := topic != [] && topic[0] == '$' && (levels[0] == "+" || levels[0] == "#");
            && ("#" !in levels ==>
                  (Matches(topic, filter) <==>
                     !hidden && |parts| == |levels| && forall i :: 0 <= i < |levels| ==> Fits(levels[i], parts[i])))
            && forall k :: 0 <= k < |levels| && levels[k] == "#" && "#" !in levels[..k] ==>
                 (Matches(topic, filter) <==>
                    !hidden && k <= |parts| && forall i :: 0 <= i < k ==> Fits(levels[i], parts[i]))
  {
    var parts, levels := Split(topic, '/'), Split(filter, '/');
    if "#" !in levels {
      PlusExact(parts, levels);
    }
    forall k | 0 <= k < |levels| && levels[k] == "#" && "#" !in levels[..k]
      ensures LevelsMatch(parts, levels) <==> k <= |parts| && forall i :: 0 <= i < k ==> Fits(levels[i], parts[i])
    {
      HashExact(parts, levels, k);
    }
  }

  predicate NoWildcards(filter: string) {
    forall l :: l in Split(filter, '/') ==> !Wildcard(l)
  }

  lemma {:induction false} PlainLevelsMatch(topic: seq<string>, filter: seq<string>)
    requires forall l :: l in filter ==> !Wildcard(l)
    ensures LevelsMatch(topic, filter) <==> topic == filter
  {
    assert filter != [] ==> !Wildcard(filter[0]);
    if filter != [] && topic != [] {
      PlainLevelsMatch(topic[1..], filter[1..]);
      assert topic == [topic[0]] + topic[1..] && filter == [filter[0]] + filter[1..];
    }
  }

  /** A filter without wildcards matches just the topic of that name. */
  lemma PlainFilterMatches(topic: string, filter: string)
    requires NoWildcards(filter)
    ensures Matches(topic, filter) <==> topic == filter
  {
    PlainLevelsMatch(Split(topic, '/'), Split(filter, '/'));
    JoinSplit(topic, '/');
    JoinSplit(filter, '/');
  }

  /** The names in a topic have no level that is a wildcard. */
  predicate PlainTopic(t: Topic) {
    NoWildcards(TopicText(t))
  }

  /** The broker's filter matching, on the topics clients subscribe to, is equality of topics. */
  lemma SubscriptionIsMembership(published: Topic, subscribed: Topic)
    requires PlainTopic(subscribed)
    ensures Matches(TopicText(published), TopicText(subscribed)) <==> published == subscribed
  {
    PlainFilterMatches(TopicText(published), TopicText(subscribed));
    if TopicText(published) == TopicText(subscribed) {
      TopicTextInjective(published, subscribed);
    }
  }

  /** The filter for all tiles of a set at one zoom. */
  function ZoomFilter(layer: string, z: nat): string {
    "geo" + ['/'] + layer + ['/'] + Decimal(z) + ['/'] + "+" + ['/'] + "+"
  }

  lemma ZoomLevels(topic: string, layer: string, z: nat)
    requires '/' !in layer && !Wildcard(layer)
    ensures var parts := Split(topic, '/');
            Matches(topic, ZoomFilter(layer, z))
            <==> |parts| == 5 && parts[0] == "geo" && parts[1] == layer && parts[2] == Decimal(z)
  {
    DecimalNoWildcard(z);
    SplitFive("geo", layer, Decimal(z), "+", "+", '/');
    PlusExact(Split(topic, '/'), ["geo", layer, Decimal(z), "+", "+"]);
    FiveLevels(layer, Decimal(z), Split(topic, '/'));
  }

  /** It matches exactly those, whatever is published. */
  lemma ZoomFilterExact(published: Topic, layer: string, z: nat)
    requires '/' !in layer && !Wildcard(layer)
    ensures Matches(TopicText(published), ZoomFilter(layer, z))
       <==> published.TileTopic? && published.layer == layer && published.tile.z == z
  {
    var parts := Split(TopicText(published), '/');
    ZoomLevels(TopicText(published), layer, z);
    if published.TileTopic? && published.layer == layer && published.tile.z == z {
      TopicLevels(layer, published.tile, "");
    }
    if |parts| == 5 && parts[0] == "geo" && parts[1] == layer && parts[2] == Decimal(z) {
      LevelsOfZoom(published, parts[3], parts[4], parts, z);
    }
  }

  lemma FiveLevels(layer: string, z: string, parts: seq<string>)
    requires !Wildcard(layer) && !Wildcard(z)
    ensures var levels := ["geo", layer, z, "+", "+"];
            |parts| == |levels| && (forall i :: 0 <= i < |levels| ==> Fits(levels[i], parts[i]))
            <==> |parts| == 5 && parts[0] == "geo" && parts[1] == layer && parts[2] == z
  {
  }

  lemma DecimalNoWildcard(z: nat)
    ensures !Wildcard(Decimal(z)) && '/' !in Decimal(z)
  {
    assert Decimal(z)[0] in Decimal(z);
  }

  lemma LevelsOfZoom(published: Topic, x: string, y: string, parts: seq<string>, z: nat)
    requires parts == Split(TopicText(published), '/') && |parts| == 5
    requires parts == ["geo", parts[1], Decimal(z), x, y]
    ensures published.TileTopic? && published.layer == parts[1] && published.tile.z == z
  {
    var layer := parts[1];
    JoinSplit(TopicText(published), '/');
    JoinFive("geo", layer, Decimal(z), x, y, '/');
    FirstLetter(published);
    assert "geo" + ['/'] + layer == "geo/" + layer;
    assert x == parts[3] && y == parts[4];
    SameTile(published.layer, published.tile, layer, Decimal(z), x, y);
    DecimalInjective(published.tile.z, z);
  }

  lemma SameTile(layer: string, t: Tile, layer': string, z: string, x: string, y: string)
    requires '/' !in z && '/' !in x && '/' !in y
    requires TopicText(TileTopic(layer, t)) == "geo/" + layer' + ['/'] + z + ['/'] + x + ['/'] + y
    ensures layer == layer' && Decimal(t.z) == z && Decimal(t.x) == x && Decimal(t.y) == y
  {
    SameLastPart("geo/" + layer + ['/'] + Decimal(t.z) + ['/'] + Decimal(t.x), Decimal(t.y),
                 "geo/" + layer' + ['/'] + z + ['/'] + x, y, '/');
    SameLastPart("geo/" + layer + ['/'] + Decimal(t.z), Decimal(t.x), "geo/" + layer' + ['/'] + z, x, '/');
    SameLastPart("geo/" + layer, Decimal(t.z), "geo/" + layer', z, '/');
    assert ("geo/" + layer)[4..] == layer && ("geo/" + layer')[4..] == layer';
  }

  // ---------- Redis channels ----------

  function ChannelText(t: Topic): string {
    match t
    case TileTopic(layer, tile) =>
      "gmq:tile:" + (layer + [':'] + Decimal(tile.z) + [':'] + Decimal(tile.x) + [':'] + Decimal(tile.y))
    case ObjectTopic(obid) => "gmq:obj:" + obid
  }

  function StripPrefix(s: string, prefix: string): Option<string> {
    if prefix <= s then Some(s[|prefix|..]) else None
  }

  function TopicOfParts(parts: seq<string>): Option<string> {
    if |parts| != 4 then None
    else Some("geo/" + parts[0] + ['/'] + parts[1] + ['/'] + parts[2] + ['/'] + parts[3])
  }

  /** The bridge's way back from a channel to the topic text. */
  function ChannelToTopic(channel: string): Option<string> {
    match StripPrefix(channel, "gmq:tile:")
    case Some(rest) => TopicOfParts(SplitN(rest, ':', 4))
    case None =>
      match StripPrefix(channel, "gmq:obj:")
      case Some(rest) => Some("objects/" + rest)
      case None => None
  }

  /** Of all channels, exactly these have a topic: an object's, and a tile's with at least three colons behind its
      prefix. */
  lemma ChannelsExact(channel: string)
    ensures ChannelToTopic(channel).Some? <==>
      if "gmq:tile:" <= channel then |Split(channel[9..], ':')| >= 4 else "gmq:obj:" <= channel
  {
    if "gmq:tile:" <= channel {
      SplitNCounts(channel[9..], ':', 4);
    }
  }

  /** Messages about an object always arrive under their topic. */
  lemma ObjectChannelRoundTrip(obid: Id)
    ensures ChannelToTopic(ChannelText(ObjectTopic(obid))) == Some(TopicText(ObjectTopic(obid)))
  {
    var c := ChannelText(ObjectTopic(obid));
    assert c[4] == 'o' && "gmq:tile:"[4] == 't';
  }

  /** The text of a tile channel after its prefix. */
  function ChannelTail(layer: string, t: Tile): string {
    layer + [':'] + Numbers(t, ':')
  }

  /** The three numbers of a tile. */
  function Numbers(t: Tile, sep: char): string {
    Decimal(t.z) + [sep] + Decimal(t.x) + [sep] + Decimal(t.y)
  }

  lemma NumbersLast(layer: string, t: Tile, sep: char)
    ensures layer + [sep] + Numbers(t, sep)
         == layer + [sep] + Decimal(t.z) + [sep] + Decimal(t.x) + [sep] + Decimal(t.y)
  {
  }

  lemma Reassociate(a: string, m: string, b: string, n: string, c: string)
    ensures (a + m + b) + n + c == a + m + (b + n + c)
  {
  }

  lemma ChannelParts(layer: string, t: Tile)
    ensures ChannelToTopic(ChannelText(TileTopic(layer, t))) == TopicOfParts(SplitN(ChannelTail(layer, t), ':', 4))
  {
    NumbersLast(layer, t, ':');
    assert ChannelText(TileTopic(layer, t))[|"gmq:tile:"|..] == ChannelTail(layer, t);
  }

  /** A set name with a colon is cut at its first one, and the topic shows a slash there. */
  lemma ColonBreaksTopic(layer: string, t: Tile)
    requires ':' in layer
    ensures TopicOfParts(SplitN(ChannelTail(layer, t), ':', 4)) != Some(TopicText(TileTopic(layer, t)))
  {
    var (a, b) := SplitOnce(layer, ':').value;
    CutAtColon(a, b, t);
    ColonInTopic(a, b, t);
    FirstPartEnds([a] + SplitN(ChannelTail(b, t), ':', 3));
  }

  lemma CutAtColon(a: string, b: string, t: Tile)
    requires ':' !in a
    ensures SplitN(ChannelTail(a + [':'] + b, t), ':', 4) == [a] + SplitN(ChannelTail(b, t), ':', 3)
  {
    Reassociate(a, [':'], b, [':'], Numbers(t, ':'));
    SplitNCut(a, ':', ChannelTail(b, t), 4);
  }

  lemma ColonInTopic(a: string, b: string, t: Tile)
    ensures |TopicText(TileTopic(a + [':'] + b, t))| > 4 + |a| && TopicText(TileTopic(a + [':'] + b, t))[4 + |a|] == ':'
  {
  }

  lemma FirstPartEnds(parts: seq<string>)
    requires parts != []
    ensures TopicOfParts(parts).Some? ==>
      |TopicOfParts(parts).value| > 4 + |parts[0]| && TopicOfParts(parts).value[4 + |parts[0]|] == '/'
  {
  }

  /** Messages about a tile do so exactly when the set's name has no colon. */
  lemma TileChannelExact(layer: string, t: Tile)
    ensures ChannelToTopic(ChannelText(TileTopic(layer, t))) == Some(TopicText(TileTopic(layer, t))) <==> ':' !in layer
  {
    ChannelParts(layer, t);
    if ':' !in layer {
      NumbersLast(layer, t, ':');
      SplitTileParts(layer, Decimal(t.z), Decimal(t.x), Decimal(t.y), ':');
    } else {
      ColonBreaksTopic(layer, t);
    }
  }

  /** The bridges' two subscriptions, `gmq:tile:*` and `gmq:obj:*`, take in every channel. */
  lemma ChannelsAreHeard(t: Topic)
    ensures (if t.TileTopic? then "gmq:tile:" else "gmq:obj:") <= ChannelText(t)
  {
  }

  // ---------- Envelopes ----------

  const PIPE: Byte := 0x7C

  function BuildEnvelope(nodeId: seq<Byte>, body: seq<Byte>): seq<Byte> {
    nodeId + [PIPE] + body
  }

  function Position(s: seq<Byte>, b: Byte): (r: Option<nat>)
    ensures r.None? <==> b !in s
    ensures r.Some? ==> r.value < |s| && s[r.value] == b && b !in s[..r.value]
  {
    if s == [] then None
    else if s[0] == b then Some(0)
    else match Position(s[1..], b)
      case None => None
      case Some(i) => assert s[..i + 1] == [s[0]] + s[1..][..i]; Some(i + 1)
  }

  lemma {:induction false} PositionAfter(a: seq<Byte>, b: Byte, rest: seq<Byte>)
    requires b !in a
    ensures Position(a + [b] + rest, b) == Some(|a|)
  {
    if a != [] {
      assert (a + [b] + rest)[1..] == a[1..] + [b] + rest;
      PositionAfter(a[1..], b, rest);
    }
  }

  /** Everything before the first bar is the sender, if it is valid UTF-8; the rest is the body. */
  function SplitEnvelope(validUtf8: seq<Byte> -> bool, buf: seq<Byte>): Option<(seq<Byte>, seq<Byte>)> {
    match Position(buf, PIPE)
    case None => None
    case Some(i) => if validUtf8(buf[..i]) then Some((buf[..i], buf[i + 1..])) else None
  }

  /** Sender and body come back, whatever the body holds, exactly when the sender has no bar. */
  lemma EnvelopeExact(validUtf8: seq<Byte> -> bool, nodeId: seq<Byte>, body: seq<Byte>)
    requires validUtf8(nodeId)
    ensures SplitEnvelope(validUtf8, nodeId + [124] + body) == Some((nodeId, body)) <==> 124 !in nodeId
    ensures BuildEnvelope(nodeId, body) == nodeId + [124] + body
  {
    var buf := BuildEnvelope(nodeId, body);
    if PIPE !in nodeId {
      PositionAfter(nodeId, PIPE, body);
      assert buf[..|nodeId|] == nodeId && buf[|nodeId| + 1..] == body;
    } else {
      assert buf[|nodeId|] == PIPE;
      assert PIPE !in buf[..Position(buf, PIPE).value];
    }
  }
}
