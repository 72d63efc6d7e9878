/** Zoom levels: the configured list, the shift for smaller tiles, and the zoom a client picks. */
module Zooms {
  import opened Payloads
  import opened Text
  import opened Tiles

  datatype Result<+T, +E> = Ok(value: T) | Err(error: E)

  // ---------- Sorting ----------

  predicate Ordered(s: seq<nat>) {
    forall i, j :: 0 <= i < j < |s| ==> s[i] <= s[j]
  }

  function Insert(z: nat, s: seq<nat>): (r: seq<nat>)
    requires Ordered(s)
    ensures Ordered(r) && |r| == |s| + 1
    ensures forall x :: x in r <==> x == z || x in s
  {
    if s == [] || z <= s[0] then [z] + s
    else
      var rest := Insert(z, s[1..]);
      assert forall i :: 0 <= i < |rest| ==> rest[i] in rest;
      [s[0]] + rest
  }

  function Sort(s: seq<nat>): (r: seq<nat>)
    ensures Ordered(r) && |r| == |s|
    ensures forall x :: x in r <==> x in s
  {
    if s == [] then [] else Insert(s[0], Sort(s[1..]))
  }

  /** Drops repetitions that stand next to each other. */
  method Dedup(s: seq<nat>) returns (r: seq<nat>)
    requires Ordered(s)
    ensures Ascending(r)
    ensures forall x :: x in r <==> x in s
  {
    r := [];
    for i := 0 to |s|
      invariant Ascending(r)
      invariant r == [] <==> i == 0
      invariant i > 0 ==> r[|r| - 1] == s[i - 1]
      invariant forall x :: x in r <==> x in s[..i]
    {
      assert s[..i + 1] == s[..i] + [s[i]];
      if r == [] || r[|r| - 1] != s[i] {
        assert forall k :: 0 <= k < |r| ==> r[k] <= r[|r| - 1];
        r := r + [s[i]];
      }
    }
    assert s[..|s|] == s;
  }

  // ---------- The configured list ----------

  /** Unicode white space */
  predicate IsSpace(c: char) {
    var n := c as int;
    || 0x9 <= n <= 0xD || n == 0x20 || n == 0x85 || n == 0xA0 || n == 0x1680
    || 0x2000 <= n <= 0x200A || n == 0x2028 || n == 0x2029 || n == 0x202F || n == 0x205F || n == 0x3000
  }

  function TrimStart(s: string): string {
    if s != [] && IsSpace(s[0]) then TrimStart(s[1..]) else s
  }

  function TrimEnd(s: string): string {
    if s != [] && IsSpace(s[|s| - 1]) then TrimEnd(s[..|s| - 1]) else s
  }

  function Trim(s: string): string {
    TrimEnd(TrimStart(s))
  }

  /** The trimmed parts that are not empty. */
  function Tokens(parts: seq<string>): seq<string> {
    if parts == [] then []
    else (if Trim(parts[0]) == [] then [] else [Trim(parts[0])]) + Tokens(parts[1..])
  }

  datatype ZoomError = BadRange(token: string) | ReversedRange(token: string) | BadZoom(token: string)

  const MAX_ZOOM: nat := 255

  /** The first and last zoom a token stands for. */
  function ParseToken(token: string): (r: Result<(nat, nat), ZoomError>)
    ensures r.Ok? ==> r.value.0 <= r.value.1 <= MAX_ZOOM
  {
    match SplitOnce(token, '-')
    case Some((a, b)) =>
      var lo, hi := ParseUnsigned(Trim(a), MAX_ZOOM), ParseUnsigned(Trim(b), MAX_ZOOM);
      if lo.None? || hi.None? then Err(BadRange(token))
      else if hi.value < lo.value then Err(ReversedRange(token))
      else Ok((lo.value, hi.value))
    case None =>
      var z := ParseUnsigned(token, MAX_ZOOM);
      if z.None? then Err(BadZoom(token)) else Ok((z.value, z.value))
  }

  predicate Denotes(token: string, z: nat) {
    ParseToken(token).Ok? && ParseToken(token).value.0 <= z <= ParseToken(token).value.1
  }

  ghost predicate Listed(tokens: seq<string>, z: nat) {
    exists i :: 0 <= i < |tokens| && Denotes(tokens[i], z)
  }

  predicate AllGood(tokens: seq<string>) {
    forall i :: 0 <= i < |tokens| ==> ParseToken(tokens[i]).Ok?
  }

  ghost predicate FirstError(tokens: seq<string>, error: ZoomError) {
    exists i :: 0 <= i < |tokens| && AllGood(tokens[..i]) && ParseToken(tokens[i]) == Err(error)
  }

  /** Every zoom of every token, as often as it is listed; the first bad token stops the parse. */
  method Expand(tokens: seq<string>) returns (r: Result<seq<nat>, ZoomError>)
    ensures r.Ok? ==> AllGood(tokens) && forall z :: z in r.value <==> Listed(tokens, z)
    ensures r.Err? ==> FirstError(tokens, r.error)
  {
    var out: seq<nat> := [];
    for i := 0 to |tokens|
      invariant AllGood(tokens[..i])
      invariant forall z :: z in out <==> Listed(tokens[..i], z)
    {
      var parsed := ParseToken(tokens[i]);
      if parsed.Err? {
        return Err(parsed.error);
      }
      ghost var before := out;
      for z := parsed.value.0 to parsed.value.1 + 1
        invariant forall x :: x in out <==> x in before || parsed.value.0 <= x < z
      {
        out := out + [z];
      }
      ListedSnoc(tokens, i, before, out);
    }
    assert tokens[..|tokens|] == tokens;
    r := Ok(out);
  }

  /** The zoom list of the configuration: each listed zoom once, in ascending order. */
  method ParseZoomList(s: string) returns (r: Result<seq<nat>, ZoomError>)
    ensures r.Ok? <==> AllGood(Tokens(Split(s, ',')))
    ensures r.Ok? ==> Ascending(r.value) && forall z :: z in r.value <==> Listed(Tokens(Split(s, ',')), z)
    ensures r.Err? ==> FirstError(Tokens(Split(s, ',')), r.error)
  {
    r := Expand(Tokens(Split(s, ',')));
    if r.Ok? {
      var out := Dedup(Sort(r.value));
      r := Ok(out);
    }
  }

  lemma ListedSnoc(tokens: seq<string>, i: nat, before: seq<nat>, out: seq<nat>)
    requires i < |tokens| && AllGood(tokens[..i]) && ParseToken(tokens[i]).Ok?
    requires forall z :: z in before <==> Listed(tokens[..i], z)
    requires forall z :: z in out <==> z in before || Denotes(tokens[i], z)
    ensures AllGood(tokens[..i + 1])
    ensures forall z :: z in out <==> Listed(tokens[..i + 1], z)
  {
    forall z: nat ensures z in out <==> Listed(tokens[..i + 1], z) {
      if Denotes(tokens[i], z) {
        assert Denotes(tokens[..i + 1][i], z);
      }
      if Listed(tokens[..i], z) {
        var j :| 0 <= j < i && Denotes(tokens[..i][j], z);
        assert Denotes(tokens[..i + 1][j], z);
      }
    }
  }

  // ---------- What is written is what is read ----------

  lemma DecimalPlain(n: nat)
    ensures var s := Decimal(n); ',' !in s && '-' !in s && !IsSpace(s[0]) && !IsSpace(s[|s| - 1]) && Trim(s) == s
  {
    var s := Decimal(n);
    assert s[0] in s && s[|s| - 1] in s;
  }

  predicate Blank(s: string) {
    forall i :: 0 <= i < |s| ==> IsSpace(s[i])
  }

  lemma {:induction false} TrimStartPadded(pad: string, s: string)
    requires Blank(pad) && (s != [] ==> !IsSpace(s[0]))
    ensures TrimStart(pad + s) == s
  {
    if pad == [] {
      assert pad + s == s;
    } else {
      assert (pad + s)[0] == pad[0] && (pad + s)[1..] == pad[1..] + s;
      TrimStartPadded(pad[1..], s);
    }
  }

  lemma {:induction false} TrimEndPadded(s: string, pad: string)
    requires Blank(pad) && (s != [] ==> !IsSpace(s[|s| - 1]))
    ensures TrimEnd(s + pad) == s
    decreases |pad|
  {
    if pad == [] {
      assert s + pad == s;
    } else {
      var n := |pad| - 1;
      assert (s + pad)[|s + pad| - 1] == pad[n] && (s + pad)[..|s + pad| - 1] == s + pad[..n];
      TrimEndPadded(s, pad[..n]);
    }
  }

  /** Of the first 128 characters, the blank, and those from the tab to the carriage return. */
  lemma AsciiSpaces(c: char)
    requires c as int < 128
    ensures IsSpace(c) <==> c == ' ' || 9 <= c as int <= 13
  {
  }

  /** White space around a text goes away, and nothing else does. */
  lemma TrimPadded(before: string, s: string, after: string)
    requires Blank(before) && Blank(after) && (s == [] || (!IsSpace(s[0]) && !IsSpace(s[|s| - 1])))
    ensures Trim(before + s + after) == s
  {
    if s == [] {
      assert before + s + after == (before + after) + [];
      TrimStartPadded(before + after, []);
    } else {
      assert before + s + after == before + (s + after);
      TrimStartPadded(before, s + after);
      TrimEndPadded(s, after);
    }
  }

  /** A part of a configured list: nothing, a zoom or a range, with white space around it and around the dash. */
  datatype Part = Part(before: string, range: Option<(nat, nat)>, left: string, right: string, after: string)

  predicate GoodPart(p: Part) {
    && Blank(p.before) && Blank(p.left) && Blank(p.right) && Blank(p.after)
    && (p.range.Some? ==> p.range.value.0 <= p.range.value.1 <= 255)
  }

  function Core(p: Part): string {
    if p.range.None? then []
    else
      var (lo, hi) := p.range.value;
      if lo == hi then Decimal(lo) else Decimal(lo) + p.left + ['-'] + (p.right + Decimal(hi))
  }

  function PartText(p: Part): string {
    p.before + Core(p) + p.after
  }

  function PartTexts(parts: seq<Part>): (texts: seq<string>)
    ensures |texts| == |parts| && forall i :: 0 <= i < |parts| ==> texts[i] == PartText(parts[i])
  {
    seq(|parts|, i requires 0 <= i < |parts| => PartText(parts[i]))
  }

  lemma BlankHasNone(pad: string)
    requires Blank(pad)
    ensures ',' !in pad && '-' !in pad
  {
  }

  lemma RangeParses(a: string, b: string, lo: nat, hi: nat)
    requires '-' !in a && Trim(a) == Decimal(lo) && Trim(b) == Decimal(hi) && lo <= hi <= MAX_ZOOM
    ensures ParseToken(a + ['-'] + b) == Ok((lo, hi))
  {
    SplitOnceAt(a, '-', b);
    ParseDecimal(lo, MAX_ZOOM);
    ParseDecimal(hi, MAX_ZOOM);
  }

  lemma RangeShape(lo: nat, left: string, right: string, hi: nat)
    requires Blank(left) && Blank(right)
    ensures var core := Decimal(lo) + left + ['-'] + (right + Decimal(hi));
            ',' !in core && !IsSpace(core[0]) && !IsSpace(core[|core| - 1])
    ensures '-' !in Decimal(lo) + left
  {
    DecimalPlain(lo);
    DecimalPlain(hi);
    BlankHasNone(left);
    BlankHasNone(right);
  }

  lemma CoreParses(p: Part)
    requires GoodPart(p) && p.range.Some?
    ensures var core := Core(p);
            core != [] && ',' !in core && !IsSpace(core[0]) && !IsSpace(core[|core| - 1])
            && ParseToken(core) == Ok(p.range.value)
  {
    var (lo, hi) := p.range.value;
    DecimalPlain(lo);
    DecimalPlain(hi);
    if lo == hi {
      ParseDecimal(lo, MAX_ZOOM);
    } else {
      RangeShape(lo, p.left, p.right, hi);
      TrimPadded([], Decimal(lo), p.left);
      TrimPadded(p.right, Decimal(hi), []);
      assert [] + Decimal(lo) + p.left == Decimal(lo) + p.left;
      assert p.right + Decimal(hi) + [] == p.right + Decimal(hi);
      RangeParses(Decimal(lo) + p.left, p.right + Decimal(hi), lo, hi);
    }
  }

  lemma PartTrimmed(p: Part)
    requires GoodPart(p)
    ensures Trim(PartText(p)) == Core(p) && ',' !in PartText(p)
    ensures p.range.Some? ==> Core(p) != [] && ParseToken(Core(p)) == Ok(p.range.value)
  {
    if p.range.Some? {
      CoreParses(p);
    }
    BlankHasNone(p.before);
    BlankHasNone(p.after);
    TrimPadded(p.before, Core(p), p.after);
  }

  predicate InPart(p: Part, z: nat) {
    p.range.Some? && p.range.value.0 <= z <= p.range.value.1
  }

  lemma {:induction false} TokensOfParts(parts: seq<Part>, z: nat)
    requires forall i :: 0 <= i < |parts| ==> GoodPart(parts[i])
    ensures AllGood(Tokens(PartTexts(parts)))
    ensures Listed(Tokens(PartTexts(parts)), z) <==> exists i :: 0 <= i < |parts| && InPart(parts[i], z)
  {
    if parts != [] {
      var rest := Tokens(PartTexts(parts[1..]));
      assert PartTexts(parts)[1..] == PartTexts(parts[1..]);
      TokensOfParts(parts[1..], z);
      PartTrimmed(parts[0]);
      var first := if parts[0].range.None? then [] else [Core(parts[0])];
      assert Tokens(PartTexts(parts)) == first + rest;
      ListedCons(first, rest, z);
      FirstPart(parts, z);
    }
  }

  lemma ListedCons(first: seq<string>, rest: seq<string>, z: nat)
    requires |first| <= 1 && AllGood(rest) && AllGood(first)
    ensures AllGood(first + rest)
    ensures Listed(first + rest, z) <==> (first != [] && Denotes(first[0], z)) || Listed(rest, z)
  {
    var all := first + rest;
    assert forall i :: 0 <= i < |rest| ==> all[|first| + i] == rest[i];
    if first != [] && Denotes(first[0], z) {
      assert Denotes(all[0], z);
    }
    if i :| 0 <= i < |rest| && Denotes(rest[i], z) {
      assert Denotes(all[|first| + i], z);
    }
    if i :| 0 <= i < |all| && Denotes(all[i], z) {
      assert i >= |first| ==> Denotes(rest[i - |first|], z);
    }
  }

  lemma FirstPart(parts: seq<Part>, z: nat)
    requires parts != []
    ensures (exists i :: 0 <= i < |parts| && InPart(parts[i], z))
       <==> InPart(parts[0], z) || exists i :: 0 <= i < |parts[1..]| && InPart(parts[1..][i], z)
  {
    if i :| 0 <= i < |parts| && InPart(parts[i], z) {
      assert i > 0 ==> InPart(parts[1..][i - 1], z);
    }
    if i :| 0 <= i < |parts[1..]| && InPart(parts[1..][i], z) {
      assert InPart(parts[i + 1], z);
    }
  }

  /** A list written with commas, with any white space and any empty parts, is read as just its ranges. */
  lemma WrittenListIsRead(parts: seq<Part>, z: nat)
    requires parts != [] && forall i :: 0 <= i < |parts| ==> GoodPart(parts[i])
    ensures var tokens := Tokens(Split(Join(PartTexts(parts), ','), ','));
            AllGood(tokens) && (Listed(tokens, z) <==> exists i :: 0 <= i < |parts| && InPart(parts[i], z))
  {
    var texts := PartTexts(parts);
    forall p | p in texts ensures ',' !in p {
      var i :| 0 <= i < |texts| && texts[i] == p;
      PartTrimmed(parts[i]);
    }
    SplitJoin(texts, ',');
    TokensOfParts(parts, z);
  }

  /** The errors: a reversed range, a zoom beyond 255, and one that is no number. */
  lemma ErrorsExact(lo: nat, hi: nat, word: string, i: nat)
    ensures hi < lo <= 255 ==> ParseToken(Decimal(lo) + ['-'] + Decimal(hi))
                               == Err(ReversedRange(Decimal(lo) + ['-'] + Decimal(hi)))
    ensures lo > 255 || hi > 255 ==> ParseToken(Decimal(lo) + ['-'] + Decimal(hi))
                                     == Err(BadRange(Decimal(lo) + ['-'] + Decimal(hi)))
    ensures lo > 255 ==> ParseToken(Decimal(lo)) == Err(BadZoom(Decimal(lo)))
    ensures '-' !in word && i < |word| && !IsDigit(word[i]) && word[i] != '+' ==> ParseToken(word) == Err(BadZoom(word))
  {
    DecimalPlain(lo);
    DecimalPlain(hi);
    ParseDecimal(lo, MAX_ZOOM);
    ParseDecimal(hi, MAX_ZOOM);
    SplitOnceAt(Decimal(lo), '-', Decimal(hi));
    if i < |word| && !IsDigit(word[i]) && word[i] != '+' {
      ParseUnsignedRefuses(word, i, MAX_ZOOM);
    }
  }

  // ---------- Tile sizes and the zoom shift ----------

  function TrailingZeros(n: nat): nat
    requires n > 0
  {
    if n % 2 == 1 then 0 else 1 + TrailingZeros(n / 2)
  }

  predicate IsPowerOfTwo(n: nat) {
    n == 1 || (n > 1 && n % 2 == 0 && IsPowerOfTwo(n / 2))
  }

  function ParseTileSize(s: string): Option<nat> {
    match ParseUnsigned(Trim(s), 0xFFFF)
    case None => None
    case Some(v) => if v == 0 || v > 256 || !IsPowerOfTwo(v) then None else Some(v)
  }

  function ZoomOffset(tileSize: nat): nat
    requires 1 <= tileSize <= 256
  {
    TrailingZeros(256 / tileSize)
  }

  lemma {:induction false} PowersOfTwo(n: nat)
    ensures IsPowerOfTwo(n) <==> n > 0 && n == Pow2(TrailingZeros(n))
  {
    if n > 0 && n % 2 == 0 {
      PowersOfTwo(n / 2);
    }
  }

  lemma {:induction false} TrailingZerosOfPower(k: nat)
    ensures TrailingZeros(Pow2(k)) == k
  {
    if k > 0 {
      TrailingZerosOfPower(k - 1);
    }
  }

  lemma {:induction false} PowersAdd(a: nat, b: nat)
    ensures Pow2(a) * Pow2(b) == Pow2(a + b)
  {
    if a > 0 {
      PowersAdd(a - 1, b);
      assert Pow2(a) * Pow2(b) == 2 * (Pow2(a - 1) * Pow2(b));
    }
  }

  lemma {:induction false} PowerGrows(a: nat, b: nat)
    requires a <= b
    ensures Pow2(a) <= Pow2(b)
  {
    if a < b {
      PowerGrows(a, b - 1);
    }
  }

  lemma EightIsEnough(k: nat)
    requires Pow2(k) <= 256
    ensures k <= 8 && Pow2(8) == 256
  {
    assert Pow2(3) == 8;
    assert Pow2(6) == 64;
    if k > 8 {
      PowerGrows(9, k);
    }
  }

  lemma Factors(a: nat, m: nat, q: nat)
    requires m >= 1 && m * q == a
    ensures a / m == q
  {
    QuotientIs(a, m, q, 0);
  }

  lemma ShiftOfPower(k: nat)
    requires Pow2(k) <= 256
    ensures k <= 8 && Pow2(k) * Pow2(8 - k) == 256 && ZoomOffset(Pow2(k)) == 8 - k
  {
    EightIsEnough(k);
    PowersAdd(k, 8 - k);
    Factors(256, Pow2(k), Pow2(8 - k));
    TrailingZerosOfPower(8 - k);
  }

  /** Every accepted tile size makes up for its shift: 2^offset tiles of that size are 256 pixels wide. */
  lemma {:induction false} TileSizeTimesShift(s: string)
    requires ParseTileSize(s).Some?
    ensures var size := ParseTileSize(s).value;
            1 <= size <= 256 && size * Pow2(ZoomOffset(size)) == 256 && ZoomOffset(size) <= 8
  {
    var size := ParseTileSize(s).value;
    PowersOfTwo(size);
    ShiftOfPower(TrailingZeros(size));
  }

  /** Exactly the powers of two from 1 to 256 are accepted. */
  lemma TileSizesExact(n: nat)
    ensures ParseTileSize(Decimal(n)) == if n in {1, 2, 4, 8, 16, 32, 64, 128, 256} then Some(n) else None
  {
    DecimalPlain(n);
    ParseDecimal(n, 0xFFFF);
    if 0 < n <= 256 {
      SmallPowers(n);
    }
  }

  lemma SmallPowers(n: nat)
    requires 0 < n <= 256
    ensures IsPowerOfTwo(n) <==> n in {1, 2, 4, 8, 16, 32, 64, 128, 256}
  {
    if n > 1 && n % 2 == 0 {
      SmallPowers(n / 2);
    }
  }

  function SaturatingAdd(a: nat, b: nat): nat {
    if a + b > MAX_ZOOM then MAX_ZOOM else a + b
  }

  function EffectiveZooms(raw: seq<nat>, offset: nat): (r: seq<nat>)
    ensures |r| == |raw| && forall i :: 0 <= i < |raw| ==> r[i] == SaturatingAdd(raw[i], offset)
  {
    seq(|raw|, i requires 0 <= i < |raw| => SaturatingAdd(raw[i], offset))
  }

  /** The shifted list is still strictly ascending exactly when no two zooms are capped to the
      same value, that is, when the last but one stays below the cap. */
  lemma ShiftKeepsOrderExact(raw: seq<nat>, offset: nat)
    requires Ascending(raw) && forall z :: z in raw ==> z <= MAX_ZOOM
    ensures Ascending(EffectiveZooms(raw, offset)) <==> |raw| < 2 || raw[|raw| - 2] + offset < MAX_ZOOM
  {
    var eff := EffectiveZooms(raw, offset);
    var n := |raw|;
    if n >= 2 {
      assert raw[n - 2] < raw[n - 1];
      if raw[n - 2] + offset >= MAX_ZOOM {
        assert eff[n - 2] == eff[n - 1];
      } else {
        forall i, j | 0 <= i < j < n ensures eff[i] < eff[j] {
          assert i < n - 2 ==> raw[i] < raw[n - 2];
        }
      }
    }
  }

  // ---------- The zoom a client picks ----------

  /** The greatest published zoom that is not above `current`, or else the least published one. */
  ghost predicate Closest(current: real, published: seq<nat>, z: int) {
    && (published == [] ==> z == current.Floor)
    && (published != [] ==> z in published)
    && (forall p :: p in published && p as real <= current ==> p <= z && z as real <= current)
    && ((forall p :: p in published ==> p as real > current) ==> forall p :: p in published ==> z <= p)
  }

  lemma ClosestOfSorted(current: real, published: seq<nat>, sorted: seq<nat>, z: nat)
    requires published != [] && (forall x :: x in published <==> x in sorted) && z in sorted
    requires forall k :: 0 <= k < |sorted| ==>
        if z as real <= current then sorted[k] as real <= current ==> sorted[k] <= z else z <= sorted[k]
    ensures Closest(current, published, z)
  {
    forall p | p in published
      ensures if z as real <= current then p as real <= current ==> p <= z else z <= p
    {
      var k :| 0 <= k < |sorted| && sorted[k] == p;
    }
  }

  method ClosestPublishedZoom(current: real, published: seq<nat>) returns (z: int)
    ensures Closest(current, published, z)
  {
    if published == [] {
      return current.Floor;
    }
    var sorted := Sort(published);
    assert forall x :: x in published <==> x in sorted;
    var first, last := sorted[0], sorted[|sorted| - 1];
    if current <= first as real {
      ClosestOfSorted(current, published, sorted, first);
      return first;
    }
    if current >= last as real {
      ClosestOfSorted(current, published, sorted, last);
      return last;
    }
    z := first;
    for i := 0 to |sorted|
      invariant z in sorted && z as real <= current
      invariant forall k :: 0 <= k < i ==> sorted[k] <= z
    {
      if sorted[i] as real <= current {
        z := sorted[i];
      } else {
        break;
      }
    }
    ClosestOfSorted(current, published, sorted, z);
  }
}
