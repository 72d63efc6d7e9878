/** Strings: decimal numbers, and splitting at a separator. */
module Text {
  import opened Payloads

  function Digit(d: nat): char
    requires d < 10
  {
    '0' + d as char
  }

  predicate IsDigit(c: char) {
    '0' <= c <= '9'
  }

  function Decimal(n: nat): (s: string)
    ensures s != [] && forall c :: c in s ==> IsDigit(c)
  {
    if n < 10 then [Digit(n)] else Decimal(n / 10) + [Digit(n % 10)]
  }

  /** The number denoted by a string of digits. */
  function DigitsValue(s: string): nat
    requires forall c :: c in s ==> IsDigit(c)
  {
    if s == [] then 0
    else
      assert IsDigit(s[|s| - 1]);
      DigitsValue(s[..|s| - 1]) * 10 + (s[|s| - 1] as int - '0' as int)
  }

  /** Parsing an unsigned number of at most `max`: an optional plus sign, then one or more digits. */
  function ParseUnsigned(s: string, max: nat): Option<nat> {
    var digits := if s != [] && s[0] == '+' then s[1..] else s;
    if digits != [] && (forall c :: c in digits ==> IsDigit(c)) && DigitsValue(digits) <= max
    then Some(DigitsValue(digits)) else None
  }

  lemma {:induction false} DecimalValue(n: nat)
    ensures DigitsValue(Decimal(n)) == n
  {
    if n >= 10 {
      DecimalValue(n / 10);
      var s := Decimal(n);
      assert s[..|s| - 1] == Decimal(n / 10);
    }
  }

  lemma ParseDecimal(n: nat, max: nat)
    ensures ParseUnsigned(Decimal(n), max) == if n <= max then Some(n) else None
  {
    DecimalValue(n);
    assert Decimal(n)[0] in Decimal(n);
  }

  lemma DecimalInjective(a: nat, b: nat)
    requires Decimal(a) == Decimal(b)
    ensures a == b
  {
    DecimalValue(a);
    DecimalValue(b);
  }

  /** Written digit by digit, the highest first and none too many. */
  lemma DecimalDigits(n: nat, d: nat)
    requires d < 10
    ensures Decimal(d) == ["0123456789"[d]]
    ensures n > 0 ==> Decimal(10 * n + d) == Decimal(n) + Decimal(d)
  {
  }

  /** One optional plus sign, leading zeros, and nothing but digits otherwise. */
  lemma ParseUnsignedReads(n: nat, zeros: string, max: nat)
    requires forall i :: 0 <= i < |zeros| ==> zeros[i] == '0'
    ensures ParseUnsigned(zeros + Decimal(n), max) == if n <= max then Some(n) else None
    ensures ParseUnsigned("+" + (zeros + Decimal(n)), max) == if n <= max then Some(n) else None
  {
    ZerosCountNothing(zeros, Decimal(n));
    DecimalValue(n);
    PlusIsOptional(zeros + Decimal(n), max);
  }

  lemma PlusIsOptional(digits: string, max: nat)
    requires digits != [] && forall c :: c in digits ==> IsDigit(c)
    ensures ParseUnsigned(digits, max) == ParseUnsigned("+" + digits, max)
         == if DigitsValue(digits) <= max then Some(DigitsValue(digits)) else None
  {
    assert digits[0] in digits;
    assert ("+" + digits)[1..] == digits;
  }

  lemma {:induction false} ZerosCountNothing(zeros: string, s: string)
    requires (forall i :: 0 <= i < |zeros| ==> zeros[i] == '0') && forall c :: c in s ==> IsDigit(c)
    ensures DigitsValue(zeros + s) == DigitsValue(s)
    decreases |s|, |zeros|
  {
    if s != [] {
      assert s[|s| - 1] in s && forall c :: c in s[..|s| - 1] ==> c in s;
      assert (zeros + s)[..|zeros + s| - 1] == zeros + s[..|s| - 1];
      ZerosCountNothing(zeros, s[..|s| - 1]);
    } else if zeros != [] {
      assert (zeros + s)[..|zeros + s| - 1] == zeros[..|zeros| - 1] + s;
      ZerosCountNothing(zeros[..|zeros| - 1], s);
    }
  }

  lemma ParseUnsignedRefuses(s: string, i: nat, max: nat)
    requires s == [] || s == "+" || (i < |s| && !IsDigit(s[i]) && !(i == 0 && s[0] == '+'))
    ensures ParseUnsigned(s, max) == None
  {
    if s != [] && s != "+" {
      var digits := if s[0] == '+' then s[1..] else s;
      assert s[i] == digits[if s[0] == '+' then i - 1 else i];
    }
  }

  // ---------- Splitting ----------

  /** The parts before and after the first separator. */
  function SplitOnce(s: string, sep: char): (r: Option<(string, string)>)
    ensures r.None? <==> sep !in s
    ensures r.Some? ==> s == r.value.0 + [sep] + r.value.1 && sep !in r.value.0
  {
    if s == [] then None
    else if s[0] == sep then Some(([], s[1..]))
    else match SplitOnce(s[1..], sep)
      case None => None
      case Some((a, b)) => Some(([s[0]] + a, b))
  }

  /** At most n parts; the last one keeps its separators. */
  function SplitN(s: string, sep: char, n: nat): (parts: seq<string>)
    ensures n > 0 ==> 1 <= |parts| <= n
    decreases n
  {
    if n == 0 then []
    else if n == 1 || SplitOnce(s, sep).None? then [s]
    else
      var (a, b) := SplitOnce(s, sep).value;
      [a] + SplitN(b, sep, n - 1)
  }

  /** All parts. */
  function Split(s: string, sep: char): (parts: seq<string>)
    ensures |parts| >= 1
    ensures forall p :: p in parts ==> sep !in p
    decreases |s|
  {
    match SplitOnce(s, sep)
    case None => [s]
    case Some((a, b)) => [a] + Split(b, sep)
  }

  function Join(parts: seq<string>, sep: char): string {
    if parts == [] then [] else if |parts| == 1 then parts[0] else parts[0] + [sep] + Join(parts[1..], sep)
  }

  lemma {:induction false} JoinSplit(s: string, sep: char)
    ensures Join(Split(s, sep), sep) == s
    decreases |s|
  {
    match SplitOnce(s, sep)
    case None =>
    case Some((a, b)) =>
      JoinSplit(b, sep);
      assert Split(s, sep)[1..] == Split(b, sep);
  }

  /** A separator is the first one when nothing before it is a separator. */
  lemma {:induction false} SplitOnceAt(a: string, sep: char, b: string)
    requires sep !in a
    ensures SplitOnce(a + [sep] + b, sep) == Some((a, b))
  {
    var s := a + [sep] + b;
    if a == [] {
      assert s[1..] == b;
    } else {
      assert s[1..] == a[1..] + [sep] + b;
      SplitOnceAt(a[1..], sep, b);
      assert [a[0]] + a[1..] == a;
    }
  }

  /** A separator further right lies in the other string's last part. */
  lemma SeparatorLiesIn(a: string, p: string, b: string, q: string, sep: char)
    requires a + [sep] + p == b + [sep] + q
    ensures |a| > |b| ==> sep in q
  {
    if |a| > |b| {
      assert (a + [sep] + p)[|a|] == sep;
      assert (b + [sep] + q)[|a|] == q[|a| - |b| - 1];
    }
  }

  /** Two strings with separator-free ends agree part by part. */
  lemma SameLastPart(a: string, p: string, b: string, q: string, sep: char)
    requires sep !in p && sep !in q
    requires a + [sep] + p == b + [sep] + q
    ensures a == b && p == q
  {
    SeparatorLiesIn(a, p, b, q, sep);
    SeparatorLiesIn(b, q, a, p, sep);
    var s, t := a + [sep] + p, b + [sep] + q;
    assert s[..|a|] == a && t[..|b|] == b;
    assert s[|a| + 1..] == p && t[|b| + 1..] == q;
  }

  lemma {:induction false} SplitJoin(parts: seq<string>, sep: char)
    requires parts != [] && forall p :: p in parts ==> sep !in p
    ensures Split(Join(parts, sep), sep) == parts
  {
    if |parts| > 1 {
      SplitOnceAt(parts[0], sep, Join(parts[1..], sep));
      SplitJoin(parts[1..], sep);
    } else {
      assert sep !in parts[0];
    }
  }

  lemma JoinCons(a: string, rest: seq<string>, sep: char)
    requires rest != []
    ensures Join([a] + rest, sep) == a + [sep] + Join(rest, sep)
  {
    assert ([a] + rest)[1..] == rest;
  }

  lemma JoinFive(a: string, b: string, c: string, d: string, e: string, sep: char)
    ensures Join([a, b, c, d, e], sep) == a + [sep] + b + [sep] + c + [sep] + d + [sep] + e
  {
    JoinCons(d, [e], sep);
    JoinCons(c, [d] + [e], sep);
    JoinCons(b, [c] + ([d] + [e]), sep);
    JoinCons(a, [b] + ([c] + ([d] + [e])), sep);
    assert [a, b, c, d, e] == [a] + ([b] + ([c] + ([d] + [e])));
    LeftToRight(a, [sep], b, c, d, e);
  }

  lemma LeftToRight(a: string, m: string, b: string, c: string, d: string, e: string)
    ensures a + m + (b + m + (c + m + (d + m + e))) == a + m + b + m + c + m + d + m + e
  {
  }

  /** Parts without a separator are what the joined text splits into. */
  lemma SplitFive(a: string, b: string, c: string, d: string, e: string, sep: char)
    requires sep !in a && sep !in b && sep !in c && sep !in d && sep !in e
    ensures Split(a + [sep] + b + [sep] + c + [sep] + d + [sep] + e, sep) == [a, b, c, d, e]
  {
    JoinFive(a, b, c, d, e, sep);
    SplitJoin([a, b, c, d, e], sep);
  }

  lemma SplitCut(a: string, sep: char, b: string)
    requires sep !in a
    ensures Split(a + [sep] + b, sep) == [a] + Split(b, sep)
  {
    SplitOnceAt(a, sep, b);
  }

  lemma SplitTwo(a: string, sep: char, b: string)
    requires sep !in a && sep !in b
    ensures Split(a + [sep] + b, sep) == [a, b]
  {
    SplitCut(a, sep, b);
  }

  /** Cutting at most n - 1 times leaves everything alone that comes before the last part. */
  lemma {:induction false} SplitNCounts(s: string, sep: char, n: nat)
    requires n >= 1
    ensures |SplitN(s, sep, n)| == if |Split(s, sep)| < n then |Split(s, sep)| else n
    ensures |Split(s, sep)| <= n ==> SplitN(s, sep, n) == Split(s, sep)
    ensures |Split(s, sep)| > n ==> sep in SplitN(s, sep, n)[n - 1]
    decreases n
  {
    match SplitOnce(s, sep)
    case None =>
    case Some((a, b)) =>
      if n > 1 {
        SplitNCounts(b, sep, n - 1);
      }
  }
}
