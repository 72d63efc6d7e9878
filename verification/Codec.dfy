/** The byte buffer of the MQTT 3.1.1 codec, and the remaining lengths that stand in it. */
module Codec {
  import opened Payloads

  /** A growable byte array. */
  class ByteBuffer {
    var data: seq<Byte>

    constructor ()
      ensures data == []
    {
      data := [];
    }

    method Append(bytes: seq<Byte>)
      modifies this
      ensures data == old(data) + bytes
    {
      data := data + bytes;
    }

    method RemoveFront(n: nat)
      requires n <= |data|
      modifies this
      ensures data == old(data)[n..]
    {
      data := data[n..];
    }
  }

  // ---------- Remaining length (section 2.2.3 of MQTT 3.1.1) ----------

  const MAX_REMAINING: nat := 268435455

  function VarInt(v: nat): (r: seq<Byte>)
    ensures |r| >= 1
  {
    if v < 128 then [v] else [v % 128 + 128] + VarInt(v / 128)
  }

  /** The weight of the n-th length byte. */
  function Place(n: nat): (p: nat)
    ensures p >= 1
  {
    if n == 0 then 1 else 128 * Place(n - 1)
  }

  /** The number that n length bytes denote. */
  function VarValue(buf: seq<Byte>, offset: nat, n: nat): nat
    requires offset + n <= |buf|
  {
    if n == 0 then 0 else VarValue(buf, offset, n - 1) + (buf[offset + n - 1] % 128) * Place(n - 1)
  }

  /** How many bytes in a row announce another one. */
  function Continuations(buf: seq<Byte>, offset: nat): (n: nat)
    ensures offset + n < |buf| ==> buf[offset + n] < 128
    decreases |buf| - offset
  {
    if offset < |buf| && buf[offset] >= 128 then 1 + Continuations(buf, offset + 1) else 0
  }

  datatype Length = Incomplete | TooLong | Length(bytes: nat, value: nat)

  /** What the length field at an offset says. */
  function LengthAt(buf: seq<Byte>, offset: nat): Length {
    var n := Continuations(buf, offset);
    if n >= 4 then TooLong
    else if offset + n >= |buf| then Incomplete
    else Length(n + 1, VarValue(buf, offset, n + 1))
  }

  method WriteRemainingLength(out: ByteBuffer, length: nat)
    modifies out
    ensures out.data == old(out.data) + VarInt(length)
  {
    var value, more := length, true;
    while more
      invariant more ==> out.data + VarInt(value) == old(out.data) + VarInt(length)
      invariant !more ==> out.data == old(out.data) + VarInt(length)
      decreases more, value
    {
      ghost var before := out.data;
      var byte: Byte := value % 128;
      if value / 128 > 0 {
        Regroup(before, [byte + 128], VarInt(value / 128));
        byte := byte + 128;
      }
      value := value / 128;
      more := value > 0;
      out.Append([byte]);
    }
  }

  lemma Regroup(a: seq<Byte>, b: seq<Byte>, c: seq<Byte>)
    ensures a + b + c == a + (b + c)
  {
  }

  /** 0 when bytes are missing, -1 when the field is too long, else the bytes of the field. */
  method ReadRemainingLength(buf: seq<Byte>, offset: nat) returns (read: int, length: nat)
    ensures -1 <= read <= 4 && length <= MAX_REMAINING
    ensures LengthAt(buf, offset)
         == if read == 0 then Incomplete else if read == -1 then TooLong else Length(read, length)
    ensures read == 0 <==> Continuations(buf, offset) < 4 && offset + Continuations(buf, offset) >= |buf|
    ensures read == -1 <==> Continuations(buf, offset) >= 4
  {
    var multiplier: nat, value: nat, n: nat := 1, 0, 0;
    while true
      invariant n <= 3 && (n == 0 || offset + n <= |buf|)
      invariant n <= Continuations(buf, offset) == n + Continuations(buf, offset + n)
      invariant multiplier == Place(n)
      invariant if offset + n <= |buf| then value == VarValue(buf, offset, n) else value == 0
      decreases 4 - n
    {
      if offset + n >= |buf| {
        return 0, 0;
      }
      var byte := buf[offset + n];
      OneMoreByte(buf, offset, n);
      value := value + (byte % 128) * multiplier;
      n := n + 1;
      if byte < 128 {
        break;
      }
      multiplier := multiplier * 128;
      if multiplier > 128 * 128 * 128 {
        FourPlaces(n);
        return -1, 0;
      }
      FourPlaces(n);
    }
    VarValueBound(buf, offset, n);
    FourPlaces(n);
    read, length := n, value;
  }

  lemma OneMoreByte(buf: seq<Byte>, offset: nat, n: nat)
    requires offset + n < |buf|
    ensures VarValue(buf, offset, n + 1) == VarValue(buf, offset, n) + (buf[offset + n] % 128) * Place(n)
    ensures Place(n + 1) == Place(n) * 128
    ensures Continuations(buf, offset + n)
         == if buf[offset + n] >= 128 then 1 + Continuations(buf, offset + n + 1) else 0
  {
  }

  /** Three bytes reach 128 cubed, and four go beyond. */
  lemma FourPlaces(n: nat)
    requires n <= 4
    ensures Place(n) > 128 * 128 * 128 <==> n == 4
    ensures Place(n) <= MAX_REMAINING + 1
  {
    assert Place(2) == 16384;
    assert Place(3) == 2097152;
    assert Place(4) == 268435456;
  }

  lemma TimesPlace(d: nat, p: nat)
    requires d <= 127
    ensures d * p <= 127 * p
  {
  }

  lemma {:induction false} VarValueBound(buf: seq<Byte>, offset: nat, n: nat)
    requires offset + n <= |buf|
    ensures VarValue(buf, offset, n) < Place(n)
  {
    if n > 0 {
      VarValueBound(buf, offset, n - 1);
      TimesPlace(buf[offset + n - 1] % 128, Place(n - 1));
    }
  }

  lemma MovePlace(d: nat, p: nat)
    ensures d * (128 * p) == 128 * (d * p)
  {
  }

  /** The first byte is the lowest. */
  lemma {:induction false} VarValueFirst(buf: seq<Byte>, offset: nat, n: nat)
    requires n >= 1 && offset + n <= |buf|
    ensures VarValue(buf, offset, n) == buf[offset] % 128 + 128 * VarValue(buf, offset + 1, n - 1)
  {
    if n > 1 {
      VarValueFirst(buf, offset, n - 1);
      MovePlace(buf[offset + n - 1] % 128, Place(n - 2));
    } else {
      assert VarValue(buf, offset, 0) == 0;
    }
  }

  lemma {:induction false} VarIntRead(buf: seq<Byte>, offset: nat, v: nat)
    requires offset + |VarInt(v)| <= |buf| && buf[offset..offset + |VarInt(v)|] == VarInt(v)
    ensures Continuations(buf, offset) == |VarInt(v)| - 1 && VarValue(buf, offset, |VarInt(v)|) == v
    decreases v
  {
    assert buf[offset] == VarInt(v)[0];
    VarValueFirst(buf, offset, |VarInt(v)|);
    if v >= 128 {
      var m := |VarInt(v)|;
      assert buf[offset + 1..offset + m] == buf[offset..offset + m][1..];
      VarIntRead(buf, offset + 1, v / 128);
    }
  }

  lemma {:induction false} VarIntSize(v: nat)
    ensures v < Place(|VarInt(v)|)
    ensures |VarInt(v)| > 1 ==> v >= Place(|VarInt(v)| - 1)
  {
    if v >= 128 {
      VarIntSize(v / 128);
    }
  }

  lemma {:induction false} PlaceGrows(a: nat, b: nat)
    requires a <= b
    ensures Place(a) <= Place(b)
  {
    if a < b {
      PlaceGrows(a, b - 1);
    }
  }

  /** The written form has one to four bytes exactly for numbers in range, and no shorter field says the same. */
  lemma VarIntShortest(v: nat)
    ensures |VarInt(v)| <= 4 <==> v <= MAX_REMAINING
    ensures forall buf: seq<Byte>, offset: nat, n: nat :: offset + n <= |buf| && 0 < n < |VarInt(v)| ==>
        VarValue(buf, offset, n) != v
  {
    VarIntSize(v);
    FourPlaces(4);
    if |VarInt(v)| <= 4 {
      PlaceGrows(|VarInt(v)|, 4);
    } else {
      PlaceGrows(4, |VarInt(v)| - 1);
    }
    forall buf: seq<Byte>, offset: nat, n: nat | offset + n <= |buf| && 0 < n < |VarInt(v)|
      ensures VarValue(buf, offset, n) != v
    {
      VarValueBound(buf, offset, n);
      PlaceGrows(n, |VarInt(v)| - 1);
    }
  }

  lemma VarIntShift(a: nat, w: nat)
    requires a < 128 && w > 0
    ensures VarInt(a + 128 * w) == [a + 128] + VarInt(w)
  {
    assert (a + 128 * w) / 128 == w && (a + 128 * w) % 128 == a;
  }

  lemma TwoBytes(a: nat, b: nat)
    requires a < 128 && 0 < b < 128
    ensures VarInt(a + 128 * b) == [a + 128, b]
  {
    VarIntShift(a, b);
  }

  lemma ThreeBytes(a: nat, b: nat, c: nat)
    requires a < 128 && b < 128 && 0 < c < 128
    ensures VarInt(a + 128 * (b + 128 * c)) == [a + 128, b + 128, c]
  {
    TwoBytes(b, c);
    VarIntShift(a, b + 128 * c);
  }

  lemma FourBytes(a: nat, b: nat, c: nat, d: nat)
    requires a < 128 && b < 128 && c < 128 && 0 < d < 128
    ensures VarInt(a + 128 * (b + 128 * (c + 128 * d))) == [a + 128, b + 128, c + 128, d]
  {
    ThreeBytes(b, c, d);
    VarIntShift(a, b + 128 * (c + 128 * d));
  }

  /** The four sizes of a length field: seven bits a byte, the lowest first, and a high bit on all bytes but the
      last. */
  lemma VarIntBytes(a: nat, b: nat, c: nat, d: nat)
    requires a < 128 && b < 128 && c < 128 && d < 128
    ensures VarInt(a) == [a]
    ensures b > 0 ==> VarInt(a + 128 * b) == [a + 128, b]
    ensures c > 0 ==> VarInt(a + 128 * b + 16384 * c) == [a + 128, b + 128, c]
    ensures d > 0 ==> VarInt(a + 128 * b + 16384 * c + 2097152 * d) == [a + 128, b + 128, c + 128, d]
  {
    if b > 0 {
      TwoBytes(a, b);
    }
    if c > 0 {
      ThreeBytes(a, b, c);
    }
    if d > 0 {
      FourBytes(a, b, c, d);
    }
  }

  /** Reading what was written, wherever it stands, returns the number exactly when it is in range. */
  lemma RemainingLengthExact(before: seq<Byte>, v: nat, rest: seq<Byte>)
    ensures LengthAt(before + VarInt(v) + rest, |before|) == Length(|VarInt(v)|, v) <==> v <= MAX_REMAINING
    ensures v > MAX_REMAINING ==> LengthAt(before + VarInt(v) + rest, |before|) == TooLong
  {
    var buf := before + VarInt(v) + rest;
    assert buf[|before|..|before| + |VarInt(v)|] == VarInt(v);
    VarIntRead(buf, |before|, v);
    VarIntShortest(v);
  }
}
