/** Bytes, fixed-width big-endian integers and UTF-8 validity, as the TUIC codec uses them. */
module Wire {

  type Byte = x: int | 0 <= x < 0x100
  type U16 = x: int | 0 <= x < 0x1_0000
  type U32 = x: int | 0 <= x < 0x1_0000_0000
  type Bytes = seq<Byte>

  datatype Option<+T> = None | Some(value: T)

  // ---------------------------------------------------------------- integers

  function PutU16(x: U16): (b: Bytes)
    ensures |b| == 2
  {
    [x / 0x100, x % 0x100]
  }

  function GetU16(b: Bytes): U16
    requires |b| == 2
  {
    var hi: int, lo: int := b[0], b[1];
    hi * 0x100 + lo
  }

  function PutU32(x: U32): (b: Bytes)
    ensures |b| == 4
  {
    PutU16(x / 0x1_0000) + PutU16(x % 0x1_0000)
  }

  function GetU32(b: Bytes): U32
    requires |b| == 4
  {
    GetU16(b[..2]) * 0x1_0000 + GetU16(b[2..])
  }

  lemma U16Inverse(x: U16, b: Bytes)
    requires |b| == 2
    ensures GetU16(PutU16(x)) == x
    ensures PutU16(GetU16(b)) == b
  {
  }

  lemma U32Inverse(x: U32, b: Bytes)
    requires |b| == 4
    ensures GetU32(PutU32(x)) == x
    ensures PutU32(GetU32(b)) == b
  {
    var p := PutU32(x);
    assert p[..2] == PutU16(x / 0x1_0000) && p[2..] == PutU16(x % 0x1_0000);
    U16Inverse(x / 0x1_0000, b[..2]);
    U16Inverse(x % 0x1_0000, b[2..]);
    assert b == b[..2] + b[2..];
  }

  /** The most significant byte comes first. */
  lemma BigEndian(x: U16, y: U32)
    ensures x == 0x100 * PutU16(x)[0] as int + PutU16(x)[1] as int
    ensures var b := PutU32(y);
            y == 0x100_0000 * b[0] as int + 0x1_0000 * b[1] as int + 0x100 * b[2] as int + b[3] as int
  {
  }

  /** The eight segments of an IPv6 address are written one after the other. */
  function PutU16s(xs: seq<U16>): (b: Bytes)
    ensures |b| == 2 * |xs|
  {
    if xs == [] then [] else PutU16(xs[0]) + PutU16s(xs[1..])
  }

  function GetU16s(b: Bytes): (xs: seq<U16>)
    requires |b| % 2 == 0
    ensures |xs| == |b| / 2
  {
    if b == [] then [] else [GetU16(b[..2])] + GetU16s(b[2..])
  }

  lemma {:induction false} GetPutU16s(xs: seq<U16>)
    ensures GetU16s(PutU16s(xs)) == xs
  {
    if xs != [] {
      var p := PutU16s(xs);
      assert p[..2] == PutU16(xs[0]) && p[2..] == PutU16s(xs[1..]);
      U16Inverse(xs[0], p[..2]);
      GetPutU16s(xs[1..]);
    }
  }

  lemma {:induction false} PutGetU16s(b: Bytes)
    requires |b| % 2 == 0
    ensures PutU16s(GetU16s(b)) == b
  {
    if b != [] {
      U16Inverse(0, b[..2]);
      PutGetU16s(b[2..]);
      assert GetU16s(b)[1..] == GetU16s(b[2..]);
      assert b == b[..2] + b[2..];
    }
  }

  lemma {:induction false} SegmentBytes(xs: seq<U16>, k: nat)
    requires k < |xs|
    ensures PutU16s(xs)[2 * k..2 * k + 2] == PutU16(xs[k])
  {
    if k > 0 {
      SegmentBytes(xs[1..], k - 1);
      assert PutU16s(xs)[2 * k..2 * k + 2] == PutU16s(xs[1..])[2 * k - 2..2 * k];
    }
  }

  lemma {:induction false} PutU16sAppend(xs: seq<U16>, x: U16)
    ensures PutU16s(xs + [x]) == PutU16s(xs) + PutU16(x)
  {
    if xs == [] {
      assert xs + [x] == [x];
      assert PutU16s([x]) == PutU16(x) + PutU16s([]);
    } else {
      assert (xs + [x])[1..] == xs[1..] + [x];
      PutU16sAppend(xs[1..], x);
    }
  }

  // ---------------------------------------------------------------- UTF-8

  predicate Tail(b: Byte) {
    0x80 <= b <= 0xBF
  }

  /** Length of the UTF-8 sequence at offset i of s, or 0 if there is none (section 4 of RFC 3629). */
  function ScalarLen(s: Bytes, i: nat): (n: nat)
    requires i <= |s|
    ensures n <= |s| - i
  {
    var left := |s| - i;
    if left >= 1 && s[i] <= 0x7F then 1
    else if left >= 2 && 0xC2 <= s[i] <= 0xDF && Tail(s[i + 1]) then 2
    else if left >= 3 && Tail(s[i + 2])
            && (|| (s[i] == 0xE0 && 0xA0 <= s[i + 1] <= 0xBF)
                || (0xE1 <= s[i] <= 0xEC && Tail(s[i + 1]))
                || (s[i] == 0xED && 0x80 <= s[i + 1] <= 0x9F)
                || (0xEE <= s[i] <= 0xEF && Tail(s[i + 1]))) then 3
    else if left >= 4 && Tail(s[i + 2]) && Tail(s[i + 3])
            && (|| (s[i] == 0xF0 && 0x90 <= s[i + 1] <= 0xBF)
                || (0xF1 <= s[i] <= 0xF3 && Tail(s[i + 1]))
                || (s[i] == 0xF4 && 0x80 <= s[i + 1] <= 0x8F)) then 4
    else 0
  }

  predicate ValidUtf8From(s: Bytes, i: nat)
    requires i <= |s|
    decreases |s| - i
  {
    i == |s| || (ScalarLen(s, i) > 0 && ValidUtf8From(s, i + ScalarLen(s, i)))
  }

  /** What String::from_utf8 accepts. */
  predicate ValidUtf8(s: Bytes) {
    ValidUtf8From(s, 0)
  }

  lemma {:induction false} AsciiIsValidUtf8(s: Bytes, i: nat)
    requires i <= |s| && forall k | 0 <= k < |s| :: s[k] <= 0x7F
    ensures ValidUtf8From(s, i)
    decreases |s| - i
  {
    if i < |s| {
      AsciiIsValidUtf8(s, i + 1);
    }
  }
}
