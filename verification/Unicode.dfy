/** Which byte strings are UTF-8: exactly the encodings of sequences of scalar values (section 3 of RFC 3629). */
module Unicode {
  import opened Wire

  /** A code point that is not a surrogate. */
  type Scalar = c: int | 0 <= c <= 0x10FFFF && !(0xD800 <= c <= 0xDFFF)

  function EncodeScalar(c: Scalar): (b: Bytes)
    ensures 1 <= |b| <= 4
  {
    var c1 := c / 0x40;
    var c2 := c1 / 0x40;
    if c <= 0x7F then [c]
    else if c <= 0x7FF then [0xC0 + c1, 0x80 + c % 0x40]
    else if c <= 0xFFFF then [0xE0 + c2, 0x80 + c1 % 0x40, 0x80 + c % 0x40]
    else [0xF0 + c2 / 0x40, 0x80 + c2 % 0x40, 0x80 + c1 % 0x40, 0x80 + c % 0x40]
  }

  function EncodeText(cs: seq<Scalar>): Bytes {
    if cs == [] then [] else EncodeScalar(cs[0]) + EncodeText(cs[1..])
  }

  /** An encoded scalar value is recognised wherever it stands. */
  lemma ScalarIsRecognised(c: Scalar, s: Bytes, i: nat)
    requires i + |EncodeScalar(c)| <= |s| && s[i..i + |EncodeScalar(c)|] == EncodeScalar(c)
    ensures ScalarLen(s, i) == |EncodeScalar(c)|
  {
    var b := EncodeScalar(c);
    assert s[i] == s[i..i + |b|][0] && (|b| > 1 ==> s[i + 1] == s[i..i + |b|][1]);
    assert (|b| > 2 ==> s[i + 2] == s[i..i + |b|][2]) && (|b| > 3 ==> s[i + 3] == s[i..i + |b|][3]);
    assert s[i] == b[0] && (|b| > 1 ==> s[i + 1] == b[1]) && (|b| > 2 ==> s[i + 2] == b[2]);
    assert |b| > 3 ==> s[i + 3] == b[3];
  }

  /** One more base-64 digit. */
  function Shift(high: int, tail: Byte): int {
    high * 0x40 + (tail as int - 0x80)
  }

  lemma ShiftBack(high: int, tail: Byte)
    requires Tail(tail)
    ensures Shift(high, tail) / 0x40 == high && 0x80 + Shift(high, tail) % 0x40 == tail
  {
  }

  /** The value of a sequence with the given bytes. */
  function Value(b: Bytes): int
    requires 1 <= |b| <= 4
  {
    match |b|
    case 1 => b[0]
    case 2 => Shift(b[0] as int - 0xC0, b[1])
    case 3 => Shift(Shift(b[0] as int - 0xE0, b[1]), b[2])
    case _ => Shift(Shift(Shift(b[0] as int - 0xF0, b[1]), b[2]), b[3])
  }

  lemma TwoBytes(b: Bytes)
    requires |b| == 2 && ScalarLen(b, 0) == 2
    ensures 0x80 <= Value(b) <= 0x7FF && EncodeScalar(Value(b)) == b
  {
    ShiftBack(b[0] as int - 0xC0, b[1]);
  }

  lemma ThreeBytes(b: Bytes)
    requires |b| == 3 && ScalarLen(b, 0) == 3
    ensures 0x800 <= Value(b) <= 0xFFFF && !(0xD800 <= Value(b) <= 0xDFFF) && EncodeScalar(Value(b)) == b
  {
    var high := b[0] as int - 0xE0;
    ShiftBack(high, b[1]);
    ShiftBack(Shift(high, b[1]), b[2]);
  }

  lemma FourBytes(b: Bytes)
    requires |b| == 4 && ScalarLen(b, 0) == 4
    ensures 0x1_0000 <= Value(b) <= 0x10FFFF && EncodeScalar(Value(b)) == b
  {
    var c2 := Shift(b[0] as int - 0xF0, b[1]);
    var c1 := Shift(c2, b[2]);
    assert Value(b) == Shift(c1, b[3]);
    assert 0x10 <= c2 <= 0x10F;
    ShiftBack(b[0] as int - 0xF0, b[1]);
    ShiftBack(c2, b[2]);
    ShiftBack(c1, b[3]);
    assert 0x400 <= c1 <= 0x43FF;
  }

  lemma RecognisedIsScalar(s: Bytes, i: nat) returns (c: Scalar)
    requires i <= |s| && ScalarLen(s, i) > 0
    ensures EncodeScalar(c) == s[i..i + ScalarLen(s, i)]
  {
    var n := ScalarLen(s, i);
    var b := s[i..i + n];
    assert ScalarLen(b, 0) == n;
    match n {
      case 1 =>
      case 2 => TwoBytes(b);
      case 3 => ThreeBytes(b);
      case _ => FourBytes(b);
    }
    c := Value(b);
  }

  lemma OneMore(before: Bytes, c: Scalar, rest: Bytes)
    ensures var s := before + (EncodeScalar(c) + rest);
            && s == (before + EncodeScalar(c)) + rest
            && ScalarLen(s, |before|) == |EncodeScalar(c)|
  {
    var s, b := before + (EncodeScalar(c) + rest), EncodeScalar(c);
    assert s[|before|..|before| + |b|] == b;
    ScalarIsRecognised(c, s, |before|);
  }

  lemma {:induction false} TextIsValid(before: Bytes, cs: seq<Scalar>)
    ensures ValidUtf8From(before + EncodeText(cs), |before|)
    decreases |cs|
  {
    if cs != [] {
      OneMore(before, cs[0], EncodeText(cs[1..]));
      TextIsValid(before + EncodeScalar(cs[0]), cs[1..]);
    }
  }

  lemma Halves(s: Bytes, n: nat)
    requires n <= |s|
    ensures s == s[..n] + s[n..]
  {
  }

  lemma {:induction false} ValidIsText(s: Bytes, i: nat) returns (cs: seq<Scalar>)
    requires i <= |s| && ValidUtf8From(s, i)
    ensures EncodeText(cs) == s[i..]
    decreases |s| - i
  {
    cs := [];
    if i < |s| {
      var n := ScalarLen(s, i);
      var c := RecognisedIsScalar(s, i);
      var rest := ValidIsText(s, i + n);
      cs := [c] + rest;
      assert cs[1..] == rest;
      Halves(s[i..], n);
    }
  }

  /** A name is accepted if and only if it encodes some text. */
  lemma ValidIffText(s: Bytes)
    ensures ValidUtf8(s) <==> exists cs: seq<Scalar> :: EncodeText(cs) == s
  {
    if ValidUtf8(s) {
      var cs := ValidIsText(s, 0);
      assert EncodeText(cs) == s;
    }
    if cs: seq<Scalar> :| EncodeText(cs) == s {
      TextIsValid([], cs);
      assert [] + s == s;
    }
  }

  /** Different texts have different encodings. */
  lemma {:induction false} TextIsUnique(cs: seq<Scalar>, ds: seq<Scalar>)
    requires EncodeText(cs) == EncodeText(ds)
    ensures cs == ds
  {
    if cs == [] || ds == [] {
      assert EncodeText(cs) == [] ==> cs == [];
      assert EncodeText(ds) == [] ==> ds == [];
    } else {
      var s := EncodeText(cs);
      var b, d := EncodeScalar(cs[0]), EncodeScalar(ds[0]);
      assert s == b + EncodeText(cs[1..]) && s == d + EncodeText(ds[1..]);
      assert s[0..|b|] == b && s[0..|d|] == d;
      ScalarIsRecognised(cs[0], s, 0);
      ScalarIsRecognised(ds[0], s, 0);
      ScalarIsUnique(cs[0], ds[0]);
      assert s[|b|..] == EncodeText(cs[1..]) && s[|b|..] == EncodeText(ds[1..]);
      TextIsUnique(cs[1..], ds[1..]);
      assert cs == [cs[0]] + cs[1..] && ds == [ds[0]] + ds[1..];
    }
  }

  lemma ScalarIsUnique(c: Scalar, d: Scalar)
    requires EncodeScalar(c) == EncodeScalar(d)
    ensures c == d
  {
    ScalarIsReadBack(c);
    ScalarIsReadBack(d);
  }

  lemma ScalarIsReadBack(c: Scalar)
    ensures Value(EncodeScalar(c)) == c
  {
  }
}
