/** TextEncoder and TextDecoder over JavaScript strings (sequences of UTF-16 code units). */
module Utf8 {
  import opened Common
  import opened Base64

  type Unit = u: nat | u < 0x10000

  /** A Unicode scalar value: any code point but the surrogates. */
  type Scalar = c: nat | c < 0x110000 && !(0xD800 <= c < 0xE000)

  const REPLACEMENT: Scalar := 0xFFFD
  const BOM: Scalar := 0xFEFF

  predicate High(u: Unit) { 0xD800 <= u < 0xDC00 }
  predicate Low(u: Unit) { 0xDC00 <= u < 0xE000 }

  function Joined(h: Unit, l: Unit): Scalar
    requires High(h) && Low(l)
  {
    0x10000 + (h - 0xD800) * 0x400 + (l - 0xDC00)
  }

  /** The string's scalar values; a surrogate without its other half becomes U+FFFD. */
  function Scalars(s: seq<Unit>): seq<Scalar> {
    if s == [] then []
    else if High(s[0]) && |s| > 1 && Low(s[1]) then [Joined(s[0], s[1])] + Scalars(s[2..])
    else if High(s[0]) || Low(s[0]) then [REPLACEMENT] + Scalars(s[1..])
    else [s[0]] + Scalars(s[1..])
  }

  function Units(c: Scalar): seq<Unit> {
    if c < 0x10000 then [c] else [0xD800 + (c - 0x10000) / 0x400, 0xDC00 + (c - 0x10000) % 0x400]
  }

  function Text(cs: seq<Scalar>): seq<Unit> {
    if cs == [] then [] else Units(cs[0]) + Text(cs[1..])
  }

  /** No surrogate without its other half. */
  predicate WellFormed(s: seq<Unit>) {
    s == [] ||
    if High(s[0]) then |s| > 1 && Low(s[1]) && WellFormed(s[2..])
    else !Low(s[0]) && WellFormed(s[1..])
  }

  // ---------- UTF-8 ----------

  function Tail(x: nat): Byte { 0x80 + x % 0x40 }

  function BytesOf(c: Scalar): seq<Byte> {
    if c < 0x80 then [c]
    else if c < 0x800 then [0xC0 + c / 0x40, Tail(c)]
    else if c < 0x10000 then [0xE0 + c / 0x1000, Tail(c / 0x40), Tail(c)]
    else [0xF0 + c / 0x40000, Tail(c / 0x1000), Tail(c / 0x40), Tail(c)]
  }

  function Utf8Bytes(cs: seq<Scalar>): seq<Byte> {
    if cs == [] then [] else BytesOf(cs[0]) + Utf8Bytes(cs[1..])
  }

  predicate IsTail(b: Byte) { 0x80 <= b < 0xC0 }

  predicate Tails(b: seq<Byte>, n: nat) { |b| > n && forall k :: 1 <= k <= n ==> IsTail(b[k]) }

  function Two(a: int, b: int): int { (a - 0xC0) * 0x40 + (b - 0x80) }

  function Three(a: int, b: int, c: int): int { (a - 0xE0) * 0x1000 + (b - 0x80) * 0x40 + (c - 0x80) }

  function Four(a: int, b: int, c: int, d: int): int {
    (a - 0xF0) * 0x40000 + (b - 0x80) * 0x1000 + (c - 0x80) * 0x40 + (d - 0x80)
  }

  function Checked(c: int, least: nat): Option<Scalar> {
    if least <= c < 0x110000 && !(0xD800 <= c < 0xE000) then Some(c as Scalar) else None
  }

  /** The scalar value that starts the bytes, if they start with a shortest-form sequence. */
  function First(b: seq<Byte>): Option<Scalar>
    requires b != []
  {
    if b[0] < 0x80 then Some(b[0])
    else if 0xC0 <= b[0] < 0xE0 && Tails(b, 1) then Checked(Two(b[0], b[1]), 0x80)
    else if 0xE0 <= b[0] < 0xF0 && Tails(b, 2) then Checked(Three(b[0], b[1], b[2]), 0x800)
    else if 0xF0 <= b[0] < 0xF8 && Tails(b, 3) then Checked(Four(b[0], b[1], b[2], b[3]), 0x10000)
    else None
  }

  lemma TwoOf(c: Scalar)
    requires 0x80 <= c < 0x800
    ensures Two(0xC0 + c / 0x40, Tail(c)) == c
  {}

  lemma ThreeOf(c: Scalar)
    requires 0x800 <= c < 0x10000
    ensures Three(0xE0 + c / 0x1000, Tail(c / 0x40), Tail(c)) == c
  {
    assert c / 0x1000 == c / 0x40 / 0x40;
  }

  lemma FourOf(c: Scalar)
    requires 0x10000 <= c
    ensures Four(0xF0 + c / 0x40000, Tail(c / 0x1000), Tail(c / 0x40), Tail(c)) == c
  {
    assert c / 0x1000 == c / 0x40 / 0x40 && c / 0x40000 == c / 0x1000 / 0x40;
  }

  lemma FirstOf(c: Scalar, rest: seq<Byte>)
    ensures First(BytesOf(c) + rest) == Some(c)
  {
    var lead := BytesOf(c);
    var b := lead + rest;
    assert forall k :: 0 <= k < |lead| ==> b[k] == lead[k];
    if 0x80 <= c < 0x800 {
      TwoOf(c);
      assert Tails(b, 1);
    } else if 0x800 <= c < 0x10000 {
      ThreeOf(c);
      assert Tails(b, 2);
    } else if c >= 0x10000 {
      FourOf(c);
      assert Tails(b, 3);
    }
  }

  /** None stands for bytes that are not UTF-8; their replacement text is not modelled. */
  function ScalarsOf(b: seq<Byte>): Option<seq<Scalar>>
    decreases |b|
  {
    if b == [] then Some([])
    else
      var c := First(b);
      if c.None? then None
      else
        var n := |BytesOf(c.value)|;
        if n > |b| then None
        else
          var rest := ScalarsOf(b[n..]);
          if rest.None? then None else Some([c.value] + rest.value)
  }

  lemma OneMoreScalar(c: Scalar, rest: seq<Byte>, cs: seq<Scalar>)
    requires ScalarsOf(rest) == Some(cs)
    ensures ScalarsOf(BytesOf(c) + rest) == Some([c] + cs)
  {
    var b := BytesOf(c) + rest;
    FirstOf(c, rest);
    assert b[|BytesOf(c)|..] == rest;
  }

  lemma {:induction false} ScalarsOfUtf8(cs: seq<Scalar>)
    ensures ScalarsOf(Utf8Bytes(cs)) == Some(cs)
  {
    if cs != [] {
      ScalarsOfUtf8(cs[1..]);
      OneMoreScalar(cs[0], Utf8Bytes(cs[1..]), cs[1..]);
      assert cs == [cs[0]] + cs[1..];
    }
  }

  // ---------- utf8Encode and utf8Decode ----------

  function Encode(s: seq<Unit>): seq<Byte> { Utf8Bytes(Scalars(s)) }

  /** TextDecoder drops one leading byte-order mark. */
  function WithoutBom(cs: seq<Scalar>): seq<Scalar> {
    if cs != [] && cs[0] == BOM then cs[1..] else cs
  }

  function Decode(b: seq<Byte>): Option<seq<Unit>> {
    var cs := ScalarsOf(b);
    if cs.None? then None else Some(Text(WithoutBom(cs.value)))
  }

  // ---------- which strings survive ----------

  lemma UnitsJoined(h: Unit, l: Unit)
    requires High(h) && Low(l)
    ensures Units(Joined(h, l)) == [h, l]
  {}

  lemma UnitsJoinBack(c: Scalar)
    requires c >= 0x10000
    ensures High(Units(c)[0]) && Low(Units(c)[1])
  {}

  /** Text made of scalar values has no lone surrogate. */
  lemma {:induction false} TextIsWellFormed(cs: seq<Scalar>)
    ensures WellFormed(Text(cs))
  {
    if cs != [] {
      TextIsWellFormed(cs[1..]);
      var s := Text(cs);
      if cs[0] < 0x10000 {
        assert s[1..] == Text(cs[1..]);
      } else {
        UnitsJoinBack(cs[0]);
        assert s[2..] == Text(cs[1..]);
      }
    }
  }

  lemma {:induction false} TextOfScalars(s: seq<Unit>)
    requires WellFormed(s)
    ensures Text(Scalars(s)) == s
    decreases |s|
  {
    if s != [] {
      if High(s[0]) {
        UnitsJoined(s[0], s[1]);
        TextOfScalars(s[2..]);
        assert s == [s[0], s[1]] + s[2..];
        assert ([Joined(s[0], s[1])] + Scalars(s[2..]))[1..] == Scalars(s[2..]);
      } else {
        TextOfScalars(s[1..]);
        assert s == [s[0]] + s[1..];
        assert ([s[0]] + Scalars(s[1..]))[1..] == Scalars(s[1..]);
      }
    }
  }

  /** What comes back: the text with lone surrogates replaced and a leading mark dropped. */
  function Delivered(s: seq<Unit>): seq<Unit> { Text(WithoutBom(Scalars(s))) }

  lemma DecodeEncode(s: seq<Unit>)
    ensures Decode(Encode(s)) == Some(Delivered(s))
  {
    ScalarsOfUtf8(Scalars(s));
  }

  lemma {:induction false} TextLength(cs: seq<Scalar>)
    ensures |Text(cs)| >= |cs|
    ensures |cs| > 0 ==> |Text(cs)| == |Units(cs[0])| + |Text(cs[1..])|
  {
    if cs != [] { TextLength(cs[1..]); }
  }

  /** Encoding then decoding gives the string back exactly when it has no lone surrogate and does
      not begin with U+FEFF. */
  lemma SurvivesIff(s: seq<Unit>)
    ensures Decode(Encode(s)) == Some(s) <==> WellFormed(s) && !(s != [] && s[0] == BOM)
  {
    DecodeEncode(s);
    var cs := Scalars(s);
    TextIsWellFormed(WithoutBom(cs));
    if WellFormed(s) {
      TextOfScalars(s);
      if s != [] && s[0] == BOM {
        assert cs[0] == BOM;
        TextLength(cs);
        assert |Text(cs[1..])| < |s|;
      }
    }
  }

  // ---------- the encoding itself ----------

  /** A scalar value is written in one to four bytes: the first says how many by its range, the others
      lie between 0x80 and 0xBF, and their low bits are the value's (section 3 of RFC 3629). */
  lemma BytesAreStandard(c: Scalar)
    ensures var b := BytesOf(c);
            if c < 0x80 then b == [c]
            else if c < 0x800 then
              |b| == 2 && 0xC2 <= b[0] < 0xE0 && IsTail(b[1]) && c == (b[0] as int - 0xC0) * 64 + (b[1] as int - 0x80)
            else if c < 0x10000 then
              && |b| == 3 && 0xE0 <= b[0] < 0xF0 && IsTail(b[1]) && IsTail(b[2])
              && c == (b[0] as int - 0xE0) * 4096 + (b[1] as int - 0x80) * 64 + (b[2] as int - 0x80)
            else
              && |b| == 4 && 0xF0 <= b[0] < 0xF5 && IsTail(b[1]) && IsTail(b[2]) && IsTail(b[3])
              && c == (b[0] as int - 0xF0) * 262144 + (b[1] as int - 0x80) * 4096
                      + (b[2] as int - 0x80) * 64 + (b[3] as int - 0x80)
  {
    if 0x80 <= c < 0x800 {
      TwoOf(c);
    } else if 0x800 <= c < 0x10000 {
      ThreeOf(c);
    } else if c >= 0x10000 {
      FourOf(c);
    }
  }

  /** A surrogate pair is the value above 0x10000 its ten bits each make. */
  lemma PairIsStandard(h: Unit, l: Unit)
    requires 0xD800 <= h < 0xDC00 && 0xDC00 <= l < 0xE000
    ensures Scalars([h, l]) == [0x10000 + (h - 0xD800) * 1024 + (l - 0xDC00)]
  {
    assert [h, l][2..] == [];
    assert Scalars([]) == [];
  }
}
