/** Unpadded base64url over the browser's btoa and atob (section 5 of RFC 4648). */
module Base64 {
  import opened Common

  type Byte = b: nat | b < 256
  type Sextet = v: nat | v < 64

  // ---------- bytes and sextets ----------

  function Pack(b: seq<Byte>): seq<Sextet> {
    if |b| == 0 then []
    else if |b| == 1 then [b[0] / 4, b[0] % 4 * 16]
    else if |b| == 2 then [b[0] / 4, b[0] % 4 * 16 + b[1] / 16, b[1] % 16 * 4]
    else [b[0] / 4, b[0] % 4 * 16 + b[1] / 16, b[1] % 16 * 4 + b[2] / 64, b[2] % 64] + Pack(b[3..])
  }

  function First(a: Sextet, b: Sextet): Byte { a * 4 + b / 16 }

  function Second(b: Sextet, c: Sextet): Byte { b % 16 * 16 + c / 4 }

  function Third(c: Sextet, d: Sextet): Byte { c % 4 * 64 + d }

  /** Left-over bits of a short last group are dropped. */
  function Unpack(v: seq<Sextet>): seq<Byte> {
    if |v| <= 1 then []
    else if |v| == 2 then [First(v[0], v[1])]
    else if |v| == 3 then [First(v[0], v[1]), Second(v[1], v[2])]
    else [First(v[0], v[1]), Second(v[1], v[2]), Third(v[2], v[3])] + Unpack(v[4..])
  }

  lemma {:induction false} UnpackPack(b: seq<Byte>)
    ensures Unpack(Pack(b)) == b
    ensures |Pack(b)| == (4 * |b| + 2) / 3 && |Pack(b)| % 4 != 1
  {
    if |b| >= 3 {
      UnpackPack(b[3..]);
      assert Pack(b)[4..] == Pack(b[3..]);
      assert b == [b[0], b[1], b[2]] + b[3..];
    }
  }

  /** The bits a short last group carries beyond whole bytes. */
  predicate NoLooseBits(v: seq<Sextet>) {
    && (|v| % 4 == 2 ==> v[|v| - 1] % 16 == 0)
    && (|v| % 4 == 3 ==> v[|v| - 1] % 4 == 0)
  }

  lemma Regroup(a: Sextet, b: Sextet, c: Sextet, d: Sextet)
    ensures var x, y, z := First(a, b), Second(b, c), Third(c, d);
            x / 4 == a && x % 4 * 16 + y / 16 == b && y % 16 * 4 + z / 64 == c && z % 64 == d
  {}

  lemma LooseBitsAreLast(v: seq<Sextet>)
    requires |v| >= 4
    ensures NoLooseBits(v) <==> NoLooseBits(v[4..])
  {
    assert |v[4..]| % 4 == |v| % 4;
    if |v| % 4 >= 2 { assert |v| > 4 && v[4..][|v| - 5] == v[|v| - 1]; }
  }

  lemma RegroupTwo(a: Sextet, b: Sextet)
    ensures var x := First(a, b); x / 4 == a && (x % 4 * 16 == b <==> b % 16 == 0)
  {}

  lemma RegroupThree(a: Sextet, b: Sextet, c: Sextet)
    ensures var x, y := First(a, b), Second(b, c);
            x / 4 == a && x % 4 * 16 + y / 16 == b && (y % 16 * 4 == c <==> c % 4 == 0)
  {}

  function Group(x: Byte, y: Byte, z: Byte): seq<Sextet> {
    [x / 4, x % 4 * 16 + y / 16, y % 16 * 4 + z / 64, z % 64]
  }

  lemma PackThree(x: Byte, y: Byte, z: Byte, rest: seq<Byte>)
    ensures Pack([x, y, z] + rest) == Group(x, y, z) + Pack(rest)
  {
    var b := [x, y, z] + rest;
    assert b[0] == x && b[1] == y && b[2] == z && b[3..] == rest;
  }

  lemma GroupBack(a: Sextet, b: Sextet, c: Sextet, d: Sextet)
    ensures Group(First(a, b), Second(b, c), Third(c, d)) == [a, b, c, d]
  {
    Regroup(a, b, c, d);
  }

  lemma ShortTwo(a: Sextet, b: Sextet)
    ensures Pack([First(a, b)]) == [a, b] <==> b % 16 == 0
  {
    var x := First(a, b);
    RegroupTwo(a, b);
    assert Pack([x]) == [x / 4, x % 4 * 16];
  }

  lemma ShortThree(a: Sextet, b: Sextet, c: Sextet)
    ensures Pack([First(a, b), Second(b, c)]) == [a, b, c] <==> c % 4 == 0
  {
    var x, y := First(a, b), Second(b, c);
    RegroupThree(a, b, c);
    var p := Pack([x, y]);
    assert p == [x / 4, x % 4 * 16 + y / 16, y % 16 * 4];
    assert p[0] == a && p[1] == b && p[2] == y % 16 * 4;
  }

  lemma UnpackGroup(v: seq<Sextet>) returns (x: Byte, y: Byte, z: Byte)
    requires |v| >= 4
    ensures Unpack(v) == [x, y, z] + Unpack(v[4..]) && Group(x, y, z) == v[..4]
  {
    x, y, z := First(v[0], v[1]), Second(v[1], v[2]), Third(v[2], v[3]);
    GroupBack(v[0], v[1], v[2], v[3]);
    assert v[..4] == [v[0], v[1], v[2], v[3]];
  }

  lemma PackUnpackGroup(v: seq<Sextet>)
    requires |v| >= 4
    ensures Pack(Unpack(v)) == v[..4] + Pack(Unpack(v[4..]))
  {
    var x, y, z := UnpackGroup(v);
    PackThree(x, y, z, Unpack(v[4..]));
  }

  lemma {:induction false} PackUnpackIff(v: seq<Sextet>)
    requires |v| % 4 != 1
    ensures Pack(Unpack(v)) == v <==> NoLooseBits(v)
    decreases |v|
  {
    if |v| == 2 {
      ShortTwo(v[0], v[1]);
      assert v == [v[0], v[1]];
    } else if |v| == 3 {
      ShortThree(v[0], v[1], v[2]);
      assert v == [v[0], v[1], v[2]];
    } else if |v| >= 4 {
      LooseBitsAreLast(v);
      PackUnpackIff(v[4..]);
      PackUnpackGroup(v);
      SameTail(v[..4], Pack(Unpack(v[4..])), v[4..]);
      assert v == v[..4] + v[4..];
    }
  }

  lemma SameTail(lead: seq<Sextet>, a: seq<Sextet>, b: seq<Sextet>)
    ensures lead + a == lead + b <==> a == b
  {
    assert (lead + a)[|lead|..] == a && (lead + b)[|lead|..] == b;
  }

  // ---------- the alphabet ----------

  function Symbol(v: Sextet): char {
    if v < 26 then 'A' + v as char
    else if v < 52 then 'a' + (v - 26) as char
    else if v < 62 then '0' + (v - 52) as char
    else if v == 62 then '+' else '/'
  }

  function Value(c: char): Option<Sextet> {
    if 'A' <= c <= 'Z' then Some(c as int - 'A' as int)
    else if 'a' <= c <= 'z' then Some(c as int - 'a' as int + 26)
    else if '0' <= c <= '9' then Some(c as int - '0' as int + 52)
    else if c == '+' then Some(62)
    else if c == '/' then Some(63)
    else None
  }

  lemma ValueOfSymbol(v: Sextet)
    ensures Value(Symbol(v)) == Some(v)
  {}

  function Symbols(v: seq<Sextet>): string { seq(|v|, i requires 0 <= i < |v| => Symbol(v[i])) }

  predicate AllSymbols(s: string) { forall i :: 0 <= i < |s| ==> Value(s[i]).Some? }

  function Values(s: string): seq<Sextet>
    requires AllSymbols(s)
  {
    seq(|s|, i requires 0 <= i < |s| => Value(s[i]).value)
  }

  lemma ValuesOfSymbols(v: seq<Sextet>)
    ensures AllSymbols(Symbols(v)) && Values(Symbols(v)) == v
  {
    forall i | 0 <= i < |v| ensures Value(Symbols(v)[i]) == Some(v[i]) { ValueOfSymbol(v[i]); }
  }

  // ---------- the browser's btoa and atob, on binary strings ----------

  predicate Binary(bin: string) { forall i :: 0 <= i < |bin| ==> bin[i] as int < 256 }

  function Codes(bin: string): seq<Byte>
    requires Binary(bin)
  {
    seq(|bin|, i requires 0 <= i < |bin| => bin[i] as int)
  }

  function Chars(b: seq<Byte>): (bin: string)
    ensures Binary(bin) && Codes(bin) == b
  {
    seq(|b|, i requires 0 <= i < |b| => b[i] as char)
  }

  function Padding(n: nat): string { if n % 4 == 2 then "==" else if n % 4 == 3 then "=" else "" }

  function Btoa(bin: string): string
    requires Binary(bin)
  {
    var v := Pack(Codes(bin));
    Symbols(v) + Padding(|v|)
  }

  predicate Blank(c: char) { c == ' ' || c == '\t' || c == '\n' || c == 12 as char || c == '\r' }

  function WithoutBlanks(s: string): string {
    if s == "" then "" else (if Blank(s[0]) then "" else [s[0]]) + WithoutBlanks(s[1..])
  }

  /** At most two padding signs, and only on a whole number of groups. */
  function Unpadded(s: string): string {
    if |s| % 4 == 0 && |s| >= 2 && s[|s| - 2..] == "==" then s[..|s| - 2]
    else if |s| % 4 == 0 && |s| >= 1 && s[|s| - 1] == '=' then s[..|s| - 1]
    else s
  }

  function Atob(s: string): (r: Option<string>)
    ensures r.Some? ==> Binary(r.value)
  {
    var core := Unpadded(WithoutBlanks(s));
    if |core| % 4 == 1 || !AllSymbols(core) then None else Some(Chars(Unpack(Values(core))))
  }

  // ---------- base64url ----------

  function Replace(s: string, from: char, to: char): string {
    seq(|s|, i requires 0 <= i < |s| => if s[i] == from then to else s[i])
  }

  function StripPadding(s: string): string {
    if s != "" && s[|s| - 1] == '=' then StripPadding(s[..|s| - 1]) else s
  }

  function Repeat(c: char, n: nat): string { seq(n, i => c) }

  function Encode(b: seq<Byte>): string {
    StripPadding(Replace(Replace(Btoa(Chars(b)), '+', '-'), '/', '_'))
  }

  function Repad(url: string): string {
    var b64 := Replace(Replace(url, '-', '+'), '_', '/');
    b64 + if |b64| % 4 == 0 then "" else Repeat('=', 4 - |b64| % 4)
  }

  function Decode(url: string): Option<seq<Byte>> {
    var bin := Atob(Repad(url));
    if bin.Some? then Some(Codes(bin.value)) else None
  }

  /** bytesToBase64url: builds the binary string byte by byte. */
  method BytesToBase64url(bytes: array<Byte>) returns (url: string)
    ensures url == Encode(bytes[..])
  {
    var bin := "";
    for i := 0 to bytes.Length
      invariant bin == Chars(bytes[..i])
    {
      bin := bin + [bytes[i] as char];
    }
    assert bytes[..bytes.Length] == bytes[..];
    url := StripPadding(Replace(Replace(Btoa(bin), '+', '-'), '/', '_'));
  }

  /** base64urlToBytes: None is the exception atob throws. */
  method Base64urlToBytes(url: string) returns (bytes: Option<array<Byte>>)
    ensures bytes.Some? <==> Decode(url).Some?
    ensures bytes.Some? ==> fresh(bytes.value) && bytes.value[..] == Decode(url).value
  {
    var bin := Atob(Repad(url));
    if bin.None? { return None; }
    var out := new Byte[|bin.value|];
    for i := 0 to |bin.value|
      invariant forall j :: 0 <= j < i ==> out[j] == bin.value[j] as int
    {
      out[i] := bin.value[i] as int;
    }
    assert out[..] == Codes(bin.value);
    bytes := Some(out);
  }

  /** concatBytes. */
  method ConcatBytes(a: array<Byte>, b: array<Byte>) returns (out: array<Byte>)
    ensures fresh(out) && out[..] == a[..] + b[..]
  {
    out := new Byte[a.Length + b.Length];
    for i := 0 to a.Length
      invariant forall j :: 0 <= j < i ==> out[j] == a[j]
    {
      out[i] := a[i];
    }
    for i := 0 to b.Length
      invariant forall j :: 0 <= j < a.Length ==> out[j] == a[j]
      invariant forall j :: 0 <= j < i ==> out[a.Length + j] == b[j]
    {
      out[a.Length + i] := b[i];
    }
    forall j | 0 <= j < |out[..]| ensures out[..][j] == (a[..] + b[..])[j] {
      assert j >= a.Length ==> out[a.Length + (j - a.Length)] == b[j - a.Length];
    }
  }

  // ---------- what encoding produces ----------

  predicate UrlSafe(c: char) { 'A' <= c <= 'Z' || 'a' <= c <= 'z' || '0' <= c <= '9' || c == '-' || c == '_' }

  predicate AllUrlSafe(s: string) { forall i :: 0 <= i < |s| ==> UrlSafe(s[i]) }

  function UrlSymbols(v: seq<Sextet>): string { Replace(Replace(Symbols(v), '+', '-'), '/', '_') }

  lemma UrlSymbolsAreSafe(v: seq<Sextet>)
    ensures AllUrlSafe(UrlSymbols(v)) && Replace(Replace(UrlSymbols(v), '-', '+'), '_', '/') == Symbols(v)
  {
    ValuesOfSymbols(v);
    assert forall i :: 0 <= i < |v| ==> Value(Symbols(v)[i]).Some?;
  }

  lemma {:induction false} StripSafe(s: string, n: nat)
    requires s == "" || s[|s| - 1] != '='
    ensures StripPadding(s + Repeat('=', n)) == s
    decreases n
  {
    if n == 0 {
      assert s + Repeat('=', 0) == s;
    } else {
      var t := s + Repeat('=', n);
      assert t[|t| - 1] == '=' && t[..|t| - 1] == s + Repeat('=', n - 1);
      StripSafe(s, n - 1);
    }
  }

  /** Encoding is the sextets in the URL-safe alphabet, with no padding. */
  lemma EncodeIsSymbols(b: seq<Byte>)
    ensures Encode(b) == UrlSymbols(Pack(b))
  {
    var v := Pack(b);
    var pad := Padding(|v|);
    UnpackPack(b);
    assert pad == Repeat('=', |pad|);
    assert Replace(Replace(Symbols(v) + pad, '+', '-'), '/', '_') == UrlSymbols(v) + pad;
    UrlSymbolsAreSafe(v);
    StripSafe(UrlSymbols(v), |pad|);
  }

  // ---------- what decoding accepts ----------

  lemma {:induction false} NoBlanks(s: string)
    requires forall i :: 0 <= i < |s| ==> !Blank(s[i])
    ensures WithoutBlanks(s) == s
  {
    if s != "" {
      NoBlanks(s[1..]);
      assert s == [s[0]] + s[1..];
    }
  }

  lemma RepadStripped(s: string, n: nat)
    requires AllSymbols(s) && |s| % 4 != 1 && n == (4 - |s| % 4) % 4
    ensures Unpadded(s + Repeat('=', n)) == s
  {
    var t := s + Repeat('=', n);
    if n == 1 {
      assert t[|t| - 1] == '=' && t[..|t| - 1] == s;
      assert t[|t| - 2] == s[|s| - 1] != '=';
    } else if n == 2 {
      assert t[|t| - 2..] == "==" && t[..|t| - 2] == s;
    } else {
      assert t == s;
      if s != "" { assert s[|s| - 1] != '=' && s[|s| - 2..][1] == s[|s| - 1]; }
    }
  }

  lemma TooManySigns(s: string)
    requires AllSymbols(s) && |s| % 4 == 1
    ensures !AllSymbols(Unpadded(s + Repeat('=', 3)))
  {
    var t := s + Repeat('=', 3);
    assert t[|t| - 2..] == "==" && t[|t| - 3] == '=' && t[|s|] == '=';
    assert Unpadded(t)[|s|] == '=';
  }

  lemma PaddedHasNoBlanks(s: string, n: nat)
    requires AllSymbols(s)
    ensures WithoutBlanks(s + Repeat('=', n)) == s + Repeat('=', n)
  {
    var t := s + Repeat('=', n);
    forall i | 0 <= i < |t| ensures !Blank(t[i]) {
      assert i < |s| ==> Value(s[i]).Some?;
    }
    NoBlanks(t);
  }

  /** What atob makes of symbols with the padding put back. */
  lemma AtobRepadded(s: string, n: nat)
    requires AllSymbols(s) && n == (4 - |s| % 4) % 4
    ensures Atob(s + Repeat('=', n)) == if |s| % 4 == 1 then None else Some(Chars(Unpack(Values(s))))
  {
    PaddedHasNoBlanks(s, n);
    if |s| % 4 == 1 {
      TooManySigns(s);
    } else {
      RepadStripped(s, n);
    }
  }

  lemma RepadSymbols(v: seq<Sextet>)
    ensures Repad(UrlSymbols(v)) == Symbols(v) + Repeat('=', (4 - |v| % 4) % 4)
  {
    UrlSymbolsAreSafe(v);
    assert Repeat('=', 0) == "";
  }

  /** A URL-safe string decodes unless it is one character over whole groups, and then to the
      bytes its sextets pack; the dropped padding is never missed. */
  lemma DecodeUrlSafe(v: seq<Sextet>)
    ensures Decode(UrlSymbols(v)) == if |v| % 4 == 1 then None else Some(Unpack(v))
  {
    RepadSymbols(v);
    ValuesOfSymbols(v);
    AtobRepadded(Symbols(v), (4 - |v| % 4) % 4);
  }

  /** Decoding inverts encoding for every byte string. */
  lemma DecodeEncode(b: seq<Byte>)
    ensures Decode(Encode(b)) == Some(b)
  {
    EncodeIsSymbols(b);
    UnpackPack(b);
    DecodeUrlSafe(Pack(b));
  }

  lemma EncodeIsUrlSafe(b: seq<Byte>)
    ensures AllUrlSafe(Encode(b)) && |Encode(b)| == (4 * |b| + 2) / 3
  {
    EncodeIsSymbols(b);
    UnpackPack(b);
    UrlSymbolsAreSafe(Pack(b));
  }

  /** The other way round: a decodable URL-safe string is what its bytes encode to exactly when
      the loose bits of its last character are zero. */
  lemma EncodeDecodeIff(v: seq<Sextet>)
    requires |v| % 4 != 1
    ensures Encode(Unpack(v)) == UrlSymbols(v) <==> NoLooseBits(v)
  {
    var b := Unpack(v);
    EncodeIsSymbols(b);
    PackUnpackIff(v);
    if UrlSymbols(Pack(b)) == UrlSymbols(v) {
      UrlSymbolsAreSafe(v);
      UrlSymbolsAreSafe(Pack(b));
      ValuesOfSymbols(v);
      ValuesOfSymbols(Pack(b));
    }
  }

  // ---------- the encoding itself ----------

  /** The alphabet of the standard (section 4 of RFC 4648): A to Z, a to z, 0 to 9, + and /, of which
      the last two become - and _ here (section 5). */
  lemma SymbolsAreStandard(v: Sextet)
    ensures Symbol(0) == 'A' && Symbol(25) == 'Z' && Symbol(26) == 'a' && Symbol(51) == 'z'
    ensures Symbol(52) == '0' && Symbol(61) == '9' && Symbol(62) == '+' && Symbol(63) == '/'
    ensures v < 61 && v != 25 && v != 51 ==> Symbol(v + 1) as int == Symbol(v) as int + 1
    ensures UrlSymbols([v]) == [if v == 62 then '-' else if v == 63 then '_' else Symbol(v)]
  {
    assert Replace(Replace(Symbols([v]), '+', '-'), '/', '_') ==
           [if v == 62 then '-' else if v == 63 then '_' else Symbol(v)];
  }

  function Number(g: seq<Sextet>): int
    requires |g| == 4
  {
    g[0] as int * 262144 + g[1] as int * 4096 + g[2] as int * 64 + g[3] as int
  }

  /** Three bytes and their four sextets are the same 24-bit number, first byte and sextet highest. */
  lemma GroupIsTheSameNumber(x: Byte, y: Byte, z: Byte)
    ensures Number(Group(x, y, z)) == x as int * 65536 + y as int * 256 + z as int
  {
    var p, q, r: int := x, y, z;
    assert p / 4 * 262144 + (p % 4 * 16 + q / 16) * 4096 + (q % 16 * 4 + r / 64) * 64 + r % 64 ==
           p * 65536 + q * 256 + r;
  }

  /** A last byte or two are the group they would begin with zero bytes after, without its filler. */
  lemma LastGroupIsCutShort(x: Byte, y: Byte)
    ensures Pack([x]) == Group(x, 0, 0)[..2] && Pack([x, y]) == Group(x, y, 0)[..3]
  {}

  /** Of strings without blanks and padding signs exactly those decode whose characters are all of the
      standard or the URL-safe alphabet and whose length is not 1 over a multiple of 4. */
  lemma DecodesIff(url: string)
    requires forall i :: 0 <= i < |url| ==> !Blank(url[i]) && url[i] != '='
    ensures Decode(url).Some? <==>
            |url| % 4 != 1 && forall i :: 0 <= i < |url| ==> UrlSafe(url[i]) || url[i] == '+' || url[i] == '/'
  {
    var s, n := Replace(Replace(url, '-', '+'), '_', '/'), (4 - |url| % 4) % 4;
    assert Repeat('=', 0) == "" && s + "" == s;
    assert Repad(url) == s + Repeat('=', n);
    if AllSymbols(s) {
      AtobRepadded(s, n);
      forall i | 0 <= i < |url| ensures UrlSafe(url[i]) || url[i] == '+' || url[i] == '/' { assert Value(s[i]).Some?; }
    } else {
      var i :| 0 <= i < |s| && Value(s[i]).None?;
      BadCharacterStays(s, n, i);
      assert !(UrlSafe(url[i]) || url[i] == '+' || url[i] == '/');
    }
  }

  lemma BadCharacterStays(s: string, n: nat, i: nat)
    requires i < |s| && Value(s[i]).None? && n <= 3
    requires forall j :: 0 <= j < |s| ==> !Blank(s[j]) && s[j] != '='
    ensures Atob(s + Repeat('=', n)) == None
  {
    var t := s + Repeat('=', n);
    NoBlanks(t);
    var core := Unpadded(t);
    assert t[i] == s[i];
    assert |core| > i && core[i] == t[i];
  }
}
