/** The base-64 text in which signatures and ID data travel, as section 4 of
    RFC 4648 defines it (with padding, without line breaks). */
module Base64 {
  import opened Text

  /** The character for a 6-bit group. */
  function Symbol(n: nat): char
    requires n < 64
  {
    if n < 26 then 'A' + n as char
    else if n < 52 then 'a' + (n - 26) as char
    else if n < 62 then '0' + (n - 52) as char
    else if n == 62 then '+' else '/'
  }

  /** The 6-bit group of a character, or 64 for one outside the alphabet. */
  function Group(c: char): (n: nat)
    ensures n <= 64
    ensures n < 64 ==> Symbol(n) == c
  {
    if 'A' <= c <= 'Z' then (c - 'A') as int
    else if 'a' <= c <= 'z' then 26 + (c - 'a') as int
    else if '0' <= c <= '9' then 52 + (c - '0') as int
    else if c == '+' then 62 else if c == '/' then 63 else 64
  }

  /** Four characters for three octets. */
  function Quad(a: byte, b: byte, c: byte): string {
    var x, y, z := a as int, b as int, c as int;
    [Symbol(x / 4), Symbol(x % 4 * 16 + y / 16), Symbol(y % 16 * 4 + z / 64), Symbol(z % 64)]
  }

  function Encode(bs: seq<byte>): string {
    if bs == [] then ""
    else if |bs| == 1 then Quad(bs[0], 0, 0)[..2] + "=="
    else if |bs| == 2 then Quad(bs[0], bs[1], 0)[..3] + "="
    else Quad(bs[0], bs[1], bs[2]) + Encode(bs[3..])
  }

  /** The three octets of four groups. */
  function Octets(p: nat, q: nat, r: nat, s: nat): seq<byte>
    requires p < 64 && q < 64 && r < 64 && s < 64
  {
    [(p * 4 + q / 16) as byte, (q % 16 * 16 + r / 4) as byte, (r % 4 * 64 + s) as byte]
  }

  function Decode(t: string): Option<seq<byte>> {
    if t == "" then Some([])
    else if |t| < 4 || Group(t[0]) == 64 || Group(t[1]) == 64 then None
    else if t[2..] == "==" then Some(Octets(Group(t[0]), Group(t[1]), 0, 0)[..1])
    else if Group(t[2]) == 64 then None
    else if t[3..] == "=" then Some(Octets(Group(t[0]), Group(t[1]), Group(t[2]), 0)[..2])
    else if Group(t[3]) == 64 then None
    else match Decode(t[4..])
      case None => None
      case Some(rest) => Some(Octets(Group(t[0]), Group(t[1]), Group(t[2]), Group(t[3])) + rest)
  }

  lemma GroupOfSymbol(n: nat)
    requires n < 64
    ensures Group(Symbol(n)) == n
  {}

  /** The groups of a quad are the four 6-bit slices of its octets. */
  lemma GroupsOfQuad(a: byte, b: byte, c: byte)
    ensures var q := Quad(a, b, c);
            && Group(q[0]) == a as int / 4 && Group(q[1]) == a as int % 4 * 16 + b as int / 16
            && Group(q[2]) == b as int % 16 * 4 + c as int / 64 && Group(q[3]) == c as int % 64
  {
    var x, y, z := a as int, b as int, c as int;
    GroupOfSymbol(x / 4);
    GroupOfSymbol(x % 4 * 16 + y / 16);
    GroupOfSymbol(y % 16 * 4 + z / 64);
    GroupOfSymbol(z % 64);
  }

  lemma Regroup(n: nat, high: nat, low: nat, unit: nat)
    requires unit in {4, 16, 64} && low < unit && n == high * unit + low
    ensures n / unit == high && n % unit == low
  {}

  lemma OctetsOfGroups(a: byte, b: byte, c: byte)
    ensures Octets(a as int / 4, a as int % 4 * 16 + b as int / 16, b as int % 16 * 4 + c as int / 64, c as int % 64)
         == [a, b, c]
  {
    var x, y, z := a as int, b as int, c as int;
    Regroup(x % 4 * 16 + y / 16, x % 4, y / 16, 16);
    Regroup(y % 16 * 4 + z / 64, y % 16, z / 64, 4);
  }

  lemma RoundTripNone()
    ensures Decode(Encode([])) == Some([])
  {}

  lemma RoundTripOne(a: byte)
    ensures Decode(Encode([a])) == Some([a])
  {
    GroupsOfQuad(a, 0, 0);
    OctetsOfGroups(a, 0, 0);
    var t, q := Encode([a]), Quad(a, 0, 0);
    assert t[2..] == "==" && t[0] == q[0] && t[1] == q[1];
    assert Octets(Group(t[0]), Group(t[1]), 0, 0) == [a, 0, 0];
    assert [a, 0, 0][..1] == [a];
  }

  lemma RoundTripTwo(a: byte, b: byte)
    ensures Decode(Encode([a, b])) == Some([a, b])
  {
    GroupsOfQuad(a, b, 0);
    OctetsOfGroups(a, b, 0);
    var t, q := Encode([a, b]), Quad(a, b, 0);
    assert t[3..] == "=" && t[0] == q[0] && t[1] == q[1] && t[2] == q[2];
    assert t[2..][0] == q[2];
    assert Octets(Group(t[0]), Group(t[1]), Group(t[2]), 0) == [a, b, 0];
    assert [a, b, 0][..2] == [a, b];
  }

  lemma DecodeQuad(a: byte, b: byte, c: byte, rest: string)
    ensures Decode(Quad(a, b, c) + rest) ==
            match Decode(rest) case None => None case Some(bs) => Some([a, b, c] + bs)
  {
    GroupsOfQuad(a, b, c);
    OctetsOfGroups(a, b, c);
    var t, q := Quad(a, b, c) + rest, Quad(a, b, c);
    assert t[0] == q[0] && t[1] == q[1] && t[2] == q[2] && t[3] == q[3];
    assert t[2..][0] == q[2] && t[3..][0] == q[3] && t[4..] == rest;
  }

  lemma RoundTripStep(a: byte, b: byte, c: byte, rest: seq<byte>)
    requires Decode(Encode(rest)) == Some(rest)
    ensures Decode(Encode([a, b, c] + rest)) == Some([a, b, c] + rest)
  {
    var bs := [a, b, c] + rest;
    assert bs[3..] == rest && bs[0] == a && bs[1] == b && bs[2] == c;
    assert Encode(bs) == Quad(a, b, c) + Encode(rest);
    DecodeQuad(a, b, c, Encode(rest));
  }

  lemma {:induction false} RoundTrip(bs: seq<byte>)
    ensures Decode(Encode(bs)) == Some(bs)
  {
    hide Encode; hide Decode;
    if bs == [] {
      RoundTripNone();
    } else if |bs| == 1 {
      assert bs == [bs[0]];
      RoundTripOne(bs[0]);
    } else if |bs| == 2 {
      assert bs == [bs[0], bs[1]];
      RoundTripTwo(bs[0], bs[1]);
    } else {
      RoundTrip(bs[3..]);
      RoundTripStep(bs[0], bs[1], bs[2], bs[3..]);
      assert bs == [bs[0], bs[1], bs[2]] + bs[3..];
    }
  }

  /** The alphabet of section 4 of RFC 4648: the capitals, the small letters, the digits, `+` and `/`. */
  lemma {:induction false} Alphabet(n: nat)
    ensures Symbol(0) == 'A' && Symbol(25) == 'Z' && Symbol(26) == 'a' && Symbol(51) == 'z'
    ensures Symbol(52) == '0' && Symbol(61) == '9' && Symbol(62) == '+' && Symbol(63) == '/'
    ensures n < 61 && n != 25 && n != 51 ==> Symbol(n + 1) == Symbol(n) + 1 as char
  {}

  /** The bytes of a text of ASCII characters. */
  function Ascii(s: string): seq<byte>
    requires forall i :: 0 <= i < |s| ==> s[i] < 128 as char
  {
    seq(|s|, i requires 0 <= i < |s| => s[i] as byte)
  }

  /** The test vectors of section 10 of RFC 4648. */
  lemma {:induction false} TestVectors()
    ensures Encode(Ascii("")) == "" && Encode(Ascii("f")) == "Zg==" && Encode(Ascii("fo")) == "Zm8="
    ensures Encode(Ascii("foo")) == "Zm9v" && Encode(Ascii("foob")) == "Zm9vYg=="
    ensures Encode(Ascii("fooba")) == "Zm9vYmE=" && Encode(Ascii("foobar")) == "Zm9vYmFy"
  {
    hide Encode; hide Quad;
    Short(102, 111);
    Short(98, 97);
    assert Quad(102, 0, 0)[..2] == "Zg" && Quad(102, 111, 0)[..3] == "Zm8" && Quad(102, 111, 111) == "Zm9v" by {
      Quads();
    }
    assert Quad(98, 0, 0)[..2] == "Yg" && Quad(98, 97, 0)[..3] == "YmE" && Quad(98, 97, 114) == "YmFy" by { Quads(); }
    Foo([]);
    Foo([98]);
    Foo([98, 97]);
    Foo([98, 97, 114]);
    EncodeGroup(98, 97, 114, []);
    assert Ascii("") == [] && Ascii("f") == [102] && Ascii("fo") == [102, 111] && Ascii("foo") == [102, 111, 111] + [];
    assert Ascii("foob") == [102, 111, 111] + [98] && Ascii("fooba") == [102, 111, 111] + [98, 97];
    assert Ascii("foobar") == [102, 111, 111] + [98, 97, 114] && [98, 97, 114] == [98, 97, 114] + [];
  }

  lemma Quads()
    ensures Quad(102, 0, 0) == "ZgAA" && Quad(102, 111, 0) == "Zm8A" && Quad(102, 111, 111) == "Zm9v"
    ensures Quad(98, 0, 0) == "YgAA" && Quad(98, 97, 0) == "YmEA" && Quad(98, 97, 114) == "YmFy"
  {}

  lemma Short(a: byte, b: byte)
    ensures Encode([]) == "" && Encode([a]) == Quad(a, 0, 0)[..2] + "=="
    ensures Encode([a, b]) == Quad(a, b, 0)[..3] + "="
  {
    hide Quad;
  }

  lemma EncodeGroup(a: byte, b: byte, c: byte, rest: seq<byte>)
    ensures Encode([a, b, c] + rest) == Quad(a, b, c) + Encode(rest)
  {
    hide Quad;
    assert ([a, b, c] + rest)[3..] == rest;
  }

  lemma Foo(rest: seq<byte>)
    ensures Encode([102, 111, 111] + rest) == "Zm9v" + Encode(rest)
  {
    hide Encode;
    Quads();
    EncodeGroup(102, 111, 111, rest);
  }

  predicate IsSymbol(c: char) {
    'A' <= c <= 'Z' || 'a' <= c <= 'z' || '0' <= c <= '9' || c == '+' || c == '/'
  }

  predicate AllSymbols(s: string) { forall i :: 0 <= i < |s| ==> IsSymbol(s[i]) }

  /** Whole groups of four characters, of which the last may end in one or two pad characters. */
  predicate WellFormed(t: string) {
    var n := |t|;
    && n % 4 == 0
    && (|| AllSymbols(t)
        || (n >= 4 && AllSymbols(t[..n - 1]) && t[n - 1] == '=')
        || (n >= 4 && AllSymbols(t[..n - 2]) && t[n - 2..] == "=="))
  }

  lemma WellFormedGroup(t: string)
    requires |t| > 4
    ensures WellFormed(t) <==> AllSymbols(t[..4]) && WellFormed(t[4..])
  {
    hide AllSymbols;
    var n, u := |t|, t[4..];
    assert u[..|u|] == u && t[..n] == t;
    AllSymbolsSplit(t, n);
    if n >= 8 {
      AllSymbolsSplit(t, n - 1);
      AllSymbolsSplit(t, n - 2);
      assert t[n - 2..] == u[|u| - 2..] && t[n - 1] == u[|u| - 1];
    }
  }

  lemma AllSymbolsSplit(t: string, k: nat)
    requires 4 <= k <= |t|
    ensures AllSymbols(t[..k]) <==> AllSymbols(t[..4]) && AllSymbols(t[4..][..k - 4])
  {
    assert t[..k] == t[..4] + t[4..][..k - 4];
    AllSymbolsAppend(t[..4], t[4..][..k - 4]);
  }

  lemma AllSymbolsAppend(a: string, b: string)
    ensures AllSymbols(a + b) <==> AllSymbols(a) && AllSymbols(b)
  {
    if AllSymbols(a + b) {
      forall i | 0 <= i < |a| ensures IsSymbol(a[i]) { assert a[i] == (a + b)[i]; }
      forall i | 0 <= i < |b| ensures IsSymbol(b[i]) { assert b[i] == (a + b)[|a| + i]; }
    }
  }

  /** Exactly the well-formed texts can be decoded. */
  lemma {:induction false} DecodableIff(t: string)
    ensures Decode(t).Some? <==> WellFormed(t)
  {
    if |t| <= 4 {
      DecodableGroup(t);
    } else {
      DecodableIff(t[4..]);
      WellFormedGroup(t);
      DecodesOn(t);
    }
  }

  lemma DecodableGroup(t: string)
    requires |t| <= 4
    ensures Decode(t).Some? <==> WellFormed(t)
  {
    hide Octets; hide Group; hide IsSymbol;
    if |t| == 4 {
      assert Decode(t[4..]) == Some([]);
      var a, b, c, d := t[0], t[1], t[2], t[3];
      assert t == [a, b, c, d] && t[2..] == [c, d] && t[3..] == [d] && t[..3] == [a, b, c] && t[..2] == [a, b];
      GroupOrNot(a);
      GroupOrNot(b);
      GroupOrNot(c);
      GroupOrNot(d);
      PadIsNoSymbol();
      assert AllSymbols(t) <==> IsSymbol(a) && IsSymbol(b) && IsSymbol(c) && IsSymbol(d);
      assert AllSymbols([a, b, c]) <==> IsSymbol(a) && IsSymbol(b) && IsSymbol(c);
      assert AllSymbols([a, b]) <==> IsSymbol(a) && IsSymbol(b);
    }
  }

  lemma GroupOrNot(c: char)
    ensures Group(c) == 64 <==> !IsSymbol(c)
  {}

  lemma PadIsNoSymbol()
    ensures !IsSymbol('=')
  {}

  lemma DecodesOn(t: string)
    requires |t| > 4
    ensures Decode(t).Some? <==> AllSymbols(t[..4]) && Decode(t[4..]).Some?
  {
    hide Octets; hide Group; hide IsSymbol;
    var g := t[..4];
    assert g[0] == t[0] && g[1] == t[1] && g[2] == t[2] && g[3] == t[3];
    assert |t[2..]| > 2 && |t[3..]| > 1;
    GroupOrNot(t[0]);
    GroupOrNot(t[1]);
    GroupOrNot(t[2]);
    GroupOrNot(t[3]);
    assert AllSymbols(g) <==> IsSymbol(g[0]) && IsSymbol(g[1]) && IsSymbol(g[2]) && IsSymbol(g[3]);
  }
}
