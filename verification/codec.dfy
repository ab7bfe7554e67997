/**
 The codecs of the descriptor: base64url and base32 of RFC 4648 without padding, and a CRC-8. Bytes and sextets are
 bit vectors of eight bits here, as the source shifts and masks them.
 */
module Codec {
  import opened Options

  // ---- the base64url alphabet -----------------------------------------------

  const UPPER: string := "ABCDEFGHIJKLMNOPQRSTUVWXYZ"
  const LOWER: string := "abcdefghijklmnopqrstuvwxyz"
  const DIGITS: string := "0123456789"
  const B64URL: string := UPPER + LOWER + DIGITS + "-_"

  function Symbol(x: bv8): char
    requires x < 64
  {
    assert (x as int) < 64;
    B64URL[x as int]
  }

  /** The value of a symbol, or -1. */
  function SymbolIndex(c: char): (v: int)
    ensures -1 <= v < 64
  {
    if 'A' <= c <= 'Z' then c as int - 'A' as int
    else if 'a' <= c <= 'z' then c as int - 'a' as int + 26
    else if '0' <= c <= '9' then c as int - '0' as int + 52
    else if c == '-' then 62
    else if c == '_' then 63
    else -1
  }

  lemma UpperRuns(k: int)
    requires 0 <= k < 26
    ensures UPPER[k] as int == 'A' as int + k
  {
  }

  lemma LowerRuns(k: int)
    requires 0 <= k < 26
    ensures LOWER[k] as int == 'a' as int + k
  {
  }

  lemma DigitsRun(k: int)
    requires 0 <= k < 10
    ensures DIGITS[k] as int == '0' as int + k
  {
  }

  lemma SymbolIsIndexed(i: int)
    requires 0 <= i < 64
    ensures SymbolIndex(B64URL[i]) == i
  {
    if i < 26 {
      UpperRuns(i);
    } else if i < 52 {
      LowerRuns(i - 26);
    } else if i < 62 {
      DigitsRun(i - 52);
    }
  }

  lemma IndexIsSymbol(c: char)
    requires SymbolIndex(c) >= 0
    ensures B64URL[SymbolIndex(c)] == c
  {
    SymbolIsIndexed(SymbolIndex(c));
    SameIndex(c, B64URL[SymbolIndex(c)]);
  }

  lemma SameIndex(c: char, d: char)
    requires SymbolIndex(c) == SymbolIndex(d) >= 0
    ensures c == d
  {
    assert c as int == d as int;
  }

  function Sextet(c: char): bv8
    requires SymbolIndex(c) >= 0
  {
    SymbolIndex(c) as bv8
  }

  lemma SextetOfSymbol(x: bv8)
    requires x < 64
    ensures SymbolIndex(Symbol(x)) >= 0 && Sextet(Symbol(x)) == x
  {
    SymbolIsIndexed(x as int);
    assert (x as int) as bv8 == x;
  }

  lemma SymbolOfSextet(c: char)
    requires SymbolIndex(c) >= 0
    ensures Sextet(c) < 64 && Symbol(Sextet(c)) == c
  {
    IndexIsSymbol(c);
    IndexRoundTrip(SymbolIndex(c));
  }

  lemma IndexRoundTrip(n: int)
    requires 0 <= n < 64
    ensures (n as bv8) < 64 && (n as bv8) as int == n
  {
    IntComesBack(n);
    BelowAsInt(n as bv8);
  }

  lemma IntComesBack(n: int)
    requires 0 <= n < 64
    ensures (n as bv8) as int == n
  {
  }

  lemma BelowAsInt(b: bv8)
    requires b as int < 64
    ensures b < 64
  {
  }

  // ---- groups -----------------------------------------------------------------

  /** Three bytes as four sextets. */
  function Split(a: bv8, b: bv8, c: bv8): (r: (bv8, bv8, bv8, bv8))
    ensures r.0 < 64 && r.1 < 64 && r.2 < 64 && r.3 < 64
  {
    var v: bv32 := (a as bv32 << 16) | (b as bv32 << 8) | c as bv32;
    (((v >> 18) & 0x3f) as bv8, ((v >> 12) & 0x3f) as bv8, ((v >> 6) & 0x3f) as bv8, (v & 0x3f) as bv8)
  }

  /** Four sextets as three bytes. */
  function Join(w: bv8, x: bv8, y: bv8, z: bv8): (bv8, bv8, bv8) {
    var v: bv32 := (w as bv32 << 18) | (x as bv32 << 12) | (y as bv32 << 6) | z as bv32;
    (((v >> 16) & 0xff) as bv8, ((v >> 8) & 0xff) as bv8, (v & 0xff) as bv8)
  }

  lemma JoinSplit(a: bv8, b: bv8, c: bv8)
    ensures var (w, x, y, z) := Split(a, b, c); Join(w, x, y, z) == (a, b, c)
  {
  }

  lemma SplitJoin(w: bv8, x: bv8, y: bv8, z: bv8)
    requires w < 64 && x < 64 && y < 64 && z < 64
    ensures var (a, b, c) := Join(w, x, y, z); Split(a, b, c) == (w, x, y, z)
  {
  }

  function Quad(a: bv8, b: bv8, c: bv8): (q: seq<char>)
    ensures |q| == 4
  {
    var (w, x, y, z) := Split(a, b, c);
    [Symbol(w), Symbol(x), Symbol(y), Symbol(z)]
  }

  // ---- the encoding -------------------------------------------------------------

  function EncodedLen(n: nat): nat {
    n / 3 * 4 + if n % 3 == 0 then 0 else n % 3 + 1
  }

  function DecodedLen(n: nat): nat {
    n / 4 * 3 + if n % 4 == 2 then 1 else if n % 4 == 3 then 2 else 0
  }

  function Base64Url(d: seq<bv8>): (t: seq<char>)
    ensures |t| == EncodedLen(|d|)
  {
    if d == [] then []
    else if |d| == 1 then Quad(d[0], 0, 0)[..2]
    else if |d| == 2 then Quad(d[0], d[1], 0)[..3]
    else Quad(d[0], d[1], d[2]) + Base64Url(d[3..])
  }

  predicate Valid(t: seq<char>) {
    forall c <- t :: SymbolIndex(c) >= 0
  }

  function Triple(t: seq<char>): (bv8, bv8, bv8)
    requires |t| >= 4 && Valid(t[..4])
  {
    Join(Sextet(t[0]), Sextet(t[1]), Sextet(t[2]), Sextet(t[3]))
  }

  /** The last two symbols as one byte, the last three as two. */
  function LastOne(w: bv8, x: bv8): bv8 {
    (w << 2) | (x >> 4)
  }

  function LastTwo(w: bv8, x: bv8, y: bv8): (bv8, bv8) {
    ((w << 2) | (x >> 4), (x << 4) | (y >> 2))
  }

  /** What a text decodes to, if it is one the decoder takes: it ignores the unused low bits of the last symbol. */
  function Decoded(t: seq<char>): (d: Option<seq<bv8>>)
    ensures d.Some? ==> |d.value| == DecodedLen(|t|)
  {
    if t == [] then Some([])
    else if |t| == 1 then None
    else if |t| < 4 then (if Valid(t) then Some(Rest(t)) else None)
    else if !Valid(t[..4]) then None
    else
      match Decoded(t[4..])
      case None => None
      case Some(rest) => Some([Triple(t).0, Triple(t).1, Triple(t).2] + rest)
  }

  function Rest(t: seq<char>): (r: seq<bv8>)
    requires 2 <= |t| < 4 && Valid(t)
    ensures |r| == |t| - 1
  {
    if |t| == 2 then [LastOne(Sextet(t[0]), Sextet(t[1]))]
    else [LastTwo(Sextet(t[0]), Sextet(t[1]), Sextet(t[2])).0, LastTwo(Sextet(t[0]), Sextet(t[1]), Sextet(t[2])).1]
  }

  /** The decoder takes exactly the texts over its alphabet that are not one symbol too long. */
  lemma {:induction false} DecodesExactly(t: seq<char>)
    ensures Decoded(t).Some? <==> |t| % 4 != 1 && Valid(t)
  {
    hide Valid, Triple, Rest;
    if t == [] {
      ValidParts(t, 0);
    } else if |t| >= 4 {
      DecodesExactly(t[4..]);
      ValidParts(t, 4);
    }
  }

  lemma ValidParts(t: seq<char>, n: nat)
    requires n <= |t|
    ensures Valid(t) <==> Valid(t[..n]) && Valid(t[n..])
    ensures t == [] ==> Valid(t)
  {
    hide SymbolIndex;
    assert t == t[..n] + t[n..];
  }

  // ---- round trips ----------------------------------------------------------------

  lemma QuadIsValid(a: bv8, b: bv8, c: bv8)
    ensures Valid(Quad(a, b, c))
    ensures Triple(Quad(a, b, c)) == (a, b, c)
    ensures LastOne(Sextet(Quad(a, b, c)[0]), Sextet(Quad(a, b, c)[1])) == a
    ensures LastTwo(Sextet(Quad(a, b, c)[0]), Sextet(Quad(a, b, c)[1]), Sextet(Quad(a, b, c)[2])) == (a, b)
  {
    hide Symbol, Sextet, SymbolIndex;
    var (w, x, y, z) := Split(a, b, c);
    SextetOfSymbol(w);
    SextetOfSymbol(x);
    SextetOfSymbol(y);
    SextetOfSymbol(z);
    JoinSplit(a, b, c);
    LastOfSplit(a, b, c);
    var q := Quad(a, b, c);
    assert q[..4] == q;
  }

  lemma LastOfSplit(a: bv8, b: bv8, c: bv8)
    ensures var (w, x, y, z) := Split(a, b, c); LastOne(w, x) == a && LastTwo(w, x, y) == (a, b)
  {
  }

  /** Decoding inverts encoding, for every byte sequence. */
  lemma {:induction false} DecodeInvertsEncode(d: seq<bv8>)
    ensures Decoded(Base64Url(d)) == Some(d)
  {
    hide Quad, SymbolIndex, Sextet, LastOne, LastTwo, Triple;
    if d == [] {
    } else if |d| == 1 {
      QuadIsValid(d[0], 0, 0);
      ValidParts(Quad(d[0], 0, 0), 2);
      assert Rest(Base64Url(d)) == d;
    } else if |d| == 2 {
      QuadIsValid(d[0], d[1], 0);
      ValidParts(Quad(d[0], d[1], 0), 3);
      assert Rest(Base64Url(d)) == d;
    } else {
      var q, t := Quad(d[0], d[1], d[2]), Base64Url(d);
      QuadIsValid(d[0], d[1], d[2]);
      DecodeInvertsEncode(d[3..]);
      assert t[..4] == q && t[4..] == Base64Url(d[3..]);
      TripleOf(t);
      assert q[..4] == q;
      assert [d[0], d[1], d[2]] + d[3..] == d;
    }
  }

  lemma TripleOf(t: seq<char>)
    requires |t| >= 4 && Valid(t[..4])
    ensures Valid(t[..4][..4]) && Triple(t) == Triple(t[..4])
  {
    assert t[..4][..4] == t[..4];
  }

  /** The low bits of the last symbol that carry no data are zero. */
  predicate Canonical(t: seq<char>)
    requires Valid(t)
  {
    && (|t| % 4 == 2 ==> Sextet(t[|t| - 1]) & 0x0f == 0)
    && (|t| % 4 == 3 ==> Sextet(t[|t| - 1]) & 0x03 == 0)
  }

  /** Encoding gives back a decoded text exactly when its unused bits are zero: otherwise the decoder took a second spelling. */
  lemma {:induction false} EncodeInvertsDecode(t: seq<char>)
    requires Decoded(t).Some?
    ensures Valid(t)
    ensures Base64Url(Decoded(t).value) == t <==> Canonical(t)
  {
    hide Base64Url, Decoded, Sextet, SymbolIndex;
    DecodesExactly(t);
    if t == [] {
      EncodeCons(t);
    } else if |t| < 4 {
      EncodeCons(t);
      RestCanonical(t);
    } else {
      var r := t[4..];
      EncodeCons(t);
      EncodeInvertsDecode(r);
      assert t == t[..4] + r;
      assert |r| > 0 ==> t[|t| - 1] == r[|r| - 1];
    }
  }

  /** The shortest two spellings of one body: the zero byte, whatever the four unused bits. */
  lemma TwoSpellings()
    ensures Decoded("AA") == Decoded("AB") == Some([0]) && Base64Url([0]) == "AA"
  {
    var aa, ab := "AA", "AB";
    assert SymbolIndex('A') == 0 && SymbolIndex('B') == 1;
    assert Valid(aa) && Valid(ab);
    assert Rest(aa) == [0] && Rest(ab) == [0];
  }

  /** The alphabet, table 2 of RFC 4648: capitals, small letters, digits, and the two symbols that are safe in URLs. */
  lemma AlphabetIs(v: int)
    requires 0 <= v < 64
    ensures B64URL[v] as int ==
      if v < 26 then 0x41 + v else if v < 52 then 0x61 + (v - 26) else if v < 62 then 0x30 + (v - 52) else if v == 62 then 0x2d else 0x5f
  {
    if v < 26 {
      UpperRuns(v);
    } else if v < 52 {
      LowerRuns(v - 26);
    } else if v < 62 {
      DigitsRun(v - 52);
    }
  }

  /** Known answers: all ones, and two bytes whose sextets are 62, 63 and 0. */
  lemma KnownTexts()
    ensures Base64Url([0xff, 0xff, 0xff]) == "____" && Base64Url([0xfb, 0xf0]) == "-_A"
  {
    assert Quad(0xff, 0xff, 0xff) == "____" by { AlphabetIs(63); }
    assert Quad(0xfb, 0xf0, 0)[..3] == "-_A" by { AlphabetIs(62); AlphabetIs(63); AlphabetIs(0); }
    assert Base64Url([0xff, 0xff, 0xff]) == Quad(0xff, 0xff, 0xff) + Base64Url([0xff, 0xff, 0xff][3..]);
  }

  /** Encoding what was decoded, one group at a time. */
  lemma EncodeCons(t: seq<char>)
    requires Decoded(t).Some?
    ensures t == [] ==> Base64Url(Decoded(t).value) == []
    ensures 2 <= |t| < 4 ==> Valid(t) && Decoded(t).value == Rest(t)
    ensures |t| >= 4 ==> Decoded(t[4..]).Some? && Base64Url(Decoded(t).value) == t[..4] + Base64Url(Decoded(t[4..]).value)
  {
    hide Triple, Quad, Rest, SymbolIndex;
    if |t| >= 4 {
      var d := Decoded(t).value;
      QuadOfTriple(t);
      assert d[3..] == Decoded(t[4..]).value;
    }
  }

  lemma QuadOfTriple(t: seq<char>)
    requires |t| >= 4 && Valid(t[..4])
    ensures var (a, b, c) := Triple(t); Quad(a, b, c) == t[..4]
  {
    hide Split, Join, Symbol, Sextet, SymbolIndex;
    assert t[..4][0] == t[0] && t[..4][1] == t[1] && t[..4][2] == t[2] && t[..4][3] == t[3];
    SymbolOfSextet(t[0]);
    SymbolOfSextet(t[1]);
    SymbolOfSextet(t[2]);
    SymbolOfSextet(t[3]);
    SplitJoin(Sextet(t[0]), Sextet(t[1]), Sextet(t[2]), Sextet(t[3]));
  }

  lemma OneBits(w: bv8, x: bv8)
    requires w < 64 && x < 64
    ensures var r := Split(LastOne(w, x), 0, 0); r.0 == w && r.1 == x & 0x30
  {
  }

  lemma TwoBits(w: bv8, x: bv8, y: bv8)
    requires w < 64 && x < 64 && y < 64
    ensures var l := LastTwo(w, x, y); var r := Split(l.0, l.1, 0); r.0 == w && r.1 == x && r.2 == y & 0x3c
  {
  }

  lemma LowBits(x: bv8)
    requires x < 64
    ensures x & 0x30 < 64 && (x & 0x30 == x <==> x & 0x0f == 0)
    ensures x & 0x3c < 64 && (x & 0x3c == x <==> x & 0x03 == 0)
  {
  }

  lemma SymbolsDiffer(x: bv8, y: bv8)
    requires x < 64 && y < 64 && Symbol(x) == Symbol(y)
    ensures x == y
  {
    SextetOfSymbol(x);
    SextetOfSymbol(y);
  }

  lemma RestCanonical(t: seq<char>)
    requires 2 <= |t| < 4 && Valid(t)
    ensures Base64Url(Rest(t)) == t <==> Canonical(t)
  {
    hide Split, LastOne, LastTwo, Symbol, Sextet, SymbolIndex;
    SymbolOfSextet(t[0]);
    SymbolOfSextet(t[1]);
    var w, x := Sextet(t[0]), Sextet(t[1]);
    if |t| == 2 {
      OneBits(w, x);
      LowBits(x);
      var (w1, x1, y1, z1) := Split(LastOne(w, x), 0, 0);
      assert Base64Url(Rest(t)) == [Symbol(w1), Symbol(x1)];
      if Symbol(x1) == Symbol(x) { SymbolsDiffer(x1, x); }
    } else {
      SymbolOfSextet(t[2]);
      var y := Sextet(t[2]);
      TwoBits(w, x, y);
      LowBits(y);
      var (a, b) := LastTwo(w, x, y);
      var (w1, x1, y1, z1) := Split(a, b, 0);
      assert Base64Url(Rest(t)) == [Symbol(w1), Symbol(x1), Symbol(y1)];
      if Symbol(y1) == Symbol(y) { SymbolsDiffer(y1, y); }
    }
  }

  // ---- the loops ------------------------------------------------------------------

  lemma EncodeStep(d: seq<bv8>, i: nat)
    requires i <= |d| && i % 3 == 0
    ensures i + 3 <= |d| ==> Base64Url(d[i..]) == Quad(d[i], d[i + 1], d[i + 2]) + Base64Url(d[i + 3..])
    ensures i + 1 == |d| ==> Base64Url(d[i..]) == Quad(d[i], 0, 0)[..2]
    ensures i + 2 == |d| ==> Base64Url(d[i..]) == Quad(d[i], d[i + 1], 0)[..3]
    ensures i == |d| ==> Base64Url(d[i..]) == []
  {
    hide Quad;
    if i + 3 <= |d| {
      assert d[i..][3..] == d[i + 3..];
    }
  }

  /** dokan_base64url_encode; `out` has room for `out.Length` symbols. */
  method EncodeBase64Url(input: seq<bv8>, out: array<char>) returns (n: nat)
    modifies out
    ensures out.Length < EncodedLen(|input|) ==> n == 0 && out[..] == old(out[..])
    ensures out.Length >= EncodedLen(|input|) ==>
      n == EncodedLen(|input|) && out[..n] == Base64Url(input) && out[n..] == old(out[n..])
  {
    hide Base64Url, Symbol, Split, Quad;
    var need := |input| / 3 * 4;
    var rem := |input| % 3;
    if rem != 0 {
      need := need + rem + 1;
    }
    if out.Length < need {
      return 0;
    }
    var o, i := 0, 0;
    ghost var done: seq<char> := [];
    assert input[0..] == input;
    while i + 3 <= |input|
      invariant i <= |input| && i % 3 == 0 && o == i / 3 * 4 && o <= need
      invariant out[..o] == done && Base64Url(input) == done + Base64Url(input[i..])
      invariant out[need..] == old(out[need..])
    {
      EncodeStep(input, i);
      PutQuad(out, o, input[i], input[i + 1], input[i + 2], 4);
      ghost var q, tail := Quad(input[i], input[i + 1], input[i + 2]), Base64Url(input[i + 3..]);
      assert done + (q + tail) == (done + q) + tail;
      done := done + q;
      o := o + 4;
      i := i + 3;
    }
    EncodeStep(input, i);
    if rem == 1 {
      PutQuad(out, o, input[i], 0, 0, 2);
      return o + 2;
    } else if rem == 2 {
      PutQuad(out, o, input[i], input[i + 1], 0, 3);
      return o + 3;
    }
    n := o;
  }

  /** The first `k` symbols of three bytes go to `out` at `o`. */
  method PutQuad(out: array<char>, o: nat, a: bv8, b: bv8, c: bv8, k: nat)
    requires 2 <= k <= 4 && o + k <= out.Length
    modifies out
    ensures out[..o + k] == old(out[..o]) + Quad(a, b, c)[..k] && out[o + k..] == old(out[o + k..])
  {
    hide Symbol, Split;
    var (w, x, y, z) := Split(a, b, c);
    var q := [Symbol(w), Symbol(x), Symbol(y), Symbol(z)];
    ghost var was := out[..];
    assert was == was[..o] + q[..0] + was[o + 0..];
    PutSymbol(out, o, was, q, 0);
    PutSymbol(out, o, was, q, 1);
    if k > 2 {
      PutSymbol(out, o, was, q, 2);
    }
    if k > 3 {
      PutSymbol(out, o, was, q, 3);
    }
  }

  /** One symbol more goes to `out`, which was `was` before the group. */
  method PutSymbol(out: array<char>, o: nat, ghost was: seq<char>, q: seq<char>, j: nat)
    requires o + j < out.Length == |was| && j < |q|
    requires out[..] == was[..o] + q[..j] + was[o + j..]
    modifies out
    ensures out[..] == was[..o] + q[..j + 1] + was[o + j + 1..]
  {
    out[o + j] := q[j];
    assert out[..] == old(out[..])[o + j := q[j]];
    OneReplaced(was, o, q, j);
  }

  lemma OneReplaced(was: seq<char>, o: nat, q: seq<char>, j: nat)
    requires o + j < |was| && j < |q|
    ensures (was[..o] + q[..j] + was[o + j..])[o + j := q[j]] == was[..o] + q[..j + 1] + was[o + j + 1..]
  {
    assert was[o + j..] == [was[o + j]] + was[o + j + 1..];
    assert q[..j + 1] == q[..j] + [q[j]];
  }

  /** `done` in front of what is still to be decoded. */
  function After(done: seq<bv8>, rest: Option<seq<bv8>>): Option<seq<bv8>> {
    if rest.Some? then Some(done + rest.value) else None
  }

  function ValidAt(t: seq<char>, i: nat, n: nat): (ok: bool)
    requires i + n <= |t| && n <= 4
    ensures ok <==> Valid(t[i..i + n])
  {
    && (n < 1 || SymbolIndex(t[i]) >= 0)
    && (n < 2 || SymbolIndex(t[i + 1]) >= 0)
    && (n < 3 || SymbolIndex(t[i + 2]) >= 0)
    && (n < 4 || SymbolIndex(t[i + 3]) >= 0)
  }

  lemma DecodeStep(t: seq<char>, i: nat, done: seq<bv8>)
    requires i + 4 <= |t|
    ensures !ValidAt(t, i, 4) ==> Decoded(t[i..]) == None
    ensures ValidAt(t, i, 4) ==>
      var (a, b, c) := Join(Sextet(t[i]), Sextet(t[i + 1]), Sextet(t[i + 2]), Sextet(t[i + 3]));
      After(done, Decoded(t[i..])) == After(done + [a, b, c], Decoded(t[i + 4..]))
  {
    hide Sextet, SymbolIndex, Join;
    var u := t[i..];
    assert u[..4] == t[i..i + 4] && u[4..] == t[i + 4..];
    if ValidAt(t, i, 4) && Decoded(u[4..]).Some? {
      var (a, b, c) := Triple(u);
      assert (done + [a, b, c]) + Decoded(u[4..]).value == done + ([a, b, c] + Decoded(u[4..]).value);
    }
  }

  lemma DecodeEnd(t: seq<char>, i: nat, done: seq<bv8>)
    requires i <= |t| < i + 4
    ensures i == |t| ==> After(done, Decoded(t[i..])) == Some(done)
    ensures i + 2 <= |t| ==>
      After(done, Decoded(t[i..])) == if ValidAt(t, i, |t| - i) then Some(done + Rest(t[i..])) else None
  {
    hide SymbolIndex, Rest;
    assert t[i..] == t[i..|t|];
    assert done + [] == done;
  }

  /** dokan_base64url_decode; `out` has room for `out.Length` bytes. */
  method DecodeBase64Url(input: seq<char>, out: array<bv8>) returns (ok: bool, n: nat)
    modifies out
    ensures ok <==> Decoded(input).Some? && DecodedLen(|input|) <= out.Length
    ensures ok ==> n == DecodedLen(|input|) && out[..n] == Decoded(input).value && out[n..] == old(out[n..])
  {
    hide Decoded, Valid, Sextet, SymbolIndex, Join, LastOne, LastTwo;
    DecodesExactly(input);
    if |input| % 4 == 1 {
      return false, 0;
    }
    var produced := |input| / 4 * 3;
    var rem := |input| % 4;
    if rem == 2 {
      produced := produced + 1;
    } else if rem == 3 {
      produced := produced + 2;
    }
    if out.Length < produced {
      return false, 0;
    }
    ok, n := DecodeGroups(input, out);
  }

  /** The loop over whole groups, and the group that is left. */
  method DecodeGroups(input: seq<char>, out: array<bv8>) returns (ok: bool, n: nat)
    requires |input| % 4 != 1 && DecodedLen(|input|) <= out.Length
    modifies out
    ensures ok <==> Decoded(input).Some?
    ensures ok ==> n == DecodedLen(|input|) && out[..n] == Decoded(input).value && out[n..] == old(out[n..])
  {
    hide Decoded, Valid, Sextet, SymbolIndex, Join, Rest, DecodedLen;
    var o, i := 0, 0;
    ghost var done: seq<bv8>, g: nat := [], 0;
    assert input[0..] == input && (Decoded(input).Some? ==> [] + Decoded(input).value == Decoded(input).value);
    GroupFits(|input|, g);
    while i + 4 <= |input|
      invariant i == 4 * g <= |input| && o == 3 * g <= DecodedLen(|input|)
      invariant out[..o] == done && Decoded(input) == After(done, Decoded(input[i..]))
      invariant out[DecodedLen(|input|)..] == old(out[DecodedLen(|input|)..])
    {
      DecodeStep(input, i, done);
      if !ValidAt(input, i, 4) {
        return false, 0;
      }
      GroupFits(|input|, g);
      var (a, b, c) := Join(Sextet(input[i]), Sextet(input[i + 1]), Sextet(input[i + 2]), Sextet(input[i + 3]));
      PutTriple(out, o, a, b, c);
      done := done + [a, b, c];
      o := o + 3;
      i := i + 4;
      g := g + 1;
    }
    GroupFits(|input|, g);
    ok, n := DecodeLast(input, i, out, o, done);
  }

  lemma GroupFits(n: nat, g: nat)
    requires 4 * g <= n && n % 4 != 1
    ensures 4 * g + 4 <= n ==> 3 * g + 3 <= DecodedLen(n)
    ensures n < 4 * g + 4 ==> 4 * g + 1 != n && DecodedLen(n) == if 4 * g == n then 3 * g else 3 * g + n - 4 * g - 1
  {
  }

  /** The group that is left. */
  method DecodeLast(input: seq<char>, i: nat, out: array<bv8>, o: nat, ghost done: seq<bv8>) returns (ok: bool, n: nat)
    requires i <= |input| < i + 4 && i + 1 != |input| && DecodedLen(|input|) <= out.Length
    requires DecodedLen(|input|) == if i == |input| then o else o + |input| - i - 1
    requires out[..o] == done && Decoded(input) == After(done, Decoded(input[i..]))
    modifies out
    ensures ok <==> Decoded(input).Some?
    ensures ok ==> n == DecodedLen(|input|) && out[..n] == Decoded(input).value && out[n..] == old(out[n..])
  {
    hide Decoded, Valid, Sextet, SymbolIndex, Rest, DecodedLen;
    DecodeEnd(input, i, done);
    if i == |input| {
      return true, o;
    }
    if !ValidAt(input, i, |input| - i) {
      return false, 0;
    }
    assert input[i..] == input[i..|input|];
    PutRest(input[i..], out, o);
    return true, o + |input| - i - 1;
  }

  method PutTriple(out: array<bv8>, o: nat, a: bv8, b: bv8, c: bv8)
    requires o + 3 <= out.Length
    modifies out
    ensures out[..] == old(out[..o]) + [a, b, c] + old(out[o + 3..])
  {
    out[o] := a;
    out[o + 1] := b;
    out[o + 2] := c;
  }

  /** The two or three symbols that are left, as one or two bytes. */
  method PutRest(rest: seq<char>, out: array<bv8>, o: nat)
    requires 2 <= |rest| < 4 && Valid(rest) && o + |rest| - 1 <= out.Length
    modifies out
    ensures out[..] == old(out[..o]) + Rest(rest) + old(out[o + |rest| - 1..])
  {
    hide Sextet, SymbolIndex, LastOne, LastTwo;
    if |rest| == 2 {
      out[o] := LastOne(Sextet(rest[0]), Sextet(rest[1]));
    } else {
      var (a, b) := LastTwo(Sextet(rest[0]), Sextet(rest[1]), Sextet(rest[2]));
      out[o] := a;
      out[o + 1] := b;
    }
  }
}
