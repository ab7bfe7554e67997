/** base32 of RFC 4648 without padding, and the bits it regroups. */
module Base32 {
  const ALPHABET: string := "ABCDEFGHIJKLMNOPQRSTUVWXYZ234567"

  // ---- bits -------------------------------------------------------------------

  function Pow2(n: nat): (p: nat)
    ensures p > 0
  {
    if n == 0 then 1 else 2 * Pow2(n - 1)
  }

  /** The number that a sequence of bits spells, most significant bit first. */
  function Num(bits: seq<bool>): (n: nat)
    ensures n < Pow2(|bits|)
  {
    if bits == [] then 0
    else 2 * Num(bits[..|bits| - 1]) + if bits[|bits| - 1] then 1 else 0
  }

  lemma NumLast(bits: seq<bool>)
    requires bits != []
    ensures Num(bits) == 2 * Num(bits[..|bits| - 1]) + if bits[|bits| - 1] then 1 else 0
    ensures Pow2(|bits|) == 2 * Pow2(|bits| - 1)
  {
  }

  lemma {:induction false} NumAppend(xs: seq<bool>, ys: seq<bool>)
    ensures Num(xs + ys) == Num(xs) * Pow2(|ys|) + Num(ys)
  {
    if ys == [] {
      assert xs + ys == xs;
    } else {
      hide Num, Pow2;
      var zs, y := xs + ys, ys[..|ys| - 1];
      assert zs[..|zs| - 1] == xs + y;
      NumAppend(xs, y);
      NumLast(zs);
      NumLast(ys);
      Doubled(Num(xs), Pow2(|y|));
    }
  }

  lemma Doubled(a: nat, p: nat)
    ensures 2 * (a * p) == a * (2 * p)
  {
  }

  /** The bits of a byte. */
  function EightBits(n: nat): (r: seq<bool>)
    ensures |r| == 8
  {
    [n / 128 % 2 == 1, n / 64 % 2 == 1, n / 32 % 2 == 1, n / 16 % 2 == 1, n / 8 % 2 == 1, n / 4 % 2 == 1, n / 2 % 2 == 1, n % 2 == 1]
  }

  function ByteBits(b: bv8): (r: seq<bool>)
    ensures |r| == 8
  {
    EightBits(b as int)
  }

  /** `n`, shifted left by a bit and completed with the bit `b`. */
  lemma OneMoreBit(bits: seq<bool>, k: nat, n: nat)
    requires k < |bits| && Num(bits[..k]) == n / 2 && bits[k] == (n % 2 == 1)
    ensures Num(bits[..k + 1]) == n
  {
    assert bits[..k + 1][..k] == bits[..k];
  }

  lemma EightBitsSpell(n: nat)
    requires n < 256
    ensures Num(EightBits(n)) == n
  {
    hide Num;
    var r := EightBits(n);
    Halves(n);
    NumOfNone();
    assert r[..0] == [];
    OneMoreBit(r, 0, n / 128);
    OneMoreBit(r, 1, n / 64);
    OneMoreBit(r, 2, n / 32);
    OneMoreBit(r, 3, n / 16);
    OneMoreBit(r, 4, n / 8);
    OneMoreBit(r, 5, n / 4);
    OneMoreBit(r, 6, n / 2);
    OneMoreBit(r, 7, n);
    assert r[..8] == r;
  }

  lemma Halves(n: nat)
    requires n < 256
    ensures n / 128 / 2 == 0 && n / 64 / 2 == n / 128 && n / 32 / 2 == n / 64 && n / 16 / 2 == n / 32
    ensures n / 8 / 2 == n / 16 && n / 4 / 2 == n / 8 && n / 2 / 2 == n / 4
  {
  }

  lemma ByteBitsSpell(b: bv8)
    ensures Num(ByteBits(b)) == b as int
  {
    hide EightBits;
    ByteIsSmall(b);
    EightBitsSpell(b as int);
  }

  lemma ByteIsSmall(b: bv8)
    ensures (b as int) < 256
  {
  }

  lemma NumOfNone()
    ensures Num([]) == 0
  {
  }

  /** The bits of all bytes, in order. */
  function Bits(d: seq<bv8>): (r: seq<bool>)
    ensures |r| == 8 * |d|
  {
    if d == [] then [] else Bits(d[..|d| - 1]) + ByteBits(d[|d| - 1])
  }

  lemma {:induction false} BitsOfPrefix(d: seq<bv8>, i: nat)
    requires i <= |d|
    ensures Bits(d[..i]) == Bits(d)[..8 * i]
  {
    if i < |d| {
      BitsOfPrefix(d[..|d| - 1], i);
      assert d[..|d| - 1][..i] == d[..i];
    } else {
      assert d[..i] == d;
    }
  }

  lemma BitsOfByte(d: seq<bv8>, i: nat)
    requires i < |d|
    ensures Bits(d)[8 * i..8 * i + 8] == ByteBits(d[i])
  {
    BitsOfPrefix(d, i);
    BitsOfPrefix(d, i + 1);
    assert d[..i + 1][..i] == d[..i];
  }

  // ---- groups of five -----------------------------------------------------------

  function SymbolCount(n: nat): nat {
    (n * 8 + 4) / 5
  }

  function Zeros(n: nat): (r: seq<bool>)
    ensures |r| == n
  {
    seq(n, _ => false)
  }

  lemma {:induction false} ZerosSpell(n: nat)
    ensures Num(Zeros(n)) == 0
  {
    if n > 0 {
      assert Zeros(n)[..n - 1] == Zeros(n - 1);
      ZerosSpell(n - 1);
    }
  }

  /** The bits of the input, zero-padded to whole groups of five. */
  function Padded(d: seq<bv8>): (r: seq<bool>)
    ensures |r| == 5 * SymbolCount(|d|)
  {
    Bits(d) + Zeros(5 * SymbolCount(|d|) - 8 * |d|)
  }

  function Group(bits: seq<bool>, k: nat): (n: nat)
    requires 5 * k + 5 <= |bits|
    ensures n < 32
  {
    assert Pow2(5) == 32;
    Num(bits[5 * k..5 * k + 5])
  }

  /** Each group of five bits as one symbol. */
  function Encoded(d: seq<bv8>): (t: seq<char>)
    ensures |t| == SymbolCount(|d|)
  {
    seq(SymbolCount(|d|), k requires 0 <= k < SymbolCount(|d|) => ALPHABET[Group(Padded(d), k)])
  }

  /** The alphabet, table 3 of RFC 4648: capitals, then the digits from 2. */
  lemma AlphabetIs(v: int)
    requires 0 <= v < 32
    ensures ALPHABET[v] as int == if v < 26 then 0x41 + v else 0x32 + (v - 26)
  {
  }

  lemma OneMoreByte(d: seq<bv8>, b: bv8)
    ensures Bits(d + [b]) == Bits(d) + ByteBits(b)
  {
    hide ByteBits;
    assert (d + [b])[..|d|] == d;
  }

  lemma NumOfFive(p: bool, q: bool, r: bool, s: bool, t: bool)
    ensures Num([p, q, r, s, t]) ==
      (if p then 16 else 0) + (if q then 8 else 0) + (if r then 4 else 0) + (if s then 2 else 0) + (if t then 1 else 0)
  {
    hide Num;
    NumOfNone();
    var g := [p, q, r, s, t];
    assert g[..4][..3] == g[..3] && g[..3][..2] == g[..2] && g[..2][..1] == g[..1] && g[..1][..0] == [];
    NumLast(g);
    NumLast(g[..4]);
    NumLast(g[..3]);
    NumLast(g[..2]);
    NumLast(g[..1]);
  }

  lemma LettersAre()
    ensures ByteBits(0x66) == [false, true, true, false, false, true, true, false]
    ensures ByteBits(0x6f) == [false, true, true, false, true, true, true, true]
    ensures ByteBits(0x62) == [false, true, true, false, false, false, true, false]
    ensures ByteBits(0x61) == [false, true, true, false, false, false, false, true]
    ensures ByteBits(0x72) == [false, true, true, true, false, false, true, false]
  {
  }

  lemma FoobarBits()
    ensures Bits([0x66, 0x6f, 0x6f, 0x62, 0x61, 0x72]) == [false, true, true, false, false, true, true, false]
      + [false, true, true, false, true, true, true, true]
      + [false, true, true, false, true, true, true, true]
      + [false, true, true, false, false, false, true, false]
      + [false, true, true, false, false, false, false, true]
      + [false, true, true, true, false, false, true, false]
  {
    hide Bits, ByteBits;
    LettersAre();
    var d0: seq<bv8> := [];
    BitsOfNone();
    OneMoreByte(d0, 0x66);
    OneMoreByte(d0 + [0x66], 0x6f);
    OneMoreByte(d0 + [0x66] + [0x6f], 0x6f);
    OneMoreByte(d0 + [0x66] + [0x6f] + [0x6f], 0x62);
    OneMoreByte(d0 + [0x66] + [0x6f] + [0x6f] + [0x62], 0x61);
    OneMoreByte(d0 + [0x66] + [0x6f] + [0x6f] + [0x62] + [0x61], 0x72);
    assert d0 + [0x66] + [0x6f] + [0x6f] + [0x62] + [0x61] + [0x72] == [0x66, 0x6f, 0x6f, 0x62, 0x61, 0x72];
  }

  lemma BitsOfNone()
    ensures Bits([]) == []
  {
  }

  lemma Fives(d: seq<bv8>, k: nat, p: bool, q: bool, r: bool, s: bool, t: bool, c: char)
    requires 5 * k + 5 <= |Padded(d)| && Padded(d)[5 * k..5 * k + 5] == [p, q, r, s, t]
    requires var v := (if p then 16 else 0) + (if q then 8 else 0) + (if r then 4 else 0) + (if s then 2 else 0) + (if t then 1 else 0);
      ALPHABET[v] == c
    ensures k < |Encoded(d)| && Encoded(d)[k] == c
  {
    hide Padded;
    NumOfFive(p, q, r, s, t);
  }

  lemma FoobarFives()
    ensures var p := Padded([0x66, 0x6f, 0x6f, 0x62, 0x61, 0x72]);
      && p[0..5] == [false, true, true, false, false]
      && p[5..10] == [true, true, false, false, true]
      && p[10..15] == [true, false, true, true, true]
      && p[15..20] == [true, false, true, true, false]
      && p[20..25] == [true, true, true, true, false]
      && p[25..30] == [true, true, false, false, false]
      && p[30..35] == [true, false, false, true, true]
      && p[35..40] == [false, false, false, false, true]
      && p[40..45] == [false, true, true, true, false]
      && p[45..50] == [false, true, false, false, false]
  {
    hide Bits;
    FoobarBits();
  }

  /** A known answer: the six letters of "foobar". */
  lemma KnownText()
    ensures Encoded([0x66, 0x6f, 0x6f, 0x62, 0x61, 0x72]) == "MZXW6YTBOI"
  {
    hide Padded, Encoded;
    var d: seq<bv8> := [0x66, 0x6f, 0x6f, 0x62, 0x61, 0x72];
    FoobarFives();
    Fives(d, 0, false, true, true, false, false, 'M');
    Fives(d, 1, true, true, false, false, true, 'Z');
    Fives(d, 2, true, false, true, true, true, 'X');
    Fives(d, 3, true, false, true, true, false, 'W');
    Fives(d, 4, true, true, true, true, false, '6');
    Fives(d, 5, true, true, false, false, false, 'Y');
    Fives(d, 6, true, false, false, true, true, 'T');
    Fives(d, 7, false, false, false, false, true, 'B');
    Fives(d, 8, false, true, true, true, false, 'O');
    Fives(d, 9, false, true, false, false, false, 'I');
  }

  // ---- the accumulator ------------------------------------------------------------

  /** A 32-bit left shift. */
  function Shl(buf: nat, n: nat): nat {
    buf * Pow2(n) % 0x1_0000_0000
  }

  function Shr(buf: nat, n: nat): (r: int)
    ensures r >= 0
  {
    NotNegative(buf, Pow2(n));
    buf / Pow2(n)
  }

  lemma NotNegative(a: nat, p: nat)
    requires p > 0
    ensures a / p >= 0
  {
  }

  lemma {:induction false} Pow2Add(a: nat, b: nat)
    ensures Pow2(a + b) == Pow2(a) * Pow2(b)
  {
    if a > 0 {
      Pow2Add(a - 1, b);
      Doubled(Pow2(b), Pow2(a - 1));
      assert 2 * (Pow2(a - 1) * Pow2(b)) == (2 * Pow2(a - 1)) * Pow2(b);
    }
  }

  lemma Pow2Facts()
    ensures Pow2(5) == 32 && Pow2(8) == 256 && Pow2(32) == 0x1_0000_0000
  {
    assert Pow2(8) == 256;
    Pow2Add(8, 8);
    Pow2Add(16, 16);
  }

  lemma SmallMultiple(e: int, m: int)
    requires -m < e * m < m
    ensures e == 0
  {
  }

  lemma DivModIs(x: int, m: nat, q: int, r: nat)
    requires r < m && x == q * m + r
    ensures x / m == q && x % m == r
  {
    var e := x / m - q;
    assert x == x / m * m + x % m;
    assert e * m == x / m * m - q * m;
    SmallMultiple(e, m);
  }

  /** Shifting a byte in keeps the pending bits, however many older ones the 32 bits have dropped. */
  lemma ShiftIn(buf: nat, bits: nat, b: nat)
    requires bits < 5 && b < 256
    ensures (Shl(buf, 8) + b) % Pow2(bits + 8) == buf % Pow2(bits) * 256 + b
  {
    hide Pow2;
    var p, h, l, k := Pow2(bits), buf / Pow2(bits), buf % Pow2(bits), buf * 256 / 0x1_0000_0000;
    var m, c := Pow2(bits + 8), Pow2(24 - bits);
    Pow2Facts();
    Pow2Add(bits, 8);
    Pow2Add(bits + 8, 24 - bits);
    assert m == p * 256 && c * m == 0x1_0000_0000;
    assert buf == h * p + l;
    assert buf * 256 == h * m + l * 256 by { assert h * (p * 256) == h * p * 256; }
    assert Shl(buf, 8) == buf * 256 - k * (c * m);
    assert k * (c * m) == k * c * m;
    assert Shl(buf, 8) + b == (h - k * c) * m + (l * 256 + b);
    DivModIs(Shl(buf, 8) + b, m, h - k * c, l * 256 + b);
  }

  /** Taking the top five of the pending bits leaves the others. */
  lemma TakeFive(buf: nat, bits: nat, top: nat, low: nat)
    requires top < 32 && low < Pow2(bits) && buf % Pow2(bits + 5) == top * Pow2(bits) + low
    ensures Shr(buf, bits) % 32 == top && buf % Pow2(bits) == low
  {
    hide Pow2;
    var p, m := Pow2(bits), Pow2(bits + 5);
    var h := buf / m;
    Pow2Facts();
    Pow2Add(bits, 5);
    assert m == p * 32 && buf == h * m + top * p + low;
    assert h * (p * 32) == (h * 32) * p;
    assert buf == (h * 32 + top) * p + low;
    DivModIs(buf, p, h * 32 + top, low);
    DivModIs(h * 32 + top, 32, h, top);
  }

  /** Padding the last pending bits with zeros. */
  lemma PadLast(buf: nat, bits: nat)
    requires 0 < bits < 5
    ensures Shl(buf, 5 - bits) % 32 == buf % Pow2(bits) * Pow2(5 - bits)
  {
    hide Pow2;
    var p, r := Pow2(bits), Pow2(5 - bits);
    Pow2Facts();
    Pow2Add(bits, 5 - bits);
    PadSplit(buf, p, r);
    var x := buf * r;
    var k := x / 0x1_0000_0000;
    DivModIs(x - k * 0x1_0000_0000, 32, buf / p - k * 0x800_0000, buf % p * r);
  }

  lemma PadSplit(buf: nat, p: nat, r: nat)
    requires p > 0 && r > 0 && p * r == 32
    ensures buf * r == buf / p * 32 + buf % p * r && 0 <= buf % p * r < 32
  {
    var h, l := buf / p, buf % p;
    assert buf == h * p + l;
    assert (h * p + l) * r == h * p * r + l * r;
    assert h * p * r == h * (p * r);
    assert l * r <= (p - 1) * r;
    assert (p - 1) * r == p * r - r;
  }

  // ---- the loop ---------------------------------------------------------------------

  /** The pending bits are those of the input between symbol `o` and bit `5 * o + bits`. */
  ghost predicate Pending(d: seq<bv8>, o: nat, buf: nat, bits: nat) {
    5 * o + bits <= |Padded(d)| && buf % Pow2(bits) == Num(Padded(d)[5 * o..5 * o + bits])
  }

  lemma ByteComesIn(d: seq<bv8>, i: nat, o: nat, buf: nat, bits: nat)
    requires i < |d| && bits < 5 && 5 * o + bits == 8 * i && Pending(d, o, buf, bits)
    ensures Pending(d, o, Shl(buf, 8) + d[i] as int, bits + 8)
  {
    var p := Padded(d);
    ShiftIn(buf, bits, d[i] as int);
    BitsOfByte(d, i);
    ByteBitsSpell(d[i]);
    assert p[5 * o..5 * o + bits + 8] == p[5 * o..5 * o + bits] + ByteBits(d[i]);
    NumAppend(p[5 * o..5 * o + bits], ByteBits(d[i]));
    Pow2Facts();
  }

  lemma SymbolGoesOut(d: seq<bv8>, o: nat, buf: nat, bits: nat)
    requires 5 <= bits <= 12 && Pending(d, o, buf, bits)
    ensures Shr(buf, bits - 5) % 32 == Group(Padded(d), o) && Pending(d, o + 1, buf, bits - 5)
  {
    var p := Padded(d);
    var top, low := p[5 * o..5 * o + 5], p[5 * o + 5..5 * o + bits];
    assert p[5 * o..5 * o + bits] == top + low;
    NumAppend(top, low);
    TakeFive(buf, bits - 5, Group(p, o), Num(low));
  }

  lemma LastGoesOut(d: seq<bv8>, o: nat, buf: nat, bits: nat)
    requires 0 < bits < 5 && 5 * o + bits == 8 * |d| && Pending(d, o, buf, bits)
    ensures o + 1 == SymbolCount(|d|) && Shl(buf, 5 - bits) % 32 == Group(Padded(d), o)
  {
    var p := Padded(d);
    PadLast(buf, bits);
    ZerosSpell(5 - bits);
    assert p[5 * o..5 * o + 5] == p[5 * o..5 * o + bits] + Zeros(5 - bits);
    NumAppend(p[5 * o..5 * o + bits], Zeros(5 - bits));
  }

  /** dokan_base32_encode; `out` has room for `out.Length` symbols. */
  method Encode(input: seq<bv8>, out: array<char>) returns (n: nat)
    modifies out
    ensures out.Length < SymbolCount(|input|) ==> n == 0 && out[..] == old(out[..])
    ensures out.Length >= SymbolCount(|input|) ==>
      n == SymbolCount(|input|) && out[..n] == Encoded(input) && out[n..] == old(out[n..])
  {
    hide Pending, Group, Padded, Shl, Shr;
    var need := (|input| * 8 + 4) / 5;
    if out.Length < need {
      return 0;
    }
    var buf: nat, bits: nat, o: nat := 0, 0, 0;
    StartsEmpty(input);
    for i := 0 to |input|
      invariant bits < 5 && 5 * o + bits == 8 * i && Pending(input, o, buf, bits)
      invariant forall k :: 0 <= k < o ==> out[k] == ALPHABET[Group(Padded(input), k)]
      invariant out[need..] == old(out[need..])
    {
      ByteComesIn(input, i, o, buf, bits);
      buf := Shl(buf, 8) + input[i] as int;
      bits := bits + 8;
      while bits >= 5
        invariant bits <= 12 && 5 * o + bits == 8 * i + 8 && Pending(input, o, buf, bits)
        invariant forall k :: 0 <= k < o ==> out[k] == ALPHABET[Group(Padded(input), k)]
        invariant out[need..] == old(out[need..])
      {
        SymbolGoesOut(input, o, buf, bits);
        bits := bits - 5;
        out[o] := ALPHABET[Shr(buf, bits) % 32];
        o := o + 1;
      }
    }
    if bits > 0 {
      LastGoesOut(input, o, buf, bits);
      out[o] := ALPHABET[Shl(buf, 5 - bits) % 32];
      o := o + 1;
    }
    n := o;
  }

  lemma StartsEmpty(d: seq<bv8>)
    ensures Pending(d, 0, 0, 0)
  {
  }
}
