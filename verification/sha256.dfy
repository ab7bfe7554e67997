/**
 Streaming SHA-256. What is proved here is the streaming: buffering, padding and the length field, through any number of
 updates, against the padded message of section 5.1.1 of FIPS 180-4. What the compression function computes is pinned by its
 logical functions bit by bit, by its tables (`Roots`) and by a digest worked out in full (`AbcDigest`).
 */
module Sha256 {
  const BLOCK: nat := 64
  const TWO_TO_THE_64: nat := 0x1_0000_0000_0000_0000

  // ---- the compression function ---------------------------------------------------

  const K: seq<bv32> := FIRST_K + SECOND_K + THIRD_K + FOURTH_K

  const FIRST_K: seq<bv32> := [
    0x428a2f98, 0x71374491, 0xb5c0fbcf, 0xe9b5dba5, 0x3956c25b, 0x59f111f1, 0x923f82a4, 0xab1c5ed5,
    0xd807aa98, 0x12835b01, 0x243185be, 0x550c7dc3, 0x72be5d74, 0x80deb1fe, 0x9bdc06a7, 0xc19bf174]

  const SECOND_K: seq<bv32> := [
    0xe49b69c1, 0xefbe4786, 0x0fc19dc6, 0x240ca1cc, 0x2de92c6f, 0x4a7484aa, 0x5cb0a9dc, 0x76f988da,
    0x983e5152, 0xa831c66d, 0xb00327c8, 0xbf597fc7, 0xc6e00bf3, 0xd5a79147, 0x06ca6351, 0x14292967]

  const THIRD_K: seq<bv32> := [
    0x27b70a85, 0x2e1b2138, 0x4d2c6dfc, 0x53380d13, 0x650a7354, 0x766a0abb, 0x81c2c92e, 0x92722c85,
    0xa2bfe8a1, 0xa81a664b, 0xc24b8b70, 0xc76c51a3, 0xd192e819, 0xd6990624, 0xf40e3585, 0x106aa070]

  const FOURTH_K: seq<bv32> := [
    0x19a4c116, 0x1e376c08, 0x2748774c, 0x34b0bcb5, 0x391c0cb3, 0x4ed8aa4a, 0x5b9cca4f, 0x682e6ff3,
    0x748f82ee, 0x78a5636f, 0x84c87814, 0x8cc70208, 0x90befffa, 0xa4506ceb, 0xbef9a3f7, 0xc67178f2]

  const H0: seq<bv32> := [
    0x6a09e667, 0xbb67ae85, 0x3c6ef372, 0xa54ff53a, 0x510e527f, 0x9b05688c, 0x1f83d9ab, 0x5be0cd19]

  function S0(x: bv32): bv32 { ((x >> 7) | (x << 25)) ^ ((x >> 18) | (x << 14)) ^ (x >> 3) }

  function S1(x: bv32): bv32 { ((x >> 17) | (x << 15)) ^ ((x >> 19) | (x << 13)) ^ (x >> 10) }

  function BS0(x: bv32): bv32 { ((x >> 2) | (x << 30)) ^ ((x >> 13) | (x << 19)) ^ ((x >> 22) | (x << 10)) }

  function BS1(x: bv32): bv32 { ((x >> 6) | (x << 26)) ^ ((x >> 11) | (x << 21)) ^ ((x >> 25) | (x << 7)) }

  function Ch(x: bv32, y: bv32, z: bv32): bv32 { (x & y) ^ (!x & z) }

  function Maj(x: bv32, y: bv32, z: bv32): bv32 { (x & y) ^ (x & z) ^ (y & z) }

  /** Wherever `x` has ones, it chooses the bits of `y`, and wherever it has zeros, those of `z`; `m` is any set of places. */
  lemma ChIsChoice(x: bv32, y: bv32, z: bv32, m: bv32)
    ensures x & m == m ==> Ch(x, y, z) & m == y & m
    ensures x & m == 0 ==> Ch(x, y, z) & m == z & m
  {
  }

  /** Wherever two of the three agree, it is as they are. */
  lemma MajIsMajority(x: bv32, y: bv32, z: bv32, m: bv32)
    ensures x & m == y & m ==> Maj(x, y, z) & m == x & m
    ensures x & m == z & m ==> Maj(x, y, z) & m == x & m
    ensures y & m == z & m ==> Maj(x, y, z) & m == y & m
  {
    MajThrough(x, y, z, m);
    hide Maj;
    MajOfTwo(x & m, y & m);
    MajOfTwo(x & m, z & m);
    MajOfTwo(y & m, x & m);
  }

  lemma MajThrough(x: bv32, y: bv32, z: bv32, m: bv32)
    ensures Maj(x, y, z) & m == Maj(x & m, y & m, z & m)
  {
  }

  lemma MajOfTwo(x: bv32, y: bv32)
    ensures Maj(x, x, y) == x && Maj(x, y, x) == x && Maj(y, x, x) == x
  {
  }

  function Word(b: seq<bv8>, i: nat): bv32
    requires 4 * i + 4 <= |b|
  {
    (b[4 * i] as bv32 << 24) | (b[4 * i + 1] as bv32 << 16) | (b[4 * i + 2] as bv32 << 8) | b[4 * i + 3] as bv32
  }

  /** The first `n` words of the message schedule. */
  function Schedule(block: seq<bv8>, n: nat): (w: seq<bv32>)
    requires |block| == BLOCK
    ensures |w| == n
  {
    if n == 0 then []
    else
      var w := Schedule(block, n - 1);
      var i := n - 1;
      w + [if i < 16 then Word(block, i) else NextWord(w[i - 2], w[i - 7], w[i - 15], w[i - 16])]
  }

  function NextWord(w2: bv32, w7: bv32, w15: bv32, w16: bv32): bv32 {
    S1(w2) + w7 + S0(w15) + w16
  }

  lemma ScheduleStep(block: seq<bv8>, i: nat)
    requires |block| == BLOCK
    ensures Schedule(block, 0) == []
    ensures i < 16 ==> Schedule(block, i + 1) == Schedule(block, i) + [Word(block, i)]
    ensures i >= 16 ==>
      var w := Schedule(block, i);
      Schedule(block, i + 1) == w + [NextWord(w[i - 2], w[i - 7], w[i - 15], w[i - 16])]
  {
    hide NextWord, Word;
  }

  /** The eight working variables. */
  datatype Vars = Vars(a: bv32, b: bv32, c: bv32, d: bv32, e: bv32, f: bv32, g: bv32, h: bv32)

  function Turn(v: Vars, k: bv32, w: bv32): Vars {
    var t1 := v.h + BS1(v.e) + Ch(v.e, v.f, v.g) + k + w;
    var t2 := BS0(v.a) + Maj(v.a, v.b, v.c);
    Vars(t1 + t2, v.a, v.b, v.c, v.d + t1, v.e, v.f, v.g)
  }

  function Turns(v: Vars, w: seq<bv32>, n: nat): Vars
    requires n <= |w| && n <= |K|
  {
    if n == 0 then v else Turn(Turns(v, w, n - 1), K[n - 1], w[n - 1])
  }

  lemma TurnsStep(v: Vars, w: seq<bv32>, i: nat)
    requires i < |w| && i < |K|
    ensures Turns(v, w, 0) == v && Turns(v, w, i + 1) == Turn(Turns(v, w, i), K[i], w[i])
  {
    hide Turn, K;
  }

  function Loaded(state: seq<bv32>): Vars
    requires |state| == 8
  {
    Vars(state[0], state[1], state[2], state[3], state[4], state[5], state[6], state[7])
  }

  /** Addition modulo 2^32. */
  function Plus(a: bv32, b: bv32): bv32 { a + b }

  function Added(state: seq<bv32>, v: Vars): (r: seq<bv32>)
    requires |state| == 8
    ensures |r| == 8
  {
    [Plus(state[0], v.a), Plus(state[1], v.b), Plus(state[2], v.c), Plus(state[3], v.d),
     Plus(state[4], v.e), Plus(state[5], v.f), Plus(state[6], v.g), Plus(state[7], v.h)]
  }

  /** One block into the hash state. */
  function Compress(state: seq<bv32>, block: seq<bv8>): (r: seq<bv32>)
    requires |state| == 8 && |block| == BLOCK
    ensures |r| == 8
  {
    KLength();
    Added(state, Turns(Loaded(state), Schedule(block, 64), 64))
  }

  lemma KLength()
    ensures |K| == 64
  {
  }

  // ---- the padded message -----------------------------------------------------------

  function Zeros(n: nat): (r: seq<bv8>)
    ensures |r| == n
  {
    seq(n, _ => 0)
  }

  /** The message length in bits, as eight bytes, most significant first. */
  function LengthBytes(bits: nat): (r: seq<bv8>)
    requires bits < TWO_TO_THE_64
    ensures |r| == 8
  {
    seq(8, i requires 0 <= i < 8 => LengthByte(bits, 7 - i))
  }

  function LengthByte(bits: nat, i: nat): bv8 {
    LengthDigit(bits, i) as bv8
  }

  /** Digit `i` of the length in base 256. */
  function LengthDigit(bits: nat, i: nat): (d: nat)
    ensures d < 256
  {
    bits / Pow256(i) % 256
  }

  function Pow256(i: nat): (p: nat)
    ensures p > 0
  {
    if i == 0 then 1 else 256 * Pow256(i - 1)
  }

  /** The number that digits in base 256 spell, most significant digit first. */
  function Spelled(digits: seq<nat>): nat {
    if digits == [] then 0 else 256 * Spelled(digits[..|digits| - 1]) + digits[|digits| - 1]
  }

  function LengthDigits(bits: nat): (r: seq<nat>)
    ensures |r| == 8
  {
    seq(8, i requires 0 <= i < 8 => LengthDigit(bits, 7 - i))
  }

  lemma DivTwice(n: nat, p: nat)
    requires p > 0
    ensures n / (256 * p) == n / p / 256
  {
    var q, r := n / p, n % p;
    var q1, r1 := q / 256, q % 256;
    assert n == q * p + r;
    Regrouped(q, q1, r1, p);
    BelowNext(r1, p, r);
    QuotientIs(n, 256 * p, q1, r1 * p + r);
  }

  lemma Regrouped(q: nat, q1: nat, r1: nat, p: nat)
    requires q == 256 * q1 + r1
    ensures q * p == q1 * (256 * p) + r1 * p
  {
    assert q * p == 256 * q1 * p + r1 * p;
    assert 256 * q1 * p == q1 * (256 * p);
  }

  lemma BelowNext(r1: nat, p: nat, r: nat)
    requires r1 < 256 && r < p
    ensures 0 <= r1 * p + r < 256 * p
  {
    assert r1 * p <= 255 * p;
  }

  lemma QuotientIs(n: nat, m: nat, q: nat, r: nat)
    requires n == q * m + r && r < m
    ensures n / m == q
  {
    var e := n / m - q;
    assert n == n / m * m + n % m;
    assert e * m == n / m * m - q * m;
    NoMultiple(e, m);
  }

  lemma NoMultiple(e: int, m: int)
    requires -m < e * m < m
    ensures e == 0
  {
  }

  lemma {:induction false} LengthPrefixSpells(bits: nat, j: nat)
    requires bits < TWO_TO_THE_64 && j <= 8
    ensures Spelled(LengthDigits(bits)[..j]) == bits / Pow256(8 - j)
  {
    hide Pow256;
    if j == 0 {
      WholeRange(bits);
    } else {
      var b, p := LengthDigits(bits), Pow256(8 - j);
      LengthPrefixSpells(bits, j - 1);
      assert b[..j][..j - 1] == b[..j - 1];
      Pow256Step(8 - j);
      DivTwice(bits, p);
    }
  }

  lemma WholeRange(bits: nat)
    requires bits < TWO_TO_THE_64
    ensures bits / Pow256(8) == 0
  {
    assert Pow256(4) == 0x1_0000_0000;
    assert Pow256(8) == TWO_TO_THE_64;
  }

  lemma Pow256Step(i: nat)
    ensures Pow256(i + 1) == 256 * Pow256(i)
  {
  }

  /** The length field spells the length, and each of its bytes is one digit. */
  lemma LengthFieldSpells(bits: nat)
    requires bits < TWO_TO_THE_64
    ensures Spelled(LengthDigits(bits)) == bits
    ensures forall i :: 0 <= i < 8 ==> LengthBytes(bits)[i] == LengthDigits(bits)[i] as bv8
  {
    LengthPrefixSpells(bits, 8);
    assert LengthDigits(bits)[..8] == LengthDigits(bits);
    assert Pow256(0) == 1;
  }

  /** How many zero bytes go between the end mark and the length. */
  function ZeroCount(n: nat): (k: nat)
    ensures k < BLOCK && (n + 1 + k) % BLOCK == 56
  {
    (119 - n % 64) % 64
  }

  /** Section 5.1.1 of FIPS 180-4, for whole bytes, the length taken modulo 2^64. */
  function Padded(msg: seq<bv8>): (p: seq<bv8>)
    ensures |p| % BLOCK == 0
  {
    msg + [0x80] + Zeros(ZeroCount(|msg|)) + LengthBytes(8 * |msg| % TWO_TO_THE_64)
  }

  /** The whole blocks of `data`, one after the other, into the hash state. */
  function Absorb(state: seq<bv32>, data: seq<bv8>): (r: seq<bv32>)
    requires |state| == 8
    ensures |r| == 8
    decreases |data|
  {
    if |data| < BLOCK then state else Absorb(Compress(state, data[..BLOCK]), data[BLOCK..])
  }

  function OutByte(state: seq<bv32>, i: nat): bv8
    requires |state| == 8 && i < 32
  {
    var x := state[i / 4];
    if i % 4 == 0 then ((x >> 24) & 0xff) as bv8
    else if i % 4 == 1 then ((x >> 16) & 0xff) as bv8
    else if i % 4 == 2 then ((x >> 8) & 0xff) as bv8
    else (x & 0xff) as bv8
  }

  function Digest(state: seq<bv32>): (r: seq<bv8>)
    requires |state| == 8
    ensures |r| == 32
  {
    seq(32, i requires 0 <= i < 32 => OutByte(state, i))
  }

  function Hash(msg: seq<bv8>): (r: seq<bv8>)
    ensures |r| == 32
  {
    Digest(Absorb(H0, Padded(msg)))
  }

  // ---- facts about absorbing ----------------------------------------------------------

  lemma {:induction false} AbsorbAppend(state: seq<bv32>, xs: seq<bv8>, ys: seq<bv8>)
    requires |state| == 8 && |xs| % BLOCK == 0
    ensures Absorb(state, xs + ys) == Absorb(Absorb(state, xs), ys)
    decreases |xs|
  {
    hide Compress;
    if xs == [] {
      assert xs + ys == ys;
    } else {
      assert (xs + ys)[..BLOCK] == xs[..BLOCK] && (xs + ys)[BLOCK..] == xs[BLOCK..] + ys;
      AbsorbAppend(Compress(state, xs[..BLOCK]), xs[BLOCK..], ys);
    }
  }

  lemma AbsorbBlock(state: seq<bv32>, block: seq<bv8>)
    requires |state| == 8 && |block| == BLOCK
    ensures Absorb(state, block) == Compress(state, block)
  {
    hide Compress;
    assert block[..BLOCK] == block && block[BLOCK..] == [];
  }

  /** How much of `n` bytes makes whole blocks. */
  function Whole(n: nat): (w: nat)
    ensures w <= n < w + BLOCK && w % BLOCK == 0
  {
    n / 64 * 64
  }

  // ---- transform ------------------------------------------------------------------------

  method Transform(state: array<bv32>, block: array<bv8>)
    requires state.Length == 8 && block.Length == BLOCK
    modifies state
    ensures state[..] == Compress(old(state[..]), block[..])
  {
    hide Schedule, Turn, Turns, K, Added;
    var w := new bv32[64];
    FillSchedule(w, block[..]);
    var v := Vars(state[0], state[1], state[2], state[3], state[4], state[5], state[6], state[7]);
    KLength();
    v := RunTurns(v, w[..]);
    AddTo(state, v);
  }

  method RunTurns(v0: Vars, w: seq<bv32>) returns (v: Vars)
    requires |w| == 64 && |K| == 64
    ensures v == Turns(v0, w, 64)
  {
    hide Turn, Turns, K;
    v := v0;
    TurnsStep(v0, w, 0);
    for i := 0 to 64
      invariant v == Turns(v0, w, i)
    {
      TurnsStep(v0, w, i);
      v := Turn(v, K[i], w[i]);
    }
  }

  lemma AddedAt(s: seq<bv32>, v: Vars)
    requires |s| == 8
    ensures var r := Added(s, v);
      && r[0] == Plus(s[0], v.a) && r[1] == Plus(s[1], v.b) && r[2] == Plus(s[2], v.c) && r[3] == Plus(s[3], v.d)
      && r[4] == Plus(s[4], v.e) && r[5] == Plus(s[5], v.f) && r[6] == Plus(s[6], v.g) && r[7] == Plus(s[7], v.h)
  {
    hide Plus;
  }

  method AddTo(state: array<bv32>, v: Vars)
    requires state.Length == 8
    modifies state
    ensures state[..] == Added(old(state[..]), v)
  {
    hide Plus, Added;
    AddedAt(state[..], v);
    state[0] := Plus(state[0], v.a);
    state[1] := Plus(state[1], v.b);
    state[2] := Plus(state[2], v.c);
    state[3] := Plus(state[3], v.d);
    state[4] := Plus(state[4], v.e);
    state[5] := Plus(state[5], v.f);
    state[6] := Plus(state[6], v.g);
    state[7] := Plus(state[7], v.h);
    assert state[..] == Added(old(state[..]), v);
  }

  method FillSchedule(w: array<bv32>, block: seq<bv8>)
    requires w.Length == 64 && |block| == BLOCK
    modifies w
    ensures w[..] == Schedule(block, 64)
  {
    hide NextWord, Word, Schedule;
    ScheduleStep(block, 0);
    for i := 0 to 16
      invariant w[..i] == Schedule(block, i)
    {
      ScheduleStep(block, i);
      w[i] := Word(block, i);
    }
    for i := 16 to 64
      invariant w[..i] == Schedule(block, i)
    {
      ScheduleStep(block, i);
      ghost var done := w[..i];
      assert done[i - 2] == w[i - 2] && done[i - 7] == w[i - 7] && done[i - 15] == w[i - 15] && done[i - 16] == w[i - 16];
      w[i] := NextWord(w[i - 2], w[i - 7], w[i - 15], w[i - 16]);
    }
    assert w[..64] == w[..];
  }

  // ---- padding, block by block ------------------------------------------------------------

  lemma ZerosJoin(a: nat, b: nat)
    ensures Zeros(a) + Zeros(b) == Zeros(a + b)
  {
  }

  /** The last one or two blocks: what is buffered, the end mark, zeros and the length. */
  lemma PaddedTail(msg: seq<bv8>)
    ensures var n, w := |msg|, Whole(|msg|);
      var r, len := n - w, LengthBytes(8 * n % TWO_TO_THE_64);
      Absorb(H0, Padded(msg)) ==
        if r + 1 <= 56
        then Compress(Absorb(H0, msg[..w]), msg[w..] + [0x80] + Zeros(55 - r) + len)
        else Compress(Compress(Absorb(H0, msg[..w]), msg[w..] + [0x80] + Zeros(63 - r)), Zeros(56) + len)
  {
    hide Compress, LengthBytes, Zeros;
    var n, w := |msg|, Whole(|msg|);
    var r, len := n - w, LengthBytes(8 * n % TWO_TO_THE_64);
    var state := Absorb(H0, msg[..w]);
    var rest := msg[w..] + [0x80];
    var tail := rest + Zeros(ZeroCount(n)) + len;
    assert Padded(msg) == msg[..w] + tail;
    AbsorbAppend(H0, msg[..w], tail);
    CountZeros(n, r);
    if r + 1 <= 56 {
      AbsorbBlock(state, tail);
    } else {
      var one, two := rest + Zeros(63 - r), Zeros(56) + len;
      ZerosJoin(63 - r, 56);
      assert tail == one + two;
      AbsorbAppend(state, one, two);
      AbsorbBlock(state, one);
      AbsorbBlock(Compress(state, one), two);
    }
  }

  lemma CountZeros(n: nat, r: nat)
    requires r == n - Whole(n)
    ensures ZeroCount(n) == if r + 1 <= 56 then 55 - r else 119 - r
  {
  }

  class Context {
    const state: array<bv32>
    const buf: array<bv8>
    var bufLen: nat
    var bitLen: nat
    /** All the bytes given so far. */
    ghost var msg: seq<bv8>

    ghost predicate Shaped()
      reads this
    {
      state.Length == 8 && buf.Length == BLOCK
    }

    ghost predicate Valid()
      reads this, state, buf
    {
      && Shaped()
      && bufLen == |msg| - Whole(|msg|) && buf[..bufLen] == msg[Whole(|msg|)..]
      && state[..] == Absorb(H0, msg[..Whole(|msg|)])
      && bitLen == 8 * Whole(|msg|) % TWO_TO_THE_64
    }

    constructor ()
      ensures Valid() && msg == [] && fresh(state) && fresh(buf)
    {
      state := new bv32[8](i requires 0 <= i < 8 => H0[i]);
      buf := new bv8[BLOCK];
      bufLen, bitLen, msg := 0, 0, [];
      new;
      assert state[..] == H0;
    }

    method PutByte(b: bv8)
      requires Valid()
      modifies this, state, buf
      ensures Valid() && msg == old(msg) + [b]
    {
      hide Compress, Absorb, H0, Whole;
      WholeSteps(|msg|);
      ghost var w, was := Whole(|msg|), msg;
      buf[bufLen] := b;
      bufLen := bufLen + 1;
      msg := msg + [b];
      assert msg[..w] == was[..w] && buf[..bufLen] == msg[w..];
      if bufLen == BLOCK {
        BlockIsFull(msg, w);
        assert buf[..] == buf[..BLOCK] && msg[..|msg|] == msg;
        Transform(state, buf);
        bitLen := (bitLen + 512) % TWO_TO_THE_64;
        bufLen := 0;
      }
    }

    /** dokan_sha256_update. */
    method Update(data: seq<bv8>)
      requires Valid()
      modifies this, state, buf
      ensures Valid() && msg == old(msg) + data
    {
      hide Valid;
      for i := 0 to |data|
        invariant Valid() && msg == old(msg) + data[..i]
      {
        PutByte(data[i]);
        assert data[..i + 1] == data[..i] + [data[i]];
      }
      assert data[..|data|] == data;
    }

    /** Zero bytes up to `to`. */
    method FillZeros(to: nat)
      requires Shaped() && bufLen <= to <= BLOCK
      modifies `bufLen, buf
      ensures bufLen == to && buf[..to] == old(buf[..bufLen]) + Zeros(to - old(bufLen))
    {
      while bufLen < to
        invariant old(bufLen) <= bufLen <= to
        invariant buf[..bufLen] == old(buf[..bufLen]) + Zeros(bufLen - old(bufLen))
      {
        buf[bufLen] := 0;
        bufLen := bufLen + 1;
      }
    }

    method PutLength(bits: nat)
      requires Shaped() && bufLen == 56 && bits < TWO_TO_THE_64
      modifies `bufLen, buf
      ensures bufLen == BLOCK && buf[..] == old(buf[..56]) + LengthBytes(bits)
    {
      hide LengthByte;
      var i := 8;
      while i > 0
        invariant 0 <= i <= 8 && bufLen == 64 - i
        invariant buf[..bufLen] == old(buf[..56]) + LengthBytes(bits)[..8 - i]
      {
        i := i - 1;
        buf[bufLen] := LengthByte(bits, i);
        bufLen := bufLen + 1;
      }
      assert buf[..BLOCK] == buf[..];
    }

    /** dokan_sha256_final: the hash of everything given, however it was split. */
    method Final(out: array<bv8>)
      requires Valid() && out.Length == 32 && out != buf
      modifies this, state, buf, out
      ensures out[..] == Hash(old(msg))
    {
      hide Compress, Absorb, H0, LengthBytes, Zeros, Digest, Padded, Whole;
      PaddedTail(msg);
      var bits := (bitLen + bufLen * 8) % TWO_TO_THE_64;
      LengthIs(|msg|, bitLen, bufLen);
      buf[bufLen] := 0x80;
      bufLen := bufLen + 1;
      assert buf[..bufLen] == msg[Whole(|msg|)..] + [0x80];
      if bufLen > 56 {
        FillZeros(64);
        assert buf[..64] == buf[..];
        Transform(state, buf);
        bufLen := 0;
        FillZeros(56);
        NoBytes(buf[..0], Zeros(56));
        LastBlock(bits, out);
        return;
      }
      FillZeros(56);
      LastBlock(bits, out);
    }

    /** The length completes the last block, and what comes out of it is the digest. */
    method LastBlock(bits: nat, out: array<bv8>)
      requires Shaped() && bufLen == 56 && bits < TWO_TO_THE_64 && out.Length == 32 && out != buf
      modifies this, state, buf, out
      ensures out[..] == Digest(Compress(old(state[..]), old(buf[..56]) + LengthBytes(bits)))
    {
      hide Compress, LengthBytes, Digest;
      PutLength(bits);
      Transform(state, buf);
      WriteDigest(out);
    }

    method WriteDigest(out: array<bv8>)
      requires Shaped() && out.Length == 32
      modifies out
      ensures out[..] == Digest(state[..])
    {
      hide OutByte;
      for i := 0 to 8
        invariant forall k :: 0 <= k < 4 * i ==> out[k] == OutByte(state[..], k)
      {
        out[i * 4] := OutByte(state[..], i * 4);
        out[i * 4 + 1] := OutByte(state[..], i * 4 + 1);
        out[i * 4 + 2] := OutByte(state[..], i * 4 + 2);
        out[i * 4 + 3] := OutByte(state[..], i * 4 + 3);
      }
    }
  }

  lemma WholeSteps(n: nat)
    ensures n - Whole(n) + 1 < BLOCK ==> Whole(n + 1) == Whole(n)
    ensures n - Whole(n) + 1 == BLOCK ==> Whole(n + 1) == n + 1
    ensures (8 * Whole(n) % TWO_TO_THE_64 + 512) % TWO_TO_THE_64 == 8 * (Whole(n) + BLOCK) % TWO_TO_THE_64
  {
  }

  lemma BlockIsFull(msg: seq<bv8>, w: nat)
    requires w % BLOCK == 0 && |msg| == w + BLOCK
    ensures Whole(|msg|) == |msg| && |H0| == 8
    ensures Absorb(H0, msg) == Compress(Absorb(H0, msg[..w]), msg[w..])
  {
    hide Compress, Absorb, H0;
    H0Length();
    assert msg == msg[..w] + msg[w..];
    AbsorbAppend(H0, msg[..w], msg[w..]);
    AbsorbBlock(Absorb(H0, msg[..w]), msg[w..]);
  }

  lemma H0Length()
    ensures |H0| == 8
  {
  }

  lemma LengthIs(n: nat, bits: nat, r: nat)
    requires r == n - Whole(n) && bits == 8 * Whole(n) % TWO_TO_THE_64
    ensures (bits + r * 8) % TWO_TO_THE_64 == 8 * n % TWO_TO_THE_64
  {
  }

  lemma NoBytes(none: seq<bv8>, some: seq<bv8>)
    requires none == []
    ensures none + some == some
  {
  }

  /** dokan_sha256. */
  method HashOf(data: seq<bv8>, out: array<bv8>)
    requires out.Length == 32
    modifies out
    ensures out[..] == Hash(data)
  {
    var ctx := new Context();
    ctx.Update(data);
    assert ctx.msg == data;
    ctx.Final(out);
  }

  function Concat(chunks: seq<seq<bv8>>): seq<bv8> {
    if chunks == [] then [] else Concat(chunks[..|chunks| - 1]) + chunks[|chunks| - 1]
  }

  /** However the data is split into updates, the hash is that of the whole. */
  method HashOfChunks(chunks: seq<seq<bv8>>, out: array<bv8>)
    requires out.Length == 32
    modifies out
    ensures out[..] == Hash(Concat(chunks))
  {
    hide Context.Valid;
    var ctx := new Context();
    for i := 0 to |chunks|
      invariant ctx.Valid() && ctx.msg == Concat(chunks[..i]) && fresh(ctx) && fresh(ctx.state) && fresh(ctx.buf)
    {
      ctx.Update(chunks[i]);
      assert chunks[..i + 1][..i] == chunks[..i];
    }
    assert chunks[..|chunks|] == chunks;
    ctx.Final(out);
  }
}
