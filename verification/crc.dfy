/** The CRC-8 with polynomial 0x07, and the errors it is sure to notice. */
module Crc {
  // ---- the register -------------------------------------------------------------

  function Xor(a: bv8, b: bv8): bv8 {
    a ^ b
  }

  function Round(c: bv8): bv8 {
    if c & 0x80 != 0 then (c << 1) ^ 0x07 else c << 1
  }

  function Rounds(c: bv8, n: nat): bv8 {
    if n == 0 then c else Round(Rounds(c, n - 1))
  }

  /** What eight rounds make of the register. */
  function Step(c: bv8): bv8 {
    Rounds(c, 8)
  }

  lemma StepUnrolled(c: bv8)
    ensures Step(c) == Round(Round(Round(Round(Round(Round(Round(Round(c))))))))
  {
    hide Round;
    OneRound(c, 1);
    OneRound(c, 2);
    OneRound(c, 3);
    OneRound(c, 4);
    OneRound(c, 5);
    OneRound(c, 6);
    OneRound(c, 7);
    OneRound(c, 8);
  }

  lemma OneRound(c: bv8, n: nat)
    requires n > 0
    ensures Rounds(c, n) == Round(Rounds(c, n - 1)) && Rounds(c, 0) == c
  {
  }

  function CrcFrom(c: bv8, data: seq<bv8>): bv8
    decreases |data|
  {
    if data == [] then c else CrcFrom(Step(Xor(c, data[0])), data[1..])
  }

  function Crc8(data: seq<bv8>): bv8 {
    CrcFrom(0, data)
  }

  lemma {:induction false} CrcAppend(c: bv8, xs: seq<bv8>, ys: seq<bv8>)
    ensures CrcFrom(c, xs + ys) == CrcFrom(CrcFrom(c, xs), ys)
    decreases |xs|
  {
    hide Step, Xor;
    if xs == [] {
      assert xs + ys == ys;
    } else {
      assert (xs + ys)[1..] == xs[1..] + ys;
      CrcAppend(Step(Xor(c, xs[0])), xs[1..], ys);
    }
  }

  lemma CrcOne(c: bv8, b: bv8)
    ensures CrcFrom(c, [b]) == Step(Xor(c, b))
  {
    hide Step, Xor;
    assert [b][1..] == [];
  }

  /** The check value of CRC-8 with polynomial 0x07: the CRC of the digits 1 to 9. */
  lemma CheckValue()
    ensures Crc8([0x31, 0x32, 0x33, 0x34, 0x35, 0x36, 0x37, 0x38, 0x39]) == 0xf4
  {
    hide Step;
    CrcOfNone(0xf4);
    var d9: seq<bv8> := [];
    var d8 := [0x39] + d9;
    var d7 := [0x38] + d8;
    var d6 := [0x37] + d7;
    var d5 := [0x36] + d6;
    var d4 := [0x35] + d5;
    var d3 := [0x34] + d4;
    var d2 := [0x33] + d3;
    var d1 := [0x32] + d2;
    var d0 := [0x31] + d1;
    Takes(0x00, 0x31, 0x97, d1);
    Takes(0x97, 0x32, 0x72, d2);
    Takes(0x72, 0x33, 0xc0, d3);
    Takes(0xc0, 0x34, 0xc2, d4);
    Takes(0xc2, 0x35, 0xcb, d5);
    Takes(0xcb, 0x36, 0xfd, d6);
    Takes(0xfd, 0x37, 0x78, d7);
    Takes(0x78, 0x38, 0xc7, d8);
    Takes(0xc7, 0x39, 0xf4, d9);
    assert d0 == [0x31, 0x32, 0x33, 0x34, 0x35, 0x36, 0x37, 0x38, 0x39];
  }

  lemma CrcOfNone(c: bv8)
    ensures CrcFrom(c, []) == c
  {
  }

  lemma Takes(c: bv8, b: bv8, r: bv8, rest: seq<bv8>)
    requires r == Round(Round(Round(Round(Round(Round(Round(Round(c ^ b))))))))
    ensures CrcFrom(c, [b] + rest) == CrcFrom(r, rest)
  {
    hide Step, Round;
    StepUnrolled(c ^ b);
    assert ([b] + rest)[1..] == rest;
  }

  method ComputeCrc8(data: seq<bv8>) returns (crc: bv8)
    ensures crc == Crc8(data)
  {
    hide Round, Xor;
    crc := 0;
    for i := 0 to |data|
      invariant crc == Crc8(data[..i])
    {
      assert data[..i + 1] == data[..i] + [data[i]];
      CrcAppend(0, data[..i], [data[i]]);
      CrcOne(crc, data[i]);
      crc := Xor(crc, data[i]);
      ghost var c := crc;
      for b := 0 to 8
        invariant crc == Rounds(c, b)
      {
        crc := Round(crc);
      }
    }
    assert data[..|data|] == data;
  }

  // ---- linearity and bijectivity --------------------------------------------------

  lemma RoundIsLinear(a: bv8, b: bv8)
    ensures Round(Xor(a, b)) == Xor(Round(a), Round(b))
  {
    TopBit(a, b);
    if a & 0x80 != 0 { if b & 0x80 != 0 {} else {} } else { if b & 0x80 != 0 {} else {} }
  }

  lemma TopBit(a: bv8, b: bv8)
    ensures (a ^ b) & 0x80 == (a & 0x80) ^ (b & 0x80)
  {
  }

  lemma RoundIsInjective(a: bv8, b: bv8)
    requires Round(a) == Round(b)
    ensures a == b
  {
  }

  lemma {:induction false} RoundsAreLinear(a: bv8, b: bv8, n: nat)
    ensures Rounds(Xor(a, b), n) == Xor(Rounds(a, n), Rounds(b, n))
  {
    hide Round, Xor;
    if n > 0 {
      RoundsAreLinear(a, b, n - 1);
      RoundIsLinear(Rounds(a, n - 1), Rounds(b, n - 1));
    }
  }

  lemma {:induction false} RoundsAreInjective(a: bv8, b: bv8, n: nat)
    requires Rounds(a, n) == Rounds(b, n)
    ensures a == b
  {
    hide Round;
    if n > 0 {
      RoundIsInjective(Rounds(a, n - 1), Rounds(b, n - 1));
      RoundsAreInjective(a, b, n - 1);
    }
  }

  lemma StepIsLinear(a: bv8, b: bv8)
    ensures Step(Xor(a, b)) == Xor(Step(a), Step(b))
  {
    hide Rounds, Xor;
    RoundsAreLinear(a, b, 8);
  }

  lemma StepIsInjective(a: bv8, b: bv8)
    requires Step(a) == Step(b)
    ensures a == b
  {
    hide Rounds;
    RoundsAreInjective(a, b, 8);
  }

  /** The bytewise difference of two messages. */
  function Difference(xs: seq<bv8>, ys: seq<bv8>): (r: seq<bv8>)
    requires |xs| == |ys|
    ensures |r| == |xs|
  {
    seq(|xs|, i requires 0 <= i < |xs| => Xor(xs[i], ys[i]))
  }

  /** The CRC of a difference is the difference of the CRCs. */
  lemma {:induction false} CrcIsLinear(c: bv8, d: bv8, xs: seq<bv8>, ys: seq<bv8>)
    requires |xs| == |ys|
    ensures CrcFrom(Xor(c, d), Difference(xs, ys)) == Xor(CrcFrom(c, xs), CrcFrom(d, ys))
    decreases |xs|
  {
    hide Step, Xor;
    if xs != [] {
      var a, b := Xor(c, xs[0]), Xor(d, ys[0]);
      StepIsLinear(a, b);
      Regroup(c, d, xs[0], ys[0]);
      assert Difference(xs, ys)[1..] == Difference(xs[1..], ys[1..]);
      CrcIsLinear(Step(a), Step(b), xs[1..], ys[1..]);
    }
  }

  lemma Regroup(c: bv8, d: bv8, x: bv8, y: bv8)
    ensures Xor(Xor(c, d), Xor(x, y)) == Xor(Xor(c, x), Xor(d, y))
  {
    hide Xor;
    XorMoves(c, d, Xor(x, y));
    XorMoves(d, x, y);
    XorMoves(x, d, y);
    XorMoves(c, x, Xor(d, y));
  }

  lemma XorMoves(a: bv8, b: bv8, c: bv8)
    ensures Xor(Xor(a, b), c) == Xor(a, Xor(b, c)) && Xor(a, b) == Xor(b, a)
  {
  }

  /** Different registers stay different over the same data. */
  lemma {:induction false} CrcIsInjective(c: bv8, d: bv8, data: seq<bv8>)
    requires CrcFrom(c, data) == CrcFrom(d, data)
    ensures c == d
    decreases |data|
  {
    hide Step, Xor;
    if data != [] {
      CrcIsInjective(Step(Xor(c, data[0])), Step(Xor(d, data[0])), data[1..]);
      StepIsInjective(Xor(c, data[0]), Xor(d, data[0]));
      XorCancels(c, d, data[0]);
    }
  }

  lemma XorCancels(c: bv8, d: bv8, x: bv8)
    ensures Xor(c, x) == Xor(d, x) ==> c == d
    ensures Xor(x, c) == Xor(x, d) ==> c == d
  {
  }

  // ---- checking -------------------------------------------------------------------

  /** A message followed by the right check byte, and by no other, has CRC zero. */
  lemma CheckByte(data: seq<bv8>, check: bv8)
    ensures Crc8(data + [check]) == 0 <==> check == Crc8(data)
  {
    hide Step, Xor;
    var c := Crc8(data);
    CrcAppend(0, data, [check]);
    CrcOne(c, check);
    StepOfZero();
    XorIsZero(c, check);
    if Step(Xor(c, check)) == 0 {
      StepIsInjective(Xor(c, check), 0);
    }
  }

  lemma StepOfZero()
    ensures Step(0) == 0
  {
    hide Step, Xor;
    XorIsZero(0, 0);
    StepIsLinear(0, 0);
    XorIsZero(Step(0), Step(0));
  }

  lemma XorIsZero(a: bv8, b: bv8)
    ensures Xor(a, b) == 0 <==> a == b
  {
  }

  // ---- short bursts -----------------------------------------------------------------

  /** Registers that agree again after two bytes agree only if the second error undoes the first. */
  lemma BurstChangesRegister(c: bv8, x: bv8, y: bv8, x1: bv8, y1: bv8)
    requires Step(Xor(Step(Xor(c, x)), y)) == Step(Xor(Step(Xor(c, x1)), y1))
    ensures Step(Xor(x, x1)) == Xor(y, y1)
  {
    hide Step, Xor;
    var a, b := Step(Xor(c, x)), Step(Xor(c, x1));
    StepIsInjective(Xor(a, y), Xor(b, y1));
    Shuffle(a, b, y, y1);
    Cancel(c, x, x1);
    StepIsLinear(Xor(c, x), Xor(c, x1));
  }

  lemma Cancel(c: bv8, x: bv8, y: bv8)
    ensures Xor(Xor(c, x), Xor(c, y)) == Xor(x, y)
  {
  }

  lemma Shuffle(a: bv8, b: bv8, y: bv8, z: bv8)
    requires Xor(a, y) == Xor(b, z)
    ensures Xor(a, b) == Xor(y, z)
  {
  }

  lemma FeedOne(xs: seq<bv8>, i: nat)
    requires i < |xs|
    ensures Crc8(xs) == CrcFrom(Step(Xor(Crc8(xs[..i]), xs[i])), xs[i + 1..])
  {
    hide Step, Xor;
    assert xs == xs[..i] + xs[i..];
    CrcAppend(0, xs[..i], xs[i..]);
    assert xs[i..][1..] == xs[i + 1..];
  }

  lemma FeedTwo(xs: seq<bv8>, i: nat)
    requires i + 2 <= |xs|
    ensures Crc8(xs) == CrcFrom(Step(Xor(Step(Xor(Crc8(xs[..i]), xs[i])), xs[i + 1])), xs[i + 2..])
  {
    hide Step, Xor;
    FeedOne(xs, i);
    assert xs[i + 1..][1..] == xs[i + 2..];
  }

  /** Two messages that differ only in two neighbouring bytes have different CRCs, unless the second error undoes the first. */
  lemma BurstIsNoticed(xs: seq<bv8>, ys: seq<bv8>, i: nat)
    requires |xs| == |ys| && i + 2 <= |xs|
    requires xs[..i] == ys[..i] && xs[i + 2..] == ys[i + 2..]
    requires Step(Xor(xs[i], ys[i])) != Xor(xs[i + 1], ys[i + 1])
    ensures Crc8(xs) != Crc8(ys)
  {
    hide Step, Xor, Crc8;
    var c := Crc8(xs[..i]);
    FeedTwo(xs, i);
    FeedTwo(ys, i);
    if Crc8(xs) == Crc8(ys) {
      CrcIsInjective(Step(Xor(Step(Xor(c, xs[i])), xs[i + 1])), Step(Xor(Step(Xor(c, ys[i])), ys[i + 1])), xs[i + 2..]);
      BurstChangesRegister(c, xs[i], xs[i + 1], ys[i], ys[i + 1]);
    }
  }

  /** One wrong byte is noticed. */
  lemma OneByteIsNoticed(xs: seq<bv8>, ys: seq<bv8>, i: nat)
    requires |xs| == |ys| && i < |xs| && xs[i] != ys[i]
    requires xs[..i] == ys[..i] && xs[i + 1..] == ys[i + 1..]
    ensures Crc8(xs) != Crc8(ys)
  {
    hide Step, Xor, Crc8;
    var c := Crc8(xs[..i]);
    FeedOne(xs, i);
    FeedOne(ys, i);
    if Crc8(xs) == Crc8(ys) {
      CrcIsInjective(Step(Xor(c, xs[i])), Step(Xor(c, ys[i])), xs[i + 1..]);
      StepIsInjective(Xor(c, xs[i]), Xor(c, ys[i]));
      XorCancels(xs[i], ys[i], c);
    }
  }
}
