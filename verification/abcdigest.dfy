/** The hash of "abc", the one-block message of appendix B.1 of FIPS 180-2, worked out from the functions of the hash. */
module AbcDigest {
  import opened Sha256

  const ABC: seq<bv8> := [0x61, 0x62, 0x63]

  function Block(): (b: seq<bv8>)
    ensures |b| == BLOCK
  {
    BlockIs();
    Padded(ABC)
  }

  lemma BlockIs()
    ensures |Padded(ABC)| == BLOCK
    ensures Padded(ABC)[..4] == ABC + [0x80]
    ensures forall i :: 4 <= i < 63 ==> Padded(ABC)[i] == 0
    ensures Padded(ABC)[63] == 24
  {
    var p, n := Padded(ABC), LengthBytes(24);
    assert ZeroCount(3) == 52;
    assert p == ABC + [0x80] + Zeros(52) + n;
    LengthIs24();
  }

  lemma LengthIs24()
    ensures LengthBytes(24) == [0, 0, 0, 0, 0, 0, 0, 24]
  {
    hide LengthDigit;
    forall i: nat | i < 8 ensures LengthBytes(24)[i] == if i == 7 then 24 else 0 {
      DigitOf24(7 - i);
    }
  }

  lemma DigitOf24(i: nat)
    ensures LengthDigit(24, i) == if i == 0 then 24 else 0
  {
    hide Pow256;
    PowerGrows(i);
    if i > 0 {
      QuotientIs(24, Pow256(i), 0, 24);
    }
  }

  lemma {:induction false} PowerGrows(i: nat)
    ensures Pow256(0) == 1 && (i > 0 ==> Pow256(i) >= 256)
  {
    if i > 1 {
      PowerGrows(i - 1);
    }
  }

  // ---- the message schedule ----------------------------------------------------------

  function W(i: nat): bv32
    requires i < 64
  {
    Schedule(Block(), 64)[i]
  }

  lemma {:induction false} ScheduleStarts(b: seq<bv8>, n: nat, m: nat)
    requires |b| == BLOCK && n <= m
    ensures Schedule(b, m)[..n] == Schedule(b, n)
  {
    hide NextWord, Word;
    if n < m {
      ScheduleStarts(b, n, m - 1);
      assert Schedule(b, m)[..m - 1] == Schedule(b, m - 1);
      assert Schedule(b, m)[..n] == Schedule(b, m)[..m - 1][..n];
    }
  }

  lemma WordIs(i: nat)
    requires i < 64
    ensures i < 16 ==> W(i) == Word(Block(), i)
    ensures i >= 16 ==> W(i) == NextWord(W(i - 2), W(i - 7), W(i - 15), W(i - 16))
  {
    hide NextWord, Word, Block;
    var b := Block();
    ScheduleStarts(b, i, 64);
    ScheduleStarts(b, i + 1, 64);
    ScheduleStep(b, i);
    assert Schedule(b, 64)[..i + 1][i] == W(i);
    if i >= 16 {
      var w := Schedule(b, i);
      assert w[i - 2] == W(i - 2) && w[i - 7] == W(i - 7) && w[i - 15] == W(i - 15) && w[i - 16] == W(i - 16);
    }
  }

  lemma FirstWords()
    ensures W(0) == 0x61626380 && W(15) == 0x00000018
    ensures forall i :: 1 <= i < 15 ==> W(i) == 0
  {
    hide Block, W;
    BlockParts();
    WordIs(0);
    WordIs(15);
    forall i | 1 <= i < 15 ensures W(i) == 0 {
      WordIs(i);
    }
  }

  lemma BlockParts()
    ensures Block()[0] == 0x61 && Block()[1] == 0x62 && Block()[2] == 0x63 && Block()[3] == 0x80 && Block()[63] == 24
    ensures forall i :: 4 <= i < 63 ==> Block()[i] == 0
  {
    BlockIs();
    var p := Padded(ABC);
    assert p[..4][0] == p[0] && p[..4][1] == p[1] && p[..4][2] == p[2] && p[..4][3] == p[3];
  }

  lemma Words16()
    ensures W(16) == 0x61626380 && W(17) == 0x000f0000 && W(18) == 0x7da86405 && W(19) == 0x600003c6
    ensures W(20) == 0x3e9d7b78 && W(21) == 0x0183fc00 && W(22) == 0x12dcbfdb && W(23) == 0xe2e2c38e
  {
    hide W;
    FirstWords();
    WordIs(16); WordIs(17); WordIs(18); WordIs(19);
    WordIs(20); WordIs(21); WordIs(22); WordIs(23);
  }

  lemma Words24()
    ensures W(24) == 0xc8215c1a && W(25) == 0xb73679a2 && W(26) == 0xe5bc3909 && W(27) == 0x32663c5b
    ensures W(28) == 0x9d209d67 && W(29) == 0xec8726cb && W(30) == 0x702138a4 && W(31) == 0xd3b7973b
  {
    hide W;
    FirstWords(); Words16();
    WordIs(24); WordIs(25); WordIs(26); WordIs(27);
    WordIs(28); WordIs(29); WordIs(30); WordIs(31);
  }

  lemma Words32()
    ensures W(32) == 0x93f5997f && W(33) == 0x3b68ba73 && W(34) == 0xaff4ffc1 && W(35) == 0xf10a5c62
    ensures W(36) == 0x0a8b3996 && W(37) == 0x72af830a && W(38) == 0x9409e33e && W(39) == 0x24641522
  {
    hide W;
    Words16(); Words24();
    WordIs(32); WordIs(33); WordIs(34); WordIs(35);
    WordIs(36); WordIs(37); WordIs(38); WordIs(39);
  }

  lemma Words40()
    ensures W(40) == 0x9f47bf94 && W(41) == 0xf0a64f5a && W(42) == 0x3e246a79 && W(43) == 0x27333ba3
    ensures W(44) == 0x0c4763f2 && W(45) == 0x840abf27 && W(46) == 0x7a290d5d && W(47) == 0x065c43da
  {
    hide W;
    Words24(); Words32();
    WordIs(40); WordIs(41); WordIs(42); WordIs(43);
    WordIs(44); WordIs(45); WordIs(46); WordIs(47);
  }

  lemma Words48()
    ensures W(48) == 0xfb3e89cb && W(49) == 0xcc7617db && W(50) == 0xb9e66c34 && W(51) == 0xa9993667
    ensures W(52) == 0x84badedd && W(53) == 0xc21462bc && W(54) == 0x1487472c && W(55) == 0xb20f7a99
  {
    hide W;
    Words32(); Words40();
    WordIs(48); WordIs(49); WordIs(50); WordIs(51);
    WordIs(52); WordIs(53); WordIs(54); WordIs(55);
  }

  lemma Words56()
    ensures W(56) == 0xef57b9cd && W(57) == 0xebe6b238 && W(58) == 0x9fe3095e && W(59) == 0x78bc8d4b
    ensures W(60) == 0xa43fcf15 && W(61) == 0x668b2ff8 && W(62) == 0xeeaba2cc && W(63) == 0x12b1edeb
  {
    hide W;
    Words40(); Words48();
    WordIs(56); WordIs(57); WordIs(58); WordIs(59);
    WordIs(60); WordIs(61); WordIs(62); WordIs(63);
  }

  // ---- the turns ------------------------------------------------------------------------

  function After(n: nat): Vars
    requires n <= 64
  {
    KLength();
    H0Length();
    Turns(Loaded(H0), Schedule(Block(), 64), n)
  }

  lemma OneTurn(t: nat)
    requires t < 64
    ensures |K| == 64 && After(t + 1) == Turn(After(t), K[t], W(t))
  {
    hide Turn, K, Schedule, Block, H0;
    KLength();
    H0Length();
    TurnsStep(Loaded(H0), Schedule(Block(), 64), t);
  }

  lemma Before()
    ensures After(0) == Vars(0x6a09e667, 0xbb67ae85, 0x3c6ef372, 0xa54ff53a, 0x510e527f, 0x9b05688c, 0x1f83d9ab, 0x5be0cd19)
  {
  }

  lemma Constants0()
    ensures |K| == 64
    ensures K[0] == 0x428a2f98 && K[1] == 0x71374491 && K[2] == 0xb5c0fbcf && K[3] == 0xe9b5dba5
    ensures K[4] == 0x3956c25b && K[5] == 0x59f111f1 && K[6] == 0x923f82a4 && K[7] == 0xab1c5ed5
  {
  }

  lemma Turns0()
    ensures After(8) == Vars(0x85a07b5f, 0xe5030380, 0x2b4209f5, 0x04409a6a, 0x0c657a79, 0x9b27a401, 0x714260ad, 0x43ada245)
  {
    hide After, W, K;
    Before();
    FirstWords(); Constants0();
    OneTurn(0); OneTurn(1); OneTurn(2); OneTurn(3);
    OneTurn(4); OneTurn(5); OneTurn(6); OneTurn(7);
  }

  lemma Constants8()
    ensures |K| == 64
    ensures K[8] == 0xd807aa98 && K[9] == 0x12835b01 && K[10] == 0x243185be && K[11] == 0x550c7dc3
    ensures K[12] == 0x72be5d74 && K[13] == 0x80deb1fe && K[14] == 0x9bdc06a7 && K[15] == 0xc19bf174
  {
  }

  lemma Turns8()
    ensures After(16) == Vars(0xb0fa238e, 0xc0645fde, 0xd932eb16, 0x87912990, 0x07590dcd, 0x0b92f20c, 0x745a48de, 0x1e578218)
  {
    hide After, W, K;
    Turns0();
    FirstWords(); Constants8();
    OneTurn(8); OneTurn(9); OneTurn(10); OneTurn(11);
    OneTurn(12); OneTurn(13); OneTurn(14); OneTurn(15);
  }

  lemma Constants16()
    ensures |K| == 64
    ensures K[16] == 0xe49b69c1 && K[17] == 0xefbe4786 && K[18] == 0x0fc19dc6 && K[19] == 0x240ca1cc
    ensures K[20] == 0x2de92c6f && K[21] == 0x4a7484aa && K[22] == 0x5cb0a9dc && K[23] == 0x76f988da
  {
  }

  lemma Turns16()
    ensures After(24) == Vars(0xc5d53d8d, 0xa7a3623f, 0xc2606d6d, 0x9dc68b63, 0xaa47c347, 0x49f5114a, 0xe1257970, 0x8ada8930)
  {
    hide After, W, K;
    Turns8();
    Words16(); Constants16();
    OneTurn(16); OneTurn(17); OneTurn(18); OneTurn(19);
    OneTurn(20); OneTurn(21); OneTurn(22); OneTurn(23);
  }

  lemma Constants24()
    ensures |K| == 64
    ensures K[24] == 0x983e5152 && K[25] == 0xa831c66d && K[26] == 0xb00327c8 && K[27] == 0xbf597fc7
    ensures K[28] == 0xc6e00bf3 && K[29] == 0xd5a79147 && K[30] == 0x06ca6351 && K[31] == 0x14292967
  {
  }

  lemma Turns24()
    ensures After(32) == Vars(0x73b33bf5, 0xea992a22, 0xa0060b30, 0x363482c9, 0xba591112, 0x0109ab3a, 0xade79437, 0x6112a3b7)
  {
    hide After, W, K;
    Turns16();
    Words24(); Constants24();
    OneTurn(24); OneTurn(25); OneTurn(26); OneTurn(27);
    OneTurn(28); OneTurn(29); OneTurn(30); OneTurn(31);
  }

  lemma Constants32()
    ensures |K| == 64
    ensures K[32] == 0x27b70a85 && K[33] == 0x2e1b2138 && K[34] == 0x4d2c6dfc && K[35] == 0x53380d13
    ensures K[36] == 0x650a7354 && K[37] == 0x766a0abb && K[38] == 0x81c2c92e && K[39] == 0x92722c85
  {
  }

  lemma Turns32()
    ensures After(40) == Vars(0x79ea687a, 0x6dc57a8a, 0x34df1604, 0x41a65cb1, 0x1efbc0a0, 0xf0781bc8, 0xa507a53d, 0x0772a26b)
  {
    hide After, W, K;
    Turns24();
    Words32(); Constants32();
    OneTurn(32); OneTurn(33); OneTurn(34); OneTurn(35);
    OneTurn(36); OneTurn(37); OneTurn(38); OneTurn(39);
  }

  lemma Constants40()
    ensures |K| == 64
    ensures K[40] == 0xa2bfe8a1 && K[41] == 0xa81a664b && K[42] == 0xc24b8b70 && K[43] == 0xc76c51a3
    ensures K[44] == 0xd192e819 && K[45] == 0xd6990624 && K[46] == 0xf40e3585 && K[47] == 0x106aa070
  {
  }

  lemma Turns40()
    ensures After(48) == Vars(0x4172328d, 0xa14c14b0, 0x72ab4b91, 0x26628815, 0xfecf0bc6, 0xd57b94a9, 0xb7755da1, 0xa80f11f0)
  {
    hide After, W, K;
    Turns32();
    Words40(); Constants40();
    OneTurn(40); OneTurn(41); OneTurn(42); OneTurn(43);
    OneTurn(44); OneTurn(45); OneTurn(46); OneTurn(47);
  }

  lemma Constants48()
    ensures |K| == 64
    ensures K[48] == 0x19a4c116 && K[49] == 0x1e376c08 && K[50] == 0x2748774c && K[51] == 0x34b0bcb5
    ensures K[52] == 0x391c0cb3 && K[53] == 0x4ed8aa4a && K[54] == 0x5b9cca4f && K[55] == 0x682e6ff3
  {
  }

  lemma Turns48()
    ensures After(56) == Vars(0x38cc9913, 0x3ec45cdb, 0xf5702fdb, 0x101fd28f, 0x54cb266b, 0xe50e1b4f, 0x9f4787c3, 0x529e7d00)
  {
    hide After, W, K;
    Turns40();
    Words48(); Constants48();
    OneTurn(48); OneTurn(49); OneTurn(50); OneTurn(51);
    OneTurn(52); OneTurn(53); OneTurn(54); OneTurn(55);
  }

  lemma Constants56()
    ensures |K| == 64
    ensures K[56] == 0x748f82ee && K[57] == 0x78a5636f && K[58] == 0x84c87814 && K[59] == 0x8cc70208
    ensures K[60] == 0x90befffa && K[61] == 0xa4506ceb && K[62] == 0xbef9a3f7 && K[63] == 0xc67178f2
  {
  }

  lemma Turns56()
    ensures After(64) == Vars(0x506e3058, 0xd39a2165, 0x04d24d6c, 0xb85e2ce9, 0x5ef50f24, 0xfb121210, 0x948d25b6, 0x961f4894)
  {
    hide After, W, K;
    Turns48();
    Words56(); Constants56();
    OneTurn(56); OneTurn(57); OneTurn(58); OneTurn(59);
    OneTurn(60); OneTurn(61); OneTurn(62); OneTurn(63);
  }

  // ---- the digest -----------------------------------------------------------------------

  const LAST: seq<bv32> := [0xba7816bf, 0x8f01cfea, 0x414140de, 0x5dae2223, 0xb00361a3, 0x96177a9c, 0xb410ff61, 0xf20015ad]

  lemma Compressed()
    ensures |H0| == 8 && Compress(H0, Block()) == LAST
  {
    hide Turns, Schedule, Block, Turn, K;
    H0Length();
    KLength();
    Before();
    Turns56();
    assert Compress(H0, Block()) == Added(H0, After(64));
  }

  lemma OneBlock()
    ensures |H0| == 8 && Absorb(H0, Padded(ABC)) == LAST
  {
    hide Compress;
    H0Length();
    BlockIs();
    AbsorbBlock(H0, Padded(ABC));
    Compressed();
  }

  lemma Bytes0()
    ensures |LAST| == 8 && Digest(LAST)[0..4] == [0xba, 0x78, 0x16, 0xbf]
  {
    assert OutByte(LAST, 0) == 0xba && OutByte(LAST, 1) == 0x78 && OutByte(LAST, 2) == 0x16 && OutByte(LAST, 3) == 0xbf;
  }

  lemma Bytes4()
    ensures |LAST| == 8 && Digest(LAST)[4..8] == [0x8f, 0x01, 0xcf, 0xea]
  {
    assert OutByte(LAST, 4) == 0x8f && OutByte(LAST, 5) == 0x01 && OutByte(LAST, 6) == 0xcf && OutByte(LAST, 7) == 0xea;
  }

  lemma Bytes8()
    ensures |LAST| == 8 && Digest(LAST)[8..12] == [0x41, 0x41, 0x40, 0xde]
  {
    assert OutByte(LAST, 8) == 0x41 && OutByte(LAST, 9) == 0x41 && OutByte(LAST, 10) == 0x40 && OutByte(LAST, 11) == 0xde;
  }

  lemma Bytes12()
    ensures |LAST| == 8 && Digest(LAST)[12..16] == [0x5d, 0xae, 0x22, 0x23]
  {
    assert OutByte(LAST, 12) == 0x5d && OutByte(LAST, 13) == 0xae && OutByte(LAST, 14) == 0x22 && OutByte(LAST, 15) == 0x23;
  }

  lemma Bytes16()
    ensures |LAST| == 8 && Digest(LAST)[16..20] == [0xb0, 0x03, 0x61, 0xa3]
  {
    assert OutByte(LAST, 16) == 0xb0 && OutByte(LAST, 17) == 0x03 && OutByte(LAST, 18) == 0x61 && OutByte(LAST, 19) == 0xa3;
  }

  lemma Bytes20()
    ensures |LAST| == 8 && Digest(LAST)[20..24] == [0x96, 0x17, 0x7a, 0x9c]
  {
    assert OutByte(LAST, 20) == 0x96 && OutByte(LAST, 21) == 0x17 && OutByte(LAST, 22) == 0x7a && OutByte(LAST, 23) == 0x9c;
  }

  lemma Bytes24()
    ensures |LAST| == 8 && Digest(LAST)[24..28] == [0xb4, 0x10, 0xff, 0x61]
  {
    assert OutByte(LAST, 24) == 0xb4 && OutByte(LAST, 25) == 0x10 && OutByte(LAST, 26) == 0xff && OutByte(LAST, 27) == 0x61;
  }

  lemma Bytes28()
    ensures |LAST| == 8 && Digest(LAST)[28..32] == [0xf2, 0x00, 0x15, 0xad]
  {
    assert OutByte(LAST, 28) == 0xf2 && OutByte(LAST, 29) == 0x00 && OutByte(LAST, 30) == 0x15 && OutByte(LAST, 31) == 0xad;
  }

  /** The hash of "abc" is the one that appendix B.1 of FIPS 180-2 gives. */
  lemma HashOfAbc()
    ensures Hash(ABC) ==
      [0xba, 0x78, 0x16, 0xbf] + [0x8f, 0x01, 0xcf, 0xea] + [0x41, 0x41, 0x40, 0xde] + [0x5d, 0xae, 0x22, 0x23] +
      [0xb0, 0x03, 0x61, 0xa3] + [0x96, 0x17, 0x7a, 0x9c] + [0xb4, 0x10, 0xff, 0x61] + [0xf2, 0x00, 0x15, 0xad]
  {
    hide Absorb, Padded, Digest;
    OneBlock();
    Bytes0(); Bytes4(); Bytes8(); Bytes12(); Bytes16(); Bytes20(); Bytes24(); Bytes28();
    var d := Digest(LAST);
    Quarters(d);
  }

  lemma Quarters(d: seq<bv8>)
    requires |d| == 32
    ensures d == d[0..4] + d[4..8] + d[8..12] + d[12..16] + d[16..20] + d[20..24] + d[24..28] + d[28..32]
  {
  }
}
