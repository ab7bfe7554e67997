/**
 What the two tables of the hash are (sections 4.2.2 and 5.3.3 of FIPS 180-4): the first 32 bits of the fractional parts of the
 cube roots of the first 64 primes, and of the square roots of the first eight.
 */
module Roots {
  import opened Sha256
  import AbcDigest

  const FIRST: seq<nat> := [2, 3, 5, 7, 11, 13, 17, 19, 23, 29, 31, 37, 41, 43, 47, 53]

  const SECOND: seq<nat> := [59, 61, 67, 71, 73, 79, 83, 89, 97, 101, 103, 107, 109, 113, 127, 131]

  const THIRD: seq<nat> := [137, 139, 149, 151, 157, 163, 167, 173, 179, 181, 191, 193, 197, 199, 211, 223]

  const FOURTH: seq<nat> := [227, 229, 233, 239, 241, 251, 257, 263, 269, 271, 277, 281, 283, 293, 307, 311]

  const PRIMES: seq<nat> := FIRST + SECOND + THIRD + FOURTH

  // ---- they are the primes ---------------------------------------------------------

  predicate IsPrime(n: nat) {
    n >= 2 && forall d :: 2 <= d < n ==> n % d != 0
  }

  /** Not divisible by any prime below 19. */
  predicate Sieved(n: nat) {
    n % 2 != 0 && n % 3 != 0 && n % 5 != 0 && n % 7 != 0 && n % 11 != 0 && n % 13 != 0 && n % 17 != 0
  }

  /** A number below 361 that has a divisor has one below 19. */
  lemma SmallDivisor(n: nat, d: nat, e: nat)
    requires n == d * e && n < 361 && 2 <= d <= e
    ensures d < 19
  {
    if d >= 19 {
      Products(d, e);
      assert false;
    }
  }

  lemma Products(d: nat, e: nat)
    requires 19 <= d <= e
    ensures d * e >= 361
  {
    assert d * e >= 19 * e;
  }

  lemma Regroup(n: nat, d: nat, q: nat, m: nat, e: nat)
    requires n == d * e && d == q * m
    ensures n == q * (m * e)
  {
  }

  lemma DividedIsNotSieved(n: nat, d: nat, e: nat)
    requires n == d * e && 2 <= d < 19
    ensures !Sieved(n)
  {
    hide Sieved;
    if d % 2 == 0 {
      Regroup(n, d, 2, d / 2, e);
      NotSieved(n, 2, d / 2 * e);
    } else if d % 3 == 0 {
      Regroup(n, d, 3, d / 3, e);
      NotSieved(n, 3, d / 3 * e);
    } else if d % 5 == 0 {
      Regroup(n, d, 5, d / 5, e);
      NotSieved(n, 5, d / 5 * e);
    } else {
      NotSieved(n, d, e);
    }
  }

  lemma NotSieved(n: nat, q: nat, x: nat)
    requires n == q * x && (q == 2 || q == 3 || q == 5 || q == 7 || q == 11 || q == 13 || q == 17)
    ensures !Sieved(n)
  {
    MultipleOf(q, x);
  }

  lemma MultipleOf(q: nat, x: nat)
    requires q > 0
    ensures q * x % q == 0
  {
    QuotientIs(q * x, q, x, 0);
    assert q * x == q * x / q * q + q * x % q;
  }

  lemma SievedIsPrime(n: nat)
    requires 18 < n < 361
    ensures Sieved(n) <==> IsPrime(n)
  {
    if !Sieved(n) {
      assert n % 2 == 0 || n % 3 == 0 || n % 5 == 0 || n % 7 == 0 || n % 11 == 0 || n % 13 == 0 || n % 17 == 0;
    } else {
      forall d | 2 <= d < n ensures n % d != 0 {
        if n % d == 0 {
          Divides(n, d, n / d);
          assert false;
        }
      }
    }
  }

  lemma Divides(n: nat, d: nat, e: nat)
    requires n == d * e && 2 <= d < n < 361
    ensures !Sieved(n)
  {
    if d <= e {
      SmallDivisor(n, d, e);
      DividedIsNotSieved(n, d, e);
    } else {
      CoFactor(n, d, e);
      SmallDivisor(n, e, d);
      DividedIsNotSieved(n, e, d);
    }
  }

  lemma CoFactor(n: nat, d: nat, e: nat)
    requires n == d * e && 2 <= d < n
    ensures e >= 2
  {
    if e == 0 {} else if e == 1 {} else {}
  }

  lemma Sieve19(n: nat)
    requires 19 <= n < 36
    ensures Sieved(n) <==> n == 19 || n == 23 || n == 29 || n == 31
  {
  }

  lemma Row19(n: nat)
    requires 19 <= n < 36
    ensures n in FIRST <==> n == 19 || n == 23 || n == 29 || n == 31
  {
  }

  lemma Sieve36(n: nat)
    requires 36 <= n < 54
    ensures Sieved(n) <==> n == 37 || n == 41 || n == 43 || n == 47 || n == 53
  {
  }

  lemma Row36(n: nat)
    requires 36 <= n < 54
    ensures n in FIRST <==> n == 37 || n == 41 || n == 43 || n == 47 || n == 53
  {
  }

  lemma Sieve54(n: nat)
    requires 54 <= n < 74
    ensures Sieved(n) <==> n == 59 || n == 61 || n == 67 || n == 71 || n == 73
  {
  }

  lemma Row54(n: nat)
    requires 54 <= n < 74
    ensures n in SECOND <==> n == 59 || n == 61 || n == 67 || n == 71 || n == 73
  {
  }

  lemma Sieve74(n: nat)
    requires 74 <= n < 93
    ensures Sieved(n) <==> n == 79 || n == 83 || n == 89
  {
  }

  lemma Row74(n: nat)
    requires 74 <= n < 93
    ensures n in SECOND <==> n == 79 || n == 83 || n == 89
  {
  }

  lemma Sieve93(n: nat)
    requires 93 <= n < 112
    ensures Sieved(n) <==> n == 97 || n == 101 || n == 103 || n == 107 || n == 109
  {
  }

  lemma Row93(n: nat)
    requires 93 <= n < 112
    ensures n in SECOND <==> n == 97 || n == 101 || n == 103 || n == 107 || n == 109
  {
  }

  lemma Sieve112(n: nat)
    requires 112 <= n < 132
    ensures Sieved(n) <==> n == 113 || n == 127 || n == 131
  {
  }

  lemma Row112(n: nat)
    requires 112 <= n < 132
    ensures n in SECOND <==> n == 113 || n == 127 || n == 131
  {
  }

  lemma Sieve132(n: nat)
    requires 132 <= n < 150
    ensures Sieved(n) <==> n == 137 || n == 139 || n == 149
  {
  }

  lemma Row132(n: nat)
    requires 132 <= n < 150
    ensures n in THIRD <==> n == 137 || n == 139 || n == 149
  {
  }

  lemma Sieve150(n: nat)
    requires 150 <= n < 168
    ensures Sieved(n) <==> n == 151 || n == 157 || n == 163 || n == 167
  {
  }

  lemma Row150(n: nat)
    requires 150 <= n < 168
    ensures n in THIRD <==> n == 151 || n == 157 || n == 163 || n == 167
  {
  }

  lemma Sieve168(n: nat)
    requires 168 <= n < 187
    ensures Sieved(n) <==> n == 173 || n == 179 || n == 181
  {
  }

  lemma Row168(n: nat)
    requires 168 <= n < 187
    ensures n in THIRD <==> n == 173 || n == 179 || n == 181
  {
  }

  lemma Sieve187(n: nat)
    requires 187 <= n < 205
    ensures Sieved(n) <==> n == 191 || n == 193 || n == 197 || n == 199
  {
  }

  lemma Row187(n: nat)
    requires 187 <= n < 205
    ensures n in THIRD <==> n == 191 || n == 193 || n == 197 || n == 199
  {
  }

  lemma Sieve205(n: nat)
    requires 205 <= n < 224
    ensures Sieved(n) <==> n == 211 || n == 223
  {
  }

  lemma Row205(n: nat)
    requires 205 <= n < 224
    ensures n in THIRD <==> n == 211 || n == 223
  {
  }

  lemma Sieve224(n: nat)
    requires 224 <= n < 242
    ensures Sieved(n) <==> n == 227 || n == 229 || n == 233 || n == 239 || n == 241
  {
  }

  lemma Row224(n: nat)
    requires 224 <= n < 242
    ensures n in FOURTH <==> n == 227 || n == 229 || n == 233 || n == 239 || n == 241
  {
  }

  lemma Sieve242(n: nat)
    requires 242 <= n < 260
    ensures Sieved(n) <==> n == 251 || n == 257
  {
  }

  lemma Row242(n: nat)
    requires 242 <= n < 260
    ensures n in FOURTH <==> n == 251 || n == 257
  {
  }

  lemma Sieve260(n: nat)
    requires 260 <= n < 277
    ensures Sieved(n) <==> n == 263 || n == 269 || n == 271
  {
  }

  lemma Row260(n: nat)
    requires 260 <= n < 277
    ensures n in FOURTH <==> n == 263 || n == 269 || n == 271
  {
  }

  lemma Sieve277(n: nat)
    requires 277 <= n < 295
    ensures Sieved(n) <==> n == 277 || n == 281 || n == 283 || n == 293
  {
  }

  lemma Row277(n: nat)
    requires 277 <= n < 295
    ensures n in FOURTH <==> n == 277 || n == 281 || n == 283 || n == 293
  {
  }

  lemma Sieve295(n: nat)
    requires 295 <= n < 312
    ensures Sieved(n) <==> n == 307 || n == 311
  {
  }

  lemma Row295(n: nat)
    requires 295 <= n < 312
    ensures n in FOURTH <==> n == 307 || n == 311
  {
  }

  lemma SmallPrimes(n: nat)
    requires n < 19
    ensures IsPrime(n) <==> n in FIRST
  {
    if n == 0 || n == 1 || n == 2 || n == 3 || n == 5 || n == 7 || n == 11 || n == 13 || n == 17 {
    } else if n % 2 == 0 {
    } else {
      assert n % 3 == 0;
    }
  }

  lemma RowLimits(n: nat)
    ensures n in FIRST ==> n < 54
    ensures n in SECOND ==> 54 <= n < 132
    ensures n in THIRD ==> 132 <= n < 224
    ensures n in FOURTH ==> 224 <= n
  {
  }

  /** The table has every prime up to 311, and nothing else. */
  lemma PrimesAre(n: nat)
    requires n <= 311
    ensures n in PRIMES <==> IsPrime(n)
  {
    hide IsPrime, Sieved, FIRST, SECOND, THIRD, FOURTH;
    RowLimits(n);
    if n < 19 {
      SmallPrimes(n);
    } else {
      SievedIsPrime(n);
      if n < 36 { Sieve19(n); Row19(n); }
      else if n < 54 { Sieve36(n); Row36(n); }
      else if n < 74 { Sieve54(n); Row54(n); }
      else if n < 93 { Sieve74(n); Row74(n); }
      else if n < 112 { Sieve93(n); Row93(n); }
      else if n < 132 { Sieve112(n); Row112(n); }
      else if n < 150 { Sieve132(n); Row132(n); }
      else if n < 168 { Sieve150(n); Row150(n); }
      else if n < 187 { Sieve168(n); Row168(n); }
      else if n < 205 { Sieve187(n); Row187(n); }
      else if n < 224 { Sieve205(n); Row205(n); }
      else if n < 242 { Sieve224(n); Row224(n); }
      else if n < 260 { Sieve242(n); Row242(n); }
      else if n < 277 { Sieve260(n); Row260(n); }
      else if n < 295 { Sieve277(n); Row277(n); }
      else { Sieve295(n); Row295(n); }
    }
  }

  lemma Primes0()
    ensures |PRIMES| == 64
    ensures PRIMES[0] == 2 && PRIMES[1] == 3 && PRIMES[2] == 5 && PRIMES[3] == 7
    ensures PRIMES[4] == 11 && PRIMES[5] == 13 && PRIMES[6] == 17 && PRIMES[7] == 19
  {
  }

  lemma Primes8()
    ensures |PRIMES| == 64
    ensures PRIMES[8] == 23 && PRIMES[9] == 29 && PRIMES[10] == 31 && PRIMES[11] == 37
    ensures PRIMES[12] == 41 && PRIMES[13] == 43 && PRIMES[14] == 47 && PRIMES[15] == 53
  {
  }

  lemma Primes16()
    ensures |PRIMES| == 64
    ensures PRIMES[16] == 59 && PRIMES[17] == 61 && PRIMES[18] == 67 && PRIMES[19] == 71
    ensures PRIMES[20] == 73 && PRIMES[21] == 79 && PRIMES[22] == 83 && PRIMES[23] == 89
  {
  }

  lemma Primes24()
    ensures |PRIMES| == 64
    ensures PRIMES[24] == 97 && PRIMES[25] == 101 && PRIMES[26] == 103 && PRIMES[27] == 107
    ensures PRIMES[28] == 109 && PRIMES[29] == 113 && PRIMES[30] == 127 && PRIMES[31] == 131
  {
  }

  lemma Primes32()
    ensures |PRIMES| == 64
    ensures PRIMES[32] == 137 && PRIMES[33] == 139 && PRIMES[34] == 149 && PRIMES[35] == 151
    ensures PRIMES[36] == 157 && PRIMES[37] == 163 && PRIMES[38] == 167 && PRIMES[39] == 173
  {
  }

  lemma Primes40()
    ensures |PRIMES| == 64
    ensures PRIMES[40] == 179 && PRIMES[41] == 181 && PRIMES[42] == 191 && PRIMES[43] == 193
    ensures PRIMES[44] == 197 && PRIMES[45] == 199 && PRIMES[46] == 211 && PRIMES[47] == 223
  {
  }

  lemma Primes48()
    ensures |PRIMES| == 64
    ensures PRIMES[48] == 227 && PRIMES[49] == 229 && PRIMES[50] == 233 && PRIMES[51] == 239
    ensures PRIMES[52] == 241 && PRIMES[53] == 251 && PRIMES[54] == 257 && PRIMES[55] == 263
  {
  }

  lemma Primes56()
    ensures |PRIMES| == 64
    ensures PRIMES[56] == 269 && PRIMES[57] == 271 && PRIMES[58] == 277 && PRIMES[59] == 281
    ensures PRIMES[60] == 283 && PRIMES[61] == 293 && PRIMES[62] == 307 && PRIMES[63] == 311
  {
  }

  /** In ascending order, so the table has prime number i at index i. */
  lemma PrimesAscend(i: nat)
    requires i < 63
    ensures |PRIMES| == 64 && PRIMES[i] < PRIMES[i + 1]
  {
    hide PRIMES;
    if i < 8 { Primes0(); Primes8(); }
    else if i < 16 { Primes8(); Primes16(); }
    else if i < 24 { Primes16(); Primes24(); }
    else if i < 32 { Primes24(); Primes32(); }
    else if i < 40 { Primes32(); Primes40(); }
    else if i < 48 { Primes40(); Primes48(); }
    else if i < 56 { Primes48(); Primes56(); }
    else { Primes56(); }
  }

  // ---- and the tables are their roots ---------------------------------------------------

  const TWO_32: nat := 0x1_0000_0000

  /** `bits` are the first 32 bits of the fraction of a root of `p` whose whole part is `whole`. */
  predicate CubeRootFrom(p: nat, whole: nat, bits: nat) {
    var x := whole * TWO_32 + bits;
    bits < TWO_32 && x * x * x <= p * (TWO_32 * TWO_32 * TWO_32) < (x + 1) * (x + 1) * (x + 1)
  }

  predicate SquareRootFrom(p: nat, whole: nat, bits: nat) {
    var x := whole * TWO_32 + bits;
    bits < TWO_32 && x * x <= p * (TWO_32 * TWO_32) < (x + 1) * (x + 1)
  }

  ghost predicate CubeRootBits(p: nat, bits: nat) {
    exists whole: nat :: CubeRootFrom(p, whole, bits)
  }

  ghost predicate SquareRootBits(p: nat, bits: nat) {
    exists whole: nat :: SquareRootFrom(p, whole, bits)
  }

  lemma Roots0()
    ensures CubeRootBits(2, 0x428a2f98 as bv32 as nat) && CubeRootBits(3, 0x71374491 as bv32 as nat)
    ensures CubeRootBits(5, 0xb5c0fbcf as bv32 as nat) && CubeRootBits(7, 0xe9b5dba5 as bv32 as nat)
  {
    assert CubeRootFrom(2, 1, 0x428a2f98 as bv32 as nat);
    assert CubeRootFrom(3, 1, 0x71374491 as bv32 as nat);
    assert CubeRootFrom(5, 1, 0xb5c0fbcf as bv32 as nat);
    assert CubeRootFrom(7, 1, 0xe9b5dba5 as bv32 as nat);
  }

  lemma Roots4()
    ensures CubeRootBits(11, 0x3956c25b as bv32 as nat) && CubeRootBits(13, 0x59f111f1 as bv32 as nat)
    ensures CubeRootBits(17, 0x923f82a4 as bv32 as nat) && CubeRootBits(19, 0xab1c5ed5 as bv32 as nat)
  {
    assert CubeRootFrom(11, 2, 0x3956c25b as bv32 as nat);
    assert CubeRootFrom(13, 2, 0x59f111f1 as bv32 as nat);
    assert CubeRootFrom(17, 2, 0x923f82a4 as bv32 as nat);
    assert CubeRootFrom(19, 2, 0xab1c5ed5 as bv32 as nat);
  }

  lemma Roots8()
    ensures CubeRootBits(23, 0xd807aa98 as bv32 as nat) && CubeRootBits(29, 0x12835b01 as bv32 as nat)
    ensures CubeRootBits(31, 0x243185be as bv32 as nat) && CubeRootBits(37, 0x550c7dc3 as bv32 as nat)
  {
    assert CubeRootFrom(23, 2, 0xd807aa98 as bv32 as nat);
    assert CubeRootFrom(29, 3, 0x12835b01 as bv32 as nat);
    assert CubeRootFrom(31, 3, 0x243185be as bv32 as nat);
    assert CubeRootFrom(37, 3, 0x550c7dc3 as bv32 as nat);
  }

  lemma Roots12()
    ensures CubeRootBits(41, 0x72be5d74 as bv32 as nat) && CubeRootBits(43, 0x80deb1fe as bv32 as nat)
    ensures CubeRootBits(47, 0x9bdc06a7 as bv32 as nat) && CubeRootBits(53, 0xc19bf174 as bv32 as nat)
  {
    assert CubeRootFrom(41, 3, 0x72be5d74 as bv32 as nat);
    assert CubeRootFrom(43, 3, 0x80deb1fe as bv32 as nat);
    assert CubeRootFrom(47, 3, 0x9bdc06a7 as bv32 as nat);
    assert CubeRootFrom(53, 3, 0xc19bf174 as bv32 as nat);
  }

  lemma Roots16()
    ensures CubeRootBits(59, 0xe49b69c1 as bv32 as nat) && CubeRootBits(61, 0xefbe4786 as bv32 as nat)
    ensures CubeRootBits(67, 0x0fc19dc6 as bv32 as nat) && CubeRootBits(71, 0x240ca1cc as bv32 as nat)
  {
    assert CubeRootFrom(59, 3, 0xe49b69c1 as bv32 as nat);
    assert CubeRootFrom(61, 3, 0xefbe4786 as bv32 as nat);
    assert CubeRootFrom(67, 4, 0x0fc19dc6 as bv32 as nat);
    assert CubeRootFrom(71, 4, 0x240ca1cc as bv32 as nat);
  }

  lemma Roots20()
    ensures CubeRootBits(73, 0x2de92c6f as bv32 as nat) && CubeRootBits(79, 0x4a7484aa as bv32 as nat)
    ensures CubeRootBits(83, 0x5cb0a9dc as bv32 as nat) && CubeRootBits(89, 0x76f988da as bv32 as nat)
  {
    assert CubeRootFrom(73, 4, 0x2de92c6f as bv32 as nat);
    assert CubeRootFrom(79, 4, 0x4a7484aa as bv32 as nat);
    assert CubeRootFrom(83, 4, 0x5cb0a9dc as bv32 as nat);
    assert CubeRootFrom(89, 4, 0x76f988da as bv32 as nat);
  }

  lemma Roots24()
    ensures CubeRootBits(97, 0x983e5152 as bv32 as nat) && CubeRootBits(101, 0xa831c66d as bv32 as nat)
    ensures CubeRootBits(103, 0xb00327c8 as bv32 as nat) && CubeRootBits(107, 0xbf597fc7 as bv32 as nat)
  {
    assert CubeRootFrom(97, 4, 0x983e5152 as bv32 as nat);
    assert CubeRootFrom(101, 4, 0xa831c66d as bv32 as nat);
    assert CubeRootFrom(103, 4, 0xb00327c8 as bv32 as nat);
    assert CubeRootFrom(107, 4, 0xbf597fc7 as bv32 as nat);
  }

  lemma Roots28()
    ensures CubeRootBits(109, 0xc6e00bf3 as bv32 as nat) && CubeRootBits(113, 0xd5a79147 as bv32 as nat)
    ensures CubeRootBits(127, 0x06ca6351 as bv32 as nat) && CubeRootBits(131, 0x14292967 as bv32 as nat)
  {
    assert CubeRootFrom(109, 4, 0xc6e00bf3 as bv32 as nat);
    assert CubeRootFrom(113, 4, 0xd5a79147 as bv32 as nat);
    assert CubeRootFrom(127, 5, 0x06ca6351 as bv32 as nat);
    assert CubeRootFrom(131, 5, 0x14292967 as bv32 as nat);
  }

  lemma Roots32()
    ensures CubeRootBits(137, 0x27b70a85 as bv32 as nat) && CubeRootBits(139, 0x2e1b2138 as bv32 as nat)
    ensures CubeRootBits(149, 0x4d2c6dfc as bv32 as nat) && CubeRootBits(151, 0x53380d13 as bv32 as nat)
  {
    assert CubeRootFrom(137, 5, 0x27b70a85 as bv32 as nat);
    assert CubeRootFrom(139, 5, 0x2e1b2138 as bv32 as nat);
    assert CubeRootFrom(149, 5, 0x4d2c6dfc as bv32 as nat);
    assert CubeRootFrom(151, 5, 0x53380d13 as bv32 as nat);
  }

  lemma Roots36()
    ensures CubeRootBits(157, 0x650a7354 as bv32 as nat) && CubeRootBits(163, 0x766a0abb as bv32 as nat)
    ensures CubeRootBits(167, 0x81c2c92e as bv32 as nat) && CubeRootBits(173, 0x92722c85 as bv32 as nat)
  {
    assert CubeRootFrom(157, 5, 0x650a7354 as bv32 as nat);
    assert CubeRootFrom(163, 5, 0x766a0abb as bv32 as nat);
    assert CubeRootFrom(167, 5, 0x81c2c92e as bv32 as nat);
    assert CubeRootFrom(173, 5, 0x92722c85 as bv32 as nat);
  }

  lemma Roots40()
    ensures CubeRootBits(179, 0xa2bfe8a1 as bv32 as nat) && CubeRootBits(181, 0xa81a664b as bv32 as nat)
    ensures CubeRootBits(191, 0xc24b8b70 as bv32 as nat) && CubeRootBits(193, 0xc76c51a3 as bv32 as nat)
  {
    assert CubeRootFrom(179, 5, 0xa2bfe8a1 as bv32 as nat);
    assert CubeRootFrom(181, 5, 0xa81a664b as bv32 as nat);
    assert CubeRootFrom(191, 5, 0xc24b8b70 as bv32 as nat);
    assert CubeRootFrom(193, 5, 0xc76c51a3 as bv32 as nat);
  }

  lemma Roots44()
    ensures CubeRootBits(197, 0xd192e819 as bv32 as nat) && CubeRootBits(199, 0xd6990624 as bv32 as nat)
    ensures CubeRootBits(211, 0xf40e3585 as bv32 as nat) && CubeRootBits(223, 0x106aa070 as bv32 as nat)
  {
    assert CubeRootFrom(197, 5, 0xd192e819 as bv32 as nat);
    assert CubeRootFrom(199, 5, 0xd6990624 as bv32 as nat);
    assert CubeRootFrom(211, 5, 0xf40e3585 as bv32 as nat);
    assert CubeRootFrom(223, 6, 0x106aa070 as bv32 as nat);
  }

  lemma Roots48()
    ensures CubeRootBits(227, 0x19a4c116 as bv32 as nat) && CubeRootBits(229, 0x1e376c08 as bv32 as nat)
    ensures CubeRootBits(233, 0x2748774c as bv32 as nat) && CubeRootBits(239, 0x34b0bcb5 as bv32 as nat)
  {
    assert CubeRootFrom(227, 6, 0x19a4c116 as bv32 as nat);
    assert CubeRootFrom(229, 6, 0x1e376c08 as bv32 as nat);
    assert CubeRootFrom(233, 6, 0x2748774c as bv32 as nat);
    assert CubeRootFrom(239, 6, 0x34b0bcb5 as bv32 as nat);
  }

  lemma Roots52()
    ensures CubeRootBits(241, 0x391c0cb3 as bv32 as nat) && CubeRootBits(251, 0x4ed8aa4a as bv32 as nat)
    ensures CubeRootBits(257, 0x5b9cca4f as bv32 as nat) && CubeRootBits(263, 0x682e6ff3 as bv32 as nat)
  {
    assert CubeRootFrom(241, 6, 0x391c0cb3 as bv32 as nat);
    assert CubeRootFrom(251, 6, 0x4ed8aa4a as bv32 as nat);
    assert CubeRootFrom(257, 6, 0x5b9cca4f as bv32 as nat);
    assert CubeRootFrom(263, 6, 0x682e6ff3 as bv32 as nat);
  }

  lemma Roots56()
    ensures CubeRootBits(269, 0x748f82ee as bv32 as nat) && CubeRootBits(271, 0x78a5636f as bv32 as nat)
    ensures CubeRootBits(277, 0x84c87814 as bv32 as nat) && CubeRootBits(281, 0x8cc70208 as bv32 as nat)
  {
    assert CubeRootFrom(269, 6, 0x748f82ee as bv32 as nat);
    assert CubeRootFrom(271, 6, 0x78a5636f as bv32 as nat);
    assert CubeRootFrom(277, 6, 0x84c87814 as bv32 as nat);
    assert CubeRootFrom(281, 6, 0x8cc70208 as bv32 as nat);
  }

  lemma Roots60()
    ensures CubeRootBits(283, 0x90befffa as bv32 as nat) && CubeRootBits(293, 0xa4506ceb as bv32 as nat)
    ensures CubeRootBits(307, 0xbef9a3f7 as bv32 as nat) && CubeRootBits(311, 0xc67178f2 as bv32 as nat)
  {
    assert CubeRootFrom(283, 6, 0x90befffa as bv32 as nat);
    assert CubeRootFrom(293, 6, 0xa4506ceb as bv32 as nat);
    assert CubeRootFrom(307, 6, 0xbef9a3f7 as bv32 as nat);
    assert CubeRootFrom(311, 6, 0xc67178f2 as bv32 as nat);
  }

  /** Each constant of the turns is the fraction of the cube root of the prime at its place. */
  lemma KIsCubeRoots(i: nat)
    requires i < 64
    ensures |K| == |PRIMES| == 64 && CubeRootBits(PRIMES[i], K[i] as nat)
  {
    hide PRIMES, K, CubeRootBits;
    if i < 8 { AbcDigest.Constants0(); Primes0(); Roots0(); Roots4(); }
    else if i < 16 { AbcDigest.Constants8(); Primes8(); Roots8(); Roots12(); }
    else if i < 24 { AbcDigest.Constants16(); Primes16(); Roots16(); Roots20(); }
    else if i < 32 { AbcDigest.Constants24(); Primes24(); Roots24(); Roots28(); }
    else if i < 40 { AbcDigest.Constants32(); Primes32(); Roots32(); Roots36(); }
    else if i < 48 { AbcDigest.Constants40(); Primes40(); Roots40(); Roots44(); }
    else if i < 56 { AbcDigest.Constants48(); Primes48(); Roots48(); Roots52(); }
    else { AbcDigest.Constants56(); Primes56(); Roots56(); Roots60(); }
  }

  lemma SquareRoots()
    ensures SquareRootBits(2, 0x6a09e667 as bv32 as nat) && SquareRootBits(3, 0xbb67ae85 as bv32 as nat) && SquareRootBits(5, 0x3c6ef372 as bv32 as nat) && SquareRootBits(7, 0xa54ff53a as bv32 as nat)
    ensures SquareRootBits(11, 0x510e527f as bv32 as nat) && SquareRootBits(13, 0x9b05688c as bv32 as nat) && SquareRootBits(17, 0x1f83d9ab as bv32 as nat) && SquareRootBits(19, 0x5be0cd19 as bv32 as nat)
  {
    assert SquareRootFrom(2, 1, 0x6a09e667 as bv32 as nat);
    assert SquareRootFrom(3, 1, 0xbb67ae85 as bv32 as nat);
    assert SquareRootFrom(5, 2, 0x3c6ef372 as bv32 as nat);
    assert SquareRootFrom(7, 2, 0xa54ff53a as bv32 as nat);
    assert SquareRootFrom(11, 3, 0x510e527f as bv32 as nat);
    assert SquareRootFrom(13, 3, 0x9b05688c as bv32 as nat);
    assert SquareRootFrom(17, 4, 0x1f83d9ab as bv32 as nat);
    assert SquareRootFrom(19, 4, 0x5be0cd19 as bv32 as nat);
  }

  /** Each word of the first hash state is the fraction of the square root of the prime at its place. */
  lemma H0IsSquareRoots(i: nat)
    requires i < 8
    ensures |H0| == 8 && |PRIMES| == 64 && SquareRootBits(PRIMES[i], H0[i] as nat)
  {
    hide PRIMES, SquareRootBits;
    Primes0();
    SquareRoots();
  }
}
