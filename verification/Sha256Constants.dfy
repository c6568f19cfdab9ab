/** The constants of SHA-256: the fractional parts of the cube roots and the square roots of the first primes. */
module Sha256Constants {
  import opened Sha256

  // ---------- the first 64 primes ----------

  predicate IsPrime(n: nat) {
    n >= 2 && forall d :: 2 <= d < n ==> n % d != 0
  }

  const P0: seq<nat> := [2, 3, 5, 7, 11, 13, 17, 19]
  const P1: seq<nat> := [23, 29, 31, 37, 41, 43, 47, 53]
  const P2: seq<nat> := [59, 61, 67, 71, 73, 79, 83, 89]
  const P3: seq<nat> := [97, 101, 103, 107, 109, 113, 127, 131]
  const P4: seq<nat> := [137, 139, 149, 151, 157, 163, 167, 173]
  const P5: seq<nat> := [179, 181, 191, 193, 197, 199, 211, 223]
  const P6: seq<nat> := [227, 229, 233, 239, 241, 251, 257, 263]
  const P7: seq<nat> := [269, 271, 277, 281, 283, 293, 307, 311]

  const PRIMES: seq<nat> := P0 + P1 + P2 + P3 + P4 + P5 + P6 + P7

  /** No prime up to 17 divides the number, unless it is that prime. */
  predicate Sifted(n: nat) {
    && n >= 2
    && (n % 2 != 0 || n == 2) && (n % 3 != 0 || n == 3) && (n % 5 != 0 || n == 5) && (n % 7 != 0 || n == 7)
    && (n % 11 != 0 || n == 11) && (n % 13 != 0 || n == 13) && (n % 17 != 0 || n == 17)
  }

  predicate Small(p: nat) {
    p == 2 || p == 3 || p == 5 || p == 7 || p == 11 || p == 13 || p == 17
  }

  lemma ProductDivides(n: nat, d: nat, e: nat, p: nat)
    requires n == d * e && Small(p) && d % p == 0
    ensures n % p == 0
  {
    var q := d / p;
    assert d == p * q;
    assert n == p * (q * e);
    Multiple(p, q * e);
  }

  lemma {:induction false} Multiple(p: nat, k: nat)
    requires Small(p)
    ensures p * k % p == 0
  {
    if k > 0 {
      Multiple(p, k - 1);
      assert p * k == p * (k - 1) + p;
      OneMore(p * (k - 1), p);
    }
  }

  lemma OneMore(x: nat, p: nat)
    requires Small(p) && x % p == 0
    ensures (x + p) % p == 0
  {
  }

  /** A number from 2 to 17 has a prime factor up to 17. */
  function SmallFactor(d: nat): (p: nat)
    requires 2 <= d < 18
    ensures Small(p) && d % p == 0 && p <= d
  {
    if d % 2 == 0 then 2 else if d % 3 == 0 then 3 else if d % 5 == 0 then 5 else d
  }

  /** The smaller of two factors of a number below 324 is at most 17. */
  lemma SmallerFactor(d: nat, e: nat)
    ensures d * e < 324 ==> d < 18 || e < 18
  {
    if d >= 18 && e >= 18 {
      Larger(18, d, e);
      Larger(18, e, 18);
    }
  }

  lemma Larger(a: nat, b: nat, c: nat)
    requires a <= b
    ensures a * c <= b * c
  {
    assert b * c == a * c + (b - a) * c;
  }

  lemma SiftedIsPrime(n: nat)
    requires n < 324
    ensures Sifted(n) <==> IsPrime(n)
  {
    if Sifted(n) {
      forall d | 2 <= d < n
        ensures n % d != 0
      {
        if n % d == 0 {
          Composite(n, d, n / d);
        }
      }
    } else if n >= 2 {
      Unsifted(n);
    }
  }

  lemma Composite(n: nat, d: nat, e: nat)
    requires n < 324 && 2 <= d < n && n == d * e
    ensures !Sifted(n)
  {
    SmallerFactor(d, e);
    assert 2 <= e < n;
    if d < 18 {
      ProductDivides(n, d, e, SmallFactor(d));
    } else {
      ProductDivides(n, e, d, SmallFactor(e));
    }
  }

  lemma Unsifted(n: nat)
    requires n >= 2 && !Sifted(n)
    ensures exists d :: 2 <= d < n && n % d == 0
  {
    var p := if n % 2 == 0 then 2 else if n % 3 == 0 then 3 else if n % 5 == 0 then 5 else if n % 7 == 0 then 7
             else if n % 11 == 0 then 11 else if n % 13 == 0 then 13 else 17;
    assert n % p == 0 && n != p;
    assert p < n;
  }

  predicate NoneFrom(n: nat, hi: nat)
    decreases hi - n
  {
    n >= hi || (!Sifted(n) && NoneFrom(n + 1, hi))
  }

  predicate Next(p: nat, q: nat) {
    p < q && Sifted(q) && NoneFrom(p + 1, q)
  }

  lemma {:induction false} NoneBetween(n: nat, hi: nat, m: nat)
    requires NoneFrom(n, hi) && n <= m < hi
    ensures !Sifted(m)
    decreases hi - n
  {
    hide Sifted;
    if n < m {
      NoneBetween(n + 1, hi, m);
    }
  }

  /** The prime that follows another one. */
  ghost predicate NextPrime(p: nat, q: nat) {
    p < q && IsPrime(q) && forall n :: p < n < q ==> !IsPrime(n)
  }

  lemma NextIsPrime(p: nat, q: nat)
    requires Next(p, q) && q < 324
    ensures NextPrime(p, q)
  {
    hide Sifted, IsPrime, NoneFrom;
    SiftedIsPrime(q);
    forall n | p < n < q
      ensures !IsPrime(n)
    {
      NoneBetween(p + 1, q, n);
      SiftedIsPrime(n);
    }
  }

  lemma Nexts0()
    ensures Next(2, 3) && Next(3, 5) && Next(5, 7) && Next(7, 11)
    ensures Next(11, 13) && Next(13, 17) && Next(17, 19) && Next(19, 23)
  {
  }

  lemma Row0(i: nat)
    requires i < 8
    ensures Next(P0[i], if i == 7 then P1[0] else P0[i + 1])
  {
    hide Next;
    Nexts0();
    Eight(i);
  }

  lemma Nexts1()
    ensures Next(23, 29) && Next(29, 31) && Next(31, 37) && Next(37, 41)
    ensures Next(41, 43) && Next(43, 47) && Next(47, 53) && Next(53, 59)
  {
  }

  lemma Row1(i: nat)
    requires i < 8
    ensures Next(P1[i], if i == 7 then P2[0] else P1[i + 1])
  {
    hide Next;
    Nexts1();
    Eight(i);
  }

  lemma Nexts2()
    ensures Next(59, 61) && Next(61, 67) && Next(67, 71) && Next(71, 73)
    ensures Next(73, 79) && Next(79, 83) && Next(83, 89) && Next(89, 97)
  {
  }

  lemma Row2(i: nat)
    requires i < 8
    ensures Next(P2[i], if i == 7 then P3[0] else P2[i + 1])
  {
    hide Next;
    Nexts2();
    Eight(i);
  }

  lemma Nexts3()
    ensures Next(97, 101) && Next(101, 103) && Next(103, 107) && Next(107, 109)
    ensures Next(109, 113) && Next(113, 127) && Next(127, 131) && Next(131, 137)
  {
  }

  lemma Row3(i: nat)
    requires i < 8
    ensures Next(P3[i], if i == 7 then P4[0] else P3[i + 1])
  {
    hide Next;
    Nexts3();
    Eight(i);
  }

  lemma Nexts4()
    ensures Next(137, 139) && Next(139, 149) && Next(149, 151) && Next(151, 157)
    ensures Next(157, 163) && Next(163, 167) && Next(167, 173) && Next(173, 179)
  {
  }

  lemma Row4(i: nat)
    requires i < 8
    ensures Next(P4[i], if i == 7 then P5[0] else P4[i + 1])
  {
    hide Next;
    Nexts4();
    Eight(i);
  }

  lemma Nexts5()
    ensures Next(179, 181) && Next(181, 191) && Next(191, 193) && Next(193, 197)
    ensures Next(197, 199) && Next(199, 211) && Next(211, 223) && Next(223, 227)
  {
  }

  lemma Row5(i: nat)
    requires i < 8
    ensures Next(P5[i], if i == 7 then P6[0] else P5[i + 1])
  {
    hide Next;
    Nexts5();
    Eight(i);
  }

  lemma Nexts6()
    ensures Next(227, 229) && Next(229, 233) && Next(233, 239) && Next(239, 241)
    ensures Next(241, 251) && Next(251, 257) && Next(257, 263) && Next(263, 269)
  {
  }

  lemma Row6(i: nat)
    requires i < 8
    ensures Next(P6[i], if i == 7 then P7[0] else P6[i + 1])
  {
    hide Next;
    Nexts6();
    Eight(i);
  }

  lemma Nexts7()
    ensures Next(269, 271) && Next(271, 277) && Next(277, 281) && Next(281, 283)
    ensures Next(283, 293) && Next(293, 307) && Next(307, 311)
  {
  }

  lemma Row7(i: nat)
    requires i < 7
    ensures Next(P7[i], P7[i + 1])
  {
    hide Next;
    Nexts7();
    Eight(i);
  }

  lemma Eight(i: nat)
    ensures i < 8 ==> i == 0 || i == 1 || i == 2 || i == 3 || i == 4 || i == 5 || i == 6 || i == 7
  {
  }

  /** The entry i of a list of eight rows is the entry i % 8 of row i / 8. */
  lemma Rows<T>(r0: seq<T>, r1: seq<T>, r2: seq<T>, r3: seq<T>, r4: seq<T>, r5: seq<T>, r6: seq<T>, r7: seq<T>, i: nat)
    requires |r0| == |r1| == |r2| == |r3| == |r4| == |r5| == |r6| == |r7| == 8 && i < 64
    ensures (r0 + r1 + r2 + r3 + r4 + r5 + r6 + r7)[i]
         == if i < 8 then r0[i] else if i < 16 then r1[i - 8] else if i < 24 then r2[i - 16] else if i < 32 then r3[i - 24]
            else if i < 40 then r4[i - 32] else if i < 48 then r5[i - 40] else if i < 56 then r6[i - 48] else r7[i - 56]
  {
  }

  function PrimeOf(i: nat): nat
    requires i < 64
  {
    if i < 8 then P0[i] else if i < 16 then P1[i - 8] else if i < 24 then P2[i - 16] else if i < 32 then P3[i - 24]
    else if i < 40 then P4[i - 32] else if i < 48 then P5[i - 40] else if i < 56 then P6[i - 48] else P7[i - 56]
  }

  lemma PrimeAt(i: nat)
    requires i < 64
    ensures |PRIMES| == 64 && PRIMES[i] == PrimeOf(i)
  {
    Rows(P0, P1, P2, P3, P4, P5, P6, P7, i);
  }

  lemma PrimesAreNext(i: nat)
    requires i < 63
    ensures Next(PrimeOf(i), PrimeOf(i + 1))
  {
    hide Next;
    if i < 8 {
      Row0(i);
    } else if i < 16 {
      Row1(i - 8);
    } else if i < 24 {
      Row2(i - 16);
    } else if i < 32 {
      Row3(i - 24);
    } else if i < 40 {
      Row4(i - 32);
    } else if i < 48 {
      Row5(i - 40);
    } else if i < 56 {
      Row6(i - 48);
    } else {
      Row7(i - 56);
    }
  }

  lemma SmallPrimes(i: nat)
    requires i < 64
    ensures PrimeOf(i) < 324
  {
  }

  /** The list starts with the first prime, and every entry is followed by the next prime. */
  lemma FirstPrimes(i: nat)
    requires i < 63
    ensures |PRIMES| == 64 && PRIMES[0] == 2 && NextPrime(1, 2) && NextPrime(PRIMES[i], PRIMES[i + 1])
  {
    hide Next, NextPrime;
    PrimeAt(0);
    PrimeAt(i);
    PrimeAt(i + 1);
    SmallPrimes(i + 1);
    PrimesAreNext(i);
    NextIsPrime(PrimeOf(i), PrimeOf(i + 1));
    assert NextPrime(1, 2) by { TwoIsFirst(); }
  }

  lemma TwoIsFirst()
    ensures NextPrime(1, 2)
  {
  }

  // ---------- roots ----------

  /** The words are the first 32 bits of the fractional part of the cube root of p. */
  predicate CubeFraction(p: nat, k: nat) {
    var c := CubeRoot(p);
    var x := c * 0x1_0000_0000 + k;
    && k < 0x1_0000_0000 && c * c * c <= p < (c + 1) * (c + 1) * (c + 1)
    && x * x * x <= p * 0x1_0000_0000_0000_0000_0000_0000 < (x + 1) * (x + 1) * (x + 1)
  }

  /** The same for the square root. */
  predicate SquareFraction(p: nat, k: nat) {
    var c := SquareRoot(p);
    var x := c * 0x1_0000_0000 + k;
    && k < 0x1_0000_0000 && c * c <= p < (c + 1) * (c + 1)
    && x * x <= p * 0x1_0000_0000_0000_0000 < (x + 1) * (x + 1)
  }

  /** The integer part of the cube root of a number below 343. */
  function CubeRoot(n: nat): nat {
    if n < 8 then 1 else if n < 27 then 2 else if n < 64 then 3 else if n < 125 then 4 else if n < 216 then 5 else 6
  }

  /** The integer part of the square root of a number below 25. */
  function SquareRoot(n: nat): nat {
    if n < 4 then 1 else if n < 9 then 2 else if n < 16 then 3 else 4
  }

  lemma Cubes0(i: nat)
    requires i < 8
    ensures CubeFraction(P0[i], K0[i] as int)
  {
    Eight(i);
  }

  lemma Cubes1(i: nat)
    requires i < 8
    ensures CubeFraction(P1[i], K1[i] as int)
  {
    Eight(i);
  }

  lemma Cubes2(i: nat)
    requires i < 8
    ensures CubeFraction(P2[i], K2[i] as int)
  {
    Eight(i);
  }

  lemma Cubes3(i: nat)
    requires i < 8
    ensures CubeFraction(P3[i], K3[i] as int)
  {
    Eight(i);
  }

  lemma Cubes4(i: nat)
    requires i < 8
    ensures CubeFraction(P4[i], K4[i] as int)
  {
    Eight(i);
  }

  lemma Cubes5(i: nat)
    requires i < 8
    ensures CubeFraction(P5[i], K5[i] as int)
  {
    Eight(i);
  }

  lemma Cubes6(i: nat)
    requires i < 8
    ensures CubeFraction(P6[i], K6[i] as int)
  {
    Eight(i);
  }

  lemma Cubes7(i: nat)
    requires i < 8
    ensures CubeFraction(P7[i], K7[i] as int)
  {
    Eight(i);
  }

  /** Section 4.2.2 of FIPS 180-4. */
  lemma ConstantsAreCubeRoots(i: nat)
    requires i < 64
    ensures |K| == |PRIMES| == 64 && CubeFraction(PRIMES[i], K[i] as int)
  {
    hide CubeFraction;
    Rows(P0, P1, P2, P3, P4, P5, P6, P7, i);
    Rows(K0, K1, K2, K3, K4, K5, K6, K7, i);
    if i < 8 {
      Cubes0(i);
    } else if i < 16 {
      Cubes1(i - 8);
    } else if i < 24 {
      Cubes2(i - 16);
    } else if i < 32 {
      Cubes3(i - 24);
    } else if i < 40 {
      Cubes4(i - 32);
    } else if i < 48 {
      Cubes5(i - 40);
    } else if i < 56 {
      Cubes6(i - 48);
    } else {
      Cubes7(i - 56);
    }
  }

  /** Section 5.3.3 of FIPS 180-4. */
  lemma InitialIsSquareRoots()
    ensures SquareFraction(PRIMES[0], INITIAL.a as int) && SquareFraction(PRIMES[1], INITIAL.b as int)
    ensures SquareFraction(PRIMES[2], INITIAL.c as int) && SquareFraction(PRIMES[3], INITIAL.d as int)
    ensures SquareFraction(PRIMES[4], INITIAL.e as int) && SquareFraction(PRIMES[5], INITIAL.f as int)
    ensures SquareFraction(PRIMES[6], INITIAL.g as int) && SquareFraction(PRIMES[7], INITIAL.h as int)
  {
  }
}
