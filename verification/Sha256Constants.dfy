/** The constants of FIPS 180-4, sections 4.2.2 and 5.3.3, from what the standard says of them: the first
    32 bits of the fractional parts of the cube roots of the first 64 primes, and of the square roots of
    the first eight. */
module Sha256Constants {
  import opened Sha256Spec

  // ---------------------------------------------------------------- the first primes

  ghost predicate Prime(n: nat) { n >= 2 && forall d: nat :: 2 <= d < n ==> n % d != 0 }

  function NthPrime(t: nat): nat
    requires t < 64
  {
    if t < 16 then FirstPrimes(t) else if t < 32 then SecondPrimes(t)
    else if t < 48 then ThirdPrimes(t) else FourthPrimes(t)
  }

  function FirstPrimes(t: nat): nat
    requires t < 16
  {
    match t
    case 0 => 2 case 1 => 3 case 2 => 5 case 3 => 7
    case 4 => 11 case 5 => 13 case 6 => 17 case 7 => 19
    case 8 => 23 case 9 => 29 case 10 => 31 case 11 => 37
    case 12 => 41 case 13 => 43 case 14 => 47 case _ => 53
  }

  function SecondPrimes(t: nat): nat
    requires 16 <= t < 32
  {
    match t
    case 16 => 59 case 17 => 61 case 18 => 67 case 19 => 71
    case 20 => 73 case 21 => 79 case 22 => 83 case 23 => 89
    case 24 => 97 case 25 => 101 case 26 => 103 case 27 => 107
    case 28 => 109 case 29 => 113 case 30 => 127 case _ => 131
  }

  function ThirdPrimes(t: nat): nat
    requires 32 <= t < 48
  {
    match t
    case 32 => 137 case 33 => 139 case 34 => 149 case 35 => 151
    case 36 => 157 case 37 => 163 case 38 => 167 case 39 => 173
    case 40 => 179 case 41 => 181 case 42 => 191 case 43 => 193
    case 44 => 197 case 45 => 199 case 46 => 211 case _ => 223
  }

  function FourthPrimes(t: nat): nat
    requires 48 <= t < 64
  {
    match t
    case 48 => 227 case 49 => 229 case 50 => 233 case 51 => 239
    case 52 => 241 case 53 => 251 case 54 => 257 case 55 => 263
    case 56 => 269 case 57 => 271 case 58 => 277 case 59 => 281
    case 60 => 283 case 61 => 293 case 62 => 307 case _ => 311
  }

  /** None of the primes below 19 divides n, unless n is that prime. */
  predicate Wheel(n: nat) {
    n >= 2 && (n == 2 || n % 2 != 0) && (n == 3 || n % 3 != 0) && (n == 5 || n % 5 != 0) && (n == 7 || n % 7 != 0)
    && (n == 11 || n % 11 != 0) && (n == 13 || n % 13 != 0) && (n == 17 || n % 17 != 0)
  }

  /** A number below 19 * 19 that is no prime has a divisor below 19. */
  lemma WheelIsPrime(n: nat)
    requires n < 361
    ensures Wheel(n) <==> Prime(n)
  {
    if n >= 2 && Wheel(n) {
      forall d: nat | 2 <= d < n ensures n % d != 0 { Undivided(n, d); }
    }
  }

  lemma Undivided(n: nat, d: nat)
    requires Wheel(n) && 2 <= d < n < 361
    ensures n % d != 0
  {
    hide Wheel;
    if n % d == 0 {
      var e := n / d;
      assert n == d * e;
      if d >= 19 {
        Cofactor(n, d, e);
        SmallDivisor(n, e, d);
      } else {
        SmallDivisor(n, d, e);
      }
    }
  }

  lemma Cofactor(n: nat, d: nat, e: nat)
    requires n < 361 && n == d * e && 19 <= d < n
    ensures 2 <= e < 19 && n == e * d
  {
    Products(d, e);
  }

  lemma Products(d: nat, e: nat)
    ensures d >= 19 && e >= 19 ==> d * e >= 19 * 19
    ensures e <= 1 ==> d * e <= d
  {
    if d >= 19 && e >= 19 { assert (d - 19) * e >= 0; }
  }

  /** A divisor below 19 is a multiple of a prime below 19. */
  lemma SmallDivisor(n: nat, d: nat, e: nat)
    requires 2 <= d < 19 && d < n && n == d * e
    ensures !Wheel(n)
  {
    var p := if d % 2 == 0 then 2 else if d % 3 == 0 then 3 else if d % 5 == 0 then 5 else d;
    var q := d / p;
    assert d == p * q;
    assert n == p * (q * e);
    Multiple(p, q * e);
  }

  lemma Multiple(p: nat, k: nat)
    requires p > 0
    ensures (p * k) % p == 0
  {
    var q, r := (p * k) / p, (p * k) % p;
    assert p * k == p * q + r;
    var d := k - q;
    assert p * d == r;
    if d >= 1 { AtLeast(p, d); }
    if d < 0 { AtLeast(p, -d); }
  }

  lemma AtLeast(p: nat, d: int)
    requires d >= 1
    ensures p * d >= p
  {
  }

  /** The odd numbers from `from` up to `to` that the wheel lets pass are those with the numbers t up to u. */
  predicate Numbered(from: nat, to: nat, t: nat, u: nat)
    decreases if from < to then to - from else 0
  {
    if from >= to then t == u
    else if Wheel(from) then t < 64 && NthPrime(t) == from && Numbered(from + 2, to, t + 1, u)
    else Numbered(from + 2, to, t, u)
  }

  lemma {:induction false} Joined(from: nat, mid: nat, to: nat, t: nat, m: nat, u: nat)
    requires from <= mid <= to && from % 2 == mid % 2 == to % 2 == 1
    requires Numbered(from, mid, t, m) && Numbered(mid, to, m, u)
    ensures Numbered(from, to, t, u)
    decreases mid - from
  {
    hide NthPrime, Wheel;
    if from == mid {
    } else {
      Joined(from + 2, mid, to, if Wheel(from) then t + 1 else t, m, u);
    }
  }

  lemma TensFrom3()
    ensures Numbered(3, 13, 1, 5) && Numbered(13, 23, 5, 8) && Numbered(23, 33, 8, 11)
    ensures Numbered(33, 43, 11, 13) && Numbered(43, 53, 13, 15)
  {
  }

  lemma NumberedFrom3()
    ensures Numbered(3, 53, 1, 15)
  {
    hide Numbered;
    TensFrom3();
    Joined(3, 13, 23, 1, 5, 8);
    Joined(3, 23, 33, 1, 8, 11);
    Joined(3, 33, 43, 1, 11, 13);
    Joined(3, 43, 53, 1, 13, 15);
  }

  lemma TensFrom53()
    ensures Numbered(53, 63, 15, 18) && Numbered(63, 73, 18, 20) && Numbered(73, 83, 20, 22)
    ensures Numbered(83, 93, 22, 24) && Numbered(93, 103, 24, 26)
  {
  }

  lemma NumberedFrom53()
    ensures Numbered(53, 103, 15, 26)
  {
    hide Numbered;
    TensFrom53();
    Joined(53, 63, 73, 15, 18, 20);
    Joined(53, 73, 83, 15, 20, 22);
    Joined(53, 83, 93, 15, 22, 24);
    Joined(53, 93, 103, 15, 24, 26);
  }

  lemma TensFrom103()
    ensures Numbered(103, 113, 26, 29) && Numbered(113, 123, 29, 30) && Numbered(123, 133, 30, 32)
    ensures Numbered(133, 143, 32, 34) && Numbered(143, 153, 34, 36)
  {
  }

  lemma NumberedFrom103()
    ensures Numbered(103, 153, 26, 36)
  {
    hide Numbered;
    TensFrom103();
    Joined(103, 113, 123, 26, 29, 30);
    Joined(103, 123, 133, 26, 30, 32);
    Joined(103, 133, 143, 26, 32, 34);
    Joined(103, 143, 153, 26, 34, 36);
  }

  lemma TensFrom153()
    ensures Numbered(153, 163, 36, 37) && Numbered(163, 173, 37, 39) && Numbered(173, 183, 39, 42)
    ensures Numbered(183, 193, 42, 43) && Numbered(193, 203, 43, 46)
  {
  }

  lemma NumberedFrom153()
    ensures Numbered(153, 203, 36, 46)
  {
    hide Numbered;
    TensFrom153();
    Joined(153, 163, 173, 36, 37, 39);
    Joined(153, 173, 183, 36, 39, 42);
    Joined(153, 183, 193, 36, 42, 43);
    Joined(153, 193, 203, 36, 43, 46);
  }

  lemma TensFrom203()
    ensures Numbered(203, 213, 46, 47) && Numbered(213, 223, 47, 47) && Numbered(223, 233, 47, 50)
    ensures Numbered(233, 243, 50, 53) && Numbered(243, 253, 53, 54)
  {
  }

  lemma NumberedFrom203()
    ensures Numbered(203, 253, 46, 54)
  {
    hide Numbered;
    TensFrom203();
    Joined(203, 213, 223, 46, 47, 47);
    Joined(203, 223, 233, 46, 47, 50);
    Joined(203, 233, 243, 46, 50, 53);
    Joined(203, 243, 253, 46, 53, 54);
  }

  lemma TensFrom253()
    ensures Numbered(253, 263, 54, 55) && Numbered(263, 273, 55, 58) && Numbered(273, 283, 58, 60)
    ensures Numbered(283, 293, 60, 61) && Numbered(293, 303, 61, 62) && Numbered(303, 313, 62, 64)
  {
  }

  lemma NumberedFrom253()
    ensures Numbered(253, 313, 54, 64)
  {
    hide Numbered;
    TensFrom253();
    Joined(253, 263, 273, 54, 55, 58);
    Joined(253, 273, 283, 54, 58, 60);
    Joined(253, 283, 293, 54, 60, 61);
    Joined(253, 293, 303, 54, 61, 62);
    Joined(253, 303, 313, 54, 62, 64);
  }

  lemma AllNumbered()
    ensures Numbered(3, 313, 1, 64)
  {
    hide Numbered;
    NumberedFrom3();
    NumberedFrom53();
    NumberedFrom103();
    NumberedFrom153();
    NumberedFrom203();
    NumberedFrom253();
    Joined(3, 53, 103, 1, 15, 26);
    Joined(3, 103, 153, 1, 26, 36);
    Joined(3, 153, 203, 1, 36, 46);
    Joined(3, 203, 253, 1, 46, 54);
    Joined(3, 253, 313, 1, 54, 64);
  }

  lemma {:induction false} NumberedIs(from: nat, to: nat, t: nat, u: nat, n: nat, i: nat)
    requires Numbered(from, to, t, u) && from % 2 == to % 2 == 1 && from >= 3 && to < 361 && u <= 64
    ensures t <= u
    ensures from <= n < to && Prime(n) ==> exists k: nat :: t <= k < u && NthPrime(k) == n
    ensures t <= i < u ==> from <= NthPrime(i) < to && Prime(NthPrime(i))
    ensures t <= i && i + 1 < u ==> NthPrime(i) < NthPrime(i + 1)
    decreases if from < to then to - from else 0
  {
    hide NthPrime, Wheel, Prime;
    if from >= to {
    } else {
      WheelIsPrime(from);
      EvenIsNone(from + 1);
      var rest := if Wheel(from) then t + 1 else t;
      NumberedIs(from + 2, to, rest, u, n, i);
      if i == t && t + 1 < u { NumberedIs(from + 2, to, rest, u, n, t + 1); }
      if n == from && Prime(n) { assert NthPrime(t) == n; }
    }
  }

  lemma EvenIsNone(n: nat)
    requires n > 2 && n % 2 == 0
    ensures !Prime(n)
  {
  }

  /** NthPrime lists the primes up to 311, all of them and in ascending order. */
  lemma PrimesAre(n: nat, i: nat)
    requires n < 312
    ensures Prime(n) <==> exists k: nat :: k < 64 && NthPrime(k) == n
    ensures i < 63 ==> NthPrime(i) < NthPrime(i + 1)
  {
    hide Wheel, Prime, Numbered;
    AllNumbered();
    NumberedIs(3, 313, 1, 64, n, i);
    Two(n);
    if i == 0 { NumberedIs(3, 313, 1, 64, n, 1); }
    if n > 2 {
      if k: nat :| k < 64 && NthPrime(k) == n { NumberedIs(3, 313, 1, 64, n, k); }
    } else if k: nat :| 0 < k < 64 && NthPrime(k) == n {
      NumberedIs(3, 313, 1, 64, n, k);
    }
  }

  lemma Two(n: nat)
    ensures NthPrime(0) == 2 && Prime(2) && (n < 2 ==> !Prime(n))
  {
  }

  // ---------------------------------------------------------------- roots

  const TWO32: nat := 0x1_0000_0000

  /** `word` is the first 32 bits of the fractional part of the cube root of n. */
  ghost predicate CubeRoot(n: nat, word: nat) {
    word < TWO32 && exists whole: nat :: IsCubeRoot(n, whole, word)
  }

  /** (whole + word / 2^32)^3 <= n < (whole + (word + 1) / 2^32)^3. */
  predicate IsCubeRoot(n: nat, whole: nat, word: nat) {
    var x := whole * TWO32 + word;
    x * x * x <= n * TWO32 * TWO32 * TWO32 < (x + 1) * (x + 1) * (x + 1)
  }

  ghost predicate SquareRoot(n: nat, word: nat) {
    word < TWO32 && exists whole: nat :: IsSquareRoot(n, whole, word)
  }

  predicate IsSquareRoot(n: nat, whole: nat, word: nat) {
    var x := whole * TWO32 + word;
    x * x <= n * TWO32 * TWO32 < (x + 1) * (x + 1)
  }

  /** The whole part of the cube root of a number below 343. */
  function Whole(n: nat): nat {
    if n < 8 then 1 else if n < 27 then 2 else if n < 64 then 3 else if n < 125 then 4 else if n < 216 then 5 else 6
  }

  predicate RootsFrom(t: nat, u: nat)
    requires u <= 64
    decreases if t < u then u - t else 0
  {
    t >= u || (IsCubeRoot(NthPrime(t), Whole(NthPrime(t)), K(t) as nat) && RootsFrom(t + 1, u))
  }

  lemma RootsFrom0()
    ensures RootsFrom(0, 8)
  {
  }

  lemma RootsFrom8()
    ensures RootsFrom(8, 16)
  {
  }

  lemma RootsFrom16()
    ensures RootsFrom(16, 24)
  {
  }

  lemma RootsFrom24()
    ensures RootsFrom(24, 32)
  {
  }

  lemma RootsFrom32()
    ensures RootsFrom(32, 40)
  {
  }

  lemma RootsFrom40()
    ensures RootsFrom(40, 48)
  {
  }

  lemma RootsFrom48()
    ensures RootsFrom(48, 56)
  {
  }

  lemma RootsFrom56()
    ensures RootsFrom(56, 64)
  {
  }

  lemma {:induction false} RootsAre(t: nat, u: nat, i: nat)
    requires t <= i < u <= 64 && RootsFrom(t, u)
    ensures CubeRoot(NthPrime(i), K(i) as nat)
    decreases u - t
  {
    hide NthPrime, K, IsCubeRoot, Whole;
    if t < i { RootsAre(t + 1, u, i); } else { OneRoot(t, u); }
  }

  lemma OneRoot(t: nat, u: nat)
    requires t < u <= 64 && RootsFrom(t, u)
    ensures CubeRoot(NthPrime(t), K(t) as nat)
  {
    hide NthPrime, K, IsCubeRoot, Whole;
    BelowTwo32(K(t));
    assert IsCubeRoot(NthPrime(t), Whole(NthPrime(t)), K(t) as nat);
  }

  lemma BelowTwo32(x: bv32)
    ensures x as nat < TWO32
  {
  }

  /** Section 4.2.2. */
  lemma ConstantsAreCubeRoots(t: nat)
    requires t < 64
    ensures CubeRoot(NthPrime(t), K(t) as nat)
  {
    hide NthPrime, K, CubeRoot, RootsFrom;
    RootsFrom0();
    RootsFrom8();
    RootsFrom16();
    RootsFrom24();
    RootsFrom32();
    RootsFrom40();
    RootsFrom48();
    RootsFrom56();
    RootsAre(8 * (t / 8), 8 * (t / 8) + 8, t);
  }

  /** Section 5.3.3. */
  lemma InitialHashIsSquareRoots()
    ensures SquareRoot(NthPrime(0), H0.a as nat) && SquareRoot(NthPrime(1), H0.b as nat)
    ensures SquareRoot(NthPrime(2), H0.c as nat) && SquareRoot(NthPrime(3), H0.d as nat)
    ensures SquareRoot(NthPrime(4), H0.e as nat) && SquareRoot(NthPrime(5), H0.f as nat)
    ensures SquareRoot(NthPrime(6), H0.g as nat) && SquareRoot(NthPrime(7), H0.h as nat)
  {
    assert IsSquareRoot(2, 1, 0x6a09e667);
    assert IsSquareRoot(3, 1, 0xbb67ae85);
    assert IsSquareRoot(5, 2, 0x3c6ef372);
    assert IsSquareRoot(7, 2, 0xa54ff53a);
    assert IsSquareRoot(11, 3, 0x510e527f);
    assert IsSquareRoot(13, 3, 0x9b05688c);
    assert IsSquareRoot(17, 4, 0x1f83d9ab);
    assert IsSquareRoot(19, 4, 0x5be0cd19);
  }
}
