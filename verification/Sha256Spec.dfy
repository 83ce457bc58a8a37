/** The Secure Hash Standard, FIPS 180-4: the parts that define SHA-256, on messages that are
    whole bytes. Section numbers are those of the standard. */
module Sha256Spec {
  type Byte = b: int | 0 <= b < 256

  // ---------------------------------------------------------------- 2.2.2 operations, 4.1.2 functions, 4.2.2 constants

  /** Addition modulo 2^32. */
  function Plus(x: bv32, y: bv32): bv32 { x + y }

  function Rotr(x: bv32, n: nat): bv32
    requires 0 < n < 32
  {
    (x >> n) | (x << (32 - n))
  }

  function Ch(x: bv32, y: bv32, z: bv32): bv32 { (x & y) ^ (!x & z) }

  function Maj(x: bv32, y: bv32, z: bv32): bv32 { (x & y) ^ (x & z) ^ (y & z) }

  function BigSigma0(x: bv32): bv32 { Rotr(x, 2) ^ Rotr(x, 13) ^ Rotr(x, 22) }

  function BigSigma1(x: bv32): bv32 { Rotr(x, 6) ^ Rotr(x, 11) ^ Rotr(x, 25) }

  function SmallSigma0(x: bv32): bv32 { Rotr(x, 7) ^ Rotr(x, 18) ^ (x >> 3) }

  function SmallSigma1(x: bv32): bv32 { Rotr(x, 17) ^ Rotr(x, 19) ^ (x >> 10) }

  function K(t: nat): bv32
    requires t < 64
  {
    if t < 16 then KFirst(t) else if t < 32 then KSecond(t) else if t < 48 then KThird(t) else KFourth(t)
  }

  function KFirst(t: nat): bv32
    requires t < 16
  {
    match t
    case 0 => 0x428a2f98 case 1 => 0x71374491 case 2 => 0xb5c0fbcf case 3 => 0xe9b5dba5
    case 4 => 0x3956c25b case 5 => 0x59f111f1 case 6 => 0x923f82a4 case 7 => 0xab1c5ed5
    case 8 => 0xd807aa98 case 9 => 0x12835b01 case 10 => 0x243185be case 11 => 0x550c7dc3
    case 12 => 0x72be5d74 case 13 => 0x80deb1fe case 14 => 0x9bdc06a7 case _ => 0xc19bf174
  }

  function KSecond(t: nat): bv32
    requires 16 <= t < 32
  {
    match t
    case 16 => 0xe49b69c1 case 17 => 0xefbe4786 case 18 => 0x0fc19dc6 case 19 => 0x240ca1cc
    case 20 => 0x2de92c6f case 21 => 0x4a7484aa case 22 => 0x5cb0a9dc case 23 => 0x76f988da
    case 24 => 0x983e5152 case 25 => 0xa831c66d case 26 => 0xb00327c8 case 27 => 0xbf597fc7
    case 28 => 0xc6e00bf3 case 29 => 0xd5a79147 case 30 => 0x06ca6351 case _ => 0x14292967
  }

  function KThird(t: nat): bv32
    requires 32 <= t < 48
  {
    match t
    case 32 => 0x27b70a85 case 33 => 0x2e1b2138 case 34 => 0x4d2c6dfc case 35 => 0x53380d13
    case 36 => 0x650a7354 case 37 => 0x766a0abb case 38 => 0x81c2c92e case 39 => 0x92722c85
    case 40 => 0xa2bfe8a1 case 41 => 0xa81a664b case 42 => 0xc24b8b70 case 43 => 0xc76c51a3
    case 44 => 0xd192e819 case 45 => 0xd6990624 case 46 => 0xf40e3585 case _ => 0x106aa070
  }

  function KFourth(t: nat): bv32
    requires 48 <= t < 64
  {
    match t
    case 48 => 0x19a4c116 case 49 => 0x1e376c08 case 50 => 0x2748774c case 51 => 0x34b0bcb5
    case 52 => 0x391c0cb3 case 53 => 0x4ed8aa4a case 54 => 0x5b9cca4f case 55 => 0x682e6ff3
    case 56 => 0x748f82ee case 57 => 0x78a5636f case 58 => 0x84c87814 case 59 => 0x8cc70208
    case 60 => 0x90befffa case 61 => 0xa4506ceb case 62 => 0xbef9a3f7 case _ => 0xc67178f2
  }

  // ---------------------------------------------------------------- 5.1.1 padding

  function BigEndian(bytes: seq<Byte>): nat {
    if bytes == [] then 0 else 256 * BigEndian(bytes[..|bytes| - 1]) + bytes[|bytes| - 1]
  }

  /** The message, a one bit, the fewest zero bits that leave room for a 64-bit block, and in
      that block the message's length in bits. */
  ghost predicate Padded(message: seq<Byte>, padded: seq<Byte>) {
    && |padded| % 64 == 0
    && |message| + 9 <= |padded| < |message| + 9 + 64
    && padded[..|message|] == message
    && padded[|message|] == 0x80
    && (forall i :: |message| < i < |padded| - 8 ==> padded[i] == 0)
    && BigEndian(padded[|padded| - 8..]) == 8 * |message|
  }

  // ---------------------------------------------------------------- 5.2.1 parsing, 6.2.2 computation

  function Word(b0: Byte, b1: Byte, b2: Byte, b3: Byte): bv32 {
    ((b0 as bv32) << 24) | ((b1 as bv32) << 16) | ((b2 as bv32) << 8) | (b3 as bv32)
  }

  /** Word t of the message block that starts at `offset`. */
  function BlockWord(padded: seq<Byte>, offset: nat, t: nat): bv32
    requires t < 16 && offset + 64 <= |padded|
  {
    Word(padded[offset + 4 * t], padded[offset + 4 * t + 1], padded[offset + 4 * t + 2], padded[offset + 4 * t + 3])
  }

  /** The message schedule. */
  function Schedule(padded: seq<Byte>, offset: nat, t: nat): bv32
    requires offset + 64 <= |padded|
  {
    if t < 16 then BlockWord(padded, offset, t)
    else
      Plus(Plus(Plus(SmallSigma1(Schedule(padded, offset, t - 2)), Schedule(padded, offset, t - 7)),
                SmallSigma0(Schedule(padded, offset, t - 15))), Schedule(padded, offset, t - 16))
  }

  /** The eight working variables, and the eight words of a hash value. */
  datatype Words = Words(a: bv32, b: bv32, c: bv32, d: bv32, e: bv32, f: bv32, g: bv32, h: bv32)

  /** The initial hash value, section 5.3.3. */
  const H0 := Words(0x6a09e667, 0xbb67ae85, 0x3c6ef372, 0xa54ff53a, 0x510e527f, 0x9b05688c, 0x1f83d9ab, 0x5be0cd19)

  function T1(v: Words, k: bv32, w: bv32): bv32 {
    Plus(Plus(Plus(Plus(v.h, BigSigma1(v.e)), Ch(v.e, v.f, v.g)), k), w)
  }

  function T2(v: Words): bv32 {
    Plus(BigSigma0(v.a), Maj(v.a, v.b, v.c))
  }

  function Round(v: Words, k: bv32, w: bv32): Words {
    Words(Plus(T1(v, k, w), T2(v)), v.a, v.b, v.c, Plus(v.d, T1(v, k, w)), v.e, v.f, v.g)
  }

  function Rounds(v: Words, padded: seq<Byte>, offset: nat, t: nat): Words
    requires offset + 64 <= |padded| && t <= 64
  {
    if t == 0 then v else Round(Rounds(v, padded, offset, t - 1), K(t - 1), Schedule(padded, offset, t - 1))
  }

  function Sum(x: Words, y: Words): Words {
    Words(Plus(x.a, y.a), Plus(x.b, y.b), Plus(x.c, y.c), Plus(x.d, y.d),
          Plus(x.e, y.e), Plus(x.f, y.f), Plus(x.g, y.g), Plus(x.h, y.h))
  }

  /** The hash value after the first n blocks. */
  function Hash(padded: seq<Byte>, n: nat): Words
    requires 64 * n <= |padded|
  {
    if n == 0 then H0
    else
      var before := Hash(padded, n - 1);
      Sum(Rounds(before, padded, 64 * (n - 1), 64), before)
  }

  /** The hash value of a message of whole bytes. */
  ghost predicate Digest(message: seq<Byte>, hash: Words) {
    exists padded :: Padded(message, padded) && hash == Hash(padded, |padded| / 64)
  }
}
