/** cgi-bin/src/config/sha256.js: the loops and arrays that compute SHA-256, against the
    standard's recursive definition.

    Bytes and lengths are integers and 32-bit words bit-vectors. A byte or length field that
    the code takes out with a shift and a mask is written with division and remainder.
 */
module Sha256 {
  import opened Sha256Spec
  import Utf8

  function RotateRight(value: bv32, amount: nat): bv32
    requires 0 < amount < 32
  {
    (value >> amount) | (value << (32 - amount))
  }

  /** The sum of two words modulo 2^32. */
  function Add(left: bv32, right: bv32): bv32 {
    left + right
  }

  const POW32: nat := 0x1_0000_0000

  // ---------------------------------------------------------------- padding

  /** Byte k, from the left, of a 32-bit field. */
  function FieldByte(field: nat, k: nat): Byte
    requires k < 4
  {
    match k
    case 0 => field / 0x100_0000 % 256
    case 1 => field / 0x1_0000 % 256
    case 2 => field / 0x100 % 256
    case _ => field % 256
  }

  lemma FieldValue(field: nat)
    requires field < POW32
    ensures FieldByte(field, 0) * 0x100_0000 + FieldByte(field, 1) * 0x1_0000 + FieldByte(field, 2) * 0x100
              + FieldByte(field, 3) == field
  {
    assert field / 0x100_0000 % 256 == field / 0x100_0000;
    assert field / 0x1_0000 == field / 0x100_0000 * 256 + field / 0x1_0000 % 256;
    assert field / 0x100 == field / 0x1_0000 * 256 + field / 0x100 % 256;
  }

  lemma LengthValue(bytes: seq<Byte>, high: nat, low: nat)
    requires |bytes| == 8 && high < POW32 && low < POW32
    requires forall k :: 0 <= k < 4 ==> bytes[k] == FieldByte(high, k) && bytes[4 + k] == FieldByte(low, k)
    ensures BigEndian(bytes) == high * POW32 + low
  {
    FieldValue(high);
    FieldValue(low);
    forall n: nat | n < 8 ensures BigEndian(bytes[..n + 1]) == 256 * BigEndian(bytes[..n]) + bytes[n] {
      assert bytes[..n + 1][..n] == bytes[..n];
    }
    assert bytes[..8] == bytes;
  }

  /** Appends zero bytes until the length block fits exactly. */
  method AppendZeros(start: seq<Byte>) returns (bytes: seq<Byte>)
    ensures |start| <= |bytes| < |start| + 64 && |bytes| % 64 == 56
    ensures bytes == start + seq(|bytes| - |start|, _ => 0)
  {
    bytes := start;
    ghost var room := (56 - |start|) % 64;
    while |bytes| % 64 != 56
      invariant |start| <= |bytes| <= |start| + room
      invariant bytes == start + seq(|bytes| - |start|, _ => 0)
      decreases |start| + room - |bytes|
    {
      bytes := bytes + [0];
    }
  }

  method Pad(message: seq<Byte>) returns (bytes: seq<Byte>)
    requires 8 * |message| < 0x20_0000_0000_0000
    ensures Padded(message, bytes)
  {
    var bitLength := |message| * 8;
    bytes := AppendZeros(message + [0x80]);
    var highLength := bitLength / POW32;
    var lowLength := bitLength % POW32;
    var length := [FieldByte(highLength, 0), FieldByte(highLength, 1),
                   FieldByte(highLength, 2), FieldByte(highLength, 3),
                   FieldByte(lowLength, 0), FieldByte(lowLength, 1),
                   FieldByte(lowLength, 2), FieldByte(lowLength, 3)];
    LengthValue(length, highLength, lowLength);
    PaddedParts(message, bytes, length);
    bytes := bytes + length;
  }

  lemma PaddedParts(message: seq<Byte>, zeroed: seq<Byte>, length: seq<Byte>)
    requires |message| + 1 <= |zeroed| < |message| + 65 && |zeroed| % 64 == 56
    requires zeroed == message + [0x80] + seq(|zeroed| - |message| - 1, _ => 0)
    requires |length| == 8 && BigEndian(length) == 8 * |message|
    ensures Padded(message, zeroed + length)
  {
    var padded := zeroed + length;
    assert padded[|padded| - 8..] == length;
    assert padded[..|message|] == message;
  }

  /** Two messages with the same padded form are the same. */
  lemma PaddingInjective(m1: seq<Byte>, m2: seq<Byte>, padded: seq<Byte>)
    requires Padded(m1, padded) && Padded(m2, padded)
    ensures m1 == m2
  {
    assert |m1| == |m2|;
  }

  lemma {:induction false} BigEndianInjective(x: seq<Byte>, y: seq<Byte>)
    requires |x| == |y| && BigEndian(x) == BigEndian(y)
    ensures x == y
  {
    if |x| == 0 {
    } else {
      BigEndianInjective(x[..|x| - 1], y[..|y| - 1]);
      assert x == x[..|x| - 1] + [x[|x| - 1]] && y == y[..|y| - 1] + [y[|y| - 1]];
    }
  }

  /** A message has one padded form, so one digest. */
  lemma PaddingUnique(message: seq<Byte>, p1: seq<Byte>, p2: seq<Byte>)
    requires Padded(message, p1) && Padded(message, p2)
    ensures p1 == p2
  {
    hide BigEndian;
    SameLength(message, p1, p2);
    BigEndianInjective(p1[|p1| - 8..], p2[|p2| - 8..]);
    forall i | 0 <= i < |p1| ensures p1[i] == p2[i] {
      if i < |message| {
        assert p1[i] == p1[..|message|][i] && p2[i] == p2[..|message|][i];
      } else if i >= |p1| - 8 {
        assert p1[i] == p1[|p1| - 8..][i - (|p1| - 8)] && p2[i] == p2[|p2| - 8..][i - (|p2| - 8)];
      }
    }
  }

  lemma SameLength(message: seq<Byte>, p1: seq<Byte>, p2: seq<Byte>)
    requires Padded(message, p1) && Padded(message, p2)
    ensures |p1| == |p2|
  {
    hide BigEndian;
  }

  lemma DigestUnique(message: seq<Byte>, h1: Words, h2: Words)
    requires Digest(message, h1) && Digest(message, h2)
    ensures h1 == h2
  {
    hide Hash;
    var p1 :| Padded(message, p1) && h1 == Hash(p1, |p1| / 64);
    var p2 :| Padded(message, p2) && h2 == Hash(p2, |p2| / 64);
    PaddingUnique(message, p1, p2);
  }

  // ---------------------------------------------------------------- one block

  lemma FirstWords(bytes: seq<Byte>, offset: nat, t: nat)
    requires t < 16 && offset + 64 <= |bytes|
    ensures Schedule(bytes, offset, t) ==
            ((bytes[offset + t * 4] as bv32) << 24) | ((bytes[offset + t * 4 + 1] as bv32) << 16)
            | ((bytes[offset + t * 4 + 2] as bv32) << 8) | (bytes[offset + t * 4 + 3] as bv32)
  {
  }

  lemma AddIsPlus(x: bv32, y: bv32)
    ensures Add(x, y) == Plus(x, y)
  {
  }

  lemma PlusCommutes(x: bv32, y: bv32)
    ensures Plus(x, y) == Plus(y, x)
  {
  }

  lemma PlusAssociates(x: bv32, y: bv32, z: bv32)
    ensures Plus(Plus(x, y), z) == Plus(x, Plus(y, z))
  {
    calc {
      Plus(Plus(x, y), z);
      Plus(x + y, z);
      (x + y) + z;
      x + (y + z);
      Plus(x, y + z);
      Plus(x, Plus(y, z));
    }
  }

  lemma RotationIsRotr(x: bv32, n: nat)
    requires 0 < n < 32
    ensures RotateRight(x, n) == Rotr(x, n)
  {
  }

  /** The code sums the schedule's four terms in another order than the standard. */
  lemma Regroup(w16: bv32, s0: bv32, w7: bv32, s1: bv32)
    ensures Add(Add(Add(w16, s0), w7), s1) == Plus(Plus(Plus(s1, w7), s0), w16)
  {
    hide *;
    AddIsPlus(w16, s0);
    AddIsPlus(Plus(w16, s0), w7);
    AddIsPlus(Plus(Plus(w16, s0), w7), s1);
    PlusCommutes(Plus(Plus(w16, s0), w7), s1);
    PlusCommutes(Plus(w16, s0), w7);
    PlusAssociates(s1, w7, Plus(w16, s0));
    PlusCommutes(w16, s0);
    PlusAssociates(Plus(s1, w7), s0, w16);
  }

  lemma LaterWords(bytes: seq<Byte>, offset: nat, t: nat)
    requires 16 <= t && offset + 64 <= |bytes|
    ensures Schedule(bytes, offset, t) ==
            Plus(Plus(Plus(SmallSigma1(Schedule(bytes, offset, t - 2)), Schedule(bytes, offset, t - 7)),
                      SmallSigma0(Schedule(bytes, offset, t - 15))), Schedule(bytes, offset, t - 16))
  {
    hide Plus, SmallSigma0, SmallSigma1, BlockWord;
  }

  lemma SmallSigma0Meaning(x: bv32)
    ensures RotateRight(x, 7) ^ RotateRight(x, 18) ^ (x >> 3) == SmallSigma0(x)
  {
    hide RotateRight, Rotr;
    RotationIsRotr(x, 7);
    RotationIsRotr(x, 18);
  }

  lemma SmallSigma1Meaning(x: bv32)
    ensures RotateRight(x, 17) ^ RotateRight(x, 19) ^ (x >> 10) == SmallSigma1(x)
  {
    hide RotateRight, Rotr;
    RotationIsRotr(x, 17);
    RotationIsRotr(x, 19);
  }

  lemma BigSigma0Meaning(x: bv32)
    ensures RotateRight(x, 2) ^ RotateRight(x, 13) ^ RotateRight(x, 22) == BigSigma0(x)
  {
    hide RotateRight, Rotr;
    RotationIsRotr(x, 2);
    RotationIsRotr(x, 13);
    RotationIsRotr(x, 22);
  }

  lemma BigSigma1Meaning(x: bv32)
    ensures RotateRight(x, 6) ^ RotateRight(x, 11) ^ RotateRight(x, 25) == BigSigma1(x)
  {
    hide RotateRight, Rotr;
    RotationIsRotr(x, 6);
    RotationIsRotr(x, 11);
    RotationIsRotr(x, 25);
  }

  /** What the code computes from four earlier words is the schedule's next word. */
  lemma NextWord(bytes: seq<Byte>, offset: nat, t: nat, smallSigma0: bv32, smallSigma1: bv32)
    requires 16 <= t && offset + 64 <= |bytes|
    requires var w15 := Schedule(bytes, offset, t - 15);
             smallSigma0 == RotateRight(w15, 7) ^ RotateRight(w15, 18) ^ (w15 >> 3)
    requires var w2 := Schedule(bytes, offset, t - 2);
             smallSigma1 == RotateRight(w2, 17) ^ RotateRight(w2, 19) ^ (w2 >> 10)
    ensures Add(Add(Add(Schedule(bytes, offset, t - 16), smallSigma0), Schedule(bytes, offset, t - 7)), smallSigma1)
            == Schedule(bytes, offset, t)
  {
    hide *;
    SmallSigma0Meaning(Schedule(bytes, offset, t - 15));
    SmallSigma1Meaning(Schedule(bytes, offset, t - 2));
    Regroup(Schedule(bytes, offset, t - 16), smallSigma0, Schedule(bytes, offset, t - 7), smallSigma1);
    LaterWords(bytes, offset, t);
  }

  method ExpandBlock(bytes: seq<Byte>, offset: nat) returns (words: array<bv32>)
    requires offset + 64 <= |bytes|
    ensures fresh(words) && words.Length == 64
    ensures forall t :: 0 <= t < 64 ==> words[t] == Schedule(bytes, offset, t)
  {
    hide *;
    words := new bv32[64];
    for word := 0 to 16
      invariant forall t :: 0 <= t < word ==> words[t] == Schedule(bytes, offset, t)
    {
      var position := offset + word * 4;
      FirstWords(bytes, offset, word);
      words[word] := ((bytes[position] as bv32) << 24) | ((bytes[position + 1] as bv32) << 16)
                     | ((bytes[position + 2] as bv32) << 8) | (bytes[position + 3] as bv32);
    }
    ExtendBlock(bytes, offset, words);
  }

  method ExtendBlock(bytes: seq<Byte>, offset: nat, words: array<bv32>)
    requires offset + 64 <= |bytes| && words.Length == 64
    requires forall t :: 0 <= t < 16 ==> words[t] == Schedule(bytes, offset, t)
    modifies words
    ensures forall t :: 0 <= t < 64 ==> words[t] == Schedule(bytes, offset, t)
  {
    hide *;
    for word := 16 to 64
      invariant forall t :: 0 <= t < word ==> words[t] == Schedule(bytes, offset, t)
    {
      var smallSigma0 := RotateRight(words[word - 15], 7) ^ RotateRight(words[word - 15], 18) ^ (words[word - 15] >> 3);
      var smallSigma1 := RotateRight(words[word - 2], 17) ^ RotateRight(words[word - 2], 19) ^ (words[word - 2] >> 10);
      NextWord(bytes, offset, word, smallSigma0, smallSigma1);
      words[word] := Add(Add(Add(words[word - 16], smallSigma0), words[word - 7]), smallSigma1);
    }
  }

  /** One round on the code's eight variables is one round of the standard. */
  lemma RoundMeaning(v: Words, k: bv32, w: bv32, choose: bv32, majority: bv32)
    requires choose == (v.e & v.f) ^ (!v.e & v.g) && majority == (v.a & v.b) ^ (v.a & v.c) ^ (v.b & v.c)
    ensures var temporary1 := Add(Add(Add(Add(v.h, BigSigma1(v.e)), choose), k), w);
            var temporary2 := Add(BigSigma0(v.a), majority);
            Words(Add(temporary1, temporary2), v.a, v.b, v.c, Add(v.d, temporary1), v.e, v.f, v.g) == Round(v, k, w)
  {
    hide *;
    var t1 := RoundSums(v, k, w, choose, majority);
    AddIsPlus(t1, T2(v));
    AddIsPlus(v.d, t1);
    assert Round(v, k, w) == Words(Plus(t1, T2(v)), v.a, v.b, v.c, Plus(v.d, t1), v.e, v.f, v.g) by {
      RoundIs(v, k, w);
    }
  }

  lemma RoundIs(v: Words, k: bv32, w: bv32)
    ensures Round(v, k, w) == Words(Plus(T1(v, k, w), T2(v)), v.a, v.b, v.c, Plus(v.d, T1(v, k, w)), v.e, v.f, v.g)
  {
    hide Plus, T1, T2;
  }

  lemma RoundSums(v: Words, k: bv32, w: bv32, choose: bv32, majority: bv32) returns (t1: bv32)
    requires choose == (v.e & v.f) ^ (!v.e & v.g) && majority == (v.a & v.b) ^ (v.a & v.c) ^ (v.b & v.c)
    ensures t1 == T1(v, k, w) == Add(Add(Add(Add(v.h, BigSigma1(v.e)), choose), k), w)
    ensures T2(v) == Add(BigSigma0(v.a), majority)
  {
    hide Plus, Add, BigSigma0, BigSigma1;
    t1 := T1(v, k, w);
    assert choose == Ch(v.e, v.f, v.g) && majority == Maj(v.a, v.b, v.c);
    AddIsPlus(v.h, BigSigma1(v.e));
    AddIsPlus(Plus(v.h, BigSigma1(v.e)), choose);
    AddIsPlus(Plus(Plus(v.h, BigSigma1(v.e)), choose), k);
    AddIsPlus(Plus(Plus(Plus(v.h, BigSigma1(v.e)), choose), k), w);
    AddIsPlus(BigSigma0(v.a), majority);
  }

  lemma RoundsStep(hash: Words, bytes: seq<Byte>, offset: nat, t: nat)
    requires offset + 64 <= |bytes| && t < 64
    ensures Rounds(hash, bytes, offset, t + 1)
            == Round(Rounds(hash, bytes, offset, t), K(t), Schedule(bytes, offset, t))
    ensures Rounds(hash, bytes, offset, 0) == hash
  {
    hide Round, K, Schedule;
  }

  lemma SumMeaning(hash: Words, v: Words)
    ensures Words(Add(hash.a, v.a), Add(hash.b, v.b), Add(hash.c, v.c), Add(hash.d, v.d),
                  Add(hash.e, v.e), Add(hash.f, v.f), Add(hash.g, v.g), Add(hash.h, v.h)) == Sum(v, hash)
  {
    hide Plus, Add;
    forall x, y ensures Add(x, y) == Plus(y, x) {
      AddIsPlus(x, y);
      PlusCommutes(x, y);
    }
  }

  method CompressBlock(hash: Words, bytes: seq<Byte>, offset: nat) returns (next: Words)
    requires offset + 64 <= |bytes|
    ensures next == Sum(Rounds(hash, bytes, offset, 64), hash)
  {
    hide *;
    var words := ExpandBlock(bytes, offset);
    var a, b, c, d := hash.a, hash.b, hash.c, hash.d;
    var e, f, g, h := hash.e, hash.f, hash.g, hash.h;
    RoundsStep(hash, bytes, offset, 0);
    for word := 0 to 64
      invariant forall t :: 0 <= t < 64 ==> words[t] == Schedule(bytes, offset, t)
      invariant Words(a, b, c, d, e, f, g, h) == Rounds(hash, bytes, offset, word)
    {
      ghost var v := Words(a, b, c, d, e, f, g, h);
      RoundsStep(hash, bytes, offset, word);
      BigSigma0Meaning(a);
      BigSigma1Meaning(e);
      var bigSigma1 := RotateRight(e, 6) ^ RotateRight(e, 11) ^ RotateRight(e, 25);
      var choose := (e & f) ^ (!e & g);
      var temporary1 := Add(Add(Add(Add(h, bigSigma1), choose), K(word)), words[word]);
      var bigSigma0 := RotateRight(a, 2) ^ RotateRight(a, 13) ^ RotateRight(a, 22);
      var majority := (a & b) ^ (a & c) ^ (b & c);
      var temporary2 := Add(bigSigma0, majority);
      RoundMeaning(v, K(word), words[word], choose, majority);
      h := g; g := f; f := e; e := Add(d, temporary1);
      d := c; c := b; b := a; a := Add(temporary1, temporary2);
      assert Words(a, b, c, d, e, f, g, h) == Round(v, K(word), words[word]);
    }
    SumMeaning(hash, Words(a, b, c, d, e, f, g, h));
    next := Words(Add(hash.a, a), Add(hash.b, b), Add(hash.c, c), Add(hash.d, d),
                  Add(hash.e, e), Add(hash.f, f), Add(hash.g, g), Add(hash.h, h));
  }

  // ---------------------------------------------------------------- a whole message

  lemma HashStep(bytes: seq<Byte>, n: nat)
    requires 64 * (n + 1) <= |bytes|
    ensures Hash(bytes, n + 1) == Sum(Rounds(Hash(bytes, n), bytes, 64 * n, 64), Hash(bytes, n))
    ensures Hash(bytes, 0) == H0
  {
    hide Sum, Rounds;
  }

  method HashBytes(message: seq<Byte>) returns (hash: Words)
    requires 8 * |message| < 0x20_0000_0000_0000
    ensures Digest(message, hash)
  {
    hide Hash, Sum, Rounds;
    var bytes := Pad(message);
    hash := H0;
    var offset := 0;
    HashStep(bytes, 0);
    while offset < |bytes|
      invariant 0 <= offset <= |bytes| && offset % 64 == 0
      invariant hash == Hash(bytes, offset / 64)
    {
      HashStep(bytes, offset / 64);
      hash := CompressBlock(hash, bytes, offset);
      offset := offset + 64;
    }
  }

  // ---------------------------------------------------------------- hexadecimal

  const DIGITS := "0123456789abcdef"

  /** Number.prototype.toString(16) of a non-negative integer. */
  function ToHex(n: nat): string {
    if n < 16 then [DIGITS[n]] else ToHex(n / 16) + [DIGITS[n % 16]]
  }

  function DigitValue(c: char): nat {
    if '0' <= c <= '9' then c as nat - '0' as nat
    else if 'a' <= c <= 'f' then c as nat - 'a' as nat + 10
    else 0
  }

  function HexValue(s: string): nat {
    if s == "" then 0 else 16 * HexValue(s[..|s| - 1]) + DigitValue(s[|s| - 1])
  }

  function Pow16(n: nat): nat {
    if n == 0 then 1 else 16 * Pow16(n - 1)
  }

  lemma {:induction false} ToHexValue(n: nat, width: nat)
    requires n < Pow16(width) && 1 <= width
    ensures HexValue(ToHex(n)) == n && 1 <= |ToHex(n)| <= width
  {
    if n < 16 {
      assert ToHex(n)[..0] == "";
    } else {
      var front, last := ToHex(n / 16), DIGITS[n % 16];
      assert n / 16 < Pow16(width - 1) && DigitValue(last) == n % 16;
      assert ToHex(n) == front + [last] && (front + [last])[..|front|] == front;
      hide Pow16, DigitValue;
      ToHexValue(n / 16, width - 1);
    }
  }

  lemma {:induction false} LeadingZeros(zeros: string, s: string)
    requires forall i :: 0 <= i < |zeros| ==> zeros[i] == '0'
    ensures HexValue(zeros + s) == HexValue(s)
  {
    if s != "" {
      assert (zeros + s)[..|zeros + s| - 1] == zeros + s[..|s| - 1];
      LeadingZeros(zeros, s[..|s| - 1]);
    } else if zeros != "" {
      assert zeros + s == zeros && zeros[..|zeros| - 1] + s == zeros[..|zeros| - 1];
      LeadingZeros(zeros[..|zeros| - 1], s);
    }
  }

  predicate IsDigit(c: char) { '0' <= c <= '9' || 'a' <= c <= 'f' }

  lemma {:induction false} ToHexDigits(n: nat)
    ensures forall i :: 0 <= i < |ToHex(n)| ==> IsDigit(ToHex(n)[i])
  {
    if n < 16 {
    } else {
      ToHexDigits(n / 16);
    }
  }

  /** wordHex: eight digits that spell the word. */
  function WordHex(value: bv32): (hex: string)
    ensures |hex| == 8 && HexValue(hex) == value as nat
    ensures forall i :: 0 <= i < 8 ==> IsDigit(hex[i])
  {
    var digits := ToHex(value as nat);
    assert Pow16(8) == POW32;
    ToHexValue(value as nat, 8);
    ToHexDigits(value as nat);
    LeadingZeros("00000000"[|digits|..], digits);
    "00000000"[|digits|..] + digits
  }

  /** The text is 64 hexadecimal digits; every eight of them, most significant first, are one word of
      the hash value, and the words stand in their order. */
  predicate Spells(hex: string, hash: Words) {
    && |hex| == 64 && (forall i :: 0 <= i < 64 ==> IsDigit(hex[i]))
    && HexValue(hex[0..8]) == hash.a as nat && HexValue(hex[8..16]) == hash.b as nat
    && HexValue(hex[16..24]) == hash.c as nat && HexValue(hex[24..32]) == hash.d as nat
    && HexValue(hex[32..40]) == hash.e as nat && HexValue(hex[40..48]) == hash.f as nat
    && HexValue(hex[48..56]) == hash.g as nat && HexValue(hex[56..64]) == hash.h as nat
  }

  /** Eight groups of eight characters, one after the other. */
  lemma Groups(s: seq<string>, all: string)
    requires |s| == 8 && (forall k :: 0 <= k < 8 ==> |s[k]| == 8)
    requires all == s[0] + s[1] + s[2] + s[3] + s[4] + s[5] + s[6] + s[7]
    ensures |all| == 64 && forall k :: 0 <= k < 8 ==> all[8 * k..8 * k + 8] == s[k]
  {
  }

  lemma AllDigits(s: seq<string>, all: string)
    requires |s| == 8 && |all| == 64 && forall k :: 0 <= k < 8 ==> |s[k]| == 8 && all[8 * k..8 * k + 8] == s[k]
    requires forall k, i :: 0 <= k < 8 && 0 <= i < 8 ==> IsDigit(s[k][i])
    ensures forall i :: 0 <= i < 64 ==> IsDigit(all[i])
  {
    hide IsDigit;
    forall i | 0 <= i < 64 ensures IsDigit(all[i]) {
      assert all[i] == all[8 * (i / 8)..8 * (i / 8) + 8][i % 8] == s[i / 8][i % 8];
    }
  }

  lemma WordsSpell(hash: Words, hex: string)
    requires hex == WordHex(hash.a) + WordHex(hash.b) + WordHex(hash.c) + WordHex(hash.d)
                    + WordHex(hash.e) + WordHex(hash.f) + WordHex(hash.g) + WordHex(hash.h)
    ensures Spells(hex, hash)
  {
    hide ToHex, HexValue, IsDigit, WordHex;
    var s := [WordHex(hash.a), WordHex(hash.b), WordHex(hash.c), WordHex(hash.d),
              WordHex(hash.e), WordHex(hash.f), WordHex(hash.g), WordHex(hash.h)];
    Groups(s, hex);
    AllDigits(s, hex);
    assert hex[8 * 0..8 * 0 + 8] == s[0] && hex[8 * 1..8 * 1 + 8] == s[1];
    assert hex[8 * 2..8 * 2 + 8] == s[2] && hex[8 * 3..8 * 3 + 8] == s[3];
    assert hex[8 * 4..8 * 4 + 8] == s[4] && hex[8 * 5..8 * 5 + 8] == s[5];
    assert hex[8 * 6..8 * 6 + 8] == s[6] && hex[8 * 7..8 * 7 + 8] == s[7];
  }

  function HashHex(hash: Words): (hex: string)
    ensures Spells(hex, hash)
  {
    var hex := WordHex(hash.a) + WordHex(hash.b) + WordHex(hash.c) + WordHex(hash.d)
               + WordHex(hash.e) + WordHex(hash.f) + WordHex(hash.g) + WordHex(hash.h);
    WordsSpell(hash, hex);
    hex
  }

  /** As many digits with the same value are the same digits. */
  lemma {:induction false} DigitsOfValue(s: string, t: string)
    requires |s| == |t| && HexValue(s) == HexValue(t)
    requires forall i :: 0 <= i < |s| ==> IsDigit(s[i]) && IsDigit(t[i])
    ensures s == t
  {
    if s == "" {
    } else {
      var n := |s| - 1;
      assert 16 * HexValue(s[..n]) + DigitValue(s[n]) == 16 * HexValue(t[..n]) + DigitValue(t[n]);
      assert DigitValue(s[n]) < 16 && DigitValue(t[n]) < 16;
      DigitsOfValue(s[..n], t[..n]);
      assert s == s[..n] + [s[n]] && t == t[..n] + [t[n]];
    }
  }

  lemma WordOfNat(x: bv32)
    ensures (x as nat) as bv32 == x
  {
  }

  lemma SameWord(x: bv32, y: bv32)
    requires x as nat == y as nat
    ensures x == y
  {
    WordOfNat(x);
    WordOfNat(y);
  }

  /** The printed digest loses nothing: the text determines all eight words, and they the text. */
  lemma SpellsOne(hex1: string, h1: Words, hex2: string, h2: Words)
    requires Spells(hex1, h1) && Spells(hex2, h2)
    ensures hex1 == hex2 <==> h1 == h2
  {
    hide HexValue, IsDigit;
    if hex1 == hex2 {
      SameWord(h1.a, h2.a);
      SameWord(h1.b, h2.b);
      SameWord(h1.c, h2.c);
      SameWord(h1.d, h2.d);
      SameWord(h1.e, h2.e);
      SameWord(h1.f, h2.f);
      SameWord(h1.g, h2.g);
      SameWord(h1.h, h2.h);
    }
    if h1 == h2 { SameText(hex1, hex2, h1); }
  }

  lemma SameText(hex1: string, hex2: string, hash: Words)
    requires Spells(hex1, hash) && Spells(hex2, hash)
    ensures hex1 == hex2
  {
    hide HexValue, IsDigit;
    forall k | 0 <= k < 8 ensures hex1[8 * k..8 * k + 8] == hex2[8 * k..8 * k + 8] {
      assert HexValue(hex1[8 * k..8 * k + 8]) == HexValue(hex2[8 * k..8 * k + 8]);
      DigitsOfValue(hex1[8 * k..8 * k + 8], hex2[8 * k..8 * k + 8]);
    }
    forall i | 0 <= i < 64 ensures hex1[i] == hex2[i] {
      assert hex1[8 * (i / 8)..8 * (i / 8) + 8] == hex2[8 * (i / 8)..8 * (i / 8) + 8];
      assert hex1[i] == hex1[8 * (i / 8)..8 * (i / 8) + 8][i % 8];
      assert hex2[i] == hex2[8 * (i / 8)..8 * (i / 8) + 8][i % 8];
    }
  }

  /** sha256(value): the digest of the text's UTF-8 form, as 64 hexadecimal digits. */
  method Sha256(text: seq<Utf8.CodeUnit>) returns (hex: string)
    requires 8 * |Utf8.EncodeAll(Utf8.Scalars(text, 0))| < 0x20_0000_0000_0000
    ensures exists hash :: Digest(Utf8.EncodeAll(Utf8.Scalars(text, 0)), hash) && Spells(hex, hash)
  {
    var bytes := Utf8.Utf8Bytes(text);
    var hash := HashBytes(bytes);
    hex := HashHex(hash);
  }
}
