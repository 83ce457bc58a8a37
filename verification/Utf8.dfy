/** The UTF-8 encoder of cgi-bin/src/config/sha256.js and the byte counter of the Interface
    validator, against a decoder written from RFC 3629.

    A JavaScript string is a sequence of UTF-16 code units. Bit fields that the code takes
    out with shifts and masks, and puts together with `|`, are written with division,
    remainder and addition.
 */
module Utf8 {
  import opened Options
  import opened Sha256Spec

  type CodeUnit = u: int | 0 <= u < 0x1_0000

  predicate High(u: int) { 0xd800 <= u <= 0xdbff }

  predicate Low(u: int) { 0xdc00 <= u <= 0xdfff }

  /** Unicode scalar values: code points other than surrogates. */
  predicate IsScalar(x: int) { 0 <= x <= 0x10ffff && !High(x) && !Low(x) }

  // ---------------------------------------------------------------- UTF-16 (RFC 2781, section 2.2)

  /** The scalar that a surrogate pair stands for. */
  function Pair(high: int, low: int): int { 0x1_0000 + (high - 0xd800) * 0x400 + (low - 0xdc00) }

  /** The scalars of the text from code unit i on; a surrogate without its partner counts as U+FFFD. */
  function Scalars(text: seq<CodeUnit>, i: nat): (r: seq<int>)
    requires i <= |text|
    ensures forall x <- r :: IsScalar(x)
    decreases |text| - i
  {
    if i == |text| then []
    else if High(text[i]) && i + 1 < |text| && Low(text[i + 1]) then
      [Pair(text[i], text[i + 1])] + Scalars(text, i + 2)
    else if High(text[i]) || Low(text[i]) then [0xfffd] + Scalars(text, i + 1)
    else [text[i]] + Scalars(text, i + 1)
  }

  // ---------------------------------------------------------------- UTF-8 (RFC 3629, sections 3 and 4)

  predicate Tail(bytes: seq<Byte>, i: nat) {
    i < |bytes| && 0x80 <= bytes[i] <= 0xbf
  }

  /** The scalar whose encoding begins the bytes, and how many bytes it takes; None if the
      bytes do not begin with the shortest encoding of a scalar. */
  function DecodeOne(bytes: seq<Byte>): (r: Option<(int, nat)>)
    requires |bytes| > 0
    ensures r.Some? ==> 1 <= r.value.1 <= 4 && r.value.1 <= |bytes|
  {
    var b0: int := bytes[0];
    var t1: int := if Tail(bytes, 1) then bytes[1] - 0x80 else -1;
    var t2: int := if Tail(bytes, 2) then bytes[2] - 0x80 else -1;
    var t3: int := if Tail(bytes, 3) then bytes[3] - 0x80 else -1;
    if b0 <= 0x7f then Some((b0, 1))
    else if 0xc2 <= b0 <= 0xdf && 0 <= t1 then Some(((b0 - 0xc0) * 0x40 + t1, 2))
    else if 0xe0 <= b0 <= 0xef && 0 <= t1 && 0 <= t2 && (b0 == 0xe0 ==> 0x20 <= t1) && (b0 == 0xed ==> t1 <= 0x1f) then
      Some(((b0 - 0xe0) * 0x1000 + t1 * 0x40 + t2, 3))
    else if 0xf0 <= b0 <= 0xf4 && 0 <= t1 && 0 <= t2 && 0 <= t3 && (b0 == 0xf0 ==> 0x10 <= t1)
        && (b0 == 0xf4 ==> t1 <= 0x0f) then
      Some(((b0 - 0xf0) * 0x4_0000 + t1 * 0x1000 + t2 * 0x40 + t3, 4))
    else None
  }

  function Decode(bytes: seq<Byte>): Option<seq<int>> {
    if bytes == [] then Some([])
    else
      match DecodeOne(bytes)
      case None => None
      case Some((x, n)) =>
        match Decode(bytes[n..]) case None => None case Some(rest) => Some([x] + rest)
  }

  // ---------------------------------------------------------------- the encoder

  /** The bytes the code pushes for one code point. */
  function Encode(code: int): seq<Byte>
    requires IsScalar(code)
  {
    if code < 0x80 then [code]
    else if code < 0x800 then [0xc0 + code / 0x40, 0x80 + code % 0x40]
    else if code < 0x1_0000 then [0xe0 + code / 0x1000, 0x80 + code / 0x40 % 0x40, 0x80 + code % 0x40]
    else [0xf0 + code / 0x4_0000, 0x80 + code / 0x1000 % 0x40, 0x80 + code / 0x40 % 0x40, 0x80 + code % 0x40]
  }

  function EncodeAll(xs: seq<int>): seq<Byte>
    requires forall x <- xs :: IsScalar(x)
  {
    if xs == [] then [] else Encode(xs[0]) + EncodeAll(xs[1..])
  }

  lemma DecodeEncoded(x: int, rest: seq<Byte>)
    requires IsScalar(x)
    ensures |Encode(x)| > 0 && DecodeOne(Encode(x) + rest) == Some((x, |Encode(x)|))
  {
    assert x / 0x1000 == x / 0x4_0000 * 0x40 + x / 0x1000 % 0x40;
    assert x / 0x40 == x / 0x1000 * 0x40 + x / 0x40 % 0x40;
    assert x == x / 0x40 * 0x40 + x % 0x40;
  }

  lemma {:induction false} DecodeEncodedAll(xs: seq<int>)
    requires forall x <- xs :: IsScalar(x)
    ensures Decode(EncodeAll(xs)) == Some(xs)
  {
    hide DecodeOne, Encode;
    if xs == [] {
    } else {
      DecodeEncodedAll(xs[1..]);
      DecodeEncoded(xs[0], EncodeAll(xs[1..]));
      assert EncodeAll(xs) == Encode(xs[0]) + EncodeAll(xs[1..]);
      assert EncodeAll(xs)[|Encode(xs[0])|..] == EncodeAll(xs[1..]);
      assert [xs[0]] + xs[1..] == xs;
    }
  }

  lemma SixBits(q: nat, r: nat)
    requires r < 0x40
    ensures (q * 0x40 + r) / 0x40 == q && (q * 0x40 + r) % 0x40 == r
  {
  }

  lemma EncodeOne(x: nat)
    requires x < 0x80
    ensures Encode(x) == [x]
  {
  }

  lemma EncodeTwo(q: nat, t1: nat)
    requires 2 <= q < 0x20 && t1 < 0x40
    ensures Encode(q * 0x40 + t1) == [0xc0 + q, 0x80 + t1]
  {
    SixBits(q, t1);
  }

  lemma EncodeThree(q: nat, t1: nat, t2: nat)
    requires q < 0x10 && t1 < 0x40 && t2 < 0x40
    requires var x := q * 0x1000 + t1 * 0x40 + t2; IsScalar(x) && 0x800 <= x
    ensures Encode(q * 0x1000 + t1 * 0x40 + t2) == [0xe0 + q, 0x80 + t1, 0x80 + t2]
  {
    SixBits(q * 0x40 + t1, t2);
    SixBits(q, t1);
    var x := q * 0x1000 + t1 * 0x40 + t2;
    assert x / 0x1000 == x / 0x40 / 0x40;
  }

  lemma EncodeFour(q: nat, t1: nat, t2: nat, t3: nat)
    requires q < 8 && t1 < 0x40 && t2 < 0x40 && t3 < 0x40
    requires var x := q * 0x4_0000 + t1 * 0x1000 + t2 * 0x40 + t3; IsScalar(x) && 0x1_0000 <= x
    ensures Encode(q * 0x4_0000 + t1 * 0x1000 + t2 * 0x40 + t3) == [0xf0 + q, 0x80 + t1, 0x80 + t2, 0x80 + t3]
  {
    SixBits((q * 0x40 + t1) * 0x40 + t2, t3);
    SixBits(q * 0x40 + t1, t2);
    SixBits(q, t1);
    var x := q * 0x4_0000 + t1 * 0x1000 + t2 * 0x40 + t3;
    assert x / 0x1000 == x / 0x40 / 0x40 && x / 0x4_0000 == x / 0x1000 / 0x40;
  }

  /** What DecodeOne accepts is the encoding of the scalar it returns. */
  lemma DecodedOnce(bytes: seq<Byte>)
    requires |bytes| > 0 && DecodeOne(bytes).Some?
    ensures var (x, n) := DecodeOne(bytes).value;
            IsScalar(x) && bytes[..n] == Encode(x)
  {
    hide Encode;
    var (x, n) := DecodeOne(bytes).value;
    if n == 1 {
      EncodeOne(x);
    } else if n == 2 {
      EncodeTwo(bytes[0] - 0xc0, bytes[1] - 0x80);
    } else if n == 3 {
      EncodeThree(bytes[0] - 0xe0, bytes[1] - 0x80, bytes[2] - 0x80);
    } else {
      EncodeFour(bytes[0] - 0xf0, bytes[1] - 0x80, bytes[2] - 0x80, bytes[3] - 0x80);
    }
  }

  /** Well-formed UTF-8 is the encoding of what it decodes to, so no two byte strings decode alike. */
  lemma {:induction false} EncodeDecoded(bytes: seq<Byte>)
    requires Decode(bytes).Some?
    ensures (forall x <- Decode(bytes).value :: IsScalar(x)) && EncodeAll(Decode(bytes).value) == bytes
  {
    hide DecodeOne, Encode;
    if bytes == [] {
    } else {
      DecodedOnce(bytes);
      var (x, n) := DecodeOne(bytes).value;
      EncodeDecoded(bytes[n..]);
      assert bytes == bytes[..n] + bytes[n..];
    }
  }

  /** One turn of either loop: what is read at i, and where reading goes on. */
  lemma ReadScalar(text: seq<CodeUnit>, i: nat)
    requires i < |text|
    ensures var pair := High(text[i]) && i + 1 < |text| && Low(text[i + 1]);
            var code := if pair then Pair(text[i], text[i + 1])
                        else if High(text[i]) || Low(text[i]) then 0xfffd else text[i];
            IsScalar(code) &&
            EncodeAll(Scalars(text, i)) == Encode(code) + EncodeAll(Scalars(text, if pair then i + 2 else i + 1))
  {
    hide Encode;
    var next := if High(text[i]) && i + 1 < |text| && Low(text[i + 1]) then i + 2 else i + 1;
    assert Scalars(text, i)[1..] == Scalars(text, next);
  }

  lemma EncodeLength(code: int)
    requires IsScalar(code)
    ensures |Encode(code)| == if code < 0x80 then 1 else if code < 0x800 then 2 else if code < 0x1_0000 then 3 else 4
  {
  }

  method Utf8Bytes(text: seq<CodeUnit>) returns (bytes: seq<Byte>)
    ensures bytes == EncodeAll(Scalars(text, 0))
    ensures Decode(bytes) == Some(Scalars(text, 0))
  {
    hide Scalars, EncodeAll, Decode, Encode, IsScalar;
    bytes := [];
    var index := 0;
    while index < |text|
      invariant 0 <= index <= |text|
      invariant bytes + EncodeAll(Scalars(text, index)) == EncodeAll(Scalars(text, 0))
    {
      ReadScalar(text, index);
      var code: int := text[index];
      if 0xd800 <= code <= 0xdbff {
        var next: int := if index + 1 < |text| then text[index + 1] else -1;
        if 0xdc00 <= next <= 0xdfff {
          code := 0x1_0000 + (code - 0xd800) * 0x400 + (next - 0xdc00);
          index := index + 1;
        } else {
          code := 0xfffd;
        }
      } else if 0xdc00 <= code <= 0xdfff {
        code := 0xfffd;
      }
      var pushed := Push(code);
      bytes := bytes + pushed;
      index := index + 1;
    }
    DecodeEncodedAll(Scalars(text, 0));
    EmptyTail(text);
  }

  lemma EmptyTail(text: seq<CodeUnit>)
    ensures EncodeAll(Scalars(text, |text|)) == []
  {
  }

  /** The bytes pushed for one code point. */
  method Push(code: int) returns (pushed: seq<Byte>)
    requires IsScalar(code)
    ensures pushed == Encode(code)
  {
    if code < 0x80 {
      pushed := [code];
    } else if code < 0x800 {
      pushed := [0xc0 + code / 0x40, 0x80 + code % 0x40];
    } else if code < 0x1_0000 {
      pushed := [0xe0 + code / 0x1000, 0x80 + code / 0x40 % 0x40, 0x80 + code % 0x40];
    } else {
      pushed := [0xf0 + code / 0x4_0000, 0x80 + code / 0x1000 % 0x40, 0x80 + code / 0x40 % 0x40, 0x80 + code % 0x40];
    }
  }

  /** The independent counter agrees with the encoder's length on every text. */
  method Utf8ByteLength(text: seq<CodeUnit>) returns (size: nat)
    ensures size == |EncodeAll(Scalars(text, 0))|
  {
    hide Scalars, EncodeAll, Encode;
    size := 0;
    var index := 0;
    while index < |text|
      invariant 0 <= index <= |text|
      invariant size + |EncodeAll(Scalars(text, index))| == |EncodeAll(Scalars(text, 0))|
    {
      ReadScalar(text, index);
      ghost var pair := High(text[index]) && index + 1 < |text| && Low(text[index + 1]);
      EncodeLength(if pair then Pair(text[index], text[index + 1])
                   else if High(text[index]) || Low(text[index]) then 0xfffd else text[index]);
      var code := text[index];
      if code < 128 {
        size := size + 1;
      } else if code < 2048 {
        size := size + 2;
      } else if 55296 <= code <= 56319 && index + 1 < |text| && 56320 <= text[index + 1] <= 57343 {
        size := size + 4;
        index := index + 1;
      } else {
        size := size + 3;
      }
      index := index + 1;
    }
    EmptyTail(text);
  }
}
