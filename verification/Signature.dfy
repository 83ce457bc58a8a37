/** D-Bus type signatures: the two parsers, the printer and the normaliser of
    cgi-bin/src/dbus/types.js, against the grammar of the D-Bus Specification (sections
    "Type System" and "Valid Signatures").

    The grammar is given by `Print`: a signature is the printed form of a well-formed type.
    Type names are the members of `Basic`; a name, or a value, that is none of the forms
    normalizeType knows is `Malformed`.
 */
module Signature {
  import opened Options

  const MAX_DEPTH: nat := 32
  const MAX_LENGTH: nat := 255

  datatype Basic =
    | Byte | Boolean | Int16 | Uint16 | Int32 | Uint32 | Int64 | Uint64 | Double
    | UnixFd | Str | ObjectPath | Sig | Variant

  datatype Type =
    | Scalar(basic: Basic)
    | Array(element: Type)
    | DictEntry(key: Option<Basic>, value: Type)
    | Struct(fields: seq<Type>)
    | Malformed

  /** TYPE_SIGNATURE_MAP. */
  function Letter(b: Basic): char {
    match b
    case Byte => 'y' case Boolean => 'b' case Int16 => 'n' case Uint16 => 'q' case Int32 => 'i'
    case Uint32 => 'u' case Int64 => 'x' case Uint64 => 't' case Double => 'd' case UnixFd => 'h'
    case Str => 's' case ObjectPath => 'o' case Sig => 'g' case Variant => 'v'
  }

  /** SIGNATURE_TYPE_MAP. */
  function FromLetter(c: char): Option<Basic> {
    match c
    case 'y' => Some(Byte) case 'b' => Some(Boolean) case 'n' => Some(Int16) case 'q' => Some(Uint16)
    case 'i' => Some(Int32) case 'u' => Some(Uint32) case 'x' => Some(Int64) case 't' => Some(Uint64)
    case 'd' => Some(Double) case 'h' => Some(UnixFd) case 's' => Some(Str) case 'o' => Some(ObjectPath)
    case 'g' => Some(Sig) case 'v' => Some(Variant) case _ => None
  }

  /** BASIC_SIGNATURE_TYPES, as the other parser keeps it. */
  const BASIC_LETTERS := "ybnqiuxthdsoghv"

  lemma LettersInverse(c: char, b: Basic)
    ensures FromLetter(c) == Some(b) <==> c == Letter(b)
    ensures c in BASIC_LETTERS <==> FromLetter(c).Some?
  {
    assert BASIC_LETTERS[0] == 'y' && BASIC_LETTERS[1] == 'b' && BASIC_LETTERS[2] == 'n' && BASIC_LETTERS[3] == 'q';
    assert BASIC_LETTERS[4] == 'i' && BASIC_LETTERS[5] == 'u' && BASIC_LETTERS[6] == 'x' && BASIC_LETTERS[7] == 't';
    assert BASIC_LETTERS[8] == 'h' && BASIC_LETTERS[9] == 'd' && BASIC_LETTERS[10] == 's' && BASIC_LETTERS[11] == 'o';
    assert BASIC_LETTERS[12] == 'g' && BASIC_LETTERS[13] == 'h' && BASIC_LETTERS[14] == 'v';
  }

  lemma KeyLetter(b: Basic)
    requires b != Variant
    ensures Letter(b) in BASIC_LETTERS && Letter(b) != 'v'
  {
    LettersInverse(Letter(b), b);
  }

  // ---------------------------------------------------------------- grammar

  function Print(t: Type): string {
    match t
    case Scalar(b) => [Letter(b)]
    case Array(e) => "a" + Print(e)
    case DictEntry(k, v) => (if k.Some? then "{" + [Letter(k.value)] else "{") + Print(v) + "}"
    case Struct(fs) => "(" + PrintAll(fs) + ")"
    case Malformed => ""
  }

  function PrintAll(ts: seq<Type>): string {
    if ts == [] then "" else Print(ts[0]) + PrintAll(ts[1..])
  }

  /** A dict entry stands only as the element of an array, and its key is basic. */
  predicate WellFormed(t: Type, allowDictEntry: bool) {
    match t
    case Scalar(_) => true
    case Array(e) => WellFormed(e, true)
    case DictEntry(k, v) => allowDictEntry && k.Some? && k.value != Variant && WellFormed(v, false)
    case Struct(fs) => fs != [] && forall f <- fs :: WellFormed(f, false)
    case Malformed => false
  }

  function Max(a: nat, b: nat): nat { if a < b then b else a }

  /** Nesting as the parsers count it: an array of dict entries is one level. */
  function ParseDepth(t: Type): nat {
    match t
    case Array(e) => 1 + ParseDepth(e)
    case DictEntry(_, v) => ParseDepth(v)
    case Struct(fs) => 1 + ParseDepths(fs)
    case _ => 0
  }

  function ParseDepths(ts: seq<Type>): nat {
    if ts == [] then 0 else Max(ParseDepth(ts[0]), ParseDepths(ts[1..]))
  }

  /** Nesting as normalizeType counts it: the array and its dict entry are a level each. */
  function FullDepth(t: Type): nat {
    match t
    case Array(e) => 1 + FullDepth(e)
    case DictEntry(_, v) => 1 + FullDepth(v)
    case Struct(fs) => 1 + FullDepths(fs)
    case _ => 0
  }

  function FullDepths(ts: seq<Type>): nat {
    if ts == [] then 0 else Max(FullDepth(ts[0]), FullDepths(ts[1..]))
  }

  // ---------------------------------------------------------------- text at an offset

  predicate At(value: string, offset: nat, s: string) {
    offset + |s| <= |value| && value[offset..offset + |s|] == s
  }

  lemma AtSplit(value: string, offset: nat, s: string, t: string)
    ensures At(value, offset, s + t) <==> At(value, offset, s) && At(value, offset + |s|, t)
  {
    if offset + |s| + |t| <= |value| {
      var w := value[offset..offset + |s + t|];
      assert w[..|s|] == value[offset..offset + |s|] && w[|s|..] == value[offset + |s|..offset + |s| + |t|];
      assert w == w[..|s|] + w[|s|..];
      assert (s + t)[..|s|] == s && (s + t)[|s|..] == t;
    }
  }

  lemma AtChar(value: string, offset: nat, c: char)
    ensures At(value, offset, [c]) <==> offset < |value| && value[offset] == c
  {
  }

  /** What a printed type looks like at an offset. */
  lemma AtPrint(value: string, offset: nat, t: Type)
    requires At(value, offset, Print(t)) && WellFormed(t, true)
    ensures |Print(t)| > 0 && offset < |value|
    ensures value[offset] == match t
                             case Scalar(b) => Letter(b)
                             case Array(_) => 'a'
                             case DictEntry(_, _) => '{'
                             case _ => '('
    ensures t.Array? ==> At(value, offset + 1, Print(t.element))
    ensures t.DictEntry? ==> At(value, offset + 1, [Letter(t.key.value)]) && At(value, offset + 2, Print(t.value))
                             && At(value, offset + 2 + |Print(t.value)|, "}")
    ensures t.Struct? ==> At(value, offset + 1, PrintAll(t.fields)) && At(value, offset + 1 + |PrintAll(t.fields)|, ")")
  {
    match t {
      case Scalar(b) => AtChar(value, offset, Letter(b));
      case Array(e) => AtSplit(value, offset, "a", Print(e)); AtChar(value, offset, 'a');
      case DictEntry(k, v) => AtEntry(value, offset, k.value, v);
      case Struct(fs) => AtStruct(value, offset, fs);
    }
  }

  lemma AtEntry(value: string, offset: nat, k: Basic, v: Type)
    requires At(value, offset, Print(DictEntry(Some(k), v)))
    ensures |Print(DictEntry(Some(k), v))| > 0 && offset < |value| && value[offset] == '{'
    ensures At(value, offset + 1, [Letter(k)]) && At(value, offset + 2, Print(v))
              && At(value, offset + 2 + |Print(v)|, "}")
  {
    var key, text := [Letter(k)], Print(v);
    assert Print(DictEntry(Some(k), v)) == "{" + key + text + "}";
    hide At, Print;
    AtSplit(value, offset, "{" + key + text, "}");
    AtSplit(value, offset, "{" + key, text);
    AtSplit(value, offset, "{", key);
    AtChar(value, offset, '{');
  }

  lemma AtStruct(value: string, offset: nat, fs: seq<Type>)
    requires At(value, offset, Print(Struct(fs)))
    ensures |Print(Struct(fs))| > 0 && offset < |value| && value[offset] == '('
    ensures At(value, offset + 1, PrintAll(fs)) && At(value, offset + 1 + |PrintAll(fs)|, ")")
  {
    var text := PrintAll(fs);
    assert Print(Struct(fs)) == "(" + text + ")";
    hide At, Print, PrintAll;
    AtSplit(value, offset, "(" + text, ")");
    AtSplit(value, offset, "(", text);
    AtChar(value, offset, '(');
  }

  // ---------------------------------------------------------------- unique readability

  /** At one offset at most one well-formed type can be read. */
  lemma {:induction false} Unique(value: string, offset: nat, t: Type, u: Type)
    requires WellFormed(t, true) && WellFormed(u, true)
    requires At(value, offset, Print(t)) && At(value, offset, Print(u))
    ensures t == u
    decreases t
  {
    AtPrint(value, offset, t);
    AtPrint(value, offset, u);
    if t.Scalar? && u.Scalar? {
      LettersInverse(value[offset], t.basic);
      LettersInverse(value[offset], u.basic);
    } else if t.Array? && u.Array? {
      Unique(value, offset + 1, t.element, u.element);
    } else if t.DictEntry? && u.DictEntry? {
      AtChar(value, offset + 1, Letter(t.key.value));
      AtChar(value, offset + 1, Letter(u.key.value));
      LettersInverse(value[offset + 1], t.key.value);
      LettersInverse(value[offset + 1], u.key.value);
      Unique(value, offset + 2, t.value, u.value);
    } else if t.Struct? && u.Struct? {
      UniqueAll(value, offset + 1, t.fields, u.fields);
      SameEnd(value, offset + 1, t.fields, u.fields);
    } else {
      LetterShapes(t, u, value[offset]);
    }
  }

  /** The first letters tell the shapes apart. */
  lemma LetterShapes(t: Type, u: Type, c: char)
    ensures (t.Scalar? && c == Letter(t.basic)) || (u.Scalar? && c == Letter(u.basic)) ==>
              c != 'a' && c != '{' && c != '(' && c != ')' && c != '}'
  {
  }

  /** Of two lists read at one offset, one begins with the other. */
  lemma {:induction false} UniqueAll(value: string, offset: nat, ts: seq<Type>, us: seq<Type>)
    requires (forall t <- ts :: WellFormed(t, false)) && (forall u <- us :: WellFormed(u, false))
    requires At(value, offset, PrintAll(ts)) && At(value, offset, PrintAll(us))
    ensures ts <= us || us <= ts
    decreases ts
  {
    if ts == [] || us == [] {
    } else {
      AtSplit(value, offset, Print(ts[0]), PrintAll(ts[1..]));
      AtSplit(value, offset, Print(us[0]), PrintAll(us[1..]));
      WellFormedAnywhere(ts[0]);
      WellFormedAnywhere(us[0]);
      Unique(value, offset, ts[0], us[0]);
      UniqueAll(value, offset + |Print(ts[0])|, ts[1..], us[1..]);
    }
  }

  lemma WellFormedAnywhere(t: Type)
    requires WellFormed(t, false)
    ensures WellFormed(t, true) && !t.DictEntry?
  {
  }

  lemma {:induction false} PrintAllSplit(ts: seq<Type>, us: seq<Type>)
    ensures PrintAll(ts + us) == PrintAll(ts) + PrintAll(us)
  {
    hide Print;
    if ts == [] {
      assert ts + us == us;
    } else {
      PrintAllSplit(ts[1..], us);
      assert (ts + us)[1..] == ts[1..] + us && (ts + us)[0] == ts[0];
      Associative(Print(ts[0]), PrintAll(ts[1..]), PrintAll(us));
    }
  }

  lemma Associative(a: string, b: string, c: string)
    ensures (a + b) + c == a + (b + c)
  {
  }

  /** A list read at an offset and a longer one that begins with it: where the shorter ends,
      the next type of the longer begins. */
  lemma Continues(value: string, offset: nat, ts: seq<Type>, us: seq<Type>)
    requires ts <= us && |ts| < |us| && (forall u <- us :: WellFormed(u, false))
    requires At(value, offset, PrintAll(us))
    ensures At(value, offset + |PrintAll(ts)|, Print(us[|ts|]))
  {
    var rest := us[|ts|..];
    assert us == ts + rest && rest == [us[|ts|]] + rest[1..];
    PrintAllSplit(ts, rest);
    AtSplit(value, offset, PrintAll(ts), PrintAll(rest));
    AtSplit(value, offset + |PrintAll(ts)|, Print(us[|ts|]), PrintAll(rest[1..]));
  }

  /** Two lists that both end at a closing bracket are one. */
  lemma SameEnd(value: string, offset: nat, ts: seq<Type>, us: seq<Type>)
    requires (forall t <- ts :: WellFormed(t, false)) && (forall u <- us :: WellFormed(u, false))
    requires At(value, offset, PrintAll(ts)) && At(value, offset + |PrintAll(ts)|, ")")
    requires At(value, offset, PrintAll(us)) && At(value, offset + |PrintAll(us)|, ")")
    requires ts <= us || us <= ts
    ensures ts == us
  {
    if |ts| < |us| {
      NotClosing(value, offset, ts, us);
    } else if |us| < |ts| {
      NotClosing(value, offset, us, ts);
    }
  }

  /** Where the longer list goes on there is no closing bracket. */
  lemma NotClosing(value: string, offset: nat, ts: seq<Type>, us: seq<Type>)
    requires ts <= us && |ts| < |us| && (forall u <- us :: WellFormed(u, false))
    requires At(value, offset, PrintAll(us))
    ensures !At(value, offset + |PrintAll(ts)|, ")")
  {
    hide *;
    Continues(value, offset, ts, us);
    NotBracket(value, offset + |PrintAll(ts)|, us[|ts|]);
  }

  /** No type begins with a closing bracket. */
  lemma NotBracket(value: string, offset: nat, t: Type)
    requires At(value, offset, Print(t)) && WellFormed(t, false)
    ensures offset < |value| && value[offset] != ')' && value[offset] != '}'
    ensures !At(value, offset, ")")
  {
    WellFormedAnywhere(t);
    AtPrint(value, offset, t);
    AtChar(value, offset, ')');
    LetterShapes(t, t, value[offset]);
  }

  /** Two lists with one text are one: a signature has at most one reading. */
  lemma UniqueReading(ts: seq<Type>, us: seq<Type>)
    requires (forall t <- ts :: WellFormed(t, false)) && (forall u <- us :: WellFormed(u, false))
    requires PrintAll(ts) == PrintAll(us)
    ensures ts == us
  {
    var value := PrintAll(ts);
    WholeText(value);
    UniqueAll(value, 0, ts, us);
    if |ts| < |us| {
      Beyond(value, ts, us);
    } else if |us| < |ts| {
      Beyond(value, us, ts);
    }
  }

  lemma WholeText(value: string)
    ensures At(value, 0, value)
  {
    assert value[0..|value|] == value;
  }

  /** A proper beginning of a list has a shorter text. */
  lemma Beyond(value: string, ts: seq<Type>, us: seq<Type>)
    requires ts <= us && |ts| < |us| && (forall u <- us :: WellFormed(u, false))
    requires At(value, 0, PrintAll(us))
    ensures |PrintAll(ts)| < |value|
  {
    hide *;
    Continues(value, 0, ts, us);
    NotBracket(value, |PrintAll(ts)|, us[|ts|]);
  }

  // ---------------------------------------------------------------- the two parsers

  /** `t` is what stands at `offset`, within the depth that is left. */
  ghost predicate Matches(value: string, offset: nat, depth: nat, t: Type) {
    WellFormed(t, false) && depth + ParseDepth(t) <= MAX_DEPTH && At(value, offset, Print(t))
  }

  /** No type can be read there. */
  ghost predicate NothingAt(value: string, offset: nat, depth: nat) {
    forall t :: !Matches(value, offset, depth, t)
  }

  lemma Absent(value: string, offset: nat, depth: nat, t: Type)
    requires NothingAt(value, offset, depth) && WellFormed(t, false) && depth + ParseDepth(t) <= MAX_DEPTH
    ensures !At(value, offset, Print(t))
  {
    assert !Matches(value, offset, depth, t);
  }

  lemma MatchesOnce(value: string, offset: nat, depth: nat, t: Type, u: Type)
    requires Matches(value, offset, depth, t) && Matches(value, offset, depth, u)
    ensures t == u
  {
    WellFormedAnywhere(t);
    WellFormedAnywhere(u);
    Unique(value, offset, t, u);
  }

  /** The first character of a type and its shape. */
  lemma MatchesShape(value: string, offset: nat, depth: nat, t: Type)
    requires Matches(value, offset, depth, t)
    ensures depth <= MAX_DEPTH && offset < |value| && |Print(t)| > 0
    ensures value[offset] == match t case Scalar(b) => Letter(b) case Array(_) => 'a' case _ => '('
    ensures t.Scalar? || t.Array? || t.Struct?
    ensures value[offset] != ')'
  {
    WellFormedAnywhere(t);
    AtPrint(value, offset, t);
    NotBracket(value, offset, t);
  }

  lemma MatchesScalar(value: string, offset: nat, depth: nat, b: Basic)
    requires offset < |value| && FromLetter(value[offset]) == Some(b) && depth <= MAX_DEPTH
    ensures Matches(value, offset, depth, Scalar(b)) && |Print(Scalar(b))| == 1
  {
    LettersInverse(value[offset], b);
    AtChar(value, offset, Letter(b));
  }

  lemma MatchesArray(value: string, offset: nat, depth: nat, e: Type)
    requires offset < |value| && value[offset] == 'a' && !At(value, offset + 1, "{")
    ensures Matches(value, offset, depth, Array(e)) <==> Matches(value, offset + 1, depth + 1, e)
    ensures |Print(Array(e))| == 1 + |Print(e)|
  {
    AtSplit(value, offset, "a", Print(e));
    AtChar(value, offset, 'a');
    AtChar(value, offset + 1, '{');
    if WellFormed(e, true) && At(value, offset + 1, Print(e)) { AtPrint(value, offset + 1, e); }
  }

  lemma MatchesDict(value: string, offset: nat, depth: nat, k: Basic, v: Type)
    requires offset + 2 < |value| && value[offset] == 'a' && value[offset + 1] == '{' && value[offset + 2] == Letter(k)
    ensures Matches(value, offset, depth, Array(DictEntry(Some(k), v)))
            <==> k != Variant && Matches(value, offset + 3, depth + 1, v) && At(value, offset + 3 + |Print(v)|, "}")
    ensures |Print(Array(DictEntry(Some(k), v)))| == 4 + |Print(v)|
  {
    var entry := DictEntry(Some(k), v);
    assert WellFormed(Array(entry), false) == WellFormed(entry, true) == (k != Variant && WellFormed(v, false));
    assert ParseDepth(Array(entry)) == 1 + ParseDepth(entry) == 1 + ParseDepth(v);
    DictText(value, offset, k, v);
    hide At, Print, WellFormed, ParseDepth;
  }

  lemma DictText(value: string, offset: nat, k: Basic, v: Type)
    requires offset + 2 < |value| && value[offset] == 'a' && value[offset + 1] == '{' && value[offset + 2] == Letter(k)
    ensures At(value, offset, Print(Array(DictEntry(Some(k), v))))
            <==> At(value, offset + 3, Print(v)) && At(value, offset + 3 + |Print(v)|, "}")
    ensures |Print(Array(DictEntry(Some(k), v)))| == 4 + |Print(v)|
  {
    var entry := DictEntry(Some(k), v);
    var key, text := [Letter(k)], Print(v);
    assert Print(entry) == "{" + key + text + "}" && Print(Array(entry)) == "a" + Print(entry);
    hide At, Print;
    AtSplit(value, offset, "a", Print(entry));
    AtSplit(value, offset + 1, "{" + key + text, "}");
    AtSplit(value, offset + 1, "{" + key, text);
    AtSplit(value, offset + 1, "{", key);
    AtChar(value, offset, 'a');
    AtChar(value, offset + 1, '{');
    AtChar(value, offset + 2, Letter(k));
  }

  /** An array whose element begins with a brace is an array of dict entries. */
  lemma DictOnly(value: string, offset: nat, depth: nat, t: Type)
    requires Matches(value, offset, depth, t) && value[offset] == 'a' && At(value, offset + 1, "{")
    ensures t.Array? && t.element.DictEntry? && t.element.key.Some? && t.element.key.value != Variant
    ensures offset + 2 < |value| && value[offset + 1] == '{' && value[offset + 2] == Letter(t.element.key.value)
  {
    MatchesShape(value, offset, depth, t);
    LetterShapes(t, t, 'a');
    AtPrint(value, offset, t);
    AtChar(value, offset + 1, '{');
    LetterShapes(t.element, t.element, '{');
    AtPrint(value, offset + 1, t.element);
    AtChar(value, offset + 2, Letter(t.element.key.value));
  }

  lemma MatchesStruct(value: string, offset: nat, depth: nat, fs: seq<Type>)
    requires offset < |value| && value[offset] == '('
    ensures Matches(value, offset, depth, Struct(fs))
            <==> fs != [] && MatchesAll(value, offset + 1, depth + 1, fs) && At(value, offset + 1 + |PrintAll(fs)|, ")")
    ensures |Print(Struct(fs))| == 2 + |PrintAll(fs)|
  {
    AtSplit(value, offset, "(" + PrintAll(fs), ")");
    AtSplit(value, offset, "(", PrintAll(fs));
    AtChar(value, offset, '(');
  }

  /** `fs` is read one after the other from `offset` on. */
  ghost predicate MatchesAll(value: string, offset: nat, depth: nat, fs: seq<Type>) {
    (forall f <- fs :: WellFormed(f, false)) && (fs == [] || depth + ParseDepths(fs) <= MAX_DEPTH)
    && At(value, offset, PrintAll(fs))
  }

  lemma MatchesMore(value: string, offset: nat, depth: nat, fs: seq<Type>, f: Type)
    requires MatchesAll(value, offset, depth, fs) && Matches(value, offset + |PrintAll(fs)|, depth, f)
    ensures MatchesAll(value, offset, depth, fs + [f]) && |PrintAll(fs + [f])| == |PrintAll(fs)| + |Print(f)|
  {
    PrintAllSplit(fs, [f]);
    PrintOne(f);
    AtSplit(value, offset, PrintAll(fs), Print(f));
    DepthsMore(fs, f);
  }

  lemma PrintOne(f: Type)
    ensures PrintAll([f]) == Print(f)
  {
    hide Print;
    assert [f][1..] == [];
  }

  lemma {:induction false} DepthsMore(fs: seq<Type>, f: Type)
    ensures ParseDepths(fs + [f]) == Max(ParseDepths(fs), ParseDepth(f))
  {
    hide ParseDepth;
    if fs == [] {
      assert [f][1..] == [];
      assert fs + [f] == [f];
    } else {
      DepthsMore(fs[1..], f);
      assert (fs + [f])[1..] == fs[1..] + [f];
    }
  }

  lemma {:induction false} DepthsBound(fs: seq<Type>, i: nat)
    requires i < |fs|
    ensures ParseDepth(fs[i]) <= ParseDepths(fs)
  {
    hide ParseDepth;
    if i == 0 {
    } else {
      DepthsBound(fs[1..], i - 1);
    }
  }

  /** Where nothing more can be read and the list so far does not end the structure, no list does. */
  lemma NoStruct(value: string, offset: nat, depth: nat, fs: seq<Type>, gs: seq<Type>)
    requires MatchesAll(value, offset, depth, fs)
    requires NothingAt(value, offset + |PrintAll(fs)|, depth)
    requires fs == [] || !At(value, offset + |PrintAll(fs)|, ")")
    requires gs != [] && MatchesAll(value, offset, depth, gs)
    ensures !At(value, offset + |PrintAll(gs)|, ")")
  {
    hide At, Print, PrintAll, WellFormed, ParseDepth, ParseDepths;
    UniqueAll(value, offset, fs, gs);
    if |fs| < |gs| {
      Continues(value, offset, fs, gs);
      DepthsBound(gs, |fs|);
      Absent(value, offset + |PrintAll(fs)|, depth, gs[|fs|]);
    } else if |gs| < |fs| {
      NotClosing(value, offset, gs, fs);
    } else {
      assert fs == gs;
    }
  }

  /** parseType; its last parameter never changes the result. */
  method ParseType(value: string, offset: nat, depth: nat) returns (r: Option<(Type, nat)>)
    ensures r.Some? ==> Matches(value, offset, depth, r.value.0) && r.value.1 == offset + |Print(r.value.0)|
    ensures r.None? ==> NothingAt(value, offset, depth)
    decreases |value| - offset
  {
    hide At, Print, PrintAll, WellFormed, ParseDepth, Matches, MatchesAll;
    if depth > MAX_DEPTH || offset >= |value| {
      forall t | Matches(value, offset, depth, t) ensures false { MatchesShape(value, offset, depth, t); }
      return None;
    }
    var token := value[offset];
    if FromLetter(token).Some? {
      MatchesScalar(value, offset, depth, FromLetter(token).value);
      return Some((Scalar(FromLetter(token).value), offset + 1));
    }
    if token == 'a' {
      AtChar(value, offset + 1, '{');
      if offset + 1 < |value| && value[offset + 1] == '{' {
        var key := if offset + 2 < |value| then FromLetter(value[offset + 2]) else None;
        if key.None? || key.value == Variant {
          forall t | Matches(value, offset, depth, t) ensures false {
            DictOnly(value, offset, depth, t);
            LettersInverse(value[offset + 2], t.element.key.value);
          }
          return None;
        }
        var nested := ParseType(value, offset + 3, depth + 1);
        LettersInverse(value[offset + 2], key.value);
        if nested.None? || nested.value.1 >= |value| || value[nested.value.1] != '}' {
          forall t | Matches(value, offset, depth, t) ensures false {
            NoDict(value, offset, depth, t, nested);
          }
          return None;
        }
        var v := nested.value.0;
        AtChar(value, nested.value.1, '}');
        MatchesDict(value, offset, depth, key.value, v);
        return Some((Array(DictEntry(key, v)), nested.value.1 + 1));
      }
      var element := ParseType(value, offset + 1, depth + 1);
      if element.None? {
        forall t | Matches(value, offset, depth, t) ensures false {
          MatchesShape(value, offset, depth, t);
          LetterShapes(t, t, 'a');
          MatchesArray(value, offset, depth, t.element);
        }
        return None;
      }
      MatchesArray(value, offset, depth, element.value.0);
      return Some((Array(element.value.0), element.value.1));
    }
    if token == '(' {
      var fields: seq<Type> := [];
      var cursor := offset + 1;
      NothingRead(value, cursor, depth + 1);
      while cursor < |value| && value[cursor] != ')'
        invariant cursor == offset + 1 + |PrintAll(fields)|
        invariant MatchesAll(value, offset + 1, depth + 1, fields)
        decreases |value| - cursor
      {
        var field := ParseType(value, cursor, depth + 1);
        if field.None? {
          AtChar(value, cursor, ')');
          StructFails(value, offset, depth, fields);
          return None;
        }
        MatchesMore(value, offset + 1, depth + 1, fields, field.value.0);
        MatchesShape(value, cursor, depth + 1, field.value.0);
        fields := fields + [field.value.0];
        cursor := field.value.1;
      }
      AtChar(value, cursor, ')');
      MatchesStruct(value, offset, depth, fields);
      if fields != [] && cursor < |value| && value[cursor] == ')' {
        return Some((Struct(fields), cursor + 1));
      }
      StructFailsAtEnd(value, offset, depth, fields);
      return None;
    }
    forall t | Matches(value, offset, depth, t) ensures false { NoOther(value, offset, depth, t); }
    return None;
  }

  lemma NoOther(value: string, offset: nat, depth: nat, t: Type)
    requires Matches(value, offset, depth, t)
    ensures offset < |value| && (FromLetter(value[offset]).Some? || value[offset] == 'a' || value[offset] == '(')
  {
    hide At, Print, WellFormed, ParseDepth, Matches;
    MatchesShape(value, offset, depth, t);
    if t.Scalar? { LettersInverse(value[offset], t.basic); }
  }

  /** An array of dict entries is read only by reading its value type and a closing brace. */
  lemma NoDict(value: string, offset: nat, depth: nat, t: Type, nested: Option<(Type, nat)>)
    requires Matches(value, offset, depth, t) && value[offset] == 'a' && At(value, offset + 1, "{")
    requires nested.Some? ==> Matches(value, offset + 3, depth + 1, nested.value.0)
                              && nested.value.1 == offset + 3 + |Print(nested.value.0)|
    requires nested.None? ==> NothingAt(value, offset + 3, depth + 1)
    ensures nested.Some? && nested.value.1 < |value| && value[nested.value.1] == '}'
  {
    hide At, Print, WellFormed, ParseDepth, Matches;
    DictOnly(value, offset, depth, t);
    var v := t.element.value;
    MatchesDict(value, offset, depth, t.element.key.value, v);
    if nested.Some? { MatchesOnce(value, offset + 3, depth + 1, v, nested.value.0); }
    AtChar(value, offset + 3 + |Print(v)|, '}');
  }

  lemma NothingRead(value: string, offset: nat, depth: nat)
    requires offset <= |value|
    ensures MatchesAll(value, offset, depth, []) && |PrintAll([])| == 0
  {
  }

  lemma StructFails(value: string, offset: nat, depth: nat, fs: seq<Type>)
    requires offset < |value| && value[offset] == '('
    requires MatchesAll(value, offset + 1, depth + 1, fs)
    requires NothingAt(value, offset + 1 + |PrintAll(fs)|, depth + 1)
    requires fs == [] || !At(value, offset + 1 + |PrintAll(fs)|, ")")
    ensures NothingAt(value, offset, depth)
  {
    hide At, Print, PrintAll, WellFormed, ParseDepth, Matches, MatchesAll;
    forall t | Matches(value, offset, depth, t) ensures false {
      MatchesShape(value, offset, depth, t);
      LetterShapes(t, t, '(');
      MatchesStruct(value, offset, depth, t.fields);
      NoStruct(value, offset + 1, depth + 1, fs, t.fields);
    }
  }

  lemma StructFailsAtEnd(value: string, offset: nat, depth: nat, fs: seq<Type>)
    requires offset < |value| && value[offset] == '('
    requires MatchesAll(value, offset + 1, depth + 1, fs)
    requires var end := offset + 1 + |PrintAll(fs)|;
      end >= |value| || (value[end] == ')' && fs == [])
    ensures NothingAt(value, offset, depth)
  {
    hide At, Print, PrintAll, WellFormed, ParseDepth, Matches, MatchesAll;
    var end := offset + 1 + |PrintAll(fs)|;
    var inner := depth + 1;
    forall t | Matches(value, end, inner, t) ensures false { MatchesShape(value, end, inner, t); }
    AtChar(value, end, ')');
    StructFails(value, offset, depth, fs);
  }

  /** parseSignatureType: the offset after the type, or -1. */
  method ParseSignatureType(value: string, offset: nat, depth: nat) returns (end: int)
    ensures end >= 0 ==> exists t :: Matches(value, offset, depth, t) && end == offset + |Print(t)|
    ensures end < 0 ==> end == -1 && NothingAt(value, offset, depth)
    decreases |value| - offset
  {
    hide At, Print, PrintAll, WellFormed, ParseDepth, Matches, MatchesAll;
    if depth > MAX_DEPTH || offset >= |value| {
      forall t | Matches(value, offset, depth, t) ensures false { MatchesShape(value, offset, depth, t); }
      return -1;
    }
    var first := value[offset];
    if first in BASIC_LETTERS {
      LettersInverse(first, Byte);
      MatchesScalar(value, offset, depth, FromLetter(first).value);
      return offset + 1;
    }
    LettersInverse(first, Byte);
    if first == 'a' {
      AtChar(value, offset + 1, '{');
      if offset + 1 < |value| && value[offset + 1] == '{' {
        if offset + 2 >= |value| || value[offset + 2] !in BASIC_LETTERS || value[offset + 2] == 'v' {
          forall t | Matches(value, offset, depth, t) ensures false {
            DictOnly(value, offset, depth, t);
            KeyLetter(t.element.key.value);
          }
          return -1;
        }
        LettersInverse(value[offset + 2], Variant);
        var key := FromLetter(value[offset + 2]).value;
        LettersInverse(value[offset + 2], key);
        var afterValue := ParseSignatureType(value, offset + 3, depth + 1);
        ghost var nested: Option<(Type, nat)> := None;
        if afterValue >= 0 {
          ghost var v :| Matches(value, offset + 3, depth + 1, v) && afterValue == offset + 3 + |Print(v)|;
          nested := Some((v, afterValue));
          AtChar(value, afterValue, '}');
          MatchesDict(value, offset, depth, key, v);
        }
        if afterValue >= 0 && afterValue < |value| && value[afterValue] == '}' {
          assert Matches(value, offset, depth, Array(DictEntry(Some(key), nested.value.0)));
          return afterValue + 1;
        }
        forall t | Matches(value, offset, depth, t) ensures false {
          NoDict(value, offset, depth, t, nested);
        }
        return -1;
      }
      end := ParseSignatureType(value, offset + 1, depth + 1);
      if end < 0 {
        forall t | Matches(value, offset, depth, t) ensures false {
          MatchesShape(value, offset, depth, t);
          LetterShapes(t, t, 'a');
          MatchesArray(value, offset, depth, t.element);
        }
      } else {
        ghost var e :| Matches(value, offset + 1, depth + 1, e) && end == offset + 1 + |Print(e)|;
        MatchesArray(value, offset, depth, e);
        assert Matches(value, offset, depth, Array(e));
      }
      return;
    }
    if first == '(' {
      ghost var fields: seq<Type> := [];
      var cursor := offset + 1;
      var start := cursor;
      NothingRead(value, cursor, depth + 1);
      while cursor < |value| && value[cursor] != ')'
        invariant cursor == offset + 1 + |PrintAll(fields)|
        invariant fields == [] <==> cursor == start
        invariant MatchesAll(value, offset + 1, depth + 1, fields)
        decreases |value| - cursor
      {
        var next := ParseSignatureType(value, cursor, depth + 1);
        if next < 0 {
          AtChar(value, cursor, ')');
          StructFails(value, offset, depth, fields);
          return -1;
        }
        ghost var field :| Matches(value, cursor, depth + 1, field) && next == cursor + |Print(field)|;
        MatchesMore(value, offset + 1, depth + 1, fields, field);
        MatchesShape(value, cursor, depth + 1, field);
        fields := fields + [field];
        cursor := next;
      }
      AtChar(value, cursor, ')');
      MatchesStruct(value, offset, depth, fields);
      if cursor > start && cursor < |value| && value[cursor] == ')' {
        assert Matches(value, offset, depth, Struct(fields));
        return cursor + 1;
      }
      StructFailsAtEnd(value, offset, depth, fields);
      return -1;
    }
    forall t | Matches(value, offset, depth, t) ensures false { NoOther(value, offset, depth, t); }
    return -1;
  }

  /** For every text, offset and depth the two parsers accept alike and stop at one place. */
  method ParsersAgree(value: string, offset: nat, depth: nat) returns (parsed: Option<(Type, nat)>, end: int)
    ensures parsed.Some? <==> end >= 0
    ensures parsed.Some? ==> parsed.value.1 == end && offset < end <= |value|
  {
    hide Print, WellFormed, ParseDepth;
    parsed := ParseType(value, offset, depth);
    end := ParseSignatureType(value, offset, depth);
    if parsed.Some? {
      var t := parsed.value.0;
      assert Matches(value, offset, depth, t);
      MatchesShape(value, offset, depth, t);
      if end >= 0 {
        ghost var u :| Matches(value, offset, depth, u) && end == offset + |Print(u)|;
        MatchesOnce(value, offset, depth, t, u);
      }
    }
  }

  /** The signatures of the grammar: types one after the other, none nested too deeply. */
  ghost predicate IsSignature(value: string, ts: seq<Type>) {
    (forall t <- ts :: WellFormed(t, false)) && ParseDepths(ts) <= MAX_DEPTH && value == PrintAll(ts)
  }

  /** validSignature. */
  method ValidSignature(value: string) returns (valid: bool)
    ensures valid <==> |value| <= MAX_LENGTH && exists ts :: IsSignature(value, ts)
  {
    hide At, Print, PrintAll, WellFormed, ParseDepth, Matches, MatchesAll, IsSignature;
    if |value| > MAX_LENGTH { return false; }
    var offset := 0;
    ghost var ts: seq<Type> := [];
    NothingRead(value, 0, 0);
    while offset < |value|
      invariant offset == |PrintAll(ts)| && MatchesAll(value, 0, 0, ts)
      decreases |value| - offset
    {
      var next := ParseSignatureType(value, offset, 0);
      if next < 0 {
        forall us | IsSignature(value, us) ensures false { NoSignature(value, ts, us); }
        return false;
      }
      ghost var t :| Matches(value, offset, 0, t) && next == offset + |Print(t)|;
      MatchesMore(value, 0, 0, ts, t);
      MatchesShape(value, offset, 0, t);
      ts := ts + [t];
      offset := next;
    }
    AllRead(value, ts);
    return true;
  }

  lemma AllRead(value: string, ts: seq<Type>)
    requires MatchesAll(value, 0, 0, ts) && |PrintAll(ts)| >= |value|
    ensures IsSignature(value, ts)
  {
    hide Print, PrintAll, WellFormed, ParseDepth;
    assert value[0..|value|] == value;
    if ts == [] { assert ParseDepths(ts) == 0; }
  }

  lemma NoSignature(value: string, ts: seq<Type>, us: seq<Type>)
    requires MatchesAll(value, 0, 0, ts) && |PrintAll(ts)| < |value|
    requires NothingAt(value, |PrintAll(ts)|, 0)
    ensures !IsSignature(value, us)
  {
    hide At, Print, PrintAll, WellFormed, ParseDepth, ParseDepths;
    if IsSignature(value, us) {
      WholeText(value);
      UniqueAll(value, 0, ts, us);
      if |us| <= |ts| {
        Longer(value, us, ts);
      } else {
        Continues(value, 0, ts, us);
        DepthsBound(us, |ts|);
        Absent(value, |PrintAll(ts)|, 0, us[|ts|]);
      }
    }
  }

  lemma Longer(value: string, ts: seq<Type>, us: seq<Type>)
    requires ts <= us
    ensures |PrintAll(ts)| <= |PrintAll(us)|
  {
    hide Print;
    assert us == ts + us[|ts|..];
    PrintAllSplit(ts, us[|ts|..]);
  }

  /** What typeFromSignature promises: the whole text is one type. */
  ghost predicate Denotes(value: string, t: Type) {
    |value| <= MAX_LENGTH && WellFormed(t, false) && ParseDepth(t) <= MAX_DEPTH && value == Print(t)
  }

  /** typeFromSignature. */
  method TypeFromSignature(value: string) returns (r: Option<Type>)
    ensures forall t :: Denotes(value, t) <==> r == Some(t)
  {
    hide Print, WellFormed, ParseDepth;
    if value == "" || |value| > MAX_LENGTH {
      forall t | Denotes(value, t) ensures false { DenotesMatches(value, t); MatchesShape(value, 0, 0, t); }
      return None;
    }
    var parsed := ParseType(value, 0, 0);
    if parsed.None? {
      forall t | Denotes(value, t) ensures false { DenotesMatches(value, t); }
      return None;
    }
    var t := parsed.value.0;
    forall u | Denotes(value, u) ensures u == t { DenotesMatches(value, u); MatchesOnce(value, 0, 0, t, u); }
    if parsed.value.1 == |value| {
      assert value[0..|value|] == value;
      return Some(t);
    }
    return None;
  }

  lemma DenotesMatches(value: string, t: Type)
    requires Denotes(value, t)
    ensures Matches(value, 0, 0, t)
  {
    WholeText(value);
  }

  // ---------------------------------------------------------------- normaliser and printer

  /** normalizeType: the value rebuilt field by field. */
  function Normalize(t: Type, depth: nat, allowDictEntry: bool): (r: Option<Type>)
    ensures r == if WellFormed(t, allowDictEntry) && depth + FullDepth(t) <= MAX_DEPTH then Some(t) else None
    decreases t
  {
    if depth > MAX_DEPTH then None else
    match t
    case Scalar(b) => Some(Scalar(b))
    case Array(e) =>
      var element := Normalize(e, depth + 1, true);
      if element.None? then None else Some(Array(element.value))
    case DictEntry(k, v) =>
      if !allowDictEntry then None else
      var nested := Normalize(v, depth + 1, false);
      if k.Some? && k.value != Variant && nested.Some? then Some(DictEntry(k, nested.value)) else None
    case Struct(fs) =>
      if fs == [] then None else
      var fields := NormalizeAll(fs, depth + 1);
      if fields.None? then None else Some(Struct(fields.value))
    case Malformed => None
  }

  function NormalizeAll(ts: seq<Type>, depth: nat): (r: Option<seq<Type>>)
    ensures r == if (forall t <- ts :: WellFormed(t, false)) && (ts == [] || depth + FullDepths(ts) <= MAX_DEPTH)
              then Some(ts) else None
    decreases ts
  {
    if ts == [] then Some([]) else
    var first := Normalize(ts[0], depth, false);
    var rest := NormalizeAll(ts[1..], depth);
    assert ts == [ts[0]] + ts[1..];
    assert ts[0] in ts && forall t | t in ts[1..] :: t in ts;
    if first.None? || rest.None? then None else Some([first.value] + rest.value)
  }

  /** signatureFromType: every level is normalised again, as if it were the top one. */
  function SignatureFromType(t: Type): (r: Option<string>)
    ensures r == if WellFormed(t, true) && FullDepth(t) <= MAX_DEPTH then Some(Print(t)) else None
    decreases t
  {
    var normalized := Normalize(t, 0, true);
    if normalized.None? then None else
    match normalized.value
    case Scalar(b) => Some([Letter(b)])
    case Array(e) =>
      var element := SignatureFromType(e);
      if element.None? || element.value == "" then None else Some("a" + element.value)
    case DictEntry(k, v) =>
      var value := SignatureFromType(v);
      if k.Some? && value.Some? && value.value != "" then Some("{" + [Letter(k.value)] + value.value + "}") else None
    case Struct(fs) =>
      var fields := SignaturesFromTypes(fs);
      if fields.None? then None else Some("(" + fields.value + ")")
    case Malformed => None
  }

  /** The signatures of the fields joined, if every field has one. */
  function SignaturesFromTypes(ts: seq<Type>): (r: Option<string>)
    ensures r == if (forall t <- ts :: WellFormed(t, true)) && FullDepths(ts) <= MAX_DEPTH then Some(PrintAll(ts))
              else None
    decreases ts
  {
    if ts == [] then Some("") else
    var first := SignatureFromType(ts[0]);
    var rest := SignaturesFromTypes(ts[1..]);
    assert ts == [ts[0]] + ts[1..];
    assert ts[0] in ts && forall t | t in ts[1..] :: t in ts;
    if first.None? || first.value == "" || rest.None? then None else Some(first.value + rest.value)
  }

  // ---------------------------------------------------------------- round trips

  /** For every parsed signature the printer gives the signature back, or nothing exactly when
      counting the dict entries makes the nesting too deep. */
  lemma PrintParsed(s: string, t: Type)
    requires Denotes(s, t)
    ensures SignatureFromType(t) == if FullDepth(t) <= MAX_DEPTH then Some(s) else None
    ensures ParseDepth(t) <= FullDepth(t) <= 2 * ParseDepth(t)
    ensures ParseDepth(t) <= MAX_DEPTH / 2 ==> SignatureFromType(t) == Some(s)
  {
    WellFormedAnywhere(t);
    DepthsCompare(t, false);
  }

  /** For every normalised type other than a dict entry, reading its printed signature gives it
      back, if the signature is short enough to be read at all. */
  lemma ParsePrinted(t: Type, s: string)
    requires SignatureFromType(t) == Some(s)
    ensures Denotes(s, t) <==> !t.DictEntry? && |s| <= MAX_LENGTH
    ensures t.DictEntry? ==> forall u :: !Denotes(s, u)
  {
    hide Print, FullDepth, ParseDepth;
    DepthsCompare(t, true);
    if t.DictEntry? {
      WholeText(s);
      AtPrint(s, 0, t);
      forall u | Denotes(s, u) ensures false {
        DenotesMatches(s, u);
        MatchesShape(s, 0, 0, u);
        LetterShapes(u, u, '{');
      }
    }
  }

  /** A dict entry costs one more level than the parsers count, and each stands in an array. */
  lemma {:induction false} DepthsCompare(t: Type, allowDictEntry: bool)
    requires WellFormed(t, allowDictEntry)
    ensures ParseDepth(t) <= FullDepth(t) <= 2 * ParseDepth(t) + (if t.DictEntry? then 1 else 0)
    decreases t
  {
    match t
    case Array(e) => DepthsCompare(e, true);
    case DictEntry(_, v) => DepthsCompare(v, false);
    case Struct(fs) => DepthsCompareAll(fs);
    case _ =>
  }

  lemma {:induction false} DepthsCompareAll(ts: seq<Type>)
    requires forall t <- ts :: WellFormed(t, false)
    ensures ParseDepths(ts) <= FullDepths(ts) <= 2 * ParseDepths(ts)
    decreases ts
  {
    if ts == [] {
    } else {
      DepthsCompare(ts[0], false);
      DepthsCompareAll(ts[1..]);
    }
  }

  /** Dictionaries nested in the values of dictionaries. */
  function Nest(n: nat): Type {
    if n == 0 then Scalar(Str) else Array(DictEntry(Some(Str), Nest(n - 1)))
  }

  /** Seventeen to thirty-two of them: a signature the parsers accept and the printer refuses. */
  lemma {:induction false} DepthGap(n: nat)
    ensures Denotes(Print(Nest(n)), Nest(n)) <==> n <= 32
    ensures SignatureFromType(Nest(n)) == None <==> n > 16
  {
    NestShape(n);
  }

  lemma {:induction false} NestShape(n: nat)
    ensures WellFormed(Nest(n), false) && WellFormed(Nest(n), true)
    ensures ParseDepth(Nest(n)) == n && FullDepth(Nest(n)) == 2 * n && |Print(Nest(n))| == 4 * n + 1
  {
    if n == 0 {
    } else {
      NestShape(n - 1);
    }
  }
}
