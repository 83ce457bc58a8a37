/** Semantic versions: the comparison of cgi-bin/src/profiles/version.js against the precedence
    of Semantic Versioning 2.0.0, section 11.

    A version is given by its fields. The three numbers are naturals; identifiers are texts, so
    that a numeric identifier is a run of digits without a leading zero. */
module SemVer {
  import opened Text

  datatype Version = Version(major: nat, minor: nat, patch: nat, prerelease: seq<string>, build: seq<string>)

  predicate Digit(c: char) { '0' <= c <= '9' }

  predicate Letter(c: char) { 'a' <= c <= 'z' || 'A' <= c <= 'Z' || c == '-' }

  predicate Numeric(id: string) { id != "" && Digits(id) }

  /** What parseSemVer lets through. */
  predicate Identifier(id: string) {
    id != "" && (forall c <- id :: Digit(c) || Letter(c)) && (Numeric(id) && |id| > 1 ==> id[0] != '0')
  }

  predicate Valid(v: Version) { forall id <- v.prerelease :: Identifier(id) }

  predicate Digits(id: string) { forall k :: 0 <= k < |id| ==> Digit(id[k]) }

  function DigitValue(c: char): (r: nat)
    requires Digit(c)
    ensures r < 10
  {
    c as int - '0' as int
  }

  function Number(id: string): nat
    requires Digits(id)
  {
    if id == "" then 0 else 10 * Number(id[..|id| - 1]) + DigitValue(id[|id| - 1])
  }

  // ---------------------------------------------------------------- precedence, section 11

  /** Section 11.4.1 to 11.4.3. */
  predicate IdentifierLower(x: string, y: string) {
    if Numeric(x) && Numeric(y) then Number(x) < Number(y)
    else if Numeric(x) || Numeric(y) then Numeric(x)
    else Less(x, y)
  }

  /** Section 11.4: where the fields first differ, or section 11.4.4 if one list ends first. */
  predicate FirstDifference(p: seq<string>, q: seq<string>, i: nat) {
    i <= |p| && i < |q| && p[..i] == q[..i] && (i < |p| ==> IdentifierLower(p[i], q[i]))
  }

  /** Section 11.3 for a version without a prerelease, and 11.4. */
  ghost predicate PrereleaseLower(p: seq<string>, q: seq<string>) {
    p != [] && (q == [] || exists i :: FirstDifference(p, q, i))
  }

  /** Section 11.2: the numbers from left to right, then the prerelease. */
  ghost predicate Lower(a: Version, b: Version) {
    a.major < b.major
    || (a.major == b.major && a.minor < b.minor)
    || (a.major == b.major && a.minor == b.minor && a.patch < b.patch)
    || (a.major == b.major && a.minor == b.minor && a.patch == b.patch && PrereleaseLower(a.prerelease, b.prerelease))
  }

  /** Section 10: build metadata does not count. */
  predicate SameUpToBuild(a: Version, b: Version) { a.(build := b.build) == b }

  // ---------------------------------------------------------------- identifiers

  lemma {:induction false} NumberLength(x: string, y: string)
    requires Numeric(x) && Numeric(y) && x[0] != '0' && |x| > |y|
    ensures Number(x) > Number(y)
    decreases |x|
  {
    var front := x[..|x| - 1];
    assert x == front + [x[|x| - 1]];
    if |y| == 1 {
      NumberPositive(front);
    } else {
      assert y == y[..|y| - 1] + [y[|y| - 1]];
      NumberLength(front, y[..|y| - 1]);
    }
  }

  lemma {:induction false} NumberPositive(x: string)
    requires Numeric(x) && x[0] != '0'
    ensures Number(x) > 0
    decreases |x|
  {
    if |x| <= 1 {
    } else {
      NumberPositive(x[..|x| - 1]);
    }
  }

  lemma {:induction false} NumberInjective(x: string, y: string)
    requires Digits(x) && Digits(y)
    requires |x| == |y| && Number(x) == Number(y)
    ensures x == y
    decreases |x|
  {
    if x == "" {
    } else {
      NumberInjective(x[..|x| - 1], y[..|y| - 1]);
      assert x == x[..|x| - 1] + [x[|x| - 1]] && y == y[..|y| - 1] + [y[|y| - 1]];
    }
  }

  /** Identifiers are told apart, and in one way only. */
  lemma IdentifierTotal(x: string, y: string)
    requires Identifier(x) && Identifier(y)
    ensures x != y ==> IdentifierLower(x, y) || IdentifierLower(y, x)
    ensures !(IdentifierLower(x, y) && IdentifierLower(y, x)) && !IdentifierLower(x, x)
  {
    LessTotal(x, y);
    LessTotal(x, x);
    if Numeric(x) && Numeric(y) && Number(x) == Number(y) {
      if |x| > |y| { NumberLength(x, y); } else if |y| > |x| { NumberLength(y, x); } else { NumberInjective(x, y); }
    }
  }

  lemma IdentifierTransitive(x: string, y: string, z: string)
    requires IdentifierLower(x, y) && IdentifierLower(y, z)
    ensures IdentifierLower(x, z)
  {
    if !Numeric(x) && !Numeric(y) && !Numeric(z) { LessTransitive(x, y, z); }
  }

  // ---------------------------------------------------------------- versions

  /** Of two lists, one is lower where they first differ, or one begins with the other. */
  lemma {:induction false} Trichotomy(p: seq<string>, q: seq<string>, i: nat)
    requires (forall id <- p :: Identifier(id)) && (forall id <- q :: Identifier(id))
    requires i <= |p| && i <= |q| && p[..i] == q[..i]
    ensures p == q || (exists k :: FirstDifference(p, q, k)) || (exists k :: FirstDifference(q, p, k))
    decreases |p| - i
  {
    if i == |p| && i == |q| {
      assert p == p[..i] && q == q[..i];
    } else if i == |p| || i == |q| || p[i] != q[i] {
      if i < |p| && i < |q| { IdentifierTotal(p[i], q[i]); }
      assert FirstDifference(p, q, i) || FirstDifference(q, p, i);
    } else {
      assert p[..i + 1] == p[..i] + [p[i]] && q[..i + 1] == q[..i] + [q[i]];
      Trichotomy(p, q, i + 1);
    }
  }

  lemma FirstOnly(p: seq<string>, q: seq<string>, i: nat, k: nat)
    requires (forall id <- p :: Identifier(id)) && (forall id <- q :: Identifier(id))
    requires FirstDifference(p, q, i)
    ensures !FirstDifference(q, p, k)
  {
    if FirstDifference(q, p, k) {
      if i < k {
        assert p[i] == p[..k][i] == q[..k][i];
        IdentifierTotal(p[i], p[i]);
      } else if k < i {
        assert p[k] == p[..i][k] == q[..i][k];
        IdentifierTotal(p[k], p[k]);
      } else {
        IdentifierTotal(p[i], q[i]);
      }
    }
  }

  lemma DifferenceTransitive(p: seq<string>, q: seq<string>, r: seq<string>, i: nat, k: nat)
    requires FirstDifference(p, q, i) && FirstDifference(q, r, k)
    ensures FirstDifference(p, r, if i < k then i else k)
  {
    var m := if i < k then i else k;
    assert p[..m] == p[..i][..m] && q[..m] == q[..i][..m] && q[..m] == q[..k][..m] && r[..m] == r[..k][..m];
    if i < k {
      assert q[i] == q[..k][i] && r[i] == r[..k][i];
    } else if k < i {
      assert p[k] == p[..i][k] && q[k] == q[..i][k];
    } else if i < |p| {
      IdentifierTransitive(p[i], q[i], r[i]);
    }
  }

  /** Precedence is a strict order whose ties are exactly the versions equal up to build metadata. */
  lemma LowerTotal(a: Version, b: Version)
    requires Valid(a) && Valid(b)
    ensures (Lower(a, b) || Lower(b, a)) <==> !SameUpToBuild(a, b)
    ensures !(Lower(a, b) && Lower(b, a))
  {
    var p, q := a.prerelease, b.prerelease;
    Trichotomy(p, q, 0);
    if i :| FirstDifference(p, q, i) {
      forall k ensures !FirstDifference(q, p, k) { FirstOnly(p, q, i, k); }
    }
    if p == q {
      forall k ensures !FirstDifference(p, q, k) {
        if FirstDifference(p, q, k) { FirstOnly(p, q, k, k); }
      }
    }
  }

  lemma LowerTransitive(a: Version, b: Version, c: Version)
    requires Lower(a, b) && Lower(b, c)
    ensures Lower(a, c)
  {
    var p, q, r := a.prerelease, b.prerelease, c.prerelease;
    if i, k :| FirstDifference(p, q, i) && FirstDifference(q, r, k) {
      DifferenceTransitive(p, q, r, i, k);
    }
  }

  /** "At most" is a total preorder. */
  lemma AtMostTransitive(a: Version, b: Version, c: Version)
    requires Valid(a) && Valid(b) && Valid(c)
    requires !Lower(b, a) && !Lower(c, b)
    ensures !Lower(c, a)
    ensures SameUpToBuild(a, c) ==> SameUpToBuild(a, b)
  {
    LowerTotal(a, b);
    LowerTotal(b, c);
    LowerTotal(a, c);
    if Lower(a, b) && Lower(b, c) { LowerTransitive(a, b, c); }
  }

  // ---------------------------------------------------------------- the comparison

  function CompareIdentifier(left: string, right: string): (r: int)
    requires Identifier(left) && Identifier(right)
    ensures r < 0 <==> IdentifierLower(left, right)
    ensures r > 0 <==> IdentifierLower(right, left)
    ensures r == 0 <==> left == right
  {
    IdentifierTotal(left, right);
    LessTotal(left, right);
    if Numeric(left) && Numeric(right) then Number(left) - Number(right)
    else if Numeric(left) != Numeric(right) then if Numeric(left) then -1 else 1
    else if Less(left, right) then -1 else if Less(right, left) then 1 else 0
  }

  /** compareSemVer. */
  method CompareSemVer(a: Version, b: Version) returns (r: int)
    requires Valid(a) && Valid(b)
    ensures r < 0 <==> Lower(a, b)
    ensures r > 0 <==> Lower(b, a)
    ensures r == 0 <==> SameUpToBuild(a, b)
  {
    LowerTotal(a, b);
    if a.major != b.major { return a.major - b.major; }
    if a.minor != b.minor { return a.minor - b.minor; }
    if a.patch != b.patch { return a.patch - b.patch; }
    var p, q := a.prerelease, b.prerelease;
    if p == [] && q == [] { return 0; }
    if p == [] { return 1; }
    if q == [] { return -1; }
    for index := 0 to if |p| > |q| then |p| else |q|
      invariant index <= |p| && index <= |q| && p[..index] == q[..index]
    {
      if index == |p| {
        assert FirstDifference(p, q, index);
        return -1;
      }
      if index == |q| {
        assert FirstDifference(q, p, index);
        return 1;
      }
      var compared := CompareIdentifier(p[index], q[index]);
      if compared != 0 {
        assert FirstDifference(p, q, index) || FirstDifference(q, p, index);
        return compared;
      }
      assert p[..index + 1] == p[..index] + [p[index]] && q[..index + 1] == q[..index] + [q[index]];
    }
    assert p == p[..|p|] && q == q[..|q|];
    return 0;
  }
}
