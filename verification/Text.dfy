/** Strings ordered by their code units, as the `<` of JavaScript and a binary column order them. */
module Text {
  /** Less: `a` ends where `b` goes on, or has the smaller character where they first differ. */
  predicate Less(a: string, b: string) {
    b != "" && (a == "" || a[0] < b[0] || (a[0] == b[0] && Less(a[1..], b[1..])))
  }

  lemma {:induction false} LessTotal(a: string, b: string)
    ensures Less(a, b) || a == b || Less(b, a)
    ensures !(Less(a, b) && Less(b, a))
    decreases |a| + |b|
  {
    if a == "" || b == "" {
    } else {
      LessTotal(a[1..], b[1..]);
      if a[0] == b[0] && a[1..] == b[1..] {
        assert a == [a[0]] + a[1..];
      }
    }
  }

  lemma {:induction false} LessTransitive(a: string, b: string, c: string)
    requires Less(a, b) && Less(b, c)
    ensures Less(a, c)
  {
    if a != "" && a[0] == b[0] == c[0] { LessTransitive(a[1..], b[1..], c[1..]); }
  }

  /** The two strings agree up to some place, and there `a` ends or has the smaller character. */
  ghost predicate FirstDiffers(a: string, b: string, n: nat) {
    n <= |a| && n < |b| && (forall i :: 0 <= i < n ==> a[i] == b[i]) && (n == |a| || a[n] < b[n])
  }

  lemma {:induction false} LessMeans(a: string, b: string)
    ensures Less(a, b) <==> exists n :: FirstDiffers(a, b, n)
  {
    if b == "" {
    } else if a == "" || a[0] != b[0] {
      if Less(a, b) { assert FirstDiffers(a, b, 0); }
    } else {
      LessMeans(a[1..], b[1..]);
      if Less(a, b) {
        var n: nat :| FirstDiffers(a[1..], b[1..], n);
        assert forall i :: 0 < i < n + 1 ==> a[i] == a[1..][i - 1] && b[i] == b[1..][i - 1];
        assert FirstDiffers(a, b, n + 1);
      }
      if n: nat :| FirstDiffers(a, b, n) {
        assert forall i :: 0 <= i < n - 1 ==> a[1..][i] == a[i + 1] && b[1..][i] == b[i + 1];
        assert FirstDiffers(a[1..], b[1..], n - 1);
      }
    }
  }
}
