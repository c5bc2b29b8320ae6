/** Python's ordering of `str` values: lexicographic by code point, where a
    proper prefix comes before the longer string. Dafny's own `<` on
    sequences means "proper prefix", so the order is written out here. */
module PyStrings {

  /** `a < b` on Python strings. */
  predicate LexLess(a: string, b: string)
  {
    if |a| == 0 then |b| > 0
    else if |b| == 0 then false
    else if a[0] != b[0] then a[0] < b[0]
    else LexLess(a[1..], b[1..])
  }

  /** No string comes before itself. */
  lemma {:induction false} LexLessIrreflexive(a: string)
    ensures !LexLess(a, a)
  {
    if |a| > 0 {
      LexLessIrreflexive(a[1..]);
    }
  }

  /** At most one of `a < b` and `b < a` holds. */
  lemma {:induction false} LexLessAsymmetric(a: string, b: string)
    ensures !(LexLess(a, b) && LexLess(b, a))
  {
    if |a| > 0 && |b| > 0 && a[0] == b[0] {
      LexLessAsymmetric(a[1..], b[1..]);
    }
  }

  lemma {:induction false} LexLessTransitive(a: string, b: string, c: string)
    requires LexLess(a, b) && LexLess(b, c)
    ensures LexLess(a, c)
  {
    if |a| > 0 && |b| > 0 && |c| > 0 && a[0] == b[0] && b[0] == c[0] {
      LexLessTransitive(a[1..], b[1..], c[1..]);
    }
  }

  /** Any two different strings are ordered one way or the other. */
  lemma {:induction false} LexLessConnected(a: string, b: string)
    ensures a == b || LexLess(a, b) || LexLess(b, a)
  {
    if |a| > 0 && |b| > 0 && a[0] == b[0] {
      LexLessConnected(a[1..], b[1..]);
      if a[1..] == b[1..] {
        assert a == [a[0]] + a[1..] && b == [b[0]] + b[1..];
      }
    }
  }

  /** The textbook definition of lexicographic order, independent of the
      recursion in LexLess: `a` is a proper prefix of `b`, or the two agree
      up to some position where `a` has the smaller character. */
  ghost predicate LexBefore(a: string, b: string)
  {
    a < b || exists k :: 0 <= k < |a| && k < |b| && a[..k] == b[..k] && a[k] < b[k]
  }

  lemma {:induction false} LexLessIsLexBefore(a: string, b: string)
    ensures LexLess(a, b) <==> LexBefore(a, b)
  {
    if LexLess(a, b) {
      LexLessSound(a, b);
    }
    if LexBefore(a, b) {
      if a < b {
        ProperPrefixIsLexLess(a, b);
      } else {
        var k :| 0 <= k < |a| && k < |b| && a[..k] == b[..k] && a[k] < b[k];
        FirstDifferenceIsLexLess(a, b, k);
      }
    }
  }

  lemma {:induction false} LexLessSound(a: string, b: string)
    requires LexLess(a, b)
    ensures LexBefore(a, b)
  {
    if |a| == 0 {
      assert a < b;
    } else if a[0] != b[0] {
      assert a[..0] == b[..0];
    } else {
      LexLessSound(a[1..], b[1..]);
      if a[1..] < b[1..] {
        assert a == [a[0]] + a[1..] && b == [b[0]] + b[1..];
        assert a < b;
      } else {
        var k :| 0 <= k < |a[1..]| && k < |b[1..]| && a[1..][..k] == b[1..][..k] && a[1..][k] < b[1..][k];
        assert a[..k + 1] == [a[0]] + a[1..][..k];
        assert b[..k + 1] == [b[0]] + b[1..][..k];
        assert a[k + 1] < b[k + 1];
      }
    }
  }

  lemma {:induction false} ProperPrefixIsLexLess(a: string, b: string)
    requires a < b
    ensures LexLess(a, b)
  {
    if |a| > 0 {
      assert a[0] == b[0];
      assert a[1..] < b[1..];
      ProperPrefixIsLexLess(a[1..], b[1..]);
    }
  }

  lemma {:induction false} FirstDifferenceIsLexLess(a: string, b: string, k: nat)
    requires k < |a| && k < |b| && a[..k] == b[..k] && a[k] < b[k]
    ensures LexLess(a, b)
  {
    if k > 0 {
      assert a[0] == a[..k][0] == b[..k][0] == b[0];
      assert a[1..][..k - 1] == a[..k][1..] == b[..k][1..] == b[1..][..k - 1];
      FirstDifferenceIsLexLess(a[1..], b[1..], k - 1);
    }
  }
}
