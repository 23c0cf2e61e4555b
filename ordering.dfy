/**
 * JavaScript's `<` on two strings (character by character, a proper prefix
 * first) and the three-way `compareFn` every collection route builds from it.
 */
module Ordering {
  import opened Wrappers

  /** Lexicographic `a < b` on strings. */
  predicate StrLess(a: string, b: string)
    ensures a != b && a <= b ==> StrLess(a, b)
    ensures |a| > 0 && |b| > 0 && a[0] < b[0] ==> StrLess(a, b)
  {
    if |a| == 0 then |b| > 0
    else if |b| == 0 then false
    else a[0] < b[0] || (a[0] == b[0] && StrLess(a[1..], b[1..]))
  }

  lemma {:induction false} StrLessIrreflexive(a: string)
    ensures !StrLess(a, a)
  {
    if |a| > 0 {
      StrLessIrreflexive(a[1..]);
    }
  }

  lemma {:induction false} StrLessTransitive(a: string, b: string, c: string)
    requires StrLess(a, b) && StrLess(b, c)
    ensures StrLess(a, c)
  {
    if |a| > 0 && |b| > 0 && |c| > 0 && a[0] == b[0] == c[0] {
      StrLessTransitive(a[1..], b[1..], c[1..]);
    }
  }

  lemma StrLessAsymmetric(a: string, b: string)
    requires StrLess(a, b)
    ensures !StrLess(b, a)
  {
    if StrLess(b, a) {
      StrLessTransitive(a, b, a);
      StrLessIrreflexive(a);
    }
  }

  /** Two different strings are ordered one way or the other. */
  lemma {:induction false} StrLessTotal(a: string, b: string)
    requires a != b
    ensures StrLess(a, b) || StrLess(b, a)
  {
    if |a| > 0 && |b| > 0 && a[0] == b[0] {
      assert a == [a[0]] + a[1..] && b == [b[0]] + b[1..];
      StrLessTotal(a[1..], b[1..]);
    }
  }

  /** `!(b < a)`, the order a stable sort places equal-or-smaller keys in. */
  predicate StrLessEq(a: string, b: string) {
    !StrLess(b, a)
  }

  lemma StrLessEqTransitive(a: string, b: string, c: string)
    requires StrLessEq(a, b) && StrLessEq(b, c)
    ensures StrLessEq(a, c)
  {
    if StrLess(c, a) {
      if a != b { StrLessTotal(a, b); StrLessTransitive(c, a, b); }
    }
  }

  lemma StrLessEqAntisymmetric(a: string, b: string)
    requires StrLessEq(a, b) && StrLessEq(b, a)
    ensures a == b
  {
    if a != b { StrLessTotal(a, b); }
  }

  /** The three-way comparison of two present string fields. */
  function Compare(a: string, b: string): (r: int)
    ensures r == -1 || r == 0 || r == 1
    ensures r < 0 <==> StrLess(a, b)
    ensures r > 0 <==> StrLess(b, a)
    ensures r == 0 <==> a == b
  {
    StrLessIrreflexive(a);
    assert StrLess(a, b) ==> !StrLess(b, a) by {
      if StrLess(a, b) { StrLessAsymmetric(a, b); }
    }
    assert a != b ==> StrLess(a, b) || StrLess(b, a) by {
      if a != b { StrLessTotal(a, b); }
    }
    if StrLess(a, b) then -1
    else if StrLess(b, a) then 1
    else 0
  }

  /**
   * JavaScript `x < y` on two field values that may be `undefined` (None):
   * a comparison with `undefined` is false.
   */
  predicate FieldLess(x: Option<string>, y: Option<string>)
    ensures x.None? || y.None? ==> !FieldLess(x, y)
    ensures x.Some? && y.Some? ==> (FieldLess(x, y) <==> StrLess(x.value, y.value))
    ensures FieldLess(x, y) ==> !StrLess(y.value, x.value)
  {
    var less := x.Some? && y.Some? && StrLess(x.value, y.value);
    assert less ==> !StrLess(y.value, x.value) by {
      if less { StrLessAsymmetric(x.value, y.value); }
    }
    less
  }

  /** `compareFn(a, b)` applied to the two values of the sort field. */
  function CompareFields(x: Option<string>, y: Option<string>): (r: int)
    ensures x.None? || y.None? ==> r == 0
    ensures x.Some? && y.Some? ==> r == Compare(x.value, y.value)
  {
    if FieldLess(x, y) then -1
    else if FieldLess(y, x) then 1
    else 0
  }

  /** The string a field sorts by: absent fields all share one key. */
  function FieldKey(x: Option<string>): string {
    match x
    case Some(s) => s
    case None => ""
  }

  /**
   * When both values are present or both are absent, `compareFn` agrees with
   * the three-way comparison of their keys, so sorting by the key is sorting
   * with `compareFn`.
   */
  lemma CompareFieldsByKey(x: Option<string>, y: Option<string>)
    requires x.Some? == y.Some?
    ensures CompareFields(x, y) == Compare(FieldKey(x), FieldKey(y))
  {
  }
}
