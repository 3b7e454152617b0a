/**
 * Python 2 comparisons that the orchestrator relies on: `<` on strings and
 * the built-in `max` over a non-empty list.
 */
module PyCompare {

  /** `a < b` on Python strings: lexicographic by character, a proper prefix first. */
  predicate StrLess(a: string, b: string)
    decreases |a|
  {
    if |a| == 0 then |b| > 0
    else if |b| == 0 then false
    else if a[0] != b[0] then a[0] < b[0]
    else StrLess(a[1..], b[1..])
  }

  lemma {:induction false} StrLessIrreflexive(a: string)
    ensures !StrLess(a, a)
    decreases |a|
  {
    if |a| > 0 {
      StrLessIrreflexive(a[1..]);
    }
  }

  lemma {:induction false} StrLessTransitive(a: string, b: string, c: string)
    requires StrLess(a, b) && StrLess(b, c)
    ensures StrLess(a, c)
    decreases |a|
  {
    if |a| > 0 && a[0] == b[0] && b[0] == c[0] {
      StrLessTransitive(a[1..], b[1..], c[1..]);
    }
  }

  lemma {:induction false} StrLessTotal(a: string, b: string)
    ensures a == b || StrLess(a, b) || StrLess(b, a)
    decreases |a|
  {
    if |a| > 0 && |b| > 0 && a[0] == b[0] {
      StrLessTotal(a[1..], b[1..]);
      if a[1..] == b[1..] {
        assert a == [a[0]] + a[1..] && b == [b[0]] + b[1..];
      }
    }
  }

  /** `max(s)` over strings: an element of `s` that no element of `s` exceeds. */
  function MaxString(s: seq<string>): (m: string)
    requires |s| > 0
    ensures m in s
    ensures forall x :: x in s ==> !StrLess(m, x)
  {
    if |s| == 1 then
      StrLessIrreflexive(s[0]);
      s[0]
    else
      var rest := MaxString(s[1..]);
      if StrLess(s[0], rest) then
        StrLessAsymmetric(s[0], rest);
        rest
      else
        StrLessTotal(s[0], rest);
        assert forall x :: x in s[1..] ==> !StrLess(s[0], x) by {
          forall x | x in s[1..] && StrLess(s[0], x)
            ensures false
          {
            StrLessTransitive(rest, s[0], x);
          }
        }
        StrLessIrreflexive(s[0]);
        assert s == [s[0]] + s[1..];
        s[0]
  }

  lemma StrLessAsymmetric(a: string, b: string)
    requires StrLess(a, b)
    ensures !StrLess(b, a)
  {
    if StrLess(b, a) {
      StrLessTransitive(a, b, a);
      StrLessIrreflexive(a);
    }
  }

  /** `max(s)` over integers. */
  function MaxInt(s: seq<int>): (m: int)
    requires |s| > 0
    ensures m in s
    ensures forall x :: x in s ==> x <= m
  {
    if |s| == 1 then s[0]
    else
      var rest := MaxInt(s[1..]);
      assert s == [s[0]] + s[1..];
      if s[0] < rest then rest else s[0]
  }
}
