/** Order-preserving selection from a sequence: SQL `WHERE` and JavaScript `filter`. */
module Seqs {

  function Filter<T>(s: seq<T>, p: T -> bool): (r: seq<T>)
    ensures |r| <= |s|
    ensures forall i :: 0 <= i < |r| ==> r[i] in s && p(r[i])
    ensures forall i :: 0 <= i < |s| && p(s[i]) ==> s[i] in r
    decreases |s|
  {
    if |s| == 0 then []
    else Filter(s[..|s| - 1], p) + (if p(s[|s| - 1]) then [s[|s| - 1]] else [])
  }

  /** An element is selected exactly when it occurs and satisfies the predicate. */
  lemma FilterMembers<T>(s: seq<T>, p: T -> bool)
    ensures forall x :: x in Filter(s, p) <==> x in s && p(x)
  {
    forall x | x in s && p(x) ensures x in Filter(s, p) {
      var i :| 0 <= i < |s| && s[i] == x;
    }
  }

  lemma {:induction false} FilterAppend<T>(a: seq<T>, b: seq<T>, p: T -> bool)
    ensures Filter(a + b, p) == Filter(a, p) + Filter(b, p)
    decreases |b|
  {
    if |b| > 0 {
      var b' := b[..|b| - 1];
      assert (a + b)[..|a + b| - 1] == a + b';
      FilterAppend(a, b', p);
    } else {
      assert a + b == a;
    }
  }

  /** Selecting everything keeps the sequence; selecting nothing empties it. */
  lemma {:induction false} FilterAllOrNone<T>(s: seq<T>, p: T -> bool)
    ensures (forall i :: 0 <= i < |s| ==> p(s[i])) ==> Filter(s, p) == s
    ensures (forall i :: 0 <= i < |s| ==> !p(s[i])) ==> Filter(s, p) == []
    decreases |s|
  {
    if |s| > 0 {
      FilterAllOrNone(s[..|s| - 1], p);
      assert s[..|s| - 1] + [s[|s| - 1]] == s;
    }
  }

  /** Two positions of a sequence never hold related elements. */
  ghost predicate Apart<T>(s: seq<T>, clash: (T, T) -> bool)
  {
    forall i, j :: 0 <= i < |s| && 0 <= j < |s| && i != j ==> !clash(s[i], s[j])
  }

  /** Selection keeps elements apart, because it only drops elements. */
  lemma {:induction false} FilterApart<T>(s: seq<T>, p: T -> bool, clash: (T, T) -> bool)
    requires Apart(s, clash)
    ensures Apart(Filter(s, p), clash)
    decreases |s|
  {
    if |s| > 0 {
      var init := s[..|s| - 1];
      var x := s[|s| - 1];
      assert Apart(init, clash) by {
        forall i, j | 0 <= i < |init| && 0 <= j < |init| && i != j ensures !clash(init[i], init[j]) {
          assert init[i] == s[i] && init[j] == s[j];
        }
      }
      FilterApart(init, p, clash);
      var f := Filter(init, p);
      if p(x) {
        var r := f + [x];
        forall i, j | 0 <= i < |r| && 0 <= j < |r| && i != j ensures !clash(r[i], r[j]) {
          if i < |f| && j < |f| {
          } else if i < |f| {
            assert r[i] in init;
            var k :| 0 <= k < |init| && init[k] == r[i];
            assert s[k] == r[i] && s[|s| - 1] == r[j];
          } else {
            assert r[j] in init;
            var k :| 0 <= k < |init| && init[k] == r[j];
            assert s[k] == r[j] && s[|s| - 1] == r[i];
          }
        }
      }
    }
  }

}
