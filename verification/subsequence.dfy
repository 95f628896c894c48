/** Order-preserving selection: `a` is obtained from `b` by deleting elements. */
module Subsequence {
  predicate IsSubsequence<T(==)>(a: seq<T>, b: seq<T>)
    decreases |b|
  {
    if |a| == 0 then true
    else if |b| == 0 then false
    else if a[|a| - 1] == b[|b| - 1] then IsSubsequence(a[..|a| - 1], b[..|b| - 1])
    else IsSubsequence(a, b[..|b| - 1])
  }

  /** A subsequence only holds elements of the longer sequence. */
  lemma {:induction false} SubsequenceMembers<T>(a: seq<T>, b: seq<T>)
    requires IsSubsequence(a, b)
    ensures |a| <= |b|
    ensures forall x :: x in a ==> x in b
    decreases |b|
  {
    if |a| > 0 {
      if a[|a| - 1] == b[|b| - 1] {
        SubsequenceMembers(a[..|a| - 1], b[..|b| - 1]);
        assert a == a[..|a| - 1] + [a[|a| - 1]];
        assert b == b[..|b| - 1] + [b[|b| - 1]];
      } else {
        SubsequenceMembers(a, b[..|b| - 1]);
        assert b == b[..|b| - 1] + [b[|b| - 1]];
      }
    }
  }

  lemma {:induction false} SubsequenceReflexive<T>(a: seq<T>)
    ensures IsSubsequence(a, a)
    decreases |a|
  {
    if |a| > 0 {
      SubsequenceReflexive(a[..|a| - 1]);
    }
  }

  /** Keeping or dropping the last element of `b` extends a subsequence of its front. */
  lemma SubsequenceSnoc<T>(a: seq<T>, b: seq<T>, x: T)
    requires IsSubsequence(a, b)
    ensures IsSubsequence(a, b + [x]) && IsSubsequence(a + [x], b + [x])
  {
    var b' := b + [x];
    assert b'[..|b'| - 1] == b;
    var a' := a + [x];
    assert a'[..|a'| - 1] == a;
    if |a| > 0 && a[|a| - 1] == x {
      SubsequenceDropLast(a, b);
    }
  }

  /** Dropping the last element of a subsequence keeps it a subsequence. */
  lemma {:induction false} SubsequenceDropLast<T>(a: seq<T>, b: seq<T>)
    requires IsSubsequence(a, b) && |a| > 0
    ensures IsSubsequence(a[..|a| - 1], b)
    decreases |b|
  {
    var a' := a[..|a| - 1];
    if |a'| > 0 {
      var b' := b[..|b| - 1];
      if a[|a| - 1] == b[|b| - 1] {
        if a'[|a'| - 1] != b[|b| - 1] {
          assert a' == a'[..|a'|];
        } else {
          SubsequenceDropLast(a', b');
          assert a'[..|a'| - 1] == a[..|a| - 2];
        }
      } else {
        SubsequenceDropLast(a, b');
        if a'[|a'| - 1] == b[|b| - 1] {
          SubsequenceDropLast(a', b');
        }
      }
    }
  }

  lemma {:induction false} SubsequenceTransitive<T>(a: seq<T>, b: seq<T>, c: seq<T>)
    requires IsSubsequence(a, b) && IsSubsequence(b, c)
    ensures IsSubsequence(a, c)
    decreases |c|
  {
    if |a| > 0 && |b| > 0 && |c| > 0 {
      var c' := c[..|c| - 1];
      if b[|b| - 1] == c[|c| - 1] {
        var b' := b[..|b| - 1];
        if a[|a| - 1] == b[|b| - 1] {
          SubsequenceTransitive(a[..|a| - 1], b', c');
        } else {
          SubsequenceTransitive(a, b', c');
          if a[|a| - 1] == c[|c| - 1] {
            SubsequenceDropLast(a, c');
          }
        }
      } else {
        SubsequenceTransitive(a, b, c');
        if a[|a| - 1] == c[|c| - 1] {
          SubsequenceDropLast(a, c');
        }
      }
    }
  }

  /** The elements of `s` that `keep` accepts, in order. */
  function Filter<T>(s: seq<T>, keep: T -> bool): seq<T>
    decreases |s|
  {
    if |s| == 0 then []
    else Filter(s[..|s| - 1], keep) + (if keep(s[|s| - 1]) then [s[|s| - 1]] else [])
  }

  /** A filter keeps exactly the elements that pass it, in their order. */
  lemma {:induction false} FilterKeeps<T>(s: seq<T>, keep: T -> bool)
    ensures forall x :: x in Filter(s, keep) <==> x in s && keep(x)
    ensures IsSubsequence(Filter(s, keep), s)
    decreases |s|
  {
    if |s| > 0 {
      var init := s[..|s| - 1];
      var last := s[|s| - 1];
      FilterKeeps(init, keep);
      assert s == init + [last];
      var f := Filter(init, keep);
      SubsequenceSnoc(f, init, last);
      if keep(last) {
        assert Filter(s, keep) == f + [last];
      } else {
        assert Filter(s, keep) == f;
      }
    }
  }
}
