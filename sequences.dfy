/** Searching and filtering sequences in order. */
module Sequences {

  /** The index of the first element satisfying `p`, or `|s|` when there is none. */
  function FirstIndex<T>(p: T -> bool, s: seq<T>): (k: nat)
    ensures k <= |s|
    ensures k < |s| ==> p(s[k])
    ensures forall j :: 0 <= j < k ==> !p(s[j])
  {
    if s == [] then 0
    else if p(s[0]) then 0
    else 1 + FirstIndex(p, s[1..])
  }

  /** An index satisfying `p` with none before it is the first index. */
  lemma FirstIndexAt<T>(p: T -> bool, s: seq<T>, k: nat)
    requires k < |s| && p(s[k])
    requires forall j :: 0 <= j < k ==> !p(s[j])
    ensures FirstIndex(p, s) == k
  {
  }

  /** The first index is at most any index satisfying `p`. */
  lemma FirstIndexAtMost<T>(p: T -> bool, s: seq<T>, k: nat)
    requires k < |s| && p(s[k])
    ensures FirstIndex(p, s) <= k
  {
  }

  /** The elements of `s` that satisfy `p`, in their order in `s`. */
  function Filter<T>(p: T -> bool, s: seq<T>): seq<T>
  {
    if s == [] then []
    else Filter(p, s[..|s| - 1]) + (if p(s[|s| - 1]) then [s[|s| - 1]] else [])
  }

  /** `a` is obtained from `b` by deleting elements, keeping the order of the rest. */
  predicate IsSubsequence<T(==)>(a: seq<T>, b: seq<T>)
    decreases |b|
  {
    if a == [] then true
    else if b == [] then false
    else (a[|a| - 1] == b[|b| - 1] && IsSubsequence(a[..|a| - 1], b[..|b| - 1]))
         || IsSubsequence(a, b[..|b| - 1])
  }

  /** Filtering one more element at the end. */
  lemma FilterSnoc<T>(p: T -> bool, s: seq<T>, x: T)
    ensures Filter(p, s + [x]) == Filter(p, s) + (if p(x) then [x] else [])
  {
    assert (s + [x])[..|s|] == s;
  }

  /** Everything `Filter` keeps satisfies `p` and comes from `s`. */
  lemma {:induction false} FilterSound<T>(p: T -> bool, s: seq<T>)
    ensures forall x :: x in Filter(p, s) ==> p(x) && x in s
  {
    if s != [] {
      FilterSound(p, s[..|s| - 1]);
      forall x | x in s[..|s| - 1] ensures x in s { }
    }
  }

  /** `Filter` keeps every element satisfying `p`, as often as it occurs. */
  lemma {:induction false} FilterComplete<T>(p: T -> bool, s: seq<T>, x: T)
    requires p(x)
    ensures multiset(Filter(p, s))[x] == multiset(s)[x]
  {
    if s != [] {
      var init := s[..|s| - 1];
      FilterComplete(p, init, x);
      assert s == init + [s[|s| - 1]];
    }
  }

  /** `Filter` keeps the order of what it keeps. */
  lemma {:induction false} FilterIsSubsequence<T>(p: T -> bool, s: seq<T>)
    ensures IsSubsequence(Filter(p, s), s)
  {
    if s != [] {
      var init := s[..|s| - 1];
      FilterIsSubsequence(p, init);
      var f := Filter(p, s);
      if p(s[|s| - 1]) {
        assert f[..|f| - 1] == Filter(p, init);
      } else if f != [] {
        assert f == Filter(p, init);
      }
    }
  }

  /** `Filter` is empty exactly when no element satisfies `p`. */
  lemma {:induction false} FilterEmpty<T>(p: T -> bool, s: seq<T>)
    ensures Filter(p, s) == [] <==> forall i :: 0 <= i < |s| ==> !p(s[i])
  {
    if s != [] {
      FilterEmpty(p, s[..|s| - 1]);
      assert forall i :: 0 <= i < |s| - 1 ==> s[..|s| - 1][i] == s[i];
    }
  }

  /** The first element `Filter` keeps is the first element satisfying `p`. */
  lemma {:induction false} FilterHead<T>(p: T -> bool, s: seq<T>)
    requires FirstIndex(p, s) < |s|
    ensures Filter(p, s) != [] && Filter(p, s)[0] == s[FirstIndex(p, s)]
  {
    var k := FirstIndex(p, s);
    var init := s[..|s| - 1];
    if k == |s| - 1 {
      FilterEmpty(p, init);
    } else {
      assert FirstIndex(p, init) == k by {
        var k' := FirstIndex(p, init);
        assert k' <= k;
        assert k' < |init| ==> p(s[k']);
      }
      FilterHead(p, init);
    }
  }
}
