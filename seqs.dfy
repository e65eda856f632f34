/**
  Order-keeping filters over sequences, the shape shared by JavaScript's `filter`, the
  key split of `Object.keys` and SQL's `filter_by`.
 */
module Sequences {

  /** The elements of `s` that satisfy `p`, in the order given. */
  function Keep<T>(p: T -> bool, s: seq<T>): (r: seq<T>)
    ensures |r| <= |s|
  {
    if |s| == 0 then []
    else
      var init := Keep(p, s[..|s| - 1]);
      if p(s[|s| - 1]) then init + [s[|s| - 1]] else init
  }

  lemma KeepSnoc<T>(p: T -> bool, s: seq<T>, x: T)
    ensures Keep(p, s + [x]) == if p(x) then Keep(p, s) + [x] else Keep(p, s)
  {
    assert (s + [x])[..|s|] == s;
  }

  /** Keeping exactly the elements that satisfy `p`. */
  lemma {:induction false} KeepMembers<T>(p: T -> bool, s: seq<T>)
    ensures forall x :: x in Keep(p, s) <==> x in s && p(x)
  {
    if |s| > 0 {
      var init := s[..|s| - 1];
      KeepMembers(p, init);
      assert s == init + [s[|s| - 1]];
    }
  }

  /** A predicate and its negation split a sequence into two parts that together are a
      permutation of it. */
  lemma {:induction false} KeepSplit<T>(p: T -> bool, q: T -> bool, s: seq<T>)
    requires forall x :: q(x) == !p(x)
    ensures multiset(Keep(p, s)) + multiset(Keep(q, s)) == multiset(s)
  {
    if |s| > 0 {
      var init := s[..|s| - 1];
      KeepSplit(p, q, init);
      assert s == init + [s[|s| - 1]];
    }
  }

  /** When every element satisfies `p`, nothing is dropped. */
  lemma {:induction false} KeepAll<T>(p: T -> bool, s: seq<T>)
    requires forall i :: 0 <= i < |s| ==> p(s[i])
    ensures Keep(p, s) == s
  {
    if |s| > 0 {
      var init := s[..|s| - 1];
      KeepAll(p, init);
      assert s == init + [s[|s| - 1]];
    }
  }

  /** When no element satisfies `p`, nothing is kept. */
  lemma {:induction false} KeepNone<T>(p: T -> bool, s: seq<T>)
    requires forall i :: 0 <= i < |s| ==> !p(s[i])
    ensures Keep(p, s) == []
  {
    if |s| > 0 {
      KeepNone(p, s[..|s| - 1]);
    }
  }

  /** Removing the one element that fails `p` is the same as keeping those that pass. */
  lemma {:induction false} RemoveAtIsKeep<T>(p: T -> bool, s: seq<T>, i: nat)
    requires i < |s| && !p(s[i])
    requires forall j :: 0 <= j < |s| && j != i ==> p(s[j])
    ensures s[..i] + s[i + 1..] == Keep(p, s)
  {
    var n := |s| - 1;
    var init := s[..n];
    if i == n {
      KeepAll(p, init);
    } else {
      RemoveAtIsKeep(p, init, i);
      assert s == init + [s[n]];
      assert s[..i] + s[i + 1..] == (init[..i] + init[i + 1..]) + [s[n]];
    }
  }
}
