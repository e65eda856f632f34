/**
  Totals of storage and incidents, and their sum over a list of groups where each group's
  share is given by a function. The lemmas say that the order of the groups does not
  matter, and how the sum changes when one group's share grows.
 */
module Partition {
  import opened CameraRecords

  datatype Totals = Totals(storage: real, incidents: int)

  function Plus(a: Totals, b: Totals): Totals
  {
    Totals(a.storage + b.storage, a.incidents + b.incidents)
  }

  /** The shares of the groups `ks`, added up from the left. */
  function SumOver<K>(share: K -> Totals, ks: seq<K>): Totals
  {
    if |ks| == 0 then Totals(0.0, 0)
    else Plus(SumOver(share, ks[..|ks| - 1]), share(ks[|ks| - 1]))
  }

  /** Growing the share of one group `key` by `own` grows the sum by `own` exactly when
      `key` is one of the (distinct) groups. */
  lemma {:induction false} SumOverBump<K>(f: K -> Totals, g: K -> Totals, ks: seq<K>, key: K, own: Totals)
    requires Distinct(ks)
    requires forall k :: g(k) == if k == key then Plus(f(k), own) else f(k)
    ensures SumOver(g, ks) == if key in ks then Plus(SumOver(f, ks), own) else SumOver(f, ks)
  {
    if |ks| > 0 {
      var q := ks[..|ks| - 1];
      var k := ks[|ks| - 1];
      assert ks == q + [k];
      assert Distinct(q);
      SumOverBump(f, g, q, key, own);
      if k == key {
        assert key !in q;
      }
    }
  }

  lemma {:induction false} SumOverAppend<K>(f: K -> Totals, a: seq<K>, b: seq<K>)
    ensures SumOver(f, a + b) == Plus(SumOver(f, a), SumOver(f, b))
  {
    if |b| > 0 {
      var b' := b[..|b| - 1];
      assert (a + b)[..|a + b| - 1] == a + b';
      SumOverAppend(f, a, b');
    } else {
      assert a + b == a;
    }
  }

  lemma SplitAt<K>(b: seq<K>, j: nat)
    requires j < |b|
    ensures b == (b[..j] + [b[j]]) + b[j + 1..]
  {
    assert b[j..] == [b[j]] + b[j + 1..];
    assert b == b[..j] + b[j..];
  }

  /** Taking one group out of the list takes its share out of the sum. */
  lemma SumOverRemove<K>(f: K -> Totals, b: seq<K>, j: nat)
    requires j < |b|
    ensures SumOver(f, b) == Plus(SumOver(f, b[..j] + b[j + 1..]), f(b[j]))
  {
    var x := b[j];
    var u, w := b[..j], b[j + 1..];
    SplitAt(b, j);
    SumOverAppend(f, u + [x], w);
    SumOverAppend(f, u, w);
    assert (u + [x])[..j] == u;
    calc {
      SumOver(f, b);
      Plus(SumOver(f, u + [x]), SumOver(f, w));
      Plus(Plus(SumOver(f, u), f(x)), SumOver(f, w));
      Plus(Plus(SumOver(f, u), SumOver(f, w)), f(x));
      Plus(SumOver(f, u + w), f(x));
    }
  }

  /** Taking the same element out of two permutations leaves two permutations. */
  lemma RemoveOne<K>(a: seq<K>, b: seq<K>, j: nat)
    requires multiset(a) == multiset(b) && 0 < |a| && j < |b| && b[j] == a[|a| - 1]
    ensures multiset(a[..|a| - 1]) == multiset(b[..j] + b[j + 1..])
  {
    var a', x := a[..|a| - 1], a[|a| - 1];
    var u, w := b[..j], b[j + 1..];
    assert a == a' + [x];
    SplitAt(b, j);
    assert multiset(b) == multiset(u + [x]) + multiset(w);
    assert multiset(u + [x]) == multiset(u) + multiset{x};
    assert multiset(u + w) == multiset(u) + multiset(w);
    assert multiset(a) == multiset(a') + multiset{x};
    forall y ensures multiset(u + w)[y] == multiset(a')[y] {
      assert multiset(b)[y] == multiset(u + w)[y] + multiset{x}[y];
      assert multiset(a)[y] == multiset(a')[y] + multiset{x}[y];
    }
  }

  /** The sum does not depend on the order of the groups. */
  lemma {:induction false} SumOverPermutation<K>(f: K -> Totals, a: seq<K>, b: seq<K>)
    requires multiset(a) == multiset(b)
    ensures SumOver(f, a) == SumOver(f, b)
    decreases |a|
  {
    if |a| == 0 {
      assert |b| == |multiset(b)| == 0;
    } else {
      var a' := a[..|a| - 1];
      var x := a[|a| - 1];
      assert x in multiset(b);
      var j :| 0 <= j < |b| && b[j] == x;
      RemoveOne(a, b, j);
      SumOverPermutation(f, a', b[..j] + b[j + 1..]);
      SumOverRemove(f, b, j);
    }
  }
}
