/**
  The order in which `Object.keys` and `Object.values` list the own string-keyed
  properties of an ordinary JavaScript object (OrdinaryOwnPropertyKeys, section 10.1.11.1
  of ECMA-262): first the keys that are array indices, in ascending numeric order, then
  every other key in the order the property was created.
 */
module ObjectKeys {
  import opened Sequences

  predicate IsDigit(c: char)
  {
    '0' <= c <= '9'
  }

  predicate AllDigits(s: string)
  {
    forall i :: 0 <= i < |s| ==> IsDigit(s[i])
  }

  /** Decimal value of a digit string (a non-digit counts as 0, which never matters below). */
  function DecimalValue(s: string): nat
  {
    if |s| == 0 then 0
    else
      var c := s[|s| - 1];
      DecimalValue(s[..|s| - 1]) * 10 + (if IsDigit(c) then (c as int) - ('0' as int) else 0)
  }

  /** A canonical numeric string of an integer in 0 .. 2^32 - 2: an array index. */
  predicate IsArrayIndex(s: string)
  {
    && 0 < |s|
    && AllDigits(s)
    && (s[0] == '0' ==> |s| == 1)
    && DecimalValue(s) < 0xFFFF_FFFF
  }

  /** Names that an object literal `{}` inherits from Object.prototype: reading such a
      property of an empty object gives a function or the prototype, not `undefined`. */
  predicate Inherited(s: string)
  {
    s in {"constructor", "hasOwnProperty", "isPrototypeOf", "propertyIsEnumerable",
          "toLocaleString", "toString", "valueOf", "__proto__",
          "__defineGetter__", "__defineSetter__", "__lookupGetter__", "__lookupSetter__"}
  }

  function NotArrayIndex(s: string): bool
  {
    !IsArrayIndex(s)
  }

  /** The array-index keys of `ks`, in the order given. */
  function IndexKeys(ks: seq<string>): seq<string>
  {
    Keep(IsArrayIndex, ks)
  }

  /** The other keys of `ks`, in the order given. */
  function NamedKeys(ks: seq<string>): seq<string>
  {
    Keep(NotArrayIndex, ks)
  }

  lemma SplitIsPermutation(ks: seq<string>)
    ensures multiset(IndexKeys(ks)) + multiset(NamedKeys(ks)) == multiset(ks)
  {
    KeepSplit(IsArrayIndex, NotArrayIndex, ks);
  }

  /** The keys, none of which is an array index, keep their order. */
  lemma NoIndexKeys(ks: seq<string>)
    requires forall i :: 0 <= i < |ks| ==> !IsArrayIndex(ks[i])
    ensures IndexKeys(ks) == [] && NamedKeys(ks) == ks
  {
    KeepNone(IsArrayIndex, ks);
    KeepAll(NotArrayIndex, ks);
  }

  /** `s` is ordered by the weight `w`. */
  predicate Ascending<T>(w: T -> nat, s: seq<T>)
  {
    forall i, j :: 0 <= i < j < |s| ==> w(s[i]) <= w(s[j])
  }

  /** Inserts `k` before the first element of larger weight. */
  function Insert<T>(w: T -> nat, k: T, s: seq<T>): (r: seq<T>)
    ensures multiset(r) == multiset(s) + multiset{k}
  {
    if |s| == 0 then [k]
    else if w(k) <= w(s[0]) then [k] + s
    else
      assert s == [s[0]] + s[1..];
      [s[0]] + Insert(w, k, s[1..])
  }

  /** Inserting an element no lighter than a bound keeps every element no lighter. */
  lemma {:induction false} InsertBounded<T>(w: T -> nat, k: T, s: seq<T>, v: nat)
    requires v <= w(k)
    requires forall i :: 0 <= i < |s| ==> v <= w(s[i])
    ensures forall i :: 0 <= i < |Insert(w, k, s)| ==> v <= w(Insert(w, k, s)[i])
  {
    if |s| > 0 && w(k) > w(s[0]) {
      InsertBounded(w, k, s[1..], v);
    }
  }

  lemma {:induction false} InsertAscending<T>(w: T -> nat, k: T, s: seq<T>)
    requires Ascending(w, s)
    ensures Ascending(w, Insert(w, k, s))
  {
    if |s| > 0 && w(k) > w(s[0]) {
      var t := s[1..];
      InsertAscending(w, k, t);
      InsertBounded(w, k, t, w(s[0]));
    }
  }

  /** An insertion sort by weight. */
  function SortBy<T>(w: T -> nat, s: seq<T>): (r: seq<T>)
    ensures Ascending(w, r)
    ensures multiset(r) == multiset(s)
  {
    if |s| == 0 then []
    else
      assert s == [s[0]] + s[1..];
      var rest := SortBy(w, s[1..]);
      InsertAscending(w, s[0], rest);
      Insert(w, s[0], rest)
  }

  /** The engine lists index keys in ascending numeric order. */
  function SortNumeric(s: seq<string>): (r: seq<string>)
    ensures Ascending(DecimalValue, r)
    ensures multiset(r) == multiset(s)
  {
    SortBy(DecimalValue, s)
  }

  /** `Object.keys(o)` for an object whose keys were created in the order `created`. */
  function OwnKeys(created: seq<string>): (r: seq<string>)
    ensures multiset(r) == multiset(created)
  {
    SplitIsPermutation(created);
    SortNumeric(IndexKeys(created)) + NamedKeys(created)
  }

  /** `Object.keys` lists exactly the keys that were created. */
  lemma OwnKeysMembers(created: seq<string>)
    ensures forall k :: k in OwnKeys(created) <==> k in created
  {
    var r := OwnKeys(created);
    forall k ensures k in r <==> k in created {
      assert k in r <==> k in multiset(r);
      assert k in created <==> k in multiset(created);
    }
  }

  /** When no key is an array index, `Object.keys` gives creation order. */
  lemma CreationOrderKept(created: seq<string>)
    requires forall i :: 0 <= i < |created| ==> !IsArrayIndex(created[i])
    ensures OwnKeys(created) == created
  {
    NoIndexKeys(created);
  }

  /** The index keys come first and ascend; the named keys follow in creation order. */
  lemma OwnKeysLayout(created: seq<string>)
    ensures var r := OwnKeys(created);
      var n := |IndexKeys(created)|;
      && n <= |r|
      && (forall i :: 0 <= i < n ==> IsArrayIndex(r[i]))
      && Ascending(DecimalValue, r[..n])
      && r[n..] == NamedKeys(created)
  {
    var sorted := SortNumeric(IndexKeys(created));
    assert |sorted| == |IndexKeys(created)| by {
      assert |multiset(sorted)| == |multiset(IndexKeys(created))|;
    }
    var r := OwnKeys(created);
    assert r[..|sorted|] == sorted;
    KeepMembers(IsArrayIndex, created);
    forall i | 0 <= i < |sorted| ensures IsArrayIndex(r[i]) {
      assert r[i] in multiset(IndexKeys(created));
    }
  }

  /** A permutation of a sequence without repeats has no repeats. */
  lemma {:induction false} DistinctPermutation<T>(a: seq<T>, b: seq<T>)
    requires multiset(a) == multiset(b)
    requires forall i, j :: 0 <= i < j < |a| ==> a[i] != a[j]
    ensures forall i, j :: 0 <= i < j < |b| ==> b[i] != b[j]
  {
    forall i, j | 0 <= i < j < |b| ensures b[i] != b[j] {
      if b[i] == b[j] {
        var x := b[i];
        assert b == b[..j] + b[j..];
        assert x in b[..j] && x in b[j..];
        assert multiset(b)[x] >= 2 by {
          assert multiset(b) == multiset(b[..j]) + multiset(b[j..]);
        }
        AtMostOnce(a, x);
        assert false;
      }
    }
  }

  lemma {:induction false} AtMostOnce<T>(a: seq<T>, x: T)
    requires forall i, j :: 0 <= i < j < |a| ==> a[i] != a[j]
    ensures multiset(a)[x] <= 1
  {
    if |a| > 0 {
      var a' := a[1..];
      assert a == [a[0]] + a';
      AtMostOnce(a', x);
      if a[0] == x {
        assert x !in a';
      }
    }
  }
}
