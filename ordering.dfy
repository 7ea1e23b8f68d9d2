/** Sorting by a numeric key, most important first: the reading given here
    to the store's `sort({ field: -1 })` and `$sort: { count: -1 }` stages.
    Among equal keys the earlier element stays first. Also the lookup by
    id that `findById` and `findByIdAndUpdate` do on a collection. */
module Ordering {
  import opened Wrappers

  /** Where a lookup by id finds its document: the first position whose id
      is `id`, or none when no document has it. */
  function IndexOfId<T>(s: seq<T>, id: nat, idOf: T -> nat): (k: Option<nat>)
    ensures k.Some? ==> k.value < |s| && idOf(s[k.value]) == id
    ensures k.Some? ==> forall i | 0 <= i < k.value :: idOf(s[i]) != id
    ensures k.None? ==> forall i | 0 <= i < |s| :: idOf(s[i]) != id
  {
    if s == [] then None
    else if idOf(s[0]) == id then Some(0)
    else
      var k := IndexOfId(s[1..], id, idOf);
      if k.Some? then Some(k.value + 1) else None
  }

  /** No two documents of a collection share an id. */
  predicate IdsDistinct<T>(s: seq<T>, idOf: T -> nat)
  {
    forall i, j | 0 <= i < j < |s| :: idOf(s[i]) != idOf(s[j])
  }

  predicate SortedDesc<T>(s: seq<T>, key: T -> int)
  {
    forall i, j | 0 <= i < j < |s| :: key(s[i]) >= key(s[j])
  }

  function Insert<T>(x: T, s: seq<T>, key: T -> int): (r: seq<T>)
    ensures |r| == |s| + 1
    ensures multiset(r) == multiset(s) + multiset{x}
  {
    if s == [] then [x]
    else if key(s[0]) <= key(x) then [x] + s
    else
      assert s == [s[0]] + s[1..];
      [s[0]] + Insert(x, s[1..], key)
  }

  predicate AllAtMost<T>(s: seq<T>, bound: int, key: T -> int)
  {
    forall i | 0 <= i < |s| :: key(s[i]) <= bound
  }

  lemma SortedCons<T>(h: T, t: seq<T>, key: T -> int)
    requires SortedDesc(t, key) && AllAtMost(t, key(h), key)
    ensures SortedDesc([h] + t, key)
  {
    var r := [h] + t;
    forall i, j | 0 <= i < j < |r|
      ensures key(r[i]) >= key(r[j])
    {
      assert r[j] == t[j - 1];
      if i > 0 {
        assert r[i] == t[i - 1];
      }
    }
  }

  lemma {:induction false} InsertBound<T>(x: T, s: seq<T>, bound: int, key: T -> int)
    requires AllAtMost(s, bound, key) && key(x) <= bound
    ensures AllAtMost(Insert(x, s, key), bound, key)
  {
    if s != [] && key(s[0]) > key(x) {
      InsertBound(x, s[1..], bound, key);
      var r := Insert(x, s, key);
      assert r == [s[0]] + Insert(x, s[1..], key);
      assert forall i | 1 <= i < |r| :: r[i] == Insert(x, s[1..], key)[i - 1];
    } else if s != [] {
      var r := [x] + s;
      assert forall i | 1 <= i < |r| :: r[i] == s[i - 1];
    }
  }

  lemma {:induction false} InsertSorted<T>(x: T, s: seq<T>, key: T -> int)
    requires SortedDesc(s, key)
    ensures SortedDesc(Insert(x, s, key), key)
  {
    if s == [] {
    } else if key(s[0]) <= key(x) {
      assert AllAtMost(s, key(x), key) by {
        forall i | 0 <= i < |s| ensures key(s[i]) <= key(x) {
          if i > 0 { assert key(s[0]) >= key(s[i]); }
        }
      }
      SortedCons(x, s, key);
    } else {
      var t := s[1..];
      assert SortedDesc(t, key) by {
        forall i, j | 0 <= i < j < |t| ensures key(t[i]) >= key(t[j]) {
          assert t[i] == s[i + 1] && t[j] == s[j + 1];
        }
      }
      InsertSorted(x, t, key);
      assert AllAtMost(t, key(s[0]), key) by {
        forall i | 0 <= i < |t| ensures key(t[i]) <= key(s[0]) {
          assert t[i] == s[i + 1];
        }
      }
      InsertBound(x, t, key(s[0]), key);
      SortedCons(s[0], Insert(x, t, key), key);
    }
  }

  /** Insertion sort by non-increasing key. */
  function SortDesc<T>(s: seq<T>, key: T -> int): (r: seq<T>)
    ensures |r| == |s|
    ensures multiset(r) == multiset(s)
    ensures SortedDesc(r, key)
  {
    if s == [] then []
    else
      assert s == [s[0]] + s[1..];
      InsertSorted(s[0], SortDesc(s[1..], key), key);
      Insert(s[0], SortDesc(s[1..], key), key)
  }

  /** Sorting neither adds nor drops elements. */
  lemma SortDescMembers<T>(s: seq<T>, key: T -> int)
    ensures forall x | x in SortDesc(s, key) :: x in s
    ensures forall x | x in s :: x in SortDesc(s, key)
  {
    var r := SortDesc(s, key);
    forall x | x in r ensures x in s {
      assert x in multiset(r);
    }
    forall x | x in s ensures x in r {
      assert x in multiset(s);
    }
  }

  function SumOf<T>(s: seq<T>, f: T -> int): int
  {
    if s == [] then 0 else f(s[0]) + SumOf(s[1..], f)
  }

  lemma {:induction false} InsertSum<T>(x: T, s: seq<T>, key: T -> int, f: T -> int)
    ensures SumOf(Insert(x, s, key), f) == f(x) + SumOf(s, f)
  {
    if s != [] && key(s[0]) > key(x) {
      InsertSum(x, s[1..], key, f);
      var r := Insert(x, s, key);
      assert r[1..] == Insert(x, s[1..], key);
    } else if s != [] {
      assert ([x] + s)[1..] == s;
    }
  }

  /** Sorting does not change a sum: nothing is lost or duplicated. */
  lemma {:induction false} SortSum<T>(s: seq<T>, key: T -> int, f: T -> int)
    ensures SumOf(SortDesc(s, key), f) == SumOf(s, f)
  {
    if s != [] {
      SortSum(s[1..], key, f);
      InsertSum(s[0], SortDesc(s[1..], key), key, f);
    }
  }
}
