/** Python's `list.sort(key=...)`: a stable sort by a key. Keys are pairs of
    integers compared lexicographically, which covers the tuple key of
    `get_my_open_tickets`; a descending sort (`reverse=True`) keeps equal
    elements in their original order, which is the ascending stable sort by
    the negated key. */
module Sorting {
  import opened Common

  datatype Key = Key(major: int, minor: int)

  /** Lexicographic order on keys. */
  predicate KeyLe(a: Key, b: Key) {
    a.major < b.major || (a.major == b.major && a.minor <= b.minor)
  }

  predicate SortedBy<T>(s: seq<T>, key: T -> Key) {
    forall i, j :: 0 <= i < j < |s| ==> KeyLe(key(s[i]), key(s[j]))
  }

  /** Inserts x after every element whose key is not above its own. */
  function Insert<T>(s: seq<T>, x: T, key: T -> Key): (r: seq<T>)
    ensures |r| == |s| + 1
    decreases |s|
  {
    if |s| == 0 then [x]
    else if KeyLe(key(s[|s| - 1]), key(x)) then s + [x]
    else Insert(s[..|s| - 1], x, key) + [s[|s| - 1]]
  }

  /** The stable insertion sort. */
  function SortBy<T>(s: seq<T>, key: T -> Key): (r: seq<T>)
    ensures |r| == |s|
    decreases |s|
  {
    if |s| == 0 then [] else Insert(SortBy(s[..|s| - 1], key), s[|s| - 1], key)
  }

  /** Inserting keeps the elements, with x added once. */
  lemma {:induction false} InsertPerm<T>(s: seq<T>, x: T, key: T -> Key)
    ensures multiset(Insert(s, x, key)) == multiset(s) + multiset{x}
    decreases |s|
  {
    if |s| > 0 && !KeyLe(key(s[|s| - 1]), key(x)) {
      InsertPerm(s[..|s| - 1], x, key);
      assert s == s[..|s| - 1] + [s[|s| - 1]];
    }
  }

  /** Every element of an insertion is x or an element of s. */
  lemma {:induction false} InsertMembers<T>(s: seq<T>, x: T, key: T -> Key)
    ensures forall y :: y in Insert(s, x, key) ==> y == x || y in s
  {
    InsertPerm(s, x, key);
    forall y | y in Insert(s, x, key) ensures y == x || y in s {
      assert y in multiset(Insert(s, x, key));
    }
  }

  /** Inserting into a sorted sequence keeps it sorted. */
  lemma {:induction false} InsertSorted<T>(s: seq<T>, x: T, key: T -> Key)
    requires SortedBy(s, key)
    ensures SortedBy(Insert(s, x, key), key)
    decreases |s|
  {
    if |s| > 0 && !KeyLe(key(s[|s| - 1]), key(x)) {
      var init := s[..|s| - 1];
      var last := s[|s| - 1];
      InsertSorted(init, x, key);
      InsertMembers(init, x, key);
      var r := Insert(init, x, key);
      forall y | y in r ensures KeyLe(key(y), key(last)) {
        if y != x {
          var i :| 0 <= i < |init| && init[i] == y;
          assert s[i] == y;
        }
      }
      forall i, j | 0 <= i < j < |r| + 1 ensures KeyLe(key((r + [last])[i]), key((r + [last])[j])) {
        if j == |r| {
          assert (r + [last])[i] == r[i] && r[i] in r;
        }
      }
    }
  }

  /** The sort orders by key and is a permutation of its input. */
  lemma {:induction false} SortBySpec<T>(s: seq<T>, key: T -> Key)
    ensures SortedBy(SortBy(s, key), key)
    ensures multiset(SortBy(s, key)) == multiset(s)
    decreases |s|
  {
    if |s| > 0 {
      SortBySpec(s[..|s| - 1], key);
      InsertSorted(SortBy(s[..|s| - 1], key), s[|s| - 1], key);
      InsertPerm(SortBy(s[..|s| - 1], key), s[|s| - 1], key);
      assert s == s[..|s| - 1] + [s[|s| - 1]];
    }
  }

  /** The elements whose key is k. */
  function WithKey<T>(key: T -> Key, k: Key): T -> bool {
    x => key(x) == k
  }

  /** Inserting x places it after every element with the same key. */
  lemma {:induction false} InsertStable<T>(s: seq<T>, x: T, key: T -> Key, k: Key)
    ensures Filter(Insert(s, x, key), WithKey(key, k)) == Filter(s, WithKey(key, k)) + (if key(x) == k then [x] else [])
    decreases |s|
  {
    var p := WithKey(key, k);
    if |s| == 0 {
      FilterSnoc([], x, p);
      assert [] + [x] == [x];
    } else if KeyLe(key(s[|s| - 1]), key(x)) {
      FilterSnoc(s, x, p);
    } else {
      var init := s[..|s| - 1];
      var last := s[|s| - 1];
      assert Insert(s, x, key) == Insert(init, x, key) + [last];
      assert s == init + [last];
      InsertStable(init, x, key, k);
      FilterSnoc(Insert(init, x, key), last, p);
      FilterSnoc(init, last, p);
      var fi := Filter(init, p);
      var xs := if key(x) == k then [x] else [];
      var ls := if key(last) == k then [last] else [];
      assert key(last) != key(x);
      assert Filter(Insert(s, x, key), p) == fi + xs + ls;
      assert Filter(s, p) == fi + ls;
      if key(x) == k {
        assert ls == [];
      } else {
        assert xs == [];
      }
    }
  }

  /** The sort is stable: the elements sharing a key keep their input order. */
  lemma {:induction false} SortByStable<T>(s: seq<T>, key: T -> Key, k: Key)
    ensures Filter(SortBy(s, key), WithKey(key, k)) == Filter(s, WithKey(key, k))
    decreases |s|
  {
    if |s| > 0 {
      var init := s[..|s| - 1];
      SortByStable(init, key, k);
      InsertStable(SortBy(init, key), s[|s| - 1], key, k);
      FilterSnoc(init, s[|s| - 1], WithKey(key, k));
      assert s == init + [s[|s| - 1]];
    }
  }

  /** `sorted(s, key)[:limit]` keeps as many elements as the slice bound
      allows, all drawn from s; none of them has a key above that of an
      element left out, and among equal keys the kept ones are the first in
      input order. */
  lemma SortedTake<T>(s: seq<T>, key: T -> Key, limit: int)
    ensures var l := PyPrefix(SortBy(s, key), limit);
      && |l| == SliceBound(limit, |s|)
      && multiset(l) <= multiset(s)
      && (forall u, t :: u in l && t in multiset(s) - multiset(l) ==> KeyLe(key(u), key(t)))
      && (forall k :: Filter(l, WithKey(key, k)) <= Filter(s, WithKey(key, k)))
  {
    var sorted := SortBy(s, key);
    SortBySpec(s, key);
    var n := SliceBound(limit, |s|);
    var l := sorted[..n];
    assert sorted == l + sorted[n..];
    assert multiset(sorted) == multiset(l) + multiset(sorted[n..]);
    forall u, t | u in l && t in multiset(s) - multiset(l) ensures KeyLe(key(u), key(t)) {
      assert t in multiset(sorted[n..]);
      var j :| 0 <= j < |sorted[n..]| && sorted[n..][j] == t;
      var i :| 0 <= i < |l| && l[i] == u;
      assert sorted[i] == u && sorted[n + j] == t;
    }
    forall k ensures Filter(l, WithKey(key, k)) <= Filter(s, WithKey(key, k)) {
      FilterPrefix(sorted, n, WithKey(key, k));
      SortByStable(s, key, k);
    }
  }

  /** The sort lists exactly the elements of its input. */
  lemma SortByMembers<T>(s: seq<T>, key: T -> Key, x: T)
    ensures x in SortBy(s, key) <==> x in s
  {
    SortBySpec(s, key);
    assert x in SortBy(s, key) <==> x in multiset(SortBy(s, key));
  }

  /** A prefix of a sorted sequence is sorted. */
  lemma SortedPrefix<T>(s: seq<T>, key: T -> Key, k: nat)
    requires SortedBy(s, key) && k <= |s|
    ensures SortedBy(s[..k], key)
  {
  }
}
