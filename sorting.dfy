/**
 * A stable insertion sort under a caller-supplied total preorder: the model of Python's
 * `sorted(..., key=...)` as used by the queue display and the group standings.
 */
module Sorting {

  /** `le` is total and transitive: a key order, possibly with ties. */
  ghost predicate TotalPreorder<T(!new)>(le: (T, T) -> bool) {
    (forall a, b :: le(a, b) || le(b, a)) &&
    (forall a, b, c :: le(a, b) && le(b, c) ==> le(a, c))
  }

  ghost predicate SortedBy<T>(s: seq<T>, le: (T, T) -> bool) {
    forall i, j :: 0 <= i < j < |s| ==> le(s[i], s[j])
  }

  /**
   * Insert `x` in front of the first element it may precede. As `x` came before the rest in
   * the input, elements tied with it stay behind it, which keeps the sort stable.
   */
  function Insert<T>(x: T, s: seq<T>, le: (T, T) -> bool): seq<T> {
    if s == [] then [x]
    else if le(x, s[0]) then [x] + s
    else [s[0]] + Insert(x, s[1..], le)
  }

  /** Sort by inserting the elements back to front into the sorted rest. */
  function SortBy<T>(s: seq<T>, le: (T, T) -> bool): seq<T> {
    if s == [] then [] else Insert(s[0], SortBy(s[1..], le), le)
  }

  lemma {:induction false} InsertPermutes<T>(x: T, s: seq<T>, le: (T, T) -> bool)
    ensures multiset(Insert(x, s, le)) == multiset(s) + multiset{x}
  {
    if s == [] {
    } else if le(x, s[0]) {
      assert Insert(x, s, le) == [x] + s;
    } else {
      var r := Insert(x, s[1..], le);
      InsertPermutes(x, s[1..], le);
      assert Insert(x, s, le) == [s[0]] + r;
      assert s == [s[0]] + s[1..];
    }
  }

  lemma {:induction false} InsertSorted<T(!new)>(x: T, s: seq<T>, le: (T, T) -> bool)
    requires TotalPreorder(le) && SortedBy(s, le)
    ensures SortedBy(Insert(x, s, le), le)
  {
    if s != [] && !le(x, s[0]) {
      InsertSorted(x, s[1..], le);
      InsertPermutes(x, s[1..], le);
      var r := Insert(x, s[1..], le);
      forall k | 0 <= k < |r| ensures le(s[0], r[k]) {
        assert r[k] in multiset(r);
        assert r[k] in multiset(s[1..]) || r[k] == x;
        if r[k] != x {
          var m :| 0 <= m < |s[1..]| && s[1..][m] == r[k];
          assert s[m + 1] == r[k];
        }
      }
    }
  }

  lemma {:induction false} InsertLength<T>(x: T, s: seq<T>, le: (T, T) -> bool)
    ensures |Insert(x, s, le)| == |s| + 1
  {
    if s != [] && !le(x, s[0]) {
      InsertLength(x, s[1..], le);
    }
  }

  lemma {:induction false} SortByLength<T>(s: seq<T>, le: (T, T) -> bool)
    ensures |SortBy(s, le)| == |s|
  {
    if s != [] {
      SortByLength(s[1..], le);
      InsertLength(s[0], SortBy(s[1..], le), le);
    }
  }

  lemma {:induction false} SortByPermutes<T>(s: seq<T>, le: (T, T) -> bool)
    ensures multiset(SortBy(s, le)) == multiset(s)
  {
    if s != [] {
      SortByPermutes(s[1..], le);
      InsertPermutes(s[0], SortBy(s[1..], le), le);
      assert multiset(s) == multiset(s[1..]) + multiset{s[0]} by {
        assert s == [s[0]] + s[1..];
      }
    }
  }

  lemma {:induction false} SortBySorted<T(!new)>(s: seq<T>, le: (T, T) -> bool)
    requires TotalPreorder(le)
    ensures SortedBy(SortBy(s, le), le)
  {
    if s != [] {
      SortBySorted(s[1..], le);
      InsertSorted(s[0], SortBy(s[1..], le), le);
    }
  }

  /** The elements of `s` tied with `k` under `le`, in their order in `s`. */
  function Ties<T>(s: seq<T>, k: T, le: (T, T) -> bool): seq<T> {
    if s == [] then [] else (if le(s[0], k) && le(k, s[0]) then [s[0]] else []) + Ties(s[1..], k, le)
  }

  /**
   * Inserting `x` puts it in front of every element tied with it: `x` never passes an
   * element it is tied with, because it stops at the first one it may precede.
   */
  lemma {:induction false} InsertTies<T(!new)>(x: T, s: seq<T>, k: T, le: (T, T) -> bool)
    requires TotalPreorder(le)
    ensures Ties(Insert(x, s, le), k, le) == (if le(x, k) && le(k, x) then [x] else []) + Ties(s, k, le)
  {
    if s != [] && !le(x, s[0]) {
      InsertTies(x, s[1..], k, le);
      assert Insert(x, s, le) == [s[0]] + Insert(x, s[1..], le);
      assert ([s[0]] + Insert(x, s[1..], le))[1..] == Insert(x, s[1..], le);
      if le(x, k) && le(k, x) {
        assert !(le(s[0], k) && le(k, s[0]));
      }
    } else if s != [] {
      assert Insert(x, s, le) == [x] + s;
      assert ([x] + s)[1..] == s;
    }
  }

  lemma {:induction false} SortByTies<T(!new)>(s: seq<T>, k: T, le: (T, T) -> bool)
    requires TotalPreorder(le)
    ensures Ties(SortBy(s, le), k, le) == Ties(s, k, le)
  {
    if s != [] {
      SortByTies(s[1..], k, le);
      InsertTies(s[0], SortBy(s[1..], le), k, le);
    }
  }

  /**
   * The result of SortBy is a permutation of its input, ordered by `le`, and stable: the
   * elements tied with any `k` come out in the order they went in, as with Python's `sorted`.
   */
  lemma SortByCorrect<T(!new)>(s: seq<T>, le: (T, T) -> bool)
    requires TotalPreorder(le)
    ensures multiset(SortBy(s, le)) == multiset(s)
    ensures |SortBy(s, le)| == |s|
    ensures SortedBy(SortBy(s, le), le)
    ensures forall k :: Ties(SortBy(s, le), k, le) == Ties(s, k, le)
  {
    SortByPermutes(s, le);
    SortByLength(s, le);
    SortBySorted(s, le);
    forall k ensures Ties(SortBy(s, le), k, le) == Ties(s, k, le) {
      SortByTies(s, k, le);
    }
  }
}
