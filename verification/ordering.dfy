/** Ordering of query results by a numeric key, newest first: the model of a
    store-side `.sort({ field: -1 })` and `.limit(n)`. */
module Ordering {

  /** `s` is ordered by `key`, largest first. */
  ghost predicate SortedDesc<T>(s: seq<T>, key: T -> int)
  {
    forall i, j :: 0 <= i < j < |s| ==> key(s[i]) >= key(s[j])
  }

  /** `s` is ordered by `key`, strictly increasing: the order in which a
      store with a monotonic clock holds its records. */
  ghost predicate StrictlyAscending<T>(s: seq<T>, key: T -> int)
  {
    forall i, j :: 0 <= i < j < |s| ==> key(s[i]) < key(s[j])
  }

  /** Places `x` before the first element of `r` whose key is smaller. */
  function Insert<T>(x: T, r: seq<T>, key: T -> int): (s: seq<T>)
    ensures |s| == |r| + 1
    ensures multiset(s) == multiset(r) + multiset{x}
    ensures forall i :: 0 <= i < |s| ==> s[i] == x || s[i] in r
  {
    if r == [] then [x]
    else if key(x) >= key(r[0]) then [x] + r
    else
      assert r == [r[0]] + r[1..];
      [r[0]] + Insert(x, r[1..], key)
  }

  /** Insertion sort, largest key first; elements with equal keys keep
      their relative order. */
  function SortDesc<T>(s: seq<T>, key: T -> int): (r: seq<T>)
    ensures |r| == |s|
    ensures multiset(r) == multiset(s)
    ensures SortedDesc(r, key)
  {
    if s == [] then []
    else
      assert s == [s[0]] + s[1..];
      var rest := SortDesc(s[1..], key);
      InsertSorted(s[0], rest, key);
      Insert(s[0], rest, key)
  }

  /** Inserting into an ordered sequence keeps it ordered. */
  lemma {:induction false} InsertSorted<T>(x: T, r: seq<T>, key: T -> int)
    requires SortedDesc(r, key)
    ensures SortedDesc(Insert(x, r, key), key)
  {
    if r != [] && key(x) < key(r[0]) {
      var tail := r[1..];
      InsertSorted(x, tail, key);
      var t := Insert(x, tail, key);
      forall i | 0 <= i < |t| ensures key(r[0]) >= key(t[i]) {
        if t[i] != x {
          var j :| 0 <= j < |tail| && tail[j] == t[i];
          assert tail[j] == r[j + 1];
        }
      }
      assert Insert(x, r, key) == [r[0]] + t;
    }
  }

  function Reverse<T>(s: seq<T>): (r: seq<T>)
    ensures |r| == |s|
    ensures forall i :: 0 <= i < |s| ==> r[i] == s[|s| - 1 - i]
  {
    if s == [] then [] else Reverse(s[1..]) + [s[0]]
  }

  /** The first `n` elements of `s`, or all of them when there are fewer. */
  function Take<T>(s: seq<T>, n: nat): (r: seq<T>)
    ensures r <= s
    ensures |r| == if |s| <= n then |s| else n
  {
    if |s| <= n then s else s[..n]
  }

  /** An element whose key is below every key of `r` goes last. */
  lemma {:induction false} InsertSmallest<T>(x: T, r: seq<T>, key: T -> int)
    requires forall i :: 0 <= i < |r| ==> key(x) < key(r[i])
    ensures Insert(x, r, key) == r + [x]
  {
    if r != [] {
      InsertSmallest(x, r[1..], key);
      assert [r[0]] + (r[1..] + [x]) == r + [x];
    }
  }

  /** Sorting records held oldest first yields them newest first: on such
      input the sort is a reversal. */
  lemma {:induction false} SortDescOfAscending<T>(s: seq<T>, key: T -> int)
    requires StrictlyAscending(s, key)
    ensures SortDesc(s, key) == Reverse(s)
  {
    if s != [] {
      var tail := s[1..];
      assert StrictlyAscending(tail, key) by {
        forall i, j | 0 <= i < j < |tail| ensures key(tail[i]) < key(tail[j]) {
          assert tail[i] == s[i + 1] && tail[j] == s[j + 1];
        }
      }
      SortDescOfAscending(tail, key);
      var rt := Reverse(tail);
      forall i | 0 <= i < |rt| ensures key(s[0]) < key(rt[i]) {
        assert rt[i] == s[|tail| - i];
      }
      InsertSmallest(s[0], rt, key);
    }
  }

  lemma AscendingTail<T>(s: seq<T>, key: T -> int)
    requires s != [] && StrictlyAscending(s, key)
    ensures StrictlyAscending(s[1..], key)
  {
    var tail := s[1..];
    forall i, j | 0 <= i < j < |tail| ensures key(tail[i]) < key(tail[j]) {
      assert tail[i] == s[i + 1] && tail[j] == s[j + 1];
    }
  }

  lemma AscendingCons<T>(x: T, s: seq<T>, key: T -> int)
    requires StrictlyAscending(s, key)
    requires forall k :: 0 <= k < |s| ==> key(x) < key(s[k])
    ensures StrictlyAscending([x] + s, key)
  {
    var r := [x] + s;
    forall i, j | 0 <= i < j < |r| ensures key(r[i]) < key(r[j]) {
      assert r[j] == s[j - 1];
      if i > 0 { assert r[i] == s[i - 1]; }
    }
  }
}
