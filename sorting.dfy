/** `Array.prototype.sort` with a numeric comparator, which ECMAScript requires
    to be stable, modelled as a stable insertion sort ascending by an integer
    key. Sorting newest-first is sorting by the negated timestamp. */
module Sorting {

  ghost predicate SortedBy<T>(s: seq<T>, key: T -> int) {
    forall i, j :: 0 <= i < j < |s| ==> key(s[i]) <= key(s[j])
  }

  /** Every pair of positions i < j of `s` satisfies `ok`. */
  ghost predicate Pairwise<T>(s: seq<T>, ok: (T, T) -> bool) {
    forall i, j :: 0 <= i < j < |s| ==> ok(s[i], s[j])
  }

  /** Inserts `x` before the first element whose key is not smaller, so that
      `x` stays ahead of the elements with an equal key that come after it. */
  function Insert<T>(x: T, s: seq<T>, key: T -> int): (r: seq<T>)
    ensures |r| == |s| + 1
    ensures multiset(r) == multiset(s) + multiset{x}
    ensures forall y | y in r :: y == x || y in s
    ensures x in r && forall y | y in s :: y in r
  {
    if s == [] || key(x) <= key(s[0]) then [x] + s
    else
      assert s == [s[0]] + s[1..];
      [s[0]] + Insert(x, s[1..], key)
  }

  /** Inserting into a sorted sequence keeps it sorted. */
  lemma {:induction false} InsertSorted<T>(x: T, s: seq<T>, key: T -> int)
    requires SortedBy(s, key)
    ensures SortedBy(Insert(x, s, key), key)
  {
    if s != [] && key(x) > key(s[0]) {
      var rest := Insert(x, s[1..], key);
      InsertSorted(x, s[1..], key);
      forall k | 0 <= k < |rest| ensures key(s[0]) <= key(rest[k]) {
        assert rest[k] in rest;
        if rest[k] != x {
          var j :| 0 <= j < |s[1..]| && s[1..][j] == rest[k];
          assert s[j + 1] == rest[k];
        }
      }
    }
  }

  function Sort<T>(s: seq<T>, key: T -> int): (r: seq<T>)
    ensures |r| == |s|
    ensures multiset(r) == multiset(s)
    ensures forall y | y in r :: y in s
    ensures forall y | y in s :: y in r
    ensures SortedBy(r, key)
  {
    if s == [] then []
    else
      assert s == [s[0]] + s[1..];
      InsertSorted(s[0], Sort(s[1..], key), key);
      Insert(s[0], Sort(s[1..], key), key)
  }

  /** The first element of `s` whose key is the smallest. */
  function FirstMin<T>(s: seq<T>, key: T -> int): (m: T)
    requires s != []
    ensures m in s && forall y | y in s :: key(m) <= key(y)
  {
    if |s| == 1 then s[0]
    else
      var m := FirstMin(s[1..], key);
      assert forall y | y in s :: y == s[0] || y in s[1..];
      if key(s[0]) <= key(m) then s[0] else m
  }

  /** The sort is stable, so its first element is the first of the smallest keys. */
  lemma {:induction false} SortHead<T>(s: seq<T>, key: T -> int)
    requires s != []
    ensures Sort(s, key)[0] == FirstMin(s, key)
  {
    if |s| > 1 {
      SortHead(s[1..], key);
    }
  }

  lemma {:induction false} InsertPreservesPairwise<T>(x: T, s: seq<T>, key: T -> int, ok: (T, T) -> bool)
    requires Pairwise(s, ok)
    requires forall y :: y in s ==> ok(x, y) && ok(y, x)
    ensures Pairwise(Insert(x, s, key), ok)
  {
    if s == [] || key(x) <= key(s[0]) {
    } else {
      var rest := Insert(x, s[1..], key);
      InsertPreservesPairwise(x, s[1..], key, ok);
      forall y | y in rest ensures ok(s[0], y) {
        assert y in multiset(rest);
        if y != x {
          assert y in multiset(s[1..]);
          var k :| 0 <= k < |s[1..]| && s[1..][k] == y;
          assert s[k + 1] == y;
        }
      }
    }
  }

  /** Sorting keeps every pairwise property that is symmetric, so object invariants
      stated over pairs of positions survive an in-place sort. */
  lemma {:induction false} SortPreservesPairwise<T>(s: seq<T>, key: T -> int, ok: (T, T) -> bool)
    requires Pairwise(s, ok)
    requires forall x, y :: ok(x, y) ==> ok(y, x)
    ensures Pairwise(Sort(s, key), ok)
  {
    if s != [] {
      assert Pairwise(s[1..], ok);
      SortPreservesPairwise(s[1..], key, ok);
      var sorted := Sort(s[1..], key);
      forall y | y in sorted ensures ok(s[0], y) && ok(y, s[0]) {
        assert y in multiset(sorted);
        assert y in multiset(s[1..]);
        var k :| 0 <= k < |s[1..]| && s[1..][k] == y;
        assert s[k + 1] == y;
      }
      InsertPreservesPairwise(s[0], sorted, key, ok);
    }
  }
}
