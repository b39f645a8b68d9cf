/**
 * The descending sorts of Backend/src/routes/insights.ts: the statistics route
 * sorts a copy of the expenses by amount, highest first, with
 * `Array.prototype.sort`, which is stable; the analysis route asks the store for
 * the newest expenses first. Both are a stable sort on a numeric key, modelled
 * as insertion of each element after every element whose key is not smaller.
 */
module Sorting {

  predicate Descending<T>(s: seq<T>, key: T -> real)
  {
    forall i, j :: 0 <= i < j < |s| ==> key(s[i]) >= key(s[j])
  }

  /** Puts `x` before the first element whose key is smaller than its own. */
  function Insert<T>(x: T, s: seq<T>, key: T -> real): (r: seq<T>)
    ensures multiset(r) == multiset(s) + multiset{x} && |r| == |s| + 1
    ensures Descending(s, key) ==> Descending(r, key)
  {
    if s == [] then [x]
    else if key(s[0]) < key(x) then [x] + s
    else
      var rest := Insert(x, s[1..], key);
      assert s == [s[0]] + s[1..];
      assert Descending(s, key) ==> Descending([s[0]] + rest, key) by {
        if Descending(s, key) {
          PrependDescending(s[0], x, s[1..], rest, key);
        }
      }
      [s[0]] + rest
  }

  /** Putting an element before a descending sequence of no larger keys keeps it descending. */
  lemma PrependDescending<T>(a: T, x: T, tail: seq<T>, rest: seq<T>, key: T -> real)
    requires Descending([a] + tail, key) && Descending(rest, key) && key(x) <= key(a)
    requires multiset(rest) == multiset(tail) + multiset{x}
    ensures Descending([a] + rest, key)
  {
    forall j | 0 <= j < |rest| ensures key(rest[j]) <= key(a) {
      assert rest[j] in multiset(rest);
      if rest[j] != x {
        assert rest[j] in multiset(tail);
        assert rest[j] in tail;
        var k :| 0 <= k < |tail| && tail[k] == rest[j];
        assert ([a] + tail)[0] == a && ([a] + tail)[k + 1] == rest[j];
      }
    }
    var r := [a] + rest;
    forall i, j | 0 <= i < j < |r| ensures key(r[i]) >= key(r[j]) {
      assert r[j] == rest[j - 1];
      if i > 0 {
        assert r[i] == rest[i - 1];
      }
    }
  }

  /** A stable sort on `key`, highest first. */
  function SortDesc<T>(s: seq<T>, key: T -> real): (r: seq<T>)
    ensures multiset(r) == multiset(s) && |r| == |s|
    ensures Descending(r, key)
  {
    if s == [] then []
    else
      assert s == s[..|s| - 1] + [s[|s| - 1]];
      Insert(s[|s| - 1], SortDesc(s[..|s| - 1], key), key)
  }

  /** The first index holding a largest key. */
  function FirstMaxIndex<T>(s: seq<T>, key: T -> real): (i: nat)
    requires |s| > 0
    ensures i < |s|
    ensures forall j :: 0 <= j < |s| ==> key(s[j]) <= key(s[i])
    ensures forall j :: 0 <= j < i ==> key(s[j]) < key(s[i])
  {
    if |s| == 1 then 0
    else
      var i := FirstMaxIndex(s[..|s| - 1], key);
      assert s[i] == s[..|s| - 1][i];
      if key(s[|s| - 1]) > key(s[i]) then |s| - 1 else i
  }

  /** The last index holding a smallest key. */
  function LastMinIndex<T>(s: seq<T>, key: T -> real): (i: nat)
    requires |s| > 0
    ensures i < |s|
    ensures forall j :: 0 <= j < |s| ==> key(s[i]) <= key(s[j])
    ensures forall j :: i < j < |s| ==> key(s[i]) < key(s[j])
  {
    if |s| == 1 then 0
    else
      var i := LastMinIndex(s[..|s| - 1], key);
      assert s[i] == s[..|s| - 1][i];
      if key(s[|s| - 1]) <= key(s[i]) then |s| - 1 else i
  }

  /** The head after inserting: `x` if its key beats the old head's. */
  lemma InsertHead<T>(x: T, s: seq<T>, key: T -> real)
    requires |s| > 0
    ensures Insert(x, s, key)[0] == if key(s[0]) < key(x) then x else s[0]
  {
  }

  /** The last element after inserting into a descending sequence: `x` unless its key beats the old last one's. */
  lemma {:induction false} InsertLast<T>(x: T, s: seq<T>, key: T -> real)
    requires |s| > 0 && Descending(s, key)
    ensures var r := Insert(x, s, key);
            r[|r| - 1] == if key(x) <= key(s[|s| - 1]) then x else s[|s| - 1]
  {
    if key(s[0]) < key(x) {
    } else if |s| > 1 {
      InsertLast(x, s[1..], key);
    }
  }

  /** Sorting puts the first of the largest elements at the front (stability). */
  lemma {:induction false} SortHead<T>(s: seq<T>, key: T -> real)
    requires |s| > 0
    ensures SortDesc(s, key)[0] == s[FirstMaxIndex(s, key)]
  {
    if |s| > 1 {
      var init := s[..|s| - 1];
      SortHead(init, key);
      InsertHead(s[|s| - 1], SortDesc(init, key), key);
      assert s[FirstMaxIndex(init, key)] == init[FirstMaxIndex(init, key)];
    }
  }

  /** Sorting puts the last of the smallest elements at the end (stability). */
  lemma {:induction false} SortLast<T>(s: seq<T>, key: T -> real)
    requires |s| > 0
    ensures SortDesc(s, key)[|s| - 1] == s[LastMinIndex(s, key)]
  {
    if |s| > 1 {
      var init := s[..|s| - 1];
      SortLast(init, key);
      InsertLast(s[|s| - 1], SortDesc(init, key), key);
      assert s[LastMinIndex(init, key)] == init[LastMinIndex(init, key)];
    }
  }

  /**
   * The first `n` elements of a descending sort and the rest: together they are
   * the input, the first part is in order, and no left-out element has a larger
   * key than a kept one.
   */
  lemma TopOfSort<T>(s: seq<T>, key: T -> real, n: nat)
    requires n <= |s|
    ensures var kept, left := SortDesc(s, key)[..n], SortDesc(s, key)[n..];
            && |kept| == n && Descending(kept, key)
            && multiset(kept) + multiset(left) == multiset(s)
            && forall x, y :: x in left && y in kept ==> key(x) <= key(y)
  {
    var sorted := SortDesc(s, key);
    var kept, left := sorted[..n], sorted[n..];
    assert sorted == kept + left;
    forall x, y | x in left && y in kept ensures key(x) <= key(y) {
      var j :| 0 <= j < |left| && left[j] == x;
      var i :| 0 <= i < |kept| && kept[i] == y;
      assert sorted[n + j] == x && sorted[i] == y;
    }
  }
}
