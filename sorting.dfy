/**
 * `Array.prototype.sort` with a comparator `(a, b) => key(b) - key(a)`: a
 * stable sort into non-increasing order of a natural-number key. The code sorts
 * the language statistics by bytes and the candidate projects by score this way.
 */
module Sorting {
  /** Ordered by `key`, largest first. */
  predicate SortedDesc<T>(s: seq<T>, key: T -> nat) {
    forall i, j :: 0 <= i < j < |s| ==> key(s[i]) >= key(s[j])
  }

  /** Puts `x` in front of the first element whose key is no larger than its own. */
  function Insert<T(==,!new)>(x: T, t: seq<T>, key: T -> nat): (r: seq<T>)
    ensures |r| == |t| + 1
    ensures forall y :: y in r <==> y == x || y in t
    ensures SortedDesc(t, key) ==> SortedDesc(r, key)
  {
    if t == [] || key(x) >= key(t[0]) then [x] + t
    else
      var rest := Insert(x, t[1..], key);
      assert SortedDesc(t, key) ==> forall y :: y in t[1..] ==> key(t[0]) >= key(y);
      assert forall k :: 0 <= k < |rest| ==> rest[k] in rest;
      [t[0]] + rest
  }

  /** The sorted list: ordered by `key`, of the same length and with the same elements. */
  function SortDesc<T(==,!new)>(s: seq<T>, key: T -> nat): (r: seq<T>)
    ensures SortedDesc(r, key)
    ensures |r| == |s|
    ensures forall y :: y in r <==> y in s
  {
    if s == [] then [] else Insert(s[0], SortDesc(s[1..], key), key)
  }

  /** Inserting keeps the elements a multiset: nothing is duplicated or lost. */
  lemma {:induction false} InsertPermutes<T(!new)>(x: T, t: seq<T>, key: T -> nat)
    ensures multiset(Insert(x, t, key)) == multiset(t) + multiset{x}
  {
    if t != [] && key(x) < key(t[0]) {
      InsertPermutes(x, t[1..], key);
      assert t == [t[0]] + t[1..];
    }
  }

  /** The sorted list is a permutation of the input. */
  lemma {:induction false} SortPermutes<T(!new)>(s: seq<T>, key: T -> nat)
    ensures multiset(SortDesc(s, key)) == multiset(s)
  {
    if s != [] {
      var sorted := SortDesc(s[1..], key);
      SortPermutes(s[1..], key);
      InsertPermutes(s[0], sorted, key);
      assert SortDesc(s, key) == Insert(s[0], sorted, key);
      assert s == [s[0]] + s[1..];
      assert multiset(s) == multiset{s[0]} + multiset(s[1..]);
    }
  }

  /** The elements of `s` whose key is `b`, in their order in `s`. */
  function WithKey<T>(s: seq<T>, key: T -> nat, b: nat): seq<T> {
    if s == [] then []
    else (if key(s[0]) == b then [s[0]] else []) + WithKey(s[1..], key, b)
  }

  lemma {:induction false} InsertKeepsTies<T(!new)>(x: T, t: seq<T>, key: T -> nat, b: nat)
    ensures WithKey(Insert(x, t, key), key, b) == (if key(x) == b then [x] else []) + WithKey(t, key, b)
  {
    var r := Insert(x, t, key);
    if t == [] || key(x) >= key(t[0]) {
      assert r[1..] == t;
    } else {
      var rest := Insert(x, t[1..], key);
      InsertKeepsTies(x, t[1..], key, b);
      assert r[0] == t[0] && r[1..] == rest;
      assert WithKey(r, key, b) == (if key(t[0]) == b then [t[0]] else []) + WithKey(rest, key, b);
      // x and t[0] have different keys, so at most one of them is kept
      if key(x) == b {
        assert key(t[0]) != b;
      } else {
        assert WithKey(rest, key, b) == WithKey(t[1..], key, b);
      }
    }
  }

  /** The sort is stable: elements with equal keys keep their relative order. */
  lemma {:induction false} SortIsStable<T(!new)>(s: seq<T>, key: T -> nat, b: nat)
    ensures WithKey(SortDesc(s, key), key, b) == WithKey(s, key, b)
  {
    if s != [] {
      SortIsStable(s[1..], key, b);
      InsertKeepsTies(s[0], SortDesc(s[1..], key), key, b);
    }
  }
}
