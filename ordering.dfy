/** Order keys: sorting rows by key, the largest sibling key, and the server's tail-append key. */
module Ordering {
  import opened Entities

  /** The spacing the server leaves after the last sibling when appending. */
  const GAP: real := 1024.0

  /** The keys of a sequence of rows, position by position. */
  function Orders<T>(s: seq<T>, key: T -> real): (r: seq<real>)
    ensures |r| == |s|
    ensures forall i :: 0 <= i < |s| ==> r[i] == key(s[i])
  {
    seq(|s|, i requires 0 <= i < |s| => key(s[i]))
  }

  lemma OrdersAppend<T>(s: seq<T>, x: T, key: T -> real)
    ensures Orders(s + [x], key) == Orders(s, key) + [key(x)]
  {
    assert forall i :: 0 <= i < |s| ==> (s + [x])[i] == s[i];
  }

  ghost predicate SortedBy<T>(s: seq<T>, key: T -> real)
  {
    forall i, j :: 0 <= i < j < |s| ==> key(s[i]) <= key(s[j])
  }

  ghost predicate StrictlyIncreasing(s: seq<real>)
  {
    forall i, j :: 0 <= i < j < |s| ==> s[i] < s[j]
  }

  /** One step of insertion sort: `x` placed into an already sorted sequence. */
  function InsertSorted<T>(x: T, s: seq<T>, key: T -> real): (r: seq<T>)
    requires SortedBy(s, key)
    ensures SortedBy(r, key)
    ensures multiset(r) == multiset(s) + multiset{x}
    ensures |r| == |s| + 1
  {
    if s == [] || key(x) <= key(s[0]) then
      [x] + s
    else
      var rest := InsertSorted(x, s[1..], key);
      assert s == [s[0]] + s[1..];
      forall i | 0 <= i < |rest| ensures key(s[0]) <= key(rest[i]) {
        assert rest[i] in multiset(rest);
        assert rest[i] == x || rest[i] in multiset(s[1..]);
      }
      [s[0]] + rest
  }

  /**
   * The rows ordered ascending by key: what an `orderBy: { ...: 'asc' }` query
   * returns (rows with equal keys may come in either order).
   */
  function SortBy<T>(s: seq<T>, key: T -> real): (r: seq<T>)
    ensures SortedBy(r, key)
    ensures multiset(r) == multiset(s)
    ensures |r| == |s|
  {
    if s == [] then []
    else
      assert s == [s[0]] + s[1..];
      InsertSorted(s[0], SortBy(s[1..], key), key)
  }

  /** The largest key, or None when there is none. */
  function MaxOf(s: seq<real>): (m: Option<real>)
    ensures m.None? <==> s == []
    ensures m.Some? ==> m.value in s && forall i :: 0 <= i < |s| ==> s[i] <= m.value
  {
    if s == [] then None
    else
      match MaxOf(s[1..])
      case None => Some(s[0])
      case Some(t) => Some(if s[0] < t then t else s[0])
  }

  /**
   * The key given to a row appended after its siblings: the largest sibling key
   * plus GAP, or GAP itself when there are no siblings.
   */
  function TailKey(siblings: seq<real>): (k: real)
    ensures forall i :: 0 <= i < |siblings| ==> siblings[i] + GAP <= k
    ensures siblings == [] ==> k == GAP
    ensures siblings != [] ==> k - GAP in siblings
  {
    match MaxOf(siblings)
    case None => GAP
    case Some(m) => m + GAP
  }

  /** The sibling keys after `n` successive tail appends. */
  function TailAppends(siblings: seq<real>, n: nat): seq<real>
    decreases n
  {
    if n == 0 then siblings else TailAppends(siblings + [TailKey(siblings)], n - 1)
  }

  /** GAP, 2 GAP, ..., n GAP. */
  function Multiples(n: nat): (r: seq<real>)
    ensures |r| == n
    ensures forall j :: 0 <= j < n ==> r[j] == (j + 1) as real * GAP
  {
    seq(n, j requires 0 <= j < n => (j + 1) as real * GAP)
  }

  lemma {:induction false} TailKeyOfMultiples(k: nat)
    ensures TailKey(Multiples(k)) == (k + 1) as real * GAP
  {
    var s := Multiples(k);
    if k > 0 {
      var m := MaxOf(s).value;
      assert s[k - 1] <= m;
      var j :| 0 <= j < k && s[j] == m;
      assert m == (j + 1) as real * GAP;
      assert j + 1 <= k;
      assert m == k as real * GAP;
    }
  }

  /** Repeated tail appends from GAP, ..., k GAP continue the multiples of GAP. */
  lemma {:induction false} TailAppendsOfMultiples(k: nat, n: nat)
    ensures TailAppends(Multiples(k), n) == Multiples(k + n)
    decreases n
  {
    if n > 0 {
      TailKeyOfMultiples(k);
      assert Multiples(k) + [TailKey(Multiples(k))] == Multiples(k + 1);
      TailAppendsOfMultiples(k + 1, n - 1);
    }
  }

  /** Appending n rows to an empty parent yields keys GAP, 2 GAP, ..., n GAP. */
  lemma TailAppendsFromEmpty(n: nat)
    ensures TailAppends([], n) == Multiples(n)
    ensures StrictlyIncreasing(TailAppends([], n))
  {
    assert Multiples(0) == [];
    TailAppendsOfMultiples(0, n);
  }
}
