/** Sequence primitives the JavaScript code relies on: `splice` and `findIndex`. */
module Seqs {

  /** `s.splice(i, 1)`: the sequence without its element at `i`. */
  function RemoveAt<T>(s: seq<T>, i: nat): (r: seq<T>)
    requires i < |s|
    ensures |r| == |s| - 1
    ensures forall k :: 0 <= k < i ==> r[k] == s[k]
    ensures forall k :: i <= k < |r| ==> r[k] == s[k + 1]
  {
    s[..i] + s[i + 1..]
  }

  /** `s.splice(i, 0, x)`: the sequence with `x` inserted so that it sits at `i`. */
  function InsertAt<T>(s: seq<T>, i: nat, x: T): (r: seq<T>)
    requires i <= |s|
    ensures |r| == |s| + 1
    ensures r[i] == x
    ensures forall k :: 0 <= k < i ==> r[k] == s[k]
    ensures forall k :: i < k < |r| ==> r[k] == s[k - 1]
    ensures RemoveAt(r, i) == s
  {
    assert s == s[..i] + s[i..];
    s[..i] + [x] + s[i..]
  }

  /** Inserting the removed element back at its position gives back the original. */
  lemma {:induction false} InsertAfterRemove<T>(s: seq<T>, i: nat)
    requires i < |s|
    ensures InsertAt(RemoveAt(s, i), i, s[i]) == s
  {
    var r := InsertAt(RemoveAt(s, i), i, s[i]);
    assert |r| == |s|;
    forall k | 0 <= k < |s| ensures r[k] == s[k] {
      if k < i {
        assert r[k] == RemoveAt(s, i)[k];
      } else if k > i {
        assert r[k] == RemoveAt(s, i)[k - 1];
      }
    }
  }

  /** `s.findIndex(e => idOf(e) === id)`: the first position holding `id`, or -1. */
  function FindIndex<T>(s: seq<T>, id: string, idOf: T -> string): (i: int)
    ensures -1 <= i < |s|
    ensures i == -1 <==> forall k :: 0 <= k < |s| ==> idOf(s[k]) != id
    ensures 0 <= i ==> idOf(s[i]) == id && forall k :: 0 <= k < i ==> idOf(s[k]) != id
  {
    if s == [] then -1
    else if idOf(s[0]) == id then 0
    else
      var j := FindIndex(s[1..], id, idOf);
      if j == -1 then -1 else j + 1
  }

  /** No two elements share an id: the primary-key constraint of a table. */
  ghost predicate UniqueIds<T>(s: seq<T>, idOf: T -> string)
  {
    forall i, j :: 0 <= i < j < |s| ==> idOf(s[i]) != idOf(s[j])
  }
}
