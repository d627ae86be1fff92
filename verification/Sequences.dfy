/** Sequences without repeats, and changing one at a position. */
module Sequences {

  ghost predicate Distinct<T>(q: seq<T>) {
    forall i, j :: 0 <= i < j < |q| ==> q[i] != q[j]
  }

  function Elements<T(==)>(q: seq<T>): set<T> {
    set x | x in q
  }

  lemma {:induction false} CountElements<T>(q: seq<T>)
    requires Distinct(q)
    ensures |Elements(q)| == |q|
  {
    if q != [] {
      CountElements(q[1..]);
      assert q == [q[0]] + q[1..];
      assert Elements(q) == {q[0]} + Elements(q[1..]);
    }
  }

  /** Where `x` first is in `q`. */
  function IndexOf<T(==)>(q: seq<T>, x: T): (i: nat)
    requires x in q
    ensures i < |q| && q[i] == x
  {
    if q[0] == x then 0 else 1 + IndexOf(q[1..], x)
  }

  function Insert<T>(q: seq<T>, k: nat, x: T): seq<T>
    requires k <= |q|
  {
    q[..k] + [x] + q[k..]
  }

  function Remove<T>(q: seq<T>, k: nat): seq<T>
    requires k < |q|
  {
    q[..k] + q[k + 1..]
  }

  lemma InsertAt<T>(q: seq<T>, k: nat, x: T)
    requires k <= |q| && Distinct(q) && x !in q
    ensures
      var u := Insert(q, k, x);
      && |u| == |q| + 1 && Distinct(u)
      && forall i :: 0 <= i < |u| ==> u[i] == if i < k then q[i] else if i == k then x else q[i - 1]
  {}

  lemma RemoveAt<T>(q: seq<T>, k: nat)
    requires k < |q| && Distinct(q)
    ensures
      var u := Remove(q, k);
      && |u| == |q| - 1 && Distinct(u) && q[k] !in u
      && forall i :: 0 <= i < |u| ==> u[i] == q[if i < k then i else i + 1]
  {
    var u := Remove(q, k);
    assert forall i :: 0 <= i < |u| ==> u[i] == q[if i < k then i else i + 1];
  }
}
