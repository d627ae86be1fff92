/**
 Lists with a single-pointer head.  Each node knows the slot that points at it, so it
 can be unlinked without knowing the list it is on.
 */
module HashList {
  import opened Sequences

  /** `struct hlist_node **`: a head's `first` field or a node's `next` field. */
  datatype Slot = Unhashed | First(h: Head) | Next(n: Node)

  class Head {
    var first: Node?

    constructor ()
      ensures first == null
    {
      first := null;
    }
  }

  class Node {
    var next: Node?
    var pprev: Slot

    constructor ()
      ensures next == null && pprev == Unhashed
    {
      next := null;
      pprev := Unhashed;
    }
  }

  /** `h` is the head of the chain `q`, and every `pprev` names the slot before it. */
  ghost predicate Chain(h: Head, q: seq<Node>)
    reads h, q
  {
    && Distinct(q)
    && h.first == (if q == [] then null else q[0])
    && (forall i {:trigger q[i].next} :: 0 <= i < |q| ==> q[i].next == if i + 1 < |q| then q[i + 1] else null)
    && (forall i {:trigger q[i].pprev} :: 0 <= i < |q| ==> q[i].pprev == if i == 0 then First(h) else Next(q[i - 1]))
  }

  /** `*slot = n`. */
  method Store(slot: Slot, n: Node?)
    requires !slot.Unhashed?
    modifies if slot.First? then {slot.h} else {}, if slot.Next? then {slot.n} else {}
    ensures slot.First? ==> slot.h.first == n
    ensures slot.Next? ==> slot.n.next == n && slot.n.pprev == old(slot.n.pprev)
  {
    match slot
    case First(h) => h.first := n;
    case Next(p) => p.next := n;
  }

  /** `hlist_unhashed` of a node on a chain is false. */
  lemma Hashed(h: Head, q: seq<Node>, k: nat)
    requires Chain(h, q) && k < |q|
    ensures !q[k].pprev.Unhashed?
  {
    assert q[k].pprev == if k == 0 then First(h) else Next(q[k - 1]);
  }

  /** `hlist_add_head`. */
  method AddHead(n: Node, h: Head, ghost q: seq<Node>)
    requires Chain(h, q) && n !in q
    modifies n, h, if h.first != null then {h.first} else {}
    ensures Chain(h, [n] + q)
  {
    var first := h.first;
    n.next := first;
    if first != null {
      first.pprev := Next(n);
    }
    h.first := n;
    n.pprev := First(h);
    ghost var u := [n] + q;
    assert forall i :: 0 <= i < |q| ==> u[i + 1] == q[i];
  }

  /** The links that removing entry `k` keeps, by position in the result. */
  lemma RemoveLinks(h: Head, q: seq<Node>, k: nat)
    requires Chain(h, q) && k < |q|
    ensures
      var u := Remove(q, k);
      && Distinct(u) && q[k] !in u
      && q[k].next == (if k < |u| then u[k] else null)
      && q[k].pprev == (if k == 0 then First(h) else Next(u[k - 1]))
      && (k > 0 ==> h.first == u[0])
      && (forall i {:trigger u[i].next} :: 0 <= i < |u| && i != k - 1 ==>
            u[i].next == if i + 1 < |u| then u[i + 1] else null)
      && (forall i {:trigger u[i].pprev} :: 0 <= i < |u| && i != k ==>
            u[i].pprev == if i == 0 then First(h) else Next(u[i - 1]))
  {
    RemoveAt(q, k);
    var u := Remove(q, k);
    assert forall i :: 0 <= i < |u| ==> u[i] == q[if i < k then i else i + 1];
  }

  /** `__hlist_del`: unlink through the slot. */
  method Unlink(n: Node, h: Head, ghost q: seq<Node>, ghost k: nat)
    requires Chain(h, q) && k < |q| && q[k] == n
    modifies h, q
    ensures Chain(h, Remove(q, k))
    ensures n.next == old(n.next) && n.pprev == old(n.pprev)
  {
    RemoveLinks(h, q, k);
    var next := n.next;
    var pprev := n.pprev;
    Store(pprev, next);
    if next != null {
      next.pprev := pprev;
    }
  }

  /** `hlist_del_init`: a node that is on no chain is left alone. */
  method DelInit(n: Node, h: Head, ghost q: seq<Node>, ghost k: nat)
    requires Chain(h, q) && (if k < |q| then q[k] == n else n !in q && n.pprev.Unhashed?)
    modifies n, h, q
    ensures Chain(h, if k < |q| then Remove(q, k) else q)
    ensures n.pprev.Unhashed? && n.next == if k < |q| then null else old(n.next)
  {
    if k < |q| {
      Hashed(h, q, k);
      RemoveAt(q, k);
    }
    if !n.pprev.Unhashed? {
      Unlink(n, h, q, k);
      n.next := null;
      n.pprev := Unhashed;
    }
  }

  /** The links that inserting a node at position `k` keeps, by position in the result. */
  lemma InsertLinks(h: Head, q: seq<Node>, k: nat, n: Node)
    requires Chain(h, q) && k <= |q| && n !in q
    ensures
      var u := Insert(q, k, n);
      && |u| == |q| + 1 && Distinct(u) && u[k] == n
      && (k > 0 ==> h.first == u[0])
      && (0 < k == |q| ==> u[k - 1].next == null)
      && (k < |q| ==> u[k + 1].pprev == if k == 0 then First(h) else Next(u[k - 1]))
      && (0 < k < |q| ==> u[k - 1].next == u[k + 1])
      && (forall i {:trigger u[i].next} :: 0 <= i < |u| && i != k - 1 && i != k ==>
            u[i].next == if i + 1 < |u| then u[i + 1] else null)
      && (forall i {:trigger u[i].pprev} :: 0 <= i < |u| && i != k && i != k + 1 ==>
            u[i].pprev == if i == 0 then First(h) else Next(u[i - 1]))
  {
    InsertAt(q, k, n);
    var u := Insert(q, k, n);
    assert forall i :: 0 <= i < |u| ==> u[i] == if i < k then q[i] else if i == k then n else q[i - 1];
  }

  /** `hlist_add_before`. */
  method AddBefore(n: Node, next: Node, h: Head, ghost q: seq<Node>, ghost k: nat)
    requires Chain(h, q) && k < |q| && q[k] == next && n !in q
    modifies n, h, q
    ensures Chain(h, Insert(q, k, n))
  {
    InsertLinks(h, q, k, n);
    ghost var u := Insert(q, k, n);
    assert u[k + 1] == next;
    n.pprev := next.pprev;
    n.next := next;
    next.pprev := Next(n);
    Store(n.pprev, n);
  }

  /** `hlist_add_after`: `next` goes after `n`. */
  method AddAfter(n: Node, next: Node, h: Head, ghost q: seq<Node>, ghost k: nat)
    requires Chain(h, q) && k < |q| && q[k] == n && next !in q
    modifies next, q
    ensures Chain(h, Insert(q, k + 1, next))
  {
    InsertLinks(h, q, k + 1, next);
    ghost var u := Insert(q, k + 1, next);
    assert u[k] == n && (k + 1 < |q| ==> u[k + 2] == q[k + 1]);
    next.next := n.next;
    n.next := next;
    next.pprev := Next(n);
    if next.next != null {
      next.next.pprev := Next(next);
    }
  }
}
