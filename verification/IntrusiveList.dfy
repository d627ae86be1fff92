/**
 Circular doubly linked lists threaded through the entries themselves.

 A ring is a sequence of heads whose `next` and `prev` pointers go round it.  A
 list is a ring whose first element is the list's own head.  Poisoned pointers are
 null here, so following one is a proof failure.
 */
module IntrusiveList {
  import opened Sequences

  /** `struct list_head`; `pid` stands for the structure `container_of` recovers. */
  class ListHead {
    var next: ListHead?
    var prev: ListHead?
    const pid: int

    /** A freshly allocated entry, on no list. */
    constructor (pid: int)
      ensures this.pid == pid && next == null && prev == null
    {
      this.pid := pid;
      next := null;
      prev := null;
    }
  }

  /** The pointers of `r` go round `r`, both ways. */
  ghost predicate Ring(r: seq<ListHead>)
    reads r
  {
    && |r| > 0 && Distinct(r)
    && (forall i {:trigger r[i].next} :: 0 <= i < |r| ==> r[i].next == r[if i + 1 < |r| then i + 1 else 0])
    && (forall i {:trigger r[i].prev} :: 0 <= i < |r| ==> r[i].prev == r[if i > 0 then i - 1 else |r| - 1])
  }

  /** `head` is the head of a list whose entries are `q`, first to last. */
  ghost predicate List(head: ListHead, q: seq<ListHead>)
    reads head, q
  {
    Ring([head] + q)
  }

  /** Two rings through the same head agree as far as both go. */
  lemma {:induction false} SameAt(a: seq<ListHead>, b: seq<ListHead>, i: nat)
    requires Ring(a) && Ring(b) && a[0] == b[0] && i < |a| && i < |b|
    ensures a[i] == b[i]
  {
    if i > 0 {
      SameAt(a, b, i - 1);
      assert a[i - 1].next == a[i] && b[i - 1].next == b[i];
    }
  }

  lemma NotLonger(a: seq<ListHead>, b: seq<ListHead>)
    requires Ring(a) && Ring(b) && a[0] == b[0]
    ensures |b| <= |a|
  {
    if |a| < |b| {
      var last := |a| - 1;
      assert a[last].next == a[0] && b[last].next == b[last + 1];
      SameAt(a, b, last);
    }
  }

  /** What a head's list holds is determined by memory. */
  lemma ListUnique(head: ListHead, p: seq<ListHead>, q: seq<ListHead>)
    requires List(head, p) && List(head, q)
    ensures p == q
  {
    var a, b := [head] + p, [head] + q;
    NotLonger(a, b);
    NotLonger(b, a);
    forall i | 0 <= i < |p| ensures p[i] == q[i] { SameAt(a, b, i + 1); }
  }

  /** `INIT_LIST_HEAD`. */
  method Init(head: ListHead)
    modifies head
    ensures List(head, [])
  {
    head.next := head;
    head.prev := head;
  }

  /** `list_empty`. */
  method Empty(head: ListHead, ghost q: seq<ListHead>) returns (b: bool)
    requires List(head, q)
    ensures b <==> q == []
  {
    assert ([head] + q)[0] == head;
    b := head.next == head;
    assert q != [] ==> ([head] + q)[1] == q[0];
  }

  // ------------------------------------------------------------ on whole rings

  /** `__list_add`: insert between two consecutive heads. */
  method AddBetween(n: ListHead, prev: ListHead, next: ListHead, ghost r: seq<ListHead>, ghost k: nat)
    requires Ring(r) && n !in r && 0 < k <= |r|
    requires prev == r[k - 1] && next == r[if k < |r| then k else 0]
    modifies n, prev, next
    ensures Ring(Insert(r, k, n))
  {
    ghost var u := Insert(r, k, n);
    InsertAt(r, k, n);
    next.prev := n;
    n.next := next;
    n.prev := prev;
    prev.next := n;
    forall i {:trigger u[i].next} | 0 <= i < |u| ensures u[i].next == u[if i + 1 < |u| then i + 1 else 0] {
      assert u[i] == if i < k then r[i] else if i == k then n else r[i - 1];
    }
    forall i {:trigger u[i].prev} | 0 <= i < |u| ensures u[i].prev == u[if i > 0 then i - 1 else |u| - 1] {
      assert u[i] == if i < k then r[i] else if i == k then n else r[i - 1];
    }
  }

  /** `__list_del`: make two heads one apart point to each other. */
  method DelBetween(prev: ListHead, next: ListHead, ghost r: seq<ListHead>, ghost k: nat)
    requires Ring(r) && 0 < k < |r|
    requires prev == r[k - 1] && next == r[if k + 1 < |r| then k + 1 else 0]
    modifies prev, next
    ensures Ring(Remove(r, k))
    ensures r[k].next == old(r[k].next) && r[k].prev == old(r[k].prev)
  {
    ghost var u := Remove(r, k);
    RemoveAt(r, k);
    next.prev := prev;
    prev.next := next;
    forall i {:trigger u[i].next} | 0 <= i < |u| ensures u[i].next == u[if i + 1 < |u| then i + 1 else 0] {
      ghost var j := if i < k then i else i + 1;
      assert u[i] == r[j] && (j == k - 1 || r[j] != prev);
      assert old(r[j].next) == r[if j + 1 < |r| then j + 1 else 0];
    }
    forall i {:trigger u[i].prev} | 0 <= i < |u| ensures u[i].prev == u[if i > 0 then i - 1 else |u| - 1] {
      ghost var j := if i < k then i else i + 1;
      assert u[i] == r[j];
      assert old(r[j].prev) == r[if j > 0 then j - 1 else |r| - 1];
    }
  }

  // ----------------------------------------------------------------- on lists

  /** `list_add`. */
  method Add(n: ListHead, head: ListHead, ghost q: seq<ListHead>)
    requires List(head, q) && n !in [head] + q
    modifies n, head, head.next
    ensures List(head, [n] + q)
  {
    ghost var r := [head] + q;
    assert r[0] == head;
    AddBetween(n, head, head.next, r, 1);
    assert Insert(r, 1, n) == [head] + ([n] + q);
  }

  /** `list_add_tail`. */
  method AddTail(n: ListHead, head: ListHead, ghost q: seq<ListHead>)
    requires List(head, q) && n !in [head] + q
    modifies n, head, head.prev
    ensures List(head, q + [n])
  {
    ghost var r := [head] + q;
    assert r[0] == head;
    AddBetween(n, head.prev, head, r, |r|);
    assert Insert(r, |r|, n) == [head] + (q + [n]);
  }

  lemma RemoveEntry(head: ListHead, q: seq<ListHead>, k: nat)
    requires k < |q| && Distinct([head] + q)
    ensures Remove([head] + q, k + 1) == [head] + Remove(q, k)
    ensures forall x :: x in [head] + Remove(q, k) ==> x in [head] + q && x != q[k]
  {
    var r, u := [head] + q, [head] + Remove(q, k);
    assert forall i :: 0 <= i < |u| ==> u[i] == r[if i <= k then i else i + 1];
    assert r[k + 1] == q[k];
  }

  /** `__list_del(e->prev, e->next)`: what `list_del` and `list_move` have in common. */
  method Unlink(e: ListHead, head: ListHead, ghost q: seq<ListHead>, ghost k: nat)
    requires List(head, q) && k < |q| && q[k] == e
    modifies e.prev, e.next
    ensures List(head, Remove(q, k)) && e !in [head] + Remove(q, k)
  {
    ghost var r := [head] + q;
    assert r[k + 1] == e;
    RemoveEntry(head, q, k);
    DelBetween(e.prev, e.next, r, k + 1);
  }

  /** `list_del`: the entry's own pointers are poisoned. */
  method Del(e: ListHead, head: ListHead, ghost q: seq<ListHead>, ghost k: nat)
    requires List(head, q) && k < |q| && q[k] == e
    modifies e, e.prev, e.next
    ensures List(head, Remove(q, k))
    ensures e.next == null && e.prev == null
  {
    Unlink(e, head, q, k);
    e.next := null;
    e.prev := null;
  }

  /** `list_del_init`. */
  method DelInit(e: ListHead, head: ListHead, ghost q: seq<ListHead>, ghost k: nat)
    requires List(head, q) && k < |q| && q[k] == e
    modifies e, e.prev, e.next
    ensures List(head, Remove(q, k)) && List(e, [])
  {
    Unlink(e, head, q, k);
    Init(e);
  }

  /** No head of one ring is a head of the other. */
  ghost predicate Apart(a: seq<ListHead>, b: seq<ListHead>) {
    forall x :: x in a ==> x !in b
  }

  lemma Neighbours(r: seq<ListHead>, k: nat)
    requires Ring(r) && k < |r|
    ensures r[k].next in r && r[k].prev in r
  {}

  /** Where an entry may be moved: within its list, or to a list apart from it. */
  ghost predicate Target(from: ListHead, p: seq<ListHead>, head: ListHead, q: seq<ListHead>) {
    from == head || Apart([from] + p, [head] + q)
  }

  /** What the target list holds once entry `k` of `from` is unlinked. */
  ghost function Without(from: ListHead, p: seq<ListHead>, k: nat, head: ListHead, q: seq<ListHead>): seq<ListHead>
    requires k < |p|
  {
    if from == head then Remove(p, k) else q
  }

  /** `__list_del(e->prev, e->next)` ahead of adding `e` to `head`. */
  method Leave(e: ListHead, from: ListHead, ghost p: seq<ListHead>, ghost k: nat,
               head: ListHead, ghost q: seq<ListHead>)
    requires List(from, p) && k < |p| && p[k] == e && List(head, q) && Target(from, p, head, q)
    modifies e.prev, e.next
    ensures List(from, Remove(p, k)) && List(head, Without(from, p, k, head, q))
    ensures e !in [from] + Remove(p, k) && e !in [head] + Without(from, p, k, head, q)
    ensures from != head ==> Apart([from] + Remove(p, k), [head] + q)
    ensures head.next in {old(head.next), old(e.next)} && head.prev in {old(head.prev), old(e.prev)}
  {
    ghost var r, t := [from] + p, [head] + q;
    assert r[k + 1] == e && t[0] == head && r[0] == from && e in r && head in t;
    Neighbours(r, k + 1);
    RemoveEntry(from, p, k);
    Unlink(e, from, p, k);
    ghost var u := [from] + Remove(p, k);
    assert u[0] == from && (|u| > 1 ==> u[1] == r[if k == 0 then 2 else 1]);
    assert |u| > 1 ==> u[|u| - 1] == r[if k + 1 == |p| then |p| - 1 else |p|];
  }

  /** Neighbours of a head after `Leave`. */
  lemma HeadEnds(head: ListHead, q: seq<ListHead>)
    requires List(head, q)
    ensures head.next in [head] + q && head.prev in [head] + q
  {
    assert ([head] + q)[0] == head;
    Neighbours([head] + q, 0);
  }

  /** `list_move`: an entry goes to the front of a list, which may be its own. */
  method Move(e: ListHead, from: ListHead, ghost p: seq<ListHead>, ghost k: nat,
              head: ListHead, ghost q: seq<ListHead>)
    requires List(from, p) && k < |p| && p[k] == e && List(head, q) && Target(from, p, head, q)
    modifies e, e.prev, e.next, head, head.next
    ensures List(head, [e] + Without(from, p, k, head, q))
    ensures from != head ==> List(from, Remove(p, k))
  {
    ghost var u := Without(from, p, k, head, q);
    EntryEnds(from, p, k);
    Leave(e, from, p, k, head, q);
    HeadEnds(head, u);
    Add(e, head, u);
  }

  lemma EntryEnds(head: ListHead, q: seq<ListHead>, k: nat)
    requires List(head, q) && k < |q|
    ensures q[k].next in [head] + q && q[k].prev in [head] + q
  {
    assert ([head] + q)[k + 1] == q[k];
    Neighbours([head] + q, k + 1);
  }

  /** `list_move_tail`: an entry goes to the back of a list, which may be its own. */
  method MoveTail(e: ListHead, from: ListHead, ghost p: seq<ListHead>, ghost k: nat,
                  head: ListHead, ghost q: seq<ListHead>)
    requires List(from, p) && k < |p| && p[k] == e && List(head, q) && Target(from, p, head, q)
    modifies e, e.prev, e.next, head, head.prev
    ensures List(head, Without(from, p, k, head, q) + [e])
    ensures from != head ==> List(from, Remove(p, k))
  {
    ghost var u := Without(from, p, k, head, q);
    EntryEnds(from, p, k);
    Leave(e, from, p, k, head, q);
    HeadEnds(head, u);
    AddTail(e, head, u);
  }

  /** `list_replace_init` of the kernel's list library: `n` takes over the place of `old_`.
      When `old_` is empty, `n.next` is first set to `old_` and then, through the alias
      `n.prev == n`, to itself. */
  method ReplaceInit(old_: ListHead, n: ListHead, ghost q: seq<ListHead>)
    requires List(old_, q) && n !in [old_] + q
    modifies n, old_, old_.next, old_.prev
    ensures List(n, q) && List(old_, [])
  {
    ghost var r, r' := [old_] + q, [n] + q;
    assert r[0] == old_ && r'[0] == n;
    assert forall i :: 1 <= i < |r| ==> r'[i] == r[i];
    n.next := old_.next;
    n.next.prev := n;
    n.prev := old_.prev;
    n.prev.next := n;
    assert Ring(r');
    Init(old_);
  }

  /** `__list_splice`: the entries of a non-empty list go to the front of another. */
  method SpliceFront(list: ListHead, head: ListHead, ghost p: seq<ListHead>, ghost q: seq<ListHead>)
    requires List(list, p) && p != [] && List(head, q)
    requires Apart([list] + p, [head] + q)
    modifies list.next, list.prev, head, head.next
    ensures List(head, p + q)
    ensures list.next == old(list.next) && list.prev == old(list.prev)
  {
    ghost var u := [head] + (p + q);
    SpliceLinks(list, head, p, q);
    var first, last, at := list.next, list.prev, head.next;
    first.prev := head;
    head.next := first;
    last.next := at;
    at.prev := last;
    forall i {:trigger u[i].next} | 0 <= i < |u| ensures u[i].next == u[if i + 1 < |u| then i + 1 else 0] {
      assert i != 0 && i != |p| ==> u[i] != head && u[i] != last;
    }
    forall i {:trigger u[i].prev} | 0 <= i < |u| ensures u[i].prev == u[if i > 0 then i - 1 else |u| - 1] {
      assert i != 1 && u[i] != at ==> u[i] != first;
    }
  }

  /** The links that splicing keeps, by position in the result. */
  lemma SpliceLinks(list: ListHead, head: ListHead, p: seq<ListHead>, q: seq<ListHead>)
    requires List(list, p) && p != [] && List(head, q) && Apart([list] + p, [head] + q)
    ensures
      var u := [head] + (p + q);
      && Distinct(u) && list !in u
      && list.next == u[1] && list.prev == u[|p|] && head.next == (if q == [] then u[0] else u[|p| + 1])
      && (forall i {:trigger u[i].next} :: 0 < i < |u| && i != |p| ==> u[i].next == u[if i + 1 < |u| then i + 1 else 0])
      && (forall i {:trigger u[i].prev} :: 1 < i < |u| && i != |p| + 1 ==> u[i].prev == u[i - 1])
      && (q != [] ==> head.prev == u[|u| - 1])
  {
    var r, t, u := [list] + p, [head] + q, [head] + (p + q);
    SpliceAt(head, list, p, q);
    assert r[0] == list && t[0] == head && list in r;
    forall i {:trigger u[i].next} | 0 < i < |u| && i != |p| ensures u[i].next == u[if i + 1 < |u| then i + 1 else 0] {
      if i < |p| { assert u[i] == r[i] && r[i].next == r[i + 1]; }
      else { assert u[i] == t[i - |p|] && t[i - |p|].next == t[if i + 1 < |u| then i + 1 - |p| else 0]; }
    }
    forall i {:trigger u[i].prev} | 1 < i < |u| && i != |p| + 1 ensures u[i].prev == u[i - 1] {
      if i <= |p| { assert u[i] == r[i] && r[i].prev == r[i - 1]; }
      else { assert u[i] == t[i - |p|] && t[i - |p|].prev == t[i - 1 - |p|]; }
    }
    forall i | 0 <= i < |u| ensures u[i] != list {
      if 0 < i <= |p| { assert u[i] == r[i]; } else { assert u[i] in t; }
    }
  }

  lemma SpliceAt(head: ListHead, list: ListHead, p: seq<ListHead>, q: seq<ListHead>)
    requires Distinct([list] + p) && Distinct([head] + q) && Apart([list] + p, [head] + q)
    ensures
      var r, t, u := [list] + p, [head] + q, [head] + (p + q);
      && |u| == |p| + |q| + 1 && Distinct(u)
      && forall i :: 0 <= i < |u| ==> u[i] == if 0 < i <= |p| then r[i] else if i == 0 then t[0] else t[i - |p|]
  {
    var r, t, u := [list] + p, [head] + q, [head] + (p + q);
    forall i, j | 0 <= i < j < |u| ensures u[i] != u[j] {
      if 0 < i <= |p| < j { assert u[i] == r[i] && r[i] in r && u[j] == t[j - |p|] && u[j] in t; }
      else if i == 0 && j <= |p| { assert u[j] == r[j] && r[j] in r && u[i] == t[0] && u[i] in t; }
      else if |p| < j { assert u[j] == t[j - |p|] && u[i] == t[if i == 0 then 0 else i - |p|]; }
      else { assert u[i] == r[i] && u[j] == r[j]; }
    }
  }

  /** `list_splice`: the emptied head keeps its old pointers. */
  method Splice(list: ListHead, head: ListHead, ghost p: seq<ListHead>, ghost q: seq<ListHead>)
    requires List(list, p) && List(head, q) && Apart([list] + p, [head] + q)
    modifies list.next, list.prev, head, head.next
    ensures List(head, p + q)
    ensures list.next == old(list.next) && list.prev == old(list.prev)
  {
    var e := Empty(list, p);
    if e {
      assert p + q == q;
    } else {
      SpliceFront(list, head, p, q);
    }
  }

  /** `list_splice_init`. */
  method SpliceInit(list: ListHead, head: ListHead, ghost p: seq<ListHead>, ghost q: seq<ListHead>)
    requires List(list, p) && List(head, q) && Apart([list] + p, [head] + q)
    modifies list, list.next, list.prev, head, head.next
    ensures List(head, p + q) && List(list, [])
  {
    var e := Empty(list, p);
    if e {
      assert p + q == q;
    } else {
      ghost var r := [list] + p;
      assert r[0] == list && forall i :: 0 <= i < |p| ==> p[i] == r[i + 1];
      assert list in r;
      SpliceFront(list, head, p, q);
      Init(list);
    }
  }
}
