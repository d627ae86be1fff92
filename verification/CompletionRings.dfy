/**
 Completion lists as rings of contexts on the heap: adding, detaching the whole
 list as a batch, walking the batch, and putting a batch back.
 */
module CompletionRings {
  import opened Sequences
  import opened IntrusiveList

  const COMPLIST_ADD_HEAD := 1
  const COMPLIST_ADD_TAIL := 2

  /** `ums_completion_list_add` inside its lock. */
  method CompletionListAdd(head: ListHead, c: ListHead, flags: int, ghost q: seq<ListHead>)
    requires List(head, q) && c !in [head] + q
    requires flags == COMPLIST_ADD_HEAD || flags == COMPLIST_ADD_TAIL
    modifies c, head, head.next, head.prev
    ensures List(head, if flags == COMPLIST_ADD_HEAD then [c] + q else q + [c])
  {
    if flags == COMPLIST_ADD_HEAD {
      Add(c, head, q);
    } else {
      AddTail(c, head, q);
    }
  }

  /** Unlink the first entry of `head` and make it the head of what follows it. */
  method HandOff(head: ListHead, ghost q: seq<ListHead>) returns (c: ListHead)
    requires List(head, q) && q != []
    modifies head, q
    ensures c == q[0] && List(head, []) && List(c, q[1..])
  {
    ghost var r := [head] + q;
    assert r[0] == head && r[1] == q[0];
    c := head.next;
    Neighbours(r, 1);
    RemoveEntry(head, q, 0);
    Del(c, head, q, 0);
    assert Remove(q, 0) == q[1..];
    HeadNeighbours(head, q[1..]);
    ReplaceInit(head, c, q[1..]);
  }

  lemma HeadNeighbours(head: ListHead, q: seq<ListHead>)
    requires List(head, q)
    ensures head.next != null && head.prev != null
    ensures head.next == head || head.next in q
    ensures head.prev == head || head.prev in q
  {
    var r := [head] + q;
    assert r[0] == head;
    Neighbours(r, 0);
  }

  lemma Separate(head: ListHead, q: seq<ListHead>)
    requires List(head, q)
    ensures head !in q && Distinct(q)
  {
    var r := [head] + q;
    assert r[0] == head && forall k :: 0 <= k < |q| ==> q[k] == r[k + 1];
  }

  /** Every entry can be looked up by its pid; pids are positive. */
  ghost predicate Known(table: map<int, ListHead>, q: seq<ListHead>) {
    forall i :: 0 <= i < |q| ==> q[i].pid > 0 && q[i].pid in table && table[q[i].pid] == q[i]
  }

  function Pids(q: seq<ListHead>): (r: seq<int>)
    ensures |r| == |q|
  {
    seq(|q|, i requires 0 <= i < |q| => q[i].pid)
  }

  lemma PidsAppend(before: seq<int>, q: seq<ListHead>, i: nat)
    requires 1 <= i < |q|
    ensures before + Pids(q[1..i]) + [q[i].pid] == before + Pids(q[1..i + 1])
  {
    assert q[1..i + 1] == q[1..i] + [q[i]];
  }

  const ESRCH := 3
  const EACCES := 13

  /** `ums_complist_next_context`: -ESRCH for an unknown context; otherwise the batch moves on,
      and the call gives 0 and the pid of the next context, or -1 at the end.  When the result
      cannot be copied out, the call gives -EACCES, but the batch has moved on. */
  method NextContext(table: map<int, ListHead>, pid: int, copied: bool, ghost rest: seq<ListHead>)
    returns (ret: int, next: int)
    requires pid in table ==> List(table[pid], rest)
    modifies if pid in table then {table[pid]} + Elements(rest) else {}
    ensures pid !in table ==> ret == -ESRCH
    ensures pid in table ==> ret == if copied then 0 else -EACCES
    ensures pid in table && copied ==> next == if rest == [] then -1 else rest[0].pid
    ensures pid in table ==> List(table[pid], []) && (rest != [] ==> List(rest[0], rest[1..]))
  {
    if pid !in table {
      return -ESRCH, 0;
    }
    var c := table[pid];
    var e := Empty(c, rest);
    if e {
      next := -1;
    } else {
      var d := HandOff(c, rest);
      next := d.pid;
    }
    ret := if copied then 0 else -EACCES;
  }

  /** A walk whose result is not copied out, and the caller's second attempt: it is told that the
      batch has ended.  That is so if and only if there was nothing left; otherwise the rest is
      off the batch, headed by an entry whose pid was never reported. */
  method FailedNext(table: map<int, ListHead>, pid: int, ghost rest: seq<ListHead>)
    returns (ret: int, again: int, next: int)
    requires pid in table && List(table[pid], rest)
    modifies table[pid], rest
    ensures ret == -EACCES && again == 0 && next == -1
    ensures List(table[pid], []) && (List(table[pid], rest) <==> rest == [])
    ensures rest != [] ==> List(rest[0], rest[1..])
  {
    Separate(table[pid], rest);
    var lost;
    ret, lost := NextContext(table, pid, false, rest);
    again, next := NextContext(table, pid, true, []);
    if List(table[pid], rest) { ListUnique(table[pid], rest, []); }
  }

  /** `get_next_ums_list_item`: a failed call gives -1, the end of the batch gives 0. */
  method NextItem(table: map<int, ListHead>, pid: int, copied: bool, ghost rest: seq<ListHead>) returns (item: int)
    requires pid in table ==> List(table[pid], rest)
    modifies if pid in table then {table[pid]} + Elements(rest) else {}
    ensures pid !in table || !copied ==> item == -1
    ensures pid in table && copied && rest == [] ==> item == 0
    ensures pid in table && copied && rest != [] ==> item == if rest[0].pid == -1 then 0 else rest[0].pid
    ensures pid in table ==> List(table[pid], []) && (rest != [] ==> List(rest[0], rest[1..]))
  {
    var ret, next := NextContext(table, pid, copied, rest);
    item := if ret != 0 then -1 else if next == -1 then 0 else next;
  }

  /** How many entries of a batch of `n` the client gets to see when only the first `good`
      calls that walk it can copy their result out. */
  function Seen(n: nat, good: nat): nat {
    if good < n then good + 1 else n
  }

  /** One scheduler thread of the example client, with its thread-local ready queue. */
  class ReadyQueue {
    var rq: seq<int>

    constructor ()
      ensures rq == []
    {
      rq := [];
    }

    /** `get_next_context`.  The first queued context if there is one; otherwise the whole
        completion list is detached and walked, its first context is returned and the rest
        are queued, in order, up to the first call that fails to copy out.  All of them are
        queued if and only if no such call has a context to report.  Contexts that are seen
        end self-looped, on no list.  `blocked` is the call that waits on an empty list. */
    method GetNextContext(table: map<int, ListHead>, head: ListHead, good: nat, ghost q: seq<ListHead>)
      returns (blocked: bool, context: int)
      requires List(head, q) && Known(table, q)
      modifies this, head, q
      ensures old(rq) != [] ==>
                && !blocked && context == old(rq)[0] && rq == old(rq)[1..]
                && List(head, q)
      ensures old(rq) == [] && q == [] ==> blocked && rq == [] && List(head, [])
      ensures old(rq) == [] && q != [] ==>
                && !blocked && context == q[0].pid && rq == Pids(q[1..Seen(|q|, good)])
                && List(head, []) && Walked(q, Seen(|q|, good))
                && (rq == Pids(q[1..]) <==> |q| <= good + 1)
    {
      if rq != [] {
        blocked, context, rq := false, rq[0], rq[1..];
        return;
      }
      var empty := Empty(head, q);
      if empty {
        return true, 0;
      }
      Separate(head, q);
      var c := HandOff(head, q);
      rq := rq + [c.pid];
      Drain(table, c.pid, good, q);
      blocked, context, rq := false, rq[0], rq[1..];
      assert Seen(|q|, good) == |q| ==> q[1..|q|] == q[1..];
    }

    /** The loop of `get_next_context` over a detached batch whose head is queued already. */
    method Drain(table: map<int, ListHead>, first: int, good: nat, ghost q: seq<ListHead>)
      requires q != [] && first == q[0].pid && Known(table, q) && Distinct(q)
      requires List(q[0], q[1..])
      modifies this, q
      ensures rq == old(rq) + Pids(q[1..Seen(|q|, good)]) && Walked(q, Seen(|q|, good))
    {
      var context := Advance(table, first, good > 0, q, 0);
      var i := 1;
      while context > 0
        invariant 1 <= i <= |q| && i <= good + 1 && Walked(q, i)
        invariant context == if i > good then -1 else if i < |q| then q[i].pid else 0
        invariant rq == old(rq) + Pids(q[1..i])
        decreases |q| - i
      {
        PidsAppend(old(rq), q, i);
        context := QueueAndAdvance(table, context, i < good, q, i);
        i := i + 1;
      }
    }

    /** One round of that loop. */
    method QueueAndAdvance(table: map<int, ListHead>, context: int, copied: bool, ghost q: seq<ListHead>, ghost i: nat)
      returns (item: int)
      requires i < |q| && Known(table, q) && Distinct(q) && context == q[i].pid && Walked(q, i)
      modifies this, q
      ensures rq == old(rq) + [context] && Walked(q, i + 1)
      ensures item == if !copied then -1 else if i + 1 < |q| then q[i + 1].pid else 0
    {
      rq := rq + [context];
      item := Advance(table, context, copied, q, i);
    }
  }

  /** An entry linked only to itself. */
  ghost predicate Looped(x: ListHead)
    reads x
  {
    x.next == x && x.prev == x
  }

  /** A walk has seen the first `i` entries, which are self-looped; the next one, if there is
      one, heads the others. */
  ghost predicate Walked(q: seq<ListHead>, i: nat)
    requires i <= |q|
    reads q
  {
    && (forall j :: 0 <= j < i ==> Looped(q[j]))
    && (i < |q| ==> List(q[i], q[i + 1..]))
  }

  /** One call of `get_next_ums_list_item` at position `i` of a batch. */
  method Advance(table: map<int, ListHead>, context: int, copied: bool, ghost q: seq<ListHead>, ghost i: nat)
    returns (item: int)
    requires i < |q| && Known(table, q) && Distinct(q)
    requires context == q[i].pid && Walked(q, i)
    modifies q
    ensures Walked(q, i + 1)
    ensures item == if !copied then -1 else if i + 1 < |q| then q[i + 1].pid else 0
  {
    ghost var rest := q[i + 1..];
    assert forall x :: x in rest ==> x in q;
    assert forall j :: 0 <= j < i ==> q[j] != q[i] && q[j] !in rest;
    item := NextItem(table, context, copied, rest);
    assert ([q[i]] + [])[0] == q[i];
    assert rest != [] ==> rest[0] == q[i + 1] && rest[1..] == q[i + 2..];
  }

  // ---------------------------------------------------------------- rollback

  /** The failure path of `ums_complist_dqcontext`: the batch head `c` goes back to the front
      of the list, which now holds `now`.  The rest of the batch is back on the list only if
      there is none; otherwise `rest` still points at `c`, but `c` no longer at `rest`. */
  method Rollback(head: ListHead, c: ListHead, ghost now: seq<ListHead>, ghost rest: seq<ListHead>)
    requires List(head, now) && List(c, rest) && Apart([c] + rest, [head] + now)
    modifies c, head, head.next, head.prev
    ensures List(head, [c] + now)
    ensures List(head, [c] + rest + now) <==> rest == []
    ensures rest != [] ==> rest[0].prev == c && c.next != rest[0] && rest[|rest| - 1].next == c
    ensures Chained(rest)
  {
    HeadNeighbours(head, now);
    RestIsApart(head, c, now, rest);
    CompletionListAdd(head, c, COMPLIST_ADD_HEAD, now);
    assert ([head] + ([c] + now))[1] == c;
    if List(head, [c] + rest + now) { ListUnique(head, [c] + rest + now, [c] + now); }
    if rest == [] { assert [c] + rest + now == [c] + now; }
  }

  lemma RestIsApart(head: ListHead, c: ListHead, now: seq<ListHead>, rest: seq<ListHead>)
    requires List(c, rest) && Apart([c] + rest, [head] + now)
    ensures c !in [head] + now
    ensures forall k :: 0 <= k < |rest| ==> rest[k] != c && rest[k] != head && rest[k] !in now
    ensures rest != [] ==> rest[0].prev == c && rest[|rest| - 1].next == c
    ensures Chained(rest)
  {
    Separate(c, rest);
    RingChained(c, rest);
    if rest != [] { RingEnds(c, rest); }
    assert c in [c] + rest;
    forall k | 0 <= k < |rest| ensures rest[k] != c && rest[k] != head && rest[k] !in now {
      assert rest[k] in [c] + rest;
    }
  }

  /** Consecutive entries point at each other. */
  ghost predicate Chained(q: seq<ListHead>)
    reads q
  {
    forall i {:trigger q[i].next} :: 0 <= i < |q| - 1 ==> q[i].next == q[i + 1] && q[i + 1].prev == q[i]
  }

  lemma RingChained(head: ListHead, q: seq<ListHead>)
    requires List(head, q)
    ensures Chained(q)
  {
    var r := [head] + q;
    forall i {:trigger q[i].next} | 0 <= i < |q| - 1 ensures q[i].next == q[i + 1] && q[i + 1].prev == q[i] {
      assert r[i + 1] == q[i] && r[i + 2] == q[i + 1];
    }
  }

  lemma RingEnds(head: ListHead, q: seq<ListHead>)
    requires List(head, q) && q != []
    ensures q[0].prev == head && q[|q| - 1].next == head
  {
    var r := [head] + q;
    assert r[0] == head && r[1] == q[0] && r[|q|] == q[|q| - 1];
  }

  twostate lemma RingKept(r: seq<ListHead>)
    requires old(Ring(r)) && forall i :: 0 <= i < |r| ==> unchanged(r[i])
    ensures Ring(r)
  {}

  /** A dequeue that fails from end to end: the list is detached, `more` contexts are added
      while its lock is free, and the batch head is put back.  What a caller expects to find is
      the old list followed by the new contexts; it is there if and only if the list had one
      entry.  Otherwise all entries but the first are lost. */
  method FailedDequeue(head: ListHead, ghost q: seq<ListHead>, more: seq<ListHead>)
    requires List(head, q) && q != []
    requires Distinct(more) && Apart(more, [head] + q)
    modifies head, q, more
    ensures List(head, [q[0]] + more)
    ensures List(head, q + more) <==> |q| == 1
    ensures |q| > 1 ==> q[1].prev == q[0] && q[0].next != q[1] && q[|q| - 1].next == q[0]
    ensures Chained(q[1..])
  {
    Separate(head, q);
    var c := HandOff(head, q);
    ghost var rest := q[1..];
    ghost var r := [c] + rest;
    assert r == q;
    assert forall i :: 0 <= i < |q| ==> q[i] in [head] + q && q[i] != head && q[i] !in more;
    label Detached:
    AddAll(head, more);
    RingKept@Detached(r);
    HeadNeighbours(head, more);
    Rollback(head, c, more, rest);
    assert [c] + rest + more == q + more;
  }

  /** Contexts added one after the other at the tail of an empty list. */
  method AddAll(head: ListHead, more: seq<ListHead>)
    requires List(head, []) && Distinct(more) && head !in more
    modifies head, more
    ensures List(head, more)
  {
    assert more[..0] == [];
    for i := 0 to |more|
      invariant List(head, more[..i])
    {
      HeadNeighbours(head, more[..i]);
      assert forall x :: x in more[..i] ==> x in more;
      CompletionListAdd(head, more[i], COMPLIST_ADD_TAIL, more[..i]);
      assert more[..i + 1] == more[..i] + [more[i]];
    }
    assert more[..|more|] == more;
  }

  /** Two contexts are enough: the second one is lost. */
  method LoseOne() returns (head: ListHead, a: ListHead, b: ListHead)
    ensures List(head, [a]) && !List(head, [a, b]) && b.prev == a
  {
    head := new ListHead(0);
    a := new ListHead(1);
    b := new ListHead(2);
    Init(head);
    HeadNeighbours(head, []);
    CompletionListAdd(head, a, COMPLIST_ADD_TAIL, []);
    assert [] + [a] == [a];
    HeadNeighbours(head, [a]);
    CompletionListAdd(head, b, COMPLIST_ADD_TAIL, [a]);
    assert [a] + [b] == [a, b];
    FailedDequeue(head, [a, b], []);
    assert [a, b] + [] == [a, b] && [a] + [] == [a];
  }

  // ------------------------------------------------------------ event queues

  /** Unlink the first entry, having read the one after it. */
  method PopFirst(head: ListHead, ghost q: seq<ListHead>) returns (first: ListHead, second: ListHead)
    requires List(head, q) && q != []
    modifies head, q
    ensures first == q[0] && second == (if |q| > 1 then q[1] else head) && List(head, q[1..])
    ensures first.next == null && first.prev == null
  {
    ghost var r := [head] + q;
    assert r[0] == head && r[1] == q[0] && (|q| > 1 ==> r[2] == q[1]);
    Neighbours(r, 1);
    first := head.next;
    second := first.next;
    Del(first, head, q, 0);
    assert Remove(q, 0) == q[1..];
  }

  /** `list_del` has been applied to every entry. */
  ghost predicate Poisoned(q: seq<ListHead>)
    reads q
  {
    forall i :: 0 <= i < |q| ==> q[i].next == null && q[i].prev == null
  }

  lemma Halves(q: seq<ListHead>, i: nat)
    requires Distinct(q) && i <= |q|
    ensures forall x :: x in q[..i] ==> x !in q[i..]
  {}

  /** The loop of `ums_scheduler_destroy`: every queued event node is unlinked and freed, in
      order.  The next node is read before the current one is poisoned. */
  method DestroyQueue(head: ListHead, ghost q: seq<ListHead>) returns (freed: seq<ListHead>)
    requires List(head, q)
    modifies head, q
    ensures List(head, []) && freed == q
    ensures Poisoned(q)
  {
    Separate(head, q);
    HeadNeighbours(head, q);
    freed := [];
    var pos := head.next;
    ghost var i := 0;
    assert ([head] + q)[0] == head && q == q[0..] && (q != [] ==> ([head] + q)[1] == q[0]);
    while pos != head
      invariant 0 <= i <= |q| && freed == q[..i] && Poisoned(q[..i])
      invariant List(head, q[i..]) && pos == if i < |q| then q[i] else head
      decreases |q| - i
    {
      var e;
      e, pos := DestroyFirst(head, q, i);
      freed := freed + [e];
      i := i + 1;
    }
    assert q[..|q|] == q;
  }

  /** One round of that loop: the first node goes, and the nodes that went before stay as they are. */
  method DestroyFirst(head: ListHead, ghost q: seq<ListHead>, ghost i: nat) returns (e: ListHead, next: ListHead)
    requires i < |q| && Distinct(q) && head !in q && List(head, q[i..]) && Poisoned(q[..i])
    modifies head, q
    ensures e == q[i] && next == (if i + 1 < |q| then q[i + 1] else head)
    ensures List(head, q[i + 1..]) && Poisoned(q[..i + 1])
  {
    Halves(q, i);
    assert forall x :: x in q[i..] || x in q[..i] ==> x in q;
    e, next := PopFirst(head, q[i..]);
    assert q[i..][1..] == q[i + 1..] && q[..i + 1] == q[..i] + [q[i]];
  }
}
