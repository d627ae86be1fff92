/**
 The protocol's lists of contexts as they lie in kernel memory.  Every completion list and every
 batch being walked is a ring through the contexts; the three operations that relink
 contexts carry one such memory to the next, and single ownership is what keeps the
 rings apart, so that a batch can be walked without a lock.
 */
module KernelHeap {
  import opened Sequences
  import opened Protocol
  import opened Invariant
  import opened Preservation
  import L = IntrusiveList
  import CompletionRings

  type Node = L.ListHead

  ghost predicate InRange(q: seq<nat>, n: nat) {
    forall i :: 0 <= i < |q| ==> q[i] < n
  }

  /** The list nodes of the workers in `q`. */
  ghost function Nodes(ctx: seq<Node>, q: seq<nat>): (r: seq<Node>)
    requires InRange(q, |ctx|)
    ensures |r| == |q| && forall i :: 0 <= i < |q| ==> r[i] == ctx[q[i]]
  {
    seq(|q|, i requires 0 <= i < |q| => ctx[q[i]])
  }

  /** The context whose node heads the batch a scheduler is walking. */
  function Cursor(c: Sched): nat
    requires c.rq != []
  {
    c.rq[|c.rq| - 1]
  }

  /** Where contexts are, as far as memory layout needs it. */
  ghost predicate Placed(st: State) {
    && (forall l :: 0 <= l < |st.lists| ==> PlacedAt(st, st.lists[l].q, OnList(l)))
    && (forall s :: 0 <= s < |st.scheds| && st.scheds[s].pc.SWalk? ==>
          st.scheds[s].rq != [] && Walking(st, Cursor(st.scheds[s]), st.scheds[s].pc.rest, s))
  }

  ghost predicate Walking(st: State, cursor: nat, rest: seq<nat>, s: nat) {
    cursor < |st.workers| && st.workers[cursor].place == Held(s) && PlacedAt(st, rest, Held(s))
  }

  ghost predicate PlacedAt(st: State, q: seq<nat>, p: Place) {
    forall i :: 0 <= i < |q| ==> q[i] < |st.workers| && st.workers[q[i]].place == p
  }

  lemma InvPlaces(st: State)
    requires Inv(st)
    ensures Placed(st)
  {
    forall l | 0 <= l < |st.lists| ensures PlacedAt(st, st.lists[l].q, OnList(l)) {
      assert ListInv(st, l);
    }
    forall s | 0 <= s < |st.scheds| && st.scheds[s].pc.SWalk?
      ensures st.scheds[s].rq != [] && Walking(st, Cursor(st.scheds[s]), st.scheds[s].pc.rest, s)
    {
      assert SchedInv(st, s);
      var c := st.scheds[s];
      var o := Owned(c);
      assert Cursor(c) == o[|c.rq| - 1];
      assert forall i :: 0 <= i < |c.pc.rest| ==> c.pc.rest[i] == o[|c.rq| + i];
    }
  }

  /** Heads and nodes are all different objects. */
  ghost predicate Separate(heads: seq<Node>, ctx: seq<Node>) {
    && Distinct(heads) && Distinct(ctx)
    && forall i, j :: 0 <= i < |heads| && 0 <= j < |ctx| ==> heads[i] != ctx[j]
  }

  ghost predicate ListRing(st: State, heads: seq<Node>, ctx: seq<Node>, l: nat)
    requires l < |st.lists| && l < |heads| && InRange(st.lists[l].q, |ctx|)
    reads heads[l], Nodes(ctx, st.lists[l].q)
  {
    L.List(heads[l], Nodes(ctx, st.lists[l].q))
  }

  ghost predicate BatchRing(c: Sched, ctx: seq<Node>)
    requires c.pc.SWalk? && c.rq != [] && Cursor(c) < |ctx| && InRange(c.pc.rest, |ctx|)
    reads ctx[Cursor(c)], Nodes(ctx, c.pc.rest)
  {
    L.List(ctx[Cursor(c)], Nodes(ctx, c.pc.rest))
  }

  /** Memory holds exactly the completion lists and batches of `st`. */
  ghost predicate Represents(st: State, heads: seq<Node>, ctx: seq<Node>)
    reads heads, ctx
  {
    && |heads| == |st.lists| && |ctx| == |st.workers| && Separate(heads, ctx)
    && (forall l :: 0 <= l < |heads| ==> InRange(st.lists[l].q, |ctx|) && ListRing(st, heads, ctx, l))
    && (forall s :: 0 <= s < |st.scheds| && st.scheds[s].pc.SWalk? ==>
          && st.scheds[s].rq != [] && Cursor(st.scheds[s]) < |ctx| && InRange(st.scheds[s].pc.rest, |ctx|)
          && BatchRing(st.scheds[s], ctx))
  }

  /** A region that holds only head `l`, contexts on list `l`, contexts held by `s` and
      contexts that are nowhere. */
  ghost predicate Region(st: State, heads: seq<Node>, ctx: seq<Node>, l: nat, s: nat, region: set<Node>)
    requires |ctx| == |st.workers|
  {
    && (forall m :: 0 <= m < |heads| && heads[m] in region ==> m == l)
    && (forall v :: 0 <= v < |ctx| && ctx[v] in region ==> st.workers[v].place in {OnList(l), Held(s), Outside})
  }

  lemma MissesList(st: State, heads: seq<Node>, ctx: seq<Node>, l: nat, s: nat, region: set<Node>, m: nat)
    requires m < |st.lists| && m < |heads| && m != l && |ctx| == |st.workers|
    requires PlacedAt(st, st.lists[m].q, OnList(m)) && Region(st, heads, ctx, l, s, region)
    ensures heads[m] !in region && InRange(st.lists[m].q, |ctx|)
    ensures forall x :: x in Nodes(ctx, st.lists[m].q) ==> x !in region
  {}

  lemma MissesBatch(st: State, heads: seq<Node>, ctx: seq<Node>, l: nat, s: nat, region: set<Node>, t: nat)
    requires t < |st.scheds| && t != s && |ctx| == |st.workers|
    requires
      var c := st.scheds[t];
      c.pc.SWalk? && c.rq != [] && Walking(st, Cursor(c), c.pc.rest, t)
    requires Region(st, heads, ctx, l, s, region)
    ensures Cursor(st.scheds[t]) < |ctx| && ctx[Cursor(st.scheds[t])] !in region
    ensures InRange(st.scheds[t].pc.rest, |ctx|)
    ensures forall x :: x in Nodes(ctx, st.scheds[t].pc.rest) ==> x !in region
  {}

  ghost function Members(ctx: seq<Node>, q: seq<nat>): (r: set<Node>)
    requires InRange(q, |ctx|)
    ensures forall i :: 0 <= i < |q| ==> ctx[q[i]] in r
    ensures forall x :: x in r ==> x in Nodes(ctx, q)
  {
    set i | 0 <= i < |q| :: ctx[q[i]]
  }

  /** The nodes a step on list `l` and the contexts `q` may relink. */
  ghost function Reach(heads: seq<Node>, ctx: seq<Node>, l: nat, q: seq<nat>): set<Node>
    requires l < |heads| && InRange(q, |ctx|)
  {
    {heads[l]} + Members(ctx, q)
  }

  lemma ReachRegion(st: State, heads: seq<Node>, ctx: seq<Node>, l: nat, s: nat, q: seq<nat>)
    requires l < |heads| && InRange(q, |ctx|) && |ctx| == |st.workers| && Separate(heads, ctx)
    requires forall i :: 0 <= i < |q| ==> st.workers[q[i]].place in {OnList(l), Held(s), Outside}
    ensures Region(st, heads, ctx, l, s, Reach(heads, ctx, l, q))
  {}

  /** Every ring of `st` but that of list `l` and that of scheduler `s`. */
  ghost predicate RingsExcept(st: State, heads: seq<Node>, ctx: seq<Node>, l: nat, s: nat)
    reads heads, ctx
  {
    && |heads| == |st.lists| && |ctx| == |st.workers|
    && (forall m :: 0 <= m < |heads| && m != l ==> InRange(st.lists[m].q, |ctx|) && ListRing(st, heads, ctx, m))
    && (forall t :: 0 <= t < |st.scheds| && st.scheds[t].pc.SWalk? && t != s ==>
          && st.scheds[t].rq != [] && Cursor(st.scheds[t]) < |ctx| && InRange(st.scheds[t].pc.rest, |ctx|)
          && BatchRing(st.scheds[t], ctx))
  }

  /** `ums_completion_list_add` at the tail: the context goes onto its completion list. */
  method Publish(heads: seq<Node>, ctx: seq<Node>, l: nat, w: nat, ghost st: State)
    requires Represents(st, heads, ctx) && Placed(st)
    requires WorkerReady(st, w) && st.workers[w].pc.WPublish? && st.workers[w].place.Outside?
    requires l == st.workers[w].list
    modifies Reach(heads, ctx, l, st.lists[l].q + [w])
    ensures Represents(WorkerStep(st, w), heads, ctx)
  {
    ghost var q, st' := st.lists[l].q, WorkerStep(st, w);
    ghost var region := Reach(heads, ctx, l, q + [w]);
    assert PlacedAt(st, q, OnList(l)) && ListRing(st, heads, ctx, l);
    ReachRegion(st, heads, ctx, l, |st.scheds|, q + [w]);
    PublishSite(st, heads, ctx, l, w);
    L.AddTail(ctx[w], heads[l], Nodes(ctx, q));
    assert Nodes(ctx, q + [w]) == Nodes(ctx, q) + [ctx[w]];
    forall m | 0 <= m < |heads| && m != l ensures ListRing(st, heads, ctx, m) {
      MissesList(st, heads, ctx, l, |st.scheds|, region, m);
      assert old(ListRing(st, heads, ctx, m));
    }
    forall t | 0 <= t < |st.scheds| && st.scheds[t].pc.SWalk? ensures BatchRing(st.scheds[t], ctx) {
      MissesBatch(st, heads, ctx, l, |st.scheds|, region, t);
      assert old(BatchRing(st.scheds[t], ctx));
    }
    PublishDone(st, heads, ctx, l, w);
  }

  lemma PublishDone(st: State, heads: seq<Node>, ctx: seq<Node>, l: nat, w: nat)
    requires RingsExcept(st, heads, ctx, l, |st.scheds|) && Separate(heads, ctx)
    requires WorkerReady(st, w) && st.workers[w].pc.WPublish? && l == st.workers[w].list
    requires InRange(st.lists[l].q + [w], |ctx|) && L.List(heads[l], Nodes(ctx, st.lists[l].q + [w]))
    ensures Represents(WorkerStep(st, w), heads, ctx)
  {
    var st' := WorkerStep(st, w);
    forall m | 0 <= m < |heads| ensures InRange(st'.lists[m].q, |ctx|) && ListRing(st', heads, ctx, m) {
      if m != l { assert ListRing(st, heads, ctx, m); }
    }
    forall t | 0 <= t < |st'.scheds| && st'.scheds[t].pc.SWalk? ensures BatchRing(st'.scheds[t], ctx) {
      assert BatchRing(st.scheds[t], ctx);
    }
  }

  lemma PublishSite(st: State, heads: seq<Node>, ctx: seq<Node>, l: nat, w: nat)
    requires l < |st.lists| && l < |heads| && |ctx| == |st.workers| && Separate(heads, ctx)
    requires PlacedAt(st, st.lists[l].q, OnList(l)) && w < |ctx| && st.workers[w].place.Outside?
    requires InRange(st.lists[l].q, |ctx|) && ListRing(st, heads, ctx, l)
    ensures ctx[w] !in [heads[l]] + Nodes(ctx, st.lists[l].q)
    ensures {heads[l], ctx[w], heads[l].prev} <= Reach(heads, ctx, l, st.lists[l].q + [w])
  {
    var q := st.lists[l].q;
    assert (q + [w])[|q|] == w;
    CompletionRings.HeadNeighbours(heads[l], Nodes(ctx, q));
    assert forall i :: 0 <= i < |q| ==> (q + [w])[i] == q[i];
  }

  /** Hand a ring over to its first entry; completion lists elsewhere are not disturbed. */
  method DetachFromLists(head: Node, ghost q: seq<nat>, heads: seq<Node>, ctx: seq<Node>,
                         ghost l: nat, ghost s: nat, ghost st: State) returns (first: Node)
    requires Represents(st, heads, ctx) && Placed(st)
    requires q != [] && InRange(q, |ctx|) && L.List(head, Nodes(ctx, q))
    requires Region(st, heads, ctx, l, s, {head} + Members(ctx, q))
    modifies {head} + Members(ctx, q)
    ensures first == ctx[q[0]] && L.List(head, []) && L.List(first, Nodes(ctx, q[1..]))
    ensures forall m :: 0 <= m < |heads| && m != l ==> ListRing(st, heads, ctx, m)
  {
    ghost var region := {head} + Members(ctx, q);
    first := CompletionRings.HandOff(head, Nodes(ctx, q));
    assert Nodes(ctx, q)[1..] == Nodes(ctx, q[1..]);
    forall m | 0 <= m < |heads| && m != l ensures ListRing(st, heads, ctx, m) {
      MissesList(st, heads, ctx, l, s, region, m);
      assert old(ListRing(st, heads, ctx, m));
    }
  }

  /** Hand a ring over to its first entry; rings elsewhere are not disturbed. */
  method Detach(head: Node, ghost q: seq<nat>, heads: seq<Node>, ctx: seq<Node>,
                ghost l: nat, ghost s: nat, ghost st: State) returns (first: Node)
    requires Represents(st, heads, ctx) && Placed(st)
    requires q != [] && InRange(q, |ctx|) && L.List(head, Nodes(ctx, q))
    requires Region(st, heads, ctx, l, s, {head} + Members(ctx, q))
    modifies {head} + Members(ctx, q)
    ensures first == ctx[q[0]] && L.List(head, []) && L.List(first, Nodes(ctx, q[1..]))
    ensures RingsExcept(st, heads, ctx, l, s)
  {
    ghost var region := {head} + Members(ctx, q);
    first := DetachFromLists(head, q, heads, ctx, l, s, st);
    forall t | 0 <= t < |st.scheds| && st.scheds[t].pc.SWalk? && t != s ensures BatchRing(st.scheds[t], ctx) {
      MissesBatch(st, heads, ctx, l, s, region, t);
      assert old(BatchRing(st.scheds[t], ctx));
    }
  }

  /** `do_dequeue_ums_complist_context` on a non-empty list: the whole list becomes the batch
      of scheduler `s`, headed by its first context. */
  method Dequeue(heads: seq<Node>, ctx: seq<Node>, l: nat, ghost s: nat, ghost st: State) returns (first: Node)
    requires Represents(st, heads, ctx) && Placed(st)
    requires SchedReady(st, s) && st.scheds[s].pc.SDequeueList? && l == st.scheds[s].list
    requires st.lists[l].q != []
    modifies Reach(heads, ctx, l, st.lists[l].q)
    ensures first == ctx[st.lists[l].q[0]]
    ensures Represents(SchedStep(st, s), heads, ctx)
  {
    ghost var q := st.lists[l].q;
    assert PlacedAt(st, q, OnList(l)) && ListRing(st, heads, ctx, l);
    ReachRegion(st, heads, ctx, l, s, q);
    first := Detach(heads[l], q, heads, ctx, l, s, st);
    DequeueDone(st, heads, ctx, l, s);
  }

  lemma DequeueDone(st: State, heads: seq<Node>, ctx: seq<Node>, l: nat, s: nat)
    requires RingsExcept(st, heads, ctx, l, s) && Separate(heads, ctx)
    requires SchedReady(st, s) && st.scheds[s].pc.SDequeueList? && l == st.scheds[s].list
    requires st.lists[l].q != [] && InRange(st.lists[l].q, |ctx|)
    requires L.List(heads[l], []) && L.List(ctx[st.lists[l].q[0]], Nodes(ctx, st.lists[l].q[1..]))
    ensures Represents(SchedStep(st, s), heads, ctx)
  {
    var st' := SchedStep(st, s);
    assert Nodes(ctx, []) == [];
    assert BatchRing(st'.scheds[s], ctx);
  }

  /** `ums_complist_next_context` past a context that is not the last of its batch: only
      contexts of that batch are touched, no list head and no lock. */
  method Walk(heads: seq<Node>, ctx: seq<Node>, cursor: nat, ghost rest: seq<nat>, ghost s: nat, ghost st: State)
    returns (next: Node)
    requires Represents(st, heads, ctx) && Placed(st)
    requires s < |st.scheds| && st.scheds[s].pc == SWalk(rest) && rest != []
    requires st.scheds[s].rq != [] && cursor == Cursor(st.scheds[s])
    modifies {ctx[cursor]} + Members(ctx, rest)
    ensures next == ctx[rest[0]]
    ensures Represents(SchedStep(st, s), heads, ctx)
    ensures CompletionRings.Looped(ctx[cursor])
  {
    assert Walking(st, cursor, rest, s) && BatchRing(st.scheds[s], ctx);
    WalkRegion(st, heads, ctx, s, cursor, rest);
    next := Detach(ctx[cursor], rest, heads, ctx, |heads|, s, st);
    assert ([ctx[cursor]] + [])[0] == ctx[cursor];
    WalkDone(st, heads, ctx, s, rest);
  }

  lemma WalkRegion(st: State, heads: seq<Node>, ctx: seq<Node>, s: nat, cursor: nat, rest: seq<nat>)
    requires InRange(rest, |ctx|) && cursor < |ctx| && |ctx| == |st.workers| && Separate(heads, ctx)
    requires Walking(st, cursor, rest, s)
    ensures Region(st, heads, ctx, |heads|, s, {ctx[cursor]} + Members(ctx, rest))
  {}

  lemma WalkDone(st: State, heads: seq<Node>, ctx: seq<Node>, s: nat, rest: seq<nat>)
    requires RingsExcept(st, heads, ctx, |heads|, s) && Separate(heads, ctx)
    requires s < |st.scheds| && st.scheds[s].pc == SWalk(rest) && rest != [] && InRange(rest, |ctx|)
    requires L.List(ctx[rest[0]], Nodes(ctx, rest[1..]))
    ensures Represents(SchedStep(st, s), heads, ctx)
  {
    assert BatchRing(SchedStep(st, s).scheds[s], ctx);
  }

  // ------------------------------------------------------ memory along a run

  /** A step that relinks contexts. */
  ghost predicate Relinks(st: State, t: Thread)
    requires Ready(st, t)
  {
    match t
    case W(w) => st.workers[w].pc.WPublish?
    case S(s) =>
      || (st.scheds[s].pc.SDequeueList? && st.lists[st.scheds[s].list].q != [])
      || (st.scheds[s].pc.SWalk? && st.scheds[s].pc.rest != [])
  }

  /** Every ring of `st'` is a ring of `st`. */
  ghost predicate FewerRings(st: State, st': State) {
    && |st'.lists| == |st.lists| && |st'.workers| == |st.workers| && |st'.scheds| == |st.scheds|
    && (forall l :: 0 <= l < |st.lists| ==> st'.lists[l].q == st.lists[l].q)
    && (forall s :: 0 <= s < |st.scheds| && st'.scheds[s].pc.SWalk? ==>
          st'.scheds[s].pc == st.scheds[s].pc && st'.scheds[s].rq == st.scheds[s].rq)
  }

  lemma WorkerElsewhere(st: State, w: nat)
    requires WorkerReady(st, w) && !st.workers[w].pc.WPublish?
    ensures FewerRings(st, WorkerStep(st, w))
  {}

  lemma SchedElsewhere(st: State, s: nat)
    requires SchedReady(st, s) && !Relinks(st, S(s))
    ensures FewerRings(st, SchedStep(st, s))
  {}

  lemma StillRepresents(st: State, st': State, heads: seq<Node>, ctx: seq<Node>)
    requires Represents(st, heads, ctx) && FewerRings(st, st')
    ensures Represents(st', heads, ctx)
  {
    forall l | 0 <= l < |heads| ensures ListRing(st', heads, ctx, l) {
      assert ListRing(st, heads, ctx, l);
    }
    forall s | 0 <= s < |st'.scheds| && st'.scheds[s].pc.SWalk? ensures BatchRing(st'.scheds[s], ctx) {
      assert BatchRing(st.scheds[s], ctx);
    }
  }

  // ------------------------------------------- contexts that are on no ring

  ghost predicate OnWalk(c: Sched, v: nat) {
    c.pc.SWalk? && c.rq != [] && (v == Cursor(c) || v in c.pc.rest)
  }

  /** Executed before or now, in a ready queue or a hand, or walked past: on no ring. */
  ghost predicate Loose(st: State, v: nat)
    requires v < |st.workers|
  {
    match st.workers[v].place
    case Executing(_) => true
    case Held(s) => s < |st.scheds| && !OnWalk(st.scheds[s], v)
    case OnList(_) => false
    case Outside => st.workers[v].hosts != []
  }

  /** Contexts on no ring are linked to themselves. */
  ghost predicate LooseLooped(st: State, ctx: seq<Node>)
    reads ctx
  {
    forall v :: 0 <= v < |ctx| && v < |st.workers| && Loose(st, v) ==> CompletionRings.Looped(ctx[v])
  }

  lemma PublishLoose(st: State, w: nat, heads: seq<Node>, ctx: seq<Node>, v: nat)
    requires Placed(st) && WorkerReady(st, w) && st.workers[w].pc.WPublish? && st.workers[w].place.Outside?
    requires |heads| == |st.lists| && |ctx| == |st.workers| && Separate(heads, ctx)
    requires InRange(st.lists[st.workers[w].list].q + [w], |ctx|)
    requires v < |st.workers| && Loose(WorkerStep(st, w), v)
    ensures Loose(st, v) && ctx[v] !in Reach(heads, ctx, st.workers[w].list, st.lists[st.workers[w].list].q + [w])
  {
    var l := st.workers[w].list;
    var q := st.lists[l].q + [w];
    assert PlacedAt(st, st.lists[l].q, OnList(l));
    assert v != w && v !in st.lists[l].q;
    NotReached(heads, ctx, l, q, v);
  }

  lemma DequeueLoose(st: State, s: nat, heads: seq<Node>, ctx: seq<Node>, v: nat)
    requires Placed(st) && SchedReady(st, s) && st.scheds[s].pc.SDequeueList? && st.scheds[s].rq == []
    requires st.lists[st.scheds[s].list].q != [] && InRange(st.lists[st.scheds[s].list].q, |ctx|)
    requires |heads| == |st.lists| && |ctx| == |st.workers| && Separate(heads, ctx)
    requires v < |st.workers| && Loose(SchedStep(st, s), v)
    ensures Loose(st, v) && ctx[v] !in Reach(heads, ctx, st.scheds[s].list, st.lists[st.scheds[s].list].q)
  {
    var q, st' := st.lists[st.scheds[s].list].q, SchedStep(st, s);
    if v in q { BatchOnWalk(st'.scheds[s], q, v); }
    assert v !in q && st'.workers[v] == st.workers[v];
    NotReached(heads, ctx, st.scheds[s].list, q, v);
  }

  lemma BatchOnWalk(c: Sched, q: seq<nat>, v: nat)
    requires q != [] && c.pc == SWalk(q[1..]) && c.rq == [q[0]] && v in q
    ensures OnWalk(c, v)
  {
    assert q == [q[0]] + q[1..];
  }

  lemma NotReached(heads: seq<Node>, ctx: seq<Node>, l: nat, q: seq<nat>, v: nat)
    requires l < |heads| && InRange(q, |ctx|) && Separate(heads, ctx) && v < |ctx| && v !in q
    ensures ctx[v] !in Reach(heads, ctx, l, q)
  {
    assert forall i :: 0 <= i < |q| ==> q[i] != v;
  }

  lemma WalkLoose(st: State, s: nat, ctx: seq<Node>, v: nat)
    requires s < |st.scheds| && st.scheds[s].pc.SWalk? && st.scheds[s].pc.rest != [] && st.scheds[s].rq != []
    requires |ctx| == |st.workers| && Distinct(ctx)
    requires InRange(st.scheds[s].pc.rest, |ctx|) && Cursor(st.scheds[s]) < |ctx|
    requires Walking(st, Cursor(st.scheds[s]), st.scheds[s].pc.rest, s)
    requires v < |st.workers| && Loose(SchedStep(st, s), v)
    ensures v == Cursor(st.scheds[s]) ||
            (Loose(st, v) && ctx[v] !in {ctx[Cursor(st.scheds[s])]} + Members(ctx, st.scheds[s].pc.rest))
  {
    var rest, c' := st.scheds[s].pc.rest, SchedStep(st, s).scheds[s];
    assert rest == [rest[0]] + rest[1..] && Cursor(c') == rest[0] && c'.pc.rest == rest[1..];
    assert v !in rest;
  }

  lemma WorkerKeepsLoose(st: State, w: nat, v: nat)
    requires WorkerReady(st, w) && WorkerInv(st, w) && !st.workers[w].pc.WPublish? && v < |st.workers|
    requires v < |WorkerStep(st, w).workers| && Loose(WorkerStep(st, w), v)
    ensures Loose(st, v)
  {}

  /** A context comes off the last ring of its walk when it heads nothing any more. */
  lemma SchedKeepsLoose(st: State, s: nat, v: nat)
    requires SchedReady(st, s) && SchedInv(st, s) && !Relinks(st, S(s)) && v < |st.workers|
    requires v < |SchedStep(st, s).workers| && Loose(SchedStep(st, s), v)
    ensures Loose(st, v) || (st.scheds[s].pc == SWalk([]) && v == Cursor(st.scheds[s]))
  {
    if st.scheds[s].pc.SHand? { assert Owned(st.scheds[s])[0] == st.scheds[s].pc.w; }
  }

  /** Not published yet: its links are whatever they were. */
  ghost predicate Unborn(st: State, v: nat)
    requires v < |st.workers|
  {
    st.workers[v].place.Outside? && st.workers[v].hosts == []
  }

  /** Such a context has never been touched. */
  twostate predicate UnbornUntouched(st: State, ctx: seq<Node>)
    reads ctx
  {
    forall v :: 0 <= v < |ctx| && v < |st.workers| && Unborn(st, v) ==>
      ctx[v].next == old(ctx[v].next) && ctx[v].prev == old(ctx[v].prev)
  }

  /** Nothing a step on list `l` relinks is unborn after it. */
  lemma UnbornMissed(st: State, heads: seq<Node>, ctx: seq<Node>, l: nat, q: seq<nat>)
    requires l < |heads| && InRange(q, |ctx|) && |ctx| == |st.workers| && Separate(heads, ctx)
    requires forall i :: 0 <= i < |q| ==> !Unborn(st, q[i])
    ensures forall v :: 0 <= v < |ctx| && Unborn(st, v) ==> ctx[v] !in Reach(heads, ctx, l, q)
  {
    forall v | 0 <= v < |ctx| && Unborn(st, v) ensures ctx[v] !in Reach(heads, ctx, l, q) {
      NotReached(heads, ctx, l, q, v);
    }
  }

  lemma PublishBorn(st: State, w: nat, heads: seq<Node>, ctx: seq<Node>)
    requires Placed(st) && WorkerReady(st, w) && st.workers[w].pc.WPublish?
    requires |heads| == |st.lists| && |ctx| == |st.workers| && Separate(heads, ctx)
    requires InRange(st.lists[st.workers[w].list].q + [w], |ctx|)
    ensures
      var st', l := WorkerStep(st, w), st.workers[w].list;
      && |st'.workers| == |ctx|
      && forall v :: 0 <= v < |ctx| && Unborn(st', v) ==> ctx[v] !in Reach(heads, ctx, l, st.lists[l].q + [w])
  {
    var st', l := WorkerStep(st, w), st.workers[w].list;
    var q := st.lists[l].q;
    assert PlacedAt(st, q, OnList(l));
    assert forall i :: 0 <= i < |q| ==> st'.workers[q[i]].place == OnList(l);
    assert st'.workers[w].place == OnList(l);
    UnbornMissed(st', heads, ctx, l, q + [w]);
  }

  lemma DequeueBorn(st: State, s: nat, heads: seq<Node>, ctx: seq<Node>)
    requires Placed(st) && SchedReady(st, s) && st.scheds[s].pc.SDequeueList?
    requires st.lists[st.scheds[s].list].q != [] && InRange(st.lists[st.scheds[s].list].q, |ctx|)
    requires |heads| == |st.lists| && |ctx| == |st.workers| && Separate(heads, ctx)
    ensures
      var st', l := SchedStep(st, s), st.scheds[s].list;
      && |st'.workers| == |ctx|
      && forall v :: 0 <= v < |ctx| && Unborn(st', v) ==> ctx[v] !in Reach(heads, ctx, l, st.lists[l].q)
  {
    var st', l := SchedStep(st, s), st.scheds[s].list;
    var q := st.lists[l].q;
    assert forall i :: 0 <= i < |q| ==> st'.workers[q[i]].place == Held(s);
    UnbornMissed(st', heads, ctx, l, q);
  }

  lemma WalkBorn(st: State, s: nat, ctx: seq<Node>)
    requires s < |st.scheds| && st.scheds[s].pc.SWalk? && st.scheds[s].pc.rest != [] && st.scheds[s].rq != []
    requires |ctx| == |st.workers| && Distinct(ctx)
    requires InRange(st.scheds[s].pc.rest, |ctx|) && Cursor(st.scheds[s]) < |ctx|
    requires Walking(st, Cursor(st.scheds[s]), st.scheds[s].pc.rest, s)
    ensures
      var c, st' := st.scheds[s], SchedStep(st, s);
      && |st'.workers| == |ctx|
      && forall v :: 0 <= v < |ctx| && Unborn(st', v) ==> ctx[v] !in {ctx[Cursor(c)]} + Members(ctx, c.pc.rest)
  {}

  lemma WorkerKeepsBorn(st: State, w: nat, v: nat)
    requires WorkerReady(st, w) && v < |WorkerStep(st, w).workers| && Unborn(WorkerStep(st, w), v)
    requires v < |st.workers| ==> WorkerInv(st, v)
    ensures v < |st.workers| && Unborn(st, v)
  {}

  lemma SchedKeepsBorn(st: State, s: nat, v: nat)
    requires SchedReady(st, s) && v < |SchedStep(st, s).workers| && Unborn(SchedStep(st, s), v)
    ensures v < |st.workers| && Unborn(st, v)
  {}

  lemma StepKeepsBorn(st: State, t: Thread, v: nat)
    requires Inv(st) && Ready(st, t) && v < |Step(st, t).workers| && Unborn(Step(st, t), v)
    ensures v < |st.workers| && Unborn(st, v)
  {
    assert v < |st.workers| ==> WorkerInv(st, v);
    match t
    case W(w) => WorkerKeepsBorn(st, w, v);
    case S(s) => SchedKeepsBorn(st, s, v);
  }

  lemma StillLoose(st: State, t: Thread, ctx: seq<Node>)
    requires Inv(st) && Ready(st, t) && !Relinks(st, t) && LooseLooped(st, ctx)
    requires |ctx| == |st.workers| == |Step(st, t).workers|
    requires forall s :: 0 <= s < |st.scheds| && st.scheds[s].pc.SWalk? ==>
               && st.scheds[s].rq != [] && Cursor(st.scheds[s]) < |ctx| && InRange(st.scheds[s].pc.rest, |ctx|)
               && BatchRing(st.scheds[s], ctx)
    ensures LooseLooped(Step(st, t), ctx)
  {
    forall v | 0 <= v < |ctx| && Loose(Step(st, t), v) ensures CompletionRings.Looped(ctx[v]) {
      match t
      case W(w) =>
        assert WorkerInv(st, w);
        WorkerKeepsLoose(st, w, v);
      case S(s) =>
        assert SchedInv(st, s);
        SchedKeepsLoose(st, s, v);
        if !Loose(st, v) {
          assert BatchRing(st.scheds[s], ctx) && Nodes(ctx, []) == [];
          assert ([ctx[v]] + [])[0] == ctx[v];
        }
    }
  }

  /** Kernel memory that follows a run of the protocol; `st` is everything but the links. */
  class Memory {
    const heads: seq<Node>
    const ctx: seq<Node>
    var st: State

    ghost predicate Valid()
      reads this, heads, ctx
    {
      Inv(st) && Represents(st, heads, ctx) && LooseLooped(st, ctx)
    }

    /** Empty completion lists; contexts are on no list and not initialised. */
    constructor (heads: seq<Node>, ctx: seq<Node>, st: State)
      requires Init(st) && |heads| == |st.lists| && |ctx| == |st.workers| && Separate(heads, ctx)
      modifies heads
      ensures Valid() && this.st == st && this.heads == heads && this.ctx == ctx
    {
      this.heads := heads;
      this.ctx := ctx;
      this.st := st;
      new;
      InitInv(st);
      for i := 0 to |heads|
        invariant this.st == st && forall l :: 0 <= l < i ==> L.List(heads[l], [])
      {
        L.Init(heads[i]);
      }
      assert Nodes(ctx, []) == [];
      assert forall s :: 0 <= s < |st.scheds| ==> InitSched(st, st.scheds[s]);
      forall l | 0 <= l < |heads| ensures ListRing(st, heads, ctx, l) {
        assert st.lists[l].q == [];
      }
      assert forall w :: 0 <= w < |st.workers| ==> InitWorker(st, st.workers[w]);
    }

    method Publishes(w: nat)
      requires Valid() && WorkerReady(st, w) && st.workers[w].pc.WPublish?
      modifies this, heads, ctx
      ensures Valid() && st == WorkerStep(old(st), w) && UnbornUntouched(st, ctx)
    {
      InvPlaces(st);
      assert WorkerInv(st, w);
      WorkerStepKeepsInv(st, w);
      Publish(heads, ctx, st.workers[w].list, w, st);
      forall v | 0 <= v < |ctx| && Loose(WorkerStep(st, w), v) ensures CompletionRings.Looped(ctx[v]) {
        PublishLoose(st, w, heads, ctx, v);
        assert old(CompletionRings.Looped(ctx[v]));
      }
      PublishBorn(st, w, heads, ctx);
      st := WorkerStep(st, w);
    }

    method Dequeues(s: nat) returns (first: Node)
      requires Valid() && SchedReady(st, s) && st.scheds[s].pc.SDequeueList?
      requires st.lists[st.scheds[s].list].q != []
      modifies this, heads, ctx
      ensures Valid() && st == SchedStep(old(st), s) && UnbornUntouched(st, ctx)
      ensures first == ctx[old(st.lists[st.scheds[s].list].q[0])]
    {
      InvPlaces(st);
      SchedStepKeepsInv(st, s);
      first := Dequeue(heads, ctx, st.scheds[s].list, s, st);
      assert SchedInv(st, s);
      forall v | 0 <= v < |ctx| && Loose(SchedStep(st, s), v) ensures CompletionRings.Looped(ctx[v]) {
        DequeueLoose(st, s, heads, ctx, v);
        assert old(CompletionRings.Looped(ctx[v]));
      }
      DequeueBorn(st, s, heads, ctx);
      st := SchedStep(st, s);
    }

    method Walks(s: nat) returns (next: Node)
      requires Valid() && s < |st.scheds| && st.scheds[s].pc.SWalk? && st.scheds[s].pc.rest != []
      modifies this, ctx
      ensures Valid() && st == SchedStep(old(st), s) && UnbornUntouched(st, ctx)
      ensures next == ctx[old(st.scheds[s].pc.rest[0])]
    {
      InvPlaces(st);
      SchedStepKeepsInv(st, s);
      next := Walk(heads, ctx, Cursor(st.scheds[s]), st.scheds[s].pc.rest, s, st);
      forall v | 0 <= v < |ctx| && Loose(SchedStep(st, s), v) ensures CompletionRings.Looped(ctx[v]) {
        WalkLoose(st, s, ctx, v);
        assert v != Cursor(st.scheds[s]) ==> old(CompletionRings.Looped(ctx[v]));
      }
      WalkBorn(st, s, ctx);
      st := SchedStep(st, s);
    }

    /** Any other step of any thread leaves the rings as they are. */
    method Elsewhere(t: Thread)
      requires Valid() && Ready(st, t) && !Relinks(st, t)
      modifies this
      ensures Valid() && st == Step(old(st), t)
    {
      StepKeepsInv(st, t);
      match t {
        case W(w) => WorkerElsewhere(st, w);
        case S(s) => SchedElsewhere(st, s);
      }
      StillRepresents(st, Step(st, t), heads, ctx);
      StillLoose(st, t, ctx);
      st := Step(st, t);
    }

    /** `list_empty` on a completion list. */
    method NoneListed(l: nat) returns (b: bool)
      requires Valid() && l < |st.lists|
      ensures b <==> st.lists[l].q == []
    {
      assert ListRing(st, heads, ctx, l);
      b := L.Empty(heads[l], Nodes(ctx, st.lists[l].q));
    }

    /** `list_empty` on the context a scheduler's walk has come to. */
    method NoneLeft(s: nat) returns (b: bool)
      requires Valid() && s < |st.scheds| && st.scheds[s].pc.SWalk?
      ensures b <==> st.scheds[s].pc.rest == []
    {
      var c := st.scheds[s];
      assert BatchRing(c, ctx);
      b := L.Empty(ctx[Cursor(c)], Nodes(ctx, c.pc.rest));
    }

    method WorkerMoves(w: nat)
      requires Valid() && WorkerReady(st, w)
      modifies this, heads, ctx
      ensures Valid() && st == WorkerStep(old(st), w) && UnbornUntouched(st, ctx)
    {
      if st.workers[w].pc.WPublish? {
        Publishes(w);
      } else {
        Elsewhere(W(w));
      }
    }

    /** Whether there is anything to take is read from memory. */
    method SchedMoves(s: nat)
      requires Valid() && SchedReady(st, s)
      modifies this, heads, ctx
      ensures Valid() && st == SchedStep(old(st), s) && UnbornUntouched(st, ctx)
    {
      var none := true;
      if st.scheds[s].pc.SDequeueList? {
        none := NoneListed(st.scheds[s].list);
      } else if st.scheds[s].pc.SWalk? {
        none := NoneLeft(s);
      }
      if none {
        Elsewhere(S(s));
      } else if st.scheds[s].pc.SDequeueList? {
        var first := Dequeues(s);
      } else {
        var next := Walks(s);
      }
    }

    /** Any step of any thread. */
    method Moves(t: Thread)
      requires Valid() && Ready(st, t)
      modifies this, heads, ctx
      ensures Valid() && st == Step(old(st), t) && UnbornUntouched(st, ctx)
    {
      match t
      case W(w) => WorkerMoves(w);
      case S(s) => SchedMoves(s);
    }

    /** A whole run: at its end memory holds exactly the completion lists and batches of its last state,
        and every dequeued context that is on none of them is linked to itself. */
    method Follows(acts: seq<Thread>, ghost states: seq<State>)
      requires Valid() && IsRun(states, acts) && st == states[0]
      modifies this, heads, ctx
      ensures Valid() && st == states[|acts|]
      ensures Represents(states[|acts|], heads, ctx) && LooseLooped(states[|acts|], ctx)
      ensures UnbornUntouched(states[|acts|], ctx)
    {
      for i := 0 to |acts|
        invariant Valid() && st == states[i] && UnbornUntouched(st, ctx)
      {
        assert Ready(states[i], acts[i]);
        ghost var st' := states[i + 1];
        forall v | 0 <= v < |ctx| && v < |st'.workers| && Unborn(st', v) ensures Unborn(states[i], v) {
          StepKeepsBorn(states[i], acts[i], v);
        }
        Moves(acts[i]);
      }
    }
  }
}
