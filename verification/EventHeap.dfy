/**
 The schedulers' event queues as they lie in kernel memory, and all of kernel memory
 together: completion lists, batches and event queues along one run.
 */
module EventHeap {
  import opened Sequences
  import opened Protocol
  import opened Invariant
  import L = IntrusiveList
  import CompletionRings
  import KernelHeap

  type Node = L.ListHead

  // ------------------------------------------------------- what a step does

  datatype Change = Nothing | Enqueue(s: nat, e: Event) | Dequeue(s: nat)

  function ChangeBy(st: State, t: Thread): Change
    requires Ready(st, t)
  {
    match t
    case W(w) =>
      var pc := st.workers[w].pc;
      if pc.WYieldEvent? then Enqueue(pc.s, Yielded(w))
      else if pc.WEndEvent? then Enqueue(pc.s, Terminated(w))
      else Nothing
    case S(s) =>
      var pc := st.scheds[s].pc;
      if pc.SNew? then Enqueue(s, Startup)
      else if pc.SDequeueEvent? then Dequeue(s)
      else Nothing
  }

  function Queues(st: State): (r: seq<seq<Event>>)
    ensures |r| == |st.scheds|
  {
    seq(|st.scheds|, s requires 0 <= s < |st.scheds| => st.scheds[s].evq)
  }

  ghost predicate Changes(qs: seq<seq<Event>>, ch: Change, qs': seq<seq<Event>>) {
    match ch
    case Nothing => qs' == qs
    case Enqueue(s, e) => s < |qs| && qs' == qs[s := qs[s] + [e]]
    case Dequeue(s) => s < |qs| && qs[s] != [] && qs' == qs[s := qs[s][1..]]
  }

  lemma WorkerChanges(st: State, w: nat)
    requires WorkerReady(st, w)
    ensures Changes(Queues(st), ChangeBy(st, W(w)), Queues(WorkerStep(st, w)))
  {}

  lemma SchedChanges(st: State, s: nat)
    requires SchedReady(st, s)
    ensures Changes(Queues(st), ChangeBy(st, S(s)), Queues(SchedStep(st, s)))
  {}

  // ----------------------------------------------------------------- layout

  /** Every node on some queue. */
  ghost function Queued(nodes: seq<seq<Node>>): set<Node> {
    set s, i | 0 <= s < |nodes| && 0 <= i < |nodes[s]| :: nodes[s][i]
  }

  /** Heads are different objects, none of which is queued; a node is only on the queue of the
      scheduler it was allocated for. */
  ghost predicate Separate(heads: seq<Node>, nodes: seq<seq<Node>>, owner: map<Node, nat>) {
    && Distinct(heads)
    && (forall s :: 0 <= s < |heads| ==> heads[s] !in owner)
    && (forall s, i :: 0 <= s < |nodes| && 0 <= i < |nodes[s]| ==> nodes[s][i] in owner && owner[nodes[s][i]] == s)
  }

  /** The nodes in `q` belong to the events in `es`, in order. */
  ghost predicate Carries(event: map<Node, Event>, q: seq<Node>, es: seq<Event>) {
    |q| == |es| && forall i :: 0 <= i < |q| ==> q[i] in event && event[q[i]] == es[i]
  }

  ghost predicate QueueRing(heads: seq<Node>, nodes: seq<seq<Node>>, s: nat)
    requires s < |heads| == |nodes|
    reads heads[s], nodes[s]
  {
    L.List(heads[s], nodes[s])
  }

  /** Memory holds exactly the event queues `qs`. */
  ghost predicate Holds(heads: seq<Node>, nodes: seq<seq<Node>>, owner: map<Node, nat>,
                        event: map<Node, Event>, qs: seq<seq<Event>>)
    reads heads, Queued(nodes)
  {
    && |heads| == |nodes| == |qs| && Separate(heads, nodes, owner)
    && (forall s :: 0 <= s < |nodes| ==> QueueRing(heads, nodes, s))
    && (forall s :: 0 <= s < |nodes| ==> Carries(event, nodes[s], qs[s]))
  }

  /** A region that holds only head `s` and nodes of `s` misses every other queue. */
  lemma Misses(heads: seq<Node>, nodes: seq<seq<Node>>, owner: map<Node, nat>, s: nat, region: set<Node>, t: nat)
    requires s < |heads| == |nodes| && t < |heads| && t != s && Separate(heads, nodes, owner)
    requires forall x :: x in region ==> x == heads[s] || (x in owner && owner[x] == s) || x !in owner
    requires forall x :: x in region && x !in owner ==> x !in heads || x == heads[s]
    ensures heads[t] !in region && forall x :: x in nodes[t] ==> x !in region
  {}

  ghost predicate RingsExcept(heads: seq<Node>, nodes: seq<seq<Node>>, s: nat)
    requires |heads| == |nodes|
    reads heads, Queued(nodes)
  {
    forall t :: 0 <= t < |heads| && t != s ==> QueueRing(heads, nodes, t)
  }

  /** Put a node last on one queue; the other queues are not disturbed. */
  method Append(heads: seq<Node>, s: nat, n: Node, ghost nodes: seq<seq<Node>>, ghost owner: map<Node, nat>)
    requires s < |heads| == |nodes| && Separate(heads, nodes, owner) && n !in heads && n !in owner
    requires QueueRing(heads, nodes, s) && RingsExcept(heads, nodes, s)
    modifies n, heads[s], nodes[s]
    ensures L.List(heads[s], nodes[s] + [n]) && RingsExcept(heads, nodes, s)
  {
    ghost var region := {n, heads[s]} + Elements(nodes[s]);
    CompletionRings.HeadNeighbours(heads[s], nodes[s]);
    L.AddTail(n, heads[s], nodes[s]);
    forall t | 0 <= t < |heads| && t != s ensures QueueRing(heads, nodes, t) {
      Misses(heads, nodes, owner, s, region, t);
      assert old(QueueRing(heads, nodes, t));
    }
  }

  /** Take the first node of one queue; the other queues are not disturbed. */
  method Shift(heads: seq<Node>, s: nat, ghost nodes: seq<seq<Node>>, ghost owner: map<Node, nat>)
    returns (first: Node)
    requires s < |heads| == |nodes| && Separate(heads, nodes, owner) && nodes[s] != []
    requires QueueRing(heads, nodes, s) && RingsExcept(heads, nodes, s)
    modifies heads[s], nodes[s]
    ensures first == nodes[s][0] && L.List(heads[s], nodes[s][1..]) && RingsExcept(heads, nodes, s)
  {
    ghost var region := {heads[s]} + Elements(nodes[s]);
    var second;
    first, second := CompletionRings.PopFirst(heads[s], nodes[s]);
    forall t | 0 <= t < |heads| && t != s ensures QueueRing(heads, nodes, t) {
      Misses(heads, nodes, owner, s, region, t);
      assert old(QueueRing(heads, nodes, t));
    }
  }

  /** Replacing queue `s` by `q`, all of whose nodes belong to `s`. */
  lemma Replaced(heads: seq<Node>, nodes: seq<seq<Node>>, owner: map<Node, nat>, s: nat, q: seq<Node>)
    requires s < |heads| == |nodes| && Separate(heads, nodes, owner) && RingsExcept(heads, nodes, s)
    requires L.List(heads[s], q) && forall i :: 0 <= i < |q| ==> q[i] in owner && owner[q[i]] == s
    ensures
      var nodes' := nodes[s := q];
      Separate(heads, nodes', owner) && forall t :: 0 <= t < |heads| ==> QueueRing(heads, nodes', t)
  {
    var nodes' := nodes[s := q];
    forall t | 0 <= t < |heads| ensures QueueRing(heads, nodes', t) {
      if t != s { assert QueueRing(heads, nodes, t); }
    }
  }

  lemma Adopts(heads: seq<Node>, nodes: seq<seq<Node>>, owner: map<Node, nat>, n: Node, s: nat)
    requires Separate(heads, nodes, owner) && n !in heads && n !in owner
    ensures Separate(heads, nodes, owner[n := s])
  {}

  lemma CarriesMore(event: map<Node, Event>, q: seq<Node>, es: seq<Event>, n: Node, e: Event)
    requires Carries(event, q, es) && n !in q
    ensures Carries(event[n := e], q + [n], es + [e])
  {}

  lemma AllCarry(event: map<Node, Event>, nodes: seq<seq<Node>>, qs: seq<seq<Event>>, s: nat, n: Node, e: Event)
    requires s < |nodes| == |qs| && forall t :: 0 <= t < |nodes| ==> n !in nodes[t] && Carries(event, nodes[t], qs[t])
    ensures
      var nodes', qs' := nodes[s := nodes[s] + [n]], qs[s := qs[s] + [e]];
      forall t :: 0 <= t < |nodes'| ==> Carries(event[n := e], nodes'[t], qs'[t])
  {
    var nodes', qs' := nodes[s := nodes[s] + [n]], qs[s := qs[s] + [e]];
    forall t | 0 <= t < |nodes'| ensures Carries(event[n := e], nodes'[t], qs'[t]) {
      if t == s { CarriesMore(event, nodes[s], qs[s], n, e); }
    }
  }

  lemma EnqueueDone(heads: seq<Node>, nodes: seq<seq<Node>>, owner: map<Node, nat>, event: map<Node, Event>,
                    qs: seq<seq<Event>>, s: nat, n: Node, e: Event)
    requires s < |heads| == |nodes| == |qs| && Separate(heads, nodes, owner) && RingsExcept(heads, nodes, s)
    requires L.List(heads[s], nodes[s] + [n]) && n !in heads && n !in owner
    requires forall t :: 0 <= t < |nodes| ==> Carries(event, nodes[t], qs[t])
    ensures Holds(heads, nodes[s := nodes[s] + [n]], owner[n := s], event[n := e], qs[s := qs[s] + [e]])
  {
    Adopts(heads, nodes, owner, n, s);
    var q := nodes[s] + [n];
    assert forall i :: 0 <= i < |q| ==> q[i] == if i < |nodes[s]| then nodes[s][i] else n;
    Replaced(heads, nodes, owner[n := s], s, q);
    AllCarry(event, nodes, qs, s, n, e);
  }

  lemma CarriesFewer(event: map<Node, Event>, q: seq<Node>, es: seq<Event>)
    requires Carries(event, q, es) && q != []
    ensures Carries(event, q[1..], es[1..])
  {}

  /** Nodes that `ns` had already, or that `q` brings. */
  lemma QueuedBy(nodes: seq<seq<Node>>, s: nat, q: seq<Node>)
    requires s < |nodes|
    ensures forall x :: x in Queued(nodes[s := q]) ==> x in Queued(nodes) || x in q
  {}

  /** Kernel memory for the event queues along a run. */
  class EventMemory {
    const heads: seq<Node>
    ghost var nodes: seq<seq<Node>>
    ghost var owner: map<Node, nat>
    var event: map<Node, Event>
    var st: State

    ghost predicate Valid()
      reads this, heads, Queued(nodes)
    {
      Holds(heads, nodes, owner, event, Queues(st))
    }

    /** One empty queue per scheduler. */
    constructor (heads: seq<Node>, st: State)
      requires Init(st) && |heads| == |st.scheds| && Distinct(heads)
      modifies heads
      ensures Valid() && this.st == st && this.heads == heads && Queued(nodes) == {}
      ensures forall s :: 0 <= s < |nodes| ==> nodes[s] == []
    {
      this.heads := heads;
      this.st := st;
      nodes, owner, event := seq(|heads|, i => []), map[], map[];
      new;
      for i := 0 to |heads|
        invariant this.st == st && event == map[] && owner == map[] && nodes == seq(|heads|, i => [])
        invariant forall s :: 0 <= s < i ==> L.List(heads[s], [])
      {
        L.Init(heads[i]);
      }
      assert forall s :: 0 <= s < |st.scheds| ==> InitSched(st, st.scheds[s]);
    }

    /** `enqueue_ums_sched_event` at the tail, with a new node. */
    method Enqueues(s: nat, e: Event)
      requires Valid() && s < |heads|
      modifies this, heads, Queued(nodes)
      ensures st == old(st) && fresh(Queued(nodes) - old(Queued(nodes)))
      ensures Holds(heads, nodes, owner, event, old(Queues(st)[s := Queues(st)[s] + [e]]))
    {
      var n := new L.ListHead(0);
      assert QueueRing(heads, nodes, s);
      assert n !in owner;
      Append(heads, s, n, nodes, owner);
      EnqueueDone(heads, nodes, owner, event, Queues(st), s, n, e);
      QueuedBy(nodes, s, nodes[s] + [n]);
      owner, event, nodes := owner[n := s], event[n := e], nodes[s := nodes[s] + [n]];
    }

    /** `do_dequeue_ums_sched_event` on a queue that is not empty. */
    method Dequeues(s: nat) returns (e: Event)
      requires Valid() && s < |heads| && st.scheds[s].evq != []
      modifies this, heads, Queued(nodes)
      ensures st == old(st) && fresh(Queued(nodes) - old(Queued(nodes))) && e == st.scheds[s].evq[0]
      ensures Holds(heads, nodes, owner, event, old(Queues(st)[s := Queues(st)[s][1..]]))
    {
      ghost var q, es := nodes[s], Queues(st)[s];
      assert QueueRing(heads, nodes, s) && Carries(event, q, es);
      var first := Shift(heads, s, nodes, owner);
      Replaced(heads, nodes, owner, s, q[1..]);
      QueuedBy(nodes, s, q[1..]);
      CarriesFewer(event, q, es);
      e := event[first];
      nodes := nodes[s := q[1..]];
    }

    /** Any step of any thread. */
    method Moves(t: Thread)
      requires Valid() && Ready(st, t)
      modifies this, heads, Queued(nodes)
      ensures Valid() && st == Step(old(st), t) && fresh(Queued(nodes) - old(Queued(nodes)))
    {
      if t.W? { WorkerChanges(st, t.w); } else { SchedChanges(st, t.s); }
      match ChangeBy(st, t)
      case Nothing =>
        st := Step(st, t);
      case Enqueue(s, e) =>
        Enqueues(s, e);
        st := Step(st, t);
      case Dequeue(s) =>
        var e := Dequeues(s);
        st := Step(st, t);
    }
  }

  lemma StillUnborn(st: State, t: Thread, st': State)
    requires Inv(st) && Ready(st, t) && st' == Step(st, t)
    ensures forall v :: 0 <= v < |st'.workers| && KernelHeap.Unborn(st', v) ==>
              v < |st.workers| && KernelHeap.Unborn(st, v)
  {
    forall v | 0 <= v < |st'.workers| && KernelHeap.Unborn(st', v)
      ensures v < |st.workers| && KernelHeap.Unborn(st, v)
    {
      KernelHeap.StepKeepsBorn(st, t, v);
    }
  }

  /** All rings of the kernel: completion lists and batches, and event queues. */
  class Kernel {
    const lists: KernelHeap.Memory
    const events: EventMemory

    /** Empty completion lists and event queues. */
    constructor (heads: seq<Node>, ctx: seq<Node>, queues: seq<Node>, st: State)
      requires Init(st) && |heads| == |st.lists| && |ctx| == |st.workers| && |queues| == |st.scheds|
      requires KernelHeap.Separate(heads, ctx) && Distinct(queues)
      requires forall x :: x in queues ==> x !in heads && x !in ctx
      modifies heads, queues
      ensures Valid() && lists.st == st && fresh(lists) && fresh(events)
      ensures lists.heads == heads && lists.ctx == ctx && events.heads == queues && Queued(events.nodes) == {}
    {
      var e := new EventMemory(queues, st);
      label Queued:
      var m := new KernelHeap.Memory(heads, ctx, st);
      forall s | 0 <= s < |queues| ensures QueueRing(queues, e.nodes, s) {
        assert e.nodes[s] == [] && queues[s] !in heads;
        assert old@Queued(QueueRing(queues, e.nodes, s));
      }
      assert e.Valid() && m.Valid();
      lists := m;
      events := e;
    }

    ghost predicate Valid()
      reads this, lists, lists.heads, lists.ctx, events, events.heads, Queued(events.nodes)
    {
      && lists.Valid() && events.Valid() && lists.st == events.st
      && Apart()
    }

    /** No event queue shares a node with a list of contexts. */
    ghost predicate Apart()
      reads this, events
    {
      && (forall x :: x in events.heads ==> x !in lists.heads && x !in lists.ctx)
      && (forall x :: x in Queued(events.nodes) ==> x !in lists.heads && x !in lists.ctx)
    }

    lemma Elsewhere(s: nat)
      requires s < |events.heads| == |events.nodes| && Apart()
      ensures events.heads[s] !in lists.heads && events.heads[s] !in lists.ctx
      ensures
        var q := events.nodes[s];
        forall i :: 0 <= i < |q| ==> q[i] !in lists.heads && q[i] !in lists.ctx
    {
      var q := events.nodes[s];
      forall i | 0 <= i < |q| ensures q[i] in Queued(events.nodes) {}
    }

    /** The part of a step that concerns lists of contexts. */
    method ListsMove(t: Thread)
      requires Valid() && Ready(lists.st, t)
      modifies lists, lists.heads, lists.ctx
      ensures lists.Valid() && lists.st == Step(old(lists.st), t) && events.Valid()
      ensures KernelHeap.UnbornUntouched(lists.st, lists.ctx)
    {
      lists.Moves(t);
      forall s | 0 <= s < |events.heads| ensures QueueRing(events.heads, events.nodes, s) {
        Elsewhere(s);
        ghost var h, q := events.heads[s], events.nodes[s];
        assert h.next == old(h.next) && h.prev == old(h.prev);
        assert forall i :: 0 <= i < |q| ==> q[i].next == old(q[i].next) && q[i].prev == old(q[i].prev);
        assert old(QueueRing(events.heads, events.nodes, s));
      }
    }

    /** The part of a step that concerns event queues. */
    method EventsMove(t: Thread)
      requires events.Valid() && lists.Valid() && Apart() && Ready(events.st, t)
      modifies events, events.heads, Queued(events.nodes)
      ensures events.Valid() && events.st == Step(old(events.st), t)
      ensures lists.Valid() && Apart() && fresh(Queued(events.nodes) - old(Queued(events.nodes)))
      ensures KernelHeap.UnbornUntouched(lists.st, lists.ctx)
    {
      ghost var h, c, e, n := lists.heads, lists.ctx, events.heads, Queued(events.nodes);
      assert forall i :: 0 <= i < |h| ==> h[i] !in e && h[i] !in n;
      assert forall i :: 0 <= i < |c| ==> c[i] !in e && c[i] !in n;
      events.Moves(t);
      assert forall i :: 0 <= i < |h| ==> h[i].next == old(h[i].next) && h[i].prev == old(h[i].prev);
      assert forall i :: 0 <= i < |c| ==> c[i].next == old(c[i].next) && c[i].prev == old(c[i].prev);
      assert old(lists.Valid());
    }

    /** Any step of any thread. */
    method Moves(t: Thread)
      requires Valid() && Ready(lists.st, t)
      modifies lists, lists.heads, lists.ctx, events, events.heads, Queued(events.nodes)
      ensures Valid() && lists.st == Step(old(lists.st), t)
      ensures fresh(Queued(events.nodes) - old(Queued(events.nodes)))
      ensures KernelHeap.UnbornUntouched(lists.st, lists.ctx)
    {
      ListsMove(t);
      EventsMove(t);
    }

    /** A whole run: at its end memory holds exactly the completion lists, the batches and the
        event queues of its last state. */
    method Follows(acts: seq<Thread>, ghost states: seq<State>)
      requires Valid() && IsRun(states, acts) && lists.st == states[0]
      modifies lists, lists.heads, lists.ctx, events, events.heads, Queued(events.nodes)
      ensures Valid() && lists.st == events.st == states[|acts|]
      ensures KernelHeap.Represents(states[|acts|], lists.heads, lists.ctx)
      ensures KernelHeap.LooseLooped(states[|acts|], lists.ctx)
      ensures KernelHeap.UnbornUntouched(states[|acts|], lists.ctx)
      ensures Holds(events.heads, events.nodes, events.owner, events.event, Queues(states[|acts|]))
    {
      for i := 0 to |acts|
        invariant Valid() && lists.st == states[i]
        invariant fresh(Queued(events.nodes) - old(Queued(events.nodes)))
        invariant KernelHeap.UnbornUntouched(lists.st, lists.ctx)
      {
        assert Ready(states[i], acts[i]);
        StillUnborn(states[i], acts[i], states[i + 1]);
        Moves(acts[i]);
      }
    }
  }
}
