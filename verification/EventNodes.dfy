/**
 Event nodes from allocation to free, with copies to user space that may fail.
 Workers queue at the tail while each scheduler takes, copies out, and on failure
 puts the node back at the head.
 */
module EventNodes {
  import opened Sequences

  /** Where a node is; node numbers are given out in allocation order. */
  datatype Spot = Flight(s: nat) | Queued(s: nat) | Copying(s: nat) | Freed

  /** One scheduler's queue.  `copying` is the node being copied out, if any; `sent`,
      `delivered` and `discarded` are history. */
  datatype Queue = Queue(q: seq<nat>, copying: seq<nat>, closed: bool,
                         sent: seq<nat>, delivered: seq<nat>, discarded: seq<nat>)

  /** `freed` and `abandoned` are history. */
  datatype State = State(nodes: seq<Spot>, queues: seq<Queue>, freed: seq<nat>, abandoned: seq<nat>)

  datatype Action =
    | Alloc(s: nat)      // alloc_ums_event for scheduler s
    | Enqueue(n: nat)    // enqueue at the tail, under the lock
    | Abandon(n: nat)    // free a node that will not be queued
    | Take(s: nat)       // unlink the first node, under the lock
    | CopyOk(s: nat)     // copied out: free the node
    | CopyFail(s: nat)   // not copied out: back to the head
    | Close(s: nat)      // ums_scheduler_destroy starts
    | Discard(s: nat)    // ... and frees the first node

  predicate Enabled(st: State, a: Action) {
    match a
    case Alloc(s) => s < |st.queues| && !st.queues[s].closed
    case Enqueue(n) =>
      && n < |st.nodes| && st.nodes[n].Flight? && st.nodes[n].s < |st.queues|
      && !st.queues[st.nodes[n].s].closed
    case Abandon(n) => n < |st.nodes| && st.nodes[n].Flight?
    case Take(s) => s < |st.queues| && !st.queues[s].closed && st.queues[s].copying == [] && st.queues[s].q != []
    case CopyOk(s) => s < |st.queues| && |st.queues[s].copying| == 1
    case CopyFail(s) => s < |st.queues| && |st.queues[s].copying| == 1
    case Close(s) => s < |st.queues| && st.queues[s].copying == []
    case Discard(s) => s < |st.queues| && st.queues[s].closed && st.queues[s].q != []
  }

  function Put(st: State, s: nat, u: Queue): State
    requires s < |st.queues|
  {
    st.(queues := st.queues[s := u])
  }

  function Mark(st: State, n: nat, p: Spot): State {
    if n < |st.nodes| then st.(nodes := st.nodes[n := p]) else st
  }

  function Free(st: State, n: nat): State {
    Mark(st, n, Freed).(freed := st.freed + [n])
  }

  function Step(st: State, a: Action): State
    requires Enabled(st, a)
  {
    match a
    case Alloc(s) => st.(nodes := st.nodes + [Flight(s)])
    case Enqueue(n) =>
      var s := st.nodes[n].s;
      var u := st.queues[s];
      Mark(Put(st, s, u.(q := u.q + [n], sent := u.sent + [n])), n, Queued(s))
    case Abandon(n) => Free(st, n).(abandoned := st.abandoned + [n])
    case Take(s) =>
      var u := st.queues[s];
      Mark(Put(st, s, u.(q := u.q[1..], copying := [u.q[0]])), u.q[0], Copying(s))
    case CopyOk(s) =>
      var u := st.queues[s];
      Free(Put(st, s, u.(copying := [], delivered := u.delivered + u.copying)), u.copying[0])
    case CopyFail(s) =>
      var u := st.queues[s];
      Mark(Put(st, s, u.(q := u.copying + u.q, copying := [])), u.copying[0], Queued(s))
    case Close(s) => Put(st, s, st.queues[s].(closed := true))
    case Discard(s) =>
      var u := st.queues[s];
      Free(Put(st, s, u.(q := u.q[1..], discarded := u.discarded + [u.q[0]])), u.q[0])
  }

  function Pending(u: Queue): seq<nat> { u.copying + u.q }

  /** Nodes of `q` are all different and all in the given spot. */
  ghost predicate AllAt(nodes: seq<Spot>, q: seq<nat>, p: Spot) {
    Distinct(q) && forall i :: 0 <= i < |q| ==> q[i] < |nodes| && nodes[q[i]] == p
  }

  /** What a queue has disposed of. */
  function Disposed(u: Queue): seq<nat> { u.delivered + u.discarded }

  ghost predicate QueueOk(nodes: seq<Spot>, u: Queue, s: nat) {
    && |u.copying| <= 1 && AllAt(nodes, u.q, Queued(s)) && AllAt(nodes, u.copying, Copying(s))
    && AllAt(nodes, Disposed(u), Freed)
    && (u.closed ==> u.copying == []) && (!u.closed ==> u.discarded == [])
    && u.sent == Disposed(u) + Pending(u)
  }

  ghost predicate NodeOk(st: State, n: nat)
    requires n < |st.nodes|
  {
    match st.nodes[n]
    case Flight(s) => s < |st.queues|
    case Queued(s) => s < |st.queues| && n in st.queues[s].q
    case Copying(s) => s < |st.queues| && st.queues[s].copying == [n]
    case Freed => n in st.freed
  }

  /** Two schedulers never dispose of the same node, and none of an abandoned one. */
  ghost predicate Apart(queues: seq<Queue>, abandoned: seq<nat>) {
    && (forall s, t, n :: 0 <= s < t < |queues| && n in Disposed(queues[s]) ==> n !in Disposed(queues[t]))
    && (forall s, n :: 0 <= s < |queues| && n in Disposed(queues[s]) ==> n !in abandoned)
  }

  /** `n` has been delivered, discarded or abandoned. */
  ghost predicate Accounted(queues: seq<Queue>, abandoned: seq<nat>, n: nat) {
    n in abandoned || exists s :: 0 <= s < |queues| && n in Disposed(queues[s])
  }

  ghost predicate Inv(st: State) {
    && (forall s :: 0 <= s < |st.queues| ==> QueueOk(st.nodes, st.queues[s], s))
    && (forall n :: 0 <= n < |st.nodes| ==> NodeOk(st, n))
    && AllAt(st.nodes, st.freed, Freed) && AllAt(st.nodes, st.abandoned, Freed)
    && Apart(st.queues, st.abandoned)
    && (forall n :: n in st.freed ==> Accounted(st.queues, st.abandoned, n))
  }

  // ------------------------------------------------------------ preservation

  /** Only node `n` and the queue of scheduler `s` change, and `n` is in no other queue. */
  ghost predicate Touches(st: State, st': State, n: nat, s: nat) {
    && n < |st.nodes| && |st'.nodes| == |st.nodes| && |st'.queues| == |st.queues|
    && st'.nodes == st.nodes[n := st'.nodes[n]]
    && !st.nodes[n].Freed? && (st.nodes[n].Queued? || st.nodes[n].Copying? ==> st.nodes[n].s == s)
    && s < |st.queues| && st'.queues == st.queues[s := st'.queues[s]]
    && (forall m :: m in st.queues[s].q && m != n ==> m in st'.queues[s].q)
    && (st.queues[s].copying == [] || st.queues[s].copying == [n] || st'.queues[s].copying == st.queues[s].copying)
  }

  /** A node freed by this step is the one more disposed of, by `s` or by being abandoned. */
  ghost predicate Disposes(st: State, st': State, n: nat, s: nat)
    requires s < |st.queues| && s < |st'.queues| && n < |st'.nodes|
  {
    if st'.nodes[n].Freed? then
      && st'.freed == st.freed + [n]
      && (|| (st'.abandoned == st.abandoned + [n] && Disposed(st'.queues[s]) == Disposed(st.queues[s]))
          || (st'.abandoned == st.abandoned && Disposed(st'.queues[s]) == Disposed(st.queues[s]) + [n]))
    else
      && st'.freed == st.freed && st'.abandoned == st.abandoned
      && Disposed(st'.queues[s]) == Disposed(st.queues[s])
  }

  lemma Frame(st: State, st': State, n: nat, s: nat)
    requires Inv(st) && Touches(st, st', n, s) && Disposes(st, st', n, s)
    requires QueueOk(st'.nodes, st'.queues[s], s) && NodeOk(st', n)
    ensures Inv(st')
  {
    forall t | 0 <= t < |st'.queues| ensures QueueOk(st'.nodes, st'.queues[t], t) {
      if t != s { OtherQueue(st, st', n, s, t); }
    }
    forall m | 0 <= m < |st'.nodes| ensures NodeOk(st', m) {
      if m != n { OtherNode(st, st', n, s, m); }
    }
    FrameFreed(st, st', n, s);
  }

  lemma OtherQueue(st: State, st': State, n: nat, s: nat, t: nat)
    requires t < |st.queues| && t != s && QueueOk(st.nodes, st.queues[t], t) && Touches(st, st', n, s)
    ensures QueueOk(st'.nodes, st'.queues[t], t)
  {}

  lemma OtherNode(st: State, st': State, n: nat, s: nat, m: nat)
    requires m < |st.nodes| && m != n && NodeOk(st, m) && Touches(st, st', n, s)
    requires forall x :: x in st.freed ==> x in st'.freed
    ensures NodeOk(st', m)
  {}

  /** A node that is not freed has not been disposed of. */
  lemma NotDisposed(st: State, n: nat, t: nat)
    requires Inv(st) && n < |st.nodes| && !st.nodes[n].Freed? && t < |st.queues|
    ensures n !in Disposed(st.queues[t]) && n !in st.abandoned && n !in st.freed
  {
    assert QueueOk(st.nodes, st.queues[t], t);
  }

  lemma FrameFreed(st: State, st': State, n: nat, s: nat)
    requires Inv(st) && Touches(st, st', n, s) && Disposes(st, st', n, s)
    ensures AllAt(st'.nodes, st'.freed, Freed) && AllAt(st'.nodes, st'.abandoned, Freed)
    ensures Apart(st'.queues, st'.abandoned)
    ensures forall m :: m in st'.freed ==> Accounted(st'.queues, st'.abandoned, m)
  {
    NotDisposed(st, n, s);
    forall t | 0 <= t < |st.queues| ensures n !in Disposed(st.queues[t]) { NotDisposed(st, n, t); }
    forall t | 0 <= t < |st.queues|
      ensures forall m :: m in Disposed(st'.queues[t]) ==> m in Disposed(st.queues[t]) || (m == n && t == s)
      ensures forall m :: m in Disposed(st.queues[t]) ==> m in Disposed(st'.queues[t])
    {}
    forall m | m in st'.freed ensures Accounted(st'.queues, st'.abandoned, m) {
      if m == n { assert n in st'.abandoned || n in Disposed(st'.queues[s]); }
      else { assert Accounted(st.queues, st.abandoned, m); }
    }
  }

  lemma EnqueueKeepsInv(st: State, n: nat)
    requires Inv(st) && Enabled(st, Enqueue(n))
    ensures Inv(Step(st, Enqueue(n)))
  {
    var st', s := Step(st, Enqueue(n)), st.nodes[n].s;
    assert QueueOk(st.nodes, st.queues[s], s);
    NotDisposed(st, n, s);
    assert Pending(st'.queues[s]) == Pending(st.queues[s]) + [n];
    Frame(st, st', n, s);
  }

  lemma TakeKeepsInv(st: State, s: nat)
    requires Inv(st) && Enabled(st, Take(s))
    ensures Inv(Step(st, Take(s)))
  {
    var st', u := Step(st, Take(s)), st.queues[s];
    assert QueueOk(st.nodes, u, s);
    NotDisposed(st, u.q[0], s);
    assert Pending(st'.queues[s]) == Pending(u);
    Frame(st, st', u.q[0], s);
  }

  lemma DiscardKeepsInv(st: State, s: nat)
    requires Inv(st) && Enabled(st, Discard(s))
    ensures Inv(Step(st, Discard(s)))
  {
    var st', u := Step(st, Discard(s)), st.queues[s];
    assert QueueOk(st.nodes, u, s);
    NotDisposed(st, u.q[0], s);
    assert Disposed(st'.queues[s]) == Disposed(u) + [u.q[0]];
    assert Pending(u) == [u.q[0]] + Pending(st'.queues[s]);
    Frame(st, st', u.q[0], s);
  }

  lemma CopyOkKeepsInv(st: State, s: nat)
    requires Inv(st) && Enabled(st, CopyOk(s))
    ensures Inv(Step(st, CopyOk(s)))
  {
    var st', u := Step(st, CopyOk(s)), st.queues[s];
    assert QueueOk(st.nodes, u, s);
    var n := u.copying[0];
    NotDisposed(st, n, s);
    assert u.copying == [n] && u.discarded == [];
    assert Disposed(st'.queues[s]) == Disposed(u) + [n];
    assert Pending(u) == [n] + Pending(st'.queues[s]);
    Frame(st, st', n, s);
  }

  lemma BackFirst(nodes: seq<Spot>, q: seq<nat>, n: nat, s: nat)
    requires AllAt(nodes, q, Queued(s)) && n < |nodes| && nodes[n] == Copying(s)
    ensures AllAt(nodes[n := Queued(s)], [n] + q, Queued(s))
  {
    assert forall i :: 0 <= i < |q| ==> ([n] + q)[i + 1] == q[i];
  }

  lemma CopyFailKeepsInv(st: State, s: nat)
    requires Inv(st) && Enabled(st, CopyFail(s))
    ensures Inv(Step(st, CopyFail(s)))
  {
    var st', u := Step(st, CopyFail(s)), st.queues[s];
    assert QueueOk(st.nodes, u, s);
    var n := u.copying[0];
    NotDisposed(st, n, s);
    assert u.copying == [n] && st'.queues[s].q == [n] + u.q;
    BackFirst(st.nodes, u.q, n, s);
    assert Pending(st'.queues[s]) == Pending(u);
    Frame(st, st', n, s);
  }

  lemma AbandonKeepsInv(st: State, n: nat)
    requires Inv(st) && Enabled(st, Abandon(n))
    ensures Inv(Step(st, Abandon(n)))
  {
    var s := st.nodes[n].s;
    assert NodeOk(st, n);
    assert QueueOk(st.nodes, st.queues[s], s);
    NotDisposed(st, n, s);
    Frame(st, Step(st, Abandon(n)), n, s);
  }

  lemma AllocKeepsInv(st: State, s: nat)
    requires Inv(st) && Enabled(st, Alloc(s))
    ensures Inv(Step(st, Alloc(s)))
  {
    var st' := Step(st, Alloc(s));
    forall t | 0 <= t < |st'.queues| ensures QueueOk(st'.nodes, st'.queues[t], t) {
      assert QueueOk(st.nodes, st.queues[t], t);
    }
    forall n | 0 <= n < |st'.nodes| ensures NodeOk(st', n) {
      if n < |st.nodes| { assert NodeOk(st, n); }
    }
  }

  lemma CloseKeepsInv(st: State, s: nat)
    requires Inv(st) && Enabled(st, Close(s))
    ensures Inv(Step(st, Close(s)))
  {
    var st' := Step(st, Close(s));
    forall t | 0 <= t < |st'.queues| ensures QueueOk(st'.nodes, st'.queues[t], t) {
      assert QueueOk(st.nodes, st.queues[t], t);
    }
    forall n | 0 <= n < |st'.nodes| ensures NodeOk(st', n) { assert NodeOk(st, n); }
    assert forall t :: 0 <= t < |st.queues| ==> Disposed(st'.queues[t]) == Disposed(st.queues[t]);
    forall n | n in st'.freed ensures Accounted(st'.queues, st'.abandoned, n) {
      assert Accounted(st.queues, st.abandoned, n);
    }
  }

  lemma StepKeepsInv(st: State, a: Action)
    requires Inv(st) && Enabled(st, a)
    ensures Inv(Step(st, a))
  {
    match a
    case Enqueue(n) => EnqueueKeepsInv(st, n);
    case Alloc(s) => AllocKeepsInv(st, s);
    case Abandon(n) => AbandonKeepsInv(st, n);
    case Close(s) => CloseKeepsInv(st, s);
    case Take(s) => TakeKeepsInv(st, s);
    case Discard(s) => DiscardKeepsInv(st, s);
    case CopyOk(s) => CopyOkKeepsInv(st, s);
    case CopyFail(s) => CopyFailKeepsInv(st, s);
  }

  // -------------------------------------------------------------------- runs

  ghost predicate Init(st: State) {
    && st.nodes == [] && st.freed == [] && st.abandoned == []
    && forall s :: 0 <= s < |st.queues| ==> st.queues[s] == Queue([], [], false, [], [], [])
  }

  ghost predicate IsRun(states: seq<State>, acts: seq<Action>) {
    && |states| == |acts| + 1 && Init(states[0])
    && forall i {:trigger acts[i]} :: 0 <= i < |acts| ==>
         Enabled(states[i], acts[i]) && states[i + 1] == Step(states[i], acts[i])
  }

  lemma {:induction false} RunInv(states: seq<State>, acts: seq<Action>, i: nat)
    requires IsRun(states, acts) && i < |states|
    ensures Inv(states[i])
  {
    if i > 0 {
      RunInv(states, acts, i - 1);
      StepKeepsInv(states[i - 1], acts[i - 1]);
    }
  }

  /** Where a node is found by looking at the queues. */
  ghost predicate Held(st: State, n: nat, s: nat) {
    s < |st.queues| && n in Pending(st.queues[s])
  }

  /** A node not yet freed is in flight or with exactly one scheduler, once; a freed node is
      with none; and no node is freed twice. */
  lemma NodesConserved(states: seq<State>, acts: seq<Action>, i: nat, n: nat)
    requires IsRun(states, acts) && i < |states| && n < |states[i].nodes|
    ensures
      var st := states[i];
      && (st.nodes[n].Freed? <==> n in st.freed) && Distinct(st.freed)
      && (st.nodes[n].Flight? || st.nodes[n].Freed? <==> forall s :: !Held(st, n, s))
      && (forall s, t :: Held(st, n, s) && Held(st, n, t) ==> s == t)
      && (forall s :: 0 <= s < |st.queues| ==> Distinct(Pending(st.queues[s])))
  {
    RunInv(states, acts, i);
    var st := states[i];
    assert NodeOk(st, n);
    forall s: nat | Held(st, n, s) ensures st.nodes[n] in {Queued(s), Copying(s)} {
      assert QueueOk(st.nodes, st.queues[s], s);
    }
    if st.nodes[n].Queued? || st.nodes[n].Copying? {
      assert Held(st, n, st.nodes[n].s);
    }
    forall s | 0 <= s < |st.queues| ensures Distinct(Pending(st.queues[s])) {
      assert QueueOk(st.nodes, st.queues[s], s);
    }
  }

  /** A node is freed exactly when it was delivered by, or discarded with, one scheduler, once,
      or abandoned, once; never in two of these ways.  A node in flight was never sent. */
  lemma FreedOnce(states: seq<State>, acts: seq<Action>, i: nat, n: nat)
    requires IsRun(states, acts) && i < |states| && n < |states[i].nodes|
    ensures
      var st := states[i];
      && (st.nodes[n].Freed? <==> Accounted(st.queues, st.abandoned, n))
      && Apart(st.queues, st.abandoned) && Distinct(st.abandoned)
      && (forall s :: 0 <= s < |st.queues| ==> Distinct(Disposed(st.queues[s])))
      && (st.nodes[n].Flight? ==> forall s :: 0 <= s < |st.queues| ==> n !in st.queues[s].sent)
  {
    RunInv(states, acts, i);
    var st := states[i];
    assert NodeOk(st, n);
    forall s | 0 <= s < |st.queues|
      ensures Distinct(Disposed(st.queues[s])) && (n in Disposed(st.queues[s]) ==> st.nodes[n].Freed?)
      ensures st.nodes[n].Flight? ==> n !in st.queues[s].sent
    {
      assert QueueOk(st.nodes, st.queues[s], s);
    }
  }

  /** Nothing is in flight and every queue has been closed and emptied. */
  ghost predicate Finished(st: State) {
    && (forall n :: 0 <= n < |st.nodes| ==> !st.nodes[n].Flight?)
    && (forall s :: 0 <= s < |st.queues| ==> st.queues[s].closed && st.queues[s].q == [])
  }

  /** In the end every node ever allocated has been freed exactly once. */
  lemma AllFreedOnce(states: seq<State>, acts: seq<Action>, i: nat)
    requires IsRun(states, acts) && i < |states| && Finished(states[i])
    ensures
      var st := states[i];
      Distinct(st.freed) && forall n :: n in st.freed <==> 0 <= n < |st.nodes|
  {
    RunInv(states, acts, i);
    var st := states[i];
    assert forall s :: 0 <= s < |st.queues| ==> QueueOk(st.nodes, st.queues[s], s);
    forall n | 0 <= n < |st.nodes| ensures n in st.freed { assert NodeOk(st, n); }
  }

  /** What each action does, to the nodes and to what is pending. */
  lemma Effects(states: seq<State>, acts: seq<Action>, i: nat)
    requires IsRun(states, acts) && i < |acts|
    requires Enabled(states[i], acts[i]) && |states[i + 1].queues| == |states[i].queues|
    ensures
      var st, st' := states[i], states[i + 1];
      match acts[i]
      case Alloc(s) => st'.nodes == st.nodes + [Flight(s)] && st'.queues == st.queues
      case Enqueue(n) =>
        var s := st.nodes[n].s;
        st'.nodes == st.nodes[n := Queued(s)] && Pending(st'.queues[s]) == Pending(st.queues[s]) + [n]
      case Abandon(n) => st'.nodes == st.nodes[n := Freed] && st'.queues == st.queues
      case Take(s) => Pending(st.queues[s]) == st'.queues[s].copying + st.queues[s].q[1..] == Pending(st'.queues[s])
      case CopyOk(s) => Pending(st.queues[s]) == [st.queues[s].copying[0]] + Pending(st'.queues[s])
      case CopyFail(s) => st'.queues[s].copying == [] && st'.queues[s].q == Pending(st.queues[s])
      case Close(s) => st'.queues[s].closed && Pending(st'.queues[s]) == Pending(st.queues[s])
      case Discard(s) => Pending(st.queues[s]) == [st.queues[s].q[0]] + Pending(st'.queues[s])
  {
    RunInv(states, acts, i);
    var st, a := states[i], acts[i];
    assert states[i + 1] == Step(st, a);
    match a
    case Enqueue(n) =>
      var s := st.nodes[n].s;
      assert st.queues[s].copying + (st.queues[s].q + [n]) == Pending(st.queues[s]) + [n];
    case CopyOk(s) =>
      assert st.queues[s].copying == [st.queues[s].copying[0]];
      assert [] + st.queues[s].q == st.queues[s].q;
    case Discard(s) => assert QueueOk(st.nodes, st.queues[s], s);
    case _ =>
  }

  // ------------------------------------------------------- what can be done

  lemma OneMore(states: seq<State>, acts: seq<Action>, a: Action)
    requires IsRun(states, acts) && Enabled(states[|acts|], a)
    ensures IsRun(states + [Step(states[|acts|], a)], acts + [a])
  {}

  /** The oldest event of an open queue can always be delivered next. */
  lemma CanDeliver(states: seq<State>, acts: seq<Action>, s: nat) returns (states': seq<State>, acts': seq<Action>)
    requires IsRun(states, acts) && s < |states[|acts|].queues|
    requires !states[|acts|].queues[s].closed && Pending(states[|acts|].queues[s]) != []
    ensures IsRun(states', acts') && states <= states' && acts <= acts'
    ensures
      var u := states[|acts|].queues[s];
      && s < |states'[|acts'|].queues|
      && states'[|acts'|].queues[s].delivered == u.delivered + [Pending(u)[0]]
  {
    RunInv(states, acts, |acts|);
    var st := states[|acts|];
    assert QueueOk(st.nodes, st.queues[s], s);
    states', acts' := states, acts;
    if st.queues[s].copying == [] {
      OneMore(states, acts, Take(s));
      st := Step(st, Take(s));
      states', acts' := states + [st], acts + [Take(s)];
    }
    assert st.queues[s].copying == [Pending(states[|acts|].queues[s])[0]];
    OneMore(states', acts', CopyOk(s));
    states', acts' := states' + [Step(st, CopyOk(s))], acts' + [CopyOk(s)];
  }

  ghost function Unfreed(st: State): set<nat> { set n | 0 <= n < |st.nodes| && !st.nodes[n].Freed? }
  ghost function Open(st: State): set<nat> { set s | 0 <= s < |st.queues| && !st.queues[s].closed }

  /** The next thing to do when winding down, unless there is nothing left. */
  lemma NextToDo(st: State) returns (a: Action)
    requires Inv(st) && !Finished(st)
    ensures Enabled(st, a)
    ensures Unfreed(Step(st, a)) < Unfreed(st) || (Unfreed(Step(st, a)) == Unfreed(st) && Open(Step(st, a)) < Open(st))
  {
    if n :| 0 <= n < |st.nodes| && st.nodes[n].Flight? {
      a := Abandon(n);
      Shrinks(st, a, n);
    } else if s :| 0 <= s < |st.queues| && st.queues[s].copying != [] {
      assert QueueOk(st.nodes, st.queues[s], s);
      a := CopyOk(s);
      Shrinks(st, a, st.queues[s].copying[0]);
    } else if s :| 0 <= s < |st.queues| && !st.queues[s].closed {
      a := Close(s);
      assert Step(st, a).nodes == st.nodes;
      assert s in Open(st) && s !in Open(Step(st, a));
    } else {
      var s :| 0 <= s < |st.queues| && st.queues[s].q != [];
      assert QueueOk(st.nodes, st.queues[s], s);
      a := Discard(s);
      Shrinks(st, a, st.queues[s].q[0]);
    }
  }

  lemma Shrinks(st: State, a: Action, n: nat)
    requires Enabled(st, a) && n < |st.nodes| && !st.nodes[n].Freed? && Step(st, a).nodes == st.nodes[n := Freed]
    ensures Unfreed(Step(st, a)) < Unfreed(st)
  {
    assert n in Unfreed(st) && n !in Unfreed(Step(st, a));
  }

  /** Whatever has happened, winding down can free everything. */
  lemma CanFinish(states: seq<State>, acts: seq<Action>) returns (states': seq<State>, acts': seq<Action>)
    requires IsRun(states, acts)
    ensures IsRun(states', acts') && states <= states' && acts <= acts' && Finished(states'[|acts'|])
    decreases Unfreed(states[|acts|]), Open(states[|acts|])
  {
    var st := states[|acts|];
    RunInv(states, acts, |acts|);
    if Finished(st) {
      states', acts' := states, acts;
    } else {
      var a := NextToDo(st);
      OneMore(states, acts, a);
      states', acts' := CanFinish(states + [Step(st, a)], acts + [a]);
    }
  }

  // ---------------------------------------------------- counting by actions

  function Count(acts: seq<Action>, p: Action -> bool): nat {
    if acts == [] then 0 else Count(acts[..|acts| - 1], p) + if p(acts[|acts| - 1]) then 1 else 0
  }

  function Frees(a: Action): bool { a.Abandon? || a.CopyOk? || a.Discard? }

  lemma CountMore(acts: seq<Action>, i: nat, p: Action -> bool)
    requires 0 < i <= |acts|
    ensures Count(acts[..i], p) == Count(acts[..i - 1], p) + if p(acts[i - 1]) then 1 else 0
  {
    assert acts[..i][..i - 1] == acts[..i - 1] && acts[..i][i - 1] == acts[i - 1];
  }

  /** As many nodes as allocations, and as many frees as actions that free. */
  lemma {:induction false} NodesCounted(states: seq<State>, acts: seq<Action>, i: nat)
    requires IsRun(states, acts) && i < |states|
    ensures |states[i].nodes| == Count(acts[..i], (a: Action) => a.Alloc?)
    ensures |states[i].freed| == Count(acts[..i], Frees)
    ensures |states[i].abandoned| == Count(acts[..i], (a: Action) => a.Abandon?)
  {
    if i > 0 {
      NodesCounted(states, acts, i - 1);
      CountMore(acts, i, (a: Action) => a.Alloc?);
      CountMore(acts, i, Frees);
      CountMore(acts, i, (a: Action) => a.Abandon?);
      StepCounts(states[i - 1], acts[i - 1]);
    }
  }

  lemma StepCounts(st: State, a: Action)
    requires Enabled(st, a)
    ensures |Step(st, a).nodes| == |st.nodes| + if a.Alloc? then 1 else 0
    ensures |Step(st, a).freed| == |st.freed| + if Frees(a) then 1 else 0
    ensures |Step(st, a).abandoned| == |st.abandoned| + if a.Abandon? then 1 else 0
  {}

  /** A scheduler has delivered and discarded as often as it copied out and discarded. */
  lemma {:induction false} QueueCounted(states: seq<State>, acts: seq<Action>, i: nat, s: nat)
    requires IsRun(states, acts) && i < |states| && s < |states[0].queues|
    ensures s < |states[i].queues|
    ensures |states[i].queues[s].delivered| == Count(acts[..i], (a: Action) => a == CopyOk(s))
    ensures |states[i].queues[s].discarded| == Count(acts[..i], (a: Action) => a == Discard(s))
  {
    if i > 0 {
      QueueCounted(states, acts, i - 1, s);
      CountMore(acts, i, (a: Action) => a == CopyOk(s));
      CountMore(acts, i, (a: Action) => a == Discard(s));
      QueueStepCounts(states[i - 1], acts[i - 1], s);
    }
  }

  lemma QueueStepCounts(st: State, a: Action, s: nat)
    requires Enabled(st, a) && s < |st.queues|
    ensures s < |Step(st, a).queues|
    ensures |Step(st, a).queues[s].delivered| == |st.queues[s].delivered| + if a == CopyOk(s) then 1 else 0
    ensures |Step(st, a).queues[s].discarded| == |st.queues[s].discarded| + if a == Discard(s) then 1 else 0
  {}

  // ---------------------------------------------- failures leave no trace

  /** A scheduler's queue without copy failures: what was sent, what was delivered. */
  datatype Fifo = Fifo(sent: seq<nat>, delivered: seq<nat>)

  function View(u: Queue): Fifo { Fifo(u.sent, u.delivered) }

  /** What the action means to a queue that never fails. */
  function Ideal(st: State, f: Fifo, s: nat, a: Action): Fifo
    requires Enabled(st, a)
  {
    match a
    case Enqueue(n) => if st.nodes[n].s == s then f.(sent := f.sent + [n]) else f
    case CopyOk(t) =>
      if t == s && |f.delivered| < |f.sent| then f.(delivered := f.delivered + [f.sent[|f.delivered|]]) else f
    case _ => f
  }

  /** Every step is a step of the ideal queue: a delivery hands over the oldest event not yet
      delivered, and taking, failing and putting back change nothing. */
  lemma FailureIsInvisible(states: seq<State>, acts: seq<Action>, i: nat, s: nat)
    requires IsRun(states, acts) && i < |acts| && s < |states[i].queues| && s < |states[i + 1].queues|
    requires Enabled(states[i], acts[i])
    ensures View(states[i + 1].queues[s]) == Ideal(states[i], View(states[i].queues[s]), s, acts[i])
    ensures acts[i].Take? || acts[i].CopyFail? ==>
              Pending(states[i + 1].queues[s]) == Pending(states[i].queues[s])
  {
    RunInv(states, acts, i);
    var st, st' := states[i], states[i + 1];
    assert QueueOk(st.nodes, st.queues[s], s);
    assert st' == Step(st, acts[i]);
    if acts[i] == CopyOk(s) {
      var u := st.queues[s];
      assert u.sent[|u.delivered|] == Pending(u)[0] == u.copying[0];
      assert u.copying == [u.copying[0]];
    }
  }

  /** Whatever copies fail and whoever queues meanwhile, deliveries follow the order of queuing;
      an event that was sent is delivered, discarded with a closed queue, or still pending. */
  lemma DeliveriesInOrder(states: seq<State>, acts: seq<Action>, i: nat, s: nat)
    requires IsRun(states, acts) && i < |states| && s < |states[i].queues|
    ensures
      var u := states[i].queues[s];
      && u.sent == u.delivered + u.discarded + Pending(u) && (!u.closed ==> u.discarded == [])
  {
    RunInv(states, acts, i);
    assert QueueOk(states[i].nodes, states[i].queues[s], s);
  }
}
