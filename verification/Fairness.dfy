/**
 Order and counts over whole runs: first in, first out from arrival to execution,
 round-robin on a list with one scheduler, and the balance of context switches.
 */
module Fairness {
  import opened Sequences
  import opened Protocol
  import opened Invariant
  import opened Preservation
  import opened Safety
  import opened Sums
  import opened Progress
  import opened Completion

  // -------------------------------------------------------------------- FIFO

  /** Arrivals on a list are the batches taken from it, in order, then what is on it now;
      a scheduler's batches are its execs, in order, then what it still owns. */
  lemma FifoOrder(states: seq<State>, acts: seq<Thread>, i: nat)
    requires IsRun(states, acts) && i < |states|
    ensures
      var st := states[i];
      && (forall l :: 0 <= l < |st.lists| ==>
            st.lists[l].arrivals == Taken(st.lists[l].log) + st.lists[l].q)
      && (forall s :: 0 <= s < |st.scheds| ==>
            && st.scheds[s].list < |st.lists|
            && TakenBy(st.lists[st.scheds[s].list].log, s) == st.scheds[s].execs + Owned(st.scheds[s]))
  {
    RunInv(states, acts, i);
    var st := states[i];
    forall l | 0 <= l < |st.lists| ensures st.lists[l].arrivals == Taken(st.lists[l].log) + st.lists[l].q {
      assert ListInv(st, l);
    }
    forall s | 0 <= s < |st.scheds|
      ensures st.scheds[s].list < |st.lists| &&
              TakenBy(st.lists[st.scheds[s].list].log, s) == st.scheds[s].execs + Owned(st.scheds[s])
    {
      assert SchedInv(st, s);
    }
  }

  function Count(q: seq<nat>, w: nat): int { multiset(q)[w] }

  function Indices(n: nat): (r: seq<nat>)
    ensures |r| == n
  {
    seq(n, i => i)
  }

  function TakenCount(log: seq<(nat, seq<nat>)>, w: nat): nat -> int {
    (s: nat) => Count(TakenBy(log, s), w)
  }

  lemma {:induction false} SumBump(f: nat -> int, g: nat -> int, xs: seq<nat>, a: nat, d: int)
    requires Distinct(xs) && a in xs
    requires forall x: nat :: g(x) == f(x) + if x == a then d else 0
    ensures SumBy(g, xs) == SumBy(f, xs) + d
  {
    if xs[0] == a {
      assert forall i :: 0 <= i < |xs[1..]| ==> xs[1..][i] == xs[i + 1];
      SumBySame(f, xs[1..], g, xs[1..]);
    } else {
      SumBump(f, g, xs[1..], a, d);
    }
  }

  /** The schedulers' shares of a log add up to the whole log. */
  lemma {:induction false} SharesAddUp(log: seq<(nat, seq<nat>)>, n: nat, w: nat)
    requires forall i :: 0 <= i < |log| ==> log[i].0 < n
    ensures Count(Taken(log), w) == SumBy(TakenCount(log, w), Indices(n))
  {
    if log == [] {
      SumByZero(TakenCount(log, w), Indices(n));
    } else {
      var e, rest := log[|log| - 1], log[..|log| - 1];
      SharesAddUp(rest, n, w);
      assert Indices(n)[e.0] == e.0;
      SumBump(TakenCount(rest, w), TakenCount(log, w), Indices(n), e.0, Count(e.1, w));
    }
  }

  function ShareOf(st: State, l: nat, w: nat): nat -> int {
    (s: nat) => if s < |st.scheds| && st.scheds[s].list == l
                then Count(st.scheds[s].execs + Owned(st.scheds[s]), w) else 0
  }

  /** With any number of schedulers, a worker arrived on a list as often as it is on it now,
      plus its execs by, and places with, the schedulers of that list. */
  lemma NothingLost(states: seq<State>, acts: seq<Thread>, i: nat, l: nat, w: nat)
    requires IsRun(states, acts) && i < |states| && l < |states[i].lists|
    ensures
      var st := states[i];
      Count(st.lists[l].arrivals, w) ==
      Count(st.lists[l].q, w) + SumBy(ShareOf(st, l, w), Indices(|st.scheds|))
  {
    RunInv(states, acts, i);
    var st := states[i];
    assert ListInv(st, l);
    var log, n := st.lists[l].log, |st.scheds|;
    SharesAddUp(log, n, w);
    forall s | 0 <= s < n ensures TakenCount(log, w)(s) == ShareOf(st, l, w)(s) {
      assert SchedInv(st, s);
      if st.scheds[s].list != l { NotTaken(log, s, st.scheds, l); }
    }
    SumBySame(TakenCount(log, w), Indices(n), ShareOf(st, l, w), Indices(n));
  }

  lemma {:induction false} NotTaken(log: seq<(nat, seq<nat>)>, s: nat, scheds: seq<Sched>, l: nat)
    requires s < |scheds| && scheds[s].list != l
    requires forall i :: 0 <= i < |log| ==> log[i].0 < |scheds| && scheds[log[i].0].list == l
    ensures TakenBy(log, s) == []
  {
    if log != [] { NotTaken(log[..|log| - 1], s, scheds, l); }
  }

  // ------------------------------------------------------------- round robin

  lemma StepGrows(st: State, t: Thread, l: nat, s: nat)
    requires Ready(st, t) && l < |st.lists| && s < |st.scheds|
    ensures
      var st' := Step(st, t);
      && |st'.lists| == |st.lists| && |st'.scheds| == |st.scheds|
      && st.lists[l].arrivals <= st'.lists[l].arrivals
      && st.scheds[s].execs <= st'.scheds[s].execs
  {}

  lemma {:induction false} RunGrows(states: seq<State>, acts: seq<Thread>, i: nat, j: nat, l: nat, s: nat)
    requires IsRun(states, acts) && i <= j < |states|
    requires l < |states[i].lists| && s < |states[i].scheds|
    ensures |states[j].lists| == |states[i].lists| && |states[j].scheds| == |states[i].scheds|
    ensures states[i].lists[l].arrivals <= states[j].lists[l].arrivals
    ensures states[i].scheds[s].execs <= states[j].scheds[s].execs
    decreases j - i
  {
    if i < j {
      StepGrows(states[i], acts[i], l, s);
      RunGrows(states, acts, i + 1, j, l, s);
    }
  }

  lemma {:induction false} SoleTaker(log: seq<(nat, seq<nat>)>, s: nat)
    requires forall i :: 0 <= i < |log| ==> log[i].0 == s
    ensures TakenBy(log, s) == Taken(log)
  {
    if log != [] { SoleTaker(log[..|log| - 1], s); }
  }

  /** `s` serves list `l`, and no other scheduler does. */
  ghost predicate OnlyServer(st: State, l: nat, s: nat) {
    && l < |st.lists| && s < |st.scheds|
    && forall t :: 0 <= t < |st.scheds| ==> (st.scheds[t].list == l <==> t == s)
  }

  /** Contexts on list `l` or with scheduler `s`, next first. */
  function Pending(st: State, l: nat, s: nat): seq<nat>
    requires l < |st.lists| && s < |st.scheds|
  {
    Owned(st.scheds[s]) + st.lists[l].q
  }

  /** Arrivals on a list with one scheduler are its execs and then the pending contexts. */
  lemma Queue(st: State, l: nat, s: nat)
    requires OnlyServer(st, l, s) && SchedInv(st, s) && ListInv(st, l)
    ensures st.lists[l].arrivals == st.scheds[s].execs + Pending(st, l, s)
  {
    var c, cl := st.scheds[s], st.lists[l];
    SoleTaker(cl.log, s);
    assert c.execs + Owned(c) + cl.q == c.execs + Pending(st, l, s);
  }

  /** Pending contexts are workers, all different. */
  lemma PendingApart(st: State, l: nat, s: nat)
    requires s < |st.scheds| && SchedInv(st, s) && l < |st.lists| && ListInv(st, l)
    ensures Distinct(Pending(st, l, s))
    ensures forall a :: 0 <= a < |Pending(st, l, s)| ==> Pending(st, l, s)[a] < |st.workers|
  {
    var o, q := Owned(st.scheds[s]), st.lists[l].q;
    assert forall a :: 0 <= a < |o| ==> o[a] < |st.workers| && st.workers[o[a]].place == Held(s);
    assert forall a :: 0 <= a < |q| ==> q[a] < |st.workers| && st.workers[q[a]].place == OnList(l);
    Joined(o, q);
  }

  lemma Joined(a: seq<nat>, b: seq<nat>)
    requires Distinct(a) && Distinct(b)
    requires forall i, j :: 0 <= i < |a| && 0 <= j < |b| ==> a[i] != b[j]
    ensures Distinct(a + b)
  {
    var u := a + b;
    forall i, j | 0 <= i < j < |u| ensures u[i] != u[j] {
      if i < |a| <= j {
        assert u[i] == a[i] && u[j] == b[j - |a|];
      } else if |a| <= i {
        assert u[i] == b[i - |a|] && u[j] == b[j - |a|];
      }
    }
  }

  lemma {:induction false} Pigeonhole(q: seq<nat>, n: nat)
    requires Distinct(q) && forall i :: 0 <= i < |q| ==> q[i] < n
    ensures |q| <= n
  {
    if q != [] {
      assert 0 <= q[0] < n;
      if i :| 0 <= i < |q| && q[i] == n - 1 {
        Pigeonhole(q[..i] + q[i + 1..], n - 1);
      } else {
        Pigeonhole(q, n - 1);
      }
    }
  }

  /** Execs scheduler `s` has made beyond the first `n`. */
  function ExecsSince(st: State, s: nat, n: nat): seq<nat> {
    if s < |st.scheds| && n <= |st.scheds[s].execs| then st.scheds[s].execs[n..] else []
  }

  /** Execs follow the order of arrivals, so execs made while `pending[p]` keeps waiting are
      a stretch of what was pending before it. */
  lemma Stretch(arrivals: seq<nat>, e: seq<nat>, pending: seq<nat>, p: nat,
                arrivals': seq<nat>, e': seq<nat>, pending': seq<nat>)
    requires arrivals == e + pending && arrivals' == e' + pending'
    requires arrivals <= arrivals' && e <= e'
    requires p < |pending| && pending[p] !in e'[|e|..]
    ensures |e'| - |e| <= p && e'[|e|..] == pending[..|e'| - |e|]
  {
    assert arrivals'[|e| + p] == arrivals[|e| + p] == pending[p];
    assert |e'| <= |e| + p;
    forall a | 0 <= a < |e'| - |e| ensures e'[|e|..][a] == pending[a] {
      assert e'[|e| + a] == arrivals'[|e| + a] == arrivals[|e| + a];
    }
  }

  lemma NoTurnTwice(arrivals: seq<nat>, e: seq<nat>, pending: seq<nat>,
                    arrivals': seq<nat>, e': seq<nat>, pending': seq<nat>, w: nat, n: nat)
    requires arrivals == e + pending && arrivals' == e' + pending'
    requires arrivals <= arrivals' && e <= e'
    requires w in pending && w !in e'[|e|..]
    requires Distinct(pending) && forall a :: 0 <= a < |pending| ==> pending[a] < n
    ensures e' == e + e'[|e|..] && Distinct(e'[|e|..]) && |e'[|e|..]| < n
  {
    var p :| 0 <= p < |pending| && pending[p] == w;
    Stretch(arrivals, e, pending, p, arrivals', e', pending');
    Pigeonhole(pending, n);
  }

  lemma ServerStays(states: seq<State>, acts: seq<Thread>, i: nat, j: nat, l: nat, s: nat)
    requires IsRun(states, acts) && i < |states| && j < |states| && OnlyServer(states[i], l, s)
    ensures OnlyServer(states[j], l, s)
  {
    RunShape(states, acts, i);
    RunShape(states, acts, j);
    var st, st' := states[i], states[j];
    assert forall t :: 0 <= t < |st.scheds| ==> st'.scheds[t].list == states[0].scheds[t].list == st.scheds[t].list;
  }

  lemma Between(st: State, st': State, l: nat, s: nat, w: nat)
    requires OnlyServer(st, l, s) && SchedInv(st, s) && ListInv(st, l)
    requires OnlyServer(st', l, s) && SchedInv(st', s) && ListInv(st', l)
    requires st.lists[l].arrivals <= st'.lists[l].arrivals && st.scheds[s].execs <= st'.scheds[s].execs
    requires w in Pending(st, l, s) && w !in ExecsSince(st', s, |st.scheds[s].execs|)
    ensures
      var between := ExecsSince(st', s, |st.scheds[s].execs|);
      && st'.scheds[s].execs == st.scheds[s].execs + between
      && Distinct(between) && |between| < |st.workers|
  {
    Queue(st, l, s);
    Queue(st', l, s);
    PendingApart(st, l, s);
    NoTurnTwice(st.lists[l].arrivals, st.scheds[s].execs, Pending(st, l, s),
                st'.lists[l].arrivals, st'.scheds[s].execs, Pending(st', l, s), w, |st.workers|);
  }

  /** A list with one scheduler, among any others: from the moment a worker is waiting until
      it is executed again, that scheduler executes no worker twice, so it makes fewer execs
      than there are workers. */
  lemma RoundRobin(states: seq<State>, acts: seq<Thread>, i: nat, j: nat, l: nat, s: nat, w: nat)
    requires IsRun(states, acts) && i <= j < |states|
    requires OnlyServer(states[i], l, s) && w in Pending(states[i], l, s)
    requires w !in ExecsSince(states[j], s, |states[i].scheds[s].execs|)
    ensures
      var between := ExecsSince(states[j], s, |states[i].scheds[s].execs|);
      && s < |states[j].scheds|
      && states[j].scheds[s].execs == states[i].scheds[s].execs + between
      && Distinct(between) && |between| < |states[i].workers|
  {
    RunInv(states, acts, i);
    RunInv(states, acts, j);
    ServerStays(states, acts, i, j, l, s);
    RunGrows(states, acts, i, j, l, s);
    Between(states[i], states[j], l, s, w);
  }

  // --------------------------------------------------------- switch accounting

  function SchedSwitches(c: Sched): int { if c.pc.SNew? then 0 else c.ctx.switches }
  function WorkerSwitches(k: Worker): int { if k.pc.WNew? then 0 else k.ctx.switches }

  /** Ended, or past entry with its context marked running. */
  ghost predicate Away(k: Worker) { k.pc.WDestroy? || k.pc.WDone? || (Settled(k) && k.ctx.state.CtxRunning?) }

  ghost function AwayCount(k: Worker): int { if Away(k) then 1 else 0 }

  /** No thread is part-way through a switch, or through an end whose parent still sleeps. */
  ghost predicate Quiescent(st: State) {
    && (forall w :: 0 <= w < |st.workers| ==>
          var pc := st.workers[w].pc;
          !pc.WSwitch? && !pc.WEndRunning? && !pc.WEndWake?)
    && (forall s :: 0 <= s < |st.scheds| ==> !st.scheds[s].pc.SSwitch?)
  }

  /** In a quiescent state the schedulers have switched as often as the workers have, plus
      one per ended worker and one per running worker. */
  lemma SwitchBalance(states: seq<State>, acts: seq<Thread>, i: nat)
    requires IsRun(states, acts) && i < |states| && Quiescent(states[i])
    ensures
      var st := states[i];
      SumBy(SchedSwitches, st.scheds) == SumBy(WorkerSwitches, st.workers) + SumBy(AwayCount, st.workers)
  {
    RunInv(states, acts, i);
    RunShape(states, acts, i);
    ExecBudget(states, acts, i);
    var st := states[i];
    forall s | 0 <= s < |st.scheds| ensures SchedSwitches(st.scheds[s]) == ExecCount(st.scheds[s]) {
      assert SchedInv(st, s);
    }
    SumBySame(SchedSwitches, st.scheds, ExecCount, st.scheds);
    SumBySame(Share, states[0].workers, Share, st.workers);
    var made := k => Share(k) - Turns(k);
    SumByPlus(Share, made, Turns, st.workers);
    forall w | 0 <= w < |st.workers|
      ensures made(st.workers[w]) == WorkerSwitches(st.workers[w]) + AwayCount(st.workers[w])
    {
      Balanced(st, w);
    }
    SumByPlus(made, WorkerSwitches, AwayCount, st.workers);
  }

  lemma Balanced(st: State, w: nat)
    requires Inv(st) && Quiescent(st) && w < |st.workers|
    ensures
      var k := st.workers[w];
      Share(k) - Turns(k) == WorkerSwitches(k) + AwayCount(k)
  {
    assert WorkerInv(st, w);
    var k := st.workers[w];
    if k.place.Executing? { assert SchedInv(st, k.place.s); }
  }

  // --------------------------------------------------- events, exactly once

  /** How often an event is in a scheduler's queue or has been delivered to it. */
  function Tally(e: Event): Sched -> int {
    (c: Sched) => multiset(c.delivered + c.evq)[e]
  }

  /** Whether the worker's next step queues `e`. */
  function Sends(k: Worker, v: nat, e: Event): int {
    if (k.pc.WYieldEvent? && e == Yielded(v)) || (k.pc.WEndEvent? && e == Terminated(v)) then 1 else 0
  }

  lemma WorkerTally(st: State, v: nat, e: Event)
    requires WorkerReady(st, v)
    ensures SumBy(Tally(e), WorkerStep(st, v).scheds) == SumBy(Tally(e), st.scheds) + Sends(st.workers[v], v, e)
  {
    var st', k := WorkerStep(st, v), st.workers[v];
    if k.pc.WYieldEvent? {
      TallyOne(st.scheds, k.pc.s, Yielded(v), e);
    } else if k.pc.WEndEvent? {
      TallyOne(st.scheds, k.pc.s, Terminated(v), e);
    } else {
      WorkerKeepsEvents(st, v);
      SumBySame(Tally(e), st.scheds, Tally(e), st'.scheds);
    }
  }

  lemma WorkerKeepsEvents(st: State, v: nat)
    requires WorkerReady(st, v) && !st.workers[v].pc.WYieldEvent? && !st.workers[v].pc.WEndEvent?
    ensures
      var st' := WorkerStep(st, v);
      && |st'.scheds| == |st.scheds|
      && forall s :: 0 <= s < |st.scheds| ==>
           st'.scheds[s].delivered == st.scheds[s].delivered && st'.scheds[s].evq == st.scheds[s].evq
  {}

  /** Queuing `sent` on one scheduler adds one to its tally and nothing to any other. */
  lemma TallyOne(scheds: seq<Sched>, s: nat, sent: Event, e: Event)
    requires s < |scheds|
    ensures
      var c' := scheds[s].(evq := scheds[s].evq + [sent]);
      SumBy(Tally(e), scheds[s := c']) == SumBy(Tally(e), scheds) + if e == sent then 1 else 0
  {
    var c := scheds[s];
    var c' := c.(evq := c.evq + [sent]);
    assert c'.delivered + c'.evq == c.delivered + c.evq + [sent];
    SumByUpdate(Tally(e), scheds, s, c');
  }

  lemma SchedTrace(st: State, t: nat)
    requires SchedReady(st, t)
    ensures
      var st', c := SchedStep(st, t), st.scheds[t];
      && |st'.scheds| == |st.scheds| && st'.scheds == st.scheds[t := st'.scheds[t]]
      && st'.scheds[t].delivered + st'.scheds[t].evq == c.delivered + c.evq + if c.pc.SNew? then [Startup] else []
  {}

  lemma SchedTally(st: State, t: nat, e: Event)
    requires SchedReady(st, t) && e != Startup
    ensures SumBy(Tally(e), SchedStep(st, t).scheds) == SumBy(Tally(e), st.scheds)
  {
    SchedTrace(st, t);
    SumByUpdate(Tally(e), st.scheds, t, SchedStep(st, t).scheds[t]);
  }

  function YieldsSent(k: Worker): int {
    if k.pc.WNew? then 0 else k.quota - k.todo - if k.pc.WYieldEvent? then 1 else 0
  }

  function EndsSent(k: Worker): int {
    if k.pc.WEndRunning? || k.pc.WEndWake? || k.pc.WDestroy? || k.pc.WDone? then 1 else 0
  }

  lemma WorkerSends(st: State, v: nat, w: nat)
    requires WorkerReady(st, v) && w < |st.workers| && WorkerInv(st, w)
    ensures
      var k, k' := st.workers[w], WorkerStep(st, v).workers[w];
      && YieldsSent(k') == YieldsSent(k) + (if v == w then Sends(k, w, Yielded(w)) else 0)
      && EndsSent(k') == EndsSent(k) + (if v == w then Sends(k, w, Terminated(w)) else 0)
  {}

  lemma SchedSends(st: State, t: nat, w: nat)
    requires SchedReady(st, t) && w < |st.workers|
    ensures
      var k, k' := st.workers[w], SchedStep(st, t).workers[w];
      YieldsSent(k') == YieldsSent(k) && EndsSent(k') == EndsSent(k)
  {}

  /** Events sent on behalf of `w` and events found with the schedulers. */
  ghost predicate Tallied(st: State, w: nat)
    requires w < |st.workers|
  {
    && SumBy(Tally(Yielded(w)), st.scheds) == YieldsSent(st.workers[w])
    && SumBy(Tally(Terminated(w)), st.scheds) == EndsSent(st.workers[w])
  }

  lemma StepTallied(st: State, t: Thread, w: nat)
    requires Inv(st) && Ready(st, t) && w < |st.workers| && Tallied(st, w)
    ensures w < |Step(st, t).workers| && Tallied(Step(st, t), w)
  {
    match t
    case W(v) =>
      assert WorkerInv(st, w);
      WorkerSends(st, v, w);
      WorkerTally(st, v, Yielded(w));
      WorkerTally(st, v, Terminated(w));
    case S(u) =>
      SchedSends(st, u, w);
      SchedTally(st, u, Yielded(w));
      SchedTally(st, u, Terminated(w));
  }

  lemma InitTallied(st: State, w: nat)
    requires Init(st) && w < |st.workers|
    ensures Tallied(st, w)
  {
    assert InitWorker(st, st.workers[w]);
    forall s | 0 <= s < |st.scheds| ensures st.scheds[s].delivered + st.scheds[s].evq == [] {
      assert InitSched(st, st.scheds[s]);
    }
    SumByZero(Tally(Yielded(w)), st.scheds);
    SumByZero(Tally(Terminated(w)), st.scheds);
  }

  lemma {:induction false} RunTallied(states: seq<State>, acts: seq<Thread>, i: nat, w: nat)
    requires IsRun(states, acts) && i < |states| && w < |states[0].workers|
    ensures w < |states[i].workers| && Tallied(states[i], w)
  {
    if i == 0 {
      InitTallied(states[0], w);
    } else {
      RunTallied(states, acts, i - 1, w);
      RunInv(states, acts, i - 1);
      StepTallied(states[i - 1], acts[i - 1], w);
    }
  }

  /** Across all schedulers, a worker's yields made so far each have one YIELD event, and a
      worker has one TERMINATED event exactly from the moment its end queued it. */
  lemma EventsExact(states: seq<State>, acts: seq<Thread>, i: nat, w: nat)
    requires IsRun(states, acts) && i < |states| && w < |states[i].workers|
    ensures SumBy(Tally(Yielded(w)), states[i].scheds) == YieldsSent(states[i].workers[w])
    ensures SumBy(Tally(Terminated(w)), states[i].scheds) == EndsSent(states[i].workers[w])
  {
    RunShape(states, acts, i);
    RunTallied(states, acts, i, w);
  }

  /** After a complete run every worker has been reported as many times as it yields, and
      reported as terminated once. */
  lemma CompleteEvents(states: seq<State>, acts: seq<Thread>, w: nat)
    requires IsRun(states, acts) && Staffed(states[0]) && w < |states[|acts|].workers|
    requires forall t :: !Ready(states[|acts|], t)
    ensures
      var st := states[|acts|];
      && SumBy(Delivered(Yielded(w)), st.scheds) == st.workers[w].quota
      && SumBy(Delivered(Terminated(w)), st.scheds) == 1
  {
    var st := states[|acts|];
    CompleteRun(states, acts);
    AllSent(states, acts, |acts|, w);
    EventsExact(states, acts, |acts|, w);
    AllDelivered(st.scheds, Yielded(w));
    AllDelivered(st.scheds, Terminated(w));
  }

  lemma AllSent(states: seq<State>, acts: seq<Thread>, i: nat, w: nat)
    requires IsRun(states, acts) && i < |states| && w < |states[i].workers| && states[i].workers[w].pc.WDone?
    ensures YieldsSent(states[i].workers[w]) == states[i].workers[w].quota && EndsSent(states[i].workers[w]) == 1
  {
    RunInv(states, acts, i);
    assert WorkerInv(states[i], w);
  }

  lemma AllDelivered(scheds: seq<Sched>, e: Event)
    requires forall s :: 0 <= s < |scheds| ==> scheds[s].evq == []
    ensures SumBy(Tally(e), scheds) == SumBy(Delivered(e), scheds)
  {
    forall s | 0 <= s < |scheds| ensures Tally(e)(scheds[s]) == Delivered(e)(scheds[s]) {
      assert scheds[s].delivered + [] == scheds[s].delivered;
    }
    SumBySame(Tally(e), scheds, Delivered(e), scheds);
  }

  function Delivered(e: Event): Sched -> int {
    (c: Sched) => multiset(c.delivered)[e]
  }
}
