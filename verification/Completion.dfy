/**
 No reachable state with a live worker is stuck, and a complete run makes exactly one
 exec per yield and one more per worker.
 */
module Completion {
  import opened Protocol
  import opened Invariant
  import opened Preservation
  import opened Sums
  import opened Progress

  // ------------------------------------------------------- what never changes

  ghost predicate SameShape(st: State, st': State) {
    && |st'.lists| == |st.lists| && |st'.scheds| == |st.scheds| && |st'.workers| == |st.workers|
    && (forall s :: 0 <= s < |st.scheds| ==> st'.scheds[s].list == st.scheds[s].list)
    && (forall w :: 0 <= w < |st.workers| ==>
          st'.workers[w].list == st.workers[w].list && st'.workers[w].quota == st.workers[w].quota)
  }

  lemma WorkerShape(st: State, w: nat)
    requires WorkerReady(st, w)
    ensures SameShape(st, WorkerStep(st, w))
  {}

  lemma SchedShape(st: State, s: nat)
    requires SchedReady(st, s)
    ensures SameShape(st, SchedStep(st, s))
  {}

  lemma {:induction false} RunShape(states: seq<State>, acts: seq<Thread>, i: nat)
    requires IsRun(states, acts) && i < |states|
    ensures SameShape(states[0], states[i])
  {
    if i > 0 {
      RunShape(states, acts, i - 1);
      match acts[i - 1]
      case W(w) => WorkerShape(states[i - 1], w);
      case S(s) => SchedShape(states[i - 1], s);
    }
  }

  // ----------------------------------------------------------- exec accounting

  function ExecCount(c: Sched): int { |c.execs| }

  /** Execs made so far plus execs still owed. */
  function ExecTotal(st: State): int {
    SumBy(ExecCount, st.scheds) + SumBy(Turns, st.workers)
  }

  lemma WorkerKeepsTotal(st: State, w: nat)
    requires Inv(st) && WorkerReady(st, w)
    ensures ExecTotal(WorkerStep(st, w)) == ExecTotal(st)
  {
    assert WorkerInv(st, w);
    var st' := WorkerStep(st, w);
    SumByUpdate(Turns, st.workers, w, st'.workers[w]);
    if !st.workers[w].pc.WNotify? { WorkerKeepsScheds(st, w); }
    SumBySame(ExecCount, st.scheds, ExecCount, st'.scheds);
    if !st.workers[w].pc.WNotify? && !st.workers[w].pc.WPublish? { WorkerSettles(st, w); }
  }

  lemma SchedKeepsTotal(st: State, s: nat)
    requires Inv(st) && SchedReady(st, s)
    ensures ExecTotal(SchedStep(st, s)) == ExecTotal(st)
  {
    assert SchedInv(st, s);
    var st' := SchedStep(st, s);
    if st.scheds[s].pc.SHand? {
      ExecKeepsTotal(st, s);
    } else {
      if st.scheds[s].pc.SDequeueList? && st.lists[st.scheds[s].list].q != [] {
        TakeKeepsTokens(st, s);
      } else {
        SchedSettles(st, s);
        SchedKeepsWorkers(st, s);
      }
      SumByUpdate(ExecCount, st.scheds, s, st'.scheds[s]);
      SumBySame(Turns, st.workers, Turns, st'.workers);
    }
  }

  lemma ExecKeepsTotal(st: State, s: nat)
    requires Inv(st) && SchedReady(st, s) && st.scheds[s].pc.SHand?
    ensures ExecTotal(SchedStep(st, s)) == ExecTotal(st)
  {
    assert SchedInv(st, s);
    var w, st' := st.scheds[s].pc.w, SchedStep(st, s);
    assert Owned(st.scheds[s])[0] == w;
    assert WorkerInv(st, w);
    SumByUpdate(Turns, st.workers, w, st'.workers[w]);
    SumByUpdate(ExecCount, st.scheds, s, st'.scheds[s]);
  }

  function Share(k: Worker): int { k.quota + 1 }

  /** In every run, execs made plus execs owed is one per yield plus one per worker. */
  lemma {:induction false} ExecBudget(states: seq<State>, acts: seq<Thread>, i: nat)
    requires IsRun(states, acts) && i < |states|
    ensures ExecTotal(states[i]) == SumBy(Share, states[0].workers)
  {
    if i == 0 {
      var st := states[0];
      SumByZero(ExecCount, st.scheds);
      SumBySame(Turns, st.workers, Share, st.workers);
    } else {
      ExecBudget(states, acts, i - 1);
      RunInv(states, acts, i - 1);
      match acts[i - 1]
      case W(w) => WorkerKeepsTotal(states[i - 1], w);
      case S(s) => SchedKeepsTotal(states[i - 1], s);
    }
  }

  // -------------------------------------------------------- deadlock freedom

  /** Every worker's completion list is served by some scheduler. */
  ghost predicate Staffed(st: State) {
    forall w :: 0 <= w < |st.workers| ==> Serves(st.scheds, st.workers[w].list)
  }

  ghost predicate Serves(scheds: seq<Sched>, l: nat) {
    exists s :: 0 <= s < |scheds| && scheds[s].list == l
  }

  /** A scheduler that is not asleep on its list can move, or the worker it is suspended for can. */
  lemma BusyScheduler(st: State, s: nat) returns (t: Thread)
    requires Inv(st) && s < |st.scheds| && !Asleep(st.scheds[s])
    ensures Ready(st, t)
  {
    assert SchedInv(st, s);
    var c := st.scheds[s];
    if c.pc.SInSchedule? && c.ctx.task.Sleeping? {
      assert WorkerInv(st, c.pc.w);
      t := W(c.pc.w);
    } else {
      t := S(s);
    }
  }

  /** Someone can move while a worker whose list is served has not ended. */
  lemma Enabled(st: State, w: nat) returns (t: Thread)
    requires Inv(st) && w < |st.workers| && !st.workers[w].pc.WDone?
    requires Serves(st.scheds, st.workers[w].list)
    ensures Ready(st, t)
  {
    assert WorkerInv(st, w);
    var k := st.workers[w];
    match k.place
    case Outside => t := W(w);
    case Held(s) =>
      assert SchedInv(st, s);
      t := BusyScheduler(st, s);
    case Executing(s) => t := BusyScheduler(st, s);
    case OnList(l) =>
      assert ListInv(st, l);
      var s :| 0 <= s < |st.scheds| && st.scheds[s].list == l;
      if Asleep(st.scheds[s]) {
        var v :| 0 <= v < |st.workers| && st.workers[v].pc.WNotify? && st.workers[v].list == l;
        t := W(v);
      } else {
        t := BusyScheduler(st, s);
      }
  }

  lemma DeadlockFree(states: seq<State>, acts: seq<Thread>, i: nat, w: nat)
    requires IsRun(states, acts) && i < |states|
    requires w < |states[i].workers| && !states[i].workers[w].pc.WDone?
    requires Serves(states[0].scheds, states[i].workers[w].list)
    ensures exists t :: Ready(states[i], t)
  {
    RunInv(states, acts, i);
    RunShape(states, acts, i);
    var s :| 0 <= s < |states[0].scheds| && states[0].scheds[s].list == states[i].workers[w].list;
    assert states[i].scheds[s].list == states[i].workers[w].list;
    var t := Enabled(states[i], w);
  }

  // ------------------------------------------------------- lists without one

  /** Still entering, or waiting on its completion list since. */
  ghost predicate NeverTaken(k: Worker) {
    match k.pc
    case WNew => k.place.Outside?
    case WCreated => k.place.Outside?
    case WParking => k.place.Outside?
    case WPublish => k.place.Outside?
    case WNotify => k.place.OnList?
    case WInSchedule => k.place.OnList?
    case _ => false
  }

  /** A scheduler moves a worker's context only out of its list or out of its hand. */
  lemma SchedLeaves(st: State, s: nat, w: nat)
    requires SchedReady(st, s) && w < |st.workers|
    requires st.scheds[s].pc.SDequeueList? ==> w !in st.lists[st.scheds[s].list].q
    requires st.scheds[s].pc != SHand(w)
    ensures
      var st' := SchedStep(st, s);
      w < |st'.workers| && st'.workers[w].pc == st.workers[w].pc && st'.workers[w].place == st.workers[w].place
  {}

  lemma OutOfReach(st: State, s: nat, w: nat)
    requires w < |st.workers| && NeverTaken(st.workers[w]) && WorkerInv(st, w)
    requires SchedReady(st, s) && SchedInv(st, s) && ListInv(st, st.scheds[s].list)
    requires st.scheds[s].list != st.workers[w].list
    ensures st.scheds[s].pc != SHand(w) && w !in st.lists[st.scheds[s].list].q
  {
    var c := st.scheds[s];
    if c.pc.SHand? { assert Owned(c)[0] == c.pc.w; }
  }

  lemma WaitsOn(st: State, v: nat, w: nat)
    requires WorkerReady(st, v) && w < |st.workers| && NeverTaken(st.workers[w]) && WorkerInv(st, w)
    ensures w < |WorkerStep(st, v).workers| && NeverTaken(WorkerStep(st, v).workers[w])
  {}

  lemma {:induction false} Unserved(states: seq<State>, acts: seq<Thread>, i: nat, w: nat)
    requires IsRun(states, acts) && i < |states| && w < |states[0].workers|
    requires !Serves(states[0].scheds, states[0].workers[w].list)
    ensures w < |states[i].workers| && NeverTaken(states[i].workers[w])
  {
    if i > 0 {
      Unserved(states, acts, i - 1, w);
      RunInv(states, acts, i - 1);
      RunShape(states, acts, i - 1);
      var st := states[i - 1];
      assert WorkerInv(st, w);
      match acts[i - 1]
      case W(v) => WaitsOn(st, v, w);
      case S(s) =>
        assert SchedInv(st, s) && ListInv(st, st.scheds[s].list);
        assert st.scheds[s].list == states[0].scheds[s].list;
        OutOfReach(st, s, w);
        SchedLeaves(st, s, w);
    }
  }

  /** When no thread can move, the workers that have ended are exactly those whose
      completion list has a scheduler; each of the others waits on its list. */
  lemma WhoEnds(states: seq<State>, acts: seq<Thread>, w: nat)
    requires IsRun(states, acts) && w < |states[0].workers|
    requires forall t :: !Ready(states[|acts|], t)
    ensures
      var st, l := states[|acts|], states[0].workers[w].list;
      && w < |st.workers| && l < |st.lists|
      && (st.workers[w].pc.WDone? <==> Serves(states[0].scheds, l))
      && (!st.workers[w].pc.WDone? <==> w in st.lists[l].q)
  {
    var i := |acts|;
    var st := states[i];
    RunInv(states, acts, i);
    RunShape(states, acts, i);
    assert WorkerInv(st, w);
    if Serves(states[0].scheds, states[0].workers[w].list) {
      if !st.workers[w].pc.WDone? { DeadlockFree(states, acts, i, w); }
    } else {
      Unserved(states, acts, i, w);
      assert !WorkerReady(st, w) by { assert !Ready(st, W(w)); }
    }
    assert ListInv(st, st.workers[w].list);
  }

  lemma Listed(st: State, l: nat) returns (w: nat)
    requires l < |st.lists| && ListInv(st, l) && st.lists[l].q != []
    ensures w < |st.workers| && st.workers[w].place == OnList(l)
  {
    w := st.lists[l].q[0];
  }

  /** A run that can go no further has ended every worker, left every completion list,
      ready queue and event queue empty, and made sum(yields + 1) execs. */
  lemma CompleteRun(states: seq<State>, acts: seq<Thread>)
    requires IsRun(states, acts) && Staffed(states[0])
    requires forall t :: !Ready(states[|acts|], t)
    ensures
      var st := states[|acts|];
      && (forall w :: 0 <= w < |st.workers| ==> st.workers[w].pc.WDone?)
      && (forall l :: 0 <= l < |st.lists| ==> st.lists[l].q == [])
      && (forall s :: 0 <= s < |st.scheds| ==> Owned(st.scheds[s]) == [] && st.scheds[s].evq == [])
      && SumBy(ExecCount, st.scheds) == SumBy(Share, states[0].workers)
  {
    var i := |acts|;
    var st := states[i];
    RunInv(states, acts, i);
    forall w | 0 <= w < |st.workers| ensures st.workers[w].pc.WDone? {
      RunShape(states, acts, i);
      WhoEnds(states, acts, w);
    }
    forall w | 0 <= w < |st.workers| ensures st.workers[w].place == Outside {
      assert WorkerInv(st, w);
    }
    forall l | 0 <= l < |st.lists| ensures st.lists[l].q == [] {
      assert ListInv(st, l);
      if st.lists[l].q != [] { var w := Listed(st, l); }
    }
    forall s | 0 <= s < |st.scheds| ensures Owned(st.scheds[s]) == [] && st.scheds[s].evq == [] {
      assert SchedInv(st, s);
      if !Asleep(st.scheds[s]) { var t := BusyScheduler(st, s); }
    }
    ExecBudget(states, acts, i);
    SumByZero(Turns, st.workers);
  }
}
