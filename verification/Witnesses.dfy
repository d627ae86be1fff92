/**
 Runs that reach states a reader might think impossible.
 */
module Witnesses {
  import opened Protocol
  import opened Safety
  import opened Progress

  /** Some run ends in `st`. */
  ghost predicate Reachable(st: State) {
    exists states, acts :: IsRun(states, acts) && states[|acts|] == st
  }

  lemma Start(st: State)
    requires Init(st)
    ensures Reachable(st)
  {
    var acts: seq<Thread> := [];
    assert IsRun([st], acts) && [st][|acts|] == st;
  }

  lemma Go(st: State, t: Thread) returns (st': State)
    requires Reachable(st) && Ready(st, t)
    ensures st' == Step(st, t) && Reachable(st')
  {
    var states, acts :| IsRun(states, acts) && states[|acts|] == st;
    OneMore(states, acts, t);
    st' := Step(st, t);
    assert (states + [st'])[|acts + [t]|] == st';
  }

  // ---------------------------------------------------- stretches of one thread

  /** A worker enters and goes to sleep on its completion list. */
  lemma Enters(st: State, w: nat) returns (st': State)
    requires Reachable(st) && w < |st.workers| && st.workers[w].pc.WNew? && st.workers[w].list < |st.lists|
    ensures Reachable(st')
    ensures
      var k := st.workers[w];
      && st'.workers == st.workers[w := k.(pc := WInSchedule, place := OnList(k.list),
                                           ctx := Park(MarkIdle(InitContext(k.ctx))))]
      && st'.lists == st.lists[k.list := AddTail(st.lists[k.list], w)]
      && st'.scheds == Notify(st.scheds, k.list)
  {
    st' := Go(st, W(w));
    st' := Go(st', W(w));
    st' := Go(st', W(w));
    st' := Go(st', W(w));
    st' := Go(st', W(w));
  }

  /** Nothing but scheduler `s` and worker `w` differs, and of those only what a switch writes. */
  ghost predicate SwitchOnly(st: State, st': State, s: nat, w: nat)
    requires s < |st.scheds| && w < |st.workers|
  {
    && st'.lists == st.lists && |st'.scheds| == |st.scheds| && |st'.workers| == |st.workers|
    && st'.workers == st.workers[w := st.workers[w].(ctx := st'.workers[w].ctx)]
    && st'.scheds == st.scheds[s := st.scheds[s].(ctx := st'.scheds[s].ctx, pc := st'.scheds[s].pc)]
  }

  /** The rest of a switch, from the write it has come to. */
  lemma {:induction false} Switches(st: State, s: nat) returns (st': State)
    requires Reachable(st) && s < |st.scheds| && st.scheds[s].pc.SSwitch? && st.scheds[s].pc.w < |st.workers|
    ensures Reachable(st') && SwitchOnly(st, st', s, st.scheds[s].pc.w)
    ensures st'.scheds[s].pc == SInSchedule(st.scheds[s].pc.w)
    ensures
      var k, k' := st.workers[st.scheds[s].pc.w], st'.workers[st.scheds[s].pc.w];
      && k'.ctx.task.Awake? && (Rank(st.scheds[s].pc.ph) <= 4 || k.ctx.state.CtxRunning? ==> k'.ctx.state.CtxRunning?)
      && k'.ctx.parent == if st.scheds[s].pc.ph.SetParent? then Some(s) else k.ctx.parent
    decreases 5 - Rank(st.scheds[s].pc.ph)
  {
    st' := Go(st, S(s));
    if !st.scheds[s].pc.ph.PeerWake? { st' := Switches(st', s); }
  }

  /** A scheduler executes the context in its hand, up to `schedule()`. */
  lemma Executes(st: State, s: nat) returns (st': State)
    requires Reachable(st) && s < |st.scheds| && st.scheds[s].pc.SHand?
    requires st.scheds[s].pc.w < |st.workers| && Registered(st.workers[st.scheds[s].pc.w])
    ensures Reachable(st') && |st'.scheds| == |st.scheds| && |st'.workers| == |st.workers|
    ensures
      var c, c' := st.scheds[s], st'.scheds[s];
      && c'.pc == SInSchedule(c.pc.w) && c'.rq == c.rq && c'.evq == c.evq
    ensures
      var w := st.scheds[s].pc.w;
      var k, k' := st.workers[w], st'.workers[w];
      && st'.workers == st.workers[w := k'] && k'.pc == k.pc && k'.todo == k.todo
      && k'.ctx.task.Awake? && k'.ctx.state.CtxRunning? && k'.ctx.parent == Some(s)
  {
    st' := Go(st, S(s));
    st' := Switches(st', s);
  }

  /** A worker that has been woken and has no yields left ends, up to its destroy. */
  lemma Ends(st: State, w: nat, s: nat) returns (st': State)
    requires Reachable(st) && w < |st.workers| && s < |st.scheds| && st.workers[w].pc.WInSchedule?
    requires st.workers[w].ctx.task.Awake? && st.workers[w].todo == 0 && st.workers[w].ctx.parent == Some(s)
    ensures Reachable(st') && st'.lists == st.lists && |st'.scheds| == |st.scheds|
    ensures st'.workers == st.workers[w := st.workers[w].(pc := WDestroy, place := Outside)]
    ensures
      var c := st.scheds[s];
      st'.scheds[s] == c.(evq := c.evq + [Terminated(w)], ctx := Wake(MarkRunning(c.ctx)))
  {
    st' := Go(st, W(w));
    st' := Go(st', W(w));
    st' := Go(st', W(w));
    st' := Go(st', W(w));
    st' := Go(st', W(w));
  }

  // ------------------------------------------------ two workers, one parent

  const FRESH := Context(CtxRunning, Awake, None, 0, 0, 0)

  /** One list, one scheduler, and two workers that never yield. */
  function TwoWorkers(): State {
    State([CompList([], [], [])],
          [Sched(SNew, FRESH, 0, false, [], [], 0, 0, {}, [], [])],
          [Worker(WNew, FRESH, 0, 0, Outside, 0, 0, []), Worker(WNew, FRESH, 0, 0, Outside, 0, 0, [])])
  }

  /** Both workers are on the list. */
  lemma BothWait() returns (st: State)
    ensures Reachable(st) && |st.lists| == 1 && st.lists[0].q == [0, 1]
    ensures |st.scheds| == 1 && st.scheds[0] == TwoWorkers().scheds[0]
    ensures |st.workers| == 2 && forall w :: 0 <= w < 2 ==> st.workers[w].pc.WInSchedule? && st.workers[w].todo == 0
  {
    Start(TwoWorkers());
    st := Enters(TwoWorkers(), 0);
    st := Enters(st, 1);
  }

  /** The scheduler has been started and goes to the list. */
  lemma GoesToList() returns (st: State)
    ensures Reachable(st) && |st.lists| == 1 && st.lists[0].q == [0, 1]
    ensures |st.scheds| == 1 && st.scheds[0].pc.SDequeueList? && st.scheds[0].list == 0
    ensures st.scheds[0].rq == [] && st.scheds[0].evq == []
    ensures |st.workers| == 2 && forall w :: 0 <= w < 2 ==> st.workers[w].pc.WInSchedule? && st.workers[w].todo == 0
  {
    st := BothWait();
    st := Go(st, S(0));
    st := Go(st, S(0));
    st := Go(st, S(0));
  }

  /** The scheduler has taken both and holds the first. */
  lemma FirstInHand() returns (st: State)
    ensures Reachable(st) && |st.scheds| == 1 && st.scheds[0].pc == SHand(0) && st.scheds[0].rq == [1]
    ensures st.scheds[0].evq == []
    ensures |st.workers| == 2 && forall w :: 0 <= w < 2 ==> st.workers[w].pc.WInSchedule? && st.workers[w].todo == 0
  {
    st := GoesToList();
    assert [0, 1][1..] == [1];
    st := Go(st, S(0));
    st := Go(st, S(0));
    st := Go(st, S(0));
  }

  /** Worker 0 has ended but is not destroyed yet, and its scheduler is awake. */
  lemma FirstEnds() returns (st: State)
    ensures Reachable(st) && |st.scheds| == 1 && st.scheds[0].pc.SInSchedule? && st.scheds[0].ctx.task.Awake?
    ensures st.scheds[0].rq == [1] && st.scheds[0].evq == [Terminated(0)]
    ensures |st.workers| == 2 && st.workers[0].pc.WDestroy? && RunsUnder(st.workers[0], 0)
    ensures st.workers[1].pc.WInSchedule?
  {
    st := FirstInHand();
    st := Executes(st, 0);
    st := Ends(st, 0, 0);
    assert [] + [Terminated(0)] == [Terminated(0)];
  }

  /** Worker 0 has ended but is not destroyed yet, and its scheduler holds worker 1. */
  lemma OneEnded() returns (st: State)
    ensures Reachable(st) && |st.scheds| == 1 && st.scheds[0].pc == SHand(1)
    ensures |st.workers| == 2 && st.workers[0].pc.WDestroy? && RunsUnder(st.workers[0], 0)
    ensures st.workers[1].pc.WInSchedule?
  {
    st := FirstEnds();
    st := Go(st, S(0));
    st := Go(st, S(0));
    st := Go(st, S(0));
  }

  /** Worker 0 has ended but is not destroyed yet, and worker 1 runs; both have scheduler 0
      as their parent. */
  lemma TwoRunners() returns (st: State)
    ensures Reachable(st) && |st.workers| == 2 && st.workers[0].pc.WDestroy?
    ensures RunsUnder(st.workers[0], 0) && RunsUnder(st.workers[1], 0)
    ensures |st.scheds| == 1 && !st.scheds[0].pc.SNew? && Steady(st, 0) && !Bijection(st, 0)
  {
    st := OneEnded();
    st := Executes(st, 0);
  }

  /** A worker is registered with a parent pointer nobody has set, and a scheduler that executes
      nothing looks like its parent. */
  lemma StrayParent() returns (st: State)
    ensures Reachable(st) && |st.workers| == 2 && st.workers[0].pc.WCreated? && RunsUnder(st.workers[0], 0)
    ensures |st.scheds| == 1 && st.scheds[0].pc.SDequeueEvent? && Steady(st, 0) && !Bijection(st, 0)
  {
    var k := Worker(WNew, FRESH.(parent := Some(0)), 0, 0, Outside, 0, 0, []);
    st := TwoWorkers().(workers := [k, k]);
    Start(st);
    st := Go(st, W(0));
    st := Go(st, S(0));
  }
}
