/**
 Every step of every thread keeps the invariant.
 */
module Preservation {
  import opened Sequences
  import opened Protocol
  import opened Invariant

  // ------------------------------------------------------------------ frames

  ghost predicate KeepsWorker(k: Worker, k': Worker) {
    && k'.list == k.list && k'.link == k.link && (k.pc.WNotify? ==> k'.pc.WNotify?)
    && (k.place.OnList? ==> k'.place == k.place)
  }

  /** A scheduler that executes no worker. */
  ghost predicate Unengaged(c: Sched) {
    !c.pc.SSwitch? && (c.pc.SInSchedule? ==> c.ctx.task.Awake?)
  }

  /** Worker `w` and scheduler `s` move together: `s` is engaged with no other worker
      and lets go of no other worker. */
  lemma FrameBoth(st: State, st': State, s: nat, w: nat)
    requires Inv(st) && s < |st.scheds| && w < |st.workers|
    requires |st'.scheds| == |st.scheds| && |st'.workers| == |st.workers|
    requires st' == SetSched(SetWorker(st, w, st'.workers[w]), s, st'.scheds[s])
    requires KeepsWorker(st.workers[w], st'.workers[w])
    requires st.workers[w].place == Executing(s) || st.workers[w].place == Held(s)
    requires
      var c, c' := st.scheds[s], st'.scheds[s];
      && c'.list == c.list && (Asleep(c') ==> Asleep(c))
      && (Unengaged(c) || c.pc.w == w)
      && (forall v :: v in Owned(c) && v != w ==> v in Owned(c'))
    requires WorkerInv(st', w) && SchedInv(st', s)
    ensures Inv(st')
  {
    forall v | 0 <= v < |st'.workers| ensures WorkerInv(st', v) {
      if v != w { OtherWorker(st, st', s, v); }
    }
    forall t | 0 <= t < |st'.scheds| ensures SchedInv(st', t) {
      if t != s { OtherSched(st, st', t); }
    }
    FrameLists(st, st');
  }

  lemma FrameLists(st: State, st': State)
    requires |st'.scheds| == |st.scheds| && |st'.workers| == |st.workers| && st'.lists == st.lists
    requires forall l :: 0 <= l < |st.lists| ==> ListInv(st, l)
    requires forall s :: 0 <= s < |st.scheds| ==>
               st'.scheds[s].list == st.scheds[s].list && (Asleep(st'.scheds[s]) ==> Asleep(st.scheds[s]))
    requires forall v :: 0 <= v < |st.workers| ==> KeepsWorker(st.workers[v], st'.workers[v])
    ensures forall l :: 0 <= l < |st'.lists| ==> ListInv(st', l)
  {
    forall l | 0 <= l < |st'.lists| ensures ListInv(st', l) { FrameList(st, st', l); }
  }

  lemma OtherWorker(st: State, st': State, s: nat, v: nat)
    requires v < |st.workers| && WorkerInv(st, v)
    requires v < |st'.workers| && st'.workers[v] == st.workers[v] && st'.lists == st.lists
    requires s < |st.scheds| && |st'.scheds| == |st.scheds|
    requires st'.scheds == st.scheds[s := st'.scheds[s]]
    requires Unengaged(st.scheds[s]) || st.scheds[s].pc.w != v
    requires v in Owned(st.scheds[s]) ==> v in Owned(st'.scheds[s])
    ensures WorkerInv(st', v)
  {}

  lemma OtherSched(st: State, st': State, t: nat)
    requires t < |st.scheds| && SchedInv(st, t)
    requires t < |st'.scheds| && st'.scheds[t] == st.scheds[t] && |st'.lists| == |st.lists|
    requires TakenBy(st'.lists[st.scheds[t].list].log, t) == TakenBy(st.lists[st.scheds[t].list].log, t)
    requires |st'.workers| == |st.workers|
    requires forall v ::
               && 0 <= v < |st.workers| && (st.workers[v].place == Held(t) || st.workers[v].place == Executing(t))
               ==> st'.workers[v].place == st.workers[v].place && st'.workers[v].link == st.workers[v].link
    ensures SchedInv(st', t)
  {
    assert Numbers(st'.workers, Owned(st.scheds[t])) == Numbers(st.workers, Owned(st.scheds[t]));
  }

  /** A scheduler that owns what it owned, with a new context, position or trace. */
  lemma SchedStays(st: State, st': State, s: nat)
    requires s < |st.scheds| && SchedInv(st, s) && s < |st'.scheds| && st'.lists == st.lists
    requires
      var c, c' := st.scheds[s], st'.scheds[s];
      && SchedLocal(c') && Owned(c') == Owned(c) && c'.list == c.list && c'.execs == c.execs
      && c'.links == c.links && c'.nWorkers == c.nWorkers && c'.maxWorkers == c.maxWorkers
      && (Attending(c') ==> Attending(c) && c'.pc.w == c.pc.w)
    requires |st'.workers| == |st.workers|
    requires forall v :: 0 <= v < |st.workers| && st.workers[v].place == Held(s) ==>
               st'.workers[v].place == Held(s) && st'.workers[v].link == st.workers[v].link
    requires Attending(st'.scheds[s]) ==>
               forall v :: 0 <= v < |st.workers| && st.workers[v].place == Executing(s) ==>
                 st'.workers[v].place == Executing(s)
    ensures SchedInv(st', s)
  {
    var o := Owned(st.scheds[s]);
    assert Numbers(st'.workers, o) == Numbers(st.workers, o);
  }

  lemma FrameWorker(st: State, st': State, w: nat)
    requires Inv(st) && w < |st.workers| && |st'.workers| == |st.workers|
    requires st' == SetWorker(st, w, st'.workers[w])
    requires KeepsWorker(st.workers[w], st'.workers[w]) && st'.workers[w].place == st.workers[w].place
    requires WorkerInv(st', w)
    ensures Inv(st')
  {
    forall v | 0 <= v < |st'.workers| ensures WorkerInv(st', v) {
      assert WorkerInv(st, v);
    }
    forall t | 0 <= t < |st'.scheds| ensures SchedInv(st', t) { OtherSched(st, st', t); }
    forall l | 0 <= l < |st'.lists| ensures ListInv(st', l) { FrameList(st, st', l); }
  }

  lemma FrameSched(st: State, st': State, s: nat)
    requires Inv(st) && s < |st.scheds| && |st'.scheds| == |st.scheds|
    requires st' == SetSched(st, s, st'.scheds[s])
    requires Unengaged(st.scheds[s])
    requires
      var c, c' := st.scheds[s], st'.scheds[s];
      && c'.list == c.list < |st.lists| && Owned(c') == Owned(c)
      && (Asleep(c') ==> Asleep(c) || st.lists[c.list].q == [])
    requires SchedInv(st', s)
    ensures Inv(st')
  {
    forall v | 0 <= v < |st'.workers| ensures WorkerInv(st', v) { OtherWorker(st, st', s, v); }
    forall t | 0 <= t < |st'.scheds| ensures SchedInv(st', t) {
      if t != s { OtherSched(st, st', t); }
    }
    forall l | 0 <= l < |st'.lists| ensures ListInv(st', l) { FrameList(st, st', l); }
  }

  lemma FrameList(st: State, st': State, l: nat)
    requires l < |st.lists| && ListInv(st, l)
    requires l < |st'.lists| && st'.lists[l] == st.lists[l]
    requires |st'.scheds| == |st.scheds| && |st'.workers| == |st.workers|
    requires forall s :: 0 <= s < |st.scheds| ==>
               st'.scheds[s].list == st.scheds[s].list &&
               (st.scheds[s].list == l && Asleep(st'.scheds[s]) ==> Asleep(st.scheds[s]) || st.lists[l].q == [])
    requires forall v :: 0 <= v < |st.workers| ==> KeepsWorker(st.workers[v], st'.workers[v])
    ensures ListInv(st', l)
  {
    if Notifying(st, l) {
      var v :| 0 <= v < |st.workers| && st.workers[v].pc.WNotify? && st.workers[v].list == l;
      assert KeepsWorker(st.workers[v], st'.workers[v]);
    }
  }

  // ------------------------------------------------------------ worker steps

  /** Steps a worker takes alone: entering, parking, leaving `schedule()`, the
      worker routine's next call, and the final destroy. */
  lemma WorkerAlone(st: State, w: nat)
    requires Inv(st) && WorkerReady(st, w)
    requires
      var pc := st.workers[w].pc;
      pc.WNew? || pc.WCreated? || pc.WParking? || pc.WInSchedule? || pc.WUser? || pc.WDestroy?
    ensures Inv(WorkerStep(st, w))
  {
    assert WorkerInv(st, w);
    var st' := WorkerStep(st, w);
    assert WorkerInv(st', w);
    FrameWorker(st, st', w);
  }

  lemma EventKeepsParent(c: Sched, e: Event)
    requires ParentOk(c) && Attending(c) && c.evq == [] && e != Startup
    ensures ParentOk(c.(evq := c.evq + [e]))
  {
    YielderAppend(c.delivered, e);
    assert c.delivered + c.evq == c.delivered && c.evq + [e] == [e];
  }

  lemma YielderAppend(trace: seq<Event>, e: Event)
    ensures LastYielder(trace + [e]) == if e.Yielded? then Some(e.worker) else LastYielder(trace)
  {
    assert (trace + [e])[..|trace|] == trace;
  }

  lemma EventKeepsTrace(c: Sched, e: Event)
    requires TraceOk(c) && c.pc.SInSchedule? && c.ctx.task.Sleeping? && c.evq == []
    requires c.execs != [] && Names(e, c.execs[|c.execs| - 1])
    ensures TraceOk(c.(evq := c.evq + [e]))
  {
    var all := c.delivered + c.evq;
    assert c.delivered + (c.evq + [e]) == all + [e];
  }

  /** Queuing the event settles the exec its scheduler is waiting for. */
  lemma EventSettles(c: Sched, e: Event)
    requires SchedLocal(c) && c.pc.SInSchedule? && c.ctx.task.Sleeping? && c.evq == []
    requires c.execs != [] && Names(e, c.execs[|c.execs| - 1])
    ensures
      var c' := c.(evq := c.evq + [e]);
      SchedLocal(c') && Owned(c') == Owned(c)
  {
    EventKeepsTrace(c, e);
    EventKeepsParent(c, e);
  }

  lemma EventKeepsCoupled(c: Sched, k: Worker, s: nat, w: nat)
    requires Coupled(c, k, s, w) && (k.pc.WYieldEvent? || k.pc.WEndEvent?)
    ensures k.pc.s == s && c.pc == SInSchedule(w) && c.ctx.task.Sleeping? && c.evq == []
    ensures
      var e, pc := if k.pc.WYieldEvent? then Yielded(w) else Terminated(w),
                   if k.pc.WYieldEvent? then WSwitch(s, SetParent) else WEndRunning(s);
      Coupled(c.(evq := c.evq + [e]), k.(pc := pc), s, w)
  {}

  lemma WorkerEvent(st: State, w: nat)
    requires Inv(st) && WorkerReady(st, w)
    requires st.workers[w].pc.WYieldEvent? || st.workers[w].pc.WEndEvent?
    ensures Inv(WorkerStep(st, w))
  {
    assert WorkerInv(st, w);
    var k, s := st.workers[w], st.workers[w].pc.s;
    EventKeepsCoupled(st.scheds[s], k, s, w);
    if k.pc.WYieldEvent? {
      QueuesEvent(st, s, w, Yielded(w), WSwitch(s, SetParent));
    } else {
      QueuesEvent(st, s, w, Terminated(w), WEndRunning(s));
    }
  }

  lemma QueuesEvent(st: State, s: nat, w: nat, e: Event, pc: WorkerPc)
    requires Inv(st) && w < |st.workers| && s < |st.scheds| && st.workers[w].place == Executing(s)
    requires st.scheds[s].pc == SInSchedule(w) && st.scheds[s].ctx.task.Sleeping? && st.scheds[s].evq == []
    requires Names(e, w) && !pc.WNew? && Uncounted(st.workers[w].(pc := pc)) == Uncounted(st.workers[w])
    requires !st.workers[w].pc.WNotify? && !st.workers[w].pc.WNew?
    requires Coupled(st.scheds[s].(evq := st.scheds[s].evq + [e]), st.workers[w].(pc := pc), s, w)
    ensures Inv(SetSched(SetWorker(st, w, st.workers[w].(pc := pc)), s,
                         st.scheds[s].(evq := st.scheds[s].evq + [e])))
  {
    assert SchedInv(st, s) && WorkerInv(st, w);
    var k', c' := st.workers[w].(pc := pc), st.scheds[s].(evq := st.scheds[s].evq + [e]);
    var st' := SetSched(SetWorker(st, w, k'), s, c');
    EventReachesSched(st, s, w, e, pc);
    assert st'.workers[w] == k' && st'.scheds[s] == c';
    StillExecuting(st, st', s, w);
    FrameBoth(st, st', s, w);
  }

  lemma EventReachesSched(st: State, s: nat, w: nat, e: Event, pc: WorkerPc)
    requires w < |st.workers| && s < |st.scheds| && SchedInv(st, s) && st.workers[w].place == Executing(s)
    requires st.scheds[s].pc == SInSchedule(w) && st.scheds[s].ctx.task.Sleeping? && st.scheds[s].evq == []
    requires Names(e, w)
    ensures
      var c' := st.scheds[s].(evq := st.scheds[s].evq + [e]);
      && SchedInv(SetSched(SetWorker(st, w, st.workers[w].(pc := pc)), s, c'), s)
      && Owned(c') == Owned(st.scheds[s])
  {
    EventSettles(st.scheds[s], e);
    var c' := st.scheds[s].(evq := st.scheds[s].evq + [e]);
    SchedStays(st, SetSched(SetWorker(st, w, st.workers[w].(pc := pc)), s, c'), s);
  }

  /** A worker that stays coupled to the scheduler that executes it. */
  lemma StillExecuting(st: State, st': State, s: nat, w: nat)
    requires w < |st.workers| && WorkerInv(st, w) && st.workers[w].place == Executing(s)
    requires w < |st'.workers| && s < |st'.scheds| && st'.lists == st.lists
    requires
      var k, k' := st.workers[w], st'.workers[w];
      && k' == k.(pc := k'.pc) && !k.pc.WNew? && Uncounted(k') == Uncounted(k)
      && Coupled(st'.scheds[s], k', s, w)
    ensures WorkerInv(st', w)
  {}

  /** The writes of a yield's switch before the parent is woken. */
  lemma WorkerSwitching(st: State, w: nat)
    requires Inv(st) && WorkerReady(st, w)
    requires st.workers[w].pc.WSwitch? && !st.workers[w].pc.ph.PeerWake?
    ensures Inv(WorkerStep(st, w))
  {
    assert WorkerInv(st, w);
    var s := st.workers[w].pc.s;
    var st' := WorkerStep(st, w);
    PeerKeepsSched(st, st', s, w);
    FrameBoth(st, st', s, w);
  }

  lemma WorkerMarksParent(st: State, w: nat)
    requires Inv(st) && WorkerReady(st, w) && st.workers[w].pc.WEndRunning?
    ensures Inv(WorkerStep(st, w))
  {
    assert WorkerInv(st, w);
    var s := st.workers[w].pc.s;
    var st' := WorkerStep(st, w);
    PeerKeepsSched(st, st', s, w);
    FrameBoth(st, st', s, w);
  }

  /** Writing to the context of a suspended scheduler leaves the rest of it alone. */
  lemma PeerKeepsSched(st: State, st': State, s: nat, w: nat)
    requires s < |st.scheds| && SchedInv(st, s) && w < |st.workers| && |st'.workers| == |st.workers|
    requires |st'.scheds| == |st.scheds|
    requires st' == SetSched(SetWorker(st, w, st'.workers[w]), s, st.scheds[s].(ctx := st'.scheds[s].ctx))
    requires st.scheds[s].pc == SInSchedule(w) && st.scheds[s].ctx.task.Sleeping? && st.scheds[s].evq != []
    requires st.workers[w].place == Executing(s) == st'.workers[w].place
    requires st'.workers[w].link == st.workers[w].link
    requires
      var d, d' := st.scheds[s].ctx, st'.scheds[s].ctx;
      d' == d.(state := d'.state, parent := d'.parent) && (d'.parent == d.parent || st.scheds[s].evq[0].Yielded?)
    ensures SchedInv(st', s) && Owned(st'.scheds[s]) == Owned(st.scheds[s])
  {
    var c, c' := st.scheds[s], st'.scheds[s];
    assert Owned(c') == Owned(c);
    assert SchedLocal(c');
    SchedStays(st, st', s);
  }

  // --------------------------------------------------------- scheduler steps

  /** A scheduler that executes nothing may change its position freely as long as what
      it owns, its links and its trace stay the same. */
  lemma Moved(st: State, s: nat, c': Sched)
    requires Inv(st) && s < |st.scheds| && c'.list < |st.lists|
    requires
      var c := st.scheds[s];
      && Unengaged(c) && Unengaged(c') && !c.pc.SNew? && !c'.pc.SNew?
      && c' == c.(pc := c'.pc, waiting := c'.waiting, rq := c'.rq, evq := c'.evq, delivered := c'.delivered)
      && Owned(c') == Owned(c)
      && c'.delivered + c'.evq == c.delivered + c.evq
      && (Asleep(c') ==> Asleep(c) || st.lists[c.list].q == [])
    requires SchedPcOk(c')
    ensures Inv(SetSched(st, s, c'))
  {
    assert SchedInv(st, s);
    assert SchedLocal(c');
    FrameSched(st, SetSched(st, s, c'), s);
  }

  lemma EnterKeepsLocal(c: Sched)
    requires SchedLocal(c) && c.pc.SNew?
    ensures
      var c' := c.(pc := SDequeueEvent, ctx := InitContext(c.ctx), evq := c.evq + [Startup]);
      SchedLocal(c') && Owned(c') == Owned(c)
  {
    assert c.delivered + c.evq == [];
    YielderAppend([], Startup);
    assert c.delivered + (c.evq + [Startup]) == [] + [Startup];
  }

  lemma SchedEnters(st: State, s: nat)
    requires Inv(st) && SchedReady(st, s) && st.scheds[s].pc.SNew?
    ensures Inv(SchedStep(st, s))
  {
    assert SchedInv(st, s);
    var st' := SchedStep(st, s);
    EnterKeepsLocal(st.scheds[s]);
    FrameSched(st, st', s);
  }

  /** Taking an event and leaving `schedule()`. */
  lemma SchedEvent(st: State, s: nat)
    requires Inv(st) && SchedReady(st, s)
    requires st.scheds[s].pc.SDequeueEvent? || st.scheds[s].pc.SInSchedule?
    ensures Inv(SchedStep(st, s))
  {
    assert SchedInv(st, s);
    var c, c' := st.scheds[s], SchedStep(st, s).scheds[s];
    assert Owned(c') == Owned(c);
    assert c'.delivered + c'.evq == c.delivered + c.evq;
    Moved(st, s, c');
  }

  /** The steps of waiting on the list. */
  lemma SchedWaits(st: State, s: nat)
    requires Inv(st) && SchedReady(st, s)
    requires
      var c := st.scheds[s];
      || c.pc.SWaitPrepare? || c.pc.SWaitSleep? || c.pc.SWaitCheck?
      || (c.pc.SDequeueList? && st.lists[c.list].q == [])
    ensures Inv(SchedStep(st, s))
  {
    assert SchedInv(st, s);
    var c, c' := st.scheds[s], SchedStep(st, s).scheds[s];
    assert Owned(c') == Owned(c);
    Moved(st, s, c');
  }

  /** Moving contexts between the batch, the ready queue and the hand. */
  lemma SchedShuffles(st: State, s: nat)
    requires Inv(st) && SchedReady(st, s)
    requires st.scheds[s].pc.SGetNext? || st.scheds[s].pc.SWalk?
    ensures Inv(SchedStep(st, s))
  {
    assert SchedInv(st, s);
    var c, c' := st.scheds[s], SchedStep(st, s).scheds[s];
    assert Owned(c') == Owned(c);
    Moved(st, s, c');
  }

  lemma SwitchKeepsLocal(c: Sched, w: nat)
    requires SchedLocal(c) && c.pc.SSwitch? && c.pc.w == w
    ensures
      var ph := c.pc.ph;
      var c' := c.(ctx := SwitchSelf(c.ctx, ph),
                   pc := if ph.PeerWake? then SInSchedule(w) else SSwitch(w, Following(ph)));
      SchedLocal(c') && Owned(c') == Owned(c)
  {}

  lemma SwitchKeepsCoupled(c: Sched, k: Worker, s: nat, w: nat)
    requires SchedPcOk(c) && c.pc.SSwitch? && c.pc.w == w && Coupled(c, k, s, w)
    ensures
      var ph := c.pc.ph;
      var c' := c.(ctx := SwitchSelf(c.ctx, ph),
                   pc := if ph.PeerWake? then SInSchedule(w) else SSwitch(w, Following(ph)));
      Coupled(c', k.(ctx := SwitchPeer(k.ctx, s, ph)), s, w)
  {}

  /** The writes of `prepare_switch_context` in exec. */
  lemma SchedSwitching(st: State, s: nat)
    requires Inv(st) && SchedReady(st, s) && st.scheds[s].pc.SSwitch?
    ensures Inv(SchedStep(st, s))
  {
    assert SchedInv(st, s);
    var w := st.scheds[s].pc.w;
    assert WorkerInv(st, w);
    var st' := SchedStep(st, s);
    SwitchKeepsLocal(st.scheds[s], w);
    SwitchKeepsCoupled(st.scheds[s], st.workers[w], s, w);
    SchedStays(st, st', s);
    FrameBoth(st, st', s, w);
  }

  // -------------------------------------------- steps that move a context

  lemma WakeKeepsLocal(c: Sched)
    requires SchedLocal(c) && c.pc.SInSchedule? && c.ctx.task.Sleeping?
    requires c.ctx.state.CtxRunning? && |c.evq| == 1
    requires c.evq[0].Yielded? ==> c.ctx.parent == Some(c.evq[0].worker)
    ensures
      var c' := c.(ctx := Wake(c.ctx));
      SchedLocal(c') && Owned(c') == Owned(c)
  {
    var all := c.delivered + c.evq;
    assert all[|all| - 1] == c.evq[0];
  }

  /** The last write of a yield's switch and of an end, on the worker's side. */
  lemma WakeLeavesOutside(c: Sched, k: Worker, s: nat, w: nat)
    requires Coupled(c, k, s, w) && (k.pc.WEndWake? || (k.pc.WSwitch? && k.pc.ph.PeerWake?))
    ensures
      && c.pc == SInSchedule(w) && c.ctx.task.Sleeping? && c.ctx.state.CtxRunning? && |c.evq| == 1
      && (c.evq[0].Yielded? ==> c.ctx.parent == Some(c.evq[0].worker))
      && OutsideOk(k.(pc := if k.pc.WEndWake? then WDestroy else WPublish, place := Outside))
      && k.ctx.parent == Some(s)
  {}

  /** Waking the parent: the scheduler is free again and the worker is on no list. */
  lemma WorkerWakesParent(st: State, w: nat)
    requires Inv(st) && WorkerReady(st, w)
    requires
      var pc := st.workers[w].pc;
      pc.WEndWake? || (pc.WSwitch? && pc.ph.PeerWake?)
    ensures Inv(WorkerStep(st, w))
  {
    assert WorkerInv(st, w);
    var s := st.workers[w].pc.s;
    assert SchedInv(st, s);
    var st' := WorkerStep(st, w);
    WakeLeavesOutside(st.scheds[s], st.workers[w], s, w);
    WakeKeepsLocal(st.scheds[s]);
    SchedStays(st, st', s);
    FrameBoth(st, st', s, w);
  }

  /** exec: the context leaves the scheduler's hands and starts executing. */
  lemma SchedBeginsExec(st: State, s: nat)
    requires Inv(st) && SchedReady(st, s) && st.scheds[s].pc.SHand?
    ensures Inv(SchedStep(st, s))
  {
    assert SchedInv(st, s);
    var c := st.scheds[s];
    var w := c.pc.w;
    assert Owned(c)[0] == w;
    assert WorkerInv(st, w);
    ExecKeepsSched(st, s, w);
    FrameBoth(st, SchedStep(st, s), s, w);
  }

  lemma ExecKeepsSched(st: State, s: nat, w: nat)
    requires s < |st.scheds| && SchedInv(st, s) && st.scheds[s].pc == SHand(w) && w < |st.workers|
    ensures
      var c' := BeginExec(st.scheds[s], w, st.workers[w].link);
      var st' := SetSched(SetWorker(st, w, Hosted(st.workers[w], s)), s, c');
      SchedInv(st', s) && Owned(c') == Owned(st.scheds[s])[1..]
  {
    var c, ws := st.scheds[s], st.workers[w := Hosted(st.workers[w], s)];
    var c' := BeginExec(c, w, st.workers[w].link);
    ExecKeepsLocal(c, w, st.workers[w].link);
    ExecKeepsHoldings(c, st.workers, s, w);
    assert c'.execs + Owned(c') == c.execs + Owned(c);
  }

  lemma ExecKeepsLocal(c: Sched, w: nat, link: int)
    requires SchedLocal(c) && c.pc == SHand(w)
    ensures SchedLocal(BeginExec(c, w, link))
    ensures Owned(c)[0] == w && Owned(BeginExec(c, w, link)) == Owned(c)[1..]
  {
    var c' := BeginExec(c, w, link);
    assert c'.delivered + c'.evq == c.delivered + c.evq;
    assert TraceOk(c');
  }

  lemma ExecKeepsHoldings(c: Sched, workers: seq<Worker>, s: nat, w: nat)
    requires c.pc == SHand(w) && Holdings(c, workers, s) && OwnLinks(c, workers) && w < |workers|
    ensures
      var c', ws := BeginExec(c, w, workers[w].link), workers[w := Hosted(workers[w], s)];
      Holdings(c', ws, s) && OwnLinks(c', ws)
  {
    var c', ws := BeginExec(c, w, workers[w].link), workers[w := Hosted(workers[w], s)];
    var o := Owned(c);
    assert o[0] == w && Owned(c') == o[1..];
    assert Numbers(ws, o[1..]) == Numbers(workers, o)[1..];
    LinksDrop(c.links, c.nWorkers, c.maxWorkers, Numbers(workers, o));
  }

  /** Removing the first worker's own link leaves the links of the others. */
  lemma LinksDrop(links: set<int>, n: int, max: int, nums: seq<int>)
    requires LinksOk(links, n, max, nums) && nums != []
    ensures LinksOk(links - {nums[0]}, n - 1, if n - 1 == 0 then 0 else max, nums[1..])
  {
    assert nums == [nums[0]] + nums[1..];
  }

  /** Adding a parked context to its completion list. */
  lemma WorkerPublishes(st: State, w: nat)
    requires Inv(st) && WorkerReady(st, w) && st.workers[w].pc.WPublish?
    ensures Inv(WorkerStep(st, w))
  {
    assert WorkerInv(st, w);
    var st' := WorkerStep(st, w);
    forall v | 0 <= v < |st'.workers| ensures WorkerInv(st', v) { PublishKeepsWorker(st, w, v); }
    forall t | 0 <= t < |st'.scheds| ensures SchedInv(st', t) { OtherSched(st, st', t); }
    forall m | 0 <= m < |st'.lists| ensures ListInv(st', m) { PublishKeepsList(st, w, m); }
  }

  lemma PublishKeepsWorker(st: State, w: nat, v: nat)
    requires WorkerReady(st, w) && st.workers[w].pc.WPublish? && WorkerInv(st, w)
    requires v < |st.workers| && WorkerInv(st, v)
    ensures WorkerInv(WorkerStep(st, w), v)
  {}

  lemma PublishKeepsList(st: State, w: nat, m: nat)
    requires WorkerReady(st, w) && st.workers[w].pc.WPublish? && WorkerInv(st, w)
    requires m < |st.lists| && ListInv(st, m)
    ensures ListInv(WorkerStep(st, w), m)
  {
    var st' := WorkerStep(st, w);
    if m == st.workers[w].list {
      assert Notifying(st', m) by { assert st'.workers[w].pc.WNotify?; }
      assert st'.lists[m].arrivals == Taken(st'.lists[m].log) + st'.lists[m].q;
    } else {
      FrameList(st, st', m);
    }
  }

  /** `wake_up_all` on the list's wait queue. */
  lemma WorkerNotifies(st: State, w: nat)
    requires Inv(st) && WorkerReady(st, w) && st.workers[w].pc.WNotify?
    ensures Inv(WorkerStep(st, w))
  {
    var st' := WorkerStep(st, w);
    forall v | 0 <= v < |st'.workers| ensures WorkerInv(st', v) {
      NotifyKeepsWorker(st, st', v);
    }
    forall t | 0 <= t < |st'.scheds| ensures SchedInv(st', t) {
      NotifyKeepsSched(st, st', t);
    }
    forall m | 0 <= m < |st'.lists| ensures ListInv(st', m) {
      NotifyKeepsList(st, st', w, m);
    }
  }

  /** Only wait flags change, and only a worker's position after publishing. */
  ghost predicate Notified(st: State, st': State) {
    && st'.lists == st.lists && |st'.scheds| == |st.scheds| && |st'.workers| == |st.workers|
    && (forall t :: 0 <= t < |st.scheds| ==> Calmed(st.scheds[t], st'.scheds[t]))
    && (forall v :: 0 <= v < |st.workers| ==>
          st'.workers[v] == st.workers[v] ||
          (st.workers[v].pc.WNotify? && st'.workers[v] == st.workers[v].(pc := WInSchedule)))
  }

  ghost predicate Calmed(c: Sched, c': Sched) {
    c' == c || c' == c.(waiting := false)
  }

  lemma NotifyKeepsWorker(st: State, st': State, v: nat)
    requires Notified(st, st') && v < |st.workers| && WorkerInv(st, v)
    ensures WorkerInv(st', v)
  {
    var k := st.workers[v];
    if k.place.Held? || k.place.Executing? {
      assert Calmed(st.scheds[k.place.s], st'.scheds[k.place.s]);
    }
  }

  lemma CalmedKeepsLocal(c: Sched, c': Sched)
    requires Calmed(c, c') && SchedLocal(c)
    ensures SchedLocal(c') && Owned(c') == Owned(c)
  {
    assert TraceOk(c');
  }

  lemma NotifyKeepsSched(st: State, st': State, t: nat)
    requires Notified(st, st') && t < |st.scheds| && SchedInv(st, t)
    ensures SchedInv(st', t)
  {
    var c, c' := st.scheds[t], st'.scheds[t];
    CalmedKeepsLocal(c, c');
    SchedStays(st, st', t);
  }

  lemma NotifyKeepsList(st: State, st': State, w: nat, m: nat)
    requires Notified(st, st') && m < |st.lists| && ListInv(st, m)
    requires w < |st.workers| && st'.scheds == Notify(st.scheds, st.workers[w].list)
    requires st'.workers == st.workers[w := st.workers[w].(pc := WInSchedule)]
    ensures ListInv(st', m)
  {
    assert forall t :: 0 <= t < |st.scheds| ==> Calmed(st.scheds[t], st'.scheds[t]);
    if m != st.workers[w].list && Notifying(st, m) {
      var v :| 0 <= v < |st.workers| && st.workers[v].pc.WNotify? && st.workers[v].list == m;
      assert st'.workers[v] == st.workers[v];
    }
  }

  /** Detaching a whole list as one batch. */
  lemma SchedTakesBatch(st: State, s: nat)
    requires Inv(st) && SchedReady(st, s) && st.scheds[s].pc.SDequeueList?
    requires st.lists[st.scheds[s].list].q != []
    ensures Inv(SchedStep(st, s))
  {
    assert SchedInv(st, s) && ListInv(st, st.scheds[s].list);
    var st' := SchedStep(st, s);
    TakeOwned(st, s);
    forall v | 0 <= v < |st'.workers| ensures WorkerInv(st', v) { TakeKeepsWorker(st, s, v); }
    forall t | 0 <= t < |st'.scheds| ensures SchedInv(st', t) {
      if t == s { TakeKeepsTaker(st, s); } else { TakeKeepsSched(st, s, t); }
    }
    forall m | 0 <= m < |st'.lists| ensures ListInv(st', m) { TakeKeepsList(st, s, m); }
  }

  ghost predicate Taking(st: State, s: nat) {
    && s < |st.scheds| && st.scheds[s].list < |st.lists| && st.lists[st.scheds[s].list].q != []
    && SchedInv(st, s) && ListInv(st, st.scheds[s].list) && st.scheds[s].pc.SDequeueList?
  }

  lemma TakeOwned(st: State, s: nat)
    requires Taking(st, s)
    ensures Owned(st.scheds[s]) == []
    ensures Owned(TakeBatch(st, s).scheds[s]) == st.lists[st.scheds[s].list].q
  {
    OwnsBatch(TakeBatch(st, s).scheds[s], st.lists[st.scheds[s].list].q);
  }

  lemma OwnsBatch(c: Sched, q: seq<nat>)
    requires q != [] && c.pc == SWalk(q[1..]) && c.rq == [q[0]]
    ensures Owned(c) == q
  {
    assert [q[0]] + q[1..] == q;
  }

  lemma TakeKeepsWorker(st: State, s: nat, v: nat)
    requires Taking(st, s) && v < |st.workers| && WorkerInv(st, v)
    ensures WorkerInv(TakeBatch(st, s), v)
  {
    TakeOwned(st, s);
    var l := st.scheds[s].list;
    if v in st.lists[l].q {
      TakeMovesWorker(st, s, v);
    } else {
      TakeLeavesWorker(st, s, v);
    }
  }

  lemma TakeMovesWorker(st: State, s: nat, v: nat)
    requires Taking(st, s) && v < |st.workers| && WorkerInv(st, v) && v in st.lists[st.scheds[s].list].q
    requires Owned(TakeBatch(st, s).scheds[s]) == st.lists[st.scheds[s].list].q
    ensures WorkerInv(TakeBatch(st, s), v)
  {
    var k, k' := st.workers[v], TakeBatch(st, s).workers[v];
    assert k' == k.(place := Held(s), link := k'.link);
  }

  lemma TakeLeavesWorker(st: State, s: nat, v: nat)
    requires Taking(st, s) && v < |st.workers| && WorkerInv(st, v) && v !in st.lists[st.scheds[s].list].q
    requires Owned(st.scheds[s]) == []
    ensures WorkerInv(TakeBatch(st, s), v)
  {
    var st', k := TakeBatch(st, s), st.workers[v];
    assert k.place.OnList? ==> k.place.l != st.scheds[s].list;
    assert k.place.Held? || k.place.Executing? ==> k.place.s != s;
    WorkerStays(st, st', v);
  }

  /** A worker whose list or scheduler is the same as before. */
  lemma WorkerStays(st: State, st': State, v: nat)
    requires v < |st.workers| && WorkerInv(st, v) && v < |st'.workers| && st'.workers[v] == st.workers[v]
    requires |st'.lists| == |st.lists| && |st'.scheds| == |st.scheds|
    requires
      match st.workers[v].place
      case Outside => true
      case OnList(m) => m < |st.lists| && st'.lists[m] == st.lists[m]
      case Held(t) => t < |st.scheds| && st'.scheds[t] == st.scheds[t]
      case Executing(t) => t < |st.scheds| && st'.scheds[t] == st.scheds[t]
    ensures WorkerInv(st', v)
  {}

  lemma TakenByAppend(log: seq<(nat, seq<nat>)>, e: (nat, seq<nat>), s: nat)
    ensures TakenBy(log + [e], s) == TakenBy(log, s) + if e.0 == s then e.1 else []
    ensures Taken(log + [e]) == Taken(log) + e.1
  {
    assert (log + [e])[..|log|] == log;
  }

  lemma TakeKeepsTaker(st: State, s: nat)
    requires Taking(st, s)
    ensures SchedInv(TakeBatch(st, s), s)
  {
    TakeOwned(st, s);
    TakeHolds(st, s);
    var st', c, cl := TakeBatch(st, s), st.scheds[s], st.lists[st.scheds[s].list];
    assert Numbers(st.workers, []) == [];
    TakeLinks(c.links, c.nWorkers, c.maxWorkers, cl.q, st'.workers);
    RecordsBatch(cl.log, cl.q, s, c.execs);
    TakeKeepsLocal(c, st'.scheds[s]);
  }

  lemma RecordsBatch(log: seq<(nat, seq<nat>)>, q: seq<nat>, s: nat, execs: seq<nat>)
    requires TakenBy(log, s) == execs + []
    ensures TakenBy(log + [(s, q)], s) == execs + q
  {
    TakenByAppend(log, (s, q), s);
    assert execs + [] == execs;
  }

  lemma RecordsTaken(log: seq<(nat, seq<nat>)>, q: seq<nat>, s: nat)
    ensures Taken(log + [(s, q)]) + [] == Taken(log) + q
  {
    TakenByAppend(log, (s, q), s);
  }

  lemma TakeKeepsLocal(c: Sched, c': Sched)
    requires SchedLocal(c) && c.pc.SDequeueList? && c'.pc.SWalk? && c'.rq != []
    requires c'.ctx == c.ctx && c'.execs == c.execs && c'.delivered == c.delivered && c'.evq == c.evq
    requires c'.waiting == c.waiting
    ensures SchedLocal(c')
  {
    assert TraceOk(c');
  }

  /** Every context of the batch is now held by the scheduler that took it, under the link
      number of its position. */
  lemma TakeHolds(st: State, s: nat)
    requires Taking(st, s)
    ensures
      var q, st' := st.lists[st.scheds[s].list].q, TakeBatch(st, s);
      forall i :: 0 <= i < |q| ==>
        && q[i] < |st'.workers| && st'.workers[q[i]].place == Held(s)
        && st'.workers[q[i]].link == st.scheds[s].maxWorkers + 1 + i
  {}

  lemma TakeLinks(links: set<int>, n: int, max: int, q: seq<nat>, workers: seq<Worker>)
    requires LinksOk(links, n, max, [])
    requires forall i :: 0 <= i < |q| ==> q[i] < |workers| && workers[q[i]].link == max + 1 + i
    ensures LinksOk(links + Elements(NewLinks(max, |q|)), n + |q|, max + |q|, Numbers(workers, q))
  {
    LinksAdd(links, n, max, |q|);
    BatchNumbers(workers, q, max);
  }

  lemma BatchNumbers(workers: seq<Worker>, q: seq<nat>, max: int)
    requires forall i :: 0 <= i < |q| ==> q[i] < |workers| && workers[q[i]].link == max + 1 + i
    ensures Numbers(workers, q) == NewLinks(max, |q|)
  {}

  /** A scheduler with no links registers the first ones. */
  lemma LinksAdd(links: set<int>, n: int, max: int, k: nat)
    requires LinksOk(links, n, max, [])
    ensures LinksOk(links + Elements(NewLinks(max, k)), n + k, max + k, NewLinks(max, k))
  {}

  lemma TakeKeepsSched(st: State, s: nat, t: nat)
    requires Taking(st, s) && t < |st.scheds| && t != s && SchedInv(st, t)
    ensures SchedInv(TakeBatch(st, s), t)
  {
    var st', cl := TakeBatch(st, s), st.lists[st.scheds[s].list];
    var c := st.scheds[t];
    assert st'.scheds[t] == c;
    TakenByAppend(cl.log, (s, cl.q), t);
    assert TakenBy(st'.lists[c.list].log, t) == TakenBy(st.lists[c.list].log, t);
    TakeKeepsPlace(st, s);
    OtherSched(st, st', t);
  }

  /** Only contexts on the list change place. */
  lemma TakeKeepsPlace(st: State, s: nat)
    requires Taking(st, s)
    ensures forall v :: 0 <= v < |st.workers| && !st.workers[v].place.OnList? ==>
              TakeBatch(st, s).workers[v].place == st.workers[v].place
  {}

  lemma TakeKeepsList(st: State, s: nat, m: nat)
    requires Taking(st, s) && m < |st.lists| && ListInv(st, m)
    ensures ListInv(TakeBatch(st, s), m)
  {
    var st', l := TakeBatch(st, s), st.scheds[s].list;
    assert forall t :: 0 <= t < |st.scheds| ==> st'.scheds[t].list == st.scheds[t].list;
    if m == l {
      var log, log' := st.lists[l].log, st'.lists[l].log;
      RecordsTaken(log, st.lists[l].q, s);
      forall i | 0 <= i < |log'| ensures log'[i].0 < |st'.scheds| && st'.scheds[log'[i].0].list == l {
        assert log'[i] == if i < |log| then log[i] else (s, st.lists[l].q);
      }
    } else {
      TakeKeepsOtherList(st, s, m);
    }
  }

  lemma TakeKeepsOtherList(st: State, s: nat, m: nat)
    requires Taking(st, s) && m < |st.lists| && ListInv(st, m) && m != st.scheds[s].list
    ensures ListInv(TakeBatch(st, s), m)
  {
    var st', l := TakeBatch(st, s), st.scheds[s].list;
    var q := st.lists[m].q;
    assert forall t :: 0 <= t < |st.scheds| ==> st'.scheds[t].list == st.scheds[t].list;
    forall i | 0 <= i < |q| ensures st'.workers[q[i]].place == OnList(m) {
      assert q[i] !in st.lists[l].q;
    }
    if Notifying(st, m) { TakeKeepsNotifying(st, s, m); }
  }

  lemma TakeKeepsNotifying(st: State, s: nat, m: nat)
    requires Taking(st, s) && Notifying(st, m)
    ensures Notifying(TakeBatch(st, s), m)
  {
    var v :| 0 <= v < |st.workers| && st.workers[v].pc.WNotify? && st.workers[v].list == m;
    assert TakeBatch(st, s).workers[v].pc.WNotify?;
  }

  lemma WorkerStepKeepsInv(st: State, w: nat)
    requires Inv(st) && WorkerReady(st, w)
    ensures Inv(WorkerStep(st, w))
  {
    match st.workers[w].pc
    case WPublish => WorkerPublishes(st, w);
    case WNotify => WorkerNotifies(st, w);
    case WYieldEvent(_) => WorkerEvent(st, w);
    case WEndEvent(_) => WorkerEvent(st, w);
    case WEndRunning(_) => WorkerMarksParent(st, w);
    case WEndWake(_) => WorkerWakesParent(st, w);
    case WSwitch(_, ph) =>
      if ph.PeerWake? { WorkerWakesParent(st, w); } else { WorkerSwitching(st, w); }
    case _ => WorkerAlone(st, w);
  }

  lemma SchedStepKeepsInv(st: State, s: nat)
    requires Inv(st) && SchedReady(st, s)
    ensures Inv(SchedStep(st, s))
  {
    match st.scheds[s].pc
    case SNew => SchedEnters(st, s);
    case SGetNext => SchedShuffles(st, s);
    case SWalk(_) => SchedShuffles(st, s);
    case SHand(_) => SchedBeginsExec(st, s);
    case SSwitch(_, _) => SchedSwitching(st, s);
    case SDequeueList =>
      if st.lists[st.scheds[s].list].q == [] { SchedWaits(st, s); } else { SchedTakesBatch(st, s); }
    case SDequeueEvent => SchedEvent(st, s);
    case SInSchedule(_) => SchedEvent(st, s);
    case _ => SchedWaits(st, s);
  }

  /** Every step of every thread keeps the invariant. */
  lemma StepKeepsInv(st: State, t: Thread)
    requires Inv(st) && Ready(st, t)
    ensures Inv(Step(st, t))
  {
    match t
    case W(w) => WorkerStepKeepsInv(st, w);
    case S(s) => SchedStepKeepsInv(st, s);
  }

  /** The invariant holds in every state of every run. */
  lemma {:induction false} RunInv(states: seq<State>, acts: seq<Thread>, i: nat)
    requires IsRun(states, acts) && i < |states|
    ensures Inv(states[i])
  {
    if i == 0 {
      InitInv(states[0]);
    } else {
      RunInv(states, acts, i - 1);
      StepKeepsInv(states[i - 1], acts[i - 1]);
    }
  }
}
