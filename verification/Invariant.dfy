/**
 The inductive invariant of the protocol: one local predicate per worker, per
 scheduler and per list.
 */
module Invariant {
  import opened Sequences
  import opened Protocol

  /** Every batch in a list's log, concatenated. */
  function Taken(log: seq<(nat, seq<nat>)>): seq<nat> {
    if log == [] then [] else Taken(log[..|log| - 1]) + log[|log| - 1].1
  }

  /** The batches one scheduler took, concatenated. */
  function TakenBy(log: seq<(nat, seq<nat>)>, s: nat): seq<nat> {
    if log == [] then []
    else
      var e := log[|log| - 1];
      TakenBy(log[..|log| - 1], s) + if e.0 == s then e.1 else []
  }

  // ---------------------------------------------------------------- contexts

  ghost predicate Counted(c: Context) {
    c.parks == c.wakes + if c.task.Sleeping? then 1 else 0
  }

  ghost predicate Active(c: Context) { c.state.CtxRunning? && c.task.Awake? }

  ghost predicate Suspended(c: Context) { c.state.CtxIdle? && c.task.Sleeping? }

  /** A context part-way through suspending itself: the next write is `ph`. */
  ghost predicate Suspending(c: Context, ph: Phase) {
    && (c.state.CtxIdle? <==> Rank(ph) > 2)
    && (c.task.Sleeping? <==> Rank(ph) > 3)
  }

  // ----------------------------------------------------------------- workers

  /** Between publishing its context and returning from `schedule()`. */
  ghost predicate Resting(k: Worker) { k.pc.WNotify? || k.pc.WInSchedule? }

  ghost predicate OutsideOk(k: Worker) {
    match k.pc
    case WNew => k.ctx.task.Awake? && k.todo == k.quota
    case WCreated => Active(k.ctx)
    case WParking => k.ctx.state.CtxIdle? && k.ctx.task.Awake?
    case WPublish => Suspended(k.ctx)
    case WDestroy => Active(k.ctx) && k.todo == 0
    case WDone => Active(k.ctx) && k.todo == 0
    case _ => false
  }

  /** A yield that has begun and not yet counted its switch. */
  function Uncounted(k: Worker): nat {
    match k.pc
    case WYieldEvent(_) => 1
    case WSwitch(_, ph) => if Rank(ph) <= 1 then 1 else 0
    case _ => 0
  }

  /** The scheduler has the worker on its hands: it is switching to it or suspended for it. */
  ghost predicate Engaged(c: Sched, w: nat) {
    || (c.pc.SSwitch? && c.pc.w == w)
    || (c.pc.SInSchedule? && c.pc.w == w && c.ctx.task.Sleeping?)
  }

  /** A worker that has control while its scheduler stays suspended for it. */
  ghost predicate InControl(c: Sched, k: Worker, s: nat, w: nat, evq: seq<Event>, peer: RunState) {
    && c.pc == SInSchedule(w) && c.ctx.task.Sleeping? && c.ctx.state == peer && c.evq == evq
    && k.ctx.parent == Some(s)
  }

  /** How a scheduler and the worker it executes move together. */
  ghost predicate Coupled(c: Sched, k: Worker, s: nat, w: nat) {
    match k.pc
    case WNotify => Resuming(c, k, s, w)
    case WInSchedule => Resuming(c, k, s, w)
    case WUser => InControl(c, k, s, w, [], CtxIdle) && Active(k.ctx)
    case WYieldEvent(t) => t == s && InControl(c, k, s, w, [], CtxIdle) && Active(k.ctx)
    case WSwitch(t, ph) =>
      && t == s && Suspending(k.ctx, ph) && (Rank(ph) > 0 ==> c.ctx.parent == Some(w))
      && InControl(c, k, s, w, [Yielded(w)], if Rank(ph) > 4 then CtxRunning else CtxIdle)
    case WEndEvent(t) =>
      t == s && k.todo == 0 && InControl(c, k, s, w, [], CtxIdle) && Active(k.ctx)
    case WEndRunning(t) =>
      t == s && k.todo == 0 && InControl(c, k, s, w, [Terminated(w)], CtxIdle) && Active(k.ctx)
    case WEndWake(t) =>
      t == s && k.todo == 0 && InControl(c, k, s, w, [Terminated(w)], CtxRunning) && Active(k.ctx)
    case _ => false
  }

  /** The scheduler is switching to the worker, or has just done so. */
  ghost predicate Resuming(c: Sched, k: Worker, s: nat, w: nat) {
    if c.pc.SSwitch? then
      && c.pc.w == w && c.evq == []
      && k.ctx.task.Sleeping?
      && (k.ctx.state.CtxRunning? <==> Rank(c.pc.ph) > 4)
      && (Rank(c.pc.ph) > 0 ==> k.ctx.parent == Some(s))
    else
      InControl(c, k, s, w, [], CtxIdle) && Active(k.ctx)
  }

  /** A worker's parent is the scheduler that executed it last; one that is being executed
      may not have the new one yet. */
  ghost predicate HostOk(k: Worker) {
    if k.place.Executing? then k.hosts != [] && k.hosts[|k.hosts| - 1] == k.place.s
    else k.hosts != [] ==> k.ctx.parent == Some(k.hosts[|k.hosts| - 1])
  }

  ghost predicate WorkerInv(st: State, w: nat)
    requires w < |st.workers|
  {
    var k := st.workers[w];
    && k.list < |st.lists| && Counted(k.ctx)
    && (!k.pc.WNew? ==> k.ctx.switches + k.todo + Uncounted(k) == k.quota) && HostOk(k)
    && match k.place
       case Outside => OutsideOk(k)
       case OnList(l) => l == k.list && Resting(k) && Suspended(k.ctx) && w in st.lists[l].q
       case Held(s) => s < |st.scheds| && Resting(k) && Suspended(k.ctx) && w in Owned(st.scheds[s])
       case Executing(s) => s < |st.scheds| && Coupled(st.scheds[s], k, s, w)
  }

  // -------------------------------------------------------------- schedulers

  ghost predicate Names(e: Event, w: nat) { e == Yielded(w) || e == Terminated(w) }

  /** The event owed for the last exec has not been queued yet. */
  ghost predicate Outstanding(c: Sched) {
    c.pc.SSwitch? || (c.pc.SInSchedule? && c.ctx.task.Sleeping? && c.evq == [])
  }

  /** One STARTUP, then one event per exec, in exec order and naming its worker. */
  ghost predicate TraceOk(c: Sched) {
    var all := c.delivered + c.evq;
    && |all| == (if c.pc.SNew? then 0 else if Outstanding(c) then |c.execs| else |c.execs| + 1)
    && (!c.pc.SNew? ==> |all| > 0 && all[0] == Startup)
    && (c.pc.SNew? ==> c.execs == [])
    && (forall i {:trigger c.execs[i]} :: 0 <= i < |c.execs| && i + 1 < |all| ==> Names(all[i + 1], c.execs[i]))
  }

  /** The link numbers of the workers in `o`. */
  function Numbers(workers: seq<Worker>, o: seq<nat>): (r: seq<int>)
    ensures |r| == |o|
  {
    seq(|o|, i requires 0 <= i < |o| => if o[i] < |workers| then workers[o[i]].link else 0)
  }

  /** The live links are those numbered `nums`: the `n` consecutive numbers up to `max`. */
  ghost predicate LinksOk(links: set<int>, n: int, max: int, nums: seq<int>) {
    && n == |nums| <= max && (n == 0 ==> max == 0)
    && (forall i :: 0 <= i < |nums| ==> nums[i] == max - n + 1 + i)
    && links == Elements(nums)
  }

  ghost predicate OwnLinks(c: Sched, workers: seq<Worker>) {
    LinksOk(c.links, c.nWorkers, c.maxWorkers, Numbers(workers, Owned(c)))
  }

  ghost predicate SchedPcOk(c: Sched) {
    && (c.waiting ==> c.pc.SWaitCheck? || c.pc.SWaitSleep?)
    && match c.pc
       case SNew => c.evq == [] && c.rq == [] && c.ctx.task.Awake? && c.delivered == []
       case SDequeueEvent => |c.evq| == 1 && Active(c.ctx)
       case SGetNext => c.evq == [] && Active(c.ctx)
       case SDequeueList => c.evq == [] && c.rq == [] && Active(c.ctx)
       case SWaitPrepare => c.evq == [] && c.rq == [] && Active(c.ctx)
       case SWaitCheck => c.evq == [] && c.rq == [] && Active(c.ctx)
       case SWaitSleep => c.evq == [] && c.rq == [] && Active(c.ctx)
       case SWalk(_) => c.evq == [] && c.rq != [] && Active(c.ctx)
       case SHand(_) => c.evq == [] && Active(c.ctx)
       case SSwitch(w, ph) => c.evq == [] && Suspending(c.ctx, ph)
       case SInSchedule(w) => c.ctx.task.Sleeping? || (c.ctx.state.CtxRunning? && |c.evq| == 1)
  }

  /** The worker of the last YIELD event in a trace. */
  function LastYielder(trace: seq<Event>): Option<nat> {
    if trace == [] then None
    else
      var e := trace[|trace| - 1];
      if e.Yielded? then Some(e.worker) else LastYielder(trace[..|trace| - 1])
  }

  /** A worker that has queued its YIELD event is switching to the scheduler. */
  ghost predicate Yielding(c: Sched) {
    Attending(c) && c.evq != [] && c.evq[0].Yielded?
  }

  /** Except while a worker is switching to it, a scheduler's parent is the last that did. */
  ghost predicate ParentOk(c: Sched) {
    Yielding(c) || LastYielder(c.delivered + c.evq) in {None, c.ctx.parent}
  }

  /** What concerns one scheduler alone. */
  ghost predicate SchedLocal(c: Sched) {
    && Counted(c.ctx) && SchedPcOk(c) && TraceOk(c) && ParentOk(c)
    && (!c.pc.SNew? ==>
          c.ctx.switches + (if c.pc.SSwitch? && Rank(c.pc.ph) <= 1 then 1 else 0) == |c.execs|)
    && (Attending(c) ==> c.execs != [] && c.execs[|c.execs| - 1] == c.pc.w)
  }

  /** Switching to a worker, or suspended for it. */
  ghost predicate Attending(c: Sched) {
    c.pc.SSwitch? || (c.pc.SInSchedule? && c.ctx.task.Sleeping?)
  }

  /** What scheduler `s` owns it holds, each once, and what it executes is executing under it. */
  ghost predicate Holdings(c: Sched, workers: seq<Worker>, s: nat) {
    && Distinct(Owned(c))
    && (forall i :: 0 <= i < |Owned(c)| ==>
          Owned(c)[i] < |workers| && workers[Owned(c)[i]].place == Held(s))
    && (Attending(c) ==> c.pc.w < |workers| && workers[c.pc.w].place == Executing(s))
  }

  ghost predicate SchedInv(st: State, s: nat)
    requires s < |st.scheds|
  {
    var c := st.scheds[s];
    && c.list < |st.lists|
    && SchedLocal(c) && Holdings(c, st.workers, s) && OwnLinks(c, st.workers)
    && TakenBy(st.lists[c.list].log, s) == c.execs + Owned(c)
  }

  // ------------------------------------------------------------------- lists

  /** Blocked in `schedule()` on its list's wait queue. */
  ghost predicate Asleep(c: Sched) { c.pc.SWaitSleep? && c.waiting }

  /** Some worker has added its context to the list and not yet called `wake_up_all`. */
  ghost predicate Notifying(st: State, l: nat) {
    exists w :: 0 <= w < |st.workers| && st.workers[w].pc.WNotify? && st.workers[w].list == l
  }

  ghost predicate ListInv(st: State, l: nat)
    requires l < |st.lists|
  {
    var cl := st.lists[l];
    && Distinct(cl.q)
    && (forall i :: 0 <= i < |cl.q| ==> cl.q[i] < |st.workers| && st.workers[cl.q[i]].place == OnList(l))
    && cl.arrivals == Taken(cl.log) + cl.q
    && (forall i :: 0 <= i < |cl.log| ==> cl.log[i].0 < |st.scheds| && st.scheds[cl.log[i].0].list == l)
    && (cl.q == [] || Notifying(st, l) || NoneAsleep(st.scheds, l))
  }

  ghost predicate NoneAsleep(scheds: seq<Sched>, l: nat) {
    forall s :: 0 <= s < |scheds| && scheds[s].list == l ==> !Asleep(scheds[s])
  }

  ghost predicate Inv(st: State) {
    && (forall w :: 0 <= w < |st.workers| ==> WorkerInv(st, w))
    && (forall s :: 0 <= s < |st.scheds| ==> SchedInv(st, s))
    && (forall l :: 0 <= l < |st.lists| ==> ListInv(st, l))
  }

  lemma InitSchedLocal(c: Sched)
    requires c == Sched(SNew, c.ctx, c.list, false, [], [], 0, 0, {}, [], [])
    requires c.ctx.task.Awake? && c.ctx.parks == c.ctx.wakes == 0
    ensures SchedLocal(c) && Owned(c) == []
  {}

  lemma InitLinks(c: Sched, workers: seq<Worker>)
    requires Owned(c) == [] && c.links == {} && c.nWorkers == c.maxWorkers == 0
    ensures OwnLinks(c, workers)
  {
    assert Numbers(workers, []) == [];
  }

  lemma InitInv(st: State)
    requires Init(st)
    ensures Inv(st)
  {
    forall s | 0 <= s < |st.scheds| ensures SchedInv(st, s) {
      assert InitSched(st, st.scheds[s]);
      InitSchedLocal(st.scheds[s]);
      InitLinks(st.scheds[s], st.workers);
    }
    forall w | 0 <= w < |st.workers| ensures WorkerInv(st, w) {
      assert InitWorker(st, st.workers[w]);
    }
  }
}
