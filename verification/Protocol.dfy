/**
 The scheduling protocol as a set of threads interleaved step by step.

 A scheduler thread runs the library event loop, the example client's ready
 queue and the kernel calls they make.  A worker thread enters, runs, yields a
 given number of times and ends.  Each thread is a deterministic program whose
 position is its `pc`; a run is any interleaving of such steps.  One step is one
 shared write, or one region the kernel protects with a spin lock.
 */
module Protocol {
  import opened Sequences

  datatype Option<+T> = None | Some(value: T)

  // ---------------------------------------------------------------- contexts

  datatype RunState = CtxRunning | CtxIdle

  /** `Sleeping` is TASK_INTERRUPTIBLE: a later `schedule()` blocks until a wake-up. */
  datatype TaskState = Awake | Sleeping

  /** `struct ums_context`; `parks` and `wakes` count, as history, how often the
      thread prepared to suspend and how often a peer woke it. */
  datatype Context = Context(
    state: RunState, task: TaskState, parent: Option<nat>, switches: nat,
    parks: nat, wakes: nat)

  /** `ums_context_init`.  The structure comes from `kmalloc`, so `parent` keeps
      whatever value the memory had. */
  function InitContext(c: Context): Context {
    c.(state := CtxRunning, switches := 0)
  }

  function MarkIdle(c: Context): Context { c.(state := CtxIdle) }
  function MarkRunning(c: Context): Context { c.(state := CtxRunning) }
  function Park(c: Context): Context { c.(task := Sleeping, parks := c.parks + 1) }
  function Wake(c: Context): Context { c.(task := Awake, wakes := c.wakes + 1) }

  /** The six writes of `prepare_switch_context`, in program order. */
  datatype Phase = SetParent | CountSwitch | SelfIdle | SelfPark | PeerRunning | PeerWake

  function Rank(ph: Phase): nat {
    match ph
    case SetParent => 0
    case CountSwitch => 1
    case SelfIdle => 2
    case SelfPark => 3
    case PeerRunning => 4
    case PeerWake => 5
  }

  function Following(ph: Phase): Phase {
    match ph
    case SetParent => CountSwitch
    case CountSwitch => SelfIdle
    case SelfIdle => SelfPark
    case SelfPark => PeerRunning
    case PeerRunning => PeerWake
    case PeerWake => PeerWake
  }

  /** What one write of the switch does to the suspending context. */
  function SwitchSelf(c: Context, ph: Phase): Context {
    match ph
    case CountSwitch => c.(switches := c.switches + 1)
    case SelfIdle => MarkIdle(c)
    case SelfPark => Park(c)
    case _ => c
  }

  /** What one write of the switch does to the resumed context. */
  function SwitchPeer(c: Context, self: nat, ph: Phase): Context {
    match ph
    case SetParent => c.(parent := Some(self))
    case PeerRunning => MarkRunning(c)
    case PeerWake => Wake(c)
    case _ => c
  }

  // ----------------------------------------------------------------- threads

  datatype Event = Startup | Yielded(worker: nat) | Terminated(worker: nat)

  datatype WorkerPc =
    | WNew                                // before enter_ums_worker_mode
    | WCreated                            // registered, list reference taken
    | WParking                            // context marked idle
    | WPublish                            // parked, not yet on the completion list
    | WNotify                             // on the list, before wake_up_all
    | WInSchedule                         // inside schedule()
    | WUser                               // running the worker routine
    | WYieldEvent(s: nat)                 // yield: parent read, event not queued
    | WSwitch(s: nat, ph: Phase)          // yield: inside prepare_switch_context
    | WEndEvent(s: nat)                   // end: parent read, event not queued
    | WEndRunning(s: nat)                 // end: before marking the parent running
    | WEndWake(s: nat)                    // end: before waking the parent
    | WDestroy                            // end: before ums_worker_destroy
    | WDone
    | WFault                              // dereferenced a bad parent pointer
    | WEndFailed                          // end returned -ESRCH for a null parent

  datatype SchedPc =
    | SNew
    | SDequeueEvent                       // top of the library loop
    | SGetNext                            // callback entered get_next_context
    | SDequeueList                        // about to lock the completion list
    | SWaitPrepare                        // wait_event: before joining the wait queue
    | SWaitCheck                          // wait_event: before testing the condition
    | SWaitSleep                          // wait_event: inside schedule()
    | SWalk(rest: seq<nat>)               // draining a detached batch
    | SHand(w: nat)                       // holds the context to execute next
    | SSwitch(w: nat, ph: Phase)          // exec: inside prepare_switch_context
    | SInSchedule(w: nat)                 // exec: inside schedule()

  /** Where a worker's context is; history only, no step reads it. */
  datatype Place = Outside | OnList(l: nat) | Held(s: nat) | Executing(s: nat)

  /** `link` is the number of the procfs link the worker was last registered under.
      `quota` is how often the worker routine yields in all, `todo` how often it still will.
      `hosts` is history: the schedulers that have executed the worker, in order. */
  datatype Worker = Worker(
    pc: WorkerPc, ctx: Context, list: nat, link: int, place: Place, quota: nat, todo: nat, hosts: seq<nat>)

  /** `links` are the numbers of the live procfs links.  `waiting` says
      the thread is on its list's wait queue.  `delivered` and `execs` are history. */
  datatype Sched = Sched(
    pc: SchedPc, ctx: Context, list: nat, waiting: bool,
    rq: seq<nat>, evq: seq<Event>,
    nWorkers: int, maxWorkers: int, links: set<int>,
    delivered: seq<Event>, execs: seq<nat>)

  /** `arrivals` and `log` are history: every context ever added, and every batch
      taken, with the scheduler that took it. */
  datatype CompList = CompList(q: seq<nat>, arrivals: seq<nat>, log: seq<(nat, seq<nat>)>)

  datatype State = State(lists: seq<CompList>, scheds: seq<Sched>, workers: seq<Worker>)

  datatype Thread = S(s: nat) | W(w: nat)

  /** Contexts a scheduler has dequeued and not executed: the one in hand, its ready
      queue, and what is left of the batch it is walking. */
  function Owned(c: Sched): seq<nat> {
    (if c.pc.SHand? then [c.pc.w] else []) + c.rq + (if c.pc.SWalk? then c.pc.rest else [])
  }

  /** Present in the kernel's worker table. */
  predicate Registered(k: Worker) { !k.pc.WNew? && !k.pc.WDone? }

  // ------------------------------------------------------------ worker steps

  function SetWorker(st: State, w: nat, k: Worker): State
    requires w < |st.workers|
  {
    st.(workers := st.workers[w := k])
  }

  function SetSched(st: State, s: nat, c: Sched): State
    requires s < |st.scheds|
  {
    st.(scheds := st.scheds[s := c])
  }

  /** `wake_up_all(&complist->wait_q)`. */
  function Notify(scheds: seq<Sched>, l: nat): (r: seq<Sched>)
    ensures |r| == |scheds|
  {
    seq(|scheds|, i requires 0 <= i < |scheds| =>
      if scheds[i].list == l then scheds[i].(waiting := false) else scheds[i])
  }

  /** `list_add_tail` under the list's lock. */
  function AddTail(cl: CompList, w: nat): CompList {
    cl.(q := cl.q + [w], arrivals := cl.arrivals + [w])
  }

  predicate WorkerReady(st: State, w: nat) {
    && w < |st.workers|
    && var k := st.workers[w];
       match k.pc
       case WInSchedule => k.ctx.task.Awake?
       case WDone => false
       case WFault => false
       case WEndFailed => false
       case WPublish => k.list < |st.lists|
       case WYieldEvent(s) => s < |st.scheds|
       case WSwitch(s, _) => s < |st.scheds|
       case WEndEvent(s) => s < |st.scheds|
       case WEndRunning(s) => s < |st.scheds|
       case WEndWake(s) => s < |st.scheds|
       case _ => true
  }

  /** The worker routine: yield while there are yields to do, then end. */
  function UserStep(k: Worker, nScheds: nat): Worker {
    if k.ctx.parent.None? then
      k.(pc := if k.todo > 0 then WFault else WEndFailed)
    else if k.ctx.parent.value >= nScheds then
      k.(pc := WFault)
    else if k.todo > 0 then
      k.(pc := WYieldEvent(k.ctx.parent.value), todo := k.todo - 1)
    else
      k.(pc := WEndEvent(k.ctx.parent.value))
  }

  function WorkerStep(st: State, w: nat): State
    requires WorkerReady(st, w)
  {
    var k := st.workers[w];
    match k.pc
    case WNew => SetWorker(st, w, k.(pc := WCreated, ctx := InitContext(k.ctx)))
    case WCreated => SetWorker(st, w, k.(pc := WParking, ctx := MarkIdle(k.ctx)))
    case WParking => SetWorker(st, w, k.(pc := WPublish, ctx := Park(k.ctx)))
    case WPublish =>
      SetWorker(st, w, k.(pc := WNotify, place := OnList(k.list)))
      .(lists := st.lists[k.list := AddTail(st.lists[k.list], w)])
    case WNotify =>
      SetWorker(st, w, k.(pc := WInSchedule)).(scheds := Notify(st.scheds, k.list))
    case WInSchedule => SetWorker(st, w, k.(pc := WUser))
    case WUser => SetWorker(st, w, UserStep(k, |st.scheds|))
    case WYieldEvent(s) =>
      var c := st.scheds[s];
      SetSched(SetWorker(st, w, k.(pc := WSwitch(s, SetParent))), s, c.(evq := c.evq + [Yielded(w)]))
    case WSwitch(s, ph) =>
      var c := st.scheds[s];
      var k' := k.(ctx := SwitchSelf(k.ctx, ph));
      SetSched(SetWorker(st, w,
                         if ph.PeerWake? then k'.(pc := WPublish, place := Outside)
                         else k'.(pc := WSwitch(s, Following(ph)))),
               s, c.(ctx := SwitchPeer(c.ctx, w, ph)))
    case WEndEvent(s) =>
      var c := st.scheds[s];
      SetSched(SetWorker(st, w, k.(pc := WEndRunning(s))), s, c.(evq := c.evq + [Terminated(w)]))
    case WEndRunning(s) =>
      var c := st.scheds[s];
      SetSched(SetWorker(st, w, k.(pc := WEndWake(s))), s, c.(ctx := MarkRunning(c.ctx)))
    case WEndWake(s) =>
      var c := st.scheds[s];
      SetSched(SetWorker(st, w, k.(pc := WDestroy, place := Outside)), s, c.(ctx := Wake(c.ctx)))
    case WDestroy => SetWorker(st, w, k.(pc := WDone))
    case WDone => st
    case WFault => st
    case WEndFailed => st
  }

  // --------------------------------------------------------- scheduler steps

  predicate SchedReady(st: State, s: nat) {
    && s < |st.scheds|
    && var c := st.scheds[s];
       match c.pc
       case SDequeueEvent => c.evq != []
       case SDequeueList => c.list < |st.lists|
       case SWaitCheck => c.list < |st.lists|
       case SWaitSleep => !c.waiting
       case SWalk(rest) => rest != [] || c.rq != []
       case SSwitch(w, _) => w < |st.workers|
       case SInSchedule(_) => c.ctx.task.Awake?
       case _ => true
  }

  /** Moves each context of a batch from the list to scheduler `s`, and registers it under
      the next free link number. */
  function Hold(workers: seq<Worker>, b: seq<nat>, s: nat, max: int): (r: seq<Worker>)
    ensures |r| == |workers|
  {
    seq(|workers|, i requires 0 <= i < |workers| =>
      if i in b then workers[i].(place := Held(s), link := max + 1 + IndexOf(b, i)) else workers[i])
  }

  /** The `n` link numbers after `max`. */
  function NewLinks(max: int, n: nat): (r: seq<int>)
    ensures |r| == n
  {
    seq(n, i => max + 1 + i)
  }

  /** `ums_complist_dqcontext` on a non-empty list: the whole list is detached, one
      procfs link is registered per context, and the client queues the first one. */
  function TakeBatch(st: State, s: nat): State
    requires s < |st.scheds|
    requires st.scheds[s].list < |st.lists|
    requires st.lists[st.scheds[s].list].q != []
  {
    var c := st.scheds[s];
    var cl := st.lists[c.list];
    var b := cl.q;
    var c' := c.(pc := SWalk(b[1..]), rq := c.rq + [b[0]],
                 nWorkers := c.nWorkers + |b|, maxWorkers := c.maxWorkers + |b|,
                 links := c.links + Elements(NewLinks(c.maxWorkers, |b|)));
    State(st.lists[c.list := cl.(q := [], log := cl.log + [(s, b)])],
          st.scheds[s := c'], Hold(st.workers, b, s, c.maxWorkers))
  }

  /** `exec_ums_context` up to the switch: drop the worker's link, then start switching. */
  function BeginExec(c: Sched, w: nat, link: int): Sched {
    c.(pc := SSwitch(w, SetParent), execs := c.execs + [w],
       nWorkers := c.nWorkers - 1,
       maxWorkers := if c.nWorkers - 1 == 0 then 0 else c.maxWorkers,
       links := c.links - {link})
  }

  /** A worker that scheduler `s` starts to execute. */
  function Hosted(k: Worker, s: nat): Worker { k.(place := Executing(s), hosts := k.hosts + [s]) }

  function SchedStep(st: State, s: nat): State
    requires SchedReady(st, s)
  {
    var c := st.scheds[s];
    match c.pc
    case SNew =>
      SetSched(st, s, c.(pc := SDequeueEvent, ctx := InitContext(c.ctx), evq := c.evq + [Startup]))
    case SDequeueEvent =>
      SetSched(st, s, c.(pc := SGetNext, evq := c.evq[1..], delivered := c.delivered + [c.evq[0]]))
    case SGetNext =>
      SetSched(st, s, if c.rq == [] then c.(pc := SDequeueList)
                      else c.(pc := SHand(c.rq[0]), rq := c.rq[1..]))
    case SDequeueList =>
      if st.lists[c.list].q == [] then SetSched(st, s, c.(pc := SWaitPrepare))
      else TakeBatch(st, s)
    case SWaitPrepare => SetSched(st, s, c.(pc := SWaitCheck, waiting := true))
    case SWaitCheck =>
      SetSched(st, s, if st.lists[c.list].q == [] then c.(pc := SWaitSleep)
                      else c.(pc := SDequeueList, waiting := false))
    case SWaitSleep => SetSched(st, s, c.(pc := SWaitPrepare))
    case SWalk(rest) =>
      SetSched(st, s, if rest == [] then c.(pc := SHand(c.rq[0]), rq := c.rq[1..])
                      else c.(pc := SWalk(rest[1..]), rq := c.rq + [rest[0]]))
    case SHand(w) =>
      if w < |st.workers| && Registered(st.workers[w]) then
        SetSched(SetWorker(st, w, Hosted(st.workers[w], s)), s, BeginExec(c, w, st.workers[w].link))
      else
        SetSched(st, s, c.(pc := SDequeueEvent))
    case SSwitch(w, ph) =>
      var k := st.workers[w];
      SetSched(SetWorker(st, w, k.(ctx := SwitchPeer(k.ctx, s, ph))), s,
               c.(ctx := SwitchSelf(c.ctx, ph),
                  pc := if ph.PeerWake? then SInSchedule(w) else SSwitch(w, Following(ph))))
    case SInSchedule(_) => SetSched(st, s, c.(pc := SDequeueEvent))
  }

  // -------------------------------------------------------------------- runs

  predicate Ready(st: State, t: Thread) {
    match t
    case S(s) => SchedReady(st, s)
    case W(w) => WorkerReady(st, w)
  }

  function Step(st: State, t: Thread): State
    requires Ready(st, t)
  {
    match t
    case S(s) => SchedStep(st, s)
    case W(w) => WorkerStep(st, w)
  }

  /** Any number of empty lists, schedulers and workers, none of which has entered.
      Memory from `kmalloc` holds arbitrary `parent`, `state`, `switches` and `link`. */
  ghost predicate Init(st: State) {
    && (forall l :: 0 <= l < |st.lists| ==> st.lists[l] == CompList([], [], []))
    && (forall s :: 0 <= s < |st.scheds| ==> InitSched(st, st.scheds[s]))
    && (forall w :: 0 <= w < |st.workers| ==> InitWorker(st, st.workers[w]))
  }

  ghost predicate InitSched(st: State, c: Sched) {
    && c == Sched(SNew, c.ctx, c.list, false, [], [], 0, 0, {}, [], [])
    && c.list < |st.lists|
    && c.ctx.task.Awake? && c.ctx.parks == c.ctx.wakes == 0
  }

  ghost predicate InitWorker(st: State, k: Worker) {
    && k == Worker(WNew, k.ctx, k.list, k.link, Outside, k.quota, k.quota, [])
    && k.list < |st.lists|
    && k.ctx.task.Awake? && k.ctx.parks == k.ctx.wakes == 0
  }

  /** `states` is what happens when the threads in `acts` move, in that order. */
  ghost predicate IsRun(states: seq<State>, acts: seq<Thread>) {
    && |states| == |acts| + 1
    && Init(states[0])
    && forall i {:trigger acts[i]} :: 0 <= i < |acts| ==>
         Ready(states[i], acts[i]) && states[i + 1] == Step(states[i], acts[i])
  }
}
