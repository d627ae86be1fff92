/**
 What the protocol guarantees in every state of every run, stated on queues,
 contexts and histories alone.
 */
module Safety {
  import opened Sequences
  import opened Protocol
  import opened Invariant
  import opened Preservation

  // -------------------------------------------------------- single ownership

  datatype Home =
    | CompletionList(l: nat)   // on a completion list
    | Batch(s: nat)            // in the detached batch a scheduler is walking
    | ReadyQueue(s: nat)       // in a scheduler's ready queue
    | InHand(s: nat)           // taken from the ready queue, about to be executed
    | RunningUnder(s: nat)     // a scheduler is switching to it or suspended for it

  ghost predicate At(st: State, w: nat, h: Home) {
    match h
    case CompletionList(l) => l < |st.lists| && w in st.lists[l].q
    case Batch(s) => s < |st.scheds| && st.scheds[s].pc.SWalk? && w in st.scheds[s].pc.rest
    case ReadyQueue(s) => s < |st.scheds| && w in st.scheds[s].rq
    case InHand(s) => s < |st.scheds| && st.scheds[s].pc == SHand(w)
    case RunningUnder(s) => s < |st.scheds| && Engaged(st.scheds[s], w)
  }

  /** Published at least once, and neither between two homes nor ended. */
  ghost predicate Settled(k: Worker) {
    match k.pc
    case WNew => false
    case WCreated => false
    case WParking => false
    case WPublish => false
    case WDestroy => false
    case WDone => false
    case _ => true
  }

  ghost predicate HomeInPlace(p: Place, h: Home) {
    match h
    case CompletionList(l) => p == OnList(l)
    case Batch(s) => p == Held(s)
    case ReadyQueue(s) => p == Held(s)
    case InHand(s) => p == Held(s)
    case RunningUnder(s) => p == Executing(s)
  }

  lemma AtPlace(st: State, w: nat, h: Home)
    requires Inv(st) && At(st, w, h)
    ensures w < |st.workers| && HomeInPlace(st.workers[w].place, h)
  {
    if h.CompletionList? {
      assert ListInv(st, h.l);
    } else {
      assert SchedInv(st, h.s);
      var c := st.scheds[h.s];
      if !h.RunningUnder? { assert w in Owned(c); }
    }
  }

  /** One scheduler cannot hold the same context in two of its three places. */
  lemma OneOfThree(c: Sched, w: nat)
    requires Distinct(Owned(c))
    ensures c.pc == SHand(w) ==> w !in c.rq
    ensures c.pc.SWalk? && w in c.pc.rest ==> w !in c.rq
  {
    var o := Owned(c);
    if c.pc.SHand? {
      assert forall i :: 0 <= i < |c.rq| ==> o[i + 1] == c.rq[i];
      assert o[0] == c.pc.w;
    } else if c.pc.SWalk? {
      assert forall i :: 0 <= i < |c.rq| ==> o[i] == c.rq[i];
      assert forall i :: 0 <= i < |c.pc.rest| ==> o[i + |c.rq|] == c.pc.rest[i];
    }
  }

  lemma OneHome(st: State, w: nat, h: Home, h': Home)
    requires Inv(st) && At(st, w, h) && At(st, w, h')
    ensures h == h'
  {
    AtPlace(st, w, h);
    AtPlace(st, w, h');
    if st.workers[w].place.Held? {
      var s := st.workers[w].place.s;
      assert SchedInv(st, s) && WorkerInv(st, w);
      OneOfThree(st.scheds[s], w);
    }
  }

  lemma HasHome(st: State, w: nat) returns (h: Home)
    requires Inv(st) && w < |st.workers| && Settled(st.workers[w])
    ensures At(st, w, h)
  {
    assert WorkerInv(st, w);
    var k := st.workers[w];
    match k.place
    case OnList(l) => h := CompletionList(l);
    case Executing(s) => h := RunningUnder(s);
    case Held(s) =>
      var c := st.scheds[s];
      if c.pc == SHand(w) { h := InHand(s); }
      else if w in c.rq { h := ReadyQueue(s); }
      else { h := Batch(s); }
    case Outside => assert false;
  }

  /** In every reachable state a worker that has been published, and is not on its way to its
      list again, has exactly one home, any other
      worker has none, and no list, ready queue, hand or batch holds a context twice. */
  lemma SingleOwnership(states: seq<State>, acts: seq<Thread>, i: nat, w: nat)
    requires IsRun(states, acts) && i < |states| && w < |states[i].workers|
    ensures
      var st := states[i];
      && (Settled(st.workers[w]) <==> exists h :: At(st, w, h))
      && (forall h, h' :: At(st, w, h) && At(st, w, h') ==> h == h')
      && (forall l :: 0 <= l < |st.lists| ==> Distinct(st.lists[l].q))
      && (forall s :: 0 <= s < |st.scheds| ==> Distinct(Owned(st.scheds[s])))
  {
    RunInv(states, acts, i);
    var st := states[i];
    forall h, h' | At(st, w, h) && At(st, w, h') ensures h == h' { OneHome(st, w, h, h'); }
    if Settled(st.workers[w]) { var h := HasHome(st, w); }
    forall h | At(st, w, h) ensures Settled(st.workers[w]) {
      AtPlace(st, w, h);
      assert WorkerInv(st, w);
    }
    forall l | 0 <= l < |st.lists| ensures Distinct(st.lists[l].q) { assert ListInv(st, l); }
    forall s | 0 <= s < |st.scheds| ensures Distinct(Owned(st.scheds[s])) { assert SchedInv(st, s); }
  }

  // ----------------------------------------------------------- trace matching

  /** Whatever a scheduler has been delivered is one STARTUP and then, for its k-th
      exec, an event that names the k-th executed worker; its queue never holds more
      than one event, and is never empty when the library asks for one. */
  lemma TraceMatching(states: seq<State>, acts: seq<Thread>, i: nat, s: nat)
    requires IsRun(states, acts) && i < |states| && s < |states[i].scheds|
    ensures
      var c := states[i].scheds[s];
      && (forall k :: 0 <= k < |c.delivered| ==> (c.delivered[k] == Startup <==> k == 0))
      && |c.delivered| <= |c.execs| + 1
      && (forall k {:trigger c.execs[k]} :: 0 <= k < |c.delivered| - 1 ==>
            c.delivered[k + 1] == Yielded(c.execs[k]) || c.delivered[k + 1] == Terminated(c.execs[k]))
      && |c.evq| <= 1 && (c.pc.SDequeueEvent? ==> c.evq != [])
  {
    RunInv(states, acts, i);
    var st := states[i];
    assert SchedInv(st, s);
    var c := st.scheds[s];
    var all := c.delivered + c.evq;
    assert forall k :: 0 <= k < |c.delivered| ==> all[k] == c.delivered[k];
    forall k {:trigger c.execs[k]} | 0 <= k < |c.delivered| - 1 ensures Names(c.delivered[k + 1], c.execs[k]) {
      assert Names(all[k + 1], c.execs[k]);
    }
    forall k | 0 <= k < |c.delivered| ensures c.delivered[k] == Startup <==> k == 0 {
      if k > 0 { assert Names(c.delivered[k], c.execs[k - 1]); }
    }
    if c.pc.SInSchedule? && c.ctx.task.Sleeping? { assert WorkerInv(st, c.pc.w); }
  }

  // --------------------------------------------------------- no lost wake-up

  /** No thread sleeps in `schedule()` after the wake-up for that sleep completed, no
      wake-up is spent on a thread that did not park, and a scheduler asleep on its
      completion list's wait queue while the list has entries has a `wake_up_all` coming. */
  lemma NoLostWakeUp(states: seq<State>, acts: seq<Thread>, i: nat)
    requires IsRun(states, acts) && i < |states|
    ensures
      var st := states[i];
      && (forall w :: 0 <= w < |st.workers| ==> WakeUpsTakeEffect(st.workers[w].ctx))
      && (forall s :: 0 <= s < |st.scheds| ==> WakeUpsTakeEffect(st.scheds[s].ctx))
      && (forall s :: 0 <= s < |st.scheds| && Asleep(st.scheds[s]) ==>
            st.scheds[s].list < |st.lists| &&
            (st.lists[st.scheds[s].list].q == [] || Notifying(st, st.scheds[s].list)))
  {
    RunInv(states, acts, i);
    var st := states[i];
    forall w | 0 <= w < |st.workers| ensures WakeUpsTakeEffect(st.workers[w].ctx) {
      assert WorkerInv(st, w);
    }
    forall s | 0 <= s < |st.scheds| ensures WakeUpsTakeEffect(st.scheds[s].ctx) {
      assert SchedInv(st, s);
    }
    forall s | 0 <= s < |st.scheds| && Asleep(st.scheds[s])
      ensures st.scheds[s].list < |st.lists| &&
              (st.lists[st.scheds[s].list].q == [] || Notifying(st, st.scheds[s].list))
    {
      assert SchedInv(st, s) && ListInv(st, st.scheds[s].list);
    }
  }

  ghost predicate WakeUpsTakeEffect(c: Context) {
    c.wakes <= c.parks && (c.wakes == c.parks <==> c.task.Awake?)
  }

  predicate Waits(pc: SchedPc) { pc.SWaitPrepare? || pc.SWaitCheck? || pc.SWaitSleep? }

  /** Waiting on the list ends only when the list has been seen with entries. */
  lemma WaitEndsOnEntries(states: seq<State>, acts: seq<Thread>, i: nat, s: nat)
    requires IsRun(states, acts) && i < |acts| && s < |states[i].scheds|
    requires Waits(states[i].scheds[s].pc)
    ensures
      var st, st' := states[i], states[i + 1];
      && s < |st'.scheds| && st.scheds[s].list < |st.lists|
      && (!Waits(st'.scheds[s].pc) ==>
            st'.scheds[s].pc.SDequeueList? && st.lists[st.scheds[s].list].q != [])
  {
    RunInv(states, acts, i);
    var st := states[i];
    assert SchedInv(st, s) && Ready(st, acts[i]) && states[i + 1] == Step(st, acts[i]);
    match acts[i]
    case W(w) => WorkerKeepsPc(st, w, s);
    case S(t) => SchedCauses(st, t);
  }

  lemma WorkerKeepsPc(st: State, w: nat, s: nat)
    requires WorkerReady(st, w) && s < |st.scheds|
    ensures s < |WorkerStep(st, w).scheds| && WorkerStep(st, w).scheds[s].pc == st.scheds[s].pc
  {}

  /** No thread is woken without a cause: one asleep on a completion list only by a worker that
      has just added itself to that list, a worker only by the scheduler that is switching to
      it, a scheduler only by the worker it is suspended for. */
  lemma WakeUpsHaveCause(states: seq<State>, acts: seq<Thread>, i: nat)
    requires IsRun(states, acts) && i < |acts|
    ensures
      var st, st' := states[i], states[i + 1];
      && |st'.scheds| == |st.scheds| && |st'.workers| == |st.workers|
      && (forall s :: 0 <= s < |st.scheds| && st.scheds[s].waiting && !st'.scheds[s].waiting && acts[i] != S(s) ==>
            && acts[i].W? && acts[i].w < |st.workers| && st.workers[acts[i].w].pc.WNotify?
            && st.workers[acts[i].w].list == st.scheds[s].list)
      && (forall w :: 0 <= w < |st.workers| && st.workers[w].ctx.task.Sleeping? && st'.workers[w].ctx.task.Awake? ==>
            && acts[i].S? && acts[i].s < |st.scheds| && st.scheds[acts[i].s].pc == SSwitch(w, PeerWake))
      && (forall s :: 0 <= s < |st.scheds| && st.scheds[s].ctx.task.Sleeping? && st'.scheds[s].ctx.task.Awake? ==>
            && acts[i].W? && At(st, acts[i].w, RunningUnder(s)))
  {
    RunInv(states, acts, i);
    var st := states[i];
    assert Ready(st, acts[i]) && states[i + 1] == Step(st, acts[i]);
    match acts[i]
    case W(w) => WorkerCauses(st, w);
    case S(s) => SchedCauses(st, s);
  }

  lemma WorkerCauses(st: State, v: nat)
    requires WorkerReady(st, v) && WorkerInv(st, v)
    ensures
      var st' := WorkerStep(st, v);
      && |st'.scheds| == |st.scheds| && |st'.workers| == |st.workers|
      && (forall s :: 0 <= s < |st.scheds| && st.scheds[s].waiting && !st'.scheds[s].waiting ==>
            st.workers[v].pc.WNotify? && st.workers[v].list == st.scheds[s].list)
      && (forall w :: 0 <= w < |st.workers| && st.workers[w].ctx.task.Sleeping? ==> st'.workers[w].ctx.task.Sleeping?)
      && (forall s :: 0 <= s < |st.scheds| && st.scheds[s].ctx.task.Sleeping? && st'.scheds[s].ctx.task.Awake? ==>
            Engaged(st.scheds[s], v))
  {}

  lemma SchedCauses(st: State, t: nat)
    requires SchedReady(st, t)
    ensures
      var st' := SchedStep(st, t);
      && |st'.scheds| == |st.scheds| && |st'.workers| == |st.workers|
      && (forall s :: 0 <= s < |st.scheds| && s != t ==> st'.scheds[s] == st.scheds[s])
      && (forall w :: 0 <= w < |st.workers| && st.workers[w].ctx.task.Sleeping? && st'.workers[w].ctx.task.Awake? ==>
            st.scheds[t].pc == SSwitch(w, PeerWake))
      && (st.scheds[t].ctx.task.Sleeping? ==> st'.scheds[t].ctx.task.Sleeping?)
  {}

  /** Who will wake a sleeping thread: a worker's wake-up comes from the scheduler that
      will take its context, a scheduler's from the worker it is suspended for. */
  lemma WakerIsKnown(states: seq<State>, acts: seq<Thread>, i: nat)
    requires IsRun(states, acts) && i < |states|
    ensures
      var st := states[i];
      && (forall w :: 0 <= w < |st.workers| && st.workers[w].pc.WInSchedule? && st.workers[w].ctx.task.Sleeping? ==>
            exists h :: At(st, w, h) && (h.RunningUnder? ==> st.scheds[h.s].pc.SSwitch?))
      && (forall s :: 0 <= s < |st.scheds| && st.scheds[s].pc.SInSchedule? && st.scheds[s].ctx.task.Sleeping? ==>
            var w := st.scheds[s].pc.w;
            w < |st.workers| && At(st, w, RunningUnder(s)) && st.workers[w].ctx.parent == Some(s))
  {
    RunInv(states, acts, i);
    var st := states[i];
    forall w | 0 <= w < |st.workers| && st.workers[w].pc.WInSchedule? && st.workers[w].ctx.task.Sleeping?
      ensures exists h :: At(st, w, h) && (h.RunningUnder? ==> st.scheds[h.s].pc.SSwitch?)
    {
      var h := HasHome(st, w);
      AtPlace(st, w, h);
      assert WorkerInv(st, w);
    }
    forall s | 0 <= s < |st.scheds| && st.scheds[s].pc.SInSchedule? && st.scheds[s].ctx.task.Sleeping?
      ensures var w := st.scheds[s].pc.w;
              w < |st.workers| && At(st, w, RunningUnder(s)) && st.workers[w].ctx.parent == Some(s)
    {
      assert SchedInv(st, s);
      assert WorkerInv(st, st.scheds[s].pc.w);
    }
  }

  // ------------------------------------------------- bijection and no faults

  /** A worker in the kernel's table whose context is marked running, with parent `s`. */
  ghost predicate RunsUnder(k: Worker, s: nat) {
    Registered(k) && k.ctx.state.CtxRunning? && k.ctx.parent == Some(s)
  }

  /** In the table and marked running without having control: newly registered, with a parent
      pointer nobody has set, or ended, with its parent awake and its destroy to come. */
  ghost predicate Passing(k: Worker) { k.pc.WCreated? || k.pc.WDestroy? }

  /** Of two different workers that run under one scheduler, one has no control. */
  lemma OneRunner(states: seq<State>, acts: seq<Thread>, i: nat, s: nat, v: nat, w: nat)
    requires IsRun(states, acts) && i < |states| && v < |states[i].workers| && w < |states[i].workers|
    requires RunsUnder(states[i].workers[v], s) && RunsUnder(states[i].workers[w], s)
    ensures v == w || Passing(states[i].workers[v]) || Passing(states[i].workers[w])
  {
    RunInv(states, acts, i);
    if !Passing(states[i].workers[v]) && !Passing(states[i].workers[w]) {
      UnderOne(states[i], s, v);
      UnderOne(states[i], s, w);
    }
  }

  /** A worker that runs under `s` and has control is the one `s` switches to or is suspended for. */
  lemma UnderOne(st: State, s: nat, w: nat)
    requires Inv(st) && w < |st.workers| && RunsUnder(st.workers[w], s) && !Passing(st.workers[w])
    ensures s < |st.scheds| && Attending(st.scheds[s]) && st.scheds[s].pc.w == w
  {
    assert WorkerInv(st, w);
  }

  /** Neither `s` nor the worker it is suspended for is part-way through a switch or an end. */
  ghost predicate Steady(st: State, s: nat)
    requires s < |st.scheds|
  {
    var pc := st.scheds[s].pc;
    && !pc.SSwitch?
    && (pc.SInSchedule? && pc.w < |st.workers| ==>
          var k := st.workers[pc.w];
          !k.pc.WSwitch? && !k.pc.WEndRunning? && !k.pc.WEndWake?)
  }

  /** The scheduler is idle exactly when a worker runs under it, and never two do. */
  ghost predicate Bijection(st: State, s: nat)
    requires s < |st.scheds|
  {
    && (st.scheds[s].ctx.state.CtxIdle? <==> exists w :: 0 <= w < |st.workers| && RunsUnder(st.workers[w], s))
    && (forall v, w | 0 <= v < |st.workers| && 0 <= w < |st.workers| ::
          RunsUnder(st.workers[v], s) && RunsUnder(st.workers[w], s) ==> v == w)
  }

  /** Some worker in the table names `s` as its parent without having control. */
  ghost predicate Bystander(st: State, s: nat) {
    exists w :: 0 <= w < |st.workers| && Passing(st.workers[w]) && st.workers[w].ctx.parent == Some(s)
  }

  /** Outside a switch of its own, whatever other threads do, an entered scheduler and the
      workers that run under it are in bijection if and only if there is no bystander. */
  lemma RunningBijection(states: seq<State>, acts: seq<Thread>, i: nat, s: nat)
    requires IsRun(states, acts) && i < |states| && s < |states[i].scheds| && Steady(states[i], s)
    requires !states[i].scheds[s].pc.SNew?
    ensures Bijection(states[i], s) <==> !Bystander(states[i], s)
  {
    RunInv(states, acts, i);
    var st := states[i];
    assert SchedInv(st, s);
    forall w | 0 <= w < |st.workers| && RunsUnder(st.workers[w], s) && !Passing(st.workers[w])
      ensures st.scheds[s].ctx.state.CtxIdle? && st.scheds[s].pc == SInSchedule(w)
    {
      UnderOne(st, s, w);
      assert WorkerInv(st, w);
    }
    if st.scheds[s].ctx.state.CtxIdle? {
      var w := st.scheds[s].pc.w;
      assert WorkerInv(st, w);
      assert RunsUnder(st.workers[w], s) && !Passing(st.workers[w]);
    }
    if Bystander(st, s) {
      var v :| 0 <= v < |st.workers| && Passing(st.workers[v]) && st.workers[v].ctx.parent == Some(s);
      assert WorkerInv(st, v);
      assert RunsUnder(st.workers[v], s);
    }
  }

  /** A worker's parent is the scheduler that executed it last, from the first write of that
      scheduler's switch on, until it is executed again. */
  lemma ParentIsLastHost(states: seq<State>, acts: seq<Thread>, i: nat, w: nat)
    requires IsRun(states, acts) && i < |states| && w < |states[i].workers|
    ensures
      var st, k := states[i], states[i].workers[w];
      k.hosts != [] ==>
        var s := k.hosts[|k.hosts| - 1];
        k.ctx.parent == Some(s) || (s < |st.scheds| && st.scheds[s].pc == SSwitch(w, SetParent))
  {
    RunInv(states, acts, i);
    assert WorkerInv(states[i], w);
  }

  /** The schedulers a worker has been executed by are those that have executed it, as often. */
  lemma {:induction false} HostsAreExecs(states: seq<State>, acts: seq<Thread>, i: nat, s: nat, w: nat)
    requires IsRun(states, acts) && i < |states| && s < |states[i].scheds| && w < |states[i].workers|
    ensures multiset(states[i].workers[w].hosts)[s] == multiset(states[i].scheds[s].execs)[w]
  {
    if i == 0 {
      assert InitSched(states[0], states[0].scheds[s]) && InitWorker(states[0], states[0].workers[w]);
    } else {
      var st := states[i - 1];
      assert Ready(st, acts[i - 1]) && states[i] == Step(st, acts[i - 1]);
      match acts[i - 1] {
        case W(v) => WorkerKeepsHosts(st, v, s, w);
        case S(u) =>
          if st.scheds[u].pc.SHand? { ExecCountsHosts(st, u, s, w); } else { SchedKeepsHosts(st, u, s, w); }
      }
      HostsAreExecs(states, acts, i - 1, s, w);
    }
  }

  lemma WorkerKeepsHosts(st: State, v: nat, s: nat, w: nat)
    requires WorkerReady(st, v)
    ensures |WorkerStep(st, v).scheds| == |st.scheds| && |WorkerStep(st, v).workers| == |st.workers|
    ensures s < |st.scheds| ==> WorkerStep(st, v).scheds[s].execs == st.scheds[s].execs
    ensures w < |st.workers| ==> WorkerStep(st, v).workers[w].hosts == st.workers[w].hosts
  {}

  lemma SchedKeepsHosts(st: State, u: nat, s: nat, w: nat)
    requires SchedReady(st, u) && !st.scheds[u].pc.SHand?
    ensures |SchedStep(st, u).scheds| == |st.scheds| && |SchedStep(st, u).workers| == |st.workers|
    ensures s < |st.scheds| ==> SchedStep(st, u).scheds[s].execs == st.scheds[s].execs
    ensures w < |st.workers| ==> SchedStep(st, u).workers[w].hosts == st.workers[w].hosts
  {}

  lemma ExecCountsHosts(st: State, u: nat, s: nat, w: nat)
    requires SchedReady(st, u) && st.scheds[u].pc.SHand?
    ensures |SchedStep(st, u).scheds| == |st.scheds| && |SchedStep(st, u).workers| == |st.workers|
    ensures s < |st.scheds| && w < |st.workers| ==>
              var v, st' := st.scheds[u].pc.w, SchedStep(st, u);
              var d := if v < |st.workers| && Registered(st.workers[v]) && v == w && u == s then 1 else 0;
              && multiset(st'.workers[w].hosts)[s] == multiset(st.workers[w].hosts)[s] + d
              && multiset(st'.scheds[s].execs)[w] == multiset(st.scheds[s].execs)[w] + d
  {
    var v, st' := st.scheds[u].pc.w, SchedStep(st, u);
    if v < |st.workers| && Registered(st.workers[v]) {
      assert st'.workers == st.workers[v := Hosted(st.workers[v], u)];
      assert st'.scheds == st.scheds[u := BeginExec(st.scheds[u], v, st.workers[v].link)];
    }
  }

  /** A scheduler's parent is the worker that yielded to it last, from the first write of that
      worker's switch on. */
  lemma ParentIsLastYielder(states: seq<State>, acts: seq<Thread>, i: nat, s: nat)
    requires IsRun(states, acts) && i < |states| && s < |states[i].scheds|
    ensures
      var st, c := states[i], states[i].scheds[s];
      var last := LastYielder(c.delivered + c.evq);
      last.None? || c.ctx.parent == last
      || (last.value < |st.workers| && st.workers[last.value].pc == WSwitch(s, SetParent))
    ensures
      var st, c := states[i], states[i].scheds[s];
      forall w :: 0 <= w < |st.workers| && st.workers[w].pc.WSwitch? && st.workers[w].pc.s == s ==>
        && LastYielder(c.delivered + c.evq) == Some(w)
        && (st.workers[w].pc.ph != SetParent ==> c.ctx.parent == Some(w))
  {
    RunInv(states, acts, i);
    var st, c := states[i], states[i].scheds[s];
    assert SchedInv(st, s);
    assert c.evq != [] ==> (c.delivered + c.evq)[|c.delivered + c.evq| - 1] == c.evq[|c.evq| - 1];
    if Yielding(c) { assert WorkerInv(st, c.pc.w); }
    forall w | 0 <= w < |st.workers| && st.workers[w].pc.WSwitch? && st.workers[w].pc.s == s
      ensures LastYielder(c.delivered + c.evq) == Some(w)
      ensures st.workers[w].pc.ph != SetParent ==> c.ctx.parent == Some(w)
    {
      assert WorkerInv(st, w);
    }
  }

  function Trace(c: Sched): seq<Event> { c.delivered + c.evq }

  /** A trace grows by at most one event. */
  ghost predicate Grown(trace: seq<Event>, trace': seq<Event>) {
    trace' == trace || (trace' != [] && trace' == trace + [trace'[|trace'| - 1]])
  }

  lemma WorkerSetsParent(st: State, v: nat, s: nat)
    requires WorkerReady(st, v) && s < |st.scheds|
    ensures |WorkerStep(st, v).scheds| == |st.scheds|
    ensures
      var c, c' := st.scheds[s], WorkerStep(st, v).scheds[s];
      Grown(Trace(c), Trace(c')) && (c'.ctx.parent == c.ctx.parent || st.workers[v].pc == WSwitch(s, SetParent))
  {
    var c, c' := st.scheds[s], WorkerStep(st, v).scheds[s];
    if c'.evq != c.evq { assert Trace(c') == Trace(c) + [c'.evq[|c.evq|]]; }
  }

  lemma SchedKeepsParent(st: State, u: nat, s: nat)
    requires SchedReady(st, u) && s < |st.scheds|
    ensures |SchedStep(st, u).scheds| == |st.scheds|
    ensures
      var c, c' := st.scheds[s], SchedStep(st, u).scheds[s];
      Grown(Trace(c), Trace(c')) && c'.ctx.parent == c.ctx.parent
  {
    var c, c' := st.scheds[s], SchedStep(st, u).scheds[s];
    if u == s && c.pc.SNew? { assert Trace(c') == Trace(c) + [Startup]; }
  }

  lemma StillNoYielder(trace: seq<Event>, trace': seq<Event>)
    requires Grown(trace, trace') && LastYielder(trace').None?
    ensures LastYielder(trace).None?
  {
    if trace' != trace { YielderAppend(trace, trace'[|trace'| - 1]); }
  }

  /** Until a worker yields to it, a scheduler's parent is whatever its memory held. */
  lemma {:induction false} NoParentBeforeYield(states: seq<State>, acts: seq<Thread>, i: nat, s: nat)
    requires IsRun(states, acts) && i < |states| && s < |states[0].scheds|
    ensures s < |states[i].scheds|
    ensures LastYielder(Trace(states[i].scheds[s])).None? ==>
              states[i].scheds[s].ctx.parent == states[0].scheds[s].ctx.parent
  {
    if i > 0 {
      NoParentBeforeYield(states, acts, i - 1, s);
      ParentIsLastYielder(states, acts, i - 1, s);
      var st := states[i - 1];
      assert Ready(st, acts[i - 1]) && states[i] == Step(st, acts[i - 1]);
      StepKeepsUnset(st, acts[i - 1], s);
    }
  }

  lemma StepKeepsUnset(st: State, t: Thread, s: nat)
    requires Ready(st, t) && s < |st.scheds|
    requires forall w :: 0 <= w < |st.workers| && st.workers[w].pc.WSwitch? && st.workers[w].pc.s == s ==>
               LastYielder(Trace(st.scheds[s])) == Some(w)
    ensures s < |Step(st, t).scheds|
    ensures
      var c, c' := st.scheds[s], Step(st, t).scheds[s];
      LastYielder(Trace(c')).None? ==> LastYielder(Trace(c)).None? && c'.ctx.parent == c.ctx.parent
  {
    match t {
      case W(v) => WorkerSetsParent(st, v, s);
      case S(u) => SchedKeepsParent(st, u, s);
    }
    var c, c' := st.scheds[s], Step(st, t).scheds[s];
    if LastYielder(Trace(c')).None? { StillNoYielder(Trace(c), Trace(c')); }
  }

  /** Until it is executed, a worker's parent is whatever its memory held. */
  lemma {:induction false} NoParentBeforeExec(states: seq<State>, acts: seq<Thread>, i: nat, w: nat)
    requires IsRun(states, acts) && i < |states| && w < |states[0].workers|
    ensures w < |states[i].workers|
    ensures states[i].workers[w].hosts == [] ==> states[i].workers[w].ctx.parent == states[0].workers[w].ctx.parent
  {
    if i > 0 {
      NoParentBeforeExec(states, acts, i - 1, w);
      RunInv(states, acts, i - 1);
      var st := states[i - 1];
      assert Ready(st, acts[i - 1]) && states[i] == Step(st, acts[i - 1]);
      match acts[i - 1]
      case W(v) => WorkerKeepsOwnParent(st, v, w);
      case S(u) =>
        assert SchedInv(st, u);
        assert WorkerInv(st, w);
        SchedSetsParent(st, u, w);
    }
  }

  lemma WorkerKeepsOwnParent(st: State, v: nat, w: nat)
    requires WorkerReady(st, v) && w < |st.workers|
    ensures w < |WorkerStep(st, v).workers| && WorkerStep(st, v).workers[w].hosts == st.workers[w].hosts
    ensures WorkerStep(st, v).workers[w].ctx.parent == st.workers[w].ctx.parent
  {}

  lemma SchedSetsParent(st: State, u: nat, w: nat)
    requires SchedReady(st, u) && w < |st.workers|
    ensures
      var st' := SchedStep(st, u);
      && w < |st'.workers| && st.workers[w].hosts <= st'.workers[w].hosts
      && (st'.workers[w].ctx.parent == st.workers[w].ctx.parent || st.scheds[u].pc == SSwitch(w, SetParent))
  {}

  /** A worker that yields or ends has a live parent, so neither call dereferences a bad
      pointer, the null check in end never fires, and exec never misses its worker. */
  lemma NoFault(states: seq<State>, acts: seq<Thread>, i: nat)
    requires IsRun(states, acts) && i < |states|
    ensures
      var st := states[i];
      && (forall w :: 0 <= w < |st.workers| ==> !st.workers[w].pc.WFault? && !st.workers[w].pc.WEndFailed?)
      && (forall w :: 0 <= w < |st.workers| && st.workers[w].pc.WUser? ==>
            st.workers[w].ctx.parent.Some? && st.workers[w].ctx.parent.value < |st.scheds|)
      && (forall s :: 0 <= s < |st.scheds| && st.scheds[s].pc.SHand? ==>
            st.scheds[s].pc.w < |st.workers| && Registered(st.workers[st.scheds[s].pc.w]))
  {
    RunInv(states, acts, i);
    var st := states[i];
    forall w | 0 <= w < |st.workers|
      ensures !st.workers[w].pc.WFault? && !st.workers[w].pc.WEndFailed?
      ensures st.workers[w].pc.WUser? ==>
                st.workers[w].ctx.parent.Some? && st.workers[w].ctx.parent.value < |st.scheds|
    {
      assert WorkerInv(st, w);
    }
    forall s | 0 <= s < |st.scheds| && st.scheds[s].pc.SHand?
      ensures st.scheds[s].pc.w < |st.workers| && Registered(st.workers[st.scheds[s].pc.w])
    {
      AtPlace(st, st.scheds[s].pc.w, InHand(s));
      assert WorkerInv(st, st.scheds[s].pc.w);
    }
  }

  /** What the calls do in states no run reaches.  An exec of a thread that is in no table changes
      nothing, and its scheduler asks for the next event.  An end without a parent fails and a
      yield without one faults: no event is queued, nothing is woken, and the worker stops there. */
  lemma ErrorPaths(st: State, t: Thread)
    requires Ready(st, t)
    ensures t.S? && st.scheds[t.s].pc.SHand? &&
            !(st.scheds[t.s].pc.w < |st.workers| && Registered(st.workers[st.scheds[t.s].pc.w])) ==>
              Step(st, t) == SetSched(st, t.s, st.scheds[t.s].(pc := SDequeueEvent))
    ensures t.W? && st.workers[t.w].pc.WUser? && st.workers[t.w].ctx.parent.None? ==>
              && Step(st, t) == SetWorker(st, t.w, Step(st, t).workers[t.w])
              && (Step(st, t).workers[t.w].pc.WFault? <==> st.workers[t.w].todo > 0)
              && (Step(st, t).workers[t.w].pc.WEndFailed? <==> st.workers[t.w].todo == 0)
              && Step(st, t).workers[t.w] == st.workers[t.w].(pc := Step(st, t).workers[t.w].pc)
              && !Ready(Step(st, t), t)
    ensures t.W? && st.workers[t.w].pc.WUser? && st.workers[t.w].ctx.parent.Some? &&
            st.workers[t.w].ctx.parent.value >= |st.scheds| ==>
              Step(st, t) == SetWorker(st, t.w, st.workers[t.w].(pc := WFault)) && !Ready(Step(st, t), t)
  {}

  // --------------------------------------------------------- owned-worker links

  /** The live links are exactly the links of the contexts dequeued and not executed, one
      each; their numbers are the consecutive ones up to max, so max is the largest live one
      and the next (max + 1) is free. */
  lemma OwnedLinks(states: seq<State>, acts: seq<Thread>, i: nat, s: nat)
    requires IsRun(states, acts) && i < |states| && s < |states[i].scheds|
    ensures
      var st, c := states[i], states[i].scheds[s];
      && (forall v :: v in Owned(c) ==> v < |st.workers|)
      && c.links == (set v | v in Owned(c) :: st.workers[v].link)
      && (forall v, w :: v in Owned(c) && w in Owned(c) && st.workers[v].link == st.workers[w].link ==> v == w)
      && c.nWorkers == |Owned(c)| == |c.links|
      && (forall x :: x in c.links <==> c.maxWorkers - c.nWorkers < x <= c.maxWorkers)
      && 0 <= c.nWorkers <= c.maxWorkers && (c.nWorkers == 0 ==> c.maxWorkers == 0)
      && (c.pc.SHand? ==> c.pc.w in Owned(c) && st.workers[c.pc.w].link in c.links && c.nWorkers > 0)
  {
    RunInv(states, acts, i);
    var st, c := states[i], states[i].scheds[s];
    assert SchedInv(st, s);
    NumbersAreLinks(c.links, c.nWorkers, c.maxWorkers, Owned(c), st.workers);
    if c.pc.SHand? { assert Owned(c)[0] == c.pc.w; }
  }

  lemma NumbersAreLinks(links: set<int>, n: int, max: int, o: seq<nat>, workers: seq<Worker>)
    requires LinksOk(links, n, max, Numbers(workers, o))
    requires forall j :: 0 <= j < |o| ==> o[j] < |workers|
    ensures links == set v | v in o :: workers[v].link
    ensures forall v, w :: v in o && w in o && workers[v].link == workers[w].link ==> v == w
    ensures n == |o| == |links| && forall x :: x in links <==> max - n < x <= max
  {
    var nums := Numbers(workers, o);
    assert forall j :: 0 <= j < |o| ==> nums[j] == workers[o[j]].link;
    CountElements(nums);
    forall x | max - n < x <= max ensures x in nums { assert nums[x - (max - n + 1)] == x; }
    forall x | x in nums ensures exists v :: v in o && workers[v].link == x {
      var j :| 0 <= j < |nums| && nums[j] == x;
      assert o[j] in o;
    }
    forall v | v in o ensures workers[v].link in nums {
      var j :| 0 <= j < |o| && o[j] == v;
      assert nums[j] in nums;
    }
  }

  // ------------------------------------------------------- the client's loop

  /** Scheduler `s` takes up to `n` steps on its own. */
  function Alone(st: State, s: nat, n: nat): State
    decreases n
  {
    if n == 0 || !SchedReady(st, s) then st else Alone(SchedStep(st, s), s, n - 1)
  }

  lemma {:induction false} WalkAlone(st: State, s: nat)
    requires s < |st.scheds| && st.scheds[s].pc.SWalk? && st.scheds[s].rq != []
    ensures
      var c := st.scheds[s];
      var all := c.rq + c.pc.rest;
      Alone(st, s, |c.pc.rest| + 1) == SetSched(st, s, c.(pc := SHand(all[0]), rq := all[1..]))
    decreases |st.scheds[s].pc.rest|
  {
    var c := st.scheds[s];
    if c.pc.rest == [] {
      assert c.rq + c.pc.rest == c.rq;
      assert Alone(SchedStep(st, s), s, 0) == SchedStep(st, s);
    } else {
      var st' := SchedStep(st, s);
      WalkAlone(st', s);
      var c' := st'.scheds[s];
      assert c'.rq + c'.pc.rest == c.rq + c.pc.rest;
    }
  }

  /** Left alone on a non-empty list, `get_next_context` ends holding the first context of
      the list, with the others queued in order and the list empty. */
  lemma GetNextAlone(st: State, s: nat)
    requires SchedReady(st, s) && st.scheds[s].pc.SDequeueList? && st.scheds[s].rq == []
    requires st.lists[st.scheds[s].list].q != []
    ensures
      var q, st' := st.lists[st.scheds[s].list].q, Alone(st, s, |st.lists[st.scheds[s].list].q| + 1);
      && |st'.scheds| == |st.scheds| && |st'.lists| == |st.lists|
      && st'.scheds[s].pc == SHand(q[0]) && st'.scheds[s].rq == q[1..]
      && st'.lists[st.scheds[s].list].q == []
  {
    var q, st1 := st.lists[st.scheds[s].list].q, SchedStep(st, s);
    WalkAlone(st1, s);
    assert [q[0]] + q[1..] == q;
    assert st1.scheds[s].rq + st1.scheds[s].pc.rest == q;
  }
}
