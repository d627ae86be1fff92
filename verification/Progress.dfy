/**
 Every run ends: a weight that each step lowers.
 */
module Progress {
  import opened Protocol
  import opened Invariant
  import opened Preservation
  import opened Sums

  // ------------------------------------------------------------------ weight

  /** How many more times the worker has to be executed. */
  function Turns(k: Worker): int {
    match k.pc
    case WNew => k.todo + 1
    case WCreated => k.todo + 1
    case WParking => k.todo + 1
    case WPublish => k.todo + 1
    case WNotify => if k.place.Executing? then k.todo else k.todo + 1
    case WInSchedule => if k.place.Executing? then k.todo else k.todo + 1
    case WUser => k.todo
    case WYieldEvent(_) => k.todo + 1
    case WSwitch(_, _) => k.todo + 1
    case _ => 0
  }

  /** How many more times the worker will add itself to its list. */
  function Publications(k: Worker): int {
    match k.pc
    case WNotify => k.todo
    case WInSchedule => k.todo
    case _ => Turns(k)
  }

  /** Moves that may let other threads run again. */
  function Tokens(k: Worker): int {
    4 * Publications(k) + Turns(k) + if k.pc.WNotify? then 1 else 0
  }

  function Length(cl: CompList): int { |cl.q| }

  function TokenCount(st: State): int {
    SumBy(Tokens, st.workers) + SumBy(Length, st.lists)
  }

  function WorkerRank(k: Worker): int {
    match k.pc
    case WNotify => 18
    case WInSchedule => 17
    case WUser => 16
    case WYieldEvent(_) => 15
    case WSwitch(_, ph) => 14 - Rank(ph)
    case WEndEvent(_) => 15
    case WEndRunning(_) => 14
    case WEndWake(_) => 13
    case WDestroy => 12
    case WNew => 11
    case WCreated => 10
    case WParking => 9
    case WPublish => 8
    case _ => 0
  }

  function Vacant(lists: seq<CompList>, l: nat): bool {
    l < |lists| && lists[l].q == []
  }

  /** `empty` says whether the scheduler's completion list is empty. */
  function SchedRank(c: Sched, empty: bool): int {
    match c.pc
    case SNew => 30
    case SSwitch(_, ph) => 29 - Rank(ph)
    case SInSchedule(_) => 20
    case SDequeueEvent => 19
    case SGetNext => 18
    case SDequeueList => if empty then 13 else 11
    case SWaitPrepare => if empty then 12 else 13
    case SWaitCheck => if !c.waiting then 15 else if empty then 11 else 12
    case SWaitSleep => if c.waiting then 10 else 14
    case SWalk(rest) => 6 + |rest|
    case SHand(_) => 5
  }

  function RankIn(lists: seq<CompList>): Sched -> int {
    (c: Sched) => SchedRank(c, Vacant(lists, c.list))
  }

  function Weight(st: State): int {
    40 * (TokenCount(st) * (|st.scheds| + 1)) + SumBy(RankIn(st.lists), st.scheds) + SumBy(WorkerRank, st.workers)
  }

  // ---------------------------------------------------- steps without a token

  /** One worker and at most one scheduler move; no token is spent. */
  lemma QuietWorker(st: State, st': State, w: nat)
    requires w < |st.workers| && |st'.workers| == |st.workers| && |st'.scheds| == |st.scheds|
    requires st'.lists == st.lists && st'.workers == st.workers[w := st'.workers[w]]
    requires Tokens(st'.workers[w]) == Tokens(st.workers[w])
    requires WorkerRank(st'.workers[w]) < WorkerRank(st.workers[w])
    requires forall s :: 0 <= s < |st.scheds| ==>
               st'.scheds[s].pc == st.scheds[s].pc && st'.scheds[s].list == st.scheds[s].list
               && st'.scheds[s].waiting == st.scheds[s].waiting
    ensures Weight(st') < Weight(st)
  {
    SumByUpdate(Tokens, st.workers, w, st'.workers[w]);
    SumByUpdate(WorkerRank, st.workers, w, st'.workers[w]);
    SumBySame(RankIn(st.lists), st.scheds, RankIn(st'.lists), st'.scheds);
  }

  lemma QuietSched(st: State, st': State, s: nat)
    requires s < |st.scheds| && |st'.workers| == |st.workers| && |st'.scheds| == |st.scheds|
    requires st'.lists == st.lists && st'.scheds == st.scheds[s := st'.scheds[s]]
    requires
      var f := RankIn(st.lists);
      f(st'.scheds[s]) < f(st.scheds[s])
    requires forall w :: 0 <= w < |st.workers| ==>
               && Tokens(st'.workers[w]) == Tokens(st.workers[w])
               && WorkerRank(st'.workers[w]) == WorkerRank(st.workers[w])
    ensures Weight(st') < Weight(st)
  {
    SumBySame(Tokens, st.workers, Tokens, st'.workers);
    SumBySame(WorkerRank, st.workers, WorkerRank, st'.workers);
    SumByUpdate(RankIn(st.lists), st.scheds, s, st'.scheds[s]);
  }

  // ------------------------------------------------------- steps with a token

  lemma TokensPay(n: nat, a: int, b: int, d: int)
    requires b <= a - d && d >= 1
    ensures b * (n + 1) <= a * (n + 1) - d * n - d && d * n >= n
  {
    assert b * (n + 1) <= (a - d) * (n + 1);
    assert (a - d) * (n + 1) == a * (n + 1) - d * n - d;
  }

  /** Spending `d` tokens pays for every scheduler getting busier. */
  lemma Spend(st: State, st': State, d: int)
    requires |st'.scheds| == |st.scheds| && d >= 1
    requires TokenCount(st') <= TokenCount(st) - d
    requires forall s :: 0 <= s < |st.scheds| ==>
               RankIn(st'.lists)(st'.scheds[s]) <= RankIn(st.lists)(st.scheds[s]) + (29 + d)
    requires SumBy(WorkerRank, st'.workers) <= SumBy(WorkerRank, st.workers) + 20
    ensures Weight(st') < Weight(st)
  {
    var n := |st.scheds|;
    SumByRise(RankIn(st.lists), st.scheds, RankIn(st'.lists), st'.scheds, 29 + d);
    assert (29 + d) * n == 29 * n + d * n;
    TokensPay(n, TokenCount(st), TokenCount(st'), d);
  }

  lemma PublishSpends(st: State, w: nat)
    requires Inv(st) && WorkerReady(st, w) && st.workers[w].pc.WPublish?
    ensures Weight(WorkerStep(st, w)) < Weight(st)
  {
    var st', l := WorkerStep(st, w), st.workers[w].list;
    SumByUpdate(Tokens, st.workers, w, st'.workers[w]);
    SumByUpdate(WorkerRank, st.workers, w, st'.workers[w]);
    SumByUpdate(Length, st.lists, l, st'.lists[l]);
    Spend(st, st', 1);
  }

  lemma NotifySpends(st: State, w: nat)
    requires Inv(st) && WorkerReady(st, w) && st.workers[w].pc.WNotify?
    ensures Weight(WorkerStep(st, w)) < Weight(st)
  {
    var st' := WorkerStep(st, w);
    SumByUpdate(Tokens, st.workers, w, st'.workers[w]);
    SumByUpdate(WorkerRank, st.workers, w, st'.workers[w]);
    Spend(st, st', 1);
  }

  lemma ExecSpends(st: State, s: nat)
    requires Inv(st) && SchedReady(st, s) && st.scheds[s].pc.SHand?
    ensures Weight(SchedStep(st, s)) < Weight(st)
  {
    var w, st' := st.scheds[s].pc.w, SchedStep(st, s);
    assert SchedInv(st, s);
    assert Owned(st.scheds[s])[0] == w;
    assert WorkerInv(st, w);
    SumByUpdate(Tokens, st.workers, w, st'.workers[w]);
    SumByUpdate(WorkerRank, st.workers, w, st'.workers[w]);
    Spend(st, st', 1);
  }

  /** Taking a batch changes no worker but its place. */
  lemma TakeKeepsTokens(st: State, s: nat)
    requires Inv(st) && SchedReady(st, s) && st.scheds[s].pc.SDequeueList?
    requires st.lists[st.scheds[s].list].q != []
    ensures
      var st' := SchedStep(st, s);
      forall v :: 0 <= v < |st.workers| ==>
        && Turns(st'.workers[v]) == Turns(st.workers[v])
        && Tokens(st'.workers[v]) == Tokens(st.workers[v])
        && WorkerRank(st'.workers[v]) == WorkerRank(st.workers[v])
  {
    var st', l := SchedStep(st, s), st.scheds[s].list;
    forall v | 0 <= v < |st.workers|
      ensures && Turns(st'.workers[v]) == Turns(st.workers[v])
              && Tokens(st'.workers[v]) == Tokens(st.workers[v])
              && WorkerRank(st'.workers[v]) == WorkerRank(st.workers[v])
    {
      if v in st.lists[l].q { OnListNotExecuting(st, l, v); }
      PlaceKeepsTokens(st.workers[v], st'.workers[v]);
    }
  }

  lemma OnListNotExecuting(st: State, l: nat, v: nat)
    requires Inv(st) && l < |st.lists| && v in st.lists[l].q
    ensures v < |st.workers| && st.workers[v].place == OnList(l)
  {
    assert ListInv(st, l);
  }

  lemma PlaceKeepsTokens(k: Worker, k': Worker)
    requires k' == k || (k.place.OnList? && k'.place.Held? && k' == k.(place := k'.place, link := k'.link))
    ensures Turns(k') == Turns(k) && Tokens(k') == Tokens(k) && WorkerRank(k') == WorkerRank(k)
  {}

  lemma TakeSpends(st: State, s: nat)
    requires Inv(st) && SchedReady(st, s) && st.scheds[s].pc.SDequeueList?
    requires st.lists[st.scheds[s].list].q != []
    ensures Weight(SchedStep(st, s)) < Weight(st)
  {
    var l, st' := st.scheds[s].list, SchedStep(st, s);
    var d := |st.lists[l].q|;
    TakeKeepsTokens(st, s);
    SumBySame(Tokens, st.workers, Tokens, st'.workers);
    SumBySame(WorkerRank, st.workers, WorkerRank, st'.workers);
    SumByUpdate(Length, st.lists, l, st'.lists[l]);
    TakeRanks(st, s);
    Spend(st, st', d);
  }

  lemma TakeRanks(st: State, s: nat)
    requires s < |st.scheds| && st.scheds[s].pc.SDequeueList?
    requires st.scheds[s].list < |st.lists| && st.lists[st.scheds[s].list].q != []
    ensures
      var st', d := TakeBatch(st, s), |st.lists[st.scheds[s].list].q|;
      forall t :: 0 <= t < |st.scheds| ==>
        RankIn(st'.lists)(st'.scheds[t]) <= RankIn(st.lists)(st.scheds[t]) + (29 + d)
  {}

  // -------------------------------------------------------------- termination

  /** What a step that spends no token does to the worker that takes it. */
  lemma WorkerSettles(st: State, w: nat)
    requires WorkerReady(st, w) && WorkerInv(st, w)
    requires !st.workers[w].pc.WPublish? && !st.workers[w].pc.WNotify?
    ensures
      var st' := WorkerStep(st, w);
      && st'.workers == st.workers[w := st'.workers[w]] && st'.lists == st.lists
      && Turns(st'.workers[w]) == Turns(st.workers[w])
      && Tokens(st'.workers[w]) == Tokens(st.workers[w])
      && WorkerRank(st'.workers[w]) < WorkerRank(st.workers[w])
  {}

  lemma WorkerKeepsScheds(st: State, w: nat)
    requires WorkerReady(st, w) && !st.workers[w].pc.WNotify?
    ensures
      var st' := WorkerStep(st, w);
      && |st'.scheds| == |st.scheds|
      && forall s :: 0 <= s < |st.scheds| ==>
           && st'.scheds[s].pc == st.scheds[s].pc && st'.scheds[s].list == st.scheds[s].list
           && st'.scheds[s].waiting == st.scheds[s].waiting
           && st'.scheds[s].execs == st.scheds[s].execs
  {}

  lemma WorkerStepLowers(st: State, w: nat)
    requires Inv(st) && WorkerReady(st, w)
    ensures Weight(WorkerStep(st, w)) < Weight(st)
  {
    if st.workers[w].pc.WPublish? {
      PublishSpends(st, w);
    } else if st.workers[w].pc.WNotify? {
      NotifySpends(st, w);
    } else {
      WorkerSettles(st, w);
      WorkerKeepsScheds(st, w);
      QuietWorker(st, WorkerStep(st, w), w);
    }
  }

  lemma SchedSettles(st: State, s: nat)
    requires SchedReady(st, s) && !st.scheds[s].pc.SHand?
    requires st.scheds[s].pc.SDequeueList? ==> st.lists[st.scheds[s].list].q == []
    ensures
      var st' := SchedStep(st, s);
      && st'.lists == st.lists && st'.scheds == st.scheds[s := st'.scheds[s]]
      && |st'.workers| == |st.workers| && st'.scheds[s].execs == st.scheds[s].execs
      && st'.scheds[s].list == st.scheds[s].list
  {}

  lemma SchedSettlesLower(st: State, s: nat)
    requires SchedReady(st, s) && SchedPcOk(st.scheds[s]) && st.scheds[s].list < |st.lists|
    requires !st.scheds[s].pc.SHand?
    requires st.scheds[s].pc.SDequeueList? ==> st.lists[st.scheds[s].list].q == []
    ensures
      var empty := Vacant(st.lists, st.scheds[s].list);
      SchedRank(SchedStep(st, s).scheds[s], empty) < SchedRank(st.scheds[s], empty)
  {}

  lemma SchedKeepsWorkers(st: State, s: nat)
    requires SchedReady(st, s) && SchedInv(st, s) && !st.scheds[s].pc.SHand?
    requires st.scheds[s].pc.SDequeueList? ==> st.lists[st.scheds[s].list].q == []
    ensures
      var st' := SchedStep(st, s);
      forall v :: 0 <= v < |st.workers| ==>
        && Turns(st'.workers[v]) == Turns(st.workers[v])
        && Tokens(st'.workers[v]) == Tokens(st.workers[v])
        && WorkerRank(st'.workers[v]) == WorkerRank(st.workers[v])
  {}

  lemma SchedStepLowers(st: State, s: nat)
    requires Inv(st) && SchedReady(st, s)
    ensures Weight(SchedStep(st, s)) < Weight(st)
  {
    if st.scheds[s].pc.SHand? {
      ExecSpends(st, s);
    } else if st.scheds[s].pc.SDequeueList? && st.lists[st.scheds[s].list].q != [] {
      TakeSpends(st, s);
    } else {
      assert SchedInv(st, s);
      SchedSettles(st, s);
      SchedSettlesLower(st, s);
      SchedKeepsWorkers(st, s);
      QuietSched(st, SchedStep(st, s), s);
    }
  }

  lemma TokensNonNegative(st: State)
    ensures TokenCount(st) >= 0
  {
    SumByNonNegative(Tokens, st.workers);
    SumByNonNegative(Length, st.lists);
  }

  lemma WeightNonNegative(st: State)
    ensures Weight(st) >= 0
  {
    TokensNonNegative(st);
    assert TokenCount(st) * (|st.scheds| + 1) >= 0;
    SumByNonNegative(WorkerRank, st.workers);
    SumByNonNegative(RankIn(st.lists), st.scheds);
  }

  lemma StepLowers(st: State, t: Thread)
    requires Inv(st) && Ready(st, t)
    ensures Weight(Step(st, t)) < Weight(st)
  {
    match t
    case W(w) => WorkerStepLowers(st, w);
    case S(s) => SchedStepLowers(st, s);
  }

  /** No run is longer than the weight of its first state, whatever the interleaving. */
  lemma {:induction false} RunsEnd(states: seq<State>, acts: seq<Thread>, i: nat)
    requires IsRun(states, acts) && i < |states|
    ensures i + Weight(states[i]) <= Weight(states[0]) && Weight(states[i]) >= 0
  {
    RunInv(states, acts, i);
    WeightNonNegative(states[i]);
    if i > 0 {
      RunInv(states, acts, i - 1);
      RunsEnd(states, acts, i - 1);
      StepLowers(states[i - 1], acts[i - 1]);
    }
  }

  /** A run may take one more step whenever some thread can. */
  lemma OneMore(states: seq<State>, acts: seq<Thread>, t: Thread)
    requires IsRun(states, acts) && Ready(states[|acts|], t)
    ensures IsRun(states + [Step(states[|acts|], t)], acts + [t])
  {}

  /** Every run extends to one in which no thread can move. */
  lemma RunsComplete(states: seq<State>, acts: seq<Thread>) returns (states': seq<State>, acts': seq<Thread>)
    requires IsRun(states, acts)
    ensures IsRun(states', acts') && states <= states' && acts <= acts'
    ensures forall t :: !Ready(states'[|acts'|], t)
    decreases Weight(states[|acts|])
  {
    var st := states[|acts|];
    RunInv(states, acts, |acts|);
    if t :| Ready(st, t) {
      OneMore(states, acts, t);
      StepLowers(st, t);
      WeightNonNegative(Step(st, t));
      states', acts' := RunsComplete(states + [Step(st, t)], acts + [t]);
    } else {
      states', acts' := states, acts;
    }
  }
}
