/**
 Lifetime of completion lists: creation, reference counts held by schedulers and
 workers, deletion through a user handle, and release of the whole device.
 */
module Registry {
  import opened Sequences

  const EINVAL := 22
  const ESRCH := 3
  const ENOMEM := 12

  /** `struct ums_complist`, as far as its lifetime goes. */
  class CompList {
    const id: int
    var refs: int

    /** `kref_init`: the creator holds the first reference. */
    constructor (id: int)
      ensures this.id == id && refs == 1
    {
      this.id := id;
      refs := 1;
    }
  }

  /** The lists in a table. */
  ghost function Objects(m: map<int, CompList>): set<CompList> {
    set i | i in m :: m[i]
  }

  /** The pids of a table whose entries point at `c`. */
  ghost function Attached(m: map<int, CompList>, c: CompList): set<int> {
    set p | p in m && m[p] == c
  }

  /** The creator's reference, if it still has one, and one per pointer. */
  ghost function References(c: CompList, ss: map<int, CompList>, ws: map<int, CompList>, us: set<CompList>): int {
    (if c in us then 1 else 0) + |Attached(ss, c)| + |Attached(ws, c)|
  }

  /** With no reference left, nothing points at the list. */
  lemma LastReference(c: CompList, ss: map<int, CompList>, ws: map<int, CompList>, us: set<CompList>)
    requires References(c, ss, ws, us) == 0
    ensures c !in us && (forall p :: p in ss ==> ss[p] != c) && (forall p :: p in ws ==> ws[p] != c)
  {
    forall p | p in ss ensures ss[p] != c { assert p !in Attached(ss, c); }
    forall p | p in ws ensures ws[p] != c { assert p !in Attached(ws, c); }
  }

  lemma AttachOne(m: map<int, CompList>, p: int, c: CompList, d: CompList)
    requires p !in m
    ensures |Attached(m[p := c], d)| == |Attached(m, d)| + if c == d then 1 else 0
  {
    if c == d {
      assert Attached(m[p := c], d) == Attached(m, d) + {p};
    } else {
      assert Attached(m[p := c], d) == Attached(m, d);
    }
  }

  lemma DetachOne(m: map<int, CompList>, p: int, d: CompList)
    requires p in m
    ensures |Attached(m - {p}, d)| == |Attached(m, d)| - if m[p] == d then 1 else 0
  {
    if m[p] == d {
      assert Attached(m, d) == Attached(m - {p}, d) + {p};
    } else {
      assert Attached(m - {p}, d) == Attached(m, d);
    }
  }

  ghost predicate InTable(lists: map<int, CompList>, c: CompList) {
    c.id in lists && lists[c.id] == c
  }

  /** Pointers lead to lists in the table, and no list is destroyed twice. */
  ghost predicate WellShaped(lists: map<int, CompList>, ss: map<int, CompList>, ws: map<int, CompList>,
                             us: set<CompList>, destroyed: seq<CompList>)
  {
    && (forall i :: i in lists ==> i >= 1 && lists[i].id == i)
    && (forall p :: p in ss ==> InTable(lists, ss[p]))
    && (forall p :: p in ws ==> InTable(lists, ws[p]))
    && (forall c :: c in us ==> InTable(lists, c))
    && (forall c :: c in destroyed ==> !InTable(lists, c))
    && Distinct(destroyed)
  }

  /** Destroying a list nothing points at keeps the shape. */
  lemma ShapeWithout(lists: map<int, CompList>, ss: map<int, CompList>, ws: map<int, CompList>,
                     us: set<CompList>, destroyed: seq<CompList>, c: CompList)
    requires WellShaped(lists, ss, ws, us, destroyed) && InTable(lists, c)
    requires References(c, ss, ws, us) == 0
    ensures WellShaped(lists - {c.id}, ss, ws, us, destroyed + [c])
  {
    LastReference(c, ss, ws, us);
  }

  /** Nothing counts on a list that is gone. */
  lemma Unreferenced(c: CompList, lists: map<int, CompList>, ss: map<int, CompList>, ws: map<int, CompList>,
                     us: set<CompList>, destroyed: seq<CompList>)
    requires c.id !in lists && WellShaped(lists, ss, ws, us, destroyed)
    ensures References(c, ss, ws, us) == 0
  {
    forall p | p in ss ensures ss[p] != c { assert InTable(lists, ss[p]); }
    forall p | p in ws ensures ws[p] != c { assert InTable(lists, ws[p]); }
    assert Attached(ss, c) == {} && Attached(ws, c) == {};
  }

  /** A user-space `ums_completion_list_t` variable. */
  class Handle {
    var value: int

    constructor ()
      ensures value == 0
    {
      value := 0;
    }
  }

  /** `struct ums_data`: the id table and the two context tables. */
  class UmsData {
    var lists: map<int, CompList>
    var schedulers: map<int, CompList>
    var workers: map<int, CompList>
    /** Lists whose creator has not deleted them. */
    ghost var undeleted: set<CompList>
    /** Lists destroyed so far, in order. */
    ghost var destroyed: seq<CompList>

    ghost predicate Live(c: CompList)
      reads this
    {
      InTable(lists, c)
    }

    /** What a list's count should be. */
    ghost function Owed(c: CompList): int
      reads this
    {
      References(c, schedulers, workers, undeleted)
    }

    ghost predicate Shape()
      reads this
    {
      WellShaped(lists, schedulers, workers, undeleted, destroyed)
    }

    /** Counts are exact, a list is in the table iff its count is positive, and no scheduler
        or worker points at a list that is gone. */
    ghost predicate Valid()
      reads this, Objects(lists)
    {
      Shape() && forall i :: i in lists ==> lists[i].refs == Owed(lists[i]) && lists[i].refs > 0
    }

    /** Every list in the table is alive, whatever its count should be. */
    ghost predicate Sound()
      reads this, Objects(lists)
    {
      forall i :: i in lists ==> i >= 1 && lists[i].id == i && lists[i].refs > 0 && lists[i] !in destroyed
    }

    lemma ValidIsSound()
      requires Valid()
      ensures Sound()
    {
      forall i | i in lists ensures lists[i] !in destroyed { assert InTable(lists, lists[i]); }
    }

    /** `ums_dev_open`. */
    constructor ()
      ensures Valid() && lists == map[] && schedulers == map[] && workers == map[]
      ensures undeleted == {} && destroyed == []
    {
      lists, schedulers, workers := map[], map[], map[];
      undeleted, destroyed := {}, [];
    }

    /** `create_ums_complist` with the id the allocator chose. */
    method Create(id: int) returns (c: CompList)
      requires Valid() && id >= 1 && id !in lists
      modifies this
      ensures Valid() && fresh(c) && c.refs == 1 && lists == old(lists)[id := c] && undeleted == old(undeleted) + {c}
      ensures schedulers == old(schedulers) && workers == old(workers) && destroyed == old(destroyed)
    {
      c := new CompList(id);
      lists := lists[id := c];
      undeleted := undeleted + {c};
      assert Attached(schedulers, c) == {} && Attached(workers, c) == {};
    }

    /** `put_ums_complist`: drop a reference, and destroy the list with the last one. */
    method Put(c: CompList) returns (gone: bool)
      requires Sound() && Live(c)
      modifies this, c
      ensures Sound() && c.refs == old(c.refs) - 1 && (gone <==> c.refs == 0)
      ensures lists == if gone then old(lists) - {c.id} else old(lists)
      ensures destroyed == if gone then old(destroyed) + [c] else old(destroyed)
      ensures schedulers == old(schedulers) && workers == old(workers) && undeleted == old(undeleted)
    {
      c.refs := c.refs - 1;
      gone := c.refs == 0;
      if gone {
        lists := lists - {c.id};
        destroyed := destroyed + [c];
      }
    }

    /** Counts after one more, or one fewer, entry points at `c`. */
    lemma CountsAfterAttach(m: map<int, CompList>, pid: int, c: CompList)
      requires pid !in m
      ensures forall i :: i in lists ==>
                |Attached(m[pid := c], lists[i])| == |Attached(m, lists[i])| + if lists[i] == c then 1 else 0
    {
      forall i | i in lists
        ensures |Attached(m[pid := c], lists[i])| == |Attached(m, lists[i])| + if lists[i] == c then 1 else 0
      {
        AttachOne(m, pid, c, lists[i]);
      }
    }

    lemma CountsAfterDetach(m: map<int, CompList>, pid: int)
      requires pid in m
      ensures forall i :: i in lists ==>
                |Attached(m - {pid}, lists[i])| == |Attached(m, lists[i])| - if lists[i] == m[pid] then 1 else 0
    {
      forall i | i in lists
        ensures |Attached(m - {pid}, lists[i])| == |Attached(m, lists[i])| - if lists[i] == m[pid] then 1 else 0
      {
        DetachOne(m, pid, lists[i]);
      }
    }

    /** One reference to `c` has been dropped, and the list has gone iff it was the last. */
    twostate predicate DroppedFrom(c: CompList)
      reads this, c
    {
      && c.refs == old(c.refs) - 1
      && (if c.refs == 0 then lists == old(lists) - {c.id} && destroyed == old(destroyed) + [c]
          else lists == old(lists) && destroyed == old(destroyed))
    }

    /** `get_ums_complist`. */
    method Attach(c: CompList)
      modifies c
      ensures c.refs == old(c.refs) + 1
    {
      c.refs := c.refs + 1;
    }

    /** Dropping a reference that nobody held. */
    method FailEnter(stale: CompList)
      requires Valid() && Live(stale)
      modifies this, stale
      ensures !Valid() && DroppedFrom(stale)
      ensures schedulers == old(schedulers) && workers == old(workers) && undeleted == old(undeleted)
    {
      assert lists[stale.id] == stale;
      ValidIsSound();
      var gone := Put(stale);
      Undercounted(stale);
    }

    /** `enter_ums_worker_mode`.  A thread that has a procfs directory already is refused.  With
        an unknown list the new context is destroyed before its list pointer is set; `stale` is
        the list that the uninitialised pointer happens to lead to. */
    method EnterWorker(pid: int, id: int, stale: CompList?) returns (ret: int)
      requires Valid() && (pid !in workers && id !in lists ==> stale != null && Live(stale))
      modifies this, if id in lists then {lists[id]} else if stale != null then {stale} else {}
      ensures schedulers == old(schedulers) && undeleted == old(undeleted)
      ensures old(pid in workers || id in lists) ==> lists == old(lists) && destroyed == old(destroyed)
      ensures old(pid in workers) ==> ret == -ENOMEM && workers == old(workers)
      ensures old(pid !in workers && id in lists) ==>
                && ret == 0 && workers == old(workers)[pid := lists[id]]
                && lists[id].refs == old(lists[id].refs) + 1
      ensures old(pid !in workers && id !in lists) ==>
                ret == -EINVAL && workers == old(workers) && DroppedFrom(stale)
      ensures Valid() <==> old(pid in workers || id in lists)
    {
      if pid in workers {
        return -ENOMEM;
      }
      if id !in lists {
        FailEnter(stale);
        return -EINVAL;
      }
      Attach(lists[id]);
      CountsAfterAttach(workers, pid, lists[id]);
      workers := workers[pid := lists[id]];
      ret := 0;
    }

    /** `enter_ums_scheduler_mode`.  A thread that has a procfs directory already is refused.  With
        an unknown list the new context is destroyed before its list pointer is set; `stale` is
        the list that the uninitialised pointer happens to lead to. */
    method EnterScheduler(pid: int, id: int, stale: CompList?) returns (ret: int)
      requires Valid() && (pid !in schedulers && id !in lists ==> stale != null && Live(stale))
      modifies this, if id in lists then {lists[id]} else if stale != null then {stale} else {}
      ensures workers == old(workers) && undeleted == old(undeleted)
      ensures old(pid in schedulers || id in lists) ==> lists == old(lists) && destroyed == old(destroyed)
      ensures old(pid in schedulers) ==> ret == -ENOMEM && schedulers == old(schedulers)
      ensures old(pid !in schedulers && id in lists) ==>
                && ret == 0 && schedulers == old(schedulers)[pid := lists[id]]
                && lists[id].refs == old(lists[id].refs) + 1
      ensures old(pid !in schedulers && id !in lists) ==>
                ret == -EINVAL && schedulers == old(schedulers) && DroppedFrom(stale)
      ensures Valid() <==> old(pid in schedulers || id in lists)
    {
      if pid in schedulers {
        return -ENOMEM;
      }
      if id !in lists {
        FailEnter(stale);
        return -EINVAL;
      }
      Attach(lists[id]);
      CountsAfterAttach(schedulers, pid, lists[id]);
      schedulers := schedulers[pid := lists[id]];
      ret := 0;
    }

    /** Drop one reference to `c` and forget its holder: the tables become `ss`, `ws`, `us`. */
    method Drop(c: CompList, ss: map<int, CompList>, ws: map<int, CompList>, ghost us: set<CompList>)
      requires Valid() && Live(c)
      requires (forall p :: p in ss ==> p in schedulers && ss[p] == schedulers[p])
      requires (forall p :: p in ws ==> p in workers && ws[p] == workers[p]) && us <= undeleted
      requires forall i :: i in lists ==>
                 References(lists[i], ss, ws, us) == Owed(lists[i]) - if lists[i] == c then 1 else 0
      modifies this, c
      ensures Valid() && schedulers == ss && workers == ws && undeleted == us && DroppedFrom(c)
    {
      assert lists[c.id] == c;
      assert WellShaped(lists, ss, ws, us, destroyed);
      if c.refs == 1 { ShapeWithout(lists, ss, ws, us, destroyed, c); }
      ValidIsSound();
      var gone := Put(c);
      schedulers, workers := ss, ws;
      undeleted := us;
    }

    /** `ums_worker_destroy`: the reference is dropped before the table entry goes. */
    method DestroyWorker(pid: int)
      requires Valid() && pid in workers
      modifies this, workers[pid]
      ensures Valid() && workers == old(workers) - {pid} && DroppedFrom(old(workers[pid]))
      ensures schedulers == old(schedulers) && undeleted == old(undeleted)
    {
      CountsAfterDetach(workers, pid);
      Drop(workers[pid], schedulers, workers - {pid}, undeleted);
    }

    /** `ums_scheduler_destroy`, list side. */
    method DestroyScheduler(pid: int)
      requires Valid() && pid in schedulers
      modifies this, schedulers[pid]
      ensures Valid() && schedulers == old(schedulers) - {pid} && DroppedFrom(old(schedulers[pid]))
      ensures workers == old(workers) && undeleted == old(undeleted)
    {
      CountsAfterDetach(schedulers, pid);
      Drop(schedulers[pid], schedulers - {pid}, workers, undeleted);
    }

    /** `ums_worker_end` as seen from the tables. */
    method WorkerEnd(pid: int) returns (ret: int)
      requires Valid()
      modifies this, Objects(lists)
      ensures Valid() && schedulers == old(schedulers) && undeleted == old(undeleted)
      ensures pid !in old(workers) ==>
                ret == -ESRCH && workers == old(workers) && lists == old(lists) && destroyed == old(destroyed)
      ensures pid in old(workers) ==>
                ret == 0 && workers == old(workers) - {pid} && DroppedFrom(old(workers[pid]))
    {
      if pid !in workers {
        return -ESRCH;
      }
      assert Live(workers[pid]);
      DestroyWorker(pid);
      ret := 0;
    }

    /** `ums_complist_delete`.  The kernel does not remember who created a list, so counts
        stay exact exactly when its creator still holds a reference. */
    method Delete(id: int) returns (ret: int)
      requires Sound()
      modifies this, if id in lists then {lists[id]} else {}
      ensures Sound() && schedulers == old(schedulers) && workers == old(workers)
      ensures id !in old(lists) ==>
                ret == -EINVAL && lists == old(lists) && undeleted == old(undeleted) && destroyed == old(destroyed)
      ensures id in old(lists) ==>
                && ret == 0 && undeleted == old(undeleted) - {old(lists[id])}
                && DroppedFrom(old(lists[id]))
      ensures old(Valid()) ==> (Valid() <==> (id in old(lists) ==> old(lists[id] in undeleted)))
    {
      if id !in lists {
        return -EINVAL;
      }
      var c := lists[id];
      ghost var us := undeleted - {c};
      ghost var exact, valid := c in undeleted, Valid();
      if valid && exact && c.refs == 1 { ShapeWithout(lists, schedulers, workers, us, destroyed, c); }
      if !exact { assert us == undeleted; }
      var gone := Put(c);
      undeleted := us;
      ret := 0;
      if valid && !exact { Undercounted(c); }
    }

    /** Counts are not exact once something holds a reference that `c` does not count. */
    lemma Undercounted(c: CompList)
      requires 0 <= c.refs < Owed(c) && (Live(c) || c.id !in lists)
      ensures !Valid()
    {
      if Shape() && c.id !in lists { Unreferenced(c, lists, schedulers, workers, undeleted, destroyed); }
    }

    /** A second delete of a list that a worker still uses: the list is destroyed under it. */
    method DeleteTwice(id: int, pid: int) returns (c: CompList)
      requires Valid() && id >= 1 && id !in lists && pid !in workers
      modifies this
      ensures !Valid() && fresh(c) && c.refs == 0 && destroyed == old(destroyed) + [c]
      ensures workers == old(workers)[pid := c]
      ensures lists == old(lists) && schedulers == old(schedulers) && undeleted == old(undeleted)
    {
      c := Orphan(id, pid);
      DeleteOrphan(c);
      assert lists == old(lists)[id := c] - {id};
    }

    /** The delete that should not be possible. */
    method DeleteOrphan(c: CompList)
      requires Valid() && Live(c) && c.refs == 1 && c !in undeleted
      modifies this, c
      ensures !Valid() && c.refs == 0 && lists == old(lists) - {c.id} && destroyed == old(destroyed) + [c]
      ensures schedulers == old(schedulers) && workers == old(workers) && undeleted == old(undeleted)
    {
      ValidIsSound();
      assert undeleted - {c} == undeleted;
      var ret := Delete(c.id);
    }

    /** A new list that its creator has deleted while one worker is on it. */
    method Orphan(id: int, pid: int) returns (c: CompList)
      requires Valid() && id >= 1 && id !in lists && pid !in workers
      modifies this
      ensures Valid() && fresh(c) && c.id == id && c.refs == 1 && lists == old(lists)[id := c]
      ensures workers == old(workers)[pid := c] && undeleted == old(undeleted) && c !in undeleted
      ensures schedulers == old(schedulers) && destroyed == old(destroyed)
    {
      c := UsedOnce(id, pid);
      ValidIsSound();
      var ret := Delete(id);
      assert old(undeleted) + {c} - {c} == old(undeleted);
    }

    /** A new list with one worker on it. */
    method UsedOnce(id: int, pid: int) returns (c: CompList)
      requires Valid() && id >= 1 && id !in lists && pid !in workers
      modifies this
      ensures Valid() && fresh(c) && c.id == id && c.refs == 2 && lists == old(lists)[id := c]
      ensures workers == old(workers)[pid := c] && undeleted == old(undeleted) + {c}
      ensures schedulers == old(schedulers) && destroyed == old(destroyed)
    {
      c := Create(id);
      var ret := EnterWorker(pid, id, null);
    }

    // ---------------------------------------------------------- user handles

    /** The handle is empty, or names a list its creator has not deleted. */
    ghost predicate HandleOk(h: Handle)
      reads this, h
    {
      h.value == 0 || exists c :: c in undeleted && c.id == h.value
    }

    /** `create_ums_completion_list`: the handle receives the new list's id. */
    method CreateThrough(h: Handle, id: int)
      requires Valid() && id >= 1 && id !in lists
      modifies this, h
      ensures Valid() && HandleOk(h) && h.value == id && id in lists && undeleted == old(undeleted) + {lists[id]}
      ensures lists == old(lists)[id := lists[id]] && fresh(lists[id]) && lists[id].refs == 1
      ensures schedulers == old(schedulers) && workers == old(workers) && destroyed == old(destroyed)
    {
      var c := Create(id);
      h.value := id;
    }

    /** `delete_ums_completion_list`: a successful delete clears the handle.  A handle that
        `CreateThrough` filled and nothing else used keeps the counts exact. */
    method DeleteThrough(h: Handle) returns (ret: int)
      requires Sound()
      modifies this, h, if h.value in lists then {lists[h.value]} else {}
      ensures Sound() && schedulers == old(schedulers) && workers == old(workers)
      ensures old(h.value !in lists) ==>
                && ret == -EINVAL && h.value == old(h.value)
                && lists == old(lists) && undeleted == old(undeleted) && destroyed == old(destroyed)
      ensures old(h.value in lists) ==>
                && ret == 0 && h.value == 0 && undeleted == old(undeleted) - {old(lists[h.value])}
                && DroppedFrom(old(lists[h.value]))
      ensures old(Valid()) ==> (Valid() <==> old(h.value in lists ==> lists[h.value] in undeleted))
      ensures old(Valid() && HandleOk(h)) ==> Valid() && HandleOk(h)
    {
      ret := Delete(h.value);
      if ret == 0 {
        h.value := 0;
      }
    }

    /** Any number of deletes through one handle, stale or not, drops at most one reference:
        that of the list it named, if there was one. */
    method DeleteManyTimes(h: Handle, n: nat) returns (successes: nat)
      requires Sound()
      modifies this, h, if h.value in lists then {lists[h.value]} else {}
      ensures Sound() && schedulers == old(schedulers) && workers == old(workers)
      ensures successes == if n > 0 && old(h.value in lists) then 1 else 0
      ensures successes == 0 ==>
                && h.value == old(h.value)
                && lists == old(lists) && undeleted == old(undeleted) && destroyed == old(destroyed)
      ensures old(h.value in lists) ==> old(lists[h.value]).refs == old(lists[h.value].refs) - successes
      ensures successes == 1 ==>
                && h.value == 0 && undeleted == old(undeleted) - {old(lists[h.value])}
                && DroppedFrom(old(lists[h.value]))
      ensures old(Valid()) ==> (Valid() <==> (successes == 1 ==> old(lists[h.value] in undeleted)))
    {
      successes := 0;
      for i := 0 to n
        invariant Sound() && schedulers == old(schedulers) && workers == old(workers)
        invariant successes == if i > 0 && old(h.value in lists) then 1 else 0
        invariant h.value == if successes == 1 then 0 else old(h.value)
        invariant successes == 0 ==> lists == old(lists) && undeleted == old(undeleted) && destroyed == old(destroyed)
        invariant old(h.value in lists) ==> old(lists[h.value]).refs == old(lists[h.value].refs) - successes
        invariant successes == 1 ==>
                    undeleted == old(undeleted) - {old(lists[h.value])} && DroppedFrom(old(lists[h.value]))
        invariant old(Valid()) ==> (Valid() <==> (successes == 1 ==> old(lists[h.value] in undeleted)))
      {
        var ret := DeleteThrough(h);
        if ret == 0 {
          successes := successes + 1;
        }
      }
    }

    // --------------------------------------------------------- device release

    /** Once no context is left, each remaining list is held by its creator alone. */
    lemma OnlyCreators()
      requires Valid() && schedulers == map[] && workers == map[]
      ensures forall i :: i in lists ==> lists[i].refs == 1 && lists[i] in undeleted
    {
      forall i | i in lists ensures lists[i].refs == 1 && lists[i] in undeleted {
        assert Attached(schedulers, lists[i]) == {} && Attached(workers, lists[i]) == {};
      }
    }

    /** Lists destroyed since have no reference left. */
    ghost predicate AllDropped(before: seq<CompList>)
      reads this, destroyed
    {
      forall c :: c in destroyed && c !in before ==> c.refs == 0
    }

    /** A list of a smaller table is still in it exactly if something holds it. */
    lemma Survives(lists0: map<int, CompList>, destroyed0: seq<CompList>, i: int)
      requires Valid() && Shrunk(lists0, destroyed0, lists, destroyed) && i in lists0 && lists0[i].id == i
      ensures i in lists <==> Owed(lists0[i]) > 0
    {
      if i !in lists { Unreferenced(lists0[i], lists, schedulers, workers, undeleted, destroyed); }
    }

    /** `release_worker`. */
    method ReleaseWorker(pid: int, ghost lists0: map<int, CompList>, ghost destroyed0: seq<CompList>)
      requires Valid() && pid in workers && Shrunk(lists0, destroyed0, lists, destroyed) && AllDropped(destroyed0)
      modifies this, workers[pid]
      ensures Valid() && workers == old(workers) - {pid} && schedulers == old(schedulers) && undeleted == old(undeleted)
      ensures Shrunk(lists0, destroyed0, lists, destroyed) && AllDropped(destroyed0)
    {
      assert InTable(lists, workers[pid]);
      ShrinkBy(lists0, destroyed0, lists, destroyed, workers[pid]);
      DestroyWorker(pid);
    }

    /** The worker loop.  A list outlives it exactly if its creator or a scheduler still holds it. */
    method ReleaseWorkers() returns (pids: seq<int>)
      requires Valid()
      modifies this, Objects(lists)
      ensures Valid() && Shrunk(old(lists), old(destroyed), lists, destroyed) && undeleted == old(undeleted)
      ensures workers == map[] && schedulers == old(schedulers)
      ensures Once(pids, old(workers).Keys)
      ensures AllDropped(old(destroyed))
      ensures forall i :: i in old(lists) ==> (i in lists <==> Owed(old(lists)[i]) > 0)
    {
      pids := [];
      while |workers| > 0
        invariant Valid() && Shrunk(old(lists), old(destroyed), lists, destroyed) && undeleted == old(undeleted)
        invariant schedulers == old(schedulers) && AllDropped(old(destroyed))
        invariant Partly(pids, workers, old(workers).Keys)
        decreases |workers|
      {
        var pid := SomeKey(workers);
        TakeKey(pids, workers, old(workers).Keys, pid);
        ShrinkBy(old(lists), old(destroyed), lists, destroyed, workers[pid]);
        ReleaseWorker(pid, old(lists), old(destroyed));
        pids := pids + [pid];
      }
      forall i | i in old(lists) ensures i in lists <==> Owed(old(lists)[i]) > 0 {
        Survives(old(lists), old(destroyed), i);
      }
    }

    /** `release_scheduler`. */
    method ReleaseScheduler(pid: int, ghost lists0: map<int, CompList>, ghost destroyed0: seq<CompList>)
      requires Valid() && pid in schedulers && Shrunk(lists0, destroyed0, lists, destroyed) && AllDropped(destroyed0)
      modifies this, schedulers[pid]
      ensures Valid() && schedulers == old(schedulers) - {pid} && workers == old(workers) && undeleted == old(undeleted)
      ensures Shrunk(lists0, destroyed0, lists, destroyed) && AllDropped(destroyed0)
    {
      assert InTable(lists, schedulers[pid]);
      ShrinkBy(lists0, destroyed0, lists, destroyed, schedulers[pid]);
      DestroyScheduler(pid);
    }

    /** The scheduler loop.  A list outlives it exactly if its creator or a worker still holds it. */
    method ReleaseSchedulers() returns (pids: seq<int>)
      requires Valid()
      modifies this, Objects(lists)
      ensures Valid() && Shrunk(old(lists), old(destroyed), lists, destroyed) && undeleted == old(undeleted)
      ensures schedulers == map[] && workers == old(workers)
      ensures Once(pids, old(schedulers).Keys)
      ensures AllDropped(old(destroyed))
      ensures forall i :: i in old(lists) ==> (i in lists <==> Owed(old(lists)[i]) > 0)
    {
      pids := [];
      while |schedulers| > 0
        invariant Valid() && Shrunk(old(lists), old(destroyed), lists, destroyed) && undeleted == old(undeleted)
        invariant workers == old(workers) && AllDropped(old(destroyed))
        invariant Partly(pids, schedulers, old(schedulers).Keys)
        decreases |schedulers|
      {
        var pid := SomeKey(schedulers);
        TakeKey(pids, schedulers, old(schedulers).Keys, pid);
        ShrinkBy(old(lists), old(destroyed), lists, destroyed, schedulers[pid]);
        ReleaseScheduler(pid, old(lists), old(destroyed));
        pids := pids + [pid];
      }
      forall i | i in old(lists) ensures i in lists <==> Owed(old(lists)[i]) > 0 {
        Survives(old(lists), old(destroyed), i);
      }
    }

    /** The final loop: every list it meets has count 1 and goes. */
    method ReleaseLists()
      requires Valid() && workers == map[] && schedulers == map[]
      modifies this, Objects(lists)
      ensures Valid() && Shrunk(old(lists), old(destroyed), lists, destroyed)
      ensures lists == map[] && workers == map[] && schedulers == map[] && undeleted == {}
      ensures AllDropped(old(destroyed))
    {
      while |lists| > 0
        invariant Valid() && Shrunk(old(lists), old(destroyed), lists, destroyed)
        invariant workers == map[] && schedulers == map[] && AllDropped(old(destroyed))
        decreases |lists|
      {
        var id := SomeKey(lists);
        ShrinkBy(old(lists), old(destroyed), lists, destroyed, lists[id]);
        ReleaseList(id, old(lists), old(destroyed));
      }
    }

    method ReleaseList(id: int, ghost lists0: map<int, CompList>, ghost destroyed0: seq<CompList>)
      requires Valid() && id in lists && workers == map[] && schedulers == map[]
      requires Shrunk(lists0, destroyed0, lists, destroyed) && AllDropped(destroyed0)
      modifies this, lists[id]
      ensures Valid() && lists == old(lists) - {id} && workers == map[] && schedulers == map[]
      ensures Shrunk(lists0, destroyed0, lists, destroyed) && AllDropped(destroyed0)
    {
      ShrinkBy(lists0, destroyed0, lists, destroyed, lists[id]);
      DestroyList(id);
    }

    /** `release_complist` of a list that only its creator holds. */
    method DestroyList(id: int)
      requires Valid() && id in lists && workers == map[] && schedulers == map[]
      modifies this, lists[id]
      ensures Valid() && workers == map[] && schedulers == map[]
      ensures old(lists[id].refs) == 1 && old(lists[id]).refs == 0 && undeleted == old(undeleted) - {old(lists[id])}
      ensures lists == old(lists) - {id} && destroyed == old(destroyed) + [old(lists[id])]
    {
      OnlyCreators();
      Drop(lists[id], schedulers, workers, undeleted - {lists[id]});
    }

    /** `ums_dev_release`: every worker, scheduler and list is destroyed, each exactly once, and
        every list's count has come down to zero.  The lists the final loop meets are those
        whose creators had not deleted them; the others went with their last context. */
    method Release() returns (ws: seq<int>, ss: seq<int>)
      requires Valid()
      modifies this, Objects(lists)
      ensures Valid() && lists == map[] && workers == map[] && schedulers == map[] && undeleted == {}
      ensures Once(ws, old(workers).Keys) && Once(ss, old(schedulers).Keys)
      ensures forall c :: c in destroyed <==> c in old(destroyed) || InTable(old(lists), c)
      ensures Distinct(destroyed) && old(destroyed) <= destroyed && AllDropped(old(destroyed))
    {
      ws := ReleaseWorkers();
      ghost var lists1, destroyed1 := lists, destroyed;
      NotInTable();
      label Workers:
      ss := ReleaseRest();
      assert forall i :: 0 <= i < |destroyed1| ==> destroyed1[i].refs == old@Workers(destroyed1[i].refs);
      ShrunkTwice(old(lists), old(destroyed), lists1, destroyed1, lists, destroyed);
    }

    /** What is left to do once the workers are gone. */
    method ReleaseRest() returns (ss: seq<int>)
      requires Valid() && workers == map[]
      modifies this, Objects(lists)
      ensures Valid() && lists == map[] && workers == map[] && schedulers == map[] && undeleted == {}
      ensures Once(ss, old(schedulers).Keys) && Shrunk(old(lists), old(destroyed), lists, destroyed)
      ensures AllDropped(old(destroyed))
    {
      ss := ReleaseSchedulers();
      ghost var lists1, destroyed1 := lists, destroyed;
      NotInTable();
      label Schedulers:
      ReleaseLists();
      assert forall i :: 0 <= i < |destroyed1| ==> destroyed1[i].refs == old@Schedulers(destroyed1[i].refs);
      ShrunkTwice(old(lists), old(destroyed), lists1, destroyed1, lists, destroyed);
    }

    lemma NotInTable()
      requires Valid()
      ensures forall i :: 0 <= i < |destroyed| ==> destroyed[i] !in Objects(lists)
    {
      forall i | 0 <= i < |destroyed| ensures destroyed[i] !in Objects(lists) {
        assert !InTable(lists, destroyed[i]);
      }
    }
  }

  lemma ShrunkTwice(lists0: map<int, CompList>, destroyed0: seq<CompList>,
                    lists1: map<int, CompList>, destroyed1: seq<CompList>,
                    lists: map<int, CompList>, destroyed: seq<CompList>)
    requires Shrunk(lists0, destroyed0, lists1, destroyed1) && Shrunk(lists1, destroyed1, lists, destroyed)
    ensures Shrunk(lists0, destroyed0, lists, destroyed)
  {}

  method SomeKey(m: map<int, CompList>) returns (p: int)
    requires |m| > 0
    ensures p in m
  {
    assert |m.Items| > 0;
    var entry :| entry in m.Items;
    p := entry.0;
  }

  /** From `lists0` to `lists`, lists only leave the table, each into the log of destroyed lists. */
  ghost predicate Shrunk(lists0: map<int, CompList>, destroyed0: seq<CompList>,
                         lists: map<int, CompList>, destroyed: seq<CompList>)
  {
    && (forall i :: i in lists ==> i in lists0 && lists[i] == lists0[i])
    && Objects(lists) <= Objects(lists0)
    && (forall i :: i in lists0 ==> i in lists || lists0[i] in destroyed)
    && destroyed0 <= destroyed
    && (forall c :: c in destroyed ==> c in destroyed0 || InTable(lists0, c))
  }

  lemma ShrinkBy(lists0: map<int, CompList>, destroyed0: seq<CompList>,
                 lists: map<int, CompList>, destroyed: seq<CompList>, c: CompList)
    requires Shrunk(lists0, destroyed0, lists, destroyed) && InTable(lists, c)
    ensures Shrunk(lists0, destroyed0, lists - {c.id}, destroyed + [c])
    ensures c in Objects(lists0)
  {
    assert c == lists[c.id] == lists0[c.id];
  }

  /** `q` lists the members of `s`, each once. */
  ghost predicate Once(q: seq<int>, s: set<int>) {
    Distinct(q) && forall x :: x in q <==> x in s
  }

  /** `q` lists, each once, the members of `s` that are not keys of `m`. */
  ghost predicate Partly(q: seq<int>, m: map<int, CompList>, s: set<int>) {
    Distinct(q) && m.Keys <= s && forall x :: x in q <==> x in s && x !in m
  }

  lemma TakeKey(q: seq<int>, m: map<int, CompList>, s: set<int>, p: int)
    requires Partly(q, m, s) && p in m
    ensures Partly(q + [p], m - {p}, s)
  {}
}
