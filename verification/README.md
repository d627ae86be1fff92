# Verified model of the UMS scheduling protocol

User-mode scheduling (UMS) lets ordinary threads hand control to each other through a kernel
module. *Worker* threads park on a *completion list*. *Scheduler* threads detach the whole list
as a batch, drain the batch into a private ready queue, and execute one worker at a time; the
worker gives control back by yielding or ending, which queues an event for its scheduler.

This project models the kernel module, the library loop and the example scheduler as one system,
and proves what holds in every interleaving of any number of lists, schedulers and workers.

## Layout

| file | content |
|---|---|
| `Protocol.dfy` | threads as step-by-step programs over shared kernel state; runs are interleavings |
| `Invariant.dfy`, `Preservation.dfy` | the inductive invariant and its preservation, step by step |
| `Safety.dfy` | single ownership, trace matching, wake-ups, running bijection, procfs links, the client's loop |
| `Sequences.dfy` | sequences without repeats, inserting and removing at a position |
| `Sums.dfy`, `Progress.dfy`, `Completion.dfy` | termination, deadlock freedom, what a complete run has done |
| `Fairness.dfy` | FIFO order, conservation, round-robin, switch balance, events exactly once |
| `IntrusiveList.dfy`, `HashList.dfy` | the pointer-linked list library on the heap |
| `CompletionRings.dfy` | completion lists, batch walk, client drain and rollback on the heap |
| `KernelHeap.dfy` | kernel memory that follows a run: heap rings refine completion lists and batches |
| `EventHeap.dfy` | the same for event queues, and all of kernel memory together |
| `Witnesses.dfy` | runs that reach surprising states |
| `Registry.dfy` | list reference counts, user handles, device release |
| `EventNodes.dfy` | event nodes from allocation to free, with failing copies |

`dafny verify dfyconfig.toml` checks everything.

## How the protocol is modelled

- A thread is a deterministic program; its position is its `pc`. One step is one shared write, or
  one region the kernel protects with a spin lock. `prepare_switch_context` is six steps, entering
  is four, and adding to a completion list and waking its waiters are two.
- `schedule()` is a position from which a thread moves only while its task state is awake, so a
  wake-up that arrives before the call is kept, and one that is lost would leave it there.
- Waiting on an empty completion list has the steps of the kernel's wait macro: join the wait
  queue, test, sleep. The `waiting` flag is the task state during that wait.
- Structures come from `kmalloc`, so the initial `parent`, `state`, `switches` and link of a context
  are arbitrary. That no step reads `parent` before an exec wrote it is proved, not assumed.
- A worker yields a fixed but arbitrary number of times (`quota`) and then ends.
- A batch is registered under consecutive link numbers; each worker keeps its own, and exec removes that one.
- `place`, `parks`, `wakes`, `arrivals`, `log`, `delivered`, `execs` and `hosts` are history: no step
  decides anything by reading them.
- Poisoned list pointers are null, so following one is a proof failure.

Assumed throughout the protocol: allocations and user copies succeed, no signal wakes a suspended
thread, and the list a thread enters with exists. `EventNodes.dfy` and `CompletionRings.dfy` drop the
assumption on copies.

The documentation of `delete_ums_completion_list` asks for an empty list; the code does not check
it. The model follows the code.

## Model

| member | source | states |
|---|---|---|
| Preservation.StepKeepsInv | src/module/src/worker.c:85-224 | every step of every thread, from any state that satisfies the invariant, leads to one that does; the ten rows after the next are its cases |
| Preservation.RunInv | src/lib/src/scheduler.c:29-67 | the invariant holds in every state of every interleaving |
| Preservation.WorkerPublishes | src/module/src/complist.c:103-111 | the case of adding a context: it is parked and on no list before, and last on its list after |
| Preservation.WorkerNotifies | src/module/src/complist.c:113-114 | the case of waking all waiters: no scheduler stays asleep on a non-empty list unless another wake-up is pending |
| Preservation.WorkerEvent | src/module/src/worker.c:152-159 | the case of queuing an event: it is the one owed for the last exec of that scheduler |
| Preservation.WorkerSwitching | src/module/src/context.c:25-33 | the case of a yield's writes before the wake-up: from the first one on, the scheduler's parent is the yielding worker |
| Preservation.WorkerWakesParent | src/module/src/worker.c:210-216 | the case of waking the parent: that scheduler is free and the worker is nowhere |
| Preservation.SchedEnters | src/module/src/scheduler.c:125-162 | the case of a scheduler entering: one STARTUP queued and nothing owned |
| Preservation.SchedTakesBatch | src/module/src/complist.c:134-138 | the case of detaching a list: every context on it, and no other, goes to one scheduler, in order, each under its own fresh link number |
| Preservation.SchedShuffles | examples/00-simple-example/main.c:34-70 | the case of moves between batch, ready queue and hand: what is owned stays the same sequence |
| Preservation.SchedBeginsExec | src/module/src/scheduler.c:263-298 | the case of exec: the context in hand leaves with its own link, the others keep theirs |
| Preservation.SchedSwitching | src/module/src/scheduler.c:298-301 | the case of an exec's writes, also while the worker is still between publishing and `schedule()` |
| Safety.SingleOwnership | src/module/src/complist.c:248-266 | in every reachable state a worker that has been published, and is neither on its way back to its list nor ended, is in exactly one of: one completion list, one batch, one ready queue, one hand, under one scheduler; any other worker is in none; nothing holds a context twice |
| Safety.TraceMatching | src/lib/src/scheduler.c:29-67 | events delivered to a scheduler are one STARTUP and then, for its k-th exec, a yield or end naming the k-th executed worker; at most one event waits, and one always does when the library asks |
| Safety.NoLostWakeUp | src/module/src/context.h:152-171 | no thread sleeps after the wake-up for that sleep completed, no wake-up goes to a thread that did not park, and a scheduler asleep on a non-empty list has a `wake_up_all` coming |
| Safety.WakeUpsHaveCause | src/module/src/context.h:167-171 | nobody is woken without a cause: a list waiter only by a worker that has just added itself to that list, a worker only by the scheduler switching to it, a scheduler only by the worker it is suspended for |
| Safety.WaitEndsOnEntries | src/module/src/complist.c:124-131 | a scheduler stops waiting on its list only when it has seen entries on it |
| Safety.WakerIsKnown | src/module/src/worker.c:161-169 | a sleeping worker is still in a queue or its scheduler has not finished switching to it; a sleeping scheduler's worker is executing under it and names it as parent |
| Safety.RunningBijection | src/module/src/context.c:25-33 | outside a switch of its own, whatever other threads do, a scheduler is idle exactly when one registered running worker has it as parent if and only if no bystander does: a worker registered but never executed, whose parent pointer nobody set, or one that has woken its parent and waits to be destroyed |
| Safety.OneRunner | src/module/src/context.c:25-33 | of two registered running workers with one parent, at every moment, one is such a bystander |
| Witnesses.TwoRunners | src/module/src/worker.c:195-219 | a run with one scheduler and two workers reaches a steady state in which both run under it, since the first has woken its parent and is not destroyed yet; the bijection fails there |
| Witnesses.StrayParent | src/module/src/worker.c:20-35 | a newly registered worker can name a scheduler as its parent by the contents of fresh memory; the bijection fails there |
| Safety.ParentIsLastYielder | src/module/src/worker.c:152-161 | in every reachable state a scheduler's parent is the worker of the last yield event in its trace, unless that worker is just about to write it; a worker in its switch is that worker |
| Safety.NoParentBeforeYield | src/module/src/context.c:11-18 | until a worker yields to it, a scheduler's parent is what its memory held before it entered |
| Safety.ParentIsLastHost | src/module/src/scheduler.c:298-301 | in every reachable state a worker's parent is the scheduler that executed it last, unless that scheduler is just about to write it |
| Safety.NoParentBeforeExec | src/module/src/context.c:11-18 | until it is executed, a worker's parent is what its memory held before it entered |
| Safety.HostsAreExecs | src/module/src/scheduler.c:263-302 | a worker has been executed by a scheduler as often as that scheduler has executed it |
| Safety.NoFault | src/module/src/worker.c:201-208 | a running worker always has a live parent, so yield and end never fault, the null check in end never fires, and exec never misses its worker |
| Safety.ErrorPaths | src/module/src/worker.c:201-223 | from any state, reachable or not: an exec of an unknown thread, and an end or yield without a live parent, queue nothing, wake nobody and change nobody else |
| Safety.OwnedLinks | src/module/src/proc/scheduler.c:117-149 | a scheduler's live links are exactly those of the contexts it dequeued and did not execute, one each, numbered consecutively up to max, so that max is the largest live one; the count matches, and exec always finds the worker's own link |
| Safety.GetNextAlone | examples/00-simple-example/main.c:42-70 | from a non-empty list the client ends holding its first context with the rest queued in order and the list empty |
| Progress.RunsEnd | examples/00-simple-example/main.c:90-120 | no run is longer than a number computed from its first state |
| Progress.RunsComplete | examples/00-simple-example/main.c:90-120 | every run extends to one in which no thread can move |
| Completion.DeadlockFree | src/module/src/scheduler.c:186-212 | a reachable state with an unfinished worker has a thread that can move, if that worker's list has a scheduler |
| Completion.WhoEnds | examples/00-simple-example/main.c:90-120 | when no thread can move, a worker has ended if and only if its list has a scheduler, and waits on its list otherwise |
| Completion.ExecBudget | src/module/src/scheduler.c:263-302 | execs made plus execs owed stay equal to the sum of yields + 1 over all workers |
| Completion.CompleteRun | examples/00-simple-example/main.c:73-120 | with a scheduler on every used list, a run that can go no further has ended every worker, emptied every list, ready queue and event queue, and made sum(yields + 1) execs |
| Fairness.FifoOrder | src/module/src/complist.c:117-145 | arrivals on a list are the batches taken, in order, then the list; a scheduler's batches are its execs, in order, then what it owns |
| Fairness.NothingLost | src/module/src/complist.c:103-145 | a worker's arrivals on a list equal its places on it plus its execs and places with that list's schedulers, for any number of schedulers |
| Fairness.RoundRobin | src/module/src/worker.c:163-165 | on a list with one scheduler, among any other lists and schedulers: while a worker waits, that scheduler executes no worker twice, so it makes fewer execs than there are workers |
| Fairness.SwitchBalance | src/module/src/context.c:30-32 | in a quiescent state scheduler switches equal worker switches plus ended workers plus running workers |
| Fairness.EventsExact | src/module/src/worker.c:152-159 | over all schedulers each yield made has one yield event and each end one end event |
| Fairness.CompleteEvents | src/module/src/worker.c:195-214 | after a complete run each worker has been reported once per yield and once as ended |
| IntrusiveList.AddBetween | src/util/list.h:55-63 | inserts a head at a position of a ring of any length, touching three heads |
| IntrusiveList.ListUnique | src/util/list.h:36-38 | memory determines what a list holds: two descriptions of one head are equal |
| IntrusiveList.Add | src/util/list.h:73-76 | puts an entry first |
| IntrusiveList.AddTail | src/util/list.h:86-89 | puts an entry last |
| IntrusiveList.DelBetween | src/util/list.h:99-103 | removes a position of a ring, leaving the removed head's pointers |
| IntrusiveList.Del | src/util/list.h:111-116 | removes an entry and poisons it |
| IntrusiveList.DelInit | src/util/list.h:124-128 | removes an entry and makes it an empty list |
| IntrusiveList.Move | src/util/list.h:135-139 | moves an entry from anywhere in a list to the front of another or of its own |
| IntrusiveList.MoveTail | src/util/list.h:146-151 | moves an entry from anywhere in a list to the back of another or of its own |
| IntrusiveList.Empty | src/util/list.h:157-160 | true iff the list has no entries |
| IntrusiveList.SpliceFront | src/util/list.h:162-174 | puts all entries of a non-empty list, in order, before those of another |
| IntrusiveList.Splice | src/util/list.h:181-185 | the same for any list, leaving the old head's pointers |
| IntrusiveList.SpliceInit | src/util/list.h:194-201 | the same, emptying the old head |
| IntrusiveList.ReplaceInit | src/module/src/complist.c:137-138 | a node takes over a head's entries and the head becomes empty, also when it already was |
| HashList.AddHead | src/util/list.h:419-427 | puts a node first and fixes the slot of the old first node |
| HashList.Unlink | src/util/list.h:394-401 | removes a node through the slot that points at it |
| HashList.DelInit | src/util/list.h:411-417 | removes and clears a node that is on a chain, and leaves one that is not |
| HashList.AddBefore | src/util/list.h:432-439 | inserts before a node through its slot |
| HashList.AddAfter | src/util/list.h:441-450 | inserts after a node |
| CompletionRings.CompletionListAdd | src/module/src/complist.c:103-111 | adds a context at the head or the tail as the flag says |
| CompletionRings.HandOff | src/module/src/complist.c:134-138 | from entries c0..ck the head becomes empty and c0 heads c1..ck, also for a single entry |
| CompletionRings.NextContext | src/module/src/complist.c:222-278 | -ESRCH for an unknown context; otherwise the old cursor is self-looped and the next context heads the rest, and the call gives 0 with the next pid or -1 at the end, or -EACCES when that cannot be copied out |
| CompletionRings.FailedNext | src/module/src/complist.c:262-274 | after a call whose result was not copied out, a second call reports the end of the batch; the batch is as it was iff nothing was left |
| CompletionRings.NextItem | src/lib/src/complist.c:35-50 | -1 on failure, also when the batch has moved on, 0 at the end, otherwise the next pid |
| CompletionRings.ReadyQueue.GetNextContext | examples/00-simple-example/main.c:29-71 | takes the queued context if there is one; otherwise returns the list's first context, empties the list and queues the rest in order up to the first failed copy; all are queued iff no failed copy had a context to report |
| CompletionRings.ReadyQueue.Drain | examples/00-simple-example/main.c:56-63 | the loop queues what it sees of the batch in order, leaves that self-looped, and stops at the end or at a failed copy, where the next context heads the unseen ones |
| CompletionRings.Rollback | src/module/src/complist.c:205-216 | a failed dequeue puts the batch head back first; afterwards memory holds the whole batch on the list iff it had one context, else the rest still points at the head but not the head at it |
| CompletionRings.FailedDequeue | src/module/src/complist.c:185-216 | the whole failing call, with any contexts added meanwhile: the list then holds the old entries and the new ones iff there was one old entry; otherwise all old entries but the first are lost, still linked to each other |
| CompletionRings.LoseOne | src/module/src/complist.c:205-216 | two contexts and one failing call lose the second |
| CompletionRings.PopFirst | src/module/src/scheduler.c:203-207 | takes the first event node and leaves the others in order |
| CompletionRings.DestroyQueue | src/module/src/scheduler.c:102-113 | unlinks, poisons and frees every event node in order, never following a poisoned pointer |
| KernelHeap.InvPlaces | src/module/src/complist.c:248-251 | single ownership gives the separation that walking without a lock needs |
| KernelHeap.Publish | src/module/src/complist.c:103-111 | in memory that holds all queues of a state, adding a context gives memory that holds all queues after the protocol's step |
| KernelHeap.Detach | src/module/src/complist.c:262-266 | handing a ring to its first entry disturbs no other list or batch |
| KernelHeap.Dequeue | src/module/src/complist.c:117-145 | the same for detaching a batch |
| KernelHeap.Walk | src/module/src/complist.c:246-266 | the same for walking a batch, touching only contexts of that batch |
| KernelHeap.Memory.constructor | src/module/src/complist.c:34-34 | initialised heads hold the queues of an initial state |
| KernelHeap.Memory.Publishes | src/module/src/complist.c:103-111 | memory follows the protocol through an add |
| KernelHeap.Memory.Dequeues | src/module/src/complist.c:134-138 | memory follows the protocol through a dequeue and returns the first context |
| KernelHeap.Memory.Walks | src/module/src/complist.c:262-266 | memory follows the protocol through a next-context call and returns the next context |
| KernelHeap.Memory.Elsewhere | src/module/src/worker.c:123-171 | no other step of any thread disturbs a ring |
| KernelHeap.Memory.Moves | src/module/src/complist.c:103-145 | memory follows any step of any thread, and whether a list or batch is empty is read from memory |
| KernelHeap.Memory.Follows | src/module/src/complist.c:246-266 | at the end of any run memory holds exactly the completion lists and batches of its last state; contexts on none of them are linked to themselves, and contexts never published have never been touched |
| EventHeap.EventMemory.Enqueues | src/module/src/scheduler.c:171-184 | a new node goes last on one event queue; no other queue is disturbed |
| EventHeap.EventMemory.Dequeues | src/module/src/scheduler.c:186-212 | the first node leaves its queue and its event is the oldest one pending |
| EventHeap.EventMemory.Moves | src/module/src/scheduler.c:171-261 | event queues in memory follow any step of any thread |
| EventHeap.Kernel.constructor | src/module/src/scheduler.c:46-60 | initialised heads hold the lists and queues of an initial state |
| EventHeap.Kernel.Follows | src/module/src/complist.c:103-145 | at the end of any run memory holds exactly the completion lists, batches and event queues of its last state, all apart from each other, with every other context as above |
| Registry.UmsData.Create | src/module/src/complist.c:22-39 | a new list has exactly its creator's reference |
| Registry.UmsData.Put | src/module/src/complist.c:82-101 | drops one reference and removes the list iff it was the last |
| Registry.UmsData.EnterWorker | src/module/src/worker.c:85-121 | counts stay exact if and only if the thread is refused or the list is known; with an unknown list one reference that nobody held is dropped, and the list goes if it was the last |
| Registry.UmsData.EnterScheduler | src/module/src/scheduler.c:125-169 | counts stay exact if and only if the thread is refused or the list is known; with an unknown list one reference that nobody held is dropped, and the list goes if it was the last |
| Registry.UmsData.DestroyWorker | src/module/src/worker.c:73-83 | counts stay exact, and the list goes iff this was its last reference |
| Registry.UmsData.DestroyScheduler | src/module/src/scheduler.c:115-122 | counts stay exact, and the list goes iff this was its last reference |
| Registry.UmsData.WorkerEnd | src/module/src/worker.c:186-219 | table side: -ESRCH and nothing changed for an unknown thread, otherwise the worker is gone and its reference dropped |
| Registry.UmsData.Delete | src/module/src/complist.c:280-297 | -EINVAL and nothing changed for an unknown id; counts stay exact if and only if the creator had not deleted the list before |
| Registry.UmsData.DeleteTwice | src/module/src/complist.c:280-297 | create, enter and two deletes destroy a list that a worker still points at, and change nothing else |
| Registry.UmsData.CreateThrough | src/lib/src/complist.c:5-13 | the handle names the new list |
| Registry.UmsData.DeleteThrough | src/lib/src/complist.c:52-69 | a successful delete clears the handle and drops one reference, with the list destroyed iff it was the last; an unknown id changes nothing; counts stay exact iff the handle names no list or one its creator has not deleted |
| Registry.UmsData.DeleteManyTimes | src/lib/src/complist.c:61-68 | any number of deletes through one handle, stale or not, drops at most one reference; table, handle and destroyed lists are then as after one delete |
| Registry.UmsData.OnlyCreators | src/module/src/device.c:88-92 | with no contexts left, every list in the table has count 1 and an undeleted creator |
| Registry.UmsData.ReleaseWorkers | src/module/src/device.c:101-103 | every worker is destroyed once; creators keep their references; a list outlives the loop iff its creator or a scheduler still holds it, and one that goes has count zero |
| Registry.UmsData.ReleaseSchedulers | src/module/src/device.c:105-107 | every scheduler is destroyed once; creators keep their references; a list outlives the loop iff something still holds it, and one that goes has count zero |
| Registry.UmsData.ReleaseLists | src/module/src/device.c:109-112 | every remaining list goes, its count down to zero, and no creator holds a reference any more |
| Registry.UmsData.DestroyList | src/module/src/device.c:88-92 | a list met by the final loop has count 1, held by its creator, and goes with it |
| Registry.UmsData.Release | src/module/src/device.c:94-120 | from any state with exact counts, every worker, scheduler and list is destroyed exactly once, and every count has come down to zero |
| EventNodes.StepKeepsInv | src/module/src/scheduler.c:171-261 | allocation, queuing, taking, copying, failing, closing and freeing keep every node in one spot and account for every freed one |
| EventNodes.NodesConserved | src/module/src/scheduler.c:102-113 | a node not yet freed is in flight or with exactly one scheduler, once; a freed one is with none; none is freed twice |
| EventNodes.FreedOnce | src/module/src/scheduler.c:237-257 | a node is freed iff it was delivered, discarded with its queue or abandoned, in exactly one of these ways and once; a node in flight was never sent |
| EventNodes.AllFreedOnce | src/module/src/scheduler.c:102-113 | when nothing is in flight and all queues are closed and empty, every node ever allocated has been freed exactly once |
| EventNodes.CanFinish | src/module/src/scheduler.c:102-113 | every run extends to such a state |
| EventNodes.CanDeliver | src/module/src/scheduler.c:214-261 | the oldest pending event of an open queue can be delivered next |
| EventNodes.Effects | src/module/src/scheduler.c:171-261 | what each action does to a node's spot and to what is pending: taking and failing keep the order, a failed node is first again |
| EventNodes.NodesCounted | src/module/src/scheduler.c:34-42 | over any run, nodes are as many as allocations and frees as many as actions that free |
| EventNodes.QueueCounted | src/module/src/scheduler.c:251-255 | over any run, a scheduler has delivered and discarded as often as it copied out and discarded |
| EventNodes.FailureIsInvisible | src/module/src/scheduler.c:237-257 | each step is a step of a queue that never fails; taking, failing and putting back leave what is pending unchanged, whoever queues meanwhile |
| EventNodes.DeliveriesInOrder | src/module/src/scheduler.c:203-212 | everything sent is, in order, what was delivered, then what was discarded with a closed queue, then what is pending |

## Left out

- RCU grace periods, memory reuse after `kfree`, and the internals of the hash tables and the id allocator: foreign kernel code; tables are maps and the allocator's id is a parameter.
- Signals, interrupted waits and thread cancellation: they start a suspended thread outside the protocol.
- Procfs directories, path building and info files: input and output only.
- Allocation failures, a failed copy in `create_ums_complist`, and a failed id allocation in `create_ums_complist`, which tests for zero although errors are negative.
- Entering with an unknown list id while the pointer that was never set leads to no list in the table: the error path then writes to memory outside the model.
- The library's null-argument checks, thread-key handling, ioctl dispatch and the benchmark's copy of the ready queue: wrappers without protocol content.
- Memory ordering weaker than one shared write after another.
- Registry.UmsData.WorkerEnd: the event and the null-parent return of the same call are in `Protocol.dfy` (`WEndEvent`, `WEndFailed`), since they concern contexts and not tables.
- Fields of contexts, schedulers and workers in the interleaving model are values rather than heap objects, because any thread may move between two writes; update in place is modelled for list and event nodes (`KernelHeap.dfy`, `EventHeap.dfy`), list counts and handles (`Registry.dfy`).
- The `list_for_each` macros as such.
