# Scheduler core, fork path and page walk: a verified model

This project models the hard parts of a patched Linux 5.17.7 scheduler core and
fork path, together with the repository's own code: a system call with a hook in
`__schedule()`, and a five-level page walk. Properties are proved for any number
of tasks, CPUs, callers, groups and memory areas, over every interleaving, every
run or every input.

| module | what it models |
|---|---|
| `Wakeup`, `WakeupCpu` | `__schedule()`, `try_to_wake_up()` on all its paths, wakelists, queued migration, the iowait and load counters; the same with wakers that occupy a CPU |
| `Affinity`, `AffinitySelf` | callers of `set_cpus_allowed_ptr()` against the stopper, migrate-disable regions and switches of the task; a task that calls it for itself |
| `CoreLock` | the runqueue-lock indirection against core scheduling being turned on and off |
| `CorePick`, `CorePrio`, `CorePickLoops`, `CoreForced`, `CoreSequence` | the core-wide pick with its sequence-number cache, CPU hotplug handing the leader over; `prio_less()` and who wins; the three loops in place; a run with a needless forced idle; the task sequence over whole runs |
| `Uclamp`, `UclampWidth`, `UclampGroups`, `UclampRace` | clamp buckets as a cached maximum; how far the cache can lie above it; the pruned walk that propagates group clamps to tasks and runqueues; that walk against enqueues and dequeues |
| `TgWalk`, `Bandwidth` | the goto-based tree walk; CFS quota admission on it |
| `LazyMm` | address-space references over context switches, forks, exits and other holders |
| `Fork`, `ForkRace`, `ForkAlone` | `copy_process()`: sharing, copying, and the unwind labels; any number of calls interleaved with each other and with other holders; that one left undisturbed does what a single call does |
| `DupMmap` | copying the list of memory areas and its memory charge |
| `Priority`, `PriorityHistory` | `my_fixed_priority` among the other writers of a task's priority; field, static priority and weight read off the steps of a run |
| `PageWalk` | the page walk and the batch system call |
| `Counting`, `Ancestry`, `Common` | sums over records, used by the conservation laws; trees given by parent indices; the option type |

Protocols are state machines: a step is one critical section, or one access that
another CPU can see without the lock. Loops and in-place updates are methods over
arrays and objects. Memory is sequentially consistent, which is what the
barriers in the source are there to provide. What the scheduling classes choose,
and whether an allocation or another callee outside the model fails, is left open
and quantified over.

## Where the code and its documentation differ

* **A stopper can complete an affinity request off a migrate-disable pin.** When
  `migration_cpu_stop()` finds the task on another CPU it tests `cpus_ptr`
  (`Project 2/core.c:2402`), which inside a migrate-disable region is only the
  CPU the task is pinned to. The comments at `Project 2/core.c:2569-2571` and
  `Project 2/core.c:2709-2719` say a caller waits for the region to end.
  `Affinity.StrayRun` gives the run; `Affinity.MaskEnforcedIff` shows that the
  promise holds along a run if and only if no such completion happens in it.
* **On the unified cgroup hierarchy no quota reaches `hierarchical_quota`.** The
  comment at `Project 2/core.c:10511-10514` says the minimum is taken. It is a
  signed minimum in which "no limit" is -1, and the root's value is -1
  (`Project 2/core.c:10500-10516`). `Bandwidth.UnifiedMinimumIff` shows that the stored
  values are the minimum on the path if and only if no group has a quota.
* **`my_set_process_priority` takes effect only when something recomputes the weight.**
  The hook writes `static_prio` and leaves load weight, `prio` and `normal_prio`
  alone (`Project 2/core.c:6286-6291`), so by itself the request changes nothing the
  scheduler acts on: `Priority.RequestWithoutEffect`. `PriorityHistory.AgreesExact`
  says at which points of a run a task is scheduled by its static priority.
  A later renice to the requested value is ignored (`Priority.ReniceIgnored`,
  `Priority.ReniceWeighsIff`); a change of policy by `sched_setscheduler()`, which
  takes its nice value from `static_prio` (`Project 2/core.c:7540`), puts the request
  into effect (`Priority.LegacyAdoptsIff`).
* **The request reaches forked children although the field is reset.** The new line
  at `Project 2/fork.c:2398` gives a child field 0, but `static_prio` is copied with
  the task. `PriorityHistory.RequestReachesChild` gives a run in which the child of a
  nice-0 task is at 139, and with reset-on-fork also has the weight and priority of
  139; `PriorityHistory.ChildInherits` says for every run what the child gets.
* **Equal deadlines go to the last sibling, not to the current CPU.** The comment at
  `Project 2/core.c:5790` breaks ties towards the current CPU, but `prio_less()` is
  true of two deadline tasks with the same deadline (`Project 2/core.c:130-131`).
  `CorePrio.CurrentWinsIff` says exactly when the current CPU wins,
  `CorePrio.DeadlineTieLost` gives a tie it loses. The winner is still one that no
  sibling beats: `CorePrio.WinnerBest`.
* **A sibling can be forced idle next to a matching task.** The comment at
  `Project 2/core.c:5810-5813` says a runnable task that matches the winner is looked
  for. The search covers the tasks with a cookie only and is skipped when the winner
  has none (`Project 2/core.c:5820-5821`). `CorePick.IdleIff` says exactly when a
  sibling goes idle, `CoreForced.ForcedRun` gives a run with a matching task queued.
* **For some bucket counts the cached clamp overshoots by a bucket width or more.**
  The bucket width is rounded (`Project 2/core.c:1304`) and the last bucket takes
  what is left of the capacity. `UclampWidth.TightIff` shows that the cached clamp
  of every runqueue stays less than one width above the largest active clamp if and
  only if the buckets together reach past full capacity. This holds for 5 or 6
  buckets; `UclampWidth.OvershootAtTwenty` gives the runqueue with 20.
* **The task sequence of a core can fall.** A sibling that starts on an empty core
  leads with whatever `core_task_seq` its runqueue has stored
  (`Project 2/core.c:6015-6056`). `CoreSequence.SeqFallsIff` shows that over every run
  the sequence falls at a step if and only if the step is such a start on a CPU whose
  value is lower than the last leader's; `CoreSequence.FallRun` gives a run. No
  cached pick is affected: `CorePick.RunSafe` holds on these runs too.
* **0 from the page walk is ambiguous.** `PageWalk.ZeroMeans` says exactly when it
  means "not mapped"; `PageWalk.ZeroAmbiguous` gives a table on which a mapped and
  an unmapped page both give 0.

## Model

| member | source | states |
|---|---|---|
| `Wakeup.DeactivateInv` | Project 2/core.c:6252-6283 | a task leaving the runqueue in `__schedule()` keeps every placement and counting invariant, the counters moving with it |
| `Wakeup.WakeInv` | Project 2/core.c:4018-4129 | each step of a waker under `pi_lock`, from the state match to selecting a CPU, keeps the invariant against a task anywhere in `__schedule()` |
| `Wakeup.QueueInv` | Project 2/core.c:3595-3613 | placing a waking task on a wakelist or runqueue keeps it in one place and takes its sleep out of the counters of the right CPU |
| `Wakeup.MigrateInv` | Project 2/core.c:2264-2281 | both halves of a queued migration keep the invariant; between them the task is on no runqueue |
| `Wakeup.DrainQuiet` | Project 2/core.c:3663-3694 | a task that can be drained from a wakelist is off its CPU and belongs to that CPU, so neither warning fires |
| `Wakeup.FinishInv` | Project 2/core.c:4642-4658 | clearing `on_cpu` of the previous task keeps the invariant although wakers wait for it without the lock |
| `Wakeup.StepInv` | Project 2/core.c:6192-6333 | every step of every context keeps the invariant |
| `Wakeup.RunInv` | Project 2/core.c:3985-4143 | the invariant holds at every point of every run |
| `Wakeup.InvOnePlace` | Project 2/core.c:3644-3660 | a task is on at most one runqueue, current on at most one CPU, and queued exactly where `on_rq` and `task_cpu` say |
| `Wakeup.InvSafe` | Project 2/sched.h:165-212 | in a state of the invariant no waiter of a publish-test-schedule loop sleeps with its condition true and all wakers gone, and both counters are exact |
| `Wakeup.RunSafe` | Project 2/core.c:4018-4134 | over every run: one place per task, no warning, no lost wakeup, `nr_iowait` exact and non-negative, `nr_uninterruptible` exact in total |
| `WakeupCpu.OnCpuHere` | Project 2/core.c:4042-4104 | a task with `on_cpu` set is current, or being switched out, on the CPU it belongs to, so no waker can be at work there for it |
| `WakeupCpu.WorldInv` | Project 2/core.c:3985-4143 | over every run the CPU of a waker that holds a `pi_lock` stays outside `__schedule()` or in its pick, with another task current than the one it wakes, and a task seen with `on_cpu` set belongs to another CPU |
| `WakeupCpu.ListQuiet` | Project 2/core.c:3742-3791 | over every run, for any wakers and any cache topology, the warning about queueing to the waker's own CPU is unreachable on both paths |
| `Affinity.ReachableLive` | Project 2/core.c:2293-2299 | whatever is reachable from the task, a stopper or a caller is a request whose frame is in use |
| `Affinity.SetAffinityInv` | Project 2/core.c:2642-2780 | a new affinity request, whether it installs, joins, replaces or is served at once, keeps references, stopper and mask consistent |
| `Affinity.StopInv` | Project 2/core.c:2328-2428 | the stopper callback, on the right or the wrong CPU, keeps them consistent |
| `Affinity.EnableBeginInv` | Project 2/core.c:2179-2207 | the outermost `migrate_enable()` keeps them consistent |
| `Affinity.StepInv` | Project 2/core.c:2785-2868 | every step of callers, stopper and task keeps the invariant |
| `Affinity.RunInv` | Project 2/core.c:2642-2780 | the invariant holds at every point of every run |
| `Affinity.InvSafe` | Project 2/core.c:2649-2777 | the reference count is the number of callers using the request, no pointer dangles, and every waiting caller is signalled, about to be, or served by a stopper or a pending `migrate_enable()` |
| `Affinity.RunSafe` | Project 2/core.c:2363-2425 | the same at every point of every run: no stranded waiter, no use of a returned frame, the three stop-pending warnings quiet |
| `AffinitySelf.GuardExact` | Project 2/core.c:2826-2840 | the -EBUSY guard refuses exactly the calls of a task for itself that would have it wait inside its own migrate-disable region |
| `AffinitySelf.SelfServed` | Project 2/core.c:2826-2868 | over every run a task waiting in its own call is signalled, about to be, or served by exactly one stopper; it never depends on a `migrate_enable()` of its own |
| `AffinitySelf.SelfStopped` | Project 2/core.c:2363-2390 | a stopper that finds such a task on its CPU completes the request |
| `Affinity.CompletedOnce` | Project 2/core.c:2405-2425 | a completion hits a request that is not done, is uninstalled and has no stopper left, and is the only one |
| `Affinity.EnableServes` | Project 2/core.c:2719-2777 | after the outermost `migrate_enable()` a pending request is completed on an allowed CPU or has exactly one stopper under way |
| `Affinity.UninstallSound` | Project 2/core.c:2363-2406 | when a request goes away a queued task is on a CPU of `cpus_ptr`; it is on one of the requested mask if and only if the completion is not stray |
| `Affinity.StepEnforced` | Project 2/core.c:2397-2406 | a step keeps the affinity promise if and only if it is not a stray completion |
| `Affinity.MaskEnforcedIff` | Project 2/core.c:2397-2406 | the promise holds all along a run if and only if the run has no stray completion |
| `Affinity.EnableQuiet` | Project 2/core.c:2709-2721 | without one the warning about a missing request in `migrate_enable()` is unreachable |
| `Affinity.StrayRun` | Project 2/core.c:2397-2425 | a run of two callers in which the second returns while the task runs outside the mask it asked for, and that warning is due |
| `CoreLock.HolderAgrees` | Project 2/core.c:483-535 | a holder's lock is the one the runqueue names and the one unlock will release |
| `CoreLock.LockerInv` | Project 2/core.c:483-528 | each unlocked read, acquisition and recheck of a locker keeps the invariant |
| `CoreLock.FlipWriteInv` | Project 2/core.c:273-310 | writing `core_enabled` of one CPU with its core's locks held keeps it |
| `CoreLock.StepInv` | Project 2/core.c:236-373 | every step of lockers, users and the deferred work keeps it |
| `CoreLock.RunInv` | Project 2/core.c:236-373 | it holds at every point of every run |
| `CoreLock.InvSafe` | Project 2/core.c:338-373 | at most one holder per runqueue, and with the mutex free core scheduling is on everywhere if and only if the count is positive |
| `CoreLock.RunSafe` | Project 2/core.c:483-535 | both at every point of every run, and scheduling the work never meets a pending one |
| `CorePick.FinalMatches` | Project 2/core.c:5810-5842 | every sibling's final pick is runnable there and has the winner's cookie or is idle; for `sched_core_find()` this comes from the tree holding exactly the queued tasks with a cookie |
| `CorePick.StepTree` | Project 2/core.c:175-200 | every step leaves the core tree of each runqueue holding exactly its queued tasks that have a cookie |
| `CorePick.IdleIff` | Project 2/core.c:5815-5825 | a class pick gives way to idle if and only if it does not match the winner's cookie and either the winner has none or no queued task has it |
| `CoreForced.ForcedRun` | Project 2/core.c:5815-5825 | a run in which a sibling goes forced idle under a winner without a cookie with a task without a cookie queued there |
| `CorePick.StartingFollows` | Project 2/core.c:6015-6056 | a starting sibling finds the one leader, if there is one, and follows it; neither warning fires |
| `CorePick.HandoverLed` | Project 2/core.c:6058-6111 | when the leader leaves, one sibling leads all others and carries on sequence numbers and cookie |
| `CorePick.StepInv` | Project 2/core.c:5684-5908 | picks on all three paths, queue changes and hotplug keep leader, safety and cache validity |
| `CorePick.RunInv` | Project 2/core.c:5684-5908 | the invariant holds at every point of every run |
| `CorePick.InvPicksMatch` | Project 2/core.c:5652-5663 | in every reachable state the cookie-mismatch warning cannot fire, whatever the classes pick and whichever matching task the tree search finds |
| `CorePick.RunSafe` | Project 2/core.c:5720-5733 | over every run: one leader, every sibling runs a matching task or is about to reschedule, every cache hit is still queued there with the core's cookie |
| `CoreSequence.StepSeq` | Project 2/core.c:6088-6094 | while the core has a sibling no step lowers the task sequence seen through the leader, whoever leads before and after |
| `CoreSequence.RestartResumes` | Project 2/core.c:6015-6056 | the first sibling to start on an empty core leads it, and the sequence goes on from the value stored in that CPU's runqueue |
| `CoreSequence.SeqFallsIff` | Project 2/core.c:6015-6056 | at any step of any run the sequence last seen through a leader falls if and only if the step starts an empty core on a CPU whose stored value is lower |
| `CoreSequence.SeqMonotone` | Project 2/core.c:175-202 | over any stretch of a run without such a restart the sequence never decreases, whoever leads and even if the core is empty in between |
| `CoreSequence.FallRun` | Project 2/core.c:6015-6111 | a run of two siblings in which it falls from 2 to 0 |
| `CorePrio.LessIff` | Project 2/core.c:117-137 | `prio_less()` is the strict order by rank, deadline and fair order, and besides true of two deadline tasks with the same deadline |
| `CorePrio.StrictIff` | Project 2/core.c:117-137 | it is irreflexive if and only if there is no deadline task |
| `CorePrio.WinnerBest` | Project 2/core.c:5786-5808 | no sibling has a class pick strictly better than the winner's, deadline tasks included, for any strict order of fair tasks |
| `CorePrio.CurrentWinsIff` | Project 2/core.c:5786-5808 | the current CPU wins if and only if no sibling has a better pick and none has a deadline task with the deadline of its own |
| `CorePrio.WinnerTies` | Project 2/core.c:5786-5808 | among equal deadlines the last sibling in wrap order wins, among equals of the real-time, stop and idle classes the first |
| `CorePrio.DeadlineTieLost` | Project 2/core.c:129-131 | two siblings with equal deadlines, of which the other one wins |
| `CorePickLoops.ClassPicks` | Project 2/core.c:5786-5808 | the wrapping loop notes every sibling's class pick and returns the winner under `prio_less()` |
| `CorePickLoops.MatchCookie` | Project 2/core.c:5812-5837 | the loop leaves each sibling its final pick and returns the number of forced-idle siblings |
| `CorePickLoops.KickSiblings` | Project 2/core.c:5859-5899 | the loop takes the own pick, drops picks that run already and kicks exactly the others |
| `CorePickLoops.ChoosePicks` | Project 2/core.c:5786-5842 | the first two loops leave the winner and, under its cookie, every sibling's final pick and the number forced idle |
| `CorePickLoops.PickCoreWide` | Project 2/core.c:5786-5907 | the three loops in place are the core-wide step of the protocol, for the winner under `prio_less()` |
| `Uclamp.BucketMonotone` | Project 2/core.c:1303-1312 | buckets are ordered as the values in them |
| `Uclamp.BucketWidth` | Project 2/core.c:1303-1312 | two values of one bucket differ by less than its width; the last bucket has its own width |
| `Uclamp.OccupiedIff` | Project 2/core.c:1356-1375 | some bucket counts a task if and only if some task is active |
| `Uclamp.Left` | Project 2/core.c:1544-1608 | what a dequeue leaves: exact counts, and the cached value still right when it is not recomputed |
| `Uclamp.CacheRefinesMax` | Project 2/core.c:1356-1375 | the cached clamp is at least every active clamp and exceeds the largest by less than its bucket's width |
| `UclampWidth.NominalWidthIff` | Project 2/core.c:1303-1312 | two values of one bucket always differ by less than the nominal width if and only if width times number of buckets exceeds the capacity |
| `UclampWidth.Overshoot` | Project 2/core.c:1356-1375 | for every other bucket count, two enqueues and a dequeue leave full capacity cached with one active task at the foot of the last bucket |
| `UclampWidth.TightIff` | Project 2/core.c:1356-1375 | the cached clamp is less than one width above some active clamp, in every state that keeps the bucket counts, if and only if width times number of buckets exceeds the capacity |
| `UclampWidth.OvershootAtTwenty` | Project 2/core.c:1356-1375 | with 20 buckets of width 51 and one active task at 969 the cache can stay at 1024 |
| `Uclamp.ClampRq.constructor` | Project 2/core.c:1922-1934 | an initial aggregate is empty with the clamp's neutral value |
| `Uclamp.ClampRq.MaxValue` | Project 2/core.c:1356-1375 | the downward scan finds the topmost occupied bucket's value, or says that there is none |
| `Uclamp.ClampRq.Inc` | Project 2/core.c:1506-1530 | counts stay exact and the cached value is the new maximum of bucket values |
| `Uclamp.ClampRq.Dec` | Project 2/core.c:1544-1608 | counts stay exact, neither warning fires, and the last task leaves 0 for MIN and its own clamp for MAX |
| `Uclamp.Rq.constructor` | Project 2/core.c:1922-1934 | both aggregates empty and the idle flag set |
| `Uclamp.Rq.Enqueue` | Project 2/core.c:1610-1632 | the task is counted in both aggregates; after idle its clamps become the runqueue's |
| `Uclamp.Rq.Dequeue` | Project 2/core.c:1634-1652 | the task leaves both; no warning; an emptied runqueue keeps the last MAX clamp; a task that is not active changes neither value nor the idle flag |
| `Uclamp.Rq.ReincMin` | Project 2/core.c:1654-1670 | taking an active task out and in again under a new MIN clamp moves exactly that task; no warning |
| `Uclamp.Rq.ReincMax` | Project 2/core.c:1654-1670 | the same for MAX, and the idle flag raised when it was the only task is cleared |
| `Uclamp.Rq.UpdateActive` | Project 2/core.c:1654-1698 | an active task moves to its new clamps, an inactive one is not touched, and the idle flag ends as it was |
| `UclampGroups.SolvedIsEffective` | Project 2/core.c:10076-10089 | the effective-clamp equations have one solution, the full recomputation from the root |
| `UclampGroups.EffectiveCapped` | Project 2/core.c:10079-10089 | a group's effective clamps are ordered and exceed those of no group above it |
| `UclampGroups.SubtreeContiguous` | Project 2/core.c:10075-10104 | in pre-order everything between a group and its descendant is below the group |
| `UclampGroups.SubtreeEnd` | Project 2/core.c:10101-10104 | the point a pruned walk goes on from is the end of exactly that subtree |
| `UclampGroups.UpdateActiveTasks` | Project 2/core.c:1701-1711 | exactly the active tasks of the group get their effective clamp, and the calls of `uclamp_update_active()` returned are those that lead from the old clamps to the new |
| `UclampGroups.RefreshRq` | Project 2/core.c:1671-1698 | one such call keeps the task's runqueue counting exactly its active tasks under their stored clamps |
| `UclampGroups.FollowCalls` | Project 2/core.c:1671-1711 | so does any sequence of them, for the runqueue of any CPU |
| `UclampGroups.PruneSubtree` | Project 2/core.c:10101-10104 | below a group that did not change nothing is left to solve |
| `UclampGroups.SetEffective` | Project 2/core.c:10090-10108 | storing a group's new effective clamps and refreshing its active tasks leaves every active task of every group current |
| `UclampGroups.UpdateEffective` | Project 2/core.c:10063-10109 | after one group's request changed, the pruned walk leaves every group as full recomputation would and every active task with its current effective clamp, through the calls it returns |
| `UclampGroups.WriteGroups` | Project 2/core.c:10127-10187 | the part of a write on groups and tasks, with the calls it makes |
| `UclampGroups.Write` | Project 2/core.c:10127-10187 | a percentage above 100 is refused and changes nothing; otherwise the request is the rounded value, the whole hierarchy and all active tasks follow, and the buckets of any CPU's runqueue count its active tasks under the new clamps |
| `UclampRace.MidKept` | Project 2/core.c:10091-10101 | while the two clamps of a group are stored one after the other, no group before it and none but its children depends on what is there |
| `UclampRace.StepInv` | Project 2/core.c:10063-10109 | every step of the walk and of enqueues and dequeues keeps the invariant |
| `UclampRace.RunFresh` | Project 2/core.c:1701-1711 | at every point of every interleaving an active task is counted under its current effective clamps unless the walk is at its group and has yet to refresh it; between writes all are, and every group is as full recomputation would have it |
| `TgWalk.Walk` | Project 2/core.c:1181-1210 | the goto-based walk terminates and returns what the recursive depth-first traversal with early stop returns, for any visitors |
| `Bandwidth.ShiftFits` | Project 2/core.c:4478-4492 | within the admitted bounds the shift does not overflow, and the ratio is a non-negative signed number, so only "no limit" reads as -1 |
| `Bandwidth.DfsWalked` | Project 2/core.c:10496-10527 | walking a subtree writes that subtree only, stores what the rule says when all its groups are admitted, and otherwise one of them is not |
| `Bandwidth.WalkDecides` | Project 2/core.c:10529-10548 | the walk accepts v1 settings if and only if each group fits under its ancestors, and unified settings always, whatever the stored values were |
| `Bandwidth.LimitAttained` | Project 2/core.c:10496-10527 | the limit of a path is the quota of some group on it |
| `Bandwidth.LimitBounds` | Project 2/core.c:10496-10527 | it is finite and at most the quota of every limited group above |
| `Bandwidth.FeasibleIffNested` | Project 2/core.c:10515-10522 | the group-by-group test is the pairwise promise that no group has more than any group above it |
| `Bandwidth.AdmissionDecides` | Project 2/core.c:10529-10548 | admission on a whole hierarchy: off the unified hierarchy accepted if and only if nested, on it always; an accepted walk stores the minimum on the path to the root, on the unified hierarchy "no limit" |
| `Bandwidth.UnifiedForgets` | Project 2/core.c:10515-10516 | on the unified hierarchy every stored value is "no limit" |
| `Bandwidth.UnifiedMinimumIff` | Project 2/core.c:10511-10516 | there the stored values are the path minimum if and only if no group has a quota |
| `Bandwidth.UnifiedLosesLimit` | Project 2/core.c:10511-10516 | the smallest hierarchy on which a limit is lost |
| `Bandwidth.Groups.SetBandwidth` | Project 2/core.c:10266-10322 | accepted if and only if not the root, in bounds and, off the unified hierarchy, nested afterwards; a refused call stores no period, quota or burst; off the unified hierarchy every state reached is nested |
| `LazyMm.SwitchReferences` | Project 2/core.c:4960-4992 | each of the four cases of a context switch keeps every address space's count equal to its references |
| `LazyMm.FinishInv` | Project 2/core.c:4833-4903 | clearing `prev_mm` under the lock and dropping it later keeps the count exact in between |
| `LazyMm.ForkInv` | Project 2/fork.c:1473-1511 | sharing, copying and cloning a kernel thread keep both counts exact |
| `LazyMm.CountersInv` | Project 2/fork.c:1106-1136 | `mmget()`, `mmput()` with its delayed drop, and other holders keep both counts exact |
| `LazyMm.StepInv` | Project 2/core.c:4945-5003 | every step keeps the invariant |
| `LazyMm.RunInv` | Project 2/core.c:4945-5003 | it holds at every point of every run |
| `LazyMm.CurrentLoaded` | Project 2/core.c:4960-4992 | the active address space of every CPU's current task exists |
| `LazyMm.InvSafe` | Project 2/fork.c:696-707 | an address space is freed if and only if nothing refers to it; `prev_mm` is empty outside a switch; `init_mm` is never freed |
| `LazyMm.InvDrops` | Project 2/core.c:4899-4902 | whoever drops a reference owns one, and nobody drops the last of `init_mm` |
| `LazyMm.FreedStays` | Project 2/fork.c:696-707 | a freed address space is never touched again |
| `LazyMm.RunSafe` | Project 2/core.c:4833-4914 | all of this at every point of every run, and `prev_mm` is empty on entry to every switch |
| `Fork.PutCounts` | Project 2/fork.c:1585-1595 | dropping a reference lowers that object's count by one and no other |
| `Fork.CopyFiles` | Project 2/fork.c:1533-1558 | nothing without a table, one more reference when shared, a table of its own otherwise; fails only when it copies |
| `Fork.CopyFs` | Project 2/fork.c:1513-1531 | sharing fails exactly during an exec, copying exactly when the allocation does |
| `Fork.CopySighand` | Project 2/fork.c:1560-1583 | shared handlers cannot fail; new ones start with one reference |
| `Fork.CopySignal` | Project 2/fork.c:1609-1658 | threads get no signal structure, processes one new one |
| `Fork.CopyMm` | Project 2/fork.c:1473-1511 | kernel threads get none; shared address spaces cannot fail |
| `Fork.Setup` | Project 2/fork.c:1985-2175 | the set-up in order: the error of the first failing step, and exactly the references that the label for it undoes |
| `Fork.Unwind` | Project 2/fork.c:2402-2463 | from any label the fall-through gives back exactly what was held |
| `Fork.Kernel.CopyProcess` | Project 2/fork.c:1902-2463 | one call on its own: all or nothing for every flag set and every failing step, with the error code named by the first failure; on success the counts rise exactly as the flags say |
| `Fork.SucceedsIff` | Project 2/fork.c:1919-2340 | a call succeeds if and only if the flags are valid, the thread limit has room, no shared file-system state is in exec and no step it takes fails |
| `Fork.ForkSurplus` | Project 2/fork.c:1473-1658 | a fork adds exactly as many references to any object as it adds users |
| `Fork.ForkGroupSize` | Project 2/fork.c:2363-2376 | `nr_threads` and `live` are the number of tasks in the group, for old and new groups, and `sigcnt` rises with them |
| `Fork.ForkGrouped` | Project 2/fork.c:1919-1958 | under the flag rules all tasks of a thread group share address space, handlers and leader |
| `Fork.ForkValid` | Project 2/fork.c:1902-2400 | a successful call keeps the invariant |
| `Fork.RestoredValid` | Project 2/fork.c:2402-2463 | so does a failed one |
| `Fork.RunKeeps` | Project 2/fork.c:1902-2463 | across any sequence of calls, failed or not, groups stay shared and counted and no object gains or loses a reference of others |
| `ForkRace.StepOthers` | Project 2/fork.c:1473-1583 | no step of any of the interleaved calls changes how many references to an object are held by neither a task nor a call; a step of another holder changes it by one, for that object only |
| `ForkRace.StepCharges` | Project 2/fork.c:2451-2456 | the same for the process-count charge of every user |
| `ForkRace.StepSignals` | Project 2/fork.c:1609-1658 | the same for signal structures |
| `ForkRace.StepNodes` | Project 2/fork.c:1984-1992 | the same for the delayed-signal nodes on every group's list |
| `ForkRace.AttachGrouped` | Project 2/fork.c:2295-2383 | the part under `tasklist_lock` keeps groups shared and counted although other calls made tasks visible since this one began |
| `ForkRace.CopyFresh` | Project 2/fork.c:1473-1583 | a copy made by a call is referred to by no task and held by no call before, and once after |
| `ForkRace.StepInv` | Project 2/fork.c:1902-2463 | every step of every call and of other holders keeps the invariant |
| `ForkRace.RunInv` | Project 2/fork.c:1902-2463 | it holds at every point of every interleaving |
| `ForkRace.RunConserves` | Project 2/fork.c:1902-2463 | at every point of every interleaving what others hold of an object is what they held at the start and took or dropped themselves since; charges, signal structures and list nodes held by others are as at the start |
| `ForkRace.RunAlive` | Project 2/fork.c:2415-2463 | at every point an object that a task refers to or a call holds has a count above 0: no unwinding frees it under them |
| `ForkRace.Settled` | Project 2/fork.c:1902-2463 | whenever all calls have returned, the counts have grown by exactly the new tasks' references and charges and what other holders took, no list node is left, and groups are shared and counted |
| `ForkAlone.SetUpPasses` | Project 2/fork.c:2151-2169 | in an undisturbed set-up each kind of object is shared or copied as its flag says, by its own step and by no other |
| `ForkAlone.AloneForks` | Project 2/fork.c:1984-2383 | the steps of an undisturbed call together are exactly the fork that `copy_process()` does on its own |
| `ForkAlone.UnwindSince` | Project 2/fork.c:2415-2463 | each label drops exactly what its depth adds, wherever the call failed |
| `ForkAlone.FailureRestores` | Project 2/fork.c:1984-2463 | an undisturbed call that fails at any depth holds exactly what its depth says on the way and leaves every count as it was |
| `DupMmap.Unlocked` | Project 2/fork.c:573-573 | clearing the lock flags changes neither the size nor the charge of an area |
| `DupMmap.CopiedPages` | Project 2/fork.c:531-537 | the child's pages are the parent's without those of the areas not copied |
| `DupMmap.Link` | Project 2/fork.c:598-604 | linking behind the last area keeps the list doubly linked, in order |
| `DupMmap.DupArea` | Project 2/fork.c:538-637 | an area is linked and charged, or neither, on every failure label; a page-table failure keeps both |
| `DupMmap.Visit` | Project 2/fork.c:531-619 | one turn of the loop moves list, count, total and charge together |
| `DupMmap.CopyAreas` | Project 2/fork.c:530-619 | the loop stops at the first failure that strikes, with the books of the areas before it |
| `DupMmap.BooksMean` | Project 2/fork.c:531-619 | the books are the copied list, its charge and, given the parent's total, its pages |
| `DupMmap.DupMmap` | Project 2/fork.c:491-638 | on every exit the list is doubly linked and fresh, `map_count` is its length and the net charge is that of its accounted areas; 0 is returned if and only if no step failed; then it is the parent's list without the areas not to copy, unlocked, and the total is its pages |
| `Priority.StepInv` | Project 2/core.c:6286-6291 | every writer keeps the field in 0 or 101..139, the static priority in 100..139 and the weight index in 0..39 |
| `Priority.RunInv` | Project 2/core.c:1218-1242 | the same at every point of every run |
| `Priority.CallReturns` | Project 2/my_set_process_priority.c:5-27 | a call that no renice or setscheduler follows after its last pick returns 1 with the static priority requested |
| `Priority.ReturnExact` | Project 2/my_set_process_priority.c:17-26 | on any run a call returns 1 with its request stored, and with the static priority requested if and only if the last renice or setscheduler of the task after its last pick, if any, left that value |
| `Priority.PickBefore` | Project 2/core.c:6286-6291 | a call about to return has been picked since it was entered |
| `Priority.SincePick` | Project 2/core.c:6286-6291 | from its last pick on the call stays picked, and the static priority is what the last write among the steps since then left |
| `Priority.CallFrame` | Project 2/core.c:6286-6291 | call and hook change no task's `prio`, `normal_prio`, load weight or policy |
| `Priority.ChildIgnoresField` | Project 2/fork.c:2398-2398 | a child copies neither its parent's field nor a boost: with the static priority held fixed it is the same whatever they are, and starts with field 0 and its normal priority |
| `Priority.ChildReset` | Project 2/core.c:4398-4427 | with reset-on-fork there is always a child, of an ordinary policy, not favoured, its priorities those of its static priority and, unless the policy is `SCHED_IDLE`, its weight too |
| `Priority.ChildAgreesIff` | Project 2/core.c:4395-4427 | a child is scheduled by its static priority if and only if its parent is or has reset-on-fork |
| `PriorityHistory.FieldExact` | Project 2/my_set_process_priority.c:5-27 | at every point of every run the field is the last request accepted for the task, 0 if there is none |
| `PriorityHistory.StaticExact` | Project 2/core.c:6286-6291 | at every point of every run the static priority is what the last write among the steps left: a request at a pick, a renice, setscheduler, or the fork that made the task |
| `PriorityHistory.ChildSeesStatic` | Project 2/core.c:4395-4427 | which static priorities of the parent a fork tells apart: all without reset-on-fork, with it only those of an ordinary task above nice 0 |
| `PriorityHistory.ChildInherits` | Project 2/fork.c:2398-2398 | over every run a child starts with field 0 and inherits, through the reset rule, the last write of its parent's static priority, requests included |
| `PriorityHistory.RequestReachesChild` | Project 2/fork.c:2398-2398 | a run in which the request reaches the child, with reset-on-fork by weight and priority too |
| `Priority.LegacyAdoptsIff` | Project 2/core.c:7534-7550 | `sched_setscheduler()` to an ordinary policy makes the task be scheduled by its static priority if and only if it changes the policy, or the task was so already |
| `Priority.ReniceLastsIff` | Project 2/core.c:6920-6971 | the static priority that a renice sets survives the next pick if and only if the field is 0 or names the same value |
| `Priority.ReniceWeighsIff` | Project 2/core.c:6920-6971 | a renice gives a fair task the weight of the nice value if and only if its static priority did not stand for that value yet, or the weight was right already |
| `Priority.ReniceIgnored` | Project 2/core.c:6920-6971 | a task whose requested value the hook has written and for which a renice to that value does nothing |
| `Priority.StepAgrees` | Project 2/core.c:7223-7246 | a step keeps weight and static priority of all fair tasks in agreement if and only if it is not a hook writing a different value |
| `Priority.RunAgreesIff` | Project 2/core.c:6286-6291 | they agree along a run if and only if the hook never does |
| `PriorityHistory.WeightExact` | Project 2/core.c:7223-7246 | at every point of every run a fair task has the weight and normal priority of the static priority at the last step that recomputed them |
| `PriorityHistory.AgreesExact` | Project 2/core.c:6286-6291 | at every point of every run a fair task is scheduled by its static priority if and only if the last write of that priority and the last computation of the weight used the same value |
| `Priority.RequestWithoutEffect` | Project 2/my_set_process_priority.c:5-27 | a nice-0 task that asks for 139 reads as nice 19 and keeps the weight and priority of nice 0 |
| `PageWalk.OrAdds` | Project 1/ADDRESSTRANSFORM/addresstransform.c:84-86 | the OR of an aligned frame and an offset is their sum |
| `PageWalk.JoinSplit` | Project 1/ADDRESSTRANSFORM/addresstransform.c:33-85 | five indices and the offset give back the low 57 bits of the address |
| `PageWalk.SplitJoin` | Project 1/ADDRESSTRANSFORM/addresstransform.c:33-85 | every choice of indices and offset is the split of one address |
| `PageWalk.WalkLooksUp` | Project 1/ADDRESSTRANSFORM/addresstransform.c:20-92 | the walk is frame plus offset of the digit-by-digit lookup, and 0 when a level has no entry |
| `PageWalk.ZeroMeans` | Project 1/ADDRESSTRANSFORM/addresstransform.c:37-80 | 0 comes back if and only if the page is not mapped or the address is the first byte of frame 0 |
| `PageWalk.ZeroAmbiguous` | Project 1/ADDRESSTRANSFORM/addresstransform.c:37-91 | a well-formed table on which a mapped page and an unmapped one both give 0 |
| `PageWalk.NeverCollide` | Project 1/ADDRESSTRANSFORM/addresstransform.c:82-91 | with distinct frames two mapped addresses translate alike if and only if they are equal |
| `PageWalk.TranslateAll` | Project 1/ADDRESSTRANSFORM/addresstransform.c:108-113 | the batch output is the lookup of each address |

## Left out

- Scheduling classes (fair tree, real-time and deadline queues, load tracking and balancing): their choices are arbitrary here.
- Weak memory: the barriers are taken to work.
- `wake_up_new_task()` and dead tasks in the wakeup protocol.
- CPU hotplug and waking tasks inside the affinity protocol; a wakeup there is one step that lands on an allowed CPU. `migrate_disable()` by code inside a task's own `set_cpus_allowed_ptr()` call.
- `__rq_lockp()`, `rq_lockp()` and `sched_core_enabled()` are defined in a header that is not part of the repository; the lock protocol uses their upstream meaning. Offline CPUs take no part in it.
- Cookie changes of queued tasks; forced-idle time accounting; `sched_core_find()` returns any task of the core tree with the cookie, not the leftmost one.
- Sequence numbers and deadlines do not wrap; `dl_time_before()` and `cfs_prio_less()` are not part of the repository, the latter is any strict order.
- The lazily applied system-wide clamp settings (`Project 2/core.c:1778-1782`), and parsing of clamp percentages from text.
- `UclampGroups.Write`: one write on its own; `UclampRace` interleaves writes with enqueues and dequeues, without the runqueues' buckets.
- Bandwidth timers, refill and throttling after a quota is stored; a refused quota may leave partly rewritten `hierarchical_quota` values, which the next walk does not read.
- Exec, and address spaces used by kernel threads on purpose; `exit_mm()` is not part of the repository and is one step that turns a user reference into a borrowed one.
- Fork of the per-CPU idle threads; the objects copied by opaque callees (credentials, semaphores, namespaces, I/O context, pid, pidfd), which only appear as steps that may fail; exit of tasks.
- `Fork.Kernel.CopyProcess`: one call at a time; `ForkRace` interleaves calls and other holders step by step, with failures at arbitrary points and without error codes.
- The red-black tree of memory areas, file mappings and userfaultfd contexts; `data_vm`, `exec_vm` and `stack_vm`.
- Priority inheritance beyond an arbitrary boosted `prio`; permission checks of `sched_setscheduler()`.
- Huge pages, swapped-out entries and failing user copies in the page walk; printing.
- Build files, system-call tables and the timing programs.
