# Models of the CROS-RT kernel, timer and experiment code

This project models, in Dafny, the parts of the CROS-RT repository that are hard to get right, and
proves what they are for. One module stands for one component:

- `Wakeup`: sleeping and waking. One kernel task, any number of CPUs and wakers, atomic steps at the
  granularity of the locks and of the variables that are accessed outside them. `WakeupEnds`: however
  its steps are interleaved, the wake side comes to an end. `WakeupMask`: whom a wakeup wakes.
  `WakeupLoop`: how the sleeper's own loop ends.
- `Affinity`: `set_cpus_allowed_ptr()` against `migrate_disable()`/`migrate_enable()` and the stoppers,
  which share `set_affinity_pending` objects on the callers' stacks.
  `AffinitySuccess`: what a successful return says about where the task is. `AffinityProgress`: calls
  come to an end. `AffinityRegions`: what `migrate_disable()` promises.
- `CoreSched`: core-wide task selection with cookies, and the cached picks guarded by sequence numbers.
  `CoreSchedLoop`: when the selection's loop ends.
- `Uclamp`: the bucketed maximum of utilization clamps. `UtilEff`: effective clamps of task groups.
- `TgWalk`: the stackless walk over task groups. `CfsBandwidth`: its use to keep CPU quotas feasible.
- `Softirq`: `__do_softirq()` with the deferral of NET_RX that CROS-RT adds. `Tasklets` and
  `TaskletProtocol`: the tail-pointer lists, and the machine-wide protocol of the SCHED and RUN bits.
- `TimerService`: the timer thread of Fast-DDS.
- `Chains` and `PrioScript`: the chain generator and the priorities that each machine's script assigns.
- `Sequences`: what several of them share.

The protocols (`Wakeup`, `Affinity`, `TaskletProtocol`) are state machines: an action type, a predicate
for when a step is possible, a function for its effect, and an invariant that every step keeps; their
theorems hold for every state of every interleaving. The rest follows the form of the source: classes
whose methods update fields and arrays, loops with invariants, and specification functions about which
the properties are proved.

## What the code does not do

Six statements that the code, its comments or a reader would suggest turn out to be false of the code.
Each has a lemma with an input or an interleaving that shows it, and the exact condition under which it
holds.

- The comment at lines 2613-2615 of core.c says that `__set_cpus_allowed_ptr()` blocks until the task is
  enqueued on an allowed CPU. A call for the mask that the task has already returns success at once
  (lines 2874-2875), even while an earlier call for that mask waits for the task to leave its CPU
  (`AffinitySuccess.SecondCallerReturnsEarly`). A call that succeeds without waiting leaves the task on an
  allowed CPU if and only if it is not one for an unchanged mask that excludes the task's CPU
  (`AffinitySuccess.SuccessAtOnce`).
- A call for a new mask can return success with the task outside the mask and no request left that would
  move it. Two branches of `migration_cpu_stop()` do this: the test of `cpus_ptr` instead of `cpus_mask`
  at line 2416 when the task is pinned elsewhere, and a wakeup that reaches the stopper's wake list
  between the flush and `pi_lock`. They are the only ones that leave the task so with nothing pending
  (`Affinity.MisplacedExactlyBy`), so, unless the mask is changed again before it returns, they are the
  only way in which such a call breaks the promise (`AffinitySuccess.SuccessMeansPlaced`); the second
  needs a wakeup after the flush (`AffinityRegions.FlushMissesOnlyLater`). Two concrete interleavings
  reach them, and the first also reaches the warning at line 2764 of `affine_move_task()`.
- The comment at lines 1530-1533 of core.c says that a bucket tracks the exact clamp when all its
  runnable tasks require the same. It does so only if no task with a larger clamp was counted in it
  since it was last empty (`Uclamp.BucketIsExact`, `Uclamp.BoostOutlivesItsTask`).
- The comment at lines 5950-5951 of core.c calls the selection's loop a linear max-filter that is bounded
  in time. It need not end: `prio_less` at line 131 holds both ways for equal deadlines, so two siblings
  whose first deadline tasks have equal deadlines and different cookies can take each other's place as
  max for ever (`CoreSchedLoop.TwoDeadlinesGoRound`). `CoreSchedLoop.EndsExactlyWhen` gives the exact
  condition, `CoreSched.Livelock`: there is no stop task on the core, and in the order of the turns one of
  the two is the first to offer a deadline this early and the other the first to do so with another
  cookie. The methods that select ask for its absence, for otherwise the call never returns.
- Once a timer has fired, `do_timer_actions()` drops every active timer that is due in 24 hours or
  later, not only cancelled ones (`TimerService.FarTimerIsDropped`; who stays is `TimerService.Remaining`).
- A due timer may not be fired in its round: when the callback of an earlier one unregisters an active
  timer, itself for instance, the rest waits (`TimerService.DueTimerCanWait`; the condition is
  `TimerService.NoCut`, by `TimerService.AllDueFired`).

## Model

| member | source | states |
|---|---|---|
| `Wakeup.StepInv` | `Linux_for_Tegra/source/kernel/kernel-jammy-src/kernel/sched/core.c:4036-4195` | every step of a waker, of `__schedule`, of a migration and of a wake-list IPI keeps the joint invariant of state, `on_rq`, `on_cpu`, locks and wakers |
| `Wakeup.OneRunqueueOneCpu` | `Linux_for_Tegra/source/kernel/kernel-jammy-src/kernel/sched/core.c:6310-6440` | in every state of every interleaving the task is linked into at most one runqueue and one wake list, once, and is current on or being switched away from at most one CPU, the one `on_cpu` and `task_cpu` describe |
| `Wakeup.EnqueueFindsItOff` | `Linux_for_Tegra/source/kernel/kernel-jammy-src/kernel/sched/core.c:3705-3733` | whoever enqueues the task finds it on no runqueue and on no CPU, so neither warning of `sched_ttwu_pending` fires |
| `Wakeup.OneWakerEnqueues` | `Linux_for_Tegra/source/kernel/kernel-jammy-src/kernel/sched/core.c:4128-4195` | while one waker is past the state test and owes the enqueue, no other one can pass it |
| `Wakeup.NoLostWakeup` | `Linux_for_Tegra/source/kernel/kernel-jammy-src/kernel/sched/core.c:3662-3703` | with the condition set, all wakers done and no wakeup on a wake list, the task is on a runqueue, across the race of `ttwu_runnable` with the dequeue in `__schedule` |
| `Wakeup.WakeKeepsNotLost` | `Linux_for_Tegra/source/kernel/kernel-jammy-src/kernel/sched/core.c:4064-4126` | no step of a waker loses the wakeup: somebody always still has to act |
| `Wakeup.WakeSideAdvances` | `Linux_for_Tegra/source/kernel/kernel-jammy-src/kernel/sched/core.c:4153-4182` | while the task is off the runqueues and its condition true, some step of the wake side is possible and brings it closer, and it is none that `ttwu_queue_wakelist` may refuse |
| `Wakeup.WakeupCanComplete` | `Linux_for_Tegra/source/kernel/kernel-jammy-src/kernel/sched/core.c:4684-4714` | from every reachable state with the condition true, the steps already under way can put the task back on a runqueue without a new waker |
| `Wakeup.NeverStuck` | `Linux_for_Tegra/source/kernel/kernel-jammy-src/kernel/sched/core.c:4036-4195` | in no reachable state can a wakeup be stuck: some steps of the wake side alone, none of which can be refused, end with the task on a runqueue |
| `WakeupEnds.StepDown` | `Linux_for_Tegra/source/kernel/kernel-jammy-src/kernel/sched/core.c:4036-4195` | every step of the wake side uses up one of a bounded number of steps, whichever waker, CPU or interrupt takes it |
| `WakeupEnds.WakeupCompletes` | `Linux_for_Tegra/source/kernel/kernel-jammy-src/kernel/sched/core.c:4036-4195` | however the steps of the wake side are interleaved, only so many are possible, and when none is left but some that can be refused, the task is on a runqueue: no spin on `on_cpu`, no lock and no order of the wakers keeps it off |
| `WakeupMask.OnlyItsBitsWakeIt` | `Linux_for_Tegra/source/kernel/kernel-jammy-src/kernel/sched/core.c:4064-4077` | a task asleep with certain bits in its state, with no wakeup under way that has passed its test, keeps that state and stays off the runqueues for as long as no waker's mask has one of these bits, whatever other wakeups are tried |
| `WakeupMask.AnswerIsTheTest` | `Linux_for_Tegra/source/kernel/kernel-jammy-src/kernel/sched/core.c:4028-4077` | each call of `try_to_wake_up` looks at the state exactly once, on the task's own CPU or under `pi_lock`, and answers 1 if and only if the state then had a bit of the caller's mask |
| `WakeupMask.OnlyMatchingWakersWrite` | `Linux_for_Tegra/source/kernel/kernel-jammy-src/kernel/sched/core.c:4055-4135` | besides the task itself only a waker whose test found a bit of its mask writes the state, or the IPI that ends a wakeup such a waker has begun |
| `WakeupMask.WakingSince` | `Linux_for_Tegra/source/kernel/kernel-jammy-src/kernel/sched/core.c:4129-4135` | the state is TASK_WAKING only since a waker that had found a bit of its mask set it |
| `WakeupLoop.LoopEndsAwake` | `Linux_for_Tegra/source/kernel/kernel-jammy-src/kernel/sched/core.c:6362-6400` | the task runs on after `__schedule` only in TASK_RUNNING, so a sleeper only once it is woken, and leaves its wait loop only with the condition true |
| `Affinity.StepInv` | `Linux_for_Tegra/source/kernel/kernel-jammy-src/kernel/sched/core.c:2685-2823` | every step of any number of callers, of the stoppers and of the task itself keeps the ownership invariant of the pending objects |
| `Affinity.StopPendingIsOneWork` | `Linux_for_Tegra/source/kernel/kernel-jammy-src/kernel/sched/core.c:2377-2432` | `stop_pending` holds exactly while one stop work of the object is queued, in a stopper's hands or about to be queued, never two, and then the object is installed |
| `Affinity.ObjectsOutliveTheirUsers` | `Linux_for_Tegra/source/kernel/kernel-jammy-src/kernel/sched/core.c:2797-2823` | nobody works on an object whose owner has returned; `refs` counts the callers that have not dropped their reference |
| `Affinity.CompletedOnce` | `Linux_for_Tegra/source/kernel/kernel-jammy-src/kernel/sched/core.c:2434-2442` | an object is completed at most once, after it was uninstalled |
| `Affinity.WaitersAreServed` | `Linux_for_Tegra/source/kernel/kernel-jammy-src/kernel/sched/core.c:2691-2795` | whoever waits has a completer or a stop work coming, or the task is pinned in a migrate-disabled region whose end will see the object |
| `Affinity.WarningsNeverFire` | `Linux_for_Tegra/source/kernel/kernel-jammy-src/kernel/sched/core.c:2366-2427` | the stopper always finds its object installed with `stop_pending` set, and the owner returns with no stop work and no participant left, so the warnings at lines 2370, 2427 and 2820 never fire |
| `Affinity.CompletionFindsAllowedCpu` | `Linux_for_Tegra/source/kernel/kernel-jammy-src/kernel/sched/core.c:2377-2420` | whenever a completion is decided while the task is queued and may migrate, the task is left on an allowed CPU |
| `Affinity.MisplacedExactlyBy` | `Linux_for_Tegra/source/kernel/kernel-jammy-src/kernel/sched/core.c:2377-2420` | a step leaves the task bound to a CPU outside its mask, with nothing pending that would move it, if and only if it takes one of two branches of the stopper, described by a condition on the state before the step |
| `Affinity.NeverMisplaced` | `Linux_for_Tegra/source/kernel/kernel-jammy-src/kernel/sched/core.c:2193-2221` | in a run that takes neither branch, the task is never misplaced and `migrate_enable` finds the pending object it expects |
| `Affinity.PinnedTaskCanBeMisplaced` | `Linux_for_Tegra/source/kernel/kernel-jammy-src/kernel/sched/core.c:2411-2420` | an interleaving in which the stopper's test of `cpus_ptr` completes for a pinned task: a caller has returned success while the task is queued on a CPU it excluded, and the warning for a missing pending object is reached |
| `Affinity.WakingTaskCanBeMisplaced` | `Linux_for_Tegra/source/kernel/kernel-jammy-src/kernel/sched/core.c:2354-2397` | an interleaving in which the task is put on the stopper's wake list between the flush and `pi_lock`, with the same outcome |
| `Affinity.MisplacementIsReachable` | `Linux_for_Tegra/source/kernel/kernel-jammy-src/kernel/sched/core.c:2342-2442` | both branches are reachable: some run ends with a caller's success, nothing pending and the task queued on an excluded CPU |
| `AffinitySuccess.SuccessAtOnce` | `Linux_for_Tegra/source/kernel/kernel-jammy-src/kernel/sched/core.c:2873-2902` | a call that succeeds without waiting leaves the task on an allowed CPU if and only if it is not one for the mask that the task has already and is outside of |
| `AffinitySuccess.SecondCallerReturnsEarly` | `Linux_for_Tegra/source/kernel/kernel-jammy-src/kernel/sched/core.c:2874-2875` | two callers ask for CPU 1 alone: the second returns success at once, with the task running and queued on CPU 0 and the first one's request pending |
| `AffinitySuccess.SuccessMeansPlaced` | `Linux_for_Tegra/source/kernel/kernel-jammy-src/kernel/sched/core.c:2613-2615` | when a call for a new mask succeeds and the mask was not changed again meanwhile, the task is outside it exactly if it is misplaced with nothing pending, which takes one of the two branches |
| `AffinityProgress.NextStep` | `Linux_for_Tegra/source/kernel/kernel-jammy-src/kernel/sched/core.c:2685-2823` | while a call is not over, some step of a stopper, of the task or of a caller is possible and brings all calls closer to their end, also through nested migrate-disabled regions and when the stopper has to chase the task |
| `AffinityProgress.EveryCallCanReturn` | `Linux_for_Tegra/source/kernel/kernel-jammy-src/kernel/sched/core.c:2609-2684` | from every reachable state some steps, with no further call among them, end with every call returned, those under way with success, and with no pending object left |
| `AffinityProgress.ServeNearer` | `Linux_for_Tegra/source/kernel/kernel-jammy-src/kernel/sched/core.c:2342-2442` | every step of a stopper or a caller uses up part of a bounded number of steps |
| `AffinityProgress.CallsComplete` | `Linux_for_Tegra/source/kernel/kernel-jammy-src/kernel/sched/core.c:2609-2684` | however the steps of stoppers and callers are interleaved, only so many are possible, no call fails, and when none is left every call has returned, or the task runs on the CPU whose stopper has work for it, or is pinned until its `migrate_enable` |
| `AffinityRegions.StaysOnItsCpu` | `Linux_for_Tegra/source/kernel/kernel-jammy-src/kernel/sched/core.c:2176-2191` | while migration is disabled the task stays on its CPU, whatever callers, stoppers, wakeups and the balancer do |
| `AffinityRegions.RegionsNest` | `Linux_for_Tegra/source/kernel/kernel-jammy-src/kernel/sched/core.c:2176-2221` | migration is disabled while there were fewer `migrate_enable` than `migrate_disable` calls, and there are never more |
| `AffinityRegions.FailureChangesNothing` | `Linux_for_Tegra/source/kernel/kernel-jammy-src/kernel/sched/core.c:2873-2893` | a call that fails changes nothing; it fails only with EBUSY, for the task's own call from a region, or with EINVAL, for an empty mask |
| `AffinityRegions.NeverWaitsForItself` | `Linux_for_Tegra/source/kernel/kernel-jammy-src/kernel/sched/core.c:2876-2882` | when a call of the task itself begins to wait, migration is not disabled, so it never waits for its own `migrate_enable` |
| `AffinityRegions.AllowingFreesWaiters` | `Linux_for_Tegra/source/kernel/kernel-jammy-src/kernel/sched/core.c:2691-2716` | a call that allows the task's CPU again leaves no request installed but one with a stop work on its way; the others are about to be completed |
| `AffinityRegions.FlushMissesOnlyLater` | `Linux_for_Tegra/source/kernel/kernel-jammy-src/kernel/sched/core.c:2355-2364` | a stopper past its flush finds the task on its own CPU's wake list only if the wakeup came after the flush |
| `CoreSched.BestWhere` | `Linux_for_Tegra/source/kernel/kernel-jammy-src/kernel/sched/core.c:196-213` | the pick is the highest-ranked task with the property, or there is none |
| `CoreSched.PickTaskMeans` | `Linux_for_Tegra/source/kernel/kernel-jammy-src/kernel/sched/core.c:5752-5799` | what `pick_task` returns: nothing runnable on its sibling outranks both it and max, and if it does not match max's cookie it is no lower than max and may take its place, by `prio_less` as it is, equal deadlines included; and it is no lower than any task of the sibling with the core's cookie, or, on an untagged core, idle only because a best task of the sibling is tagged |
| `CoreSched.TurnKeeps` | `Linux_for_Tegra/source/kernel/kernel-jammy-src/kernel/sched/core.c:5914-5972` | a turn of the sibling loop keeps the selection's invariant and wipes the slate only for a task that supersedes max: in the deadline class, the first in turn that can |
| `CoreSched.TwoSwapsMakeRivals` | `Linux_for_Tegra/source/kernel/kernel-jammy-src/kernel/sched/core.c:5914-5972` | two swaps of max in a row at one deadline, between tagged tasks, need two rivals |
| `CoreSched.WipeRaisesKey` | `Linux_for_Tegra/source/kernel/kernel-jammy-src/kernel/sched/core.c:5943-5952` | without a livelock a wipe raises the key of max, so the comment's linear max-filter holds then |
| `CoreSchedLoop.EndsExactlyWhen` | `Linux_for_Tegra/source/kernel/kernel-jammy-src/kernel/sched/core.c:5909-5972` | for all runqueues: the double loop ends if and only if there is no livelock, a condition on the deadline tasks at the head of the runqueues, their cookies and the order of the turns |
| `CoreSchedLoop.NeverOver` | `Linux_for_Tegra/source/kernel/kernel-jammy-src/kernel/sched/core.c:5914-5972` | with rivals and no stop task, no number of turns brings the loop beyond the deadline class |
| `CoreSchedLoop.TwoDeadlinesGoRound` | `Linux_for_Tegra/source/kernel/kernel-jammy-src/kernel/sched/core.c:117-137` | two tasks with equal deadlines and different cookies on two siblings: three turns lead back to the same state |
| `CoreSched.DoneIsGood` | `Linux_for_Tegra/source/kernel/kernel-jammy-src/kernel/sched/core.c:5909-5972` | at the end everyone has a task of its own or idle, one cookie, the right occupation count and forced-idle flag, nobody outranks the best pick, and no sibling is given less than the best of its tasks that match the core's cookie |
| `CoreSched.MatchingTasksRun` | `Linux_for_Tegra/source/kernel/kernel-jammy-src/kernel/sched/core.c:5787-5799` | with a cookie on the core, a sibling is forced idle if and only if it has tasks and none with that cookie; if it has one it runs the best of them |
| `CoreSched.UntaggedTasksRun` | `Linux_for_Tegra/source/kernel/kernel-jammy-src/kernel/sched/core.c:5772-5781` | on an untagged core a sibling whose best tasks are untagged runs one of them, and one whose best tasks are tagged is forced idle |
| `CoreSched.ChosenTasksMatch` | `Linux_for_Tegra/source/kernel/kernel-jammy-src/kernel/sched/core.c:5999-6013` | any two chosen tasks may share the core, so the L1TF warning never fires |
| `CoreSched.BestTaskRuns` | `Linux_for_Tegra/source/kernel/kernel-jammy-src/kernel/sched/core.c:5909-5972` | the best runnable task of the core is chosen, or one of its rank is |
| `CoreSched.Core.Enqueue` | `Linux_for_Tegra/source/kernel/kernel-jammy-src/kernel/sched/core.c:175-183` | an enqueue invalidates the cached picks |
| `CoreSched.Core.Dequeue` | `Linux_for_Tegra/source/kernel/kernel-jammy-src/kernel/sched/core.c:185-194` | a dequeue invalidates the cached picks |
| `CoreSched.Core.Visit` | `Linux_for_Tegra/source/kernel/kernel-jammy-src/kernel/sched/core.c:5916-5970` | one sibling's turn, in place, does what the specification's turn does |
| `CoreSched.Core.WipeOthers` | `Linux_for_Tegra/source/kernel/kernel-jammy-src/kernel/sched/core.c:5960-5967` | every pick but the new max's is taken back |
| `CoreSched.Core.SelectClass` | `Linux_for_Tegra/source/kernel/kernel-jammy-src/kernel/sched/core.c:5914-5972` | without a livelock the sibling loop with its `goto again` ends and covers its class |
| `CoreSched.Core.Select` | `Linux_for_Tegra/source/kernel/kernel-jammy-src/kernel/sched/core.c:5909-5975` | without a livelock the double loop ends with a good selection: one cookie, nobody outranked, and no sibling given less than its best matching task |
| `CoreSched.Core.PickAlone` | `Linux_for_Tegra/source/kernel/kernel-jammy-src/kernel/sched/core.c:5876-5898` | the highest class with a task picks it: nothing on this CPU outranks it |
| `CoreSched.Core.Reschedule` | `Linux_for_Tegra/source/kernel/kernel-jammy-src/kernel/sched/core.c:5990-6023` | siblings that run their pick already forget it, the others keep it |
| `CoreSched.Core.Publish` | `Linux_for_Tegra/source/kernel/kernel-jammy-src/kernel/sched/core.c:5974-6026` | the selection becomes the one the sequence numbers vouch for |
| `CoreSched.Core.TakeCached` | `Linux_for_Tegra/source/kernel/kernel-jammy-src/kernel/sched/core.c:5838-5851` | the cached pick is the selected one and is used once |
| `CoreSched.Core.PickCoreWide` | `Linux_for_Tegra/source/kernel/kernel-jammy-src/kernel/sched/core.c:5900-6026` | a new selection on the runqueues as they are, of which this CPU takes its part |
| `CoreSched.Core.PickAfresh` | `Linux_for_Tegra/source/kernel/kernel-jammy-src/kernel/sched/core.c:5855-6030` | without the fast path: alone if nothing on the core is tagged and this CPU's pick is not, else core-wide |
| `CoreSched.Core.PickNextTask` | `Linux_for_Tegra/source/kernel/kernel-jammy-src/kernel/sched/core.c:5804-6030` | the fast path is taken exactly by its test and returns this CPU's part of the last selection, not used before, with no enqueue, dequeue or pick since; otherwise the pick is alone and untagged, or core-wide and good |
| `Uclamp.DeltaIsClosest` | `Linux_for_Tegra/source/kernel/kernel-jammy-src/kernel/sched/core.c:1333-1333` | the width of a bucket is the whole number closest to the scale divided by the number of buckets |
| `Uclamp.SameBucket` | `Linux_for_Tegra/source/kernel/kernel-jammy-src/kernel/sched/core.c:1333-1341` | two clamps in one bucket differ by less than its width |
| `Uclamp.ClampCoversTightly` | `Linux_for_Tegra/source/kernel/kernel-jammy-src/kernel/sched/core.c:1384-1404` | the runqueue's clamp covers every active clamp and exceeds the largest by less than the width of their common bucket |
| `Uclamp.ClampIsExact` | `Linux_for_Tegra/source/kernel/kernel-jammy-src/kernel/sched/core.c:1530-1558` | it is exact when one clamp was seen in the top bucket since it was last empty |
| `Uclamp.BucketIsExact` | `Linux_for_Tegra/source/kernel/kernel-jammy-src/kernel/sched/core.c:1530-1534` | a bucket whose tasks agree shows their clamp if and only if nobody counted in it since it was last empty asked for more |
| `Uclamp.BoostOutlivesItsTask` | `Linux_for_Tegra/source/kernel/kernel-jammy-src/kernel/sched/core.c:1530-1534` | a concrete bucket that shows more than its only task asks for: the comment holds only under the condition above |
| `Uclamp.NoWarnings` | `Linux_for_Tegra/source/kernel/kernel-jammy-src/kernel/sched/core.c:1608-1632` | a task's bucket is never found empty, nor a bucket in use above the runqueue's clamp |
| `Uclamp.ClampRq.CountIn` | `Linux_for_Tegra/source/kernel/kernel-jammy-src/kernel/sched/core.c:1548-1560` | the bucket's count and maximum after an arrival |
| `Uclamp.ClampRq.Inc` | `Linux_for_Tegra/source/kernel/kernel-jammy-src/kernel/sched/core.c:1535-1563` | an arrival keeps counts, maxima and the runqueue's clamp; after idle the clamp is the arrival's |
| `Uclamp.ClampRq.MaxValue` | `Linux_for_Tegra/source/kernel/kernel-jammy-src/kernel/sched/core.c:1385-1404` | the downward scan finds the highest bucket in use |
| `Uclamp.ClampRq.Dec` | `Linux_for_Tegra/source/kernel/kernel-jammy-src/kernel/sched/core.c:1573-1637` | a departure keeps them; an inactive task changes nothing; the last one retains its max clamp and asks for the idle flag |
| `Uclamp.ClampRq.Reinc` | `Linux_for_Tegra/source/kernel/kernel-jammy-src/kernel/sched/core.c:1683-1698` | a change of clamp through zero tasks leaves the idle flag as it was |
| `Uclamp.Rq.Inc` | `Linux_for_Tegra/source/kernel/kernel-jammy-src/kernel/sched/core.c:1639-1661` | both clamps count the same tasks, the idle flag is cleared, and nothing happens while the feature is unused |
| `Uclamp.Rq.Dec` | `Linux_for_Tegra/source/kernel/kernel-jammy-src/kernel/sched/core.c:1663-1681` | the idle flag is set exactly when the last active task leaves |
| `Uclamp.Rq.Reinc` | `Linux_for_Tegra/source/kernel/kernel-jammy-src/kernel/sched/core.c:1700-1725` | the flag is unchanged and both clamps follow the task's new values |
| `Uclamp.RunqueueClamps` | `Linux_for_Tegra/source/kernel/kernel-jammy-src/kernel/sched/core.c:1535-1698` | after any sequence of operations with an active task both clamps are tight upper bounds |
| `UtilEff.SettledIsRecomputed` | `Linux_for_Tegra/source/kernel/kernel-jammy-src/kernel/sched/core.c:10189-10235` | a settled hierarchy is the full recomputation from the requests, so there is only one |
| `UtilEff.NeverAboveAncestor` | `Linux_for_Tegra/source/kernel/kernel-jammy-src/kernel/sched/core.c:10210-10221` | no minimum above its maximum and no group above a group over it |
| `UtilEff.CappedIsLargest` | `Linux_for_Tegra/source/kernel/kernel-jammy-src/kernel/sched/core.c:10205-10217` | the effective clamp is at most the request and the parent's, its minimum at most its maximum, and it is the largest such pair: both directions, so nothing else is |
| `UtilEff.SettledIsLargest` | `Linux_for_Tegra/source/kernel/kernel-jammy-src/kernel/sched/core.c:10189-10235` | a hierarchy is settled if and only if every group has the largest clamp that its request and its parent allow |
| `UtilEff.ChangedExactly` | `Linux_for_Tegra/source/kernel/kernel-jammy-src/kernel/sched/core.c:10223-10238` | membership in the list of changed groups, both ways |
| `UtilEff.Groups.UpdateEff` | `Linux_for_Tegra/source/kernel/kernel-jammy-src/kernel/sched/core.c:10189-10240` | the pruned walk settles the whole hierarchy when only its top was not, touches nothing outside, and updates the tasks of exactly the groups that changed |
| `UtilEff.Groups.Write` | `Linux_for_Tegra/source/kernel/kernel-jammy-src/kernel/sched/core.c:10280-10314` | after any write every group has the largest clamp its request and its parent allow, which is its fully recomputed one |
| `TgWalk.TourVisits` | `Linux_for_Tegra/source/kernel/kernel-jammy-src/kernel/sched/core.c:1203-1209` | the recursive search enters and leaves exactly the groups at and below its start |
| `TgWalk.TourOnce` | `Linux_for_Tegra/source/kernel/kernel-jammy-src/kernel/sched/core.c:1203-1209` | each of them once |
| `TgWalk.ToursNest` | `Linux_for_Tegra/source/kernel/kernel-jammy-src/kernel/sched/core.c:1203-1209` | a group's tour is one piece, from its `down` to its `up`, strictly inside the tour of every group above it |
| `TgWalk.Walk` | `Linux_for_Tegra/source/kernel/kernel-jammy-src/kernel/sched/core.c:1210-1239` | the stackless walk visits what the recursive search visits, in that order, and stops at and returns the first result other than 0 |
| `TgWalk.RunCalls` | `Linux_for_Tegra/source/kernel/kernel-jammy-src/kernel/sched/core.c:1210-1239` | for any visitors: the calls made are the events in order, all of them or up to the first that returns something other than 0 |
| `CfsBandwidth.RatioRounds` | `Linux_for_Tegra/source/kernel/kernel-jammy-src/kernel/sched/core.c:4533-4547` | the ratio is the quota over the period in units of 2^-20, rounded down |
| `CfsBandwidth.SharesCompare` | `Linux_for_Tegra/source/kernel/kernel-jammy-src/kernel/sched/core.c:4533-4547` | one share is at most another if and only if every multiple of 2^-20 of a CPU that the first limit reaches the second reaches too |
| `CfsBandwidth.RatioFits` | `Linux_for_Tegra/source/kernel/kernel-jammy-src/kernel/sched/core.c:4533-4547` | within the accepted bounds neither the shifted quota nor the ratio overflows |
| `CfsBandwidth.FeasibleMeans` | `Linux_for_Tegra/source/kernel/kernel-jammy-src/kernel/sched/core.c:10634-10649` | comparing with the nearest limited group above is the same as comparing with every limited group above |
| `CfsBandwidth.FeasibleLimits` | `Linux_for_Tegra/source/kernel/kernel-jammy-src/kernel/sched/core.c:10622-10649` | feasibility in quotas and periods: no limited group reaches a multiple of 2^-20 of a CPU that a limited group above it does not reach |
| `CfsBandwidth.FeasibleUpToAUnit` | `Linux_for_Tegra/source/kernel/kernel-jammy-src/kernel/sched/core.c:10622-10649` | by cross-multiplied microseconds: limits of which none is larger than one above it are feasible, and one that is larger by 2^-20 of a CPU or more makes them infeasible |
| `CfsBandwidth.TourWalks` | `Linux_for_Tegra/source/kernel/kernel-jammy-src/kernel/sched/core.c:10622-10653` | a walk over a subtree accepts exactly if every group in it fits, and leaves their ceilings as hierarchical quotas |
| `CfsBandwidth.WalkDecides` | `Linux_for_Tegra/source/kernel/kernel-jammy-src/kernel/sched/core.c:10655-10674` | the walk from the root accepts exactly the feasible trees |
| `CfsBandwidth.Bandwidth.Schedulable` | `Linux_for_Tegra/source/kernel/kernel-jammy-src/kernel/sched/core.c:10655-10674` | the answer for a limit about to be set, by the shares and by the quotas and periods themselves |
| `CfsBandwidth.Bandwidth.SetBandwidth` | `Linux_for_Tegra/source/kernel/kernel-jammy-src/kernel/sched/core.c:10392-10478` | a limit is set exactly if it is acceptable by itself and no limited group then reaches more of a CPU than a limited group above it; limits none of which is larger than one above it are accepted, one larger by 2^-20 or more is refused; a rejected call leaves every quota, period and burst as it was |
| `CfsBandwidth.Bandwidth.SetQuota` | `Linux_for_Tegra/source/kernel/kernel-jammy-src/kernel/sched/core.c:10480-10507` | the same in microseconds, and reading the quota back returns what was written |
| `CfsBandwidth.Bandwidth.SetPeriod` | `Linux_for_Tegra/source/kernel/kernel-jammy-src/kernel/sched/core.c:10509-10520` | the same for the period |
| `CfsBandwidth.Bandwidth.SetBurst` | `Linux_for_Tegra/source/kernel/kernel-jammy-src/kernel/sched/core.c:10533-10544` | the same for the burst |
| `Softirq.VectorsExactly` | `Linux_for_Tegra/source/kernel/kernel-jammy-src/kernel/softirq.c:550-575` | the loop over a shifted mask reaches exactly the bits that are set |
| `Softirq.VectorsAscend` | `Linux_for_Tegra/source/kernel/kernel-jammy-src/kernel/softirq.c:550-575` | in ascending order, each once |
| `Softirq.PassRunsSnapshot` | `Linux_for_Tegra/source/kernel/kernel-jammy-src/kernel/softirq.c:533-575` | a pass starts exactly the handlers of its snapshot, once each, in ascending order, whatever is raised meanwhile |
| `Softirq.NothingLost` | `Linux_for_Tegra/source/kernel/kernel-jammy-src/kernel/softirq.c:504-598` | a vector raised and not started is in the word or the snapshot, and every start used up a raise of its own |
| `Softirq.WaitingMeansWoken` | `Linux_for_Tegra/source/kernel/kernel-jammy-src/kernel/softirq.c:581-592` | what waits when the function returns is in the word and ksoftirqd has been woken |
| `Softirq.WakesExactlyForWork` | `Linux_for_Tegra/source/kernel/kernel-jammy-src/kernel/softirq.c:577-592` | a call wakes ksoftirqd if and only if it leaves vectors pending |
| `Softirq.PassesBounded` | `Linux_for_Tegra/source/kernel/kernel-jammy-src/kernel/softirq.c:581-590` | at most ten passes; a deferral ends the call after the pass at hand |
| `Softirq.LeavesWorkOnlyFor` | `Linux_for_Tegra/source/kernel/kernel-jammy-src/kernel/softirq.c:577-592` | vectors stay pending only for a deferral, the end of the time slice, a needed reschedule or after the last pass |
| `Softirq.FurtherPasses` | `Linux_for_Tegra/source/kernel/kernel-jammy-src/kernel/softirq.c:581-589` | after its first pass a call begins another only at a moment when the word is not 0, the time is not up and no reschedule is needed |
| `Softirq.OnePassWhenDue` | `Linux_for_Tegra/source/kernel/kernel-jammy-src/kernel/softirq.c:585-589` | when the time is up or a reschedule is needed at every moment, every call makes exactly one pass |
| `Softirq.NetRxOnlyInKsoftirqd` | `Linux_for_Tegra/source/kernel/kernel-jammy-src/kernel/softirq.c:531-545` | with `ksoftirqd_test` set to 1 a call made while ksoftirqd is not the current task does not handle NET_RX |
| `Softirq.DeferralSameHandlers` | `Linux_for_Tegra/source/kernel/kernel-jammy-src/kernel/softirq.c:531-545` | when nothing is raised meanwhile, an interrupt's call followed by ksoftirqd handles what the stock code handles, each vector once, NET_RX last |
| `Softirq.Cpu.RaiseSoftirq` | `Linux_for_Tegra/source/kernel/kernel-jammy-src/kernel/softirq.c:679-696` | the bit is set, the vector waits, and ksoftirqd is woken outside of interrupts |
| `Softirq.Cpu.HandleMask` | `Linux_for_Tegra/source/kernel/kernel-jammy-src/kernel/softirq.c:548-575` | the loop with pointer and shift does what its specification does |
| `Softirq.Cpu.OnePass` | `Linux_for_Tegra/source/kernel/kernel-jammy-src/kernel/softirq.c:525-579` | one pass with the deferral of NET_RX, in place, is the specified one |
| `Softirq.Cpu.DoSoftirqs` | `Linux_for_Tegra/source/kernel/kernel-jammy-src/kernel/softirq.c:504-598` | the whole function with its restarts, in place, does what its specification does, keeps the accounting, and goes on only while there is something to do, the time is not up and no reschedule is needed |
| `Softirq.KsoftirqdServes` | `Linux_for_Tegra/source/kernel/kernel-jammy-src/kernel/softirq.c:922-937` | a run of ksoftirqd uses up its wakeup and first starts every vector that was pending, NET_RX among them, in ascending order; it has been woken again if and only if vectors are left, and all that waits is among them |
| `Softirq.Cpu.RunKsoftirqds` | `Linux_for_Tegra/source/kernel/kernel-jammy-src/kernel/softirq.c:922-937` | so does the method, in place: what was pending is started, and ksoftirqd is woken again exactly for what is left |
| `Tasklets.TaskletHead.Append` | `Linux_for_Tegra/source/kernel/kernel-jammy-src/kernel/softirq.c:728-744` | the tail slot appends at the end and keeps the list a distinct chain |
| `Tasklets.TaskletHead.Detach` | `Linux_for_Tegra/source/kernel/kernel-jammy-src/kernel/softirq.c:779-783` | the whole list is taken and an empty one left |
| `Tasklets.TaskletHead.TakeOver` | `Linux_for_Tegra/source/kernel/kernel-jammy-src/kernel/softirq.c:939-963` | the dead CPU's list is concatenated behind this one's and left empty |
| `Tasklets.TaskletHead.HandleOne` | `Linux_for_Tegra/source/kernel/kernel-jammy-src/kernel/softirq.c:785-810` | one tasklet runs or is queued again, and the detached rest stays a chain |
| `Tasklets.TaskletHead.Action` | `Linux_for_Tegra/source/kernel/kernel-jammy-src/kernel/softirq.c:773-812` | the ready tasklets run in order and the others are queued again in order, among those that callbacks and interrupts schedule on the list at any time meanwhile, also when these are tasklets that have just run; when none arrive, exactly the others are left, in order |
| `Tasklets.QueuedMembers` | `Linux_for_Tegra/source/kernel/kernel-jammy-src/kernel/softirq.c:773-812` | afterwards exactly the tasklets that could not run and those that arrived are queued |
| `Tasklets.FilterIn` | `Linux_for_Tegra/source/kernel/kernel-jammy-src/kernel/softirq.c:785-810` | each tasklet is among those that ran or those queued again |
| `TaskletProtocol.StepInv` | `Linux_for_Tegra/source/kernel/kernel-jammy-src/kernel/softirq.c:728-812` | every step on any CPU keeps the places of the tasklets and the meaning of the SCHED and RUN bits |
| `TaskletProtocol.ExactlyOneSpot` | `Linux_for_Tegra/source/kernel/kernel-jammy-src/kernel/softirq.c:728-812` | a tasklet has its SCHED bit set exactly if it is somewhere, and is never in two places |
| `TaskletProtocol.RunsOnOneCpu` | `Linux_for_Tegra/source/kernel/kernel-jammy-src/kernel/softirq.c:790-798` | no tasklet runs on two CPUs at once |
| `TaskletProtocol.LeavesOnlyByRunning` | `Linux_for_Tegra/source/kernel/kernel-jammy-src/kernel/softirq.c:760-771` | a scheduled tasklet stays so until its callback starts, and the warning about a clear SCHED bit never fires |
| `TaskletProtocol.StartsOnlyIfEnabled` | `Linux_for_Tegra/source/kernel/kernel-jammy-src/kernel/softirq.c:790-798` | a callback starts only if its tasklet was enabled when it was checked under the RUN bit, which the same CPU has held since |
| `TaskletProtocol.RequeuedOnlyIfBusy` | `Linux_for_Tegra/source/kernel/kernel-jammy-src/kernel/softirq.c:790-810` | a tasklet taken from a list goes back without running only if it had the RUN bit of another CPU, or was disabled when checked |
| `TaskletProtocol.NeverStranded` | `Linux_for_Tegra/source/kernel/kernel-jammy-src/kernel/softirq.c:801-810` | the softirq that processes a nonempty list is pending or about to start, also after a takeover |
| `TimerService.ResourceEvent.LowerBound` | `ros2_humble/src/eProsima/Fast-DDS/src/cpp/rtps/resources/ResourceEvent.cpp:249-249` | the binary search splits the sorted vector at the key |
| `TimerService.ResourceEvent.Locate` | `ros2_humble/src/eProsima/Fast-DDS/src/cpp/rtps/resources/ResourceEvent.cpp:249-250` | binary search and find never miss an active timer |
| `TimerService.ResourceEvent.RegisterTimer` | `ros2_humble/src/eProsima/Fast-DDS/src/cpp/rtps/resources/ResourceEvent.cpp:161-171` | a timer is pending once |
| `TimerService.ResourceEvent.UnregisterTimer` | `ros2_humble/src/eProsima/Fast-DDS/src/cpp/rtps/resources/ResourceEvent.cpp:76-127` | the timer leaves both vectors, the rest stays in order, and the firing loop is told if it was active |
| `TimerService.ResourceEvent.UpdateOne` | `ros2_humble/src/eProsima/Fast-DDS/src/cpp/rtps/resources/ResourceEvent.cpp:246-267` | a pending timer leaves its place, gets its new time and is put back at the lower bound of that time, or stays out; the order is kept |
| `TimerService.ResourceEvent.ProcessPending` | `ros2_humble/src/eProsima/Fast-DDS/src/cpp/rtps/resources/ResourceEvent.cpp:244-269` | all pending timers have moved, in order, the others are untouched |
| `TimerService.ResourceEvent.RunCallback` | `ros2_humble/src/eProsima/Fast-DDS/src/cpp/rtps/resources/ResourceEvent.cpp:276-276` | what a callback's own calls do to both vectors |
| `TimerService.ResourceEvent.TriggerActive` | `ros2_humble/src/eProsima/Fast-DDS/src/cpp/rtps/resources/ResourceEvent.cpp:271-290` | the loop over a vector that the callbacks change fires exactly the first timers up to one that is not due or one whose callback unregisters an active timer |
| `TimerService.ResourceEvent.SortAndCut` | `ros2_humble/src/eProsima/Fast-DDS/src/cpp/rtps/resources/ResourceEvent.cpp:293-307` | the order is restored and exactly the timers before the cancel time remain |
| `TimerService.AllDueFired` | `ros2_humble/src/eProsima/Fast-DDS/src/cpp/rtps/resources/ResourceEvent.cpp:271-290` | all due timers are fired if and only if no due one comes behind a timer whose callback unregisters an active timer |
| `TimerService.ResourceEvent.DoTimerActions` | `ros2_humble/src/eProsima/Fast-DDS/src/cpp/rtps/resources/ResourceEvent.cpp:237-308` | the vector is sorted and free of duplicates again; what is fired was due, in order, once each; everything due is fired exactly under that condition on the state before the call; who remains, when each is due, and which timers are pending |
| `TimerService.DueTimerCanWait` | `ros2_humble/src/eProsima/Fast-DDS/src/cpp/rtps/resources/ResourceEvent.cpp:271-290` | two timers are due and the first unregisters itself: the second is not fired |
| `TimerService.FarTimerIsDropped` | `ros2_humble/src/eProsima/Fast-DDS/src/cpp/rtps/resources/ResourceEvent.cpp:293-307` | one timer fires, another is due in 24 hours and nobody cancels it: it is active no more |
| `TimerService.RequestsKept` | `ros2_humble/src/eProsima/Fast-DDS/src/cpp/rtps/resources/ResourceEvent.cpp:76-171` | whatever the callbacks that ran register and unregister: a timer is pending afterwards if and only if the last call about it asked for it |
| `TimerService.AllRequestsKept` | `ros2_humble/src/eProsima/Fast-DDS/src/cpp/rtps/resources/ResourceEvent.cpp:129-171` | when those callbacks unregister nothing, exactly the timers that one of them asked for are pending |
| `TimerService.ResourceEvent.NextWakeup` | `ros2_humble/src/eProsima/Fast-DDS/src/cpp/rtps/resources/ResourceEvent.cpp:197-209` | the thread wakes for the earliest active timer, or in a second if there is none, or in ten microseconds if that time has passed |
| `Chains.GeneratePatterns` | `prio_ros2/evaluation_fig11_fig12_fig13/make_chain.py:15-27` | the recursion with its loop produces the specified list |
| `Chains.PatternsExactly` | `prio_ros2/evaluation_fig11_fig12_fig13/make_chain.py:15-27` | a placement is listed exactly if it goes on from the given prefix with the given number of changes |
| `Chains.AllPatterns` | `prio_ros2/evaluation_fig11_fig12_fig13/make_chain.py:15-27` | for every length and number of edges: exactly the placements that begin on machine a with that many edges |
| `Chains.HowMany` | `prio_ros2/evaluation_fig11_fig12_fig13/make_chain.py:15-27` | without repetition, and C(n-1, e) of them for n of at least 1 |
| `Chains.BothMachines` | `prio_ros2/evaluation_fig11_fig12_fig13/make_chain.py:73-84` | with an edge both machines take part |
| `Chains.UUniFast` | `prio_ros2/evaluation_fig11_fig12_fig13/make_chain.py:3-13` | each utilization is what its draw takes from what the earlier ones left; none is negative and they add up to the total |
| `PrioScript.MakeScripts` | `prio_ros2/evaluation_fig11_fig12_fig13/make_chain.py:41-84` | the loop over the chains writes both machines' scripts |
| `PrioScript.ScriptExactly` | `prio_ros2/evaluation_fig11_fig12_fig13/make_chain.py:73-84` | a script has the commands placed on its machine, each exactly once, and no others |
| `PrioScript.Reorder` | `prio_ros2/evaluation_fig11_fig12_fig13/make_script.py:57-77` | the commands trade places into order, by callback downwards and chain upwards, and every other line stays |
| `PrioScript.LaterCallbacksFirst` | `prio_ros2/evaluation_fig11_fig12_fig13/make_script.py:69-77` | in a reordered script the command of a later callback stands above that of an earlier one, and equally late ones stand in the order of their chains |
| `PrioScript.SortRuns` | `prio_ros2/evaluation_fig11_fig12_fig13/make_script.py:71-90` | for both sort keys of the tool: the sorted commands are the same ones, in order |
| `PrioScript.UniquePeriods` | `prio_ros2/evaluation_fig11_fig12_fig13/make_script.py:92-93` | exactly the periods of the script, ascending |
| `PrioScript.RankPeriods` | `prio_ros2/evaluation_fig11_fig12_fig13/make_script.py:94-94` | 90 minus the rank |
| `PrioScript.AssignPriorities` | `prio_ros2/evaluation_fig11_fig12_fig13/make_script.py:80-99` | every command gets the rank of its period in this script; they are listed by period and, within one, by the order of the path strings |
| `PrioScript.Prioritise` | `prio_ros2/evaluation_fig11_fig12_fig13/make_script.py:57-99` | both steps on one script |
| `PrioScript.EveryCallbackAssigned` | `prio_ros2/evaluation_fig11_fig12_fig13/make_script.py:95-97` | no callback of the machine goes without |
| `PrioScript.PriorityInScript` | `prio_ros2/evaluation_fig11_fig12_fig13/make_script.py:90-99` | the priority counts the earlier chains the script names; it is the generator's 90 - j if and only if all of them are named |
| `PrioScript.MachinesAgree` | `prio_ros2/evaluation_fig11_fig12_fig13/make_script.py:90-99` | for chains of one length with the same number of edges, as one call of the generator makes them, and any such length and number: each machine's script gives every callback it names the generator's 90 - j |
| `PrioScript.ListedChainByChain` | `prio_ros2/evaluation_fig11_fig12_fig13/make_script.py:87-99` | and lists the assignments chain by chain, in the generator's order |

## Left out

- Weak memory: all models are sequentially consistent; barriers and their pairing are not modelled.
- Lockdep, tracing, statistics, PSI, load tracking and clocks.
- CPU hotplug, signals in `__schedule`, PREEMPT_RT, NUMA swapping, `wait_task_inactive` and freezing.
- In `Wakeup`, one kernel task only, and the choice of a CPU by `select_task_rq` is arbitrary.
- In `Affinity`, `push_cpu_stop`, deadline tasks and user-defined masks; the pending object is named by its owner.
- `cfs_prio_less` is defined in fair.c and not modelled: ranks are a fixed total preorder that agrees with the class order.
- The wrap-around of `dl_time_before`, which is in a header that is not part of this model: deadlines are compared as numbers.
- CoreSched.Core.Select: says nothing when `CoreSched.Livelock` holds, for then the call does not return; so do `SelectClass`, `PickCoreWide`, `PickAfresh` and `PickNextTask` off the fast path.
- The width of the core-scheduling sequence numbers is declared in a header that is not part of this model; they are unbounded here.
- The red-black tree behind `sched_core_find` is a sequence searched for the best match; vruntime updates and `resched_curr` are left out, as is the branch for offline CPUs.
- The effective clamp of a single kernel task (`uclamp_eff_get`), including the RT default, is an input; no claim is made that a task's own minimum is at most its maximum.
- Bucket numbers of task groups, and `uclamp_update_active_tasks` beyond which groups it is called for.
- The cgroup v2 branch of `tg_cfs_schedulable_down`, throttling, timers and the usage count; `hierarchical_quota` is not claimed to be restored by a rejected call.
- `RUNTIME_INF` is a separate value; `MAX_BW` and `BW_SHIFT` are declared in a header that is not part of this model and are taken to be 2^44 - 1 and 20, as the comment at line 10387 of core.c implies.
- Early boot without ksoftirqd threads; `local_bh_enable` and `invoke_softirq` as callers; preempt-count repair.
- `tasklet_kill`, and the test of the SCHED bit in `tasklet_schedule`, which is in a header: arming is one atomic step.
- Tasklets.TaskletHead.Action: that an arriving tasklet is in no list is its precondition; that the SCHED bit guarantees it across CPUs is `TaskletProtocol.ExactlyOneSpot`, in which lists are sequences without pointers.
- Softirq.NetRxOnlyInKsoftirqd: ksoftirqd is recognised by `current`, so an interrupt exit taken while it is the current task counts as ksoftirqd and handles NET_RX in interrupt context; `ksoftirqd_test` is constant during a call, though it is a writable module parameter.
- WakeupEnds.WakeupCompletes: a CPU that looks for its next task does not drop its runqueue lock again; how often the balancer does so is not modelled.
- AffinityProgress.EveryCallCanReturn: says that the way on exists; `CallsComplete` covers every interleaving of stoppers and callers, but not that the scheduler preempts the task, or that it is woken if it sleeps in a migrate-disabled region.
- `TimedEventImpl` is not part of this model: `update` and `trigger` are inputs that give a timer's new time and the calls its callback makes; calls of `notify` by other threads while timers fire are folded into those of the timer fired last.
- The strict real-time variant of `notify`, the condition variables and stopping the thread.
- TimerService.ResourceEvent.SortTimers: any sort would do; the order of timers due at the same time is not claimed.
- Random draws are inputs; floating-point rounding of utilizations is not modelled, they are reals.
- Parsing of command lines, file names and file access; the text of headers and of the final commands.
- `r8169` and `netdevice` hooks, the shared-memory transports, the executor, the ROS nodes and the plotting scripts.
