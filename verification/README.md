# A verified model of the start-time fair queueing scheduler

The scheduler keeps one run queue for each CPU. Threads of the pss class, and groups of them,
wait in a red-black tree ordered by wrapping virtual time; a group is an entity that owns a queue
of its own. Threads of the realtime class go through the kernel's run queue. The project models
that machine, the arithmetic and the clock it depends on, and two smaller structures that live
beside it, a two-level priority list and the directory tree of sgfs.

`dafny verify dfyconfig.toml` checks everything.

## Modules

| file | what it is about |
|---|---|
| RbShape, RbTree | the red-black tree with parent links (tree.h) as pss.c uses it: nodes on the heap, rotated, recoloured, inserted and unlinked in place |
| SfqTimeline | the sequence that stands for the timeline in the scheduler model is what that tree holds |
| WrapTime | 64-bit virtual time: when wrapping comparisons are those of integers, and when they are an order at all |
| FixedPoint, Slices, CpuLoad | scaling by weight, wall-clock slices, decayed load averages |
| SchedState, SchedOps, SchedSteps | the state of one CPU's scheduler and what every operation makes of it |
| SchedBooks, SchedMembers, SchedWalks, SchedTimes, SchedClass, SchedPick | loads and counts, membership, candidates, times and picking, level by level up the hierarchy |
| SchedRoles, SchedEntry, SchedChange | who runs, waits and sleeps across the two classes, for every entry point |
| SchedRun, SchedHistory, SchedLaws, SchedTally, SchedOwed, SchedSlices | whole runs: the invariant, monotone time, conservation of execution time, the exact condition of the lag bound, slices of the joined members |
| SchedTable | a plain table of the threads that every step refines |
| SchedEarned | who earns how much execution time, in every step and over every run |
| SchedPaths, SchedEffects, SchedCandidates, SchedDeeds, SchedTurns | what each operation amounts to: how much is charged, where vtime and the entities go, who becomes a candidate, who is chosen |
| RunQueue | the same run queue as an object updated in place, with the source's loops; its entry points are the steps of a run |
| Fairness | the fairness bound of one queue |
| Clock | the per-CPU clocks and their compare-and-set loops, interleaved step by step |
| PrioList | the two-level intrusive list, on the heap |
| Sgfs | nodes, links and reference counts of the directory tree, on the heap |

Entities and queues of the scheduler are numbered; NIL is -1. A state groups the fields of
struct sched_entity, struct sfq and struct rq by what they are about, so that an operation that
does not touch a group visibly leaves it alone. `SchedState.Sane` holds only lengths and index
ranges, what pointers give for free. `SchedRoles.Inv` is the invariant between two steps. The field
`joined` of the source is kept in two places, `Members.joined` for entities of the pss class and
`Threads.rtJoined` for realtime threads. `ok` turns false when a KASSERT or MPASS of the source
fails, and when vtime is added to a vruntime that includes it already or subtracted from one that
does not. Four fields are there for the proof only: `level` and `depth` bound the hierarchy,
`absolute` says whether a vruntime includes its queue's vtime, `charged` sums what a queue has ever
charged.

The lag bound (`SchedRoles.Near`) says that no joined entity is more than the threshold behind its
queue's vtime and no relative vruntime more than the threshold below zero. It does not always
survive: `enqueue_entity` adds vtime before it charges the current entity (pss.c:1109-1111). A step
is timely (`SchedRun.Timely`) when charging the current entity of the queue does not take vtime
further than the arriving thread's vruntime and the threshold cover; the bound survives exactly the
timely steps, and `SchedOwed` shows a run from the first state that breaks it.

## Assumptions

- The virtual times of one queue lie in a window of less than half the 64-bit range. Virtual times
  are unbounded integers elsewhere; `WrapTime` says exactly when the words behave like them.
- Weights are positive, and `set_shares` gets positive shares: with 0 the source stores 1024 and
  then overwrites it with 0 (pss.c:1525-1536).
- A change of class is made on a thread that has been started: on another one pss_switched_to falls
  through to the preemption check (pss.c:1404-1412).
- A thread is started or woken only while it sleeps, and the thread that forks is the running one.
- The pick from the kernel's run queue returns a thread on it if there is one.
- The build is the uniprocessor one: pss.c refuses SMP (pss.c:39-41).
- sgfs keeps vnodes on directories only; the dot entries never get one.

## Where the code and its comments disagree

The model follows the code.

- `set_shares` is said to update the group's weight at once. The walk starts at the group entity's
  queue, so it updates the groups around the group, not the group itself (pss.c:1541-1543);
  `SchedTurns.SetSharesWeighs`.
- `last` is said to be the preempted thread. The code passes the waking entity (pss.c:1298-1304).

## Model

| member | source | states |
|---|---|---|
| RbTree.Timeline.Remove | tree.h:527-592 | any node of a red-black tree is taken out, the two-child case by moving the successor node itself into the old place; a red-black tree with consistent parent links is left, whose in-order sequence is the old one without exactly that node, and the fix-up loop ends |
| RbTree.Timeline.Dequeue | pss.c:707-716 | exactly that entity leaves the timeline; tree, parent links, cached leftmost and SEF_ONSFQ stay right |
| RbTree.Timeline.Enqueue | pss.c:665-702 | the entity is placed after every entity of equal or smaller vruntime; tree, parent links, cached leftmost and SEF_ONSFQ stay right |
| RbShape.HeightBound | tree.h:58-59 | a red-black tree of n entities has height h with 2^h <= (n + 1)^2, that is h <= 2 lg(n + 1) |
| RbTree.Timeline.Next | tree.h:665-684 | the in-order successor of any node, or null for the last one |
| SchedRun.StepKeeps | sched.c:474-1004 | every step of every entry point keeps the whole invariant, so no assertion of the source fails and no vtime is added or subtracted twice; it keeps the lag bound if and only if the step is timely |
| SchedRun.RunKeeps | sched.c:474-1004 | the same after every run of steps |
| SchedRun.RunNear | pss.c:1101-1129 | from a state within the lag bound a run stays within it throughout if and only if all its arrivals are timely |
| SchedRun.BootKeeps | pss.c:1564-1568 | the first state, with threads created and none started, satisfies the invariant and the lag bound |
| SchedRun.HierarchyHolds | pss.c:441-457 | load.weight and nr_running of every queue are the sum and the count over its joined entities, rq->load is the root's; a group is joined exactly when its queue is not empty; a joined entity is on its timeline or current, never both |
| SchedRun.OneChain | pss.c:1087-1099 | an entity is current in its queue exactly when it is the running pss thread or a group above it: the curr pointers form one chain from the root |
| SchedRun.CurrentAbove | pss.c:1011-1023 | every current entity lies on the way from the running thread to the root |
| SchedRun.ClassesHold | rt.c:270-347 | a realtime thread is on no timeline and joined exactly when on the run queue or rt_curr; a pss thread on the run queue is on its timeline too; rt_curr and the root's curr are never both set; nr_running counts the joined threads; the class of a thread is that of its td_pri_class |
| SchedRun.NormalHolds | pss.c:1109-1114 | a vruntime includes its queue's vtime exactly for groups and for started threads of the pss class |
| SchedLaws.StepOnward | pss.c:750-777 | in no step does the clock or the vtime of any queue go back |
| SchedLaws.RunOnward | pss.c:750-777 | nor over any run |
| SchedTally.StepTallied | pss.c:852-884 | in every step, forks and moves included, each queue charges exactly the execution time that its members gain |
| SchedTally.GroupEarnsItsMembers | sched.c:491-497 | over every run the execution time a group entity gains, time not yet charged included, is what the members of its queue gain while they are its members |
| SchedTally.MoveTallied | sched.c:1434-1461 | in a group move each queue charges exactly what the entities that were its members before gain; the thread on its way gains nothing in the new queue |
| SchedTally.ForkTallied | pss.c:1356-1378 | in a fork each queue charges exactly what its members gain |
| SchedEarned.StepEarns | pss.c:852-884 | in every step the running pss thread and all groups above it earn exactly the time that passes, time not yet charged included, and no other entity earns anything; when the running thread itself is reniced or moved, the time between the two clock readings is nobody's |
| SchedEarned.RunEarns | pss.c:852-884 | over every run an entity earns exactly the time for which it, or a thread below it, has run |
| SchedTable.StepTells | sched.c:474-1004 | every step refines a table of the threads without timelines and virtual times: class, priority, state, place on the run queue, group, weight, shares and clock become exactly what the table says, and all other threads keep theirs; so sched_nice stores the weight in all its three cases |
| SchedDeeds.SwitchRight | sched.c:904-922 | when a thread yields, sleeps or exits, the processor goes to a thread on the run queue if one is there, otherwise to the pss thread that is the choice at every level, otherwise to nobody |
| SchedDeeds.SwitchTakesOver | pss.c:1050-1099 | the slice of the thread that is chosen begins at that moment with those of all groups above it, nobody else's times change, and if the pss class has chosen, exactly the chosen path is nobody's candidate any more |
| SchedDeeds.StartLands | pss.c:822-847 | a woken pss thread lands where it was or, if that is more than the threshold behind its queue's vtime as charged up to now, exactly the threshold behind; a first start adds vtime; a realtime thread does not move |
| SchedDeeds.SleeperClassLands | pss.c:1380-1413 | a sleeper that leaves the pss class takes along, relative, what it would have woken up with; one that enters it gets vtime added; nobody else's times change |
| SchedDeeds.ForkLands | pss.c:1356-1378 | a fork charges the parent; a new thread's place is the parent's own or vtime, plus the debit if threads start with one, if that is more; the child gets it, relative, and the parent stays, or the other way round if children run first |
| SchedTurns.TickDoes | pss.c:1307-1354 | a tick credits the running pss thread and every group above it up to now at their weights and nobody else, leaves nothing owed in any queue, and unsets every pointer to one of them that has used up its slice while others wait; no pointer to anybody else changes, and none at all if no slice is used up |
| SchedTurns.StartAnswered | pss.c:1268-1305 | a thread that is started is compared with the running one in the queue where their paths meet, everything charged there; exactly if it is ahead by more than its wakeup granularity its path becomes next, and last under its conditions; nothing is asked of another class or a thread that is to yield anyway |
| SchedTurns.EnterAnswered | pss.c:1398-1413 | so is a queued realtime thread that enters the pss class |
| SchedTurns.YieldDoes | pss.c:983-1023 | a thread that yields is credited with all groups above it before they are put back, and skip is set on its path up to the first queue with another member exactly if it relinquishes the processor |
| SchedTurns.VacateForward | pss.c:1187-1208 | when the running pss thread goes to sleep the lowest group above it that stays joined and all groups above that become next; when it exits nobody is put forward |
| SchedOwed.StartBound | pss.c:1109-1114 | the first start of a pss thread keeps the lag bound if and only if its vruntime plus the threshold is at least how far charging the running entity takes vtime, in fields readable before the call |
| SchedOwed.EnterBound | sched.c:751-782 | the same for a queued realtime thread that enters the pss class |
| SchedOwed.MoveBound | sched.c:1434-1461 | the same for a queued thread that changes its group, against its lag at the move |
| SchedOwed.NiceAtOnce | sched.c:608-634 | sched_nice keeps the lag bound whenever its two clock readings are the same |
| SchedOwed.ReclassAtOnce | sched.c:751-782 | a change of priority class that stays within the pss or within the realtime class always keeps the lag bound |
| SchedOwed.OwedTimeBreaksLag | pss.c:1109-1111 | the bound does break: from every first state with two plain threads, starting one, choosing it and starting the other more than the threshold later leaves the second behind the bound |
| SchedOwed.TwoThreadsBoot | pss.c:1564-1568 | there is such a first state, for every threshold |
| SchedChange.MoveKeepsLag | sched.c:1434-1461 | moving a thread to another group preserves its lag: exactly for a sleeping one, and for a queued or running one what it had when its old queue was last charged is what it has against the new queue as it finds it |
| SchedEntry.NiceKeepsLag | sched.c:608-634 | sched_nice leaves a queued or running thread its lag |
| SchedChange.ClassKeepsLag | sched.c:751-782 | a queued or running thread that leaves the pss class takes its lag with it, and one that enters it adds exactly what it brings along to its queue's vtime |
| SchedPick.PickWalkKeeps | pss.c:1050-1066 | with members in the queue the descent reaches a joined thread without following a null pointer, within the depth of the hierarchy, and at every level the choice is within wakeup_gran of the leftmost |
| SchedPick.PssPickKeeps | pss.c:1050-1066 | a thread is picked if and only if the root queue has members |
| SchedPick.ChooseNear | pss.c:1027-1048 | what is picked waits on the timeline of that queue and its vruntime is at most the leftmost's plus wakeup_gran; if it is a group, its queue has members |
| Fairness.SpreadBound | pss.c:1027-1048 | over any run of turns on one queue the spread of vruntimes never exceeds the larger of the first spread and the longest turn plus the largest wakeup granularity |
| Fairness.ServiceBound | pss.c:852-884 | the virtual service received by any two members differs by at most twice that |
| Fairness.ChosenNear | pss.c:1253-1266 | the pick is a member at most the granularity ahead of any other member |
| Fairness.TakeMoves | pss.c:983-1009 | a whole turn of pick, activate, charges and put-prev moves one member's vruntime, forward, and puts it back in order |
| Clock.ClockSafety | sched_time.c:142-217 | under every interleaving of local reads, remote reads and ticks no clock goes back, none passes the largest tick_sys_time + tick_ns, and non-overlapping calls of one clock return values in order |
| Clock.StepKeeps | sched_time.c:142-259 | every step of every caller keeps the invariant of the protocol and moves no clock back; what undisturbed calls store and return is Clock.TickAlone, Clock.LocalAlone and Clock.RemoteAlone |
| Clock.BootKeeps | sched_time.c:117-140 | the protocol starts in its invariant |
| Clock.RemoteReturn | sched_time.c:173-217 | a remote read that returns leaves both clocks at or above the value it returns |
| Clock.LocalAlone | sched_time.c:142-171 | undisturbed, sched_time_local stores exactly the clamped time, whatever it was called for, and returns it to the reader of its own clock: the tick's system time plus what the CPU's own clock has gone on since, never back, at most one tick past |
| Clock.TickAlone | sched_time.c:241-259 | an undisturbed tick leaves its two readings as the base of its CPU and no other, and the clock at the time that follows from them, not before the system time read |
| Clock.ReadAfterTick | sched_time.c:142-171 | an undisturbed read within one tick of an undisturbed tick returns the tick's system time plus the CPU time since, unless the clock was ahead of that |
| Clock.RemoteAlone | sched_time.c:173-217 | an undisturbed remote read brings both clocks to the larger of the two and returns it |
| Clock.Retries | sched_time.c:142-217 | a compare-and-set that finds the clock changed stores and returns nothing and starts over; one that does not goes on |
| Clock.RqClockAdvances | sched.c:1275-1283 | update_rq_clock never moves the clocks of a run queue back |
| Clock.WordsClamp | sched.h:490-500 | inside the half-range window the wrap-around clamps are the integer clamps |
| RbTree.Timeline.constructor | tree.h:304-306 | an empty tree |
| RbTree.Timeline.Descend | pss.c:674-684 | the search finds the empty pointer that splits the timeline at the entity's vruntime, and whether it is the first |
| RbTree.Timeline.InsertColor | tree.h:405-447 | the insertion fix-up ends with a red-black tree of the same order |
| RbTree.Timeline.RemoveColor | tree.h:449-525 | the removal fix-up ends with a red-black tree of the same order |
| RbTree.Timeline.RotateLeft | tree.h:340-358 | the links after a left rotation spell the rotated subtree in its old surroundings |
| RbTree.Timeline.RotateRight | tree.h:360-378 | and after a right rotation |
| RbShape.RotLFocus | tree.h:340-358 | the same, about the links alone, root pointer included |
| RbShape.RotRFocus | tree.h:360-378 | the mirror image |
| RbShape.GapDone | tree.h:446-446 | when the insertion loop ends, blackening the root leaves a red-black tree |
| RbShape.RemoveGapDone | tree.h:453-454 | when the removal loop ends, blackening the entity at hand leaves a red-black tree |
| RbShape.UnlinkGap | tree.h:532-535 | unlinking an entity with at most one child leaves a red-black tree, or one black entity missing at that place |
| RbShape.SpliceGap | tree.h:537-574 | so does moving the successor into the place of an entity with two children, which keeps the order of the others |
| SfqTimeline.EnqueueEntity | pss.c:665-702 | inserting into the tree is what the scheduler model does to its timeline |
| SfqTimeline.DequeueEntity | pss.c:707-716 | and so is removing |
| SfqTimeline.LeftmostStands | pss.c:696-699 | the cached leftmost is the head of that timeline |
| WrapTime.OrderIffWindow | pss.c:419-425 | vtime_cmp is a strict total order on a non-empty finite set of stored times if and only if one of them has all of them less than half the ring ahead of it |
| WrapTime.WindowOrder | pss.c:427-431 | inside such a window entity_before is the order of the distances from its start |
| WrapTime.NoOrderOnTheRing | pss.c:419-425 | without the window there are three times in a cycle |
| WrapTime.WordsAgree | pss.c:730-744 | on times less than half the ring apart comparisons, minima and maxima of words are those of integers |
| WrapTime.TimelineCompares | pss.c:419-425 | so the order of the timeline is the word order of the stored vruntimes |
| FixedPoint.LoadWeight.ScaleByWeight | pss.c:351-381 | the memoised loop-free computation returns the specified scaling and the stored inverse is 0 or right |
| FixedPoint.ScaleBounds | pss.c:351-381 | with t = delta * weight the result is at most t/w + 2^15/w + 1 and at least t/w - t/2^32 - 2^15/w - 1 |
| FixedPoint.ScaleMonotone | pss.c:351-381 | more execution time never scales to less, also across the change of rounding regime |
| FixedPoint.ScaleDeltaWorth | pss.c:783-789 | the virtual time for d units of execution is d at the default weight and d * 1024 / w at weight w, up to the rounding of ScaleBounds |
| FixedPoint.HeavierGainsNoMore | pss.c:783-789 | for the same execution time a heavier entity gains no more virtual time, also across the default weight, which is not scaled |
| FixedPoint.LongerGainsNoLess | pss.c:783-789 | and more execution time is never worth less virtual time |
| FixedPoint.CrossRegimes | pss.c:368-378 | both regimes agree at 2^32 |
| FixedPoint.TableInverses | pss.c:83-105 | every inverse in the nice table is floor(2^32 / weight) |
| Slices.SlicesFillGroup | pss.c:791-811 | the slices of all entities of a queue exceed what their group gets of the same period by at most a rounding term per entity and level |
| Slices.SlicesFillPeriod | pss.c:118-129 | in a root queue they exceed the period of sched_period by at most a rounding term per entity |
| Slices.SliceIsShare | pss.c:791-811 | an entity's slice is the period times its share of the load at every level up to the root, but for rounding above and below |
| Slices.PeriodCovers | pss.c:118-129 | up to sched_nr_latency entities the period is sched_latency, beyond it the minimum granularity for each, and never less than that if sched_latency covers it |
| Slices.LevelBound | pss.c:798-809 | one level of the walk adds at most the rounding of each entity and the loss of the group |
| SchedSlices.SlicesHold | pss.c:791-811 | so in every reachable state for the joined members of every queue whose loads fit |
| CpuLoad.DecayCpuLoadMissed | sched.c:191-212 | the loop over the bits of n computes the decay, with r * 2^(i*n) <= load * (2^i - 1)^n and every table access in range |
| CpuLoad.DecayBound | sched.c:191-212 | the same bound for the specification |
| CpuLoad.TableBelow | sched.c:180-189 | every factor in the table is the exact power in 128ths, rounded down |
| CpuLoad.DecayLoses | sched.c:191-212 | and r is not below load * ((2^i - 1) / 2^i)^n by more than 1 + load / 128 for every bit set in n |
| CpuLoad.UpdatedIsMean | sched.c:222-235 | a new average is the mean of the decayed old one and the load with weights 1 - 1/2^i and 1/2^i, rounded toward the load; of the pending updates one is the present one |
| CpuLoad.UpdateCpuLoad | sched.c:214-236 | cpu_load[0] is the load and every other entry the decayed average with the new load |
| CpuLoad.UpdateApproaches | sched.c:222-235 | under a constant load and one pending update an average moves strictly toward the load and never past it |
| CpuLoad.UpdateConverges | sched.c:222-235 | after at most abs(old - load) updates it equals the load and stays there |
| SchedTimes.UpdateCurrTimed | pss.c:852-884 | after update_curr nothing is owed in the queue, only its current entity and its vtime have moved, and the lag bound survives; SchedEffects.UpdateCurrPays says by how much |
| SchedTimes.UpdateVtimeLag | pss.c:750-777 | vtime moves to the least vruntime of tree and current, so no member falls behind by it |
| SchedTimes.GainIs | pss.c:750-777 | how far charging takes vtime, in terms of the vruntimes of the current and the leftmost entity and the scaled time owed |
| SchedTimes.ArriveTimed | pss.c:1109-1114 | what enqueue_entity adds to a relative vruntime, and exactly when an arrival is within the lag bound; SchedEffects.ArriveLands says where a waking entity lands |
| SchedTimes.EnqueueEntityTimed | pss.c:1101-1129 | enqueue_entity keeps timelines sorted and group times conserved, moves no bystander and adds exactly vtime to a relative vruntime; SchedEffects.EnqueueEntityLands says where a waking entity lands |
| SchedTimes.DequeueEntityTimed | pss.c:1154-1177 | so does dequeue_entity; a thread to be queued again is left with its lag as of the last charge |
| SchedTimes.PutPrevEntityTimed | pss.c:983-1009 | put_prev_entity keeps them too |
| SchedTimes.ActivateEntityTimed | pss.c:1068-1085 | and activate_entity, which moves no virtual time |
| SchedTimes.SetClockTimed | sched.c:1275-1283 | time passes for all current entities together, so group times stay conserved |
| SchedEffects.UpdateCurrPays | pss.c:852-884 | update_curr credits the current entity with exactly the time since it was last charged, adds its worth at the entity's weight to the vruntime, and changes nothing else but vtime, which follows |
| SchedEffects.HeavierPaysNoMore | pss.c:783-789 | charged for the same time, a heavier current entity moves no further |
| SchedEffects.UpdateVtimeFollows | pss.c:750-777 | vtime becomes the least vruntime of all joined members, wherever they wait, unless it is further already |
| SchedEffects.ArriveLands | pss.c:822-847 | a waking entity keeps its vruntime or is moved up to exactly the threshold behind vtime as charged |
| SchedEffects.EnqueueEntityLands | pss.c:1101-1129 | and that is what it joins with |
| SchedEffects.DequeueEntityFollows | pss.c:1154-1177 | when an entity has left, vtime follows the members that stay; a sleeper keeps its vruntime as charged |
| SchedEffects.UpdateEntityWeightPays | pss.c:589-601 | a running entity is charged at its old weight before it gets the new one; nobody else is charged |
| SchedEffects.PssEnqueueWeighs | pss.c:1145-1149 | queueing a thread leaves every group above it at its queue's shares |
| SchedEffects.PssDequeueWeighs | pss.c:1209-1213 | and so does taking one off |
| SchedTurns.SetSharesWeighs | pss.c:1541-1543 | new shares bring the groups above the group to their shares; the group itself keeps its weight until a member joins or leaves |
| SchedCandidates.ChooseIs | pss.c:1027-1048 | the choice is next if it is close to the leftmost, else last if that is, else the second if the leftmost is to be skipped and the second is close, else the leftmost |
| SchedCandidates.PssPickChooses | pss.c:1050-1066 | the picked thread and every group above it are the choices of their queues, by the candidates before the pick; afterwards exactly their pointers are unset |
| SchedCandidates.SetNextPoints | pss.c:913-925 | next points along the path of the entity in every queue the path meets, and is unchanged elsewhere |
| SchedCandidates.SetLastPoints | pss.c:941-953 | and last |
| SchedCandidates.SetSkipSkips | pss.c:886-897 | skip points along the path up to the first queue with more than one member, and is unchanged elsewhere |
| SchedCandidates.ClearCandidatesClears | pss.c:970-981 | each of the three pointers is unset along the path as far as it leads, and nowhere else |
| SchedTurns.CommonAncestorIs | pss.c:219-241 | find_common_ancestor returns the lowest entities at or above the two that share a queue |
| SchedMembers.EnqueueEntityMembers | pss.c:1101-1129 | enqueue_entity keeps sums, counts and membership, up to the group above |
| SchedMembers.DequeueEntityMembers | pss.c:1154-1177 | so does dequeue_entity |
| SchedMembers.PutPrevEntityMembers | pss.c:983-1009 | put_prev_entity moves the end of the chain one level up |
| SchedMembers.ActivateEntityMembers | pss.c:1068-1085 | activate_entity moves it one level down |
| SchedMembers.LoadIsCount | pss.c:1190-1190 | with positive weights the test of load.weight is a test for members |
| SchedBooks.UpdateEntityWeightBooks | pss.c:589-601 | changing the weight of a joined entity keeps load sums and counts right |
| SchedBooks.UpdateSharesBooks | pss.c:603-620 | so does update_sfq_shares |
| SchedWalks.EnqueueWalkKeeps | pss.c:1138-1144 | along the walk every queue on the way becomes non-empty with its group joined, and it stops at the first group that was joined already |
| SchedWalks.DequeueWalkKeeps | pss.c:1187-1208 | along the walk every queue that becomes empty takes its group out, and it stops at the first that does not |
| SchedWalks.ClearCandidatesKeeps | pss.c:970-981 | after clear_candidates no queue has the entity as skip, next or last, so it may leave |
| SchedWalks.SetNextKeeps | pss.c:913-925 | next is always unset or a joined entity of the same queue |
| SchedWalks.SetLastKeeps | pss.c:941-953 | and last |
| SchedWalks.SetSkipKeeps | pss.c:886-897 | and skip |
| SchedClass.PssEnqueueKeeps | pss.c:1131-1152 | the thread joins with every group above it that was empty; all parts of the invariant survive, and the lag bound exactly if the thread is welcome |
| SchedClass.PssDequeueKeeps | pss.c:1179-1216 | the thread leaves with every group above it that becomes empty, keeping its lag |
| SchedClass.PssPutPrevKeeps | pss.c:1011-1023 | the whole chain goes back to the timelines and nothing is current |
| SchedClass.PssActivateKeeps | pss.c:1087-1099 | from no current entity to the chain that ends in the thread |
| SchedPick.CommonAncestorJoined | pss.c:219-241 | the ancestors that find_common_ancestor returns for a joined entity are joined |
| SchedPick.CheckPreemptQuiet | pss.c:1268-1305 | the preemption check changes only times and candidates and keeps the invariant |
| SchedPick.TickWalkQuiet | pss.c:1307-1354 | so does a tick |
| SchedRoles.EnqueueRoles | rt.c:314-330 | through either class an enqueued thread becomes queued and nobody else changes role |
| SchedRoles.DequeueRoles | rt.c:332-347 | through either class a queued thread leaves and whoever runs goes on running |
| SchedRoles.PutPrevRoles | rt.c:270-285 | through either class the running thread becomes queued and nothing is current |
| SchedRoles.ActivateRoles | rt.c:297-312 | through either class a queued thread becomes the running one |
| SchedRoles.VacateRoles | sched.c:541-547 | dequeue and put_prev of the running thread leave it off all queues with nothing current |
| SchedEntry.ChooseKeeps | sched.c:904-922 | sched_choose finds a runnable thread if there is one and makes it the running thread, within the invariant; SchedDeeds.SwitchRight says which |
| SchedEntry.AddKeeps | sched.c:963-984 | sched_add keeps the invariant, and the lag bound exactly if a first start is welcome |
| SchedEntry.YieldKeeps | sched.c:538-540 | a switch of a thread that stays runnable keeps the invariant up to the choice |
| SchedEntry.VacateKeeps | sched.c:541-547 | so does one that goes to sleep; its vruntime stays absolute exactly if it sleeps in the pss class |
| SchedEntry.RestoreKeeps | sched.c:625-630 | putting a withdrawn thread back restores the invariant and its state, and keeps the lag bound exactly if it is welcome |
| SchedEntry.NiceKeeps | sched.c:608-634 | sched_nice keeps the invariant, and the lag bound exactly if the re-enqueue is welcome; SchedTable.StepTells gives the weights |
| SchedChange.SwitchedFromKeeps | pss.c:1380-1396 | a sleeper that leaves the pss class is made relative once and stays within the bound; SchedDeeds.SleeperClassLands says where it lands |
| SchedChange.SwitchedToKeeps | pss.c:1398-1413 | a sleeper that enters it is made absolute once |
| SchedChange.SetClassKeeps | sched.c:751-782 | sched_class keeps the invariant for every started thread, and the lag bound exactly if the re-enqueue is welcome |
| SchedChange.MoveKeeps | sched.c:1434-1461 | sched_group_move keeps the invariant, and the lag bound exactly if the re-enqueue is welcome |
| SchedChange.ForkShape | pss.c:1356-1378 | pss_fork_thread never moves the parent back and leaves the child relative, not below zero or not below the parent's lag |
| SchedChange.ForkKeeps | sched.c:692-728 | sched_fork_thread keeps the invariant and the lag bound |
| SchedChange.TickKeeps | sched.c:859-874 | so does sched_tick |
| SchedChange.SetSharesKeeps | pss.c:1515-1549 | so does set_shares, which stores the shares clamped to the allowed range |
| SchedChange.SetPriorityKeeps | pss.c:1218-1239 | so does a change of priority in either class |
| RunQueue.Rq.SchedAdd | sched.c:963-984 | the entry point is the step of a run that it should be: the invariant holds again, no assertion of the source has failed, no clock or vtime has gone back, every thread's fields are as SchedTable.StepTells says, and those that ran have earned the time that passed; the thread is where SchedDeeds.StartLands puts it |
| RunQueue.Rq.SchedYield | sched.c:513-555 | the entry point is the step of a run that it should be: the invariant holds again, no assertion of the source has failed, no clock or vtime has gone back, every thread's fields are as SchedTable.StepTells says, and those that ran have earned the time that passed; the processor goes to whom SchedDeeds.SwitchRight says |
| RunQueue.Rq.SchedSleep | sched.c:541-547 | the entry point is the step of a run that it should be: the invariant holds again, no assertion of the source has failed, no clock or vtime has gone back, every thread's fields are as SchedTable.StepTells says, and those that ran have earned the time that passed; the processor goes to whom SchedDeeds.SwitchRight says |
| RunQueue.Rq.SchedThrow | sched.c:1165-1189 | the entry point is the step of a run that it should be: the invariant holds again, no assertion of the source has failed, no clock or vtime has gone back, every thread's fields are as SchedTable.StepTells says, and those that ran have earned the time that passed; the processor goes to whom SchedDeeds.SwitchRight says |
| RunQueue.Rq.SchedNice | sched.c:608-634 | the entry point is the step of a run that it should be: the invariant holds again, no assertion of the source has failed, no clock or vtime has gone back, every thread's fields are as SchedTable.StepTells says, and those that ran have earned the time that passed |
| RunQueue.Rq.SchedClassChange | sched.c:751-782 | the entry point is the step of a run that it should be: the invariant holds again, no assertion of the source has failed, no clock or vtime has gone back, every thread's fields are as SchedTable.StepTells says, and those that ran have earned the time that passed |
| RunQueue.Rq.SchedGroupMove | sched.c:1434-1461 | the entry point is the step of a run that it should be: the invariant holds again, no assertion of the source has failed, no clock or vtime has gone back, every thread's fields are as SchedTable.StepTells says, and those that ran have earned the time that passed |
| RunQueue.Rq.SchedForkThread | sched.c:692-728 | the entry point is the step of a run that it should be: the invariant holds again, no assertion of the source has failed, no clock or vtime has gone back, every thread's fields are as SchedTable.StepTells says, and those that ran have earned the time that passed |
| RunQueue.Rq.SchedTick | sched.c:859-874 | the entry point is the step of a run that it should be: the invariant holds again, no assertion of the source has failed, no clock or vtime has gone back, every thread's fields are as SchedTable.StepTells says, and those that ran have earned the time that passed; charges and candidates are as SchedTurns.TickDoes says |
| RunQueue.Rq.SetShares | pss.c:1515-1549 | the entry point is the step of a run that it should be: the invariant holds again, no assertion of the source has failed, no clock or vtime has gone back, every thread's fields are as SchedTable.StepTells says, and those that ran have earned the time that passed |
| RunQueue.Rq.ChangePriority | pss.c:1218-1239 | the entry point is the step of a run that it should be: the invariant holds again, no assertion of the source has failed, no clock or vtime has gone back, every thread's fields are as SchedTable.StepTells says, and those that ran have earned the time that passed |
| RunQueue.Rq.PssPickNextThread | pss.c:1050-1066 | the loop over the hierarchy picks the specified thread, never reads an empty timeline and ends |
| RunQueue.Rq.PssEnqueueThread | pss.c:1131-1152 | the two loops over the hierarchy compute the specified enqueue, whose laws are SchedClass.PssEnqueueKeeps and SchedTimes.EnqueueEntityTimed |
| RunQueue.Rq.PssDequeueThread | pss.c:1179-1216 | likewise for the dequeue, with SchedClass.PssDequeueKeeps |
| RunQueue.Rq.PssPutPrevThread | pss.c:1011-1023 | likewise, with SchedClass.PssPutPrevKeeps |
| RunQueue.Rq.PssActivateThread | pss.c:1087-1099 | likewise, with SchedClass.PssActivateKeeps |
| RunQueue.Rq.FindCommonAncestor | pss.c:219-241 | the three loops over depths end with the two ancestors in the same queue |
| RunQueue.Rq.PssCheckPreemptCurr | pss.c:1268-1305 | the check updates times and candidates as specified, with SchedPick.CheckPreemptQuiet |
| RunQueue.Rq.UpdateCurr | pss.c:852-884 | the current entity is charged and vtime follows, with SchedEffects.UpdateCurrPays |
| RunQueue.Rq.EnqueueEntity | pss.c:1101-1129 | the writes in the source's order amount to the specified enqueue, with SchedEffects.EnqueueEntityLands |
| RunQueue.Rq.DequeueEntity | pss.c:1154-1177 | and to the specified dequeue, with SchedEffects.DequeueEntityFollows |
| RunQueue.Rq.ClearCandidates | pss.c:970-981 | the three loops, entered only where the entity is a candidate, clear every candidate they should |
| PrioList.List.constructor | prio_list.c:35-39 | an empty list |
| PrioList.List.Add | prio_list.c:58-80 | flattened, the thread is inserted after all threads of equal or smaller saved priority, and the list stays well linked |
| PrioList.List.Del | prio_list.c:82-101 | flattened, exactly that thread is gone and the others keep their order, also when a bucket head hands its bucket to the next thread |
| PrioList.List.First | prio_list.c:41-50 | the oldest thread of least saved priority, or none |
| PrioList.List.Empty | prio_list.c:52-56 | whether the flattened list is empty |
| PrioList.List.Sorted | prio_list.c:58-80 | the flattened list is always sorted by saved priority |
| PrioList.List.FindHead | prio_list.c:88-90 | the search backwards through a bucket ends at the head that carries it |
| Sgfs.Fs.constructor | sgfs.c:506-530 | the first file system satisfies the reference-count invariant |
| Sgfs.Fs.AddNode | sgfs.c:303-320 | the new node goes to the front of its parent's list, which gains one reference |
| Sgfs.Fs.CreateDir | sgfs.c:385-402 | a directory with its two dot entries is linked in and every count is right again |
| Sgfs.Fs.AddRef | sgfs.c:271-275 | one more reference is held |
| Sgfs.Fs.Release | sgfs.c:277-298 | a node is freed exactly when it is deleted and this was the last thing that referred to it, and then with it only its dot entries |
| Sgfs.Fs.Destroy | sgfs.c:407-435 | recursive destruction ends and frees the whole subtree and nothing else |
| Sgfs.Fs.Allocv | sgfs.c:567-649 | the node's vnode for the mount; a newly attached one counts as a reference |
| Sgfs.Fs.Reclaim | sgfs.c:824-841 | the vnode lets go of its node, which is freed exactly if deleted and unreferred to otherwise |
| Sgfs.Fs.Mkdir | sgfs.c:1185-1212 | a new directory with right counts, a status in the other cases |
| Sgfs.Fs.Rmdir | sgfs.c:1224-1256 | only a directory with nothing but its dot entries is unlinked and marked deleted, the status says why not otherwise |
| Sgfs.Fs.Uninit | sgfs.c:535-550 | with no vnode attached the whole tree of the root is freed |
| Sgfs.SmallSubtree | sgfs.c:407-435 | below a directory without subdirectories there are only its dot entries |

## Left out

- Locks, spin sections, context switching, tracing and counter hooks, sysctl handlers and memory
  allocation: every entry point of the scheduler and of sgfs is one atomic step, except in `Clock`.
- The SMP branches (load averages, `calc_sfq_shares`) and the leaf list: the build refuses SMP.
- The kernel's run queue keeps an order; here it is a set, and the pick from it is any member.
- Creation and destruction of groups: the hierarchy is fixed, and only threads change their group.
- Reschedule flags: whether a thread is asked to yield is an input of the next step.
- RunQueue.Rq.SchedNice: does not model the loop over the threads of a process; it is one thread's turn of it.
- RunQueue.Rq.SchedTick: does not compute the slices it compares with; they are an input, and SchedSlices says what their sum is.
- RunQueue.Rq.SchedForkThread: does not compute the starting debit of place_entity from sched_vslice; it is an input.
- SchedSlices.SlicesHold: does not cover the slice of an entity that is not joined yet, whose weight sched_slice adds to the load.
- SchedChange.MoveKeepsLag: does not say what a queued or running thread's lag is after the new queue has been charged; vtime may go on there while the thread is put back.
- SchedOwed.MoveBound: does not express the new queue's fields at the move by those before the call; taking the thread off its old queue may charge the same groups.
- RunQueue.Rq.PssEnqueueThread: does not model pointers; entities are numbers in an arena, so aliasing is not in question.
- Clock.ClockSafety: does not model the variant without a 64-bit compare-and-set, nor the path of a stable cycle counter.
- WrapTime.OrderIffWindow: does not cover the empty set, on which every relation is an order.
- PrioList.List.Add: does not model the queue macros link by link; a tail queue is a sequence with a back link.
- Sgfs.Fs.Allocv: does not model vnode locking and the retry when a vnode is being reclaimed.
- Sgfs.Fs.Mkdir: does not model names and lookup.
- Directory reading, attributes, permissions and file numbers of sgfs: they do not touch links or counts.
- hrtimer.c, cpupri.c, idle.c, group.c, halflife.c and realtime bandwidth: callout wrappers, stubs, a
  plain hash list and a table generator.
