# Verified models of the Certus offloading drivers

This project models, in Dafny, the state machines that drive key-value offloading in the Certus
benchmarks, and a few of the kernels beside them, and proves what they promise.

- **The step loop** (`TensorParallel`, `InflightStats`, `LoopState`, `LoopLog`, `StepLoop`, `StepLoopFacts`):
  load and store jobs outstanding together, each in its own GPU slot, on a group of W tensor-parallel
  ranks. Loads are looked up, pinned and submitted in one tick; stores are reserved in one tick and
  submitted in the next; one poll per tick completes what has finished. Any call into the manager,
  the verifier or the worker may raise.
- **The continuous-batching scheduler** (`Sizing`, `SchedulerState`, `Scheduler`): requests wait for
  each other's loads, are retried first come first served, load their own hits, compute and store.
  A whole run is one method; that it ends is proved by a measure.
- **The load window, the cold pass and the cputier loop** (`LoadWindow`, `ColdLoad`, `CpuTier`):
  repeated shuffled passes over a working set, a bare slot loop, and load jobs that are parked over
  ticks until their lookups are answered.
- **Kernels**: the interleaved router (`Router`, `RouterRun`), the two-index interval sweep
  (`IntervalOverlap`), the 3FS ring allocator (`ThreeFs`), the profile composer (`Composition`,
  `CompositionMeaning`) and the trace remapper (`TraceRemap`).

`dafny verify dfyconfig.toml` checks everything.

## How to read it

Objects that the source updates in place are classes. Their fields are held as one record (`st`, `net`,
`tier`), each step is a function on that record, each step function has a lemma that it keeps the
invariant, and the methods compute the new record and assign it. Invariants are carried whole:
`forall k {:trigger Open(x, k)} :: Open(x, k) ==> P(x)` says P(x), and `assert Open(x, 0)` looks inside
it (`Common.dfy`).

The environment is modelled by nondeterministic choices in the bodies and by fault plans (the numbers
of the calls that raise). An exception is `Raised`; a raising manager call has no effect, and a raising
submission may have reached some of the ranks, as the plan says. Clock readings are real numbers. A
worker group has a `patience`: the polls it may still answer with nothing while jobs are outstanding,
chosen anew with every submission. Content keys made from different seeds or indices are taken to be
different. With one rank a worker group is a plain worker.

Ghost state ties results to what happened in a run. `books.hist` logs every start, preparation,
submission and reaping with its sample; the contracts of the step loop's methods give its new value.
`books.finals` lists the releases that nothing tries again if they raise, with the number of the call.
`loop.Now()` is a moment of a run, and `Smooth` says that nothing went wrong between two of them: no
call or submission made was in the plan, and no transfer returned had failed. The scheduler's trail
records which jobs each request waited on and how many keys it skipped; `Tracks` says that a pass only
added to it, in step with the log.

## Where code and documentation differ

The models follow the code.

- The step loop promises that no key stays pinned or reserved. The contract of `Abort` says exactly
  when that holds once nothing is outstanding: if and only if no release that nothing retries (in the
  handler of a failed submission, in the handler of a failed touch after a reservation, or in the abort
  itself) of a non-empty claim is in the fault plan. `Run` and `LoadWindow` carry it to whole runs that
  raise; `UnpinFailureLeaks` gives a run.
- A submission that raises after some ranks were sent the job leaves those ranks transferring, and the
  loop no longer has the job pending (`HeldWhileTransferring`). What then happens to the keys is exact.
  A load's pins are given back in the handler, and are what they were if and only if there were none or
  the handler's call is not in the fault plan (`StrayLoad`; `TransferOutlivesPin` and `StrayLoadLeaks`
  give a run for each case). A store stays prepared with its keys reserved (`StrayStore`) until the
  abort, whose first call gives the reservation back, and it stays if and only if that call is in the
  plan (`StrayStoreAborted`).
- The router promises that turn k of every conversation is sent before turn k + 1 of any, and that
  between two turns of one conversation every other live one takes a turn. With two or more workers
  each fails for some run, and it is shown exactly when: turns are sent in that order if and only if no
  conversation of two turns runs beside another (`SentLockstepExactly`), taken off the queue in that
  order if and only if none of three turns runs beside one of two (`LockstepExactly`), and every other
  takes a turn in between if and only if none of three turns runs beside a later one and none of two
  beside an earlier one (`BetweenExactly`).
- The interval sweep promises exact figures. They are exact if and only if every overlapping pair is
  met by the sweep, a condition on the running maxima of the ends (`IntervalOverlap`); lists that do
  not overlap themselves satisfy it.
- A scheduler-step slot is meant to hold any request. With private prefixes and no blocks it does not
  (`RequestsFit`); the scheduler's runs are proved for the other settings.
- A step of the 3FS bench is meant to use each ring block once at a time. Its loads always do; its saves
  do if and only if they are no more than the ring has (`SaveStep`), as is always so with the prefix
  pool stored. `SavesOverrun` gives a step without it.
- The trace remapper aims at rows that fit one block size. Rows fit their own conversation's size
  (`RowsFit`). Every row of every trace with given sizes fits the reported one if and only if every
  conversation has that size and it is not zero (`SizesExactly`); `MixedSizesMisfit` gives a row. A
  later conversation's local id never collides with an earlier one's if and only if it is not negative
  (`RemapExactly`).
- The composer's validation does not ensure that the generated program is in scope; `ScopedExactly` says
  when it is, and `FactoryDispatcher` gives a manifest. A program in scope may still wire, hook or
  export the wrong interface, since two interfaces can share a variable name (`SharedVariable`).
  `MeansExactly` says when it does what the manifest means for every order of the component map. The
  generator looks at a wiring source's first interface even when the wiring names another, so a source
  without interfaces makes it panic (`GenerateComposition`).

## Model

| member | source | states |
|---|---|---|
| `TensorParallel.TpGroup.constructor` | benchmarks/certus-connector-bench/bench_connector_lifecycle.py:2626-2653 | a group of `world` ranks starts with nothing outstanding |
| `TensorParallel.TpGroup.Submit` | benchmarks/certus-connector-bench/bench_connector_lifecycle.py:2655-2672 | raises exactly as planned; otherwise the job goes to every rank and becomes outstanding. If it raises, exactly the ranks reached have the job, the others never will, and it is not outstanding |
| `TensorParallel.TpGroup.RankReceive` | benchmarks/certus-connector-bench/bench_connector_lifecycle.py:2600-2608 | a rank takes the next job off its pipe, in order, and the protocol invariant holds |
| `TensorParallel.TpGroup.RankDone` | benchmarks/certus-connector-bench/bench_connector_lifecycle.py:2674-2686 | one rank's report counts down the job and conjoins its success; the last one moves it to the finished jobs |
| `TensorParallel.TpGroup.DrainAll` | benchmarks/certus-connector-bench/bench_connector_lifecycle.py:2688-2694 | the ranks go on in any interleaving; whatever had ended on any rank before the poll has been acknowledged after it, with its verdict, and no rank goes back |
| `TensorParallel.TpGroup.GetFinished` | benchmarks/certus-connector-bench/bench_connector_lifecycle.py:2688-2697 | each job returned was outstanding, is returned once, only after all ranks finished it, with success the conjunction of theirs; every outstanding job that had ended on all ranks is returned; the failed jobs grow by exactly those returned as failed; an empty poll with jobs outstanding uses up patience |
| `TensorParallel.SubmittedSound` | benchmarks/certus-connector-bench/bench_connector_lifecycle.py:2655-2666 | fanning a job out keeps the protocol invariant between pipes, ranks, countdown entries and job phases |
| `TensorParallel.PartlySubmittedSound` | benchmarks/certus-connector-bench/bench_connector_lifecycle.py:2655-2666 | so does fanning it out to some ranks only, whose entry never counts down to nothing |
| `TensorParallel.AcknowledgedSound` | benchmarks/certus-connector-bench/bench_connector_lifecycle.py:2674-2686 | so does a rank's report, whether or not it is the job's last |
| `TensorParallel.HandedOver` | benchmarks/certus-connector-bench/bench_connector_lifecycle.py:2695-2697 | the finished jobs are outstanding jobs, each once, acknowledged by all ranks; handing them over keeps the invariant |
| `TensorParallel.NothingLeft` | benchmarks/certus-connector-bench/bench_connector_lifecycle.py:2674-2697 | when every rank's pipes are empty only jobs whose submission raised are still counted down |
| `TensorParallel.StillCounted` | benchmarks/certus-connector-bench/bench_connector_lifecycle.py:2674-2697 | a job that some rank has not reported is outstanding if and only if its submission did not raise |
| `TensorParallel.SpoiledPoll` | benchmarks/certus-connector-bench/bench_connector_lifecycle.py:2674-2697 | a poll adds to the failed jobs exactly those it returns as failed, whatever the ranks did meanwhile |
| `Inflight.AreaSampled` | benchmarks/certus-connector-bench/bench_connector_lifecycle.py:729-732 | a sample keeps the area equal to the residence of ended jobs plus the ages of outstanding ones |
| `Inflight.AreaOpened` | benchmarks/certus-connector-bench/bench_connector_lifecycle.py:811-814 | so does starting a job at a sample |
| `Inflight.AreaQueued` | benchmarks/certus-connector-bench/bench_connector_lifecycle.py:850-853 | so does preparing a job that waits to be submitted |
| `Inflight.AreaDequeued` | benchmarks/certus-connector-bench/bench_connector_lifecycle.py:856-868 | submitting it later keeps its start |
| `Inflight.AreaClosed` | benchmarks/certus-connector-bench/bench_connector_lifecycle.py:880-904 | so does reaping one |
| `LoopStates.LaunchedSlots` | benchmarks/certus-connector-bench/bench_connector_lifecycle.py:808-815 | starting a load takes one free slot and keeps slots, jobs, counts and statistics right in both directions |
| `LoopStates.ReservedSlots` | benchmarks/certus-connector-bench/bench_connector_lifecycle.py:850-853 | so does preparing a store |
| `LoopStates.SentSlots` | benchmarks/certus-connector-bench/bench_connector_lifecycle.py:856-868 | submitting a prepared store keeps its slot |
| `LoopStates.RetiredSlots` | benchmarks/certus-connector-bench/bench_connector_lifecycle.py:884-904 | reaping a job frees exactly its slot |
| `LoopStates.LaunchedLedger` | benchmarks/certus-connector-bench/bench_connector_lifecycle.py:540-552 | a started load holds one more pin per key |
| `LoopStates.ReservedLedger` | benchmarks/certus-connector-bench/bench_connector_lifecycle.py:837-853 | a prepared store holds one more reservation per key |
| `LoopStates.SentLedger` | benchmarks/certus-connector-bench/bench_connector_lifecycle.py:856-868 | submitting a store changes no claim |
| `LoopStates.RetiredLedger` | benchmarks/certus-connector-bench/bench_connector_lifecycle.py:894-900 | a completed job gives its claim up; one whose completion raised keeps it for the abort |
| `LoopStates.LaunchedCarried` | benchmarks/certus-connector-bench/bench_connector_lifecycle.py:798-815 | keys asked of one direction stay equal to keys moved, missed or on their way: a started load adds its hits |
| `LoopStates.ReservedCarried` | benchmarks/certus-connector-bench/bench_connector_lifecycle.py:837-853 | a prepared store adds its keys |
| `LoopStates.SentAllCarried` | benchmarks/certus-connector-bench/bench_connector_lifecycle.py:856-868 | submitting the prepared stores adds nothing |
| `LoopStates.RetiredAllCarried` | benchmarks/certus-connector-bench/bench_connector_lifecycle.py:883-911 | a batch that succeeded moves its keys and adds nothing |
| `LoopLogs.LaunchedTold` | benchmarks/certus-connector-bench/bench_connector_lifecycle.py:808-815 | starting a load keeps the log telling which jobs are outstanding, since when, and which were reaped, each once |
| `LoopLogs.ReservedTold` | benchmarks/certus-connector-bench/bench_connector_lifecycle.py:850-853 | so does preparing a store |
| `LoopLogs.SentTold` | benchmarks/certus-connector-bench/bench_connector_lifecycle.py:856-868 | so does submitting the longest-prepared store, which keeps its start |
| `LoopLogs.RetiredTold` | benchmarks/certus-connector-bench/bench_connector_lifecycle.py:884-904 | so does reaping a job, whose start and reaping the log then holds |
| `StepLoops.LaunchedSound` | benchmarks/certus-connector-bench/bench_connector_lifecycle.py:817-830 | starting a load keeps the whole loop invariant: slots, ledger and job ids |
| `StepLoops.ReservedSound` | benchmarks/certus-connector-bench/bench_connector_lifecycle.py:832-854 | so does preparing a store |
| `StepLoops.RetiredSound` | benchmarks/certus-connector-bench/bench_connector_lifecycle.py:884-904 | so does retiring a job, whose keys were held until then |
| `StepLoops.ClaimSettled` | benchmarks/certus-connector-bench/bench_connector_lifecycle.py:931-957 | while aborting, releasing a claim or giving it up keeps the ledger balanced |
| `StepLoops.TriedLeaks` | benchmarks/certus-connector-bench/bench_connector_lifecycle.py:547-551 | what leaked stays exactly the keys of the final releases that the plan made raise |
| `StepLoops.NothingHeld` | benchmarks/certus-connector-bench/bench_connector_lifecycle.py:931-957 | with no job left, what is still pinned or reserved is exactly what leaked, and that is nothing if and only if no final release of a non-empty claim was in the plan |
| `StepLoops.PollRan` | benchmarks/certus-connector-bench/bench_connector_lifecycle.py:872-883 | a poll is fine if and only if every job it returns succeeded |
| `StepLoops.StepLoop.constructor` | benchmarks/certus-connector-bench/bench_connector_lifecycle.py:764-788 | a new loop is idle and nothing is leaked |
| `StepLoops.StepLoop.Launch` | benchmarks/certus-connector-bench/bench_connector_lifecycle.py:540-552 | pins and submits; raises exactly when pinning or submitting does; then the pins are given back in the next call, and leak exactly when that raises too; new ledger, log, call count and ranks reached |
| `StepLoops.StepLoop.Lookups` | benchmarks/certus-connector-bench/bench_connector_lifecycle.py:521-535 | the hits are keys of the unit, each as often as there, and a prefix of it when stopping at the first miss; raises exactly when one of its calls does |
| `StepLoops.StepLoop.StartLoad` | benchmarks/certus-connector-bench/bench_connector_lifecycle.py:798-815 | new state, ledger and log on every path: all missed, launched, or raised, exactly when something went wrong, with nothing held or the pins given back in the last call |
| `StepLoops.StepLoop.StartLoadHits` | benchmarks/certus-connector-bench/bench_connector_lifecycle.py:817-830 | refuses a job larger than its slot with no effect; otherwise as Launch |
| `StepLoops.StepLoop.PrepareStore` | benchmarks/certus-connector-bench/bench_connector_lifecycle.py:832-854 | reserves and defers; raises exactly when reserving or touching does; then the reservation is given back, and leaks exactly when that raises too; new ledger and log |
| `StepLoops.StepLoop.SubmitDeferred` | benchmarks/certus-connector-bench/bench_connector_lifecycle.py:856-868 | sends the prepared stores in order; raises exactly when something went wrong, and then the store whose submission raised and those after it stay prepared, and exactly the ranks that submission reached have the job; new log |
| `StepLoops.StepLoop.Retire` | benchmarks/certus-connector-bench/bench_connector_lifecycle.py:884-911 | a reaped job leaves with its slot, and its life enters the log; verify or completion may raise, the job is completed or remembered |
| `StepLoops.StepLoop.RetireBatch` | benchmarks/certus-connector-bench/bench_connector_lifecycle.py:883-911 | the whole batch is completed and logged whatever raises; it reports an error exactly when a call raised |
| `StepLoops.StepLoop.Reap` | benchmarks/certus-connector-bench/bench_connector_lifecycle.py:872-920 | one poll removes exactly its batch and logs its reapings; on success the state is that of retiring each job in order; raises exactly when a call raised or a transfer failed |
| `StepLoops.StepLoop.Abort` | benchmarks/certus-connector-bench/bench_connector_lifecycle.py:931-957 | prepared stores, failed completions and reported jobs are each released once, in consecutive calls, in that order; clean if and only if none of them raised; once nothing is outstanding, nothing is pinned or reserved if and only if no final release of a non-empty claim was in the plan |
| `StepLoops.StepLoop.Settle` | benchmarks/certus-connector-bench/bench_connector_lifecycle.py:922-929 | one release while aborting: one call, raising as planned; the claim is gone or leaked accordingly |
| `StepLoops.StepLoop.AbortPrepared` | benchmarks/certus-connector-bench/bench_connector_lifecycle.py:935-940 | every prepared store is released, in order; clean if and only if no call raised |
| `StepLoops.StepLoop.RetryCompletions` | benchmarks/certus-connector-bench/bench_connector_lifecycle.py:941-946 | so is every job whose completion raised |
| `StepLoops.StepLoop.SettleBatch` | benchmarks/certus-connector-bench/bench_connector_lifecycle.py:949-954 | so is every job of a reported batch |
| `StepLoops.StepLoop.Drain` | benchmarks/certus-connector-bench/bench_connector_lifecycle.py:947-955 | exactly the jobs reported are released, each once, in the order reported; clean if and only if no call raised |
| `StepLoopFacts.RangesDisjoint` | benchmarks/certus-connector-bench/bench_connector_lifecycle.py:776-779 | two outstanding jobs never address the same GPU block |
| `StepLoopFacts.RangesBounded` | benchmarks/certus-connector-bench/bench_connector_lifecycle.py:776-779 | every outstanding job's blocks lie below the slots' total |
| `StepLoopFacts.CountsRight` | benchmarks/certus-connector-bench/bench_connector_lifecycle.py:783-785 | n_load and n_store are the numbers of outstanding jobs, deferred stores included |
| `StepLoopFacts.HeldWhilePending` | benchmarks/certus-connector-bench/bench_connector_lifecycle.py:922-929 | a pending load's keys are pinned, a pending store's reserved |
| `StepLoopFacts.HeldWhileTransferring` | benchmarks/certus-connector-bench/bench_connector_lifecycle.py:2655-2697 | while a rank that was sent a job has not reported it, the loop has the job pending if and only if its submission did not raise, and a pending job's keys are held |
| `StepLoopFacts.GivenBackExactly` | benchmarks/certus-connector-bench/bench_connector_lifecycle.py:547-551 | a claim given back in a handler is gone if and only if it was empty or the handler's call is not in the plan; otherwise exactly its keys stay |
| `StepLoopFacts.StrayLoad` | benchmarks/certus-connector-bench/bench_connector_lifecycle.py:540-552 | any load whose submission raises: the ranks reached have the job, the loop does not, and the pins are what they were if and only if there were none or the handler's call is not in the plan |
| `StepLoopFacts.HeldWhilePrepared` | benchmarks/certus-connector-bench/bench_connector_lifecycle.py:850-853 | a prepared store's keys are reserved |
| `StepLoopFacts.StrayStore` | benchmarks/certus-connector-bench/bench_connector_lifecycle.py:856-868 | any store whose submission raises: the ranks reached have the job, and the store stays the first prepared one with its keys reserved |
| `StepLoopFacts.PreparedFinal` | benchmarks/certus-connector-bench/bench_connector_lifecycle.py:935-940 | an abort starting in call n releases prepared store i in call n + i |
| `StepLoopFacts.FinalFate` | benchmarks/certus-connector-bench/bench_connector_lifecycle.py:931-957 | what is held is what other claims hold or lost, and a finally released claim's keys on top if and only if its call is in the plan |
| `StepLoopFacts.StrayStoreAborted` | benchmarks/certus-connector-bench/bench_connector_lifecycle.py:931-957 | the store whose submission raised is released in the abort's first call, and its keys stay reserved if and only if that call is in the plan |
| `StepLoopFacts.TransferOutlivesPin` | benchmarks/certus-connector-bench/bench_connector_lifecycle.py:540-552 | a run in which a rank has a job whose keys were given back |
| `StepLoopFacts.StrayLoadLeaks` | benchmarks/certus-connector-bench/bench_connector_lifecycle.py:540-552 | a run in which a rank has such a job and its keys are still pinned |
| `StepLoopFacts.AreaMeaning` | benchmarks/certus-connector-bench/bench_connector_lifecycle.py:729-735 | the area is the sum over the reaped jobs in the log, each once and every reaping counted, of reap sample minus start sample, plus the ages of outstanding ones; once none is outstanding it is that sum |
| `StepLoopFacts.LivesCount` | benchmarks/certus-connector-bench/bench_connector_lifecycle.py:880-904 | every reaping in the log ends exactly one life |
| `StepLoopFacts.UnpinFailureLeaks` | benchmarks/certus-connector-bench/bench_connector_lifecycle.py:547-551 | a run after whose abort keys are still pinned |
| `Sizing.RequestsFit` | benchmarks/certus-connector-bench/bench_connector_lifecycle.py:2264-2272 | every request fits one slot if and only if prefixes are shared or there is at least one block |
| `Sizing.RegionsHoldEveryJob` | benchmarks/certus-connector-bench/bench_connector_lifecycle.py:3074-3097 | in the default, contention (with and without stores) and scheduler-step modes every outstanding job addresses blocks below gpu_blocks |
| `Sizing.LoopFits` | benchmarks/certus-connector-bench/bench_connector_lifecycle.py:3074-3097 | each of a mode's step loops fits the regions |
| `Sizing.ColdSlotsFit` | benchmarks/certus-connector-bench/bench_connector_lifecycle.py:3082-3087 | so do the cold pass's slots |
| `SchedulerStates.TakeRetryOrderly` | benchmarks/certus-connector-bench/bench_connector_lifecycle.py:2185-2190 | taking a request to retry keeps every part of the scheduler invariant; what it takes to be cached is exactly what the jobs it waited on loaded, and all of them have ended |
| `SchedulerStates.NewRequestOrderly` | benchmarks/certus-connector-bench/bench_connector_lifecycle.py:2195-2197 | so does a new request |
| `SchedulerStates.PutDelayedOrderly` | benchmarks/certus-connector-bench/bench_connector_lifecycle.py:2151-2155 | a delayed request waits on a non-empty set of outstanding jobs |
| `SchedulerStates.PutLoadingOrderly` | benchmarks/certus-connector-bench/bench_connector_lifecycle.py:2158-2168 | a request's own load job marks exactly its hits, none of them in another job |
| `SchedulerStates.PutReadyOrderly` | benchmarks/certus-connector-bench/bench_connector_lifecycle.py:2169-2170 | a request without hits can compute |
| `SchedulerStates.ComputedOrderly` | benchmarks/certus-connector-bench/bench_connector_lifecycle.py:2201-2205 | a computing request leaves the queues and its blocks fit a slot |
| `SchedulerStates.FinishedOrderly` | benchmarks/certus-connector-bench/bench_connector_lifecycle.py:2211-2215 | an ended load job unmarks its keys and its request can compute |
| `SchedulerStates.WokenOrderly` | benchmarks/certus-connector-bench/bench_connector_lifecycle.py:2216-2222 | a request that waited on it learns exactly its keys and is retried when it was the last |
| `SchedulerStates.SkipsAdded` | benchmarks/certus-connector-bench/bench_connector_lifecycle.py:2132-2134 | a counted request skipped exactly its leading keys that ended jobs it waited on had loaded |
| `SchedulerStates.WaitedMore` | benchmarks/certus-connector-bench/bench_connector_lifecycle.py:2151-2155 | a request waits only on jobs that load one of its own keys |
| `SchedulerStates.LinkedLaunched` | benchmarks/certus-connector-bench/bench_connector_lifecycle.py:2163-2164 | the scheduler's jobs stay exactly the loop's outstanding load jobs, with fresh ids |
| `Schedulers.Skip` | benchmarks/certus-connector-bench/bench_connector_lifecycle.py:2132-2134 | exactly the leading cached keys are skipped |
| `Schedulers.FindHits` | benchmarks/certus-connector-bench/bench_connector_lifecycle.py:2136-2150 | the hits are a prefix of the rest; raises exactly when one of its calls does |
| `Schedulers.Mark` | benchmarks/certus-connector-bench/bench_connector_lifecycle.py:2165-2166 | every hit is marked with the job, nothing else changes |
| `Schedulers.Decide` | benchmarks/certus-connector-bench/bench_connector_lifecycle.py:2151-2170 | only a hit in another job's load delays, only hits with no free slot are refused; exact new state of scheduler and loop for every verdict |
| `Schedulers.Admit` | benchmarks/certus-connector-bench/bench_connector_lifecycle.py:2121-2170 | exactly the leading cached keys are skipped, the hits are a prefix of the rest, and the verdict is Decide's |
| `Schedulers.AttemptSteady` | benchmarks/certus-connector-bench/bench_connector_lifecycle.py:2121-2170 | every verdict but no slot keeps the whole invariant, scheduler and loop together |
| `Schedulers.AttemptFlow` | benchmarks/certus-connector-bench/bench_connector_lifecycle.py:2158-2170 | every counted prefix hit was skipped or went to the loop's loads |
| `Schedulers.RetryStep` | benchmarks/certus-connector-bench/bench_connector_lifecycle.py:2185-2190 | a retry keeps the invariant and lowers the measure, though it may be delayed again; it skips exactly its leading keys that jobs it waited on had loaded, and those jobs have ended; the trail grows by this alone |
| `Schedulers.RetryPass` | benchmarks/certus-connector-bench/bench_connector_lifecycle.py:2185-2190 | retries run first come first served until one finds no slot; the trail only grows, waits only by jobs that had not ended |
| `Schedulers.AdmitPass` | benchmarks/certus-connector-bench/bench_connector_lifecycle.py:2191-2199 | at most requests_per_step are admitted, none past a waiting retry, and the live requests never exceed requests_per_step + inflight; the trail only grows |
| `Schedulers.ComputePass` | benchmarks/certus-connector-bench/bench_connector_lifecycle.py:2200-2205 | computable requests store in order while a slot is free |
| `Schedulers.Unmark` | benchmarks/certus-connector-bench/bench_connector_lifecycle.py:2212-2214 | exactly the job's own keys are unmarked |
| `Schedulers.WakeAll` | benchmarks/certus-connector-bench/bench_connector_lifecycle.py:2216-2222 | afterwards nobody waits on the ended job, and no request is lost |
| `Schedulers.FinishLoad` | benchmarks/certus-connector-bench/bench_connector_lifecycle.py:2208-2222 | one reaped load job, end to end |
| `Schedulers.FinishBatch` | benchmarks/certus-connector-bench/bench_connector_lifecycle.py:2208-2222 | a whole batch keeps the invariant and the number of live requests |
| `Schedulers.ReapPass` | benchmarks/certus-connector-bench/bench_connector_lifecycle.py:2207-2222 | a poll with jobs outstanding lowers the weight or uses up patience; the trail's ended jobs are exactly the load jobs the step loop has reaped, with the keys it reaped them with |
| `Schedulers.NeverStuck` | benchmarks/certus-connector-bench/bench_connector_lifecycle.py:2184-2226 | no deadlock: with nothing left to schedule and something queued, a job is outstanding |
| `Schedulers.Tick` | benchmarks/certus-connector-bench/bench_connector_lifecycle.py:2178-2227 | a tick keeps the invariant, the backlog bound and the trail; one that admits nobody ends the run or lowers the measure (weight, retry list, patience); it raises exactly when something went wrong |
| `Schedulers.Run` | benchmarks/certus-connector-bench/bench_connector_lifecycle.py:2177-2229 | every run ends; it raises if and only if a call or submission it made was in the plan or a transfer it reaped failed. If not, nothing is queued, in flight, pinned or reserved, every admitted request was counted, prefix hits plus suffix stores are all their keys, loaded keys plus those skipped by each request are the prefix hits, each skipped exactly its leading keys loaded by reaped jobs it waited on, and stored plus dropped blocks are the suffix stores. If it raised, the loop was aborted and, with nothing outstanding, nothing is held if and only if no final release of a non-empty claim was in the plan |
| `Schedulers.EndTotals` | benchmarks/certus-connector-bench/bench_connector_lifecycle.py:2159-2161 | hits plus stores equal the summed key counts of all requests |
| `Schedulers.EndFlow` | benchmarks/certus-connector-bench/bench_connector_lifecycle.py:2248-2254 | the figures of the report agree: loaded and skipped with prefix hits, stored and dropped with suffix stores |
| `Schedulers.EndSkips` | benchmarks/certus-connector-bench/bench_connector_lifecycle.py:2132-2134 | what each request skipped and why: the jobs it waited on were reaped by the step loop and had loaded those keys |
| `Schedulers.EachRequestOnce` | benchmarks/certus-connector-bench/bench_connector_lifecycle.py:2099-2110 | each request below next_req is in exactly one of retry, delayed, blocked, computable, or past them |
| `Schedulers.NobodyStranded` | benchmarks/certus-connector-bench/bench_connector_lifecycle.py:2103-2104 | every delayed request awaits a non-empty set of load jobs outstanding in the loop |
| `Schedulers.LoadingExact` | benchmarks/certus-connector-bench/bench_connector_lifecycle.py:2100 | `loading` maps a key to a job if and only if that outstanding load job loads it |
| `LoadWindows.JobUnitsJoined` | benchmarks/certus-connector-bench/bench_connector_lifecycle.py:1019-1020 | the units are the keys, in order, none lost or repeated |
| `LoadWindows.Shuffled` | benchmarks/certus-connector-bench/bench_connector_lifecycle.py:991-992 | the order is a permutation of the units |
| `LoadWindows.NextIdle` | benchmarks/certus-connector-bench/bench_connector_lifecycle.py:994 | the first unit of the order not in flight |
| `LoadWindows.Attempt` | benchmarks/certus-connector-bench/bench_connector_lifecycle.py:997-998 | attempts stay passes minus one for units still in the order |
| `LoadWindows.TallyLaunched` | benchmarks/certus-connector-bench/bench_connector_lifecycle.py:798-815 | keys asked for stay equal to keys loaded, missed or in flight |
| `LoadWindows.BusyReaped` | benchmarks/certus-connector-bench/bench_connector_lifecycle.py:1002-1005 | after a reap the busy units are again exactly those of outstanding load jobs |
| `LoadWindows.LoadScheduler.Start` | benchmarks/certus-connector-bench/bench_connector_lifecycle.py:994-1000 | one attempt keeps attempts, busy units and the key count right |
| `LoadWindows.LoadScheduler.Fill` | benchmarks/certus-connector-bench/bench_connector_lifecycle.py:987-1000 | so does filling the free slots |
| `LoadWindows.EndTally` | benchmarks/certus-connector-bench/bench_connector_lifecycle.py:1119-1139 | at a pass boundary with nothing outstanding, blocks plus misses are passes times the working set |
| `LoadWindows.LoadWindow` | benchmarks/certus-connector-bench/bench_connector_lifecycle.py:1119-1139 | it raises if and only if something went wrong. If the window ends without a failure every unit was attempted exactly `passes` times, at least min_passes, and blocks loaded plus misses equal passes times the working set; after a failure and the abort, with nothing outstanding, nothing is held if and only if no final release of a non-empty claim was in the plan |
| `ColdLoads.StartJob` | benchmarks/certus-connector-bench/bench_connector_lifecycle.py:1462-1473 | a slot is free whenever fewer than inflight jobs are outstanding; the unit is missed or in flight; raises exactly when a call or submission it made is in the plan, and then exactly the keys in flight are pinned, and those of a release that raised |
| `ColdLoads.Launch` | benchmarks/certus-connector-bench/bench_connector_lifecycle.py:540-552 | pins and submits; if submitting raises the pins are given back in the next call, or stuck if that raises |
| `ColdLoads.Land` | benchmarks/certus-connector-bench/bench_connector_lifecycle.py:1478-1490 | every job of a batch gives its slot back and is unpinned; raises exactly when unpinning does, and then that job's keys stay pinned |
| `ColdLoads.DrainRest` | benchmarks/certus-connector-bench/bench_connector_lifecycle.py:1491-1497 | after a failure everything in flight is drained, unless unpinning raises |
| `ColdLoads.ColdPass` | benchmarks/certus-connector-bench/bench_connector_lifecycle.py:1455-1498 | the pass ends; it raises if and only if a call or submission it made is in the plan or a transfer failed. If not, every key of every unit was loaded or missed, once, and nothing is pinned. If only transfers failed, everything was drained. Otherwise exactly the keys of the jobs in flight are pinned, and those of a release that raised |
| `ColdLoads.RangesApart` | benchmarks/certus-connector-bench/bench_connector_lifecycle.py:1464-1473 | jobs in flight together address disjoint blocks |
| `ColdLoads.RangeWithin` | benchmarks/certus-connector-bench/bench_connector_lifecycle.py:1464-1473 | every job in flight addresses blocks below inflight x unit_len |
| `CpuTiers.CpuTierLoop.constructor` | benchmarks/cputier-connector-bench/bench_cputier_lifecycle.py:1317-1334 | all slots are free |
| `CpuTiers.CpuTierLoop.Resolve` | benchmarks/cputier-connector-bench/bench_cputier_lifecycle.py:1358-1368 | exactly the keys not yet resolved are looked up, each once, in order, and the answers decide; unless an answer was deferred, every key is resolved and every key found in this pass is still in the tier |
| `CpuTiers.CpuTierLoop.Revalidate` | benchmarks/cputier-connector-bench/bench_cputier_lifecycle.py:1389-1397 | exactly the keys found are looked up once more; unless an answer was deferred, every key found is in the tier now |
| `CpuTiers.CpuTierLoop.LookupPass` | benchmarks/cputier-connector-bench/bench_cputier_lifecycle.py:1354-1417 | what becomes of a job is a function of the answers: parked if and only if one was deferred, ended if and only if no key was found, else submitted with exactly the keys found, all of them in the tier at that moment; raises if and only if one of its calls is in the plan |
| `CpuTiers.CpuTierLoop.EndPass` | benchmarks/cputier-connector-bench/bench_cputier_lifecycle.py:1378-1417 | the job is parked, released or submitted, by its keys' status; slots, units and keys stay accounted for |
| `CpuTiers.CpuTierLoop.StartLoad` | benchmarks/cputier-connector-bench/bench_cputier_lifecycle.py:1338-1352 | a started job takes a slot; slots, units and keys stay accounted for; raises if and only if one of its calls is in the plan |
| `CpuTiers.CpuTierLoop.RetryParked` | benchmarks/cputier-connector-bench/bench_cputier_lifecycle.py:1419-1422 | so they do over a retry of all parked jobs |
| `CpuTiers.CpuTierLoop.Reap` | benchmarks/cputier-connector-bench/bench_cputier_lifecycle.py:1469-1508 | and over a poll, whatever results it returns; raises if and only if a call is in the plan or the first report of a pending job is a failure |
| `CpuTiers.CpuTierLoop.ReleasedLoads` | benchmarks/cputier-connector-bench/bench_cputier_lifecycle.py:1430-1433 | released units are handed over once and leave the busy set |
| `CpuTiers.PlacesApart` | benchmarks/cputier-connector-bench/bench_cputier_lifecycle.py:1424-1433 | no slot is in two of free, parked and pending; no unit is outstanding twice |
| `CpuTiers.PlaceKnown` | benchmarks/cputier-connector-bench/bench_cputier_lifecycle.py:1424-1433 | every slot found somewhere is one of the loop; every parked or pending unit is busy |
| `CpuTiers.PlaceOf` | benchmarks/cputier-connector-bench/bench_cputier_lifecycle.py:1424-1433 | every slot is in one of them; after a tick every busy unit is parked or pending |
| `CpuTiers.BusyExact` | benchmarks/cputier-connector-bench/bench_cputier_lifecycle.py:1424-1433 | with nothing just released, a unit is busy if and only if it is parked or pending |
| `CpuTiers.KeysAccounted` | benchmarks/cputier-connector-bench/bench_cputier_lifecycle.py:1405-1410 | loaded plus missed plus parked plus pending keys equal keys started |
| `CpuTiers.FillLoads` | benchmarks/cputier-connector-bench/bench_cputier_lifecycle.py:1764-1776 | the units started were idle, each is started once, and they are exactly the units newly busy |
| `CpuTiers.ContentionTick` | benchmarks/cputier-connector-bench/bench_cputier_lifecycle.py:1756-1789 | after each tick a unit is busy if and only if it is parked or pending; raises if and only if a call is in the plan or the first report of a job then pending is a failure |
| `Routers.StepSound` | benchmarks/kv-offload-replay/longdoc_router.py:155-170 | every step of every worker keeps: each unfinished conversation exactly once queued or held, live their number, turns in order with the dialogue so far as context, first in first out |
| `Routers.RunSound` | benchmarks/kv-offload-replay/longdoc_router.py:139-176 | so every state of every run satisfies it, for any number of workers |
| `Routers.SomeoneHolds` | benchmarks/kv-offload-replay/longdoc_router.py:157-159 | while a worker waits another holds a conversation |
| `Routers.NoDeadlock` | benchmarks/kv-offload-replay/longdoc_router.py:155-170 | unless all workers exited, one can make a step other than waking up |
| `Routers.ExitAtEnd` | benchmarks/kv-offload-replay/longdoc_router.py:158-161 | a worker exits only when every conversation has ended |
| `Routers.BoundedBypass` | benchmarks/kv-offload-replay/longdoc_router.py:151-167 | between a turn being queued and taken exactly the turns then waiting are taken, in order, each conversation once |
| `RouterRuns.ScoreStep` | benchmarks/kv-offload-replay/longdoc_router.py:155-170 | every step but waiting and waking up counts one against a supply read off the state |
| `RouterRuns.BoundedRun` | benchmarks/kv-offload-replay/longdoc_router.py:139-176 | no run makes more than three such steps per turn and one per worker, however often its waits end spuriously |
| `RouterRuns.FullRun` | benchmarks/kv-offload-replay/longdoc_router.py:139-176 | a run that ended took every turn it queued; if every turn was answered it took all turns of all conversations and made exactly so many steps |
| `RouterRuns.EndReachable` | benchmarks/kv-offload-replay/longdoc_router.py:155-176 | from every state reached, a run can be completed |
| `Routers.LockstepHolds` | benchmarks/kv-offload-replay/longdoc_router.py:139-148 | one worker, or no three-turn conversation beside a two-turn one: no turn k is taken off the queue after a turn k + 1 |
| `Routers.OutOfStep` | benchmarks/kv-offload-replay/longdoc_router.py:139-148 | otherwise some run takes a turn 2 before a turn 1, every turn being answered |
| `Routers.LockstepExactly` | benchmarks/kv-offload-replay/longdoc_router.py:139-148 | turns are taken in lockstep in every run if and only if that condition holds |
| `Routers.SentLockstepHolds` | benchmarks/kv-offload-replay/longdoc_router.py:86-94 | one worker, or no two-turn conversation beside another: no turn k is sent after a turn k + 1 |
| `Routers.SentOutOfStep` | benchmarks/kv-offload-replay/longdoc_router.py:86-94 | otherwise some run sends a turn 1 before a turn 0, every turn being answered |
| `Routers.SentLockstepExactly` | benchmarks/kv-offload-replay/longdoc_router.py:28-31 | turns are sent in the documented order in every run if and only if that condition holds |
| `Routers.BetweenHolds` | benchmarks/kv-offload-replay/longdoc_router.py:139-148 | one worker, or no three-turn conversation beside a later one and no two-turn one beside an earlier: every other live conversation takes a turn between two turns of one |
| `Routers.Lapped` | benchmarks/kv-offload-replay/longdoc_router.py:139-148 | otherwise some run takes two turns of one conversation with none of another live one in between, every turn being answered |
| `Routers.BetweenExactly` | benchmarks/kv-offload-replay/longdoc_router.py:139-148 | the documented alternation holds in every run if and only if that condition holds |
| `IntervalOverlaps.SortedIs` | benchmarks/certus-fio/certus_fio.py:597-598 | the lists are sorted permutations |
| `IntervalOverlaps.PairSymmetric` | benchmarks/certus-fio/certus_fio.py:594-595 | the all-pairs total does not depend on the argument order |
| `IntervalOverlaps.PairSortedBoth` | benchmarks/certus-fio/certus_fio.py:597-598 | nor on the lists' order |
| `IntervalOverlaps.MeetLeft` | benchmarks/certus-fio/certus_fio.py:610-611 | advancing left from a met pair loses no met pair |
| `IntervalOverlaps.MeetRight` | benchmarks/certus-fio/certus_fio.py:612-613 | nor does advancing right |
| `IntervalOverlaps.Sweep` | benchmarks/certus-fio/certus_fio.py:599-614 | the loop counts exactly the met pairs, each once |
| `IntervalOverlaps.MetTotal` | benchmarks/certus-fio/certus_fio.py:594-614 | the met pairs give the all-pairs total if and only if every overlapping pair is met, else less in both figures |
| `IntervalOverlaps.IntervalOverlap` | benchmarks/certus-fio/certus_fio.py:594-614 | count and duration are lower bounds, and exact if and only if every overlapping pair is met |
| `IntervalOverlaps.DisjointExact` | benchmarks/certus-fio/certus_fio.py:594-595 | lists that do not overlap themselves are swept exactly, in either order, with equal figures |
| `IntervalOverlaps.SweepMisses` | benchmarks/certus-fio/certus_fio.py:603-613 | a family of inputs on which the sweep misses a pair |
| `IntervalOverlaps.SweepMissesExample` | benchmarks/certus-fio/certus_fio.py:603-613 | one of them |
| `ThreeFs.Ring.AllocBlocks` | benchmarks/3fs-connector-bench/bench_3fs_lifecycle.py:302-306 | the n blocks following each other around the ring from the cursor, all of them the ring's, distinct if and only if n is at most its size; the cursor is left after the last |
| `ThreeFs.AdvanceIs` | benchmarks/3fs-connector-bench/bench_3fs_lifecycle.py:302-306 | going on block by block around the ring is adding modulo its size |
| `ThreeFs.WindowJoin` | benchmarks/3fs-connector-bench/bench_3fs_lifecycle.py:302-306 | two allocations in a row are one of both sizes |
| `ThreeFs.WindowDistinct` | benchmarks/3fs-connector-bench/bench_3fs_lifecycle.py:302-306 | the ids are distinct if and only if no more are asked for than the ring has |
| `ThreeFs.SubmitLoads` | benchmarks/3fs-connector-bench/bench_3fs_lifecycle.py:795 | loads submitted in turn get one stretch of the ring |
| `ThreeFs.Hits` | benchmarks/3fs-connector-bench/bench_3fs_lifecycle.py:783-792 | exactly the non-empty stored prefixes of the requests, in order; each is a prefix of the pool, together at most a pool per request |
| `ThreeFs.LoadsFit` | benchmarks/3fs-connector-bench/bench_3fs_lifecycle.py:988-993 | the ring holds a pool for every request of a step |
| `ThreeFs.LoadStep` | benchmarks/3fs-connector-bench/bench_3fs_lifecycle.py:783-800 | the loads are the requests' stored prefixes, each gets as many blocks as it has keys, and all blocks of the step are distinct and the ring's |
| `ThreeFs.SaveStep` | benchmarks/3fs-connector-bench/bench_3fs_lifecycle.py:806-809 | the saves are what follows each request's stored prefix; their blocks are distinct if and only if they are no more than the ring has; with the pool stored each request saves exactly its own keys and they always are |
| `ThreeFs.SavesOwnKeys` | benchmarks/3fs-connector-bench/bench_3fs_lifecycle.py:806 | with the pool stored, a request saves exactly its own keys |
| `ThreeFs.SavesOverrun` | benchmarks/3fs-connector-bench/bench_3fs_lifecycle.py:988-993 | without it, a step whose saves are more than the ring has |
| `Compositions.SplitTarget` | apps/certus-server-yaml/build.rs:73-79 | a target names the component before its dot and the receptacle after it |
| `Compositions.ValidateManifest` | apps/certus-server-yaml/build.rs:68-125 | accepts exactly the manifests all of whose references resolve |
| `Compositions.EmitOrdered` | apps/certus-server-yaml/build.rs:260-268 | non-factory components in init order |
| `Compositions.EmitOthers` | apps/certus-server-yaml/build.rs:270-276 | then the ones not in it, in map order |
| `Compositions.EmitQueries` | apps/certus-server-yaml/build.rs:281-305 | one variable per provided interface |
| `Compositions.EmitConnects` | apps/certus-server-yaml/build.rs:310-336 | one connection per wiring, in order; panics exactly when a source provides nothing |
| `Compositions.EmitInjects` | apps/certus-server-yaml/build.rs:340-446 | the factories; panics exactly on a block device receptacle it does not know |
| `Compositions.EmitHooks` | apps/certus-server-yaml/build.rs:450-464 | hooks in init order; panics exactly when a hooked component provides nothing |
| `Compositions.GenerateComposition` | apps/certus-server-yaml/build.rs:150-494 | the program, for any map order; panics exactly on manifests it cannot generate |
| `CompositionMeanings.ProgramMeans` | apps/certus-server-yaml/build.rs:258-494 | for an accepted manifest whose dispatcher and wiring targets are non-factory and whose wired, hooked and exported interfaces own their variables: the program runs, for any map order, and does what the manifest means: every wiring in order, resolved to the interface it names, before any hook, hooks in init order, exports as declared |
| `CompositionMeanings.RunsExactly` | apps/certus-server-yaml/build.rs:258-494 | for one map order, the program does what the manifest means if and only if it is in scope and every interface used is the last one queried into its variable |
| `CompositionMeanings.MeansExactly` | apps/certus-server-yaml/build.rs:258-494 | for every map order, if and only if the dispatcher and the wiring targets are non-factory and every interface used owns its variable: no other component shares it, and it is its component's last of that name |
| `CompositionMeanings.CollisionFreeMeans` | apps/certus-server-yaml/build.rs:281-305 | it is enough that no two interfaces share a variable and that those wired and exported are provided |
| `CompositionMeanings.FactoryDispatcher` | apps/certus-server-yaml/build.rs:68-125 | a manifest that validation accepts and whose program is out of scope |
| `CompositionMeanings.SharedVariable` | apps/certus-server-yaml/build.rs:281-305 | a manifest that validation accepts and whose program, in scope, wires the wrong interface for some map order |
| `Compositions.ScopedExactly` | apps/certus-server-yaml/build.rs:258-494 | every variable is defined before its use, for any map order, if and only if the dispatcher and the wiring targets are non-factory and wired and exported interfaces have variables |
| `Compositions.MadeOnce` | apps/certus-server-yaml/build.rs:258-276 | each non-factory component is made exactly once |
| `TraceRemaps.MaxId` | benchmarks/kv-offload-replay/cc_trace_to_mooncake.py:76-80 | the largest local id of a conversation, at least -1 |
| `TraceRemaps.BaseGrows` | benchmarks/kv-offload-replay/cc_trace_to_mooncake.py:81-82 | each conversation's ids end before the next one's start |
| `TraceRemaps.RemapInjective` | benchmarks/kv-offload-replay/cc_trace_to_mooncake.py:75-82 | global ids are equal if and only if conversation and local id are, given that the later conversation's id is not negative |
| `TraceRemaps.RemapExactly` | benchmarks/kv-offload-replay/cc_trace_to_mooncake.py:75-82 | a later conversation's local id never collides with an earlier one's if and only if it is not negative |
| `TraceRemaps.NegativeIdsCollide` | benchmarks/kv-offload-replay/cc_trace_to_mooncake.py:75-82 | every negative id collides in some trace |
| `TraceRemaps.CeilDivIs` | benchmarks/kv-offload-replay/cc_trace_to_mooncake.py:97 | the quotient rounded up, as its two bounds |
| `TraceRemaps.ConvertRequest` | benchmarks/kv-offload-replay/cc_trace_to_mooncake.py:85-106 | each request's fate, counted once; raises exactly when a row has no timestamp |
| `TraceRemaps.ConvertConversation` | benchmarks/kv-offload-replay/cc_trace_to_mooncake.py:84-106 | one conversation's rows and counters |
| `TraceRemaps.Convert` | benchmarks/kv-offload-replay/cc_trace_to_mooncake.py:54-106 | every request to be written out has exactly one row, in order; the counters are the numbers of each fate |
| `TraceRemaps.EveryRequestCounted` | benchmarks/kv-offload-replay/cc_trace_to_mooncake.py:85-106 | requests in = rows + filtered + incomplete + over context + bad |
| `TraceRemaps.GlobalIds` | benchmarks/kv-offload-replay/cc_trace_to_mooncake.py:96-105 | two emitted ids are equal if and only if they name the same block of the same conversation, unless a conversation after the first has a negative id |
| `TraceRemaps.RowsFit` | benchmarks/kv-offload-replay/cc_trace_to_mooncake.py:97-99 | every row fits its own conversation's block size |
| `TraceRemaps.SizesDiffer` | benchmarks/kv-offload-replay/cc_trace_to_mooncake.py:97-99 | some input length tells any two block sizes apart |
| `TraceRemaps.SizesExactly` | benchmarks/kv-offload-replay/cc_trace_to_mooncake.py:68-73 | every row of every trace with these block sizes fits the reported one if and only if all conversations have that one and it is not zero |
| `TraceRemaps.MixedSizesMisfit` | benchmarks/kv-offload-replay/cc_trace_to_mooncake.py:68-73 | a row that does not fit the reported size |

## Left out

- Bytes, tensors, pipes, sockets and files: transfers are job ids and keys, and the block verifier only raises or not.
- Timing: phases, percentiles, throughput, `_step_idle` and the time limits; a limit on polls is a number of polls, and whether a parked job has waited too long is a numbered call of the fault plan.
- Floating point: clock readings, areas and interval ends are real numbers, so rounding is not modelled; `math.ceil(n / d)` is exact.
- Hash collisions between content keys.
- Asynchronous interrupts, and pipes that fail other than in a submission.
- Which request is woken first when one job ends: Python's dictionary order is any order here.
- The store side of the cputier `StepLoop`, its abort and `_CputierTPWorkerGroup`: they repeat the step loop's stores and its tensor-parallel group with fewer cases.
- The contention, store, warm and mixed-eviction benches beyond the step loop and scheduler they drive; `_populate_jobs` and `_verify_load_back`.
- CpuTiers.ContentionTick: loads only; the stores of a tick are not modelled.
- LoadWindows.LoadWindow: partial correctness only. It need not end, since it stops only at an exact pass boundary, so it is given finitely many clock readings.
- Schedulers.Run: for workloads whose requests fit a slot, which RequestsFit characterises; keys are computed by the workload's formulas, not hashed.
- Aliasing in the scheduler: the closure's variables are passed and returned as one record.
- `_record_operation_overlaps`: it stores each pair's figures twice.
- The 3FS step loop: only the ring, the loads and saves of a scheduler step and the sizes.
- The text of the generated Rust: statements are abstract, a factory's closure is one statement, and interface names are lower-cased in ASCII only.
- That the router's runs end: waits may end spuriously any number of times, so what is claimed is the bound on the other steps and that every run can be completed.
- The scheduler's delay counter, of which nothing is claimed.
- The router's retired and failed turns are both a missing answer; what is logged is not modelled.
- JSON parsing, argument parsing and output formats.
