# Proofs about Yuxi's stateful cores

A Dafny model of the parts of Yuxi whose correctness depends on the order of events, with proofs over all inputs, all
interleavings or all runs. `dafny verify dfyconfig.toml` checks everything.

## The sandbox provisioner

The main part. Each shared object is a class with a specification function per critical section: operation pins
(`OperationPins`), the quiescence gate (`QuiescenceGate`), the lock table with its delete slots (`SandboxLocks`), the
memory backend (`SandboxRecords`) and the idle reaper's tracker (`IdleReaper`). `Condition.wait` puts the caller in a
set of sleepers, `notify_all` empties the set.

`Provisioner` puts them together: every request handler, reaper and quiesce worker is a program counter, one step is one
critical section, and steps interleave freely. What the outside world decides (failures, expired deadlines, the
clock, new generations, whether a container is stale) is a free choice. With the memory backend a backend call is one
step; with the Docker backend it walks through lock, nested delete, network mutex and slot, and a lookup may delete a
stale container too, without a generation to compare.
`ProvisionerInvariants`, `ProvisionerData`, `ProvisionerQuiesce` and `ProvisionerProgress` prove what every step keeps,
and `ProvisionerRuns` and `ProvisionerPolicies` state the results over whole runs. The wait order is one rank of program
counters: every wait goes down in it, so threads that wait for nobody but each other always have a mover among them.
`ProvisionerActivity` and `ProvisionerOutcomes` follow single requests through a run: what each has left in the tracker
when it is done, at which numbers the reaper condemns, what deletes and quiescing answer. They speak of the shared state
and the clock, and of program counters only where a request begins, looks up, deletes and ends.

Two promises hold only up to a limit, and the limit is proved as well:

* `_deleting` is a set, so the first of two overlapping deletes of one sandbox opens it again. Pins are excluded from
  delete windows until that happens, and the exclusion can break exactly when two deleters are registered
  (`OperationPins.OverlapIsExactlyTheLimit`).
* `remember` and `touch` are two steps. With them as one step a resident sandbox is never reaped
  (`ProvisionerRuns.ResidentNeverReaped`). With the code as it is, `ProvisionerLimits` has two runs in which it is: a
  late `forget` falls between the two steps, or a late `remember` of an earlier create comes after both. For every run,
  `ProvisionerPolicies.AtRiskExactly` says when: a tracked generation can be condemned if and only if the last step that
  wrote the policy of its id did not set "never".

`SubnetAllocator` is the Docker address pool: aligned blocks (the notation of section 3.1 of RFC 4632), first fit, and the
retry loop. `StorageInit` is the start-up script that fixes a tree's owner and modes once: the recursion on a tree, and
any number of processes, system call by system call, that may die anywhere (`StorageRuns` has the results over runs).

## Streams and stores

`StreamSmoother` plays buffered text back at a rate that follows what is buffered, so that every 600 ms halve it;
`SseStream` is the event-stream parser with the server's printer (section 9.2.6 of the WHATWG HTML Standard);
`CodingTail` is the server's polling loop; `RunCursor` is the browser's cursor over a run's log. `TaskerStore` and
`ProjectsStore` are client stores whose requests are answered late, out of order or never. `LoginLimiter`, `FenceFilter`
(section 4.5 of the CommonMark Spec) and `TrajectorySummary` are smaller loops with properties over all
histories.

These findings follow from the code and are proved:

* A response that ends between an event's data line and its id line still dispatches the event, without id
  (`SseStream.CutLosesAtMostAnId`); the cursor does not move, so the next stream brings the event again, and
  `RunCursor.OnceIffLastCut` says exactly when an event is handled twice. A connection that breaks does not do this
  (`SseStream.BrokenStream`).
* Events with ids are taken once as long as every stream is started from the cursor of that moment. A resume reads its
  cursor before it waits for the server, and a stream opened by the reconnect timer meanwhile makes it start from the past:
  `RunCursor.StartIsSafeExactly` is the exact condition, `RunCursor.LateResumeTakesTwice` the run.
* Terminal attachments are recorded after a session has ended. What is appended after the tail's last read of a page
  is never sent (`CodingTail.AllSentIffNoLateAppend`, `CodingTail.LateAppendIsLost`).
* The limiter's `Retry-After` is cut off to whole seconds while the window comparison is strict, so waiting exactly that
  long is too short unless less than a second was left (`LoginLimiter.ToldTimeIsShort`).
* With list items, filtering the fence filter's output can hide more lines (`FenceFilter.RefilterCanHideInLists`);
  `FenceFilter.RefilterExactly` says when.
* A call whose id has the form of a made-up key can be counted together with a call without id
  (`TrajectorySummary.CountedApartExactly`, `TrajectorySummary.IdTakesMadeUpKey`).

Lengths, counters and generations are unbounded integers, clock times and rates are reals, text is a sequence of
characters (lengths are in characters, where the browser counts UTF-16 units).

## Model

| member | source | states |
|---|---|---|
| OperationPins.SandboxOperationPins.Acquire | docker/sandbox_provisioner/app.py:451-455 | pins an open id and counts it; a thread that meets a deleted id is put to sleep and nothing else changes |
| OperationPins.SandboxOperationPins.Release | docker/sandbox_provisioner/app.py:457-464 | takes one pin back; the last one removes the entry and wakes every sleeper |
| OperationPins.SandboxOperationPins.BeginDelete | docker/sandbox_provisioner/app.py:466-470 | closes the id and reports whether it is drained; if not, the caller sleeps |
| OperationPins.SandboxOperationPins.AwaitDrain | docker/sandbox_provisioner/app.py:469-470 | the recheck after a wake-up: done only when no pin is left |
| OperationPins.SandboxOperationPins.EndDelete | docker/sandbox_provisioner/app.py:472-475 | opens the id and wakes every sleeper |
| OperationPins.InvKept | docker/sandbox_provisioner/app.py:443-475 | every step of every thread keeps: the counter of an id is the number of threads that hold a pin, a sleeper's condition is false (no lost wake-up, for any number of deleters), and a count never goes up while its id is being deleted |
| OperationPins.ExclusiveRun | docker/sandbox_provisioner/app.py:451-475 | over any run with no second delete of the id: the id stays closed and no pin is held inside the delete window |
| OperationPins.OverlapBreaks | docker/sandbox_provisioner/app.py:466-475 | two overlapping deleters: a run, built in the proof, ends with a pin held inside a delete window |
| OperationPins.OverlapIsExactlyTheLimit | docker/sandbox_provisioner/app.py:466-475 | the exclusion can break without any further delete if and only if two deleters of the id are registered now |
| QuiescenceGate.SandboxQuiescenceGate.Begin | docker/sandbox_provisioner/app.py:486-490 | closes the gate for good and reports whether creates are still in progress; if so the caller sleeps |
| QuiescenceGate.SandboxQuiescenceGate.AwaitEmpty | docker/sandbox_provisioner/app.py:489-490 | the recheck after a wake-up |
| QuiescenceGate.SandboxQuiescenceGate.AcquireCreate | docker/sandbox_provisioner/app.py:492-498 | admits a create exactly while the gate is open |
| QuiescenceGate.SandboxQuiescenceGate.ReleaseCreate | docker/sandbox_provisioner/app.py:500-504 | counts a create out; the last one wakes every sleeper |
| QuiescenceGate.InvKept | docker/sandbox_provisioner/app.py:478-504 | every step keeps: the counter is the number of creates in progress, sleepers wait for a positive counter, and whoever has begun finds the gate closed and empty |
| QuiescenceGate.BegunIsQuietForever | docker/sandbox_provisioner/app.py:486-504 | when a `begin` returns, no create is in progress then or after any later steps |
| SandboxLocks.SandboxLockTable.SandboxLock | docker/sandbox_provisioner/app.py:724-731 | returns the object in the table or puts a new one there |
| SandboxLocks.SandboxLockTable.Enter | docker/sandbox_provisioner/app.py:1020 | takes a lock that is free or already held by the caller, counting re-entries |
| SandboxLocks.SandboxLockTable.Leave | docker/sandbox_provisioner/app.py:1020 | gives one entry back; the last frees the lock |
| SandboxLocks.InvKept | docker/sandbox_provisioner/app.py:628-630 | every step, including the collection of entries nobody refers to, keeps table, owners, mutex and slots right |
| SandboxLocks.OneLockPerSandbox | docker/sandbox_provisioner/app.py:629-731 | although entries may vanish, two threads that hold or want the lock of one sandbox refer to one object, and of two sandboxes to two |
| SandboxLocks.BodyExclusive | docker/sandbox_provisioner/app.py:1020 | at most one thread is in the create or delete body of a sandbox |
| SandboxLocks.NestedNeverWaits | docker/sandbox_provisioner/app.py:1056-1113 | the delete inside a create re-enters the lock it holds without waiting |
| SandboxLocks.DeletesBounded | docker/sandbox_provisioner/app.py:1316 | at most as many threads hold a delete slot as there are slots |
| SandboxLocks.WhoBlocks | docker/sandbox_provisioner/app.py:1313-1328 | whoever waits for a lock, the mutex or a slot waits for a thread that holds it |
| SandboxRecords.MemoryProvisionerBackend.Create | docker/sandbox_provisioner/app.py:521-563 | the existing record if there is one (an error if its work directory differs), else a new one with a new generation |
| SandboxRecords.LookupSees | docker/sandbox_provisioner/app.py:521-586 | a create fails if and only if there is a record with another work directory; otherwise its lookups and further creates answer the same record until a delete whose fence fits; then there is nothing, and a create makes a new generation; other ids stay as before |
| SandboxRecords.MemoryProvisionerBackend.List | docker/sandbox_provisioner/app.py:569-571 | lists each record exactly once |
| SandboxRecords.MemoryProvisionerBackend.Delete | docker/sandbox_provisioner/app.py:573-586 | removes the record unless another generation was expected; then nothing changes and the call fails |
| IdleReaper.SandboxIdleReaper.constructor | docker/sandbox_provisioner/app.py:1882-1906 | an idle timeout not above the command timeout is raised above it; a disabled one stays |
| IdleReaper.SandboxIdleReaper.Touch | docker/sandbox_provisioner/app.py:1908-1916 | records the activity, keeping the known generation when none is given |
| IdleReaper.SandboxIdleReaper.Remember | docker/sandbox_provisioner/app.py:1918-1930 | stores the policy of the record: its own timeout, never for a resident one, else the global one |
| IdleReaper.SandboxIdleReaper.Forget | docker/sandbox_provisioner/app.py:1932-1942 | drops activity and policy unless the tracked generation is not the expected one |
| IdleReaper.SandboxIdleReaper.SeedExisting | docker/sandbox_provisioner/app.py:1944-1959 | adds what is missing and overwrites nothing |
| IdleReaper.SandboxIdleReaper.CollectExpired | docker/sandbox_provisioner/app.py:1961-1979 | a tracked pair is found if and only if its last activity lies at least S seconds back, S > 0 being its own timeout or else the global one, and the reaper is enabled |
| IdleReaper.SandboxIdleReaper.Recheck | docker/sandbox_provisioner/app.py:1984-1990 | false if the id is untracked or tracked under another generation; otherwise true if and only if S > 0 and now - last activity >= S |
| IdleReaper.SeedKeepsTracked | docker/sandbox_provisioner/app.py:1953-1959 | seeding changes nothing about a sandbox that is tracked with its policy, and afterwards both entries are present for every record it lists |
| IdleReaper.SeedFillsGaps | docker/sandbox_provisioner/app.py:1953-1959 | an untracked listed record is afterwards tracked as active now under its own generation, and a missing policy is the record's own |
| IdleReaper.PolicyAfter | docker/sandbox_provisioner/app.py:1908-1942 | after anything other threads do to an id, its policy is still the one set before if and only if none of their writes was the last and wrote something else |
| IdleReaper.TwoStepLimit | docker/sandbox_provisioner/app.py:1927-1942 | the tracker at the instant of one touch: the touched generation is tracked under its own policy if and only if no write of another fell between `remember` and `touch`; an unconditional `forget` of a tracked id is one |
| Provisioner.PinConformance | docker/sandbox_provisioner/app.py:2091-2304 | every endpoint and the reaper use pins and delete windows in the bracketed order the pin protocol needs |
| Provisioner.GateConformance | docker/sandbox_provisioner/app.py:2091-2120 | only a create passes the gate, and leaves it once |
| Provisioner.LockConformance | docker/sandbox_provisioner/app.py:1008-1328 | every path through the backend calls takes and returns lock, mutex and slot in the order of the lock protocol, the nested delete included |
| ProvisionerInvariants.PinRefines | docker/sandbox_provisioner/app.py:2091-2304 | every step of the composed system is a step of the pin protocol or leaves it alone |
| ProvisionerInvariants.SoundKept | docker/sandbox_provisioner/app.py:443-504 | every step of the composed system keeps the invariants of pins, gate and locks, and a quiet gate stays quiet |
| ProvisionerData.DataKept | docker/sandbox_provisioner/app.py:507-586 | generations are never reused, and every record or pair a thread still carries was really issued |
| ProvisionerData.PolicyInvKept | docker/sandbox_provisioner/app.py:1927-2000 | when `remember` and `touch` are one step: whenever the tracked generation is the live one, its stored policy is that record's own, and no live resident record is condemned |
| ProvisionerQuiesce.QuietShrinks | docker/sandbox_provisioner/app.py:2190-2284 | once the gate is quiet no step adds to or changes the inventory |
| ProvisionerQuiesce.QuietInvKept | docker/sandbox_provisioner/app.py:2190-2284 | what quiesce threads and their jobs know about listed and deleted records stays true while everything else runs |
| ProvisionerQuiesce.RoundsInvKept | docker/sandbox_provisioner/app.py:2236-2264 | every record of a round has its job until the round is over |
| ProvisionerQuiesce.RoundEmpties | docker/sandbox_provisioner/app.py:2227-2264 | a round that ends without failure has emptied the whole inventory |
| ProvisionerProgress.BlockedWaitsLower | docker/sandbox_provisioner/app.py:1020-2224 | a thread that cannot move waits for some unfinished thread that stands lower in the order gate, pin, delete window, lock, slot |
| ProvisionerProgress.EveryWaitGoesDown | docker/sandbox_provisioner/app.py:1020-2224 | every single wait, for each of the pins, jobs, creates or lock holders in the way, is for an unfinished thread that stands lower |
| ProvisionerProgress.ChainToMover | docker/sandbox_provisioner/app.py:1020-2224 | from every unfinished thread some chain of waits leads to one that can step |
| ProvisionerRuns.RunInv | docker/sandbox_provisioner/app.py:443-2304 | every state of every run satisfies all invariants |
| ProvisionerRuns.WaitsNeverCircle | docker/sandbox_provisioner/app.py:443-2304 | in every reachable state a chain of waits only goes down in the wait order, so none returns to a thread it has passed |
| ProvisionerRuns.NoDeadlock | docker/sandbox_provisioner/app.py:443-2304 | in every reachable state, of any unfinished create, get, touch, delete, reap or quiesce threads that wait for nobody but each other one can step, with either backend |
| ProvisionerRuns.EveryWaitEndsAtAMover | docker/sandbox_provisioner/app.py:443-2304 | every chain of waits from an unfinished thread that cannot be continued has reached a thread that can step |
| ProvisionerRuns.NoLostWakeup | docker/sandbox_provisioner/app.py:451-504 | every sleeping thread would still find its condition false |
| ProvisionerRuns.PinsCounted | docker/sandbox_provisioner/app.py:451-464 | the counter of an id is the number of threads that hold a pin on it |
| ProvisionerRuns.DeleteExcludesPins | docker/sandbox_provisioner/app.py:466-475 | as long as deletes of the id have not overlapped, nobody holds a pin while a thread is in its delete window |
| ProvisionerRuns.BodiesExclusive | docker/sandbox_provisioner/app.py:1020-1328 | one body per sandbox at a time; at most `concurrency` delete bodies in all |
| ProvisionerRuns.LocksShared | docker/sandbox_provisioner/app.py:724-731 | threads at one sandbox share the lock object, threads at two do not |
| ProvisionerRuns.QuiescencePermanent | docker/sandbox_provisioner/app.py:478-504 | once any `begin` has returned, no later state has a create in progress and the inventory only shrinks |
| ProvisionerRuns.OkMeansEmptyForever | docker/sandbox_provisioner/app.py:2198-2203 | an ok answer means that the inventory is empty in every later state |
| ProvisionerRuns.OneRoundSuffices | docker/sandbox_provisioner/app.py:2197-2224 | after one round without failure the inventory is empty for good and the next listing is answered ok |
| ProvisionerRuns.ReapTakesOnlyItsGeneration | docker/sandbox_provisioner/app.py:1981-1997 | a step of the reaper removes nothing but the generation it is after |
| ProvisionerRuns.ReaperFenced | docker/sandbox_provisioner/app.py:1961-1997 | a record the reaper removes was, at an earlier recheck, tracked under that generation with its last activity at least its timeout back (own or global, positive) and, unless deletes had overlapped, unpinned |
| ProvisionerRuns.ResidentNeverReaped | docker/sandbox_provisioner/app.py:1918-1997 | with `remember` and `touch` as one step, the reaper never condemns a live resident sandbox |
| ProvisionerRuns.TrackedUnderOwnPolicy | docker/sandbox_provisioner/app.py:1927-1959 | with `remember` and `touch` as one step, a tracked live generation always has its own policy |
| ProvisionerPolicies.PolicyIsLastWrite | docker/sandbox_provisioner/app.py:1918-1959 | over all runs of the code as it is, an id has a policy if and only if the last step that wrote its entry (a `remember`, a `forget` that found something, a seeding of a gap) set it |
| ProvisionerPolicies.OwnPolicyStands | docker/sandbox_provisioner/app.py:1918-1959 | after a record's own `remember` its policy stands if and only if no later write of the entry is the last and writes something else |
| ProvisionerPolicies.AtRiskExactly | docker/sandbox_provisioner/app.py:1918-1997 | over all runs of the code as it is, a tracked generation can be condemned at some time if and only if the last write to the policy of its id did not set "never" |
| ProvisionerPolicies.ReapedUnderForeignPolicy | docker/sandbox_provisioner/app.py:1918-1997 | if the reaper removes a live resident sandbox, then at an earlier recheck that generation was tracked under a policy not its own, set or dropped by the last write |
| ProvisionerActivity.DiscoveredIsTouched | docker/sandbox_provisioner/app.py:2127-2165 | in every run, a get, touch or proxy request that found a record r has, before it is done, left r's own policy in the tracker and then (r.gen, the time of that step) as last activity |
| ProvisionerActivity.EveryReadTouches | docker/sandbox_provisioner/app.py:2127-2165 | such a request, from its pin to its end, has looked the sandbox up under the pin, and if that found one, noted it so |
| ProvisionerActivity.CreatedIsTouched | docker/sandbox_provisioner/app.py:2091-2125 | the answer of a create is the record there was or a new one of the request; if the work directory fits, policy and activity are noted before the create is done |
| ProvisionerActivity.EveryCreateSettles | docker/sandbox_provisioner/app.py:2091-2125 | a create that is done was refused at a closed gate, or the backend settled it |
| ProvisionerActivity.DeletedIsForgotten | docker/sandbox_provisioner/app.py:2265-2304 | a delete by a request, a job or the reaper, if the body does not fail: another generation than expected is left alone; otherwise the sandbox is gone, and the tracker has forgotten that generation before the thread is done with it |
| ProvisionerActivity.EveryDeleteErases | docker/sandbox_provisioner/app.py:2265-2304 | a delete request or job that is done has been through the body of the delete, or that failed |
| ProvisionerActivity.CondemnedExactly | docker/sandbox_provisioner/app.py:1961-1997 | a generation active at T with timeout S, whose entry is not written until a recheck, is condemned there if and only if S > 0 and the clock stands at T + S or later |
| ProvisionerActivity.SparedIfReplaced | docker/sandbox_provisioner/app.py:1984-1990 | a recheck spares a pair that is untracked or tracked under another generation |
| ProvisionerActivity.FoundByNumbers | docker/sandbox_provisioner/app.py:1961-1979 | a pass finds a tracked pair if and only if the reaper is enabled, S > 0 and now >= T + S |
| ProvisionerActivity.EachFoundIsRechecked | docker/sandbox_provisioner/app.py:1961-1997 | every pair that a pass found is rechecked by that thread before its next pass |
| ProvisionerActivity.SeededIsTracked | docker/sandbox_provisioner/app.py:1944-1959 | before the first pass every listed record is tracked and has a policy |
| ProvisionerOutcomes.JobAnswers | docker/sandbox_provisioner/app.py:2265-2284 | in every run, a deletion job answers failed, mismatch or deleted exactly as its body went: failed or left alone with nothing changed, or the sandbox gone, of the expected generation if there was one |
| ProvisionerOutcomes.KeptIsNotForgotten | docker/sandbox_provisioner/app.py:2265-2304 | a delete request or job whose body fails or finds another generation changes neither inventory nor tracker, from its body on |
| ProvisionerOutcomes.FailedCreateLeavesNoTrace | docker/sandbox_provisioner/app.py:2091-2125 | a create that the gate refuses, that fails, or that finds a record with another work directory changes neither inventory nor tracker from there on |
| ProvisionerOutcomes.StartedIsThere | docker/sandbox_provisioner/app.py:1130-1207 | a container that a create has started is in the inventory from then on, as the record there was or the one of the request, whatever becomes of the create |
| ProvisionerOutcomes.JobStarts | docker/sandbox_provisioner/app.py:2227-2264 | a queued job starts if its call still waits for it and is cancelled if that has given up |
| ProvisionerOutcomes.QuiesceGivesUp | docker/sandbox_provisioner/app.py:2190-2264 | a quiesce call that ends without ok had a reason: its time was over or a call failed, or a job of its round had failed |
| ProvisionerOutcomes.RoundIsWhole | docker/sandbox_provisioner/app.py:2197-2243 | an inventory that is not empty, with time left, begins a round with one job for each listed record |
| ProvisionerOutcomes.PoolBounded | docker/sandbox_provisioner/app.py:2227-2240 | at any time at most `concurrency` deletion jobs of one quiesce call are at work |
| ProvisionerOutcomes.NetworkUnderMutex | docker/sandbox_provisioner/app.py:933-950 | whoever has to make a sandbox's network takes the mutex for it, when nobody has it, before the request is done |
| ProvisionerOutcomes.StaleIsErased | docker/sandbox_provisioner/app.py:1059-1113 | with Docker, a create or a lookup that finds its container stale has deleted whatever the id stands for, unless that failed, before the request is done |
| ProvisionerOutcomes.StaleIsNotTouched | docker/sandbox_provisioner/app.py:1210-1275 | a lookup that finds its container stale answers that there is none and notes neither policy nor activity |
| ProvisionerLimits.StaleRememberReapsResident | docker/sandbox_provisioner/app.py:2117-2120 | a full run of the code as it is: a create is overtaken between making its record and `remember`, a resident sandbox of the id is made and touched, the late `remember` overwrites its policy, and the reaper removes it |
| ProvisionerLimits.LateForgetReapsResident | docker/sandbox_provisioner/app.py:2121-2302 | a full run of the code as it is: an unconditional delete forgets between `remember` and `touch` of a new resident sandbox, and the reaper removes it |
| SubnetAllocator.OverlapMeans | docker/sandbox_provisioner/app.py:889-890 | the overlap test of two blocks holds exactly when they share an address |
| SubnetAllocator.Nests | docker/sandbox_provisioner/app.py:886-890 | overlapping blocks are nested, the smaller in the larger |
| SubnetAllocator.CandidateGood | docker/sandbox_provisioner/app.py:886 | every candidate is an aligned block of the wanted prefix inside the pool |
| SubnetAllocator.EverySubnetIsACandidate | docker/sandbox_provisioner/app.py:886 | every aligned block of that prefix in the pool is one of the candidates |
| SubnetAllocator.CandidatesDisjoint | docker/sandbox_provisioner/app.py:886 | two candidates never share an address |
| SubnetAllocator.NextNetworkSubnet | docker/sandbox_provisioner/app.py:875-895 | returns the lowest candidate disjoint from every existing and excluded block; fails only if every candidate overlaps one |
| SubnetAllocator.EnoughRoom | docker/sandbox_provisioner/app.py:875-895 | fewer blocks of at most the candidate size than candidates always leave room |
| SubnetAllocator.CreateNetwork | docker/sandbox_provisioner/app.py:902-931 | the retry loop ends within one attempt per candidate, tries no block twice, and a created network overlaps nothing it knew of |
| SubnetAllocator.TriedBounded | docker/sandbox_provisioner/app.py:915-931 | at most as many attempts conflict as there are candidates |
| SubnetAllocator.SandboxNetworks.EnsureNetwork | docker/sandbox_provisioner/app.py:933-950 | keeps the subnets of all sandbox networks of the process pairwise disjoint and in the pool over a run |
| StreamSmoother.CutRight | web/src/composables/useStreamSmoother.js:43-53 | a cut loses nothing, overshoots its budget by less than one segment, takes something when there is budget and text, and leaves text only if less than a segment of budget is unused |
| StreamSmoother.TakeFromBuffer | web/src/composables/useStreamSmoother.js:43-53 | the loop over segments computes that cut |
| StreamSmoother.RateFloor | web/src/composables/useStreamSmoother.js:91-98 | the rate never falls below 32 units a second, whatever the weights |
| StreamSmoother.RateFollows | web/src/composables/useStreamSmoother.js:91-98 | a message's first rate is the largest of 32, the arrival rate and backlog * 1000 / 600; each later rate lies strictly between the one before and that target, or stays on it |
| StreamSmoother.FirstFrameShows | web/src/composables/useStreamSmoother.js:91-123 | a first frame of e ms, at most 64, shows more than backlog * e / 600 - G units |
| StreamSmoother.LongFramesAreCut | web/src/composables/useStreamSmoother.js:86-98 | a frame earns its rate times its length, and one longer than 64 ms earns as much as one of 64 |
| StreamSmoother.ShownIffEarned | web/src/composables/useStreamSmoother.js:86-116 | a frame hands something over if and only if a unit has been earned |
| StreamSmoother.NewMessageWaits | web/src/composables/useStreamSmoother.js:163-182 | a new message plays nothing for 180 ms |
| StreamSmoother.ArrivalsAreSampled | web/src/composables/useStreamSmoother.js:151-176 | the arrival rate moves, over at least 200 ms, strictly towards what arrived per second since the last sample; before that it stays and the text is counted |
| StreamSmoother.BacklogHalves | web/src/composables/useStreamSmoother.js:86-123 | 600 ms of counted frame time leave less than half of a backlog that gets no further text, and a segment |
| StreamSmoother.DrainsByHalves | web/src/composables/useStreamSmoother.js:86-123 | after k such stretches at most 1 / 2^k of it and two segments are left, so a long backlog drains in logarithmic time |
| StreamSmoother.TickRight | web/src/composables/useStreamSmoother.js:86-116 | one frame keeps text and order; credit is what was earned minus what was shown and stays above 1 - G, and below G while text is left |
| StreamSmoother.ShownAtMost | web/src/composables/useStreamSmoother.js:86-182 | however frames and arriving text are mixed, what a message has shown is what it earned less the credit left, and never more than credit and earnings plus G - 1 |
| StreamSmoother.BacklogDrains | web/src/composables/useStreamSmoother.js:86-123 | a backlog of L units is gone before the counted frame time reaches (L + G - credit) * 1000 / 32 ms |
| StreamSmoother.StreamSmoother.PushChunk | web/src/composables/useStreamSmoother.js:126-184 | a tool chunk, or any under reduced motion, is delivered right after all text handed over before it; other text is buffered behind; text is conserved for every message |
| StreamSmoother.StreamSmoother.Tick | web/src/composables/useStreamSmoother.js:75-123 | a frame moves what its rate earned, or the segments that fit, from the front of the buffer to the end of what is shown and schedules exactly one next frame, or ends the message; the totals since its controller was made keep that bound |
| StreamSmoother.StreamSmoother.FlushMessage | web/src/composables/useStreamSmoother.js:60-72 | afterwards everything handed over for the message is shown, and its controller and frame are gone |
| StreamSmoother.StreamSmoother.FlushThread | web/src/composables/useStreamSmoother.js:187-192 | everything handed over for the thread is shown, nothing stays buffered, no frame is pending, other threads are untouched |
| StreamSmoother.StreamSmoother.ResetThread | web/src/composables/useStreamSmoother.js:195-203 | drops buffers and frames of one thread or all; what was shown stays |
| SseStream.ProcessRunSse | web/src/composables/useAgentRunStream.js:67-126 | however the text is cut into reads, the events are those of the whole text, for a response that ends and for one that breaks |
| SseStream.SplitAppend | web/src/composables/useAgentRunStream.js:91-93 | a longer text only continues the unfinished line |
| SseStream.BlockMeans | web/src/composables/useAgentRunStream.js:93-113 | the event put together is what the lines since the last blank line say, whatever else they hold: the last `event` value, trimmed, or "message"; the last `id`; all `data` values in order |
| SseStream.BlankYields | web/src/composables/useAgentRunStream.js:77-102 | a line yields an event if and only if it is blank and the block before it has data that parse; then the block is over |
| SseStream.JoinedLines | web/src/composables/useAgentRunStream.js:79 | several data lines are joined to the text whose lines they are |
| SseStream.SpacesExactly | web/src/composables/useAgentRunStream.js:109-113 | white space for that is the white space and line terminators of ECMAScript, character by character |
| SseStream.TrimExactly | web/src/composables/useAgentRunStream.js:109-113 | trimming takes white space of the language from both ends and nothing else |
| SseStream.RoundTrip | backend/package/yuxi/utils/sse_utils.py:15-24 | parsing printed single-line frames, comments in between, yields exactly the printed events |
| SseStream.DataSurvives | web/src/composables/useAgentRunStream.js:110-111 | data comes back unchanged if and only if it neither starts with white space nor ends with a carriage return |
| SseStream.CutStream | web/src/composables/useAgentRunStream.js:118 | a response that ends cleanly anywhere yields exactly the events of the complete lines, the pending one included |
| SseStream.CutLosesAtMostAnId | web/src/composables/useAgentRunStream.js:118 | that is whole frames, and possibly one more event without its id, when the end falls between data line and id line |
| SseStream.BrokenStream | web/src/composables/useAgentRunStream.js:87-119 | a connection that breaks anywhere, so that the read fails, yields exactly the frames that arrived in full, with their ids |
| CodingTail.SessionEventTail.Poll | backend/server/routers/coding_session_router.py:84-101 | one round: an error end if there is no session, else the page in order, and an end or a keep-alive only after an empty page |
| CodingTail.PageRight | backend/server/routers/coding_session_router.py:86-94 | what a page prints and what is left above the new cursor is what was above the old one |
| CodingTail.InvKept | backend/server/routers/coding_session_router.py:83-101 | while writers append, also after the session has ended, and finish it: sent and still unsent events are together all above the client's start |
| CodingTail.SentIsPrefix | backend/server/routers/coding_session_router.py:83-94 | at every moment the events sent are a gap-free, strictly ordered prefix of those stored above the start |
| CodingTail.EndMeansAll | backend/server/routers/coding_session_router.py:83-98 | `coding_end` follows a read of an empty page by which everything stored had been sent |
| CodingTail.AllSentIffNoLateAppend | backend/server/routers/coding_session_router.py:83-177 | everything ever stored is sent if and only if nothing was appended after that read |
| CodingTail.LateAppendIsLost | backend/server/routers/coding_session_router.py:161-177 | a run in which the end of a finished session has been announced and an event appended afterwards, as detaching a terminal does, is never sent |
| CodingTail.EndsInTime | backend/server/routers/coding_session_router.py:84-101 | after the session is finished the loop ends within one round per page left and one more |
| CodingTail.EndTells | backend/server/routers/coding_session_router.py:84-101 | the stream has ended if and only if its last line is an end or an error; an announced end names the terminal status the session has; an error means it is gone |
| CodingTail.EveryRoundSpeaks | backend/server/routers/coding_session_router.py:84-101 | no round is silent, and a round ends the stream if and only if the session is gone, or the page is empty and it was seen in a terminal status |
| RunCursor.Ordered | web/src/utils/runStreamResume.js:25-34 | a larger major is later whatever the minors, with equal majors exactly the larger minor; a strict total order |
| RunCursor.ThreadRunState.OnEvent | web/src/composables/useAgentRunStream.js:353-362 | drops events of another run and ids whose major is smaller, or equal with a minor not larger, than the cursor's; moves the cursor to an id it takes |
| RunCursor.ThreadRunState.StartRunStream | web/src/composables/useAgentRunStream.js:303-318 | a stream of the run from the given cursor, whatever the state says by now; connections told to stop may still drain |
| RunCursor.ThreadRunState.FinalizeRunStream | web/src/composables/useAgentRunStream.js:216-265 | settles only the run that is active, and keeps it active when it is interrupted |
| RunCursor.InvKept | web/src/composables/useAgentRunStream.js:292-362 | safe starts, clearing, replaying, breaking, malformed ids and settling keep: the server's next event for the cursor is the one that is due, and no subscription is beyond it |
| RunCursor.TakenOnceInOrder | web/src/composables/useAgentRunStream.js:292-362 | in every run whose streams are all started safely the events taken with their id follow each other in the log, ordered by major and then minor, without gap, each once, and the next is sent first from the cursor |
| RunCursor.StartIsSafeExactly | web/src/composables/useAgentRunStream.js:303-322 | the events taken stay in order and each once, whatever follows, if and only if the stream is started from the cursor of now (or with nothing shown) and no draining connection is beyond it |
| RunCursor.StaleStartTakesTwice | web/src/composables/useAgentRunStream.js:303-362 | a start from a cursor read before more events were taken makes the next delivery take one of them again |
| RunCursor.LateResumeTakesTwice | web/src/composables/useAgentRunStream.js:513-522 | a run in which it happens: a resume waits for the server between reading its cursor and starting, and a timer's stream delivers in between |
| RunCursor.CatchesUp | web/src/composables/useAgentRunStream.js:292-301 | a reconnection that stays up brings every event that is left |
| RunCursor.OnceIffLastCut | web/src/composables/useAgentRunStream.js:357-362 | each event is handled once if and only if no event that lost its id was a replay or was followed by another; otherwise the next stream handles it again |
| LoginLimiter.LoginRateLimiter.Attempt | backend/server/main.py:101-118 | admits exactly when fewer than ten attempts were admitted in the closed minute that ends now; other addresses are untouched |
| LoginLimiter.LoginRateLimiter.Succeeded | backend/server/main.py:122-124 | forgets the address and no other |
| LoginLimiter.PruneRight | backend/server/main.py:107-108 | the deque is the admitted history restricted to the window |
| LoginLimiter.AttemptKept | backend/server/main.py:104-118 | an attempt keeps history, window and spread right |
| LoginLimiter.WindowBound | backend/server/main.py:107-118 | no closed minute, wherever it lies, holds more than ten attempts admitted between successful logins |
| LoginLimiter.WaitingHelps | backend/server/main.py:110-116 | a rejected client that waits the told time and one second more is admitted |
| LoginLimiter.ToldTimeIsShort | backend/server/main.py:107-111 | waiting exactly the told time is enough if and only if the oldest attempt had less than a second left |
| FenceFilter.StripBlockquotePrefixes | scripts/verify_engineering_contracts.py:556-568 | the loop strips exactly the quote marks of the recursive definition, up to the given depth |
| FenceFilter.VisibleNumberedLines | scripts/verify_engineering_contracts.py:625-670 | the loop with its fence variables computes the visible lines |
| FenceFilter.ShownRight | scripts/verify_engineering_contracts.py:625-670 | the output is exactly the visible lines, numbered, unchanged and in order |
| FenceFilter.HiddenRunOpens | scripts/verify_engineering_contracts.py:656-668 | every maximal run of hidden lines starts with an opening fence |
| FenceFilter.PlainIsDefinition | scripts/verify_engineering_contracts.py:625-670 | where no line outside a fence is in a container, the filter is the definition of fenced code blocks: same character, closer at least as long, unclosed hides the rest |
| FenceFilter.ClosesExactly | scripts/verify_engineering_contracts.py:645-648 | a line closes a fence of n copies of c if and only if it is at most three spaces, then k >= n copies of c, then spaces and tabs |
| FenceFilter.OpeningExactly | scripts/verify_engineering_contracts.py:103 | a line opens one if and only if it is at most three spaces, then exactly n >= 3 backticks or tildes, then anything, without a backtick if c is one |
| FenceFilter.FenceHides | scripts/verify_engineering_contracts.py:632-670 | in text without containers, after an opening of n copies of c everything is hidden up to the first line that closes exactly so, and to the end if there is none |
| FenceFilter.ClosesOnlyAlike | scripts/verify_engineering_contracts.py:645-648 | a line of k copies of d closes only fences of d that are not longer than k |
| FenceFilter.LeavesContainer | scripts/verify_engineering_contracts.py:605-642 | a fence in a container goes on exactly on blank lines and on lines with all its quote marks and at least the spaces of its item |
| FenceFilter.QuoteExactly | scripts/verify_engineering_contracts.py:104 | a quote mark is at most three spaces, the mark, and one space if there is one |
| FenceFilter.ItemExactly | scripts/verify_engineering_contracts.py:105-107 | where the content of a list item begins: after at most three spaces, a bullet or one to nine digits with a dot or parenthesis, and up to four spaces |
| FenceFilter.ReadInItem | scripts/verify_engineering_contracts.py:581-603 | a blank line or one indented to the item belongs to it, with a further item in it or not; any other ends it |
| FenceFilter.BlankExactly | scripts/verify_engineering_contracts.py:585-586 | a line is blank if and only if it has only characters that Python counts as white space |
| FenceFilter.RefilterHidesNothing | scripts/verify_engineering_contracts.py:625-670 | on such text filtering the output hides nothing more |
| FenceFilter.RefilterExactly | scripts/verify_engineering_contracts.py:581-670 | on any text, filtering the output hides nothing more if and only if no shown line, read with the list indent the shown lines before it leave, is an opening fence |
| FenceFilter.FilteredIsClean | scripts/verify_engineering_contracts.py:581-670 | so it is whenever no opening fence changes the active list indent |
| FenceFilter.RefilterCanHideInLists | scripts/verify_engineering_contracts.py:581-670 | a text with list items on which filtering twice hides more |
| TaskerStore.Tasker.BeginLoad | web/src/stores/tasker.js:94-104 | a non-admin load resets; otherwise the request remembers its number and the revision, polling stops and loading begins |
| TaskerStore.Tasker.EndLoad | web/src/stores/tasker.js:106-125 | takes the answer only if number and revision are current; ends loading and polling only for the current number |
| TaskerStore.Tasker.EndRefresh | web/src/stores/tasker.js:128-146 | takes a detail only if it is the latest of its task and no list was requested since |
| TaskerStore.Tasker.EndDelete | web/src/stores/tasker.js:163-182 | removes the task and counts a write, unless the session is over |
| TaskerStore.Tasker.RegisterQueued | web/src/stores/tasker.js:184-208 | adds a queued task, each time it is called, unless the session it was bound to is over |
| TaskerStore.Tasker.OnTimer | web/src/stores/tasker.js:220-231 | a fired timer is gone; a hidden page only keeps polling in step, a visible one loads |
| TaskerStore.Tasker.ResetAll | web/src/stores/tasker.js:250-261 | clears list, flags, timer and detail requests and outdates every request under way |
| TaskerStore.InvKept | web/src/stores/tasker.js:94-261 | every operation and answer keeps: at most one poll timer, none while loading, and loading exactly while the current list request is under way |
| TaskerStore.AlwaysInv | web/src/stores/tasker.js:94-261 | so in every state of every run |
| TaskerStore.LateAnswerIsSilent | web/src/stores/tasker.js:250-264 | an answer to a request or a use of a registration made before a reset changes nothing, whenever and however often it comes and whatever it says |
| TaskerStore.ListTakenIffUntouched | web/src/stores/tasker.js:100-119 | a list is taken if and only if since its request no other list was requested, nothing was reset and no task was written locally |
| TaskerStore.ListFailedIffUntouched | web/src/stores/tasker.js:108-114 | an error of the list is shown, and counted, exactly under that condition; the tasks stay |
| TaskerStore.SyncPolls | web/src/stores/tasker.js:210-248 | afterwards a timer runs if and only if an admin has the drawer open or an active task, and nothing is loading |
| TaskerStore.StepPolled | web/src/stores/tasker.js:94-261 | every step keeps the timer right so, except an answer that changes the tasks by itself |
| TaskerStore.StepSyncs | web/src/stores/tasker.js:94-261 | the current list's answer, the drawer, a timer, a new user, a reset and a load put it right |
| TaskerStore.AlwaysPolled | web/src/stores/tasker.js:94-261 | so it is right in every state of every run without such answers |
| TaskerStore.WritesRight | web/src/stores/tasker.js:61-92 | a task taken replaces the first with its id or stands first of all, a deleted one loses its first place, all others stand as they stood |
| TaskerStore.RefreshRight | web/src/stores/tasker.js:128-161 | a refresh has its request under way as the latest of its task; a cancel that went well does the same, one that failed or comes late nothing; the latest answer ends it |
| TaskerStore.TimerRight | web/src/stores/tasker.js:220-231 | a timer on a visible page requests the list; on a hidden one it keeps polling |
| TaskerStore.DetailFailure | web/src/stores/tasker.js:128-146 | an error of a detail is shown if and only if that detail would have been taken |
| ProjectsStore.Projects.BeginLoad | web/src/stores/projects.js:18-21 | takes the next version and starts loading |
| ProjectsStore.Projects.EndLoad | web/src/stores/projects.js:22-35 | writes list, flags and error only for the current version |
| ProjectsStore.Projects.UpsertProject | web/src/stores/projects.js:44-48 | puts the project first, once, and outdates loads under way |
| ProjectsStore.Projects.ReplaceProject | web/src/stores/projects.js:50-54 | replaces in place and outdates loads under way |
| ProjectsStore.Projects.RemoveProject | web/src/stores/projects.js:56-60 | removes the project and outdates loads under way |
| ProjectsStore.Projects.ResetAll | web/src/stores/projects.js:38-42 | clears the list and outdates loads under way |
| ProjectsStore.LoadingMeansUnderWay | web/src/stores/projects.js:12-60 | in every run, loading is set exactly while a request of the current version is under way |
| ProjectsStore.TakenIffUntouched | web/src/stores/projects.js:12-35 | an answer is taken if and only if nothing has touched the list since the load began; otherwise it changes nothing |
| ProjectsStore.OneEntryEach | web/src/stores/projects.js:44-60 | local changes keep one entry per project |
| ProjectsStore.ChangesRight | web/src/stores/projects.js:44-60 | an upsert puts the project first and drops what stood for it, a replacement changes its entries where they are, a removal drops them; all others stay, in order |
| ProjectsStore.FlagsRight | web/src/stores/projects.js:12-60 | a load clears the error and starts loading, a reset leaves nothing, a local change stops loading and keeps whether anything was loaded |
| StorageInit.FileSystem.Normalize | docker/sandbox_provisioner/app.py:152-168 | exactly the nodes reachable without following links get the fixed owner and mode, by recursion on tree height; nothing else changes |
| StorageInit.FixTwice | docker/sandbox_provisioner/app.py:166 | a fixed node stays as it is: being executable survives |
| StorageInit.SecondPassIsIdle | docker/sandbox_provisioner/app.py:152-168 | a second pass changes nothing |
| StorageInit.OthersUndisturbed | docker/sandbox_provisioner/app.py:152-168 | a call of one process does not disturb the pass of another, even one that acts on what it saw before |
| StorageInit.OwnCall | docker/sandbox_provisioner/app.py:152-168 | each system call of a pass fixes its node or leaves it ahead of the pass |
| StorageInit.MarkerMeansFixed | docker/sandbox_provisioner/app.py:170-192 | with any number of processes dying anywhere, the marker exists only when every reachable node is fixed |
| StorageInit.OnlyOwnerAndMode | docker/sandbox_provisioner/app.py:152-168 | a run changes nothing about kind, names, target or executability |
| StorageRuns.FixMakes | docker/sandbox_provisioner/app.py:152-168 | in numbers: owner and group 1000; directories 0700; files 0700 if owner, group or others may execute them, else 0600; names and targets as before |
| StorageRuns.MarkerMeansMade | docker/sandbox_provisioner/app.py:152-192 | in every run, when the marker is there, every node of the tree is what those numbers make of what it was before any process ran, and the rest of the file system is as it was |
| StorageRuns.OnlyTreeTouched | docker/sandbox_provisioner/app.py:152-192 | at no time is anything outside the tree touched, or a call about it ahead |
| StorageRuns.FinishedMeansMarked | docker/sandbox_provisioner/app.py:170-192 | a process that is done has left or found the marker, and the marker stays |
| StorageRuns.MarkedStartsAreIdle | docker/sandbox_provisioner/app.py:175-178 | with the marker there and no pass under way, nothing changes any more, whoever starts |
| StorageRuns.FinishesAlone | docker/sandbox_provisioner/app.py:152-192 | a process that is left alone comes to its end from any state that others, dead or alive, may have left; then the marker is there and the tree is fixed |
| StorageRuns.ProcessesApart | docker/sandbox_provisioner/app.py:152-192 | a step moves its own process only, and only calls touch the tree |
| TrajectorySummary.MadeUpInjective | backend/server/routers/agent_invocation_eval_router.py:173 | made-up keys with different numbers differ, whatever the names |
| TrajectorySummary.ToolKeyKept | backend/server/routers/agent_invocation_eval_router.py:167-177 | choosing a key keeps matching first in first out and made-up keys numbered |
| TrajectorySummary.TallyRight | backend/server/routers/agent_invocation_eval_router.py:179-206 | for every list of events: every key with an error is a registered call, and what is matched followed by what is open is what was opened, per name |
| TrajectorySummary.MadeUpOnce | backend/server/routers/agent_invocation_eval_router.py:173-177 | no key is made up twice |
| TrajectorySummary.CountedApartExactly | backend/server/routers/agent_invocation_eval_router.py:167-206 | there is one call for each id of an event and one for each made-up key, all different, if and only if no id of an event equals a made-up key |
| TrajectorySummary.IdTakesMadeUpKey | backend/server/routers/agent_invocation_eval_router.py:167-206 | events on which it fails: an id of the form of a made-up key and a start without id count as one call |
| TrajectorySummary.FinishTakesOldest | backend/server/routers/agent_invocation_eval_router.py:171-172 | at any moment, also inside an event: a finish without id stands for the oldest open start of its name |
| TrajectorySummary.OpenedAreStarts | backend/server/routers/agent_invocation_eval_router.py:167-177 | for each name exactly the starts without id are opened |
| TrajectorySummary.ErrorMarks | backend/server/routers/agent_invocation_eval_router.py:188-205 | a tool event with an error, or in a failed event, marks the call it stands for and no other |
| TrajectorySummary.ErrorsRight | backend/server/routers/agent_invocation_eval_router.py:179-206 | over all events, a call with an id that is no made-up key has an error if and only if one of its tool events says so or stands in a failed event |
| TrajectorySummary.FirstNameStays | backend/server/routers/agent_invocation_eval_router.py:186-203 | a call keeps the name under which it was first seen, "unknown" if it had none |
| TrajectorySummary.CountTools | backend/server/routers/agent_invocation_eval_router.py:208-215 | per tool the calls of its name and those with an error; the sums are the totals |
| TrajectorySummary.BuildTrajectorySummary | backend/server/routers/agent_invocation_eval_router.py:146-217 | over all events, the counts per tool add up to `tool_call_count` and `tool_error_count` |

## Left out

- Provisioner: the Kubernetes backend, container and HTTP calls, path and work-directory normalisation, record fields for url and status; they decide nothing about the protocol.
- Provisioner: the HTTP proxy holds a pin like `get` and releases it when its response generator ends; it is taken to be released once. The WebSocket proxy takes no pin at all, so a delete does not wait for it.
- Provisioner: a record's generation is always present; a container without an id is not modelled.
- Provisioner: deadlines and failures are free choices, so no bound in seconds is proved for quiescing.
- Provisioner: with Docker, container and network names are sanitised ids, so two ids may share a container while their locks are per raw id; ids are taken to stay apart.
- ProvisionerRuns.ResidentNeverReaped: holds for `remember` and `touch` as one step only, because with two steps it is false; see ProvisionerLimits and ProvisionerPolicies.
- ProvisionerRuns.DeleteExcludesPins: requires that deletes of the id have not overlapped, because otherwise it is false; see OverlapIsExactlyTheLimit.
- SubnetAllocator.CreateNetwork: a failure that is no conflict simply ends the loop; parsing of subnet strings and the mode without a pool are left out.
- StreamSmoother: segmentation is any function with nonempty segments of bounded length; the exponential weights are any reals in (0, 1); message metadata is left out.
- StreamSmoother: text buffered for a thread whose state is gone is lost or, once it has a new state, owed to that one; conservation is stated for threads that have a state.
- SseStream: decoding of bytes and the JSON grammar; whether data parses is a parameter.
- CodingTail: a session does not leave a terminal status; taken from the service, not proved.
- RunCursor: events that the server makes up without an id, the watchdog, steering, and keeping an interrupted run with the cursor of a stored snapshot without opening a stream.
- RunCursor.StartIsSafeExactly: for a run that still has an event after the cursor; with none left nothing more is delivered.
- LoginLimiter: reading the client address from headers, and all other endpoints.
- FenceFilter: splitting text into lines, and decimal digits other than 0 to 9 in list markers.
- TaskerStore: toasts, sorting, the payload of a task and the length of the polling interval.
- StorageInit: names do not change while the script runs; creating the two directories and descriptor handling are left out.
- TrajectorySummary: interrupt counts, the event range, sorting by name and the shape checks of events.
- The remaining routers, stores and scripts of the repository, which are request plumbing with single checks.
