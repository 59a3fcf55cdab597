# Reconciliation engine of the vCD instance group

This project models how an instance group turns "I want n runners" and "delete these" into creates and
deletes in VMware Cloud Director (vCD), against listings that may be stale or incomplete, and proves what
the engine guarantees over every run. `dafny verify dfyconfig.toml` checks all of it.

The heart is one step system (`Protocol`): the reconcile loop polls and dispatches, create, delete and cleanup
workers finish in any order, callers add and remove instances, and vCD commits POSTs late or loses vApps.
Every lock-held store method, every operation on a shared map and every event in vCD is one atomic action. A
run is any finite sequence of possible actions. `Invariant` states, record by record, worker by worker and name by
name, what each action keeps; `Preservation` proves it; `Evolution` says how one action may change one
record; `Theorems` draws the conclusions about whole runs, and `Progress` says what must happen in them: when the hold ends, which misses
count, when a record is retried, marked or pruned, and what it then contains. `Reconciler` writes the loop and the workers as the code does,
with any number of steps of the other goroutines between two shared accesses (`Rely` says what stays), and shows that each
such execution is a run in which the loop's or the worker's own actions are the ones its contract lists (`Traces`), and in which
vCD was asked exactly the calls its contract lists.

Around it stand the parts the engine rests on, each in the form of the code:

- `Lifecycle`, `StoreModel`, `Store`: the instance record, the store as a value, and the store as a class with
  two mutable maps over shared heap records. Each method equals its function on values; the HREF index equals a scan.
- `Limiter`: three semaphores and two counters under one dispatcher and any number of releasing workers.
- `Operations`: protocol and limiter as one system, in which every worker holds a slot from its dispatch until after its end.
- `Shutdown`: the end of the loop, the drain and the final sweep.
- `Session`: a read/write lock protocol with a generation counter and token exchanges, for any number of threads,
  each with the generation its last call saw.
- `VcdCall`: the call wrapper with throttle replay, session renewal, retries and payload rollback, as a function of everything
  vCD may answer and as the code that computes it. A conversation is a list of calls, each of which starts where the one before it ended;
  a `World` is idle only when the script was used, and the runs were made, by exactly the calls made so far.
- `VcdCreate`, `VcdDelete`, `VcdCleanup`, `VcdRead`: the create POST with its recovery, the delete with its evidence, the cleanup of a
  name, and the reads of a poll. Each is a function from what vCD answers to a result and the calls made, the code that makes
  exactly these calls, and lemmas that say what the result rests on.
- `VcdRetry`, `VcdRemoval`: when a call goes on and when it gives up; what may make a delete or a cleanup fail, and what it has done
  when it does not.
- `Listing`: what becomes of each listed vApp.
- `Backoff`, `Throttle`, `Breaker`: the random exponential backoff and the timed machines built on it.

## What is assumed

- Ids of intents and names of vApps that the engine generates are fresh; intent ids are no HREFs; vCD never gives
  two vApps one HREF, HREFs are not empty, and a vApp is read under the HREF and name it was listed or created under.
- A listing names only vApps that exist or existed. It may omit any, and may be out of date.
- A POST may take effect at any later time, several times for one name, or never. A vApp may vanish at any time.
- vCD answers a read of a vApp with not-found only when there is no such vApp, and a delete task that succeeds has
  removed it. The text of any other error binds vCD to nothing. A lookup by name returns vApps of that name, and so does a create.
- A read leaves the vApp's own HREF and name in the payload it was made with, and names are not empty.
- Times are integers and the clock never runs backwards in the step system. `Throttle` and `Breaker` need no such assumption, except where a lemma's premises state one.
- Waiting without end is modelled by finite scripts of answers, after the last of which the context ends; the
  scripts have any length. Limits, intervals and timeouts are those the code sets or takes.

## What the code does that one might not expect

- A failed delete puts its record back to PendingDelete whatever the phase. A record that listings marked Deleted
  while its delete was in flight can therefore return to PendingDelete; `Theorems.PhaseGraph` shows that this is
  the only way out of Deleted.
- Missed polls are forgotten only when data of the vApp is written, not when it is merely listed. A VM that is listed but
  cannot be read keeps its count (`Theorems.MissedPollsAreOmissions`).
- `AddCreateIntent`, `AddLeftover` and `AddPreexisting` can break the HREF index, by overwriting a record that has an HREF, and
  `UpdateInstance` by a callback that changes an HREF already set. Each contract gives the exact condition, and
  `Theorems.RunsKeepIndexExact` shows that the engine always meets it.
- The comment at `oplimiter.go:45-46` says that the reconciler turns the create reserve off during startup cleanup. No
  code does; the reserve is modelled as always on, as the code leaves it.
- With a single slot the reserve does not apply, and a create can wait for deletes.
- `wait` can return an error without any pause, when the context has ended.
- The size check and the marking of missing instances are two store calls, and the model keeps them apart.
- The breaker check and the snapshot of pending creates are two steps; a trip in between does not stop that dispatch.
- A renewal error quotes the renewal's own error text, so the text classifiers can see either error.
- Not-found is judged by error text, and errors of the session itself go through the same judgement. A session that
  cannot be locked or renewed, with a text such as "does not exist", makes a delete succeed although no read took place and the
  vApp may still exist. `VcdDelete.SessionErrorReadsAsAbsent` gives the input and `VcdDelete.NeverByTextExactlyWhen` the exact
  condition. The same evidence lets a failed create's name go.
- The reads of a poll go through that judgement too: a listed vApp is then dropped as gone, the poll counts as complete, the hold can
  end with that leftover untracked, and three such polls mark a record Deleted. `VcdRead.SessionErrorMisleads` gives the input,
  `VcdRead.NeverMisledExactlyWhen` the exact condition. `Theorems.DeletedMeansGone` and `Theorems.CompletePollTracksAll` say what holds of
  whole runs without such deletes and reads.
- A cleanup drops its name on any error that wraps ErrorEntityNotFound, five minutes after the request. Such an error also comes from the
  organization, from the data center, or from a step of the delete of a vApp that the lookup had just returned.
  `VcdCleanup.NoOrganizationReadsAsMiss` gives the input, `VcdCleanup.OnlyByLookupExactlyWhen` the exact condition, and
  `Theorems.NamesGoByTheirOwn` says what holds of whole runs without such cleanups.
- The retry loop reports an error marked as permanent without what was wrapped around it, so a failed renewal is not quoted then.
- When no session could be locked, a call brings generation 0 to the renewal, which then exchanges nothing.
- The "never created" branch of delete dispatch cannot be reached.

## Model

| member | source | states |
|---|---|---|
| `Theorems.LeftoversAreNotOurs` | reconciler.go:301-318 | In every reachable state a record marked leftover is for a vApp whose name is neither in flight nor awaiting cleanup, and no other record has its HREF |
| `Theorems.NoDuplicateIsEverRemoved` | store.go:115-142 | HREFs of records are unique in every reachable state, and when a create stores its HREF no other record holds it, so the duplicate removal never fires |
| `Theorems.RunsKeepIndexExact` | store.go:42-53 | Every store call of a run meets the condition under which the HREF index stays exact: no HREF is overwritten or changed, a leftover takes a free key |
| `Theorems.NoNameLeaks` | vcd.go:154-170 | Every registered name is in flight, awaits cleanup, is held by a record (present or pruned), or was let go: after a delete with evidence of a vApp of that name, or five minutes or more after its cleanup was requested, because a lookup of the name found nothing or because something else was not found; which of the two is kept |
| `Theorems.NamesGoByTheirOwn` | reconciler.go:590-599 | In every run whose cleanups ended as not found only by a lookup of their own name, and as done never by an error text alone, a name is let go only when a vApp of that name is gone or a lookup of that very name found nothing five minutes or more after the request; it was let go by a step of a cleanup of that name, at the time and for the reason remembered |
| `Theorems.OneCleanupPerName` | reconciler.go:567-603 | At most one dispatched cleanup per name exists at any time |
| `Theorems.OneWorkerPerIntent` | reconciler.go:385-403 | At most one worker owes an intent its final update; a create worker means Creating; a delete worker means Deleting, Deleted or pruned |
| `Theorems.BusyIntentsHaveWorkers` | reconciler.go:473-530 | An intent is Creating exactly when a create worker owes it an update, and a Deleting intent has its delete worker |
| `Theorems.PhaseGraph` | instancegroup.go:9-18 | Each action moves an intent along an edge of the phase graph or prunes it as Deleted; Deleted is left only by a failing delete that was in flight when listings marked the record |
| `Theorems.HrefsFollowPhases` | instancegroup.go:40-74 | An intent has no HREF exactly in PendingCreate and Creating |
| `Theorems.NeverCreatedBranchIsDead` | reconciler.go:537-545 | Delete dispatch never meets a record without HREF |
| `Theorems.NoCreateBeforeCompletePoll` | reconciler.go:368-371 | A create can be dispatched only after the run contains a complete poll |
| `Theorems.PolledOnlyByCompletePoll` | reconciler.go:414-422 | The start of the hold's timeout is set only by a complete poll |
| `Theorems.CompletePollTracksLeftovers` | reconciler.go:301-318 | While creates are held, everything a complete poll listed is a leftover in the store or does not exist, unless its read was misled by an error text |
| `Theorems.CompletePollTracksAll` | reconciler.go:301-318 | In every run in which no read of a poll was misled, a complete poll under the hold has made a leftover of everything it listed that exists |
| `Theorems.HoldEndsForCause` | reconciler.go:409-451 | The hold ends only when no undeleted leftover remains or the timeout has passed since the first complete poll |
| `Theorems.HoldNeverReturns` | reconciler.go:409-412 | Once ended the hold stays ended, and the start of its timeout never moves |
| `Theorems.NewRecordsAreFresh` | reconciler.go:662-676 | Records appear only through Increase, as pending creates, or through discovery, as leftovers |
| `Theorems.MissedPollsAreOmissions` | store.go:240-273 | MissedPolls is the number of polls since vCD data last refreshed the record that marked while it was Running, PendingDelete or Deleting and neither read its vApp nor left it unread |
| `Theorems.DeletedOnlyWithEvidence` | reconciler.go:626-639 | A record becomes Deleted only after three counted omissions, or by its own delete with evidence: its vApp does not exist any more, unless the evidence is no more than the text of a session error or a panic |
| `Theorems.DeletedHasReason` | reconciler.go:605-642 | In every reachable state each Deleted record has its reason, omissions or a delete with evidence, and the evidence holds of its vApp |
| `Theorems.DeletedMeansGone` | vcd.go:687-698 | In every run whose deletes were never confirmed by an error text alone, each Deleted record was missed three times or its vApp does not exist; if no read of a poll was misled either, every counted miss is one: the listing left the vApp out or the vApp did not exist |
| `Theorems.RecordsNameThemselves` | store.go:213-235 | A record with an HREF carries the name under which vCD knows that vApp, in every reachable state |
| `Theorems.ListedIsNotMissed` | reconciler.go:293-304 | A record whose vApp was listed is never counted as missed, unless its read said that it is gone or was misled |
| `Theorems.SuccessfulPollReadEverything` | reconciler.go:354-358 | A poll that reports success left nothing unread |
| `Progress.HoldEndsExactly` | reconciler.go:409-451 | In every run, the check at the end of a poll ends the hold if and only if some poll was complete by then, this one included, and no leftover remains undeleted or the timeout has passed since the first complete poll |
| `Progress.TimeoutStartsAtFirst` | reconciler.go:418-426 | The clock of the hold starts at the end of the first complete poll of the run and never moves |
| `Progress.MissesAreCounted` | store.go:240-273 | When a poll of a run marks, each record that is Running, PendingDelete or Deleting and whose vApp was neither read nor left unread gains exactly one miss, and is Deleted exactly when that makes three; every other record stays as it is |
| `Progress.RecordsAreDated` | reconciler.go:473-530 | In every reachable state a record carries the time its last failure set for the retry, the number of failures of its workers, the time its create was stored, and, when it is Deleted, the time it became so |
| `Progress.CreatesAreTakenWhenDue` | store.go:290-306 | A create dispatch takes up a pending create exactly from the time on that its last failure set, and one that never failed at once |
| `Progress.DeletesAreTakenWhenDue` | store.go:308-324 | The same of pending deletes |
| `Progress.PruneRemovesTheOld` | store.go:275-288 | Pruning removes exactly the records that have been Deleted for more than five minutes, and changes no other |
| `Progress.DecreaseRequestsDelete` | reconciler.go:678-684 | Decrease makes the running record of that intent id, or else of that HREF, a pending delete, and changes no other record |
| `Progress.GcRequestsDelete` | reconciler.go:651-657 | The check for old instances makes each running record it visits a pending delete, and changes no other |
| `Progress.IncreaseRequestsCreate` | reconciler.go:662-676 | Increase adds a pending create that is due at once, under a key no record had, and changes no other record |
| `Progress.AdoptRequestsDelete` | store.go:174-197 | Discovery makes a vApp that no record tracks a pending delete, marked as leftover, that is due at once |
| `Progress.RecordedInstance` | reconciler.go:508-520 | A create that ends well leaves its intent Running with this HREF, vApp name, VM name, IP and OS type, complete as of now, and with no error or retry time |
| `Progress.RefreshedInstance` | reconciler.go:320-343 | After a poll read a tracked vApp its record says what was read and has no misses; without data it stays as it is |
| `Progress.BreakerSeesCreates` | reconciler.go:181-205 | In every run the breaker is in the state that the ends of all its creates, and nothing else, bring it to |
| `Preservation.RunsKeepInv` | reconciler.go:243-285 | Every run of any interleaving keeps the invariant of records, workers, names, loop and hold |
| `Preservation.HrefsAreUnique` | store.go:125-138 | The invariant implies unique HREFs and records under their own keys |
| `Evolution.StepEvolves` | reconciler.go:605-642 | Each action changes a record only along the phase graph, sets an HREF at most once, counts misses exactly, keeps its vApp's name, and marks Deleted only with evidence |
| `Reconciler.InstanceGroup.ReconcileOnce` | reconciler.go:243-285 | A cycle, with any interference between its shared accesses, asks vCD for exactly the reads of the listed vApps and is exactly this sequence of the loop's actions: poll, hold check, creates, deletes, cleanups, old instances, pruning; the hold stays untouched before the first complete poll and its clock is set once there was one |
| `Reconciler.InstanceGroup.PollVCD` | reconciler.go:287-358 | The poll reads exactly the listed vApps, each answer being what the calls of this poll gave, and reports success exactly when the listing succeeded and every listed vApp was read or counts as gone; every vApp read is handled once and in order, before misses are counted |
| `Reconciler.InstanceGroup.PollItem` | reconciler.go:301-343 | A read vApp is refreshed exactly when a record tracks it, and else goes through the ownership checks; nothing else is done |
| `Reconciler.InstanceGroup.AdoptUnlessOwned` | vcd.go:623-631 | The creates in flight are asked first, then the failed ones, and only a vApp found in neither is adopted; the first answer is exactly whether the name is in flight |
| `Reconciler.InstanceGroup.CountMisses` | reconciler.go:346-357 | Misses are counted exactly when some vApp was read or some read failed, or when every record is Deleted; the poll's verdict is its completeness |
| `Reconciler.InstanceGroup.DispatchCreates` | reconciler.go:368-404 | Exactly under the hold, or with three failures or more before the end of the cooldown, the loop only skips; else it dispatches the ready intents in turn, exactly as many as slots are granted |
| `Reconciler.InstanceGroup.DispatchDeletes` | reconciler.go:532-563 | The loop dispatches the pending deletes in turn, exactly as many as slots are granted; none is without HREF |
| `Reconciler.InstanceGroup.DispatchCreateCleanups` | reconciler.go:565-603 | All failed creates are visited, in order, up to the first that is refused its slot |
| `Reconciler.InstanceGroup.VisitFailed` | reconciler.go:571-580 | A failed create is passed over exactly when it is gone, left alone when another cleanup holds it, and else claimed and started exactly when a slot is granted, or the claim is given back |
| `Reconciler.InstanceGroup.GcCheck` | reconciler.go:644-658 | Exactly the running instances that were completed more than the maximum age ago are marked, each once, and nothing else is done |
| `Reconciler.InstanceGroup.CreateInstance` | vcd.go:150-219 | The name is registered before the POST; the create succeeds exactly when the preparation, the calls that make the vApp and the steps that make it an instance did, and returns the vApp that those calls brought; one that fails after the registration queues the cleanup, and only then leaves the in-flight names |
| `Reconciler.InstanceGroup.DoCreate` | reconciler.go:473-530 | A create posts its vApp at most once and succeeds exactly when createInstance does; then it takes its steps in the order register, build, count, store the HREF, release, and is recorded under its intent with the vApp that its calls brought; one that fails leaves the intent pending with its retry due |
| `Reconciler.InstanceGroup.SendBack` | reconciler.go:491-499 | A failed worker leaves its record pending, to be retried within 25% of min(10s * 2^(n-1), 5min) after failure n |
| `Reconciler.InstanceGroup.DoDelete` | reconciler.go:605-642 | A delete is confirmed exactly when deleteInstance gave evidence about this very vApp, which the actions of the worker carry; it leaves the record Deleted or absent, and a failed one leaves it PendingDelete with its retry due, whatever happened meanwhile |
| `Reconciler.InstanceGroup.CleanUp` | reconciler.go:581-600 | The cleanup asks exactly the calls of the cleanup of this name, and its end is what they gave: done with evidence about a vApp that the lookup returned, not found with what was not found, or failed. Done drops the name, failed does not, not found does exactly after five minutes; the claim on the name is given back last |
| `Reconciler.StartupHold.UpdateStartupHold` | reconciler.go:409-451 | The hold stays on exactly while it was on and either no poll was complete yet or an undeleted leftover remains and the timeout since the first complete poll has not passed; the clock is set by that poll only |
| `Reconciler.LeftoverProgress` | reconciler.go:453-466 | The numbers of undeleted leftovers and of those in deletion |
| `Rely.OthersDoNotDisturb` | reconciler.go:243-285 | Whatever others do, the loop keeps its place and its hold, a worker keeps its place, and what was recorded stays |
| `Store.DesiredStateStore.IndexIsScan` | store.go:80-89 | Lookup through the index equals a scan of the records for that HREF |
| `Store.DesiredStateStore.AddCreateIntent` | store.go:40-53 | The new contents; the index survives exactly when no record with an HREF is overwritten |
| `Store.DesiredStateStore.MarkForDeletion` | store.go:55-77 | Only a running record of that intent id, or else of that HREF, becomes PendingDelete |
| `Store.DesiredStateStore.GetByVAppHREF` | store.go:79-89 | Found exactly when a record carries the HREF, and then it is the only one |
| `Store.DesiredStateStore.GetByIntentID` | store.go:91-101 | A copy of the record of that key |
| `Store.DesiredStateStore.GetAll` | store.go:103-112 | A copy of every record exactly once |
| `Store.DesiredStateStore.UpdateInstance` | store.go:114-142 | The new contents with any other holder of the HREF dropped; the index survives exactly when the callback keeps the HREF or sets it first |
| `Store.DesiredStateStore.AddPreexisting` | store.go:144-172 | Nothing changes for a tracked HREF, else a running record appears; when the index survives |
| `Store.DesiredStateStore.AddLeftover` | store.go:174-197 | Adds a PendingDelete leftover exactly when no record carries the HREF; when the index survives |
| `Store.DesiredStateStore.LeftoverCount` | store.go:199-211 | The number of undeleted leftovers |
| `Store.DesiredStateStore.UpdateFromVCD` | store.go:213-235 | Refreshes the one record of the HREF and forgets its misses |
| `Store.DesiredStateStore.MarkDisappeared` | store.go:237-273 | Every record that is Running, PendingDelete or Deleting and whose HREF is not known counts one miss, the third marks it Deleted, and every other record stays as it is |
| `Store.DesiredStateStore.Prune` | store.go:275-288 | Exactly the records deleted more than five minutes ago go, with their index entries |
| `Store.DesiredStateStore.GetPendingCreates` | store.go:290-306 | Each pending create whose backoff has elapsed, exactly once |
| `Store.DesiredStateStore.GetPendingDeletes` | store.go:308-324 | Each pending delete whose backoff has elapsed, exactly once |
| `Store.DesiredStateStore.GetRunningForGC` | store.go:326-339 | Each running record older than the maximum age, exactly once |
| `Store.DesiredStateStore.MarkGC` | store.go:341-359 | Only a running record of that key is marked |
| `Store.DesiredStateStore.FindLocked` | store.go:361-370 | The record of that key, or else the only one of that HREF, or none |
| `Store.DesiredStateStore.Size` | store.go:428-440 | The number of records not yet Deleted |
| `Store.UpdateIndex` | store.go:125-138 | An update keeps the index exact if and only if the record had no HREF before or keeps it |
| `Store.PruneIndex` | store.go:276-288 | Removing a record with its index entry keeps the index exact |
| `Limiter.RunsStayWithinLimits` | oplimiter.go:33-85 | In every interleaving the totals and both kinds stay within their limits and deletes leave one slot |
| `Limiter.RunKeepsInv` | oplimiter.go:53-85 | Every step of dispatcher and workers keeps counters and semaphores in accord |
| `Limiter.DrainedForGood` | oplimiter.go:87-91 | After a drain nothing runs and nothing can be dispatched in any continuation |
| `Limiter.OpLimiter.TryAcquire` | oplimiter.go:51-75 | Dispatches exactly one operation of the kind if it says so and else none; succeeds whenever there is no pause, both semaphores have room and the reserve allows it when it begins, whatever is released meanwhile; never under a pause or after a drain |
| `Limiter.OpLimiter.Release` | oplimiter.go:77-85 | Gives one slot back, counter first, and acquires nothing |
| `Limiter.OpLimiter.DrainAll` | oplimiter.go:87-91 | Succeeds unless the context ends, and then no operation runs |
| `Operations.RunsKeepInv` | oplimiter.go:17-21 | In every interleaving of loop, workers, callers, vCD and limiter each worker holds a slot of its kind, from before it starts until after it ends |
| `Operations.RunsAreRuns` | reconciler.go:385-403 | Every run of the whole is a run of the protocol with the same state, so all theorems about runs hold of it |
| `Operations.WorkersStayWithinLimits` | oplimiter.go:33-85 | The workers there are, creates and deletes, never exceed the limits, and deletes leave one slot |
| `Operations.DrainedMeansNoWorkers` | oplimiter.go:87-91 | Once the limiter is drained no worker is left, and none can ever be started |
| `Operations.Group.Drain` | reconciler.go:716-720 | Whatever the workers and callers do meanwhile, a drain that succeeds leaves no worker, and one that gives up does so while a slot is in use |
| `Operations.Group.AwaitLoop` | reconciler.go:708-714 | Waiting for the loop gives up only while the loop is in a cycle or has a slot in hand |
| `Shutdown.Shutdown` | reconciler.go:699-758 | It gives up before the sweep only while the loop is still busy or, after that, a slot is still in use; after the drain no worker is left; then exactly these cleanups and deletes are made, in order; unless the context ends, every failed-create name and every undeleted record with the prefix got one, and each name ever registered with the prefix got an attempt, belongs to a record that is Deleted or pruned, or was let go with reason |
| `Shutdown.CleanFailed` | reconciler.go:722-730 | Every failed-create name gets exactly one cleanup, unless the context ends; the calls are those of these cleanups in order, and the complaints are their failures other than not-found |
| `Shutdown.Sweep` | reconciler.go:732-751 | Deletes are made only for undeleted records of the snapshot with the prefix, and for all of them unless the context ends; the calls are those of these deletes in order |
| `Shutdown.NothingIsLeftBehind` | reconciler.go:699-758 | Once the limiter is drained and the sweep is through, each name ever registered with the prefix got a delete attempt, belongs to a record that is Deleted or was pruned, or was let go with reason |
| `Shutdown.UncomplainingCleanup` | reconciler.go:722-730 | When the final sweep has no complaint, the cleanup of each name ended with a delete and its evidence, or with something not found |
| `Shutdown.ComplaintsAreFailures` | reconciler.go:724-730 | The shutdown reports exactly the failures of cleanups other than not-found |
| `VcdCall.World.VcdCall` | vcd_safe.go:83-125 | It is the one call added to those made so far: result, script used, runs added and payloads are those of the call function; every run starts from the payloads the call was given, and a failed call gives them back |
| `VcdCall.World.VcdCallAttempt` | vcd_safe.go:50-69 | Exactly the next attempt is used; it is logged as a run exactly when the function ran, and an error or panic leaves the payloads as saved |
| `VcdCall.World.Op` | vcd_safe.go:93-116 | The log grows by exactly the runs of the attempts used, in order; at most one renewal is made |
| `VcdCall.Restore` | vcd_safe.go:134-145 | The rollback restores every payload that was saved |
| `VcdCall.World.SingleCall` | vcd_safe.go:77-81 | One call without retries is added to those made so far; among its runs at most one was not rejected by the operation limit, for every sequence of responses |
| `VcdCall.World.SafeCall` | vcd_safe.go:71-75 | One retrying call is added to those made so far; a failure gives the payloads back |
| `VcdCall.AtMostOneUnrejected` | vcd_safe.go:95-103 | Runs that repeat only after a rejection contain at most one that was not rejected |
| `VcdCall.NeverReplayed` | vcd_safe.go:93-119 | For every script, a call without retries runs its function again only after an operation-limit rejection with a gate present |
| `VcdCall.CallEnds` | vcd_safe.go:83-125 | The value of a call is what its last attempt returned, and no earlier attempt succeeded; a call that fails made none that succeeded |
| `VcdCall.RetrySourced` | vcd_safe.go:93-124 | A not-found error of a call was said by one of its own attempts or session renewals |
| `VcdCall.CallSentinel` | vcd_safe.go:104-107 | The sentinel of a not-found error is wrapped only by an error of one of its own attempts; quoting an error does not wrap it |
| `VcdCall.RunsInOrder` | vcd_safe.go:83-125 | Calls that succeed run in the order in which they are made |
| `VcdCall.ScriptsAreLawful` | vcd_safe.go:83-125 | Whatever vCD answers, a call that succeeds ran its own function, from its own payloads, to the value it returns |
| `VcdRetry.SucceedsAtOnce` | vcd_safe.go:93-119 | A function that returns ends the call with its value |
| `VcdRetry.RejectionWaits` | vcd_safe.go:95-103 | An attempt that the operation limit rejects is made again once the gate has opened; a wait that ends badly ends the call |
| `VcdRetry.UnauthorizedRenews` | vcd_safe.go:104-111 | A 401 renews the session once; where retries are allowed the function then runs again and what it returns counts, else the call fails |
| `VcdRetry.TransientGoesOn` | vcd_safe.go:120-124 | After a transient error with time left a retrying call goes on as if it began there |
| `VcdRetry.PermanentEnds` | vcd_safe.go:112-115 | An error that no retry can cure ends a retrying call at once |
| `VcdRetry.RetryFailsFor` | vcd_safe.go:93-124 | A retrying call fails only when its time was up, when an error that no retry can cure was met, or when a wait at the gate did not end well |
| `VcdRetry.RetryKeepsTrying` | vcd_safe.go:120-124 | A retrying call makes an attempt before every pause, and at least one, as long as there are any |
| `VcdCreate.CreateRawVApp` | vcd_create.go:15-68 | Exactly the calls of the create are made, in order: one POST without retries, the lookup after an ambiguous failure, the polls of each task, and the refresh; the result is the one they give |
| `VcdCreate.PostsAtMostOnce` | vcd_create.go:16-52 | Whatever vCD answers to any call of the create, task polls and renewals included, at most one POST is not rejected by the operation limit |
| `VcdCreate.LookupFollowsAmbiguity` | vcd_create.go:34-48 | The POST comes first, and a lookup of the name follows each of its failures except one that is permanent and not "already exists" |
| `VcdCreate.CreateFailsFor` | vcd_create.go:34-68 | A create fails only if the POST failed permanently, the lookup failed, a task of the vApp failed or outlasted its polls, or the vApp could not be read or is not empty; else it returns what the POST or the lookup returned |
| `VcdCreate.CreatedIsReturned` | vcd_create.go:34-68 | A vApp that is created was returned by the POST of its name or by the lookup of it, each of its tasks was seen to succeed, and it was then read and found empty |
| `VcdCreate.WaitTaskCompletion` | vcd_create.go:70-94 | The polls are calls of their own, made in turn until one fails or sees the task end; it succeeds exactly as they do |
| `VcdCreate.WaitSees` | vcd_create.go:79-84 | A wait that succeeds has a poll of this very task that saw it succeed |
| `VcdCreate.WaitFailsFor` | vcd_create.go:70-94 | A wait fails only if its last poll failed or saw the task end badly, or if all its polls saw it running |
| `VcdDelete.DeleteInstance` | vcd.go:672-810 | Exactly the calls of the delete are made, in order, and failure and evidence are those they give |
| `VcdDelete.DeleteIsBacked` | vcd.go:672-810 | A delete succeeds exactly with evidence that its own calls gave about this very vApp: a read under its HREF that failed as not found, a delete call made under its HREF whose task was seen to succeed, or no more than an error text |
| `VcdDelete.TextIsNeverAll` | vcd.go:684-698 | When every call that reads as not found ran into a read that said so, no delete counts as done by a text alone |
| `VcdRemoval.DeleteFailsFor` | vcd.go:672-810 | A delete fails only if there is no client, no try could read the vApp, it has several VMs, a read while waiting for running tasks failed or still saw one after all the turns, the last task started failed or outlasted its polls, or the delete call itself failed |
| `VcdRemoval.DeleteRemoves` | vcd.go:717-807 | A delete that does not fail read its vApp as gone, or read it and then: deleted an empty vApp, or one whose VM cannot be read, by its own call; or powered off, undeployed and deleted a runner, in this order and once nothing ran; all under its HREF, and the evidence is the task of that delete |
| `VcdRemoval.RunnerRunsInOrder` | vcd.go:767-806 | In vCD's own log the power-off of that vApp comes before its undeploy, and that before its delete |
| `VcdRemoval.CleanupFailsFor` | vcd.go:638-670 | A cleanup fails only if there is no client, the organization, the data center or the vApp of the name could not be had, or the delete of what the lookup returned failed for a reason of its own |
| `VcdRemoval.CleanupRemoves` | vcd.go:638-670 | A cleanup that does not fail removed the vApp that the lookup of its name returned, or read it as gone |
| `VcdDelete.RefreshVApp` | vcd.go:680-715 | Outcome and calls are those of the refresh retry; an empty name afterwards means exactly that the vApp was not read |
| `VcdDelete.WaitForTasks` | vcd.go:1147-1182 | vApp and VM are read in turn as long as either has a task running, and the calls and the payload are those of that wait |
| `VcdDelete.SessionErrorReadsAsAbsent` | vcd_safe.go:50-54 | The failing input: a session that cannot be locked, with an error text that reads as not found, makes the vApp count as gone although nothing was run |
| `VcdDelete.NeverByTextExactlyWhen` | vcd.go:30-43 | No delete counts as done by a text alone, in every conversation, if and only if no error that a session or a panic may bring reads as not found |
| `VcdCleanup.CleanUpInstanceByName` | vcd.go:638-670 | Exactly the calls of the cleanup of this name are made, in order, and its end is the one they give |
| `VcdCleanup.CleanupIsBacked` | vcd.go:638-670 | A cleanup succeeds exactly with a delete, with its evidence, of the vApp that a lookup of its name returned before; one that ends as not found says whether a lookup of its name found nothing or something else was missing, as its runs show |
| `VcdCleanup.NoOrganizationReadsAsMiss` | vcd.go:644-649 | The failing input: an organization that is not found ends the cleanup as not found, although the name was never looked up |
| `VcdCleanup.OnlyByLookupExactlyWhen` | reconciler.go:594-596 | A cleanup ends as not found only after a lookup of its own name found nothing, in every conversation, if and only if no error of a session, of another operation or of the caller wraps the sentinel |
| `Session.OneSuccessPerGeneration` | session.go:79-93 | Over all interleavings, for any number of callers that saw one generation, at most one successful exchange answers it, expiry renewals included; the generation counts the successes |
| `Session.AnsweredIsNotRenewed` | session.go:88-92 | A caller that brings a generation already answered, or none, cannot make an exchange |
| `Session.RunKeepsInv` | session.go:33-93 | Every step of any thread keeps lock, generations, reports and exchanges in accord |
| `Session.RenewalExcludesCalls` | session.go:33-36 | No thread holds the read lock while a token is exchanged |
| `Session.SessionLock.LockSession` | session.go:54-77 | Returns with the read lock held and the current generation exactly when it returns no error; a session that had expired when the call began is renewed by then, unless an exchange failed meanwhile; fails only when the context ended or its own exchange failed |
| `Session.SessionLock.RefreshSession` | session.go:79-93 | Success means a newer generation is in place; an exchange is made only for the generation the caller saw, which is then the current one; fails only when the context ended, there is no client, or its own exchange failed |
| `Session.SessionLock.RefreshLocked` | session.go:79-93 | When an exchange happens, what it does to the session, and when the call fails |
| `Session.SessionLock.GetVCDClient` | vcd.go:1184-1208 | Fails only when its own exchange failed; else there is a client, and a session that had expired when the call began is renewed by then, unless an exchange failed meanwhile |
| `Session.SessionLock.AuthenticateLocked` | session.go:35-44 | A success raises the generation by exactly one; a failure leaves a session that must authenticate again |
| `Session.SessionLock.Call` | vcd_safe.go:50-69 | The generation an attempt reports is the current one until its call ends, whatever other threads do; there is none only when the context ended or an exchange failed |
| `VcdRead.ReadListedVApps` | vcd.go:573-597 | Each listed vApp is read by one call of its own, in order, up to the first failure that does not read as not found; the vApps kept and those left unread follow from the answers |
| `VcdRead.ReadsAreBacked` | vcd.go:559-566 | A vApp that a poll takes for found was returned by a read of it, and one it takes for gone was denied by one, unless the read was misled |
| `VcdRead.ReadsInTurn` | vcd.go:579-594 | The i-th call is the read of the i-th listed vApp and the i-th answer is what it came to, up to the first failure that does not read as not found, and no further |
| `VcdRead.GoneAtOnce` | vcd_safe.go:33-43 | A read wrapped by notFoundIsPermanent is not tried again once the vApp is gone |
| `VcdRead.SessionErrorMisleads` | vcd.go:579-588 | The failing input: a session that cannot be locked, with an error text that reads as not found, makes a listed vApp count as gone although nothing was run |
| `VcdRead.NeverMisledExactlyWhen` | vcd.go:579-588 | No read of a poll is misled, in every conversation, if and only if no error that a session or a panic may bring reads as not found |
| `Listing.Partition` | vcd.go:573-597 | Each listed vApp is exactly one of read, unread, and dropped; it is dropped only when its read said that it is gone, or was misled |
| `Listing.KnownUnlessGone` | reconciler.go:293-304 | Whatever was listed and not dropped counts as present |
| `Listing.KnownIsPresent` | reconciler.go:293-304 | What a poll knows is exactly the listed vApps that were read and those from the first failed read on |
| `Throttle.PauseGrowsPerEpisode` | throttle.go:55-83 | After k episodes since the last success the backoff stands at min(15s * 2^k, 5min) |
| `Throttle.EpisodePause` | throttle.go:57-73 | A new pause lies within 50% of that interval |
| `Throttle.PauseLasts` | throttle.go:57-96 | After a rejection that starts a pause the gate is closed for at least half that interval and open after one and a half of it |
| `Throttle.RejectionsInOnePauseCountOnce` | throttle.go:55-67 | Any number of rejections inside one pause change nothing |
| `Throttle.PausedUntilNeverDecreases` | throttle.go:57-73 | The end of the pause never moves back |
| `Throttle.ThrottleGate.Throttled` | throttle.go:57-73 | The gate after a rejection |
| `Throttle.ThrottleGate.Succeeded` | throttle.go:75-83 | The gate after a completed operation |
| `Throttle.ThrottleGate.Paused` | throttle.go:85-96 | True exactly when a rejection now would change nothing; else a rejection now would start a pause |
| `Throttle.ThrottleGate.Until` | throttle.go:98-109 | The time up to which the gate stays closed and from which it is open, for every later time |
| `Throttle.ThrottleGate.Wait` | throttle.go:111-131 | Returns without error only after seeing no active pause, even when pauses are extended meanwhile |
| `Breaker.CountsAreExact` | reconciler.go:181-205 | The failure count and the backoff equal the failures and trips since the last success |
| `Breaker.TripExactly` | reconciler.go:181-194 | A trip happens exactly at a failure that reaches the threshold outside a cooldown; the n-th lasts within 25% of min(5min * 2^(n-1), 30min) |
| `Breaker.UntilNeverDecreases` | reconciler.go:181-205 | The end of the cooldown never moves back over a whole run |
| `Breaker.CircuitBreaker.RecordCreateFailure` | reconciler.go:181-194 | The breaker after a failure |
| `Breaker.CircuitBreaker.RecordCreateSuccess` | reconciler.go:196-205 | The breaker after a success |
| `Backoff.RetryDelay` | reconciler.go:773-788 | The delay before retry n lies within 25% of min(10s * 2^(n-1), 5min) |

## Left out

- HTTP, XML, the vCD SDK, SSH readiness, guest customization, TPM and disk steps: foreign I/O, which appears as arbitrary results.
- Error texts and their classifiers: an error is a record of what the classifiers say about it.
- Metrics, logging, debug and status pages, configuration, wiring of the plugin, scripts, and the random generation of ids and names.
- setCreateReserve, HasCreating and UpdateMetrics: nothing in the engine that is modelled calls them or depends on them.
- AddPreexisting in whole runs: the reconciler never calls it; its contract is proved for the class.
- The limiter inside Reconciler: there a slot is granted or refused arbitrarily; Operations puts the limiter and the protocol together as step systems.
- Panics: a poll may stop at any step; panics in workers count as failures of the calls they make.
- The flag that skips VM reads after a slow one: a skipped read is a read that answered nothing.
- Liveness: nothing says that a run goes on, that vCD answers, or that a lock is granted.
- Ranging over a shared map: it visits names in any order and may pass over those that disappear or appear meanwhile.
- Shutdown.Shutdown: does not model callers that change the store during the sweep, because the sweep walks a snapshot, nor that a call which the end of the context abandons finishes in the background.
- Reconciler.InstanceGroup.CreateInstance: does not model the calls before the registration and those that turn the empty vApp into an instance, which may fail at any point, because none of them decides what becomes of the name.
- Reconciler.InstanceGroup.PollVCD: does not model the calls that bring the listing, which is given or fails, because a listing may be anything that names vApps there are or were.
- VcdCall.World.RetryWithData: is a recursion where the backoff library loops; does not model the lengths of the pauses between retries, because only their number and the end of the context matter to the results.
- Limiter.OpLimiter.DrainAll: does not model that a waiting acquire of the semaphore library makes later tries fail before it is granted, because a try that fails acquires nothing.
