# Fetech runtime kernels in Dafny

Fetech acquires web resources: a planner turns a request into a dependency graph of adapter calls, an
executor walks that graph under a resource budget, a scheduler rations network slots, a ledger streams
provenance events, a content-addressed store keeps bodies, and workers run behind read-only mounts. This
project models those kernels and proves what they promise over every input, every run and every
interleaving. `dafny verify dfyconfig.toml` checks everything.

| files | component | form |
|---|---|---|
| `SchedulerModel`, `SchedulerProofs`, `Scheduler` | `src/fetech/scheduling.py` | a state machine, its run theorems, and the class whose methods are proved equal to its steps |
| `LedgerModel`, `LedgerProofs`, `LedgerBoundary`, `Ledger` | `src/fetech/ledger.py` | interleaved atomic steps, delivery theorems and their exact boundary, and the classes that take the steps |
| `Plan`, `PlanText`, `Planner`, `PlanRules` | `src/fetech/planning.py` | plan graphs, identifier texts, the staged construction of a plan, and what its selections mean |
| `Context`, `NodeRun`, `Batch` | `src/fetech/adapters/base.py`, `src/fetech/executor.py` | budgets and merging, one node with its retries, and parallel batches under every completion and cancellation order |
| `Executor`, `Fates`, `Flow`, `Verdict`, `Engine`, `Runtime` | `src/fetech/executor.py` | the run of a plan as a specification with its invariants, what became of each node and why, how the context goes through a run, what its status says, the main loop that follows the specification, and planner and executor together |
| `ScopeClosure` | `scripts/generate_release_evidence.py` | worklist against least fixed point |
| `ContentStore`, `Publication` | `src/fetech/storage.py` | chunked verified reads, and concurrent publication with crashes |
| `Transfer` | `src/fetech/wayback.py` | bounded raw and gzip bodies, two requests on one byte budget |
| `Mounts` | `src/fetech/worker_isolation.py` | root reduction and the view a worker gets |

How the pieces are read:

- The environment is a parameter. A clock is any monotone function; the completion order of parallel
  branches, the point where a cancellation hits, every adapter reply, every short read and every crash are
  arbitrary. Nothing assumes that the hash has no collisions.
- Code that mutates is imperative Dafny proved against a specification function, and the theorems are
  about that function. `SchedulerProofs`, `LedgerProofs` and `Publication` quantify over whole runs.
- Runs that raise count as runs. `Engine.Execute` reports what was called and spent on every exit, with the
  branches of a raising batch awaited, and its safety claims hold there too. A run may be cancelled from outside
  in an adapter call, during a back-off, while a batch waits, and while its losers are awaited.
- A report tells the fate of every node the loop dealt with, and `Fates.RunIsTold` proves each fate true of the
  run's completed nodes, calls, flags and status. `Fates.WhyCompleted` and `Fates.WhyUncalled` say what that amounts to.
- What an operation answers is also stated in the terms of its inputs, beside the functions it is computed with:
  the armed timer by slots and table entries (`Held`), a run's status by the answers of its adapters (`Meets`),
  cancellation round by round (`StruckRightly`), planning by the request's lists and outputs (`Admits`, `PlanRules`),
  a scope closure by paths of references (`Reached`), a transfer by the sizes of its responses (`Affordable`).
- A node that meets the deadline without an attempt of its own is recorded as one without consumption. Such records
  are counted, and they are all by which a run can exceed its number of attempts.
- Three results mark where the code does less than a reader might assume. `LedgerBoundary.ExactBoundary`:
  exactly-once delivery holds in all interleavings if and only if no append is unfinished at the finish or begun
  after it. Appends that were awaited before the finish meet that. One that was cancelled between its commit and
  its publication, or that runs beside the finish, does not; nor does the `run.failed` event that
  `src/fetech/gateway.py:366-386` appends, before finishing the run again, when `execute` raised after its own finish.
  `Mounts.DeviceRootIsHidden`: a root under `/proc` or `/dev` is bound and then hidden, and
  `Mounts.WorkerMounts` proves that these are exactly the hidden ones. `Transfer.ReadGzip`: a gzip file of
  several members (section 2.2 of RFC 1952) is refused.

## Model

| member | source | states |
|---|---|---|
| `SchedulerProofs.NoLostWakeup` | src/fetech/scheduling.py:153-224 | after every run: if someone waits, all global slots are held, or every waiting host is saturated and a holder exists, or the timer is armed at the minimum ready time, strictly later than the last clock reading; while a global slot is free no waiter was eligible at that reading; every pending acquisition is queued |
| `SchedulerProofs.ArmedForEarliest` | src/fetech/scheduling.py:181-224 | in every run with a waiter and a free global slot: without a timer every waiting host holds all its slots; with one, at every time from the last clock reading until the armed one each waiter's host holds all its slots, or has an entry younger than the interval, or has none while the full table holds only such entries; and at the armed time some waiter is held by none of these |
| `SchedulerProofs.TimerProgress` | src/fetech/scheduling.py:161-234 | a timer that fires with the clock at or past the armed time, no waiter having been cancelled meanwhile, makes the pump grant at least one waiter, also when only the history-table limit was in the way |
| `SchedulerProofs.ArmedIsLater` | src/fetech/scheduling.py:162-168 | the armed time is strictly later than the clock reading at arming |
| `SchedulerProofs.StartSpacing` | src/fetech/scheduling.py:176-178 | in every run any two grants to one host are at least the minimum interval apart although history entries are deleted, and the table never exceeds its limit |
| `SchedulerProofs.CapacityAccounting` | src/fetech/scheduling.py:92-135 | in every run the global count equals the number of holders and the sum of the per-host counts, both limits hold, per-host entries are positive and equal that host's holders, and no holder's release can underflow |
| `SchedulerProofs.QuiescentIsEmpty` | src/fetech/scheduling.py:105-135 | once every acquisition is over, whether by exit or by cancellation before or after its grant, all counters, queues and timers are empty: no slot leaks |
| `SchedulerProofs.GrantsFollowArrival` | src/fetech/scheduling.py:181-224 | grants to one host follow arrival order, nobody still waiting arrived before a grant to the same host, and each grant went to the oldest waiter that nothing held at that instant, having passed only held waiters of other hosts |
| `SchedulerProofs.RunsKeep` | src/fetech/scheduling.py:109-248 | the full invariant (queue, capacity, ordered bounded history, spacing, fairness, armed timer) holds after every legal run of acquire, grant, cancel, release and timer steps |
| `SchedulerProofs.NextKeeps` | src/fetech/scheduling.py:109-135 | every single enabled step keeps that invariant and only extends the grant log |
| `SchedulerProofs.PumpKeeps` | src/fetech/scheduling.py:153-179 | the pump establishes the armed-timer invariant from any state that satisfies the others |
| `SchedulerProofs.HolderCanRelease` | src/fetech/scheduling.py:127-129 | the underflow error is unreachable for a holder |
| `SchedulerProofs.PruneIsSuffix` | src/fetech/scheduling.py:226-234 | on a table ordered by start time, dropping from the front removes exactly the expired entries |
| `SchedulerProofs.MinReadyIsMinimum` | src/fetech/scheduling.py:185-224 | the wake-up time is the least of the ready times of waiters with a free host slot, attained by one of them; it is absent exactly if every waiting host is saturated |
| `SchedulerProofs.MinReadyIsEarliest` | src/fetech/scheduling.py:185-224 | on a pruned table on which nobody may start, that time is the earliest at which anybody may, in terms of slots and table entries |
| `SchedulerProofs.EligibleIsFree` | src/fetech/scheduling.py:185-219 | on a pruned table a host may start exactly if it has a free slot, no entry younger than the interval, and an entry or room for one |
| `SchedulerProofs.ReadyIsEligible` | src/fetech/scheduling.py:193-234 | when the clock reaches a blocked host's ready time, pruning leaves the host eligible |
| `Scheduler.NetworkScheduler.Create` | src/fetech/scheduling.py:35-70 | a scheduler exists exactly for positive limits and a non-negative interval, and starts empty |
| `Scheduler.NetworkScheduler.constructor` | src/fetech/scheduling.py:59-70 | the initial state of the machine |
| `Scheduler.NetworkScheduler.PruneHostHistory` | src/fetech/scheduling.py:226-234 | the loop equals the specification of pruning |
| `Scheduler.NetworkScheduler.NextEligibleWaiter` | src/fetech/scheduling.py:181-224 | one scan returns the oldest eligible waiter, or else the minimum ready time; on a pruned table that is the oldest waiter that nothing holds, or else the earliest time at which one of them is free |
| `Scheduler.NetworkScheduler.RunPump` | src/fetech/scheduling.py:153-179 | the loop over clock readings equals the machine's pump |
| `Scheduler.NetworkScheduler.AdmitWaiter` | src/fetech/scheduling.py:170-179 | one admission equals the machine's admission |
| `Scheduler.NetworkScheduler.Acquire` | src/fetech/scheduling.py:109-113 | the synchronous part of an acquisition equals its step |
| `Scheduler.NetworkScheduler.CancelPending` | src/fetech/scheduling.py:114-116 | cancellation before the grant changes the future only |
| `Scheduler.NetworkScheduler.HandleCancellation` | src/fetech/scheduling.py:116-122 | the handler gives back a granted slot, or else leaves the queue, and pumps |
| `Scheduler.NetworkScheduler.Release` | src/fetech/scheduling.py:124-135 | one slot of the host is given back and the pump runs, or nothing changes and the call fails, exactly on underflow |
| `Scheduler.NetworkScheduler.Resume` | src/fetech/scheduling.py:96-98 | a granted task enters the body without touching the scheduler |
| `Scheduler.NetworkScheduler.Exit` | src/fetech/scheduling.py:105-107 | leaving the body releases the slot |
| `Scheduler.NetworkScheduler.Wake` | src/fetech/scheduling.py:245-248 | the timer callback equals the machine's timer step |
| `LedgerProofs.ExactlyOnce` | src/fetech/ledger.py:127-148 | in every interleaving a stream that returned has yielded each committed event exactly once, given that no append was unfinished when the finish committed |
| `LedgerProofs.AtMostOnce` | src/fetech/ledger.py:210-234 | in every interleaving, late appends included, a stream yields only committed events and none twice |
| `LedgerProofs.InLogOrder` | src/fetech/ledger.py:150-157 | with one append at a time the yielded sequence is always a prefix of the log and in the end the log itself |
| `LedgerProofs.NoBlockedSubscriber` | src/fetech/ledger.py:115-117 | once a finish step is done, every live subscriber has a step of its own, and each such step strictly decreases its remaining work |
| `LedgerProofs.UnknownRunFails` | src/fetech/ledger.py:218-219 | in every interleaving, once its rows are replayed the stream of a run that was never created fails and is unregistered, that of a finished run empties its queue, and any other one follows |
| `LedgerProofs.LateAppendIsMissed` | src/fetech/ledger.py:218-227 | the smallest such loss: an event committed before the finish but not yet published is missing from a stream that returned |
| `LedgerProofs.RunsKeep` | src/fetech/ledger.py:99-148 | the delivery and order invariants hold after every run |
| `LedgerProofs.NextKeeps` | src/fetech/ledger.py:99-240 | every step of writers, finisher and subscribers keeps the delivery invariant |
| `LedgerBoundary.ExactBoundary` | src/fetech/ledger.py:99-148 | a schedule of writers and finisher delivers every event exactly once to every stream that returns, in every interleaving with any number of subscribers, if and only if every append was published before the finish was committed and none began after it |
| `LedgerBoundary.LateScheduleLoses` | src/fetech/ledger.py:210-227 | for every late schedule, however many writers it has, there is a run with the same writer steps in which a stream returns without some committed event |
| `LedgerBoundary.ScheduleIsRun` | src/fetech/ledger.py:116-148 | taking the subscribers out of any run leaves a run of the writers with the same log, so subscribers never disturb them |
| `LedgerBoundary.LateCause` | src/fetech/ledger.py:99-148 | a late schedule has an event that is committed at some point and still withheld when the run is finished |
| `LedgerBoundary.OthersLeaveWork` | src/fetech/ledger.py:210-240 | after the finish, with no append late, nothing that writers, a further finish or other subscribers do adds to a stream's remaining work |
| `LedgerBoundary.StreamEnds` | src/fetech/ledger.py:228-234 | from any point after the finish on, in every such run, a stream takes no more steps of its own than its work at that point, and it is then still on its way or has returned |
| `Ledger.EventLedger.constructor` | src/fetech/ledger.py:49-53 | the ledger starts in the initial state of the machine |
| `Ledger.EventLedger.CreateRun` | src/fetech/ledger.py:78-97 | takes the machine's step if the run is new; a run that exists is not created again and nothing changes |
| `Ledger.EventLedger.CommitEvent` | src/fetech/ledger.py:132-146 | takes the commit step exactly if the event identity is new, and otherwise changes nothing |
| `Ledger.EventLedger.PublishEvent` | src/fetech/ledger.py:147-148 | takes the publication step of its writer |
| `Ledger.EventLedger.Publish` | src/fetech/ledger.py:147-148 | the loop adds the item once at the end of every registered queue |
| `Ledger.EventLedger.CommitState` | src/fetech/ledger.py:99-114 | takes the state step, which for FINISHED is the commit of a finish, the first or a further one; an unknown run raises and nothing changes |
| `Ledger.EventLedger.PublishFinish` | src/fetech/ledger.py:115-117 | takes the step that sends the sentinel, for the first finish as for a further one |
| `Ledger.Stream.constructor` | src/fetech/ledger.py:211-214 | takes the subscription step: an empty queue is registered before anything is read |
| `Ledger.Stream.ReadRows` | src/fetech/ledger.py:215-215 | takes the machine's step that reads the committed rows, and keeps the queue registered |
| `Ledger.Stream.Replay` | src/fetech/ledger.py:215-217 | takes the replay step and yields the event that step appends to the yielded ones |
| `Ledger.Stream.ReadState` | src/fetech/ledger.py:218-219 | takes the step that reads the run state: flush, follow, or fail and unregister |
| `Ledger.Stream.Turn` | src/fetech/ledger.py:219-234 | one turn of either drain loop takes the machine's take or return step and yields exactly what that step adds |
| `Ledger.Stream.TakeNext` | src/fetech/ledger.py:220-234 | skips a seen event, yields a new one, and ends on the sentinel, as the take step does |
| `Ledger.Stream.Close` | src/fetech/ledger.py:235-240 | takes the step of a consumer that goes away: the queue is unregistered |
| `Planner.BuildPlan` | src/fetech/planning.py:214-588 | every returned plan has unique identities and identifier texts, lists each node after its dependencies, is dependency-closed, has exactly one `http` node, which runs the requested operation, makes every node but the two core ones depend transitively on `policy` and every later one on a requested session, makes caches of derived content wait for a node that produces it, and marks posts and form submissions for approval; it is exactly what the request's allow and deny lists admit of the draft; every requested schedulable output has a node or an adapter that covers it; every error has its reason in the request: a missing dependency a denied capability of the planner's own, an unknown capability one the registry lacks; a request with empty allow and deny lists, a registry that knows the planner's capabilities, no output to schedule and none of the conflicts gets its plan |
| `Planner.PermittedIsAdmitted` | src/fetech/planning.py:723-737 | a capability is permitted exactly if the registry knows it under a name that is not denied, and that is allowed if there is an allow list, where the five HTTP operations and the two URL steps need no mention |
| `Planner.KeptIsAdmitted` | src/fetech/planning.py:573-573 | a node of the draft is kept exactly if the lists admit its capability |
| `PlanRules.ClassifyTells` | src/fetech/planning.py:180-207 | for each family exactly when a target belongs to it, by the requested outputs, the suffix and a known API: requested capabilities before suffixes and loose names, documents before media before APIs before archives |
| `PlanRules.CanonicalTells` | src/fetech/planning.py:216-221 | the planned outputs are the requested ones under their registered names, each once |
| `PlanRules.PickInOrder` | src/fetech/planning.py:244-248 | selections follow the order of their tables |
| `PlanRules.HttpTells` | src/fetech/planning.py:693-697 | the HTTP operation is the first requested one of four in their order, and a GET without any |
| `PlanRules.EngineTells` | src/fetech/planning.py:391-398 | the browser engine is the first requested one, and playwright without any |
| `PlanRules.ReadersTell` | src/fetech/planning.py:700-708 | exactly the requested readers are planned, and two of them without any |
| `PlanRules.DocumentsTell` | src/fetech/planning.py:613-642 | exactly the requested document capabilities but the archive, and one by the suffix without any |
| `PlanRules.MediaTell` | src/fetech/planning.py:644-662 | exactly the requested media capabilities, and one by the suffix without any |
| `PlanRules.GateTells` | src/fetech/planning.py:244-263 | the acquisition waits for the one requested session, and for the policy without any |
| `PlanRules.PickCounts` | src/fetech/planning.py:244-250 | more than one of a table is selected exactly if two different ones were requested |
| `PlanRules.LookupsTell` | src/fetech/planning.py:264-281 | a lookup is planned exactly if the lists admit it and it is requested, or it is the default search for a requested search cache without any search adapter |
| `Planner.OpenRequest` | src/fetech/planning.py:214-588 | with empty allow and deny lists and known capabilities only two sessions, two APIs, a rendering of bytes, or an output that would have to be scheduled can be the reason of an error |
| `Planner.FilterAndValidate` | src/fetech/planning.py:573-588 | succeeds exactly if the kept nodes of the draft pass the checks, and then returns them as such a plan; an error has its reason |
| `Planner.Filter` | src/fetech/planning.py:573-585 | keeps exactly the permitted nodes, and succeeds exactly if all capabilities are known, an HTTP operation is left, the dependencies are closed and the requested outputs scheduled; an HTTP denial is reported only if the request's own operation is not permitted, a missing dependency only if a capability the planner wrote is not |
| `Planner.DroppedIsDenied` | src/fetech/planning.py:573-588 | the draft has all its dependencies, so one that is missing after filtering was denied |
| `Planner.DraftNodes` | src/fetech/planning.py:234-572 | the draft is exactly the core with a requested session, the lookups behind the gate, the one HTTP node, the requested steps, the nodes of the request's family behind them, the missing producers and one node per requested strategy; it keeps the construction order, is closed under dependencies, writes only the planner's own capabilities, gates the acquisition and feeds the caches; an error names a reason that holds of the request |
| `Planner.CoreNodes` | src/fetech/planning.py:234-263 | exactly the two core nodes and the requested session if there is one; more than one requested session is the only error |
| `Planner.PreCacheSelection` | src/fetech/planning.py:264-281 | exactly the requested, permitted lookups, with a search adapter added where a search cache needs one |
| `Planner.PreCacheNodes` | src/fetech/planning.py:282-306 | exactly one lookup per selected capability in table order, each the fallback of the one before it, all behind the gate, and the map of lookups has exactly these capabilities |
| `Planner.HttpNode` | src/fetech/planning.py:307-330 | the one HTTP node behind the gate with the requested operation; the fallback of the last lookup exactly for a cache-only request that needs no source; no retry of a post |
| `Planner.AcquisitionNodes` | src/fetech/planning.py:331-354 | exactly the requested token and form steps are added, and later stages wait for the last of them |
| `Planner.ReaderNodes` | src/fetech/planning.py:700-721 | one reader per selected capability in table order, in one parallel group, all behind the given node, each the fallback of the one before it |
| `Planner.WebNodes` | src/fetech/planning.py:373-410 | exactly: the alternatives unless authenticated, the readers behind them or else behind the acquisition, and the browser behind the last reader |
| `Planner.BrowserNode` | src/fetech/planning.py:388-410 | one browser node exactly if one is installed, running the first requested engine or the default, behind the last reader and a fallback of it unless a browser capability was requested |
| `Planner.ExtractorNodes` | src/fetech/planning.py:411-446 | one extractor per selected capability, in order, in one parallel group, each behind the acquisition; later stages wait for the last of them |
| `Planner.ApiNode` | src/fetech/planning.py:464-475 | exactly one structured node behind the acquisition, for the requested API, or else the detected one, or else by the suffix; more than one requested API is the only error |
| `Planner.FamilyNodes` | src/fetech/planning.py:355-475 | exactly the nodes of the request: one crawl, or those of the target family (readers and browser, extractors, archive, API, or none), all behind the acquisition, and later stages wait for the last of them; two requested APIs for an API target are the only error |
| `Planner.FindProducer` | src/fetech/planning.py:481-488 | returns a node on that adapter with one of those capabilities, and nothing exactly if there is none |
| `Planner.ProducerNodes` | src/fetech/planning.py:476-540 | each requested cache of derived content gets a node that produces it, a reader of clean text or a browser engine, and only a missing one is added; the errors are a denied producer and bytes that cannot be rendered |
| `Planner.PostCacheNodes` | src/fetech/planning.py:541-572 | one node per requested strategy in table order, in one group: derived content waits for its producer, search caches for their search adapter, the others for the terminal node |
| `Planner.KeptAreFed` | src/fetech/planning.py:573-580 | filtering keeps, with a cache of derived content, the node that produces it |
| `Planner.ValidateNodes` | src/fetech/planning.py:739-745 | succeeds exactly if all capabilities are known and all dependencies are in the plan, and otherwise reports one that is so |
| `Planner.ValidateOutputs` | src/fetech/planning.py:747-792 | succeeds exactly if every requested output that has to be a node is permitted and scheduled, and otherwise there is one that is not |
| `Planner.RankedIsExecutable` | src/fetech/planning.py:739-745 | a closed plan in construction order has unique identities and only backward dependencies |
| `Planner.PlanIsGuarded` | src/fetech/planning.py:234-243 | every node but the core ones has a dependency chain to `policy` |
| `Planner.PlanIsGated` | src/fetech/planning.py:251-263 | the session is a node of the plan without alternatives, and every later node has a dependency chain to it |
| `Planner.UniqueHttp` | src/fetech/planning.py:573-579 | an HTTP operation that survives filtering sits on exactly one `http` node |
| `PlanText.TextSeparates` | src/fetech/planning.py:254-306 | identities that differ in construction order have different identifier texts |
| `Context.PartitionBudgets` | src/fetech/executor.py:916-955 | for attempts, every integer field and every measured one the slices above current consumption add up to exactly what is left; earlier slices are at most one larger, measured ones equal, fields that are not split are kept; each branch gets an attempt whenever there are enough; no branches is an error |
| `Context.SharesPartition` | src/fetech/executor.py:926-946 | shares add up to the remainder, earlier ones are at most one larger, and they are positive if there is enough |
| `Context.MergeIsBatchOrder` | src/fetech/executor.py:617-633 | merged lists are the baseline followed by each branch's additions in batch order; acceptance is the disjunction, the crawl report the last one there is |
| `Context.MergeKeepsCeilings` | src/fetech/executor.py:916-955 | branches that respect the fields of their slices, merged back, stay within every ceiling the run was within |
| `Context.MergeKeepsAttempts` | src/fetech/executor.py:925-931 | branches that respect their share of attempts, each but for its extra records, come back within the run's attempts but for the sum of these |
| `Context.MergeSpends` | src/fetech/executor.py:592-633 | a batch whose branches stay within their own slices stays within the run's ceilings |
| `Context.MergeConservesUse` | src/fetech/executor.py:617-633 | the consumption of the merged context is, in every field, exactly that of the baseline and of what each branch added |
| `Context.ExecutionContext.constructor` | src/fetech/adapters/base.py:27-40 | a context holds the given lists |
| `Context.ExecutionContext.RequireBudget` | src/fetech/adapters/base.py:57-69 | for each of the twelve numeric fields refuses exactly negative amounts, unknown fields and amounts beyond the ceiling minus consumption |
| `Context.ExecutionContext.RecordConsumption` | src/fetech/adapters/base.py:71-96 | total consumption rises by exactly the recorded amounts in each of the twelve numeric fields, other attempts stay as they were; a bad index or else the first unknown or negative amount is the error, and then nothing changes |
| `Context.ExecutionContext.MergeParallelContext` | src/fetech/executor.py:617-633 | the update in place equals the merge function |
| `NodeRun.WithRetries` | src/fetech/executor.py:666-699 | the retry loop equals its recursive specification, in which a back-off ends, meets the deadline, or is cancelled |
| `NodeRun.AttemptsShape` | src/fetech/executor.py:675-699 | at most one call per retry, all to the node's adapter, and only the last can have returned |
| `NodeRun.NodeShape` | src/fetech/executor.py:250-488 | however a node ends its calls are its own, and an unapproved, unregistered or expired node calls nothing; a result completes the node exactly if its adapter call returned, and otherwise raises a flag |
| `NodeRun.NodeRecordsOutcome` | src/fetech/executor.py:738-751 | every node that reached a result leaves an outcome for its capability |
| `NodeRun.NodeSpends` | src/fetech/executor.py:753-815 | however a node ends it stays within every budget field, and within the attempts but for the record of a passed deadline |
| `NodeRun.RecordsAreDeadlines` | src/fetech/executor.py:753-815 | a node leaves at most one such record, which consumes nothing, and is then flagged as out of budget |
| `NodeRun.NodeReturns` | src/fetech/executor.py:281-488 | a node ends with a result unless an adapter exception is unexpected, its task is cancelled, in a call or in a back-off, or the ledger fails |
| `NodeRun.HandlersClose` | src/fetech/executor.py:281-488 | a node whose adapter did not return leaves no attempt running, after a passed deadline an attempt that ended, the reasons of a blocked policy among the decisions, and everything else as it was |
| `Verdict.AttemptsTold` | src/fetech/executor.py:675-699 | the adapter is called again exactly after a retryable error, while retries and attempts are left and the back-off comes to its end; the last answer, the limit or the interrupted back-off is what the node ends with |
| `Verdict.NodeFlags` | src/fetech/executor.py:281-488 | a result carries exactly the flags of the trouble the node met, told by registration, approval, clock and the adapter's answers, and stops the run exactly for a blocked policy, missing authentication, an absent resource or a limit |
| `Verdict.NodeOutcome` | src/fetech/executor.py:738-751 | the one outcome the engine records for a node is applied, blocked, dependency-missing or failed by what the node met |
| `Batch.ParallelBatch` | src/fetech/executor.py:564-590 | a batch is the longest contiguous run, from the current node on, of nodes in its group that are ready, need no approval and are no unneeded fallbacks, as far as each gets an attempt, or the node alone |
| `Executor.BatchIsIndependent` | src/fetech/executor.py:579-586 | no node of a batch depends on another one of it |
| `Batch.ParallelContexts` | src/fetech/executor.py:592-615 | each branch starts from a copy with a slice of its own and room for an attempt, and the slices divide what is left |
| `Batch.ExecuteParallelBatch` | src/fetech/executor.py:490-562 | in every completion and cancellation order each branch comes to exactly one end, whether the batch returns or raises; nobody is cancelled as long as no finished branch raised, stopped the run, or completed as an alternative with a context that was not accepted before; in the first round with such a branch, or when the run's own task is cancelled, exactly the branches still running are, those of the same round excepted; the batch raises exactly if one of the ends is not a result or the run's own task was cancelled |
| `Batch.StruckHasCause` | src/fetech/executor.py:523-544 | a branch is cancelled only on account of another one that was not, and that raised, stopped the run, or completed as an alternative and was accepted first, or because the run's own task was cancelled |
| `Batch.Round` | src/fetech/executor.py:518-553 | one wake-up either goes on waiting with exactly the finished branches collected, or ends the batch with every branch at its end |
| `Batch.AwaitAll` | src/fetech/executor.py:554-559 | after an exception, also the run's own cancellation, everything still running is cancelled and awaited |
| `Batch.Collect` | src/fetech/executor.py:519-535 | collects exactly the finished branches, calls for cancellation exactly if one of them decides, and raises exactly if one of them raised |
| `Batch.CancelLosers` | src/fetech/executor.py:536-553 | every loser is settled with what the cancellation made of it: cut off, its own result, or another one its adapter turned it into; an exception among these is raised |
| `Batch.MergeBranches` | src/fetech/executor.py:154-160 | branches are merged in batch order whatever order they finished in |
| `Executor.Absorb` | src/fetech/executor.py:154-171 | the loop over branch results equals the tally of completion, flags, calls and stop |
| `Executor.TallyKeeps` | src/fetech/executor.py:142-172 | taking in a whole batch keeps completion closed and the flags exact |
| `Batch.RunBatch` | src/fetech/executor.py:142-172 | splitting the budget, starting the branches and running them ends the batch as specified |
| `Batch.BatchOutcome` | src/fetech/executor.py:142-172 | every branch behaves, the batch as a whole stays within the run's budget but for its deadline records even if it raises, and it returns in a calm environment |
| `Batch.BranchCompletes` | src/fetech/executor.py:536-553 | a branch with a result is completed exactly by a call of its own that returned, unless its cancellation took effect |
| `Batch.BatchJoins` | src/fetech/executor.py:564-590 | every node of a batch of several is in the group of the first, ready, needs no approval and is no unneeded fallback |
| `Executor.AncestorCameFirst` | src/fetech/executor.py:112-125 | a node that may run runs after everything it transitively depends on completed |
| `Executor.RunKeepsOrder` | src/fetech/executor.py:112-192 | the calls of a node that may run come after a returned call of each ancestor without alternatives |
| `Executor.BatchKeepsOrder` | src/fetech/executor.py:142-172 | the same for all calls of a batch, whether it returns or raises |
| `Executor.Skip` | src/fetech/executor.py:114-125 | a node is skipped only after some flag was raised |
| `Executor.Advance` | src/fetech/executor.py:174-192 | one node's result keeps completion closed under dependencies and flags raised exactly if some node did not complete |
| `Engine.Turn` | src/fetech/executor.py:112-192 | one turn does to the run exactly what the specification says: skip, excuse, call alone, or call as a batch |
| `Engine.Execute` | src/fetech/executor.py:93-248 | for every executable plan, adapter behaviour and schedule, and for runs that raise as well, the run is that of the specification: whoever depends on a node without alternatives is called only after that one's call returned, nodes that need approval only with it, completion is closed, no budget field is exceeded by adapters that account for what they use, nor the number of attempts but for the deadline records, and every node dealt with is explained; a returned run has dealt with all nodes unless one ended it, its flags are exactly theirs, its context went through them in order, and its status, each of the nine, is that of what they met; it returns in every calm environment |
| `Verdict.StatusTells` | src/fetech/executor.py:701-736 | a returned run with an accepted context is a success exactly if every node completed, and else partial; without one its status names the first trouble that any node met, in the order blocked policy, missing authentication, absent resource, limit, and else tells by artifacts and other trouble |
| `Verdict.EndTells` | src/fetech/executor.py:186-192 | a returned run dealt with all its nodes unless one of them met a blocked policy, missing authentication, an absent resource or a limit, and after such a node only with branches of its group |
| `Flow.RunIsThreaded` | src/fetech/executor.py:112-211 | the context of a returned run is the first one after what each node made of it in turn: a skip and an unneeded fallback add their outcome, a node on its own passes its context on, branches are merged one after the other, and the result adds its own outcomes |
| `Fates.RunIsTold` | src/fetech/executor.py:112-192 | in every run, returning or raising, each node below the reached one was skipped with a dependency that is not completed in the end either, or was an unneeded fallback, or ran on its own, or in a batch left alone or cancelled; its calls in the whole run and whether it is completed are exactly what that says, and a cancelled one has a cause |
| `Fates.WhyCompleted` | src/fetech/executor.py:112-192 | a node is completed exactly if its own call returned, or it was an unneeded fallback while the context was accepted, or it was cut off on account of another branch of its group that stopped the run or won; if it is not completed, a dependency is not either or it raised a flag |
| `Fates.WhyUncalled` | src/fetech/executor.py:112-192 | a node dealt with and never called lacked a dependency, was an unneeded fallback, was not registered, not approved, past the deadline or out of attempts, or was cancelled on account of another one |
| `Fates.TurnTells` | src/fetech/executor.py:112-192 | every turn explains the nodes it deals with and leaves the explanations of the others true |
| `Fates.TurnReckons` | src/fetech/executor.py:160-192 | every turn keeps the run's flags exactly those of its nodes' results; the run stops exactly after a node that ends it, and after that one come at most branches of its own group |
| `Executor.TurnKeeps` | src/fetech/executor.py:112-192 | every turn, whether it goes on, stops or raises, keeps completion closed, calls ordered and approved, and the budget, and raises only in an environment that is not calm |
| `Executor.RunIsSafe` | src/fetech/executor.py:93-248 | the same for whole runs; a returned one is a success exactly if its context is accepted and every node completed |
| `Executor.Classified` | src/fetech/executor.py:701-736 | no flag exactly if every node completed |
| `Runtime.PlanAndExecute` | src/fetech/executor.py:112-192 | a planned run, returning or raising, calls no adapter outside the core before the policy call returned and nothing behind a requested session before the session's call returned, submits no form and posts nothing without approval, runs only capabilities that the request's lists admit, explains every node of its plan, answers by what they met, and stays within its budget but for the deadline records; it returns in every calm environment; a request without a plan is refused for a reason that holds of it |
| `Runtime.PolicyFirst` | src/fetech/planning.py:234-243 | the order of calls on a policy-guarded plan puts the returned policy call before every call outside the core |
| `Runtime.SessionFirst` | src/fetech/planning.py:251-263 | the order of calls on a session-guarded plan puts the session's returned call before everything behind it |
| `ScopeClosure.ScopeClosure` | scripts/generate_release_evidence.py:385-428 | terminates on cyclic graphs; succeeds exactly if every reference on a path from the roots stands for a locked package; returns exactly the packages such paths reach and the edges along them, which is the least fixed point; the missing-package error is unreachable |
| `ScopeClosure.LabelScopes` | scripts/generate_release_evidence.py:516-540 | a package carries a scope exactly if a path of references from that scope's roots reaches it, and is `lock-only` exactly if none does |
| `ScopeClosure.LeastIsUnique` | scripts/generate_release_evidence.py:385-428 | the least fixed point is unique |
| `ScopeClosure.BuildIndex` | scripts/generate_release_evidence.py:468-484 | succeeds exactly on distinct identities and then equals the index specification |
| `ScopeClosure.IndexIsConsistent` | scripts/generate_release_evidence.py:468-484 | both indexes hold the same packages, and exactly the locked ones |
| `ScopeClosure.ResolveTells` | scripts/generate_release_evidence.py:342-362 | a reference with a version resolves exactly to the locked package of that name and version, one without exactly to the only locked package of the name |
| `ScopeClosure.ReferencesTell` | scripts/generate_release_evidence.py:415-418 | an activated package follows exactly its dependencies and those of its activated extras |
| `ScopeClosure.LeastIsReached` | scripts/generate_release_evidence.py:385-428 | the least fixed point is exactly what paths of references reach |
| `ScopeClosure.Enqueue` | scripts/generate_release_evidence.py:390-397 | references become exactly their activations and edges, or an error exactly if one cannot be resolved |
| `ScopeClosure.Mark` | scripts/generate_release_evidence.py:531-532 | the label is added to exactly the packages of a closure |
| `ContentStore.VerifyExisting` | src/fetech/storage.py:98-134 | for all read behaviours: succeeds exactly if the opened file is regular and of the body's size, the reads spell the body, and it has the digest; on a steady file exactly if the file holds the body |
| `ContentStore.ReadVerified` | src/fetech/storage.py:177-236 | for all read behaviours: a result has the digest and the size seen at open and respects the bound; at most one byte beyond that size is read; a steady file is returned whole exactly if it may be |
| `Publication.PathsAreImmutable` | src/fetech/storage.py:55-95 | with any number of puts stopping anywhere, a digest path is absent or holds one complete body that never changes |
| `Publication.PutThenGet` | src/fetech/storage.py:48-95 | after a successful put its digest path holds exactly the body from then on |
| `Publication.NoTwoBodies` | src/fetech/storage.py:98-134 | two successful puts with equal digests had equal bodies, without assuming the hash is injective |
| `Publication.VerificationDecides` | src/fetech/storage.py:76-95 | verification succeeds exactly if the path holds the body, and rejects exactly on a colliding other body |
| `Publication.VerifyOverTime` | src/fetech/storage.py:98-134 | a verification whose stat calls and reads each see the path at some point of the run, with other puts going on, decides exactly as the atomic step does, then and at every later point |
| `Publication.GetAfterPut` | src/fetech/storage.py:168-236 | put, then a verified read whose stat calls and reads each see the path at some later point of the run, with other puts going on: returns the body exactly when the bound admits it |
| `Publication.ObservedIsSteady` | src/fetech/storage.py:198-225 | reads spread over a run see one unchanging file, because the path is immutable |
| `Publication.RunsKeep` | src/fetech/storage.py:55-95 | the publication invariant holds in every state of every run |
| `Publication.NextKeeps` | src/fetech/storage.py:55-95 | each step keeps the invariant and what every digest path holds |
| `Transfer.ReadRaw` | src/fetech/wayback.py:463-488 | over the limit, broken or returned whole, exactly by the size of the response and whether it breaks off; both totals rise by the size of the chunks that arrived |
| `Transfer.ReadGzip` | src/fetech/wayback.py:491-551 | the payload is returned exactly if the response is one whole member within the limit on both sides, so a series of members is always refused; on every exit the wire total rises by the chunks that arrived and at most the limit plus one is charged as decoded, all of it for a malformed body; on success exactly the body; the decoder is never called without a limit |
| `Transfer.PrefixRefuses` | src/fetech/wayback.py:505-546 | what rules out a prefix of the response rules out the response |
| `Transfer.Judge` | src/fetech/wayback.py:515-546 | each answer of the decoder that the reader refuses rules the whole response out, and every other one carries the decoding on |
| `Transfer.Get` | src/fetech/wayback.py:463-475 | one request returns its body exactly if it fits, and then charges exactly that |
| `Transfer.FetchSnapshot` | src/fetech/wayback.py:393-460 | succeeds exactly if both responses arrive, the first within 256000 bytes and the maximum, and both sizes of the second within what each total leaves; then both totals are exact and within the maximum; the check after the second request never fails |
| `Mounts.ValidatePaths` | src/fetech/worker_isolation.py:547-567 | succeeds exactly on distinct paths other than the root and `/tmp` |
| `Mounts.ReviewedRoots` | src/fetech/worker_isolation.py:685-711 | fails exactly if a runtime root is `/` or a candidate lies above, at or below the data directory; otherwise returns the least candidates, an antichain that covers every candidate |
| `Mounts.CoveredOnce` | src/fetech/worker_isolation.py:706-709 | each candidate lies under exactly one root |
| `Mounts.Partition` | src/fetech/worker_isolation.py:570-585 | the roots are divided by whether they lie below `/tmp`; `/tmp` itself is the only error |
| `Mounts.Launch` | src/fetech/worker_isolation.py:398-444 | each root is bound exactly once; every path below a root is served by that bind, except below `/proc` and `/dev`; everywhere else the private mounts lie over the system's |
| `Mounts.VisibleAppend` | src/fetech/worker_isolation.py:439-444 | operations apply in order: later mounts win |
| `Mounts.BindsView` | src/fetech/worker_isolation.py:402-403 | among incomparable roots a path is served by the one above it |
| `Mounts.PrivateView` | src/fetech/worker_isolation.py:404-437 | the private mounts serve `/dev/shm`, `/tmp`, `/dev` and `/proc`, and nothing else |
| `Mounts.ViewOfRoot` | src/fetech/worker_isolation.py:402-444 | roots below `/tmp` come after the private tmpfs and are visible; others are visible exactly outside `/proc` and `/dev` |
| `Mounts.WorkerMounts` | src/fetech/worker_isolation.py:260-264 | validation, reduction and launch together: when they succeed, that every configured path outside `/proc` and `/dev`, and no other, is served by a reviewed bind, and that nothing in the data directory is served by one |
| `Mounts.DeviceRootIsHidden` | src/fetech/worker_isolation.py:404-420 | a root under `/dev` is hidden by the device file system mounted after it |

## Left out

- Scheduler: history across event loops (it is cleared when the loop changes), host normalisation, and wall-clock deadlines, which appear as cancellations.
- Scheduler, executor, transfer: floating point is modelled by `real`.
- Ledger: SQL sessions, payload sanitising, other runs, artifact projections and recovery of unfinished runs; a commit is one atomic step.
- Ledger.EventLedger.CommitState: moving a finished run to another state has no step in the machine; no caller does that.
- Planner.BuildPlan: URL parsing and API detection are inputs (a detected API is one of the table's), reserved budgets and node parameters are not modelled, and nothing is claimed about fallback targets after filtering, which the code does not check; a registry that lacks a capability of the planner's own tables makes the code raise at once, where the model may drop a cache lookup first.
- Planner: node identifiers are structured values; `PlanText.TextSeparates` and `UniqueTexts` carry uniqueness over to the texts the code writes.
- Engine.Execute: the context is passed by value between turns, since branches get list copies and share nothing; provenance events, sensitive state, details of outcomes and the remaining-budget report are not modelled; calls of a batch are listed in batch order.
- Batch.ExecuteParallelBatch: a second cancellation of the run's own task, while the handler of the first exception awaits the branches.
- Engine.Execute: an append that fails before the first node or after the last one, where nothing is called, and the removal of a run from under the executor.
- NodeRun.NodeRecordsOutcome: a branch cancelled before its first handler leaves no outcome, so the claim is about nodes that reached a result.
- Adapters: their behaviour is arbitrary; the budget claims assume that they record what they use and respect their context's limits.
- Retry codes: whether an error may be retried is an input; matching of codes and messages is not modelled.
- ScopeClosure.LabelScopes: scopes on edges and direct scopes; name canonicalisation and sorting of extras are taken as done.
- Publication.PathsAreImmutable: removal or alteration of files by others, directory syncs and file permissions.
- Transfer.FetchSnapshot: redirects, headers, URL checks and the deadline; the content of the availability document is an input, and zlib is a contract on its answers.
- Mounts.WorkerMounts: existence and symlink checks, and the system's own mounts, which are an arbitrary list applied first; the data-directory claim is about reviewed roots, not about that list.
- Adapters for HTTP, browser, documents, media, discovery and caches; security and redaction; CLI, REST and MCP; release verifiers: input and output around tables and library text semantics.
