# Agent platform: verified models

Dafny 4.11 models of the queue, the agent runtime and six algorithms of the agent platform, with
proofs of what they promise. `dafny verify dfyconfig.toml` checks everything; run it with
`--resource-limit 2000000 --verification-time-limit 0`.

## The job queue

`JobTable` holds the shared table and its operations on values, `JobStore` the class that updates it
in place. `JobIndex` holds the heaps on values (a heap is listed in the order it would be popped, the
contract of `heapq`), `JobQueue` the class whose loops pop, claim, push and filter them; each method
is proved to end in the state that the functions of `JobTable` and `JobIndex` give. `JobSystem` makes
those functions the steps of a machine with any number of queue instances and workers over one table:
claims, beats, ends, deaths, sweeps, requeues, cancellations, expiry, crashes of an instance, and time.
Over all its runs `JobListing` proves that no waiting job drops out of its owner's heap, `JobOrder` that
an instance pops jobs of one type and priority in the order they were enqueued there, `JobTurns` that nobody
at all claims the later of two fresh ones first, `JobRuns` bounds attempts and load, `JobLease` proves
the lease exclusive and `JobBudget` bounds all claims by what was granted; `JobLate` and `JobRetry` are the
runs that show what lateness and a retry do. `JobWeight` proves draining ends, `JobDrain` what it leaves.
`JobLive` runs the classes on any events and proves that they end in the state the machine reaches.

## The agent run

`AgentMachine` is one run as a step machine whose steps perform at most one store write or one outside
call each, so that a crash may fall between any two; `Resume` starts from the checkpoint. The clock, the
model, the gates and the tool functions are one arbitrary `Input` per step. `AgentSafety`, `AgentCalls`,
`AgentReplay` and `AgentLoops` prove invariants over all its runs, `AgentOutcomes` under which state a drive
is recorded and why, `AgentBudget` that no model call is made beyond any limit, `AgentRecovery` which dead
drives the recovery looks for, and `AgentWitness` has runs that show what goes wrong. `AgentStore` and `AgentRuntime` are
the code itself as classes and loops: `Runner.DriveLoop` with everything it calls is proved to leave
the store exactly as the step machine does, for every script of inputs, cut off anywhere.
`AgentTheorem.LifeOfARun` puts the invariants together, `LiveThrough` carries them to the code: drives,
crashes, decisions on approvals and abandonments in any order.

## The algorithms

`Chunker` (overlapping blocks of lines), `Fusion` (reciprocal rank fusion in exact rationals),
`Limiter` (sliding window), `Breaker` (circuit breaker), `CacheMachine`, `CacheFresh` and
`RetrievalCache` (single-flight cache, one step per stretch of code between two awaits), `Release` and
`ReleaseLaws` (the life of an agent's versions).

## Where the code does not do what one would expect

The members named prove it, with the exact condition where there is one.

- `succeed` and `fail` check neither the caller nor the state. A worker that is late loses its job to the
  next sweep (`JobLease.LateWorkerLosesJob`), and its end then rewrites whatever the row has become,
  SUCCEEDED, CANCELLED or EXPIRED (`JobLease.FinalStateChangesIff`); there is such a run from the
  beginning in which a finished job waits again (`JobLate.FinishedJobComesBack`).
- A queue capacity of zero or less admits everything (`JobRuns.NoCapacityNoBound`).
- `drain` and an untyped worker look only at the most urgent type: a stale entry there ends the round
  although other types have work (`JobDrain.RoundIdle`, `JobDrain.DrainCanStopEarly`, and for the last
  round `JobDrain.DrainLeavesWorkIff`). A queue without stale and repeated entries is emptied
  (`JobDrain.CleanDrainServesAll`).
- Heap and table order jobs differently: a retried job goes behind its equals in the heap, but a worker
  that polls the table gets it first (`JobTurns.HeapAndTableDisagree`, `JobRetry.TablePrefersRetried`).
- Requeueing a dead letter can make two jobs of one key active (`JobLease.RequeueSingleFlight`).
- A crash after the answer's step row and before `finish_run` makes the next drive reuse its number;
  the row is then refused and the run ends FAILED, with its answer if it has one
  (`AgentReplay.RefusedOnlyAfterLostAnswer`, `AgentReplay.ResumedRowRefusedIff`,
  `AgentSafety.AnswerOffTable`; such a run is `AgentWitness.AnswerCanBeRefused`).
- A crash between a step row and its checkpoint makes rebuild and live messages differ
  (`AgentReplay.RebuildAgreesIffNoneDropped`; such a run is `AgentWitness.RebuildCanDiffer`).
- A run that dies before its first state is written stays REQUESTED, which no recovery looks for
  (`AgentRecovery.DeadDriveIsSelectedIff`, `AgentRecovery.EarlyDeathIsForgotten`).
- The context budget is applied once, when a drive starts. The comment at
  `app/agent/runtime/runtime.py:488` calls the checkpointed messages truncated; during a drive they
  are not. A first turn is never compressed (`AgentContext.FirstTurnFits`).
- A replay of a finished call that a gate turns away overwrites the stored success with a failure
  record (`AgentCalls.ReplayKeepsSuccess`; such a run is `AgentWitness.SuccessCanBeOverwritten`); the
  tool still never runs again.
- So does the first try of a call: turned away by rate, breaker, permission or its arguments, it is
  recorded as failed and never runs later in that run (`AgentCalls.TurnedAwayForever`).
- Permission errors of tools come back as observations (`app/agent/runtime/runtime.py:251-262`),
  although the docstring above says the caller decides. Arguments that are no JSON fail the run, JSON
  that is no object is an observation.
- A rejected or timed-out approval blocks its call for good (`AgentCalls.DeniedForever`).
- `rollback` disables only the newest version in service: its default can leave two ACTIVE versions,
  one of them a draft (`ReleaseLaws.RollbackKeepsOneIff`, `ReleaseLaws.DefaultRollbackAddsSecond`).
- The release contract compares with the newest version in service, which may be a gray one that was
  never checked (`ReleaseLaws.CheckGuardsTheNewest`).
- `clear` empties the cache but not the loads under way (`CacheFresh.ClearIsEffective`).
- A half-open breaker lets any number of calls through (`Breaker.TrialsAreUnlimited`), and late
  failures prolong an open one (`Breaker.LateFailureExtends`).
- An id that another one outranks can still be fused before it if a list repeats it
  (`Fusion.RepeatOvertakesIff`); repeats of the better one do no harm (`Fusion.OutrankingComesFirst`).
- The limiter lets too many calls through if the windows asked for a key begin earlier again than
  before, as after one call with a shorter window (`Limiter.CountsRightIff`, `Limiter.ShortWindowForgets`).

## Model

| member | source | states |
|---|---|---|
| `JobStore.Store.Create` | app/queue/store.py:20-44 | a new CREATED row with no attempts is appended and its id returned |
| `JobStore.Store.FindActive` | app/queue/store.py:46-57 | the first CREATED, QUEUED or RUNNING row of that tenant, type and key; None if there is none, or if the key is absent or empty |
| `JobStore.Store.Claim` | app/queue/store.py:59-70 | true exactly for a waiting row, which becomes RUNNING with one more attempt and a lease; otherwise nothing is written |
| `JobStore.Store.ClaimQueued` | app/queue/store.py:72-86 | claims the first waiting row of the asked type by priority, then age, then place in the table; no type or an empty one asks for any; None only if none waits |
| `JobStore.Store.Heartbeat` | app/queue/store.py:88-94 | renews the lease of a RUNNING row and nothing else |
| `JobStore.Store.RecoverZombies` | app/queue/store.py:96-112 | exactly the RUNNING rows whose lease lies strictly in the past go back to QUEUED, listed in row order, whatever their attempts |
| `JobStore.WhatRecovers` | app/queue/store.py:96-112 | a row changes in a sweep, and is listed, exactly if it is RUNNING with a lease strictly past; it becomes QUEUED and nothing else of it changes |
| `JobStore.Store.Succeed` | app/queue/store.py:114-120 | the row becomes SUCCEEDED whoever asks and whatever its state was |
| `JobStore.Store.Fail` | app/queue/store.py:122-135 | DEAD_LETTER exactly when the attempts have reached the maximum, else QUEUED; the caller and the state are not checked |
| `JobStore.Store.Cancel` | app/queue/store.py:224-234 | only a waiting row is cancelled; the answer is the state afterwards |
| `JobStore.Store.ExpireOld` | app/queue/store.py:236-252 | exactly the waiting rows at least the given age old expire, listed in row order |
| `JobStore.WhatExpires` | app/queue/store.py:236-252 | a row changes, and is listed, exactly if it is CREATED or QUEUED and at least that old; it becomes EXPIRED |
| `JobStore.Store.Requeue` | app/queue/store.py:254-267 | only a dead letter returns to CREATED, attempts, error and lease cleared |
| `JobTable.BestPending` | app/queue/store.py:77-86 | the row a poll of the table claims is eligible and none is served before it |
| `JobIndex.BestType` | app/queue/queue.py:187-192 | the type whose first entry has the least priority number |
| `JobIndex.EarliestOfTheBest` | app/queue/queue.py:187-190 | of types with equally urgent first entries it is the one listed first |
| `JobIndex.NextServesLeast` | app/queue/queue.py:92-100 | popping serves the least entry whose job is claimable, removes only it and the smaller unclaimable ones, touches no other heap, and answers None exactly when nothing in the heap is claimable |
| `JobIndex.EqualPriorityIsFifo` | app/queue/queue.py:88-100 | in one heap, of two claimable entries of equal priority the one pushed later is not served |
| `JobOrder.ClaimedInOrder` | app/queue/queue.py:92-181 | over every run, whatever is retried, requeued, recovered, cancelled or claimed elsewhere: while a job waits and its instance lives, that instance pops no job that is behind it in the heap of their type |
| `JobOrder.EnqueuedBehind` | app/queue/queue.py:88-89 | a job enqueued while another of its type and at least its urgency is listed is behind it |
| `JobOrder.EnqueueOrderIsClaimOrder` | app/queue/queue.py:88-100 | so the pops of one instance follow, for jobs of one type and priority, the order in which they were enqueued there, over every run |
| `JobTurns.NobodyOvertakes` | app/queue/queue.py:88-214 | over every run, whatever happens elsewhere: a job never claimed that stands behind another in the only heap listing it and in the order of the table is claimed by nobody, from a heap or from the table, while the other waits and its instance lives |
| `JobTurns.EnqueuedUntouched` | app/queue/queue.py:80-90 | a job enqueued after another of its type and priority, where that one is listed, is behind it in both orders and known to nobody else |
| `JobTurns.NobodyClaimsOutOfTurn` | app/queue/queue.py:59-214 | so of two such jobs no instance claims the later one, from any heap or from the table, before the earlier one has stopped waiting, over every run |
| `JobTurns.HeapAndTableDisagree` | app/queue/store.py:72-86 | where the heap has a first and the table has b first, both waiting, the heap does not serve b and the table does not serve a |
| `JobRetry.TablePrefersRetried` | app/queue/queue.py:123-211 | from any initial state with two instances: a job that failed once is pushed behind one enqueued meanwhile, and a worker of the other instance, whose own heaps are empty, is handed the retried one from the table |
| `JobIndex.AdmittedIffWithinWatermark` | app/queue/queue.py:44-53 | with a positive capacity an enqueue is accepted exactly if it leaves no more waiting than, rounded up, 95 per cent for priority 0, 85 for priorities up to 1, 70 for all others |
| `JobIndex.PushCounts` | app/queue/queue.py:88-89 | a push adds exactly one to what is pending |
| `JobIndex.NextCounts` | app/queue/queue.py:92-100 | popping never adds to what is pending, and takes at least the job served |
| `JobQueue.Instance.PendingCount` | app/queue/queue.py:38-39 | the entries of all heaps together |
| `JobQueue.Instance.AdmissionAllowed` | app/queue/queue.py:44-53 | yes without a positive capacity; else exactly if one more stays within 95, 85 or 70 per cent, rounded up, by the class of the priority |
| `JobQueue.Instance.PushEntry` | app/queue/queue.py:88-89 | the entry goes into the heap of its type under the next tie-break number; heaps stay sorted |
| `JobQueue.Instance.Enqueue` | app/queue/queue.py:59-90 | None exactly if one more would exceed the watermark of its class, and then without a trace; else the id of the active job with the same key, or one new row and one entry |
| `JobQueue.Instance.NextJob` | app/queue/queue.py:92-100 | the loop of pops and claims ends in the heap and the table that serving the least claimable entry leaves |
| `JobQueue.Instance.FinishJob` | app/queue/queue.py:111-133 | success, or failure and a new entry exactly when the store answers QUEUED |
| `JobQueue.Instance.RecoverZombies` | app/queue/queue.py:141-151 | every job taken back from a worker is pushed by the instance that sweeps |
| `JobQueue.Instance.RequeueJob` | app/queue/queue.py:153-163 | a revived dead letter is pushed, anything else is left alone |
| `JobQueue.Instance.FilterHeaps` | app/queue/queue.py:169-171 | every heap without the entries of one job, order kept |
| `JobQueue.Instance.DropEntries` | app/queue/queue.py:169-171 | no heap lists the job any more, all other entries stay in order |
| `JobQueue.Instance.CancelJob` | app/queue/queue.py:165-172 | a cancelled row disappears from every heap; otherwise the heaps stay |
| `JobQueue.Instance.ExpireOld` | app/queue/queue.py:174-181 | all expired rows disappear from every heap |
| `JobQueue.Instance.MostUrgentType` | app/queue/queue.py:187-190 | the type whose heap has the most urgent first entry, of equally urgent ones the one listed first; None only if all heaps are empty |
| `JobQueue.Instance.Process` | app/queue/queue.py:135-139 | claim the next job of one type and process it to its end |
| `JobQueue.Instance.ProcessOnce` | app/queue/queue.py:183-193 | one job of the asked type, or of the most urgent type, is claimed and processed to its end |
| `JobQueue.Instance.Drain` | app/queue/queue.py:226-233 | the queue, the table and the count are those of serving the most urgent type round by round; the count is at most the attempts the table still grants |
| `JobWeight.ServeSpends` | app/queue/queue.py:135-139 | serving a job uses up at least one of the attempts the table still grants, whatever its handler answers |
| `JobWeight.DrainedSpends` | app/queue/queue.py:226-233 | a drain ends, processes at most the sum over waiting jobs of max(1, max_attempts - attempts), and adds no row |
| `JobWeight.NothingAfterDeadline` | app/queue/queue.py:226-233 | a drain processes no job once the clock says that time is up |
| `JobSystem.StepKeepsShape` | app/queue/queue.py:59-233 | in every step of several instances the identity of a row is fixed, heaps stay sorted, busy workers hold existing rows and settings stay |
| `JobListing.NextListing` | app/queue/queue.py:92-100 | popping loses no entry of a waiting job but the one it claims |
| `JobListing.ActorListing` | app/queue/queue.py:80-181 | after any operation the acting instance lists every row it listed that still waits, and owns and lists every row the operation made wait |
| `JobListing.StepKeepsIndexed` | app/queue/queue.py:59-181 | one step keeps: an owned waiting row is listed by its owner, and every entry names a row of that type and priority |
| `JobListing.NoLostJobs` | app/queue/queue.py:59-233 | over every run of all instances, crashes included, each waiting row with an owner has an entry in that instance's heap of its type and every entry is faithful |
| `JobListing.NoLostJobsWithoutCrash` | app/queue/queue.py:59-233 | over every run without a crash each waiting row is listed by some instance |
| `JobListing.InitiallyIndexed` | app/queue/queue.py:18-33 | the invariant holds of fresh instances over an empty table |
| `JobRuns.AttemptsBounded` | app/queue/store.py:59-135 | over every run attempts never exceed max(1, max_attempts) plus the recoveries since the last requeue, and stay below while the row waits |
| `JobRuns.LoadAfterStep` | app/queue/queue.py:44-133 | after any step the acting instance stays within its bound: 95 per cent, its workers and what bypassed admission |
| `JobRuns.LoadBounded` | app/queue/queue.py:44-133 | over every run, waiting plus in flight is at most 95 per cent of a positive capacity, rounded up, plus the workers, plus what bypassed admission |
| `JobRuns.NothingBypasses` | app/queue/queue.py:141-163 | without recovery, requeue and remote claims nothing bypasses admission, so the bound is without that term |
| `JobRuns.InitiallyAccountedAndBounded` | app/queue/queue.py:18-33 | fresh instances meet both bounds |
| `JobRuns.NoCapacityNoBound` | app/queue/queue.py:41-48 | with a capacity of zero or less a push is always admitted again: no bound |
| `JobDrain.RoundIdle` | app/queue/queue.py:183-193 | an untyped round finds nothing exactly when the heap of the most urgent type has no claimable entry, whatever the others hold |
| `JobDrain.DrainLeavesWorkIff` | app/queue/queue.py:226-233 | a drain that does not run out of time leaves claimable work listed exactly if, at its last look, another type than the most urgent one listed some |
| `JobDrain.CleanDrainServesAll` | app/queue/queue.py:226-233 | if every entry names a claimable job and no job is listed twice, a drain that does not run out of time empties every heap: whatever the handlers answer, each job listed ends SUCCEEDED or DEAD_LETTER and no other row changes |
| `JobDrain.CleanEnqueue` | app/queue/queue.py:59-90 | an enqueue at an empty or such a queue leaves it so |
| `JobDrain.ServeIsServed` | app/queue/queue.py:92-139 | a round on such a queue processes a job, which is then settled or listed again, and keeps the queue so |
| `JobDrain.DrainCanStopEarly` | app/queue/queue.py:226-233 | one entry of a cancelled job is enough for a drain to process nothing and leave claimable work listed |
| `JobBudget.StepPays` | app/queue/store.py:20-267 | in time, one step claims no more than it takes from the claims still possible, but for what it grants |
| `JobBudget.ClaimsAreGranted` | app/queue/store.py:20-267 | over every timely run, the claims of all instances and those still possible are at most those possible at first and those granted: max(1, max_attempts) for each enqueued or requeued job, one for each job swept with no attempt left |
| `JobLive.Perform` | app/queue/queue.py:59-233 | at any event, an operation of an instance, a claim, beat, end or death of a worker, a crash or time passing, the objects end in the state of the step machine |
| `JobLive.LiveThrough` | app/queue/queue.py:18-233 | the code run with any number of instances and workers over one table through any events ends in the state the step machine reaches, so of it hold that no waiting row drops out of its owner's heap, that attempts and load are bounded, and, if no worker was late, that leases exclude |
| `JobLease.BusyRowStays` | app/queue/store.py:59-267 | in time, nobody but its own worker touches the row of a busy worker |
| `JobLease.StepKeepsLeased` | app/queue/store.py:59-267 | each busy worker holds a RUNNING row under the lease it last asked for, not yet over, and no two hold one row |
| `JobLease.LeasesExclude` | app/queue/store.py:59-135 | over every timely run at most one worker holds a job, its row is RUNNING under an unexpired lease, and SUCCEEDED, CANCELLED and EXPIRED rows never change |
| `JobLease.RecoveryIsSafe` | app/queue/store.py:96-112 | a sweep takes back no job of a worker whose deadline has not passed |
| `JobLease.FinalRowStays` | app/queue/store.py:114-135 | in time, one step leaves a row in a final state alone |
| `JobLease.LateWorkerLosesJob` | app/queue/queue.py:102-109 | once time passes the deadline of a busy worker the next sweep of any instance takes its job |
| `JobLease.FinalStateChangesIff` | app/queue/store.py:114-135 | in any run, timely or not, a step changes a SUCCEEDED, CANCELLED or EXPIRED state exactly when a worker still at that job ends, unless its success meets a success |
| `JobLease.LateFailureRevives` | app/queue/store.py:122-135 | a failing end makes such a job wait again exactly when it has attempts left |
| `JobLate.FinishedJobComesBack` | app/queue/queue.py:111-151 | from any initial state with two workers: claim, silence past the lease, sweep, second claim, success, and the late failing end makes the finished job wait again |
| `JobLease.StepKeepsSingleFlight` | app/queue/queue.py:74-79 | no step but a requeue makes two rows of one key active |
| `JobLease.RequeueSingleFlight` | app/queue/store.py:254-267 | a requeue keeps one active row per key exactly when no active row has its key |
| `JobLease.KeysFlySingly` | app/queue/queue.py:74-79 | over every timely run without requeue a dedupe key has at most one active job |
| `JobLease.InitiallyLeased` | app/queue/queue.py:18-33 | the lease invariant holds of fresh instances |
| `AgentStates.StateMachine.Transition` | app/agent/runtime/state.py:126-135 | a target that is not adjacent is refused and changes nothing; the history stays a walk from REQUESTED |
| `AgentStates.TerminalStatesAreSinks` | app/agent/runtime/state.py:41-105 | the five terminal states are exactly those without an edge out |
| `AgentStates.EnteredFrom` | app/agent/runtime/state.py:41-105 | the table of edges read backwards: for every state the states it can be entered from |
| `AgentStates.WalkEndsAtTerminal` | app/agent/runtime/state.py:137-138 | a walk visits a terminal state only at its end |
| `AgentContext.RebuildMessages` | app/agent/runtime/runtime.py:90-120 | the messages of a run from its base and its steps, in order |
| `AgentContext.RepliesAnswerTheirCalls` | app/agent/runtime/runtime.py:90-120 | each rebuilt tool message carries the id of the call it answers, in order |
| `AgentContext.Compress` | app/agent/context/summary.py:26-33 | identity up to the kept length, else a summary at most and the kept messages in place |
| `AgentContext.BudgetIsIdentityWhenFits` | app/agent/context/summary.py:42-52 | the context budget changes nothing if the context fits, shortens it otherwise (three messages may stay three), and leaves at most ten |
| `AgentContext.BudgetInNumbers` | app/agent/context/summary.py:26-52 | more than ten messages become a summary and the newest five; above 4000 tokens a summary and the newest two; anything else is kept |
| `AgentContext.BudgetKeepsNewest` | app/agent/context/summary.py:42-52 | the newest two messages survive in place |
| `AgentContext.FirstTurnFits` | app/agent/context/builder.py:10-14 | a first turn is never compressed, however long its messages are |
| `AgentSafety.TransitionsAreLegal` | app/agent/runtime/runtime.py:326-578 | over every run with crashes, resumes and decisions no transition is refused, the machine walks allowed edges from REQUESTED, and what is about to be persisted is the state or one edge away |
| `AgentSafety.AnswerOffTable` | app/agent/runtime/runtime.py:511-531 | the one exception: an answered run is persisted FAILED with its answer exactly when a step row of its number exists |
| `AgentSafety.WorkIsBounded` | app/agent/runtime/runtime.py:326-333 | over every run the checkpointed steps never shrink nor pass max_steps, and r drives complete at most max_steps + r model calls |
| `AgentBudget.NoCallBeyondBudget` | app/agent/runtime/runtime.py:326-357 | over every run with crashes and resumes: a model call is completed exactly if the number of replies counted, the sum of their tokens, the sum of their costs and the tool calls begun are each below the limit, it is in time, neither cancelled nor paused, and the model answers; beyond any limit the drive is recorded as TIMEOUT |
| `AgentBudget.RunBalances` | app/agent/runtime/runtime.py:405-496 | over every run the spending in memory and in the checkpoint is the sum over exactly the replies counted and the tool calls begun that they cover |
| `AgentOutcomes.ModelCalledIff` | app/agent/runtime/runtime.py:326-357 | a step completes a model call exactly at the head of the loop, below all four limits, in time, neither cancelled nor paused, with an answer |
| `AgentOutcomes.EveryEndIsRecorded` | app/agent/runtime/runtime.py:326-578 | over every run a drive ends exactly for one of these causes and is recorded so: a limit or a slow model TIMEOUT, a pause PAUSED, a cancellation CANCELLED, an approval not given or just asked for WAITING_APPROVAL, a tool that timed out UNKNOWN, an answer COMPLETED, a failing model, arguments that are no JSON, three like rounds or a refused row FAILED |
| `AgentOutcomes.GateDecides` | app/tool/runtime.py:68-212 | what the gates decide, exactly and in their order: cancelled, refused, waiting, asking, answering from the stored result, or running the tool with its retries |
| `AgentOutcomes.CallIsTold` | app/agent/runtime/runtime.py:214-262 | the result, or the failure record, is stored for the call and told under the id and name it was asked with |
| `AgentOutcomes.CompletedForGood` | app/agent/runtime/runtime.py:732-736 | a completed run never changes again, and asks no model and no tool, whatever is resumed, swept or decided |
| `AgentOutcomes.NothingToResume` | app/agent/runtime/runtime.py:751-754 | a run without a checkpoint that is not completed is recorded as FAILED without an answer by the drive that resumes it, and nothing else of it changes |
| `AgentOutcomes.DrivenOn` | app/agent/runtime/runtime.py:756-784 | any other run goes on as RUNNING with the saved spending and the budgeted saved messages |
| `AgentSafety.DriveDescends` | app/agent/runtime/runtime.py:326-531 | every step of a drive descends lexicographically: no drive runs forever |
| `AgentSafety.BeginMoves` | app/agent/runtime/runtime.py:668-670 | the transition invariant holds when a run begins |
| `AgentSafety.BeginSpends` | app/agent/runtime/runtime.py:632-653 | the spending invariant holds when a run begins |
| `AgentCalls.AtMostOnce` | app/tool/registry.py:247-302 | over every run the execution rounds of a call are at most one plus those that timed out, were cancelled or crashed before a result was stored, and function calls stay within their retries |
| `AgentMachine.SameCallIff` | app/agent/runtime/runtime.py:123-126 | two calls of a run are the same call exactly if tool and parsed arguments are |
| `AgentCalls.StepKeepsResult` | app/agent/runtime/store.py:370-448 | a stored result stays stored; only a refused replay overwrites it, with the failure record; the counts of its call never move again |
| `AgentCalls.ResultsAreFinal` | app/agent/runtime/store.py:370-448 | the same over every run: the function is never entered again once a result is stored |
| `AgentCalls.ReplayKeepsSuccess` | app/tool/runtime.py:85-212 | two steps after the gate a stored success is the failure record exactly when the replay was turned away by permission, rate, breaker or size |
| `AgentWitness.SuccessCanBeOverwritten` | app/tool/runtime.py:85-212 | a run from its creation in which a call asked for twice in one reply runs and succeeds, and the rate limiter then turns its success into the failure record |
| `AgentCalls.TurnedAwayForever` | app/agent/runtime/runtime.py:251-262 | a call turned away on its first try is recorded as failed, and in every later run the tool is never entered for it |
| `AgentCalls.EntryIsApproved` | app/tool/runtime.py:114-189 | a step that enters the function of a risky tool finds its approval APPROVED |
| `AgentCalls.StepKeepsDecision` | app/approval/service.py:112-134 | an approval no longer PENDING keeps its status |
| `AgentCalls.ApprovalsGuard` | app/approval/service.py:35-75 | over every run there is one approval per call, decided ones are final, and risky tools run only under one |
| `AgentCalls.DeniedForever` | app/tool/runtime.py:123-174 | a rejected or lapsed approval blocks its call in every later run |
| `AgentCalls.BeginTallies` | app/agent/runtime/runtime.py:634-653 | the tally holds when a run begins |
| `AgentReplay.StepsAreNumbered` | app/agent/runtime/runtime.py:465-481 | over every run step rows have increasing numbers, whatever crashed in between |
| `AgentReplay.RefusedOnlyAfterLostAnswer` | app/agent/runtime/runtime.py:514-530 | a step row is refused exactly when the newest row is the answer of a drive whose end was never recorded |
| `AgentReplay.ComingRowRefusedIff` | app/agent/runtime/runtime.py:410-530 | told when a turn begins: whatever the model and the tools answer, its row is refused exactly if a stored row has the number after that of the checkpoint |
| `AgentReplay.ResumedRowRefusedIff` | app/agent/runtime/runtime.py:719-800 | told before a resume: the first row of the next drive is refused exactly if the store has a row with the number after that of the checkpoint |
| `AgentWitness.AnswerCanBeRefused` | app/agent/runtime/runtime.py:514-560 | a run from its creation: a round, an answer, a crash before the end is recorded, a resume, an answer; its row is refused and the run ends FAILED with that answer |
| `AgentReplay.StoryIsRetold` | app/agent/runtime/runtime.py:410-498 | over every run without a compressed start the live messages and the checkpoint are what the rows whose checkpoint survived rebuild |
| `AgentReplay.RebuildAgreesIffNoneDropped` | app/agent/runtime/runtime.py:90-120 | at a loop head the rebuild over all rows agrees with the live messages exactly when no crash fell between a row and its checkpoint |
| `AgentWitness.RebuildCanDiffer` | app/agent/runtime/runtime.py:465-498 | a run from its creation: a round, a crash between its row and its checkpoint, a resume; at the loop head the messages are the first ones and the stored rows rebuild more |
| `AgentReplay.FirstDriveReplays` | app/agent/runtime/runtime.py:90-120 | a first drive whose context fits: at every loop head and checkpoint the messages are the rebuild of the run and its rows |
| `AgentReplay.BeginRetells` | app/agent/runtime/runtime.py:623-632 | the replay invariant holds when a run begins |
| `AgentLoops.AppendKeepsNoTriple` | app/agent/runtime/runtime.py:458-463 | a row completes three equal fingerprints in a row exactly when the check on the last three fires |
| `AgentLoops.NoDriveRepeats` | app/agent/runtime/runtime.py:458-463 | over every run no drive stores three consecutive steps with the same tool calls |
| `AgentMachine.FingerprintOf` | app/agent/runtime/runtime.py:458 | two replies have the same fingerprint exactly if they ask equally often for each tool with the arguments as written |
| `AgentLoops.BeginUnrepeated` | app/agent/runtime/runtime.py:299 | the loop invariant holds when a run begins |
| `AgentStore.RunStore.SetState` | app/agent/runtime/store.py:111-119 | the state is overwritten, nothing else |
| `AgentStore.RunStore.SetCheckpoint` | app/agent/runtime/store.py:250-257 | the checkpoint is overwritten, nothing else |
| `AgentStore.RunStore.FinishRun` | app/agent/runtime/store.py:287-310 | state and answer are overwritten, nothing else |
| `AgentStore.RunStore.Abandon` | app/agent/runtime/recovery.py:23-49 | a run left in PLANNING, RUNNING or WAITING_TOOL is recorded as FAILED, without an answer, exactly when it has no checkpoint |
| `AgentRecovery.DeadDriveIsSelectedIff` | app/agent/runtime/recovery.py:15-20 | over every run, a drive that dies is selected by the two sweeps exactly if it had written its state or had found one that is selected |
| `AgentRecovery.EarlyDeathIsForgotten` | app/agent/runtime/recovery.py:15-75 | a run that dies between its creation and its first state stays REQUESTED: neither sweep selects it, and without a resume from outside nothing changes it |
| `AgentStore.RunStore.AddStep` | app/agent/runtime/store.py:320-347 | the row is appended unless its number is taken, and then nothing changes |
| `AgentStore.RunStore.Get` | app/agent/runtime/store.py:370-378 | the stored result, None for a missing row and for a row without one |
| `AgentStore.RunStore.InsertToolCall` | app/agent/runtime/store.py:403-428 | a row without a result, unless the call has a row |
| `AgentStore.RunStore.PutResult` | app/agent/runtime/store.py:380-401 | the result of one call is overwritten |
| `AgentStore.ApprovalService.FindForCall` | app/approval/service.py:35-47 | the newest approval of the call |
| `AgentStore.ApprovalService.Create` | app/approval/service.py:49-75 | one PENDING approval is added |
| `AgentStore.ApprovalService.Decide` | app/approval/service.py:112-134 | a PENDING approval becomes APPROVED, REJECTED or, too late, TIMEOUT; a decided one and every other stay |
| `AgentMachine.FindApproval` | app/approval/service.py:35-47 | an approval of the call if there is one |
| `AgentRuntime.Runner.RunFn` | app/tool/registry.py:272-302 | the retry loop follows the step machine, and its verdict is the one its calls lead to |
| `AgentRuntime.RetriesAreUsed` | app/tool/registry.py:272-302 | within the retries a failed call decides nothing: after n failures it is as if the function were called for the first time with n fewer retries; beyond them the call fails |
| `AgentRuntime.Runner.TryFn` | app/tool/registry.py:272-302 | one call of the function: a result, an error, UNKNOWN on a timeout, CANCELLED, or one retry less |
| `AgentRuntime.Runner.KeepResult` | app/tool/registry.py:300-302 | the result is stored before its size is checked |
| `AgentRuntime.Runner.AwaitApproval` | app/tool/runtime.py:114-175 | goes on exactly under an APPROVED approval; otherwise WAITING_APPROVAL, after creating an approval where there is none |
| `AgentRuntime.Runner.AskApproval` | app/tool/runtime.py:142-174 | one PENDING approval is created and the run leaves the loop as WAITING_APPROVAL |
| `AgentRuntime.Runner.PassGates` | app/tool/registry.py:247-262 | breaker, stored result, arguments and cancellation in this order |
| `AgentRuntime.Runner.ExecuteTool` | app/tool/runtime.py:68-231 | the whole pipeline ends where the step machine ends; it raises WAITING_APPROVAL exactly for a risky tool that passed the checks before and has nobody to ask, an approval not given, or one just asked for |
| `AgentRuntime.Runner.Record` | app/agent/runtime/runtime.py:454-463 | the observation, and after the last one the reflection and the loop check |
| `AgentRuntime.Runner.CallTool` | app/agent/runtime/runtime.py:214-262 | row, pipeline and final record of one call follow the step machine |
| `AgentRuntime.Runner.OneTool` | app/agent/runtime/runtime.py:194-262 | malformed arguments leave the loop, other than objects are an observation, objects are called |
| `AgentRuntime.Runner.ToolRound` | app/agent/runtime/runtime.py:424-454 | all tool calls of a reply, one observation each, in order |
| `AgentRuntime.Runner.SaveRow` | app/agent/runtime/runtime.py:465-481 | the row of the round is stored, or its number is taken and the drive fails |
| `AgentRuntime.Runner.SaveCheckpoint` | app/agent/runtime/runtime.py:483-496 | the checkpoint covers the row |
| `AgentRuntime.Runner.SaveAnswer` | app/agent/runtime/runtime.py:511-531 | the row of the answer is stored, or the drive fails with its answer |
| `AgentRuntime.Runner.AskModel` | app/agent/runtime/runtime.py:328-383 | a reply only with steps, tokens, cost and tool calls each below its limit, in time, neither cancelled nor paused; at or beyond a limit the loop is left as TIMEOUT |
| `AgentRuntime.Runner.Pay` | app/agent/runtime/runtime.py:405-408 | one step, the tokens and the cost of the reply are added; an answer completes the machine |
| `AgentRuntime.Runner.Plan` | app/agent/runtime/runtime.py:410-423 | the checkpoint before any tool runs |
| `AgentRuntime.Runner.Turn` | app/agent/runtime/runtime.py:405-531 | one turn, answer or tools, follows the step machine and counts one step |
| `AgentRuntime.Runner.DriveLoop` | app/agent/runtime/runtime.py:275-578 | a whole drive, with a crash at any point, leaves the store exactly as the step machine does, and ends |
| `AgentRuntime.ExecuteRun` | app/agent/runtime/runtime.py:599-716 | a new run and its first drive leave the store as the machine does |
| `AgentRuntime.ResumeRun` | app/agent/runtime/runtime.py:719-824 | a completed run is left exactly as it is, a run without a checkpoint becomes FAILED without an answer and otherwise stays, any other is driven on as the machine does |
| `AgentTheorem.LifeOfARun` | app/agent/runtime/runtime.py:275-800 | every run from its beginning, through steps, crashes, resumes, decisions and abandonments, meets all the invariants above at once |
| `AgentTheorem.LiveThrough` | app/agent/runtime/runtime.py:719-800 | the code run for a first drive and then any sequence of drives, approval decisions and abandonments leaves a store the step machine reaches, so all the invariants hold of it |
| `AgentTheorem.ActOnce` | app/agent/runtime/recovery.py:23-75 | one more drive, decision or abandonment leaves a store the step machine reaches |
| `Chunker.Tail` | app/knowledge/chunker.py:35-43 | the longest tail of whole lines within the overlap |
| `Chunker.TakeLine` | app/knowledge/chunker.py:31-47 | one more line keeps what is known of the cut |
| `Chunker.ChunkLines` | app/knowledge/chunker.py:27-50 | own lines of all blocks are the input in order; a block opens only because its first own line did not fit behind the block before, whose longest affordable tail it repeats |
| `Chunker.ClosedOnlyWhenFull` | app/knowledge/chunker.py:31-47 | a block is closed only because its next line would exceed the limit, and the next one repeats the longest end of it within the overlap |
| `Chunker.BlockSizeBound` | app/knowledge/chunker.py:33-47 | no block exceeds max(max_tokens, overlap + longest line) |
| `Chunker.LongestTailIsUnique` | app/knowledge/chunker.py:38-43 | only one tail is the longest within the overlap |
| `Chunker.CutIsUnique` | app/knowledge/chunker.py:27-50 | a list of lines has exactly one cut with these properties |
| `Chunker.SplitSections` | app/knowledge/chunker.py:53-67 | sections are the runs of ordinary lines between headings, each under the last heading before it, none lost |
| `Chunker.TitleIsLastHeading` | app/knowledge/chunker.py:58-63 | a line stands under the last heading before it, or under none |
| `Chunker.AddBlocks` | app/knowledge/chunker.py:72-76 | the pieces are, one each and in order, the blocks that have a line which is not blank, numbered on |
| `Chunker.ChunkMarkdown` | app/knowledge/chunker.py:53-77 | every run is cut on its own; piece k has number k and the section and lines of the k-th block that is not blank, and there is no other piece |
| `Chunker.Pieces` | app/knowledge/chunker.py:69-76 | piece k has number k and is not blank |
| `Chunker.PiecesAreNumbered` | app/knowledge/chunker.py:69-76 | a strictly increasing list of exactly the positions of the blocks with text gives the pieces, piece k being the block at the k-th position with number k |
| `Chunker.NumberedArePieces` | app/knowledge/chunker.py:69-76 | nothing else is numbered so: positions and numbers determine the pieces |
| `Chunker.NothingLost` | app/knowledge/chunker.py:71-76 | cutting every section loses and moves no line of it |
| `Chunker.EveryLineOnce` | app/knowledge/chunker.py:53-77 | every ordinary line of the text is an own line of exactly one block, in order, under its own title |
| `Chunker.PiecesHoldTheText` | app/knowledge/chunker.py:53-77 | a line that is not blank stands in a piece of a section exactly if it is an ordinary line of the text under that title |
| `Chunker.ChunkingIsUnique` | app/knowledge/chunker.py:69-77 | the sections determine the pieces |
| `Fusion.First` | app/knowledge/retrieval.py:89-91 | the place where an id is read first |
| `Fusion.Marks` | app/knowledge/retrieval.py:92-97 | the retrievers that marked any occurrence of the id |
| `Fusion.Read` | app/knowledge/retrieval.py:90-98 | one more place keeps the three dictionaries exact and their keys in first-read order |
| `Fusion.FindSlot` | app/knowledge/retrieval.py:99 | the slot behind all ids that score at least as much |
| `Fusion.Sort` | app/knowledge/retrieval.py:99 | a permutation of the keys in non-increasing score, ties as first read |
| `Fusion.RrfFuse` | app/knowledge/retrieval.py:82-102 | every retrieved id exactly once, with its first hit, its exact summed score and its retrievers, in that order |
| `Fusion.ScoreInList` | app/knowledge/retrieval.py:98 | an id that stands nowhere else in its list is worth 1/(k + rank + 1) |
| `Fusion.ScoreAtLeast` | app/knowledge/retrieval.py:98 | wherever an id stands it is worth at least that |
| `Fusion.OutrankingScoresMore` | app/knowledge/retrieval.py:82-102 | if every list has b at most once, and an a before it where it has b, then a scores more than b, however often a is repeated |
| `Fusion.OutrankingComesFirst` | app/knowledge/retrieval.py:82-102 | and so stands strictly before it in any list in the fused order |
| `Fusion.RepeatOvertakesIff` | app/knowledge/retrieval.py:90-99 | in a list with a at rank i only and b at ranks m < n only, both behind it, b is fused before a exactly if 1/(k+m+1) + 1/(k+n+1) > 1/(k+i+1) |
| `Limiter.RateLimiter.Acquire` | app/tool/limiter.py:27-49 | under a clock that never runs backwards a call due is never refused, and the answer is the due one, yes exactly when the window ending now holds fewer accepted calls of the key than the limit, unless an earlier call dropped a time this window needs |
| `Limiter.KeptCounts` | app/tool/limiter.py:43-48 | the deque never counts more accepted times than there are, and as many exactly if none of the window was dropped by an earlier call |
| `Limiter.CountsRightIff` | app/tool/limiter.py:43-49 | after any calls in time order: the deque counts right exactly if no accepted time of the key inside the window lies up to the beginning of an earlier call's window that came after it, and the answer is wrong exactly if the limit lies between the two counts |
| `Limiter.OrderlyForgetsNothing` | app/tool/limiter.py:44-45 | if the windows of a key never begin earlier than before, nothing needed was dropped |
| `Limiter.WindowBound` | app/tool/limiter.py:43-49 | then no window as long as the shortest one asked for, anywhere in any run, holds more accepted calls of a key than the largest limit |
| `Limiter.ShortWindowForgets` | app/tool/limiter.py:44-45 | three calls, the middle one with a shorter window, of which the last is let through against the limit |
| `Breaker.CircuitBreaker.Allow` | app/common/circuit_breaker.py:30-37 | lets through unless open within the cooldown, which has passed when exactly its length has; an open one is then half open, and nothing else changes |
| `Breaker.CircuitBreaker.Record` | app/common/circuit_breaker.py:39-57 | a closed breaker opens exactly when the failures since the last success or failed trial, within the window, reach the threshold |
| `Breaker.WhatRecordDoes` | app/common/circuit_breaker.py:39-57 | a success forgets all failures and closes a breaker on trial but not an open one; a failure on trial reopens it; any other is counted within the window and opens from the threshold on |
| `Breaker.RecentIsTheWindow` | app/common/circuit_breaker.py:53-54 | of the failures exactly those less than one window old are kept |
| `Breaker.ListIsSummary` | app/common/circuit_breaker.py:49-54 | over every run the pruned list is the in-window part of all failures since the last success or failed trial |
| `Breaker.ListCountsHistory` | app/common/circuit_breaker.py:53-54 | the next failure is counted as if nothing had been pruned |
| `Breaker.OpensAtThreshold` | app/common/circuit_breaker.py:53-57 | a closed breaker opens at exactly those failures that make the history reach the threshold |
| `Breaker.StaysOpen` | app/common/circuit_breaker.py:30-57 | whatever is recorded meanwhile, it stays open until the cooldown has passed |
| `Breaker.NothingDuringCooldown` | app/common/circuit_breaker.py:32-36 | over every run no call is let through between an opening and the end of its cooldown |
| `Breaker.TrialsAreUnlimited` | app/common/circuit_breaker.py:37 | half open lets any number of calls through until the first result |
| `Breaker.LateFailureExtends` | app/common/circuit_breaker.py:53-57 | a failure in the open state restarts the cooldown exactly when the threshold is still reached |
| `CacheMachine.SingleFlight` | app/knowledge/cache.py:29-41 | over every interleaving at most one get_or_load load per key is unfinished, and the map names it |
| `CacheMachine.ValuesMatchKeys` | app/knowledge/cache.py:29-59 | over every interleaving each value returned or stored was loaded for that very key |
| `CacheFresh.QuietIsSafe` | app/knowledge/cache.py:43-45 | from a state without a begun load of the key, under way or named, no later call is given a value from before the clear |
| `CacheFresh.NamedHarmlessIsSafe` | app/knowledge/cache.py:29-45 | with a lifetime of zero or less and a clock that never goes back, it is enough that the map names no begun load |
| `CacheFresh.UnquietGoesStale` | app/knowledge/cache.py:29-59 | otherwise, for either kind of lifetime, some run gives a later call such a value, at any given time |
| `CacheFresh.ClearIsEffective` | app/knowledge/cache.py:43-45 | over every run: clearing hides the old results of a key exactly when no load of it that has begun is still named or, if entries live at all, unfinished |
| `RetrievalCache.Instance.GetOrLoad` | app/knowledge/cache.py:29-38 | join the load under way, else a fresh entry, else lead a new load |
| `RetrievalCache.Instance.Resume` | app/knowledge/cache.py:39-41 | the leader gives up its entry in the map, and the value or the error is passed on |
| `RetrievalCache.Instance.BeginLoad` | app/knowledge/cache.py:53-54 | a spawned load calls its loader |
| `RetrievalCache.Instance.FinishLoad` | app/knowledge/cache.py:55-59 | the value is stored under its key; past twice the size exactly the entries still alive are kept, otherwise all |
| `RetrievalCache.Instance.FailLoad` | app/knowledge/cache.py:54 | a failed load stores nothing |
| `RetrievalCache.Instance.WarmUp` | app/knowledge/cache.py:47-51 | one background load for each named key without an entry, in order; entries and loads under way do not change |
| `RetrievalCache.Instance.Reset` | app/knowledge/cache.py:43-45 | the store is emptied, loads under way go on |
| `RetrievalCache.EvictionKeepsHits` | app/knowledge/cache.py:56-58 | eviction changes no later hit or miss |
| `Release.Service.TerminateFlow` | app/release/service.py:904-928 | the flow is terminated, no version changes |
| `Release.Service.CreateVersion` | app/release/service.py:120-169 | a DRAFT with the next number; a terminated flow is reopened |
| `Release.Service.ContractCheck` | app/release/service.py:197-349 | against the newest other version in service: blocked exactly when a tool or a configuration key of it is missing, or an item outside the model fails |
| `Release.Service.Publish` | app/release/service.py:351-395 | done exactly for an existing version of a live flow that passes the contract or is forced; the error otherwise, and nothing changed |
| `Release.Service.GrayOut` | app/release/service.py:397-412 | GRAY with its percentage, or the first error that applies |
| `Release.Service.Rollback` | app/release/service.py:414-441 | the newest version in service is disabled and the target becomes ACTIVE; the default target is the number below the newest in service, 1 at least |
| `Release.Service.Halt` | app/release/service.py:443-460 | the version is disabled, and nothing else of any version changes |
| `Release.Service.StopCanary` | app/release/service.py:591-616 | halt, then a rollback to the newest ACTIVE version below, if there is one |
| `Release.Current` | app/release/service.py:216-226 | the newest other version in service, None if there is none |
| `ReleaseLaws.PublishLeavesOne` | app/release/service.py:383-393 | from any state exactly the published version is ACTIVE, and versions that were not stay as they were |
| `ReleaseLaws.OthersKeepAtMostOne` | app/release/service.py:397-460 | creating, graying and halting never add an ACTIVE version |
| `ReleaseLaws.RollbackKeepsOneIff` | app/release/service.py:418-439 | a rollback leaves one ACTIVE version exactly when each that was is the one disabled or the target |
| `ReleaseLaws.DefaultRollbackAddsSecond` | app/release/service.py:427 | the default rollback of a gray version can put a draft never published into service beside the ACTIVE one |
| `ReleaseLaws.StopKeepsAtMostOne` | app/release/service.py:591-609 | stopping a canary adds no ACTIVE version and disables none below it |
| `ReleaseLaws.SurfaceNeverShrinks` | app/release/service.py:231-310 | over every run of drafts and checked publications the ACTIVE version declares all tools and keys of every earlier one |
| `ReleaseLaws.NothingIsMissing` | app/release/service.py:231-310 | whichever version is ACTIVE later has every tool and every key of the earlier one |
| `ReleaseLaws.CheckGuardsTheNewest` | app/release/service.py:215-227 | a new version can pass and yet drop something of an ACTIVE one exactly when the newest version in service does |
| `ReleaseLaws.PublishTakesEffectIff` | app/release/service.py:619-659 | a user is served the published version exactly when no other gray version takes them |
| `ReleaseLaws.GrayShare` | app/release/service.py:619-659 | a gray version of p per cent takes exactly p of a hundred buckets: none at 0, all at 100 |
| `ReleaseLaws.RollbackTakesEffectIff` | app/release/service.py:414-441 | a user is served the target exactly when no gray version but it and the newest takes them and no newer ACTIVE version stays |

## Left out

- Foreign code: SQLAlchemy, Redis, `heapq`, `sorted`, JSON and asyncio appear by their contracts; only the in-process branches are modelled, and each short database transaction is one atomic step.
- Races inside `enqueue` between looking for an active job and creating one: it is a single step here.
- JobStore.Store.ClaimQueued: is a single step, without the limit of ten rows and the fall back to the next of them after a lost claim, because no other claim can come between its query and its own.
- AgentStore.RunStore.FinishRun: leaves out the error, token and cost columns, because no later decision reads them.
- Job payloads, `started_at`, `finished_at`, statistics and depth samples: no decision reads them.
- Handlers that raise after a partial effect, and cancellation of a worker in the middle of a job other than by `Die` and `Crash`.
- The run lock: taken as exclusive; its expiry, its release before `finish_run` and the refusal of a second executor are not modelled.
- Streaming, partial answers on cancellation, payload sampling, the records of model calls, retries and backoff of the model, memory recall, spans and audit rows.
- `asyncio.CancelledError` from a client that disconnects, and cancellation of a caller that awaits a cached load.
- Secrets, the contents of tool arguments beyond what is compared, and tool functions that raise the approval error themselves.
- The latency, status and error columns of tool calls, and the error texts of a run.
- AgentMachine.StepGate: breaker, rate limiter and permission answer arbitrarily there, so their own state does not constrain a run.
- JobDrain.DrainLeavesWorkIff: its condition speaks of the state before the last round, which depends on the handlers; what can be seen beforehand is sufficient only (`JobDrain.CleanDrainServesAll`), for a stale entry does no harm unless it comes to stand first.
- JobRetry.TablePrefersRetried: is the shortest such run, not a condition for all runs; `JobTurns.NobodyClaimsOutOfTurn` speaks of jobs that were never claimed.
- JobRuns.LoadBounded: speaks of one instance's own heaps and workers; `extra` counts what reached it without its admission check.
- Breaker.CircuitBreaker.Record: costs, clocks and windows are exact reals, without rounding.
- Fusion.RrfFuse: leaves out rounding the score to four digits for display.
- Chunker.ChunkLines: keeps a block as its lines instead of one joined text, and takes the token count of a line as any function of it.
- RetrievalCache.Instance.GetOrLoad: takes the cache key as given; that the key omits knowledge base, filter, top_k and rerank_n is a matter of its callers.
- Release.Service.ContractCheck: models the items on tools and configuration keys; queue, tool registry and model checks are one arbitrary answer, the others never fail.
- Release orders, flow nodes and their history, metrics of a canary, and the hash that assigns users to buckets.
- Routers, authentication, settings, migrations, notifications, frontend, scripts, parsers, embeddings and BM25: plumbing or foreign mathematics around this core.
