# AgentOS: its core algorithms modelled and proved in Dafny

AgentOS runs LLM agents behind an HTTP service. This project models the parts of it that are algorithms and
protocols rather than plumbing, and proves what they promise over every input, every history or every
interleaving. Code that updates state in place is modelled as classes and loops; each such method is proved
against a specification function, and the properties are lemmas about that function over whole histories. For
each operation one of them says exactly what it does in terms of its inputs alone (the configured fields, the
calls made and their answers, the characters of a text), without the specification's own helper functions.

| files | what they model |
|---|---|
| `MathSyntax`, `MathGrammar`, `MathRoundTrip`, `MathEval`, `MathLaws` | the arithmetic tool: expression trees and their printings, the recursive-descent parser, print/parse in both directions, and the arithmetic laws of its answers |
| `RunStore` | the run store as an LRU cache, against an unbounded map |
| `JobQueue`, `JobWorkers` | the job queue and any number of workers polling it |
| `Quota`, `QuotaSweeps` | token buckets and concurrency counters with their opportunistic sweep, what it leaves in memory, and the SQL form of the bucket |
| `SlidingWindow`, `Governance`, `GovernanceLimits`, `GovernanceVerdicts`, `GovernanceEngine` | the governance check: hourly, daily and loop windows, bucket eviction, the per-agent breaker, and every verdict from the history alone |
| `Breaker`, `Resilience` | the model provider's circuit breaker under concurrent callers, and the retry loop around it |
| `EventSink`, `FederationStore`, `FederationLaws` | a run's event sink with its subscribers, and the store of events received from peers |
| `Streaming`, `AgentLoop`, `AgentTrace`, `AgentStreams` | buffered and streamed model replies, the agent loop, what it sends and announces message by message, and what it hears of a stream |
| `PiiScan`, `PiiRedact`, `PiiLaws`, `Luhn` | PII detection, redaction and the card-number check |
| `Cascade`, `Demux` | cascading cancellation and the Docker log demultiplexer |
| `Common` | options, results and sequence identities |

Conventions. Time is an argument (integers in nanoseconds, or reals); histories that need it say that it does
not run backwards. Floating-point numbers are reals, or an uninterpreted number type in the arithmetic tool. A
method that holds a lock is one atomic step. Where Go iterates over a map, the choice it makes is an argument of
the specification and the theorem holds for every choice. Histories are lists growing at the end.

Where the code and its own documentation disagree, the model follows the code:

- Overlapping detections are resolved by earliest start first, not by length (`internal/pii/redactor.go:55-65`); `LongerMayLose` is a case where the documented rule fails, and `DocumentedExactly` says when it holds.
- Runs evicted from the store's map are also gone from what is next written to disk (`internal/storage/file_run_store.go:263-278`), so nothing is claimed about evicted runs.
- The retry backoff leaves the 64-bit range at attempt 21 (`internal/jobs/queue.go:198-204`); `BackoffExact` gives the exact range.
- A non-retryable error records no outcome and keeps its half-open slot (`modelpolicy/resilience.go:256-258`); breaker properties are about recorded outcomes, `LostProbe` says exactly when such errors shut everyone out, and `TwoLostProbes` shows that with the default settings two are enough.
- The streaming path announces tool calls that the loop announces again (`agentorchestrator/agent_loop.go:392-399`).
- A completed run's memory holds what the last model call was sent, without the answer itself (`agentorchestrator/agent_loop.go:221-222`).
- The completion save does not re-read the run (`agentorchestrator/agent_loop.go:195-201`), so a completion overwrites a cancellation; `CancelSurvives` says exactly which cancellations outlive a run.
- A stream that simply ends early is taken for a finished reply (`modelpolicy/anthropic_provider.go:467-470`); `TruncatedIsReply` says which one.
- A tool called without arguments has empty arguments when streamed and marshalled ones when buffered (`modelpolicy/anthropic_provider.go:302`, `modelpolicy/anthropic_provider.go:448`); `BareToolDiffers` shows it.

## Model

| member | source | states |
|---|---|---|
| MathSyntax.BracketFits | internal/tools/math_eval.go:85-194 | every correctly spelled tree, once the needed parentheses are put in, is printable at any grammar level |
| MathSyntax.BracketKeepsValue | internal/tools/math_eval.go:85-194 | putting them in never changes the tree's value or first error |
| MathRoundTrip.ParseOfPrint | internal/tools/math_eval.go:85-340 | parsing any printing of a tree (any blanks, left-associative, products tighter than sums, sign tightest) gives the tree's value, or the first error its evaluation meets from left to right |
| MathRoundTrip.AcceptedIsPrint | internal/tools/math_eval.go:85-340 | every accepted text is a printing of some tree followed by blanks, and the answer is that tree's value |
| MathRoundTrip.Unambiguous | internal/tools/math_eval.go:85-340 | two trees with the same printing have the same value |
| MathRoundTrip.TakeNumberOf | internal/tools/math_eval.go:308-340 | maximal munch reads back exactly the literal printed |
| MathEval.EvaluateOfPrint | internal/tools/math_eval.go:62-73 | the evaluator on a printing, with blanks and then any white-space characters of UTF-8 around it, returns the tree's value or error |
| MathEval.EvaluateOfBracketed | internal/tools/math_eval.go:62-73 | the same for any tree at all after bracketing |
| MathEval.EvaluateCharacterised | internal/tools/math_eval.go:62-73 | the evaluator returns v for exactly the inputs that spell a tree of value v |
| MathLaws.SumLaw | internal/tools/math_eval.go:85-111 | `l + r` and `l - r` answer the left operand's error, else the right one's, else the sum or difference of the two answers in this order, for every left operand that is a sum and right operand that is a product |
| MathLaws.ProductLaw | internal/tools/math_eval.go:113-148 | the same of `l * r` |
| MathLaws.QuotientLaw | internal/tools/math_eval.go:113-148 | the same of `l / r`, left over right, with a division by zero exactly when the right answer is zero |
| MathLaws.RemainderLaw | internal/tools/math_eval.go:113-148 | the same of `l % r`, with its own error for zero |
| MathLaws.SignLaw | internal/tools/math_eval.go:150-164 | a plus sign changes no answer, a minus sign negates it |
| MathLaws.ParenthesisLaw | internal/tools/math_eval.go:172-186 | parentheses change no answer |
| MathLaws.NumberLaw | internal/tools/math_eval.go:308-340 | digits, with or without a point and digits, answer their decimal reading, or an error when it is out of range |
| MathLaws.LiteralLaw | internal/tools/math_eval.go:308-340 | the same of every literal the grammar has, exponents included |
| MathLaws.ConstantLaw | internal/tools/math_eval.go:203-209 | pi and e, in any letter case, answer the two constants |
| MathLaws.CallOneLaw | internal/tools/math_eval.go:211-278 | a name in any letter case applied to one argument answers the function's value for the seven functions of one argument, wrong arity for those of two, unknown function otherwise |
| MathLaws.CallTwoLaw | internal/tools/math_eval.go:211-306 | the same of two arguments, which pow, min and max take in the order written |
| MathLaws.PrecedenceLaw | internal/tools/math_eval.go:85-148 | a product binds tighter than a sum on either side |
| MathLaws.AssociationLaw | internal/tools/math_eval.go:85-148 | differences and quotients associate to the left |
| MathLaws.BlanksLaw | internal/tools/math_eval.go:75-79 | eight blank characters may stand between the parts |
| MathLaws.RefusedLaw | internal/tools/math_eval.go:62-73 | the empty input, a parenthesis too many and one never closed are refused, each for its own reason, unless evaluation fails first |
| MathEval.EvalExpr | internal/tools/math_eval.go:62-73 | the imperative evaluator answers what the laws above and the print/parse theorems are about; parsing terminates with the position in bounds |
| MathEval.MathParser.constructor | internal/tools/math_eval.go:57-66 | a parser starts at the beginning of its input |
| MathEval.MathParser.SkipWhitespace | internal/tools/math_eval.go:75-79 | moves to the first non-blank and never back |
| MathEval.MathParser.ParseAddSub | internal/tools/math_eval.go:85-111 | consumes what the grammar's sum consumes, with its value or error |
| MathEval.MathParser.ParseMulDiv | internal/tools/math_eval.go:113-148 | the same for products, with division and remainder by zero |
| MathEval.MathParser.Multiply | internal/tools/math_eval.go:133-146 | one operator of a product, with the two zero-divisor errors |
| MathEval.MathParser.ParseSigned | internal/tools/math_eval.go:150-164 | the same for signs |
| MathEval.MathParser.ParseOperand | internal/tools/math_eval.go:166-194 | the same for parentheses, names and numbers |
| MathEval.MathParser.ParseNamed | internal/tools/math_eval.go:196-278 | the same for constants and function calls |
| MathEval.MathParser.ParseArguments | internal/tools/math_eval.go:280-306 | the same for argument lists |
| MathEval.MathParser.ParseLiteral | internal/tools/math_eval.go:308-340 | the same for numbers |
| RunStore.CacheCharacterised | internal/storage/file_run_store.go:41-114 | after loading and any history of create, save and get, a run is cached exactly when fewer than 5000 distinct other keys were touched since its own last touch, and then with its last written value |
| RunStore.OrderIsPermutation | internal/storage/file_run_store.go:215-234 | the order list is always a duplicate-free permutation of the map's keys, within the cap |
| RunStore.ResponseCharacterised | internal/storage/file_run_store.go:41-114 | a get finds the last written value exactly while the key is recent; a create is refused as a duplicate exactly while it is |
| RunStore.FileRunStore.constructor | internal/storage/file_run_store.go:236-261 | loading fills map and order and evicts down to the cap |
| RunStore.FileRunStore.TouchOrderLocked | internal/storage/file_run_store.go:215-223 | moves the key to the end of the order |
| RunStore.FileRunStore.EvictLocked | internal/storage/file_run_store.go:228-234 | drops the oldest keys until within the cap |
| RunStore.FileRunStore.CreateRun | internal/storage/file_run_store.go:41-59 | one create step of the cache, invalid and duplicate runs included |
| RunStore.FileRunStore.SaveRun | internal/storage/file_run_store.go:99-114 | one save step |
| RunStore.FileRunStore.GetRun | internal/storage/file_run_store.go:61-77 | one get step, which touches the key |
| JobQueue.BackoffExact | internal/jobs/queue.go:198-204 | the wait is 5 s times 3^(n-1) exactly for n up to 20 and less from 21 on |
| JobQueue.BackoffWraps | internal/jobs/queue.go:198-204 | at attempt 21 the 64-bit delay is negative |
| JobQueue.ComputeBackoff | internal/jobs/queue.go:198-204 | the multiplication loop computes that 64-bit value |
| JobQueue.EvictKeeps | internal/jobs/queue.go:130-145 | eviction makes room, keeps ids unique and invents no job |
| JobQueue.EvictPrefersFinished | internal/jobs/queue.go:130-145 | an unfinished job is evicted only when no finished one remains |
| JobQueue.EvictExactly | internal/jobs/queue.go:130-145 | a full queue loses exactly one job: the first finished one, or the first of all when none has finished |
| JobQueue.MemoryQueue.EnqueueJob | internal/jobs/queue.go:95-126 | appends a pending job after making room |
| JobQueue.MemoryQueue.EvictLocked | internal/jobs/queue.go:130-145 | the eviction loop |
| JobQueue.MemoryQueue.Dequeue | internal/jobs/queue.go:148-161 | claims the first pending job that is due and changes no other |
| JobQueue.MemoryQueue.CompleteJob | internal/jobs/queue.go:164-175 | completes the job of that id; not found exactly when there is none |
| JobQueue.MemoryQueue.FailById | internal/jobs/queue.go:178-195 | fails it for good or puts it back with its backoff; `JobWorkers.StatusExact` says which |
| JobWorkers.ExclusiveAndBounded | internal/jobs/worker.go:78-110 | with any number of workers in any order, no two hold the same job, the queue never exceeds 10000, and its running jobs are exactly those held |
| JobWorkers.AttemptsBounded | internal/jobs/worker.go:78-110 | a pending job has an attempt left, and no job's handler runs more often than its limit |
| JobWorkers.RetryWaits | internal/jobs/queue.go:178-204 | a job is handed out no earlier than it was enqueued for, and its n-th retry at least 5 s times 3^(n-1) after the failure before it, for n up to 20 |
| JobWorkers.FinishedForGood | internal/jobs/queue.go:148-195 | whatever finished or was evicted is never handed out again, however the run goes on |
| JobWorkers.StatusExact | internal/jobs/queue.go:148-204 | over every interleaving each queued job's status follows from the log: running exactly when last claimed, completed exactly when last reported done, failed exactly when its last failure was on its last attempt, and otherwise pending, due as enqueued or, after its n-th failure, exactly 5 s times 3^(n-1) later (n up to 20) |
| JobWorkers.PollExact | internal/jobs/queue.go:148-161 | a poll hands out the first job in the queue that is pending and due, and nothing exactly when there is none |
| JobWorkers.QueueExact | internal/jobs/queue.go:95-145 | polls and reports change no job's place; a submission goes to the end, and at 10000 jobs takes out exactly the first finished one, or the first |
| JobWorkers.PollQueue | internal/jobs/worker.go:78-110 | one poll is a claim step followed by a report step of the protocol |
| Quota.SweepUnobservable | internal/quota/limiter.go:128-201 | for every history each grant and concurrency decision is the one a backend that never sweeps would make |
| Quota.BurstBound | internal/quota/limiter.go:128-179 | in any interval of length T a tenant gets at most qps + qps * T grants, bucket sweeps and re-creations included |
| Quota.GrantExact | internal/quota/limiter.go:128-160 | the exact decision: a call is refused if and only if granting it would exceed qps + qps * T grants over the last T seconds for some T |
| Quota.SlotsExact | internal/quota/limiter.go:181-201 | a concurrency slot is granted if and only if the slots granted to the tenant less those it released are fewer than the limit; a release at zero frees nothing |
| QuotaSweeps.SweepExact | internal/quota/limiter.go:135-179 | every hundredth call leaves buckets for exactly the tenants that called within the last hour and the caller, and drops exactly the counters at or below zero of tenants that did not; other calls drop nothing |
| Quota.SweepCountExact | internal/quota/limiter.go:164-179 | a sweep changes a tenant's counter reading exactly when the counter is negative and the tenant keeps no bucket |
| Quota.NegativeCountShows | internal/quota/limiter.go:164-209 | after restoring a negative counter, a hundred calls of that tenant and two requests for its only slot are answered differently with and without the sweep |
| Quota.RestoreExact | internal/quota/limiter.go:203-209 | restored counters leave sweeping unobservable in every legal continuation if and only if none of them is negative |
| Quota.MemoryBackend.AllowQPS | internal/quota/limiter.go:128-160 | one call: counts, perhaps sweeps, refills and draws |
| Quota.MemoryBackend.DrawToken | internal/quota/limiter.go:145-159 | refill up to qps, then take a token if there is one |
| Quota.MemoryBackend.SweepLocked | internal/quota/limiter.go:164-179 | removes exactly the buckets idle for an hour and the counters at or below zero without a bucket, in any iteration order |
| Quota.MemoryBackend.TryIncConcurrent | internal/quota/limiter.go:181-190 | one increment step, refused at the limit |
| Quota.MemoryBackend.DecConcurrent | internal/quota/limiter.go:192-201 | one decrement step, never below zero |
| Quota.SqlAgrees | internal/quota/postgres.go:47-53 | from an equal row, the statement that discards the refill on denial and the bucket that keeps it answer every later call alike |
| SlidingWindow.WindowBound | internal/governance/engine.go:329-380 | if a compacting bucket always had room when a grant was made, no window of that width holds more grants than the limit, wherever it lies |
| SlidingWindow.SharedBound | internal/governance/engine.go:329-380 | the same for two buckets sharing one limit |
| Governance.RateKeysDiffer | internal/governance/engine.go:275-277 | the bucket key text determines agent and category |
| GovernanceLimits.HourlyBound | internal/governance/engine.go:329-362 | in any hour an agent gets no more allowed observing calls than its observePerHour, no more acting calls than its actionPerHour, and where that is not set no more than its perHour |
| GovernanceLimits.DailyBound | internal/governance/engine.go:329-380 | in any day both categories together stay within the daily limit |
| GovernanceLimits.LoopBound | internal/governance/engine.go:402-451 | in any stretch as long as the loop window, at most a day, allowed attempts on one agent, tool and target stay within the loop limit |
| GovernanceLimits.NothingEvicted | internal/governance/engine.go:282-326 | with at most 5000 agents configured no bucket is ever evicted, so the bounds hold unconditionally |
| GovernanceLimits.BreakerTracks | internal/governance/engine.go:232-247 | an agent is frozen exactly when its failures in a row once reached the limit, and its counter is the current streak |
| GovernanceLimits.FrozenForGood | internal/governance/engine.go:68-112 | once frozen it is never allowed anything again; until then it is never denied for that reason |
| GovernanceVerdicts.VerdictExact | internal/governance/engine.go:68-228 | every verdict in every run is the one read off the history and the configured fields: kill switch, identity, segmentation, freeze, hour, day and loop in this order, each denying exactly when the allowed calls before it have used up what is configured, and Allow otherwise |
| GovernanceVerdicts.AttemptsExact | internal/governance/engine.go:395-451 | for names without a bar, what the loop limit counts is exactly the allowed attempts with that agent, tool and target |
| GovernanceVerdicts.LoopKeysDiffer | internal/governance/engine.go:395-397 | agents and tools without a bar in their names share a loop key if and only if agent, tool and target are the same |
| GovernanceVerdicts.LoopKeysCollide | internal/governance/engine.go:395-397 | with a bar in a name two different calls can share one |
| GovernanceEngine.Compact | internal/governance/engine.go:335-350 | in-place compaction keeps exactly the times after the cutoff, in order |
| GovernanceEngine.PruneStale | internal/governance/engine.go:402-425 | drops stale attempts everywhere and every key left empty |
| GovernanceEngine.EvictOldest | internal/governance/engine.go:295-326 | removes a tenth of the buckets, at least one, and those are ones with the oldest latest use |
| GovernanceEngine.OldestSelected | internal/governance/engine.go:295-326 | the selection prefix after n swaps holds n oldest entries |
| GovernanceEngine.InMemoryRateLimiter.CheckLimit | internal/governance/engine.go:329-380 | compacts the bucket and denies exactly when an hourly or daily limit is used up |
| GovernanceEngine.InMemoryRateLimiter.Record | internal/governance/engine.go:282-292 | appends the time, evicting oldest buckets when over the cap |
| GovernanceEngine.InMemoryLoopDetector.CheckLoop | internal/governance/engine.go:428-451 | denies exactly when the attempts in the window reach the limit |
| GovernanceEngine.InMemoryLoopDetector.Record | internal/governance/engine.go:402-425 | appends the attempt, pruning keys older than a day when crowded |
| GovernanceEngine.InMemoryCircuitBreaker.RecordSuccess | internal/governance/engine.go:469-473 | resets the streak and unfreezes nobody |
| GovernanceEngine.InMemoryCircuitBreaker.RecordFailure | internal/governance/engine.go:476-481 | adds one to the streak and returns it |
| GovernanceEngine.InMemoryCircuitBreaker.Freeze | internal/governance/engine.go:498-502 | freezes the agent |
| GovernanceEngine.Engine.CheckBehaviorOf | internal/governance/engine.go:179-228 | breaker, then rate, then loop; records only when all allow |
| GovernanceEngine.Engine.CheckTool | internal/governance/engine.go:68-112 | kill switch, identity, segmentation, behaviour, in that order, with the state change of the one that decides |
| GovernanceEngine.Engine.RecordOutcome | internal/governance/engine.go:232-247 | counts the outcome and freezes at the limit |
| Breaker.BreakerFollowsRule | modelpolicy/resilience.go:107-154 | over every interleaving the breaker admits exactly what a rule stated on recorded outcomes permits, and is Closed exactly while failures since the last success are below the threshold |
| Breaker.MachineTracks | modelpolicy/resilience.go:107-154 | state, failure count, last failure and probe count are functions of the history's outcomes |
| Breaker.LowThreshold | modelpolicy/resilience.go:141-154 | a threshold below 1 behaves exactly as 1 |
| Breaker.OpenHolds | modelpolicy/resilience.go:114-120 | Open admits a call exactly from RecoveryTimeout after the latest recorded failure on |
| Breaker.EpisodeBound | modelpolicy/resilience.go:121-126 | each half-open episode admits at most max(1, HalfOpenMax) calls |
| Breaker.OutageBound | modelpolicy/resilience.go:107-154 | once tripped, an outage admits at most max(1, HalfOpenMax) calls per recorded failure and as many before the next |
| Breaker.SaturatedStays | modelpolicy/resilience.go:121-126 | a saturated half-open breaker admits nobody at any time until an outcome is recorded |
| Breaker.OutcomeReleases | modelpolicy/resilience.go:132-154 | a recorded success lets everybody in again, a failure one caller after the recovery time |
| Breaker.CircuitBreaker.constructor | modelpolicy/resilience.go:102-104 | starts closed |
| Breaker.CircuitBreaker.Ask | modelpolicy/resilience.go:107-129 | one admission step; for a threshold of at least 1 it answers as the rule does |
| Breaker.CircuitBreaker.RecordSuccess | modelpolicy/resilience.go:132-138 | one success step |
| Breaker.CircuitBreaker.RecordFailure | modelpolicy/resilience.go:141-154 | one failure step |
| Resilience.NominalBounds | modelpolicy/resilience.go:202-206 | the schedule before jitter never shrinks and never passes MaxBackoff |
| Resilience.BackoffBounds | modelpolicy/resilience.go:202-214 | every backoff lies within a quarter of it |
| Resilience.NominalSteps | modelpolicy/resilience.go:202-206 | the schedule is the base delay and then each time the one before times BackoffScale, cut off at MaxBackoff |
| Resilience.BackoffExactly | modelpolicy/resilience.go:202-214 | a backoff is the scheduled delay times 0.75 + 0.5 u for the random u in [0, 1) drawn, in whole nanoseconds |
| Resilience.WaitBounds | modelpolicy/resilience.go:231-237 | a wait is never shorter than the Retry-After seconds of the last error or than the backoff, is one of the two, and unless asked for longer stays within 1.25 times MaxBackoff |
| Resilience.ResilientProvider.Pause | modelpolicy/resilience.go:232-236 | the longer of backoff and Retry-After |
| Resilience.ResilientProvider.TryOnce | modelpolicy/resilience.go:244-259 | one attempt among other callers' steps: blocked exactly when the breaker refuses, otherwise answered by the inner call, with the outcome recorded exactly for successes and retryable errors |
| Resilience.ResilientProvider.ChatComplete | modelpolicy/resilience.go:228-262 | every attempt but the last was blocked or failed retryably, the result is the last attempt's or the context's, short of MaxAttempts it stops only on an answer, a non-retryable error or the context, and the breaker saw exactly the outcomes this says |
| Resilience.CallsBounded | modelpolicy/resilience.go:228-262 | at most MaxAttempts inner calls, and a response exactly when the last was answered |
| Resilience.ErrorsRetried | modelpolicy/resilience.go:183-262 | every attempt before the last was blocked, met a network error, status 429 or a status from 500 on; a last attempt that met one of these was at the limit or cut off by the context; any other error ends the call with that error |
| Resilience.OutcomeCounted | modelpolicy/resilience.go:244-259 | an answer clears the breaker's failures, one of these errors adds one, any other error or a refusal changes nothing |
| Resilience.FailuresAdded | modelpolicy/resilience.go:259 | with nobody else calling, a call still retrying has added one failure per inner call |
| Breaker.ShutOutExactly | modelpolicy/resilience.go:121-126 | a half-open breaker admits nobody ever again, short of a recorded outcome, if and only if the probes since the latest outcome have used up max(1, HalfOpenMax) slots |
| Resilience.LostProbe | modelpolicy/resilience.go:256-258 | a half-open probe lost to a non-retryable error leaves the breaker tripped with its slot taken, and everyone shut out if and only if the probes have then used up all slots |
| Resilience.TwoLostProbes | modelpolicy/resilience.go:66-90 | with the default settings two lost probes shut everyone out |
| EventSink.RunSound | agentorchestrator/events.go:54-163 | no interleaving of emit, subscribe, unsubscribe, done and receive sends on a closed channel or closes one twice; sequences are exactly 1..n |
| EventSink.LogComplete | agentorchestrator/events.go:54-71 | the log is exactly what was emitted, in order |
| EventSink.SubscriberSees | agentorchestrator/events.go:109-144 | a channel is open exactly while subscribed, holds at most 64 unread events, and was sent a subsequence of the events emitted meanwhile, complete for the first 64 |
| EventSink.Conserved | agentorchestrator/events.go:131-149 | sends plus the drop counter equal the events emitted summed over live subscriptions |
| EventSink.DropCounterExact | agentorchestrator/events.go:131-149 | the counter is zero if and only if every subscriber was sent everything emitted while it was subscribed |
| EventSink.MailboxExact | agentorchestrator/events.go:109-163 | over every interleaving a channel is exactly a mailbox of 64: an event emitted while it is subscribed is dropped if 64 are waiting and is otherwise received in order after those |
| EventSink.ResumeIsSuffix | agentorchestrator/events.go:95-105 | in every reachable state resuming after k gives the events after position k (all for negative k, none beyond the end) |
| EventSink.EventSink.constructor | agentorchestrator/events.go:35-41 | starts empty |
| EventSink.EventSink.EmitEvent | agentorchestrator/events.go:54-71 | one emit step |
| EventSink.EventSink.NotifySubscribers | agentorchestrator/events.go:131-144 | offers the event to each subscriber, counting what does not fit |
| EventSink.EventSink.EventsFromSequence | agentorchestrator/events.go:95-105 | returns the suffix after the sequence |
| EventSink.EventSink.SubscribeChannel | agentorchestrator/events.go:109-115 | one subscribe step |
| EventSink.EventSink.UnsubscribeChannel | agentorchestrator/events.go:118-128 | one unsubscribe step; an unknown channel changes nothing |
| EventSink.EventSink.CloseAllChannels | agentorchestrator/events.go:152-163 | one done step; a second one changes nothing |
| FederationStore.BatchAccounts | federation/event_store.go:36-100 | accepted plus rejected is the batch size, and the accepted envelopes are what is appended, in order |
| FederationStore.NeverStoredTwice | federation/event_store.go:60-89 | the same id with the same nonzero sequence is never stored twice, even after the id was dropped from the capped set |
| FederationStore.NoDuplicates | federation/event_store.go:36-100 | over every history a repeated id means a different or zero sequence, and more than 10001 events |
| FederationStore.IngestKeeps | federation/event_store.go:36-100 | each ingest keeps the store sound and never evicts the run it was for |
| FederationStore.StoreSound | federation/event_store.go:36-100 | over every history the order lists exactly the stored runs once each, at most 500; nonzero sequences strictly increase; the run just ingested is present |
| FederationLaws.AcceptedExactly | federation/event_store.go:48-90 | at any point of any ingest after any history, an envelope with an id, a sequence that is absent or above all stored ones, and an id no stored event has is accepted; one without an id or with a lower sequence never is; and up to 10000 stored events acceptance is exactly this |
| FederationLaws.KeptExactly | federation/event_store.go:40-97 | after every history exactly the 500 runs created last are stored, in that order |
| FederationLaws.SequenceRead | federation/event_store.go:135-157 | a sequence is a number cut off toward zero, an integer, or a numeral's value, and anything else reads as none |
| FederationStore.ResumeIsSuffix | federation/event_store.go:115-133 | once a sequenced event is resent, so is everything after it |
| FederationLaws.ResumeSelects | federation/event_store.go:115-133 | resuming resends, in order, the events at exactly the places whose sequence is absent or above the one asked for |
| FederationStore.ResumeCut | federation/event_store.go:115-133 | a log without unsequenced events is resent exactly from the first sequence above the one asked for |
| FederationStore.EventStore.IngestBatch | federation/event_store.go:36-100 | one ingest step with its two counts |
| FederationStore.EventStore.TakeOne | federation/event_store.go:48-90 | one envelope is taken exactly when it has an event and an id, its sequence is zero or new, and its id is not remembered |
| FederationStore.EventStore.DropSome | federation/event_store.go:72-83 | forgets a tenth of the ids, whichever the iteration meets |
| FederationStore.EventStore.EvictOldest | federation/event_store.go:92-97 | removes the oldest runs down to the cap, never reading past the order list |
| FederationStore.EventStore.ListFromSequence | federation/event_store.go:115-133 | the wanted events in order, or none for an unknown run |
| Streaming.StreamedReply | modelpolicy/anthropic_provider.go:372-471 | whatever way text and argument JSON are cut into deltas, a stream gives their concatenations, with tool calls only on stop reason tool_use |
| Streaming.StreamedIsBuffered | modelpolicy/anthropic_provider.go:294-338 | a stream carrying the blocks of a buffered message gives the same reply if and only if there are no tools, or the stop reason is tool_use and the deltas spell every tool's arguments as marshalling does |
| Streaming.BareToolDiffers | modelpolicy/anthropic_provider.go:302-305 | a tool streamed without argument JSON makes the two replies differ |
| Streaming.BrokenIsNoReply | agentorchestrator/agent_loop.go:361-364 | a stream yields no reply if and only if it breaks off with an error or a cancelled context before the message's end |
| Streaming.TruncatedIsReply | modelpolicy/anthropic_provider.go:467-470 | a stream that ends before its stop reason passes for a reply: the text so far, no tool calls, finish reason stop |
| AgentStreams.LoopHears | agentorchestrator/agent_loop.go:356-412 | the reply the agent loop goes on with is the one gathered from the provider's chunks |
| AgentStreams.LoopHearsBuffered | agentorchestrator/agent_loop.go:302-334 | a turn streamed from a provider's events is heard as the buffered turn if and only if there are no tools, or they are wanted and spelled alike |
| Streaming.MapResponse | modelpolicy/anthropic_provider.go:294-338 | the buffered mapping of blocks to text, tool calls and finish reason |
| Streaming.ReadSSE | modelpolicy/anthropic_provider.go:372-471 | the chunks the event fold sends |
| Streaming.StreamModelCall | agentorchestrator/agent_loop.go:356-412 | gathers the chunks; the tokens it announces are non-empty and concatenate to the text |
| AgentLoop.RunTrace | agentorchestrator/agent_loop.go:24-229 | every run emits run.started first and exactly one of run.completed and run.failed, last; model calls are announced as steps 1, 2, ..., one per call, at most maxSteps, every step event belongs to the latest call, and a completed run reports their number |
| AgentLoop.RunAnswersCalls | agentorchestrator/agent_loop.go:121-191 | each tool call announced after a model response is answered by one result event, in order, before the next model call and before the end |
| AgentLoop.RunConversation | agentorchestrator/agent_loop.go:73-191 | every model call is sent the screened prompt followed by complete rounds, each message with tool calls followed by one tool message per call with the same ids in order; blocked input reaches no model call |
| AgentLoop.ConversationPaired | agentorchestrator/agent_loop.go:121-191 | the same of the conversation after any number of rounds; only the prompt is ever screened |
| AgentTrace.RunSends | agentorchestrator/agent_loop.go:73-300 | message by message, the k-th model call is sent the prompt, its last message replaced by the redaction when it is a user's with PII and the mode is redact and as it was otherwise, then for each earlier round the model's message and one tool message per call with that call's id and its result as text |
| AgentTrace.RunAnnounces | agentorchestrator/agent_loop.go:105-191 | in the log, each round's step announces the model's text if streamed, its finish reason, every tool call by name (twice if streamed) and each call's id with its result |
| AgentTrace.RunEnds | agentorchestrator/agent_loop.go:65-223 | a run goes on exactly while it is not cancelled, not blocked and asked for tools within its steps, and its last event is the one its next turn calls for |
| AgentLoop.CancelSurvives | agentorchestrator/agent_loop.go:195-201 | with a cancel handler that may write at any point, the stored status ends as canceled if and only if the handler wrote after the run, or the run failed, its record was readable, and the handler wrote before that read and not before a start that was saved; otherwise it is completed or failed as the run ended |
| AgentLoop.RetriedExactly | agentorchestrator/agent_loop.go:463-467 | a retry is scheduled if and only if retries are on, the run failed with a provider error, is no retry itself, and failRun saw no cancellation |
| AgentLoop.RunRemembers | agentorchestrator/agent_loop.go:221-222 | only an answered run is remembered, as what its last model call was sent |
| AgentLoop.RetriesOnce | agentorchestrator/agent_loop.go:463-503 | an automatic retry never spawns another |
| AgentLoop.Executor.ExecuteRun | agentorchestrator/agent_loop.go:24-229 | the loop makes the specified rounds, as many as it can, and leaves the specified record |
| AgentLoop.Executor.Step | agentorchestrator/agent_loop.go:65-223 | one step goes on exactly when it was neither cancelled nor blocked and was answered with tool calls |
| AgentLoop.Executor.InvokeModel | agentorchestrator/agent_loop.go:302-334 | announces and makes one model call, streamed or buffered |
| AgentLoop.Executor.StreamModelCall | agentorchestrator/agent_loop.go:339-413 | announces tokens and, after a whole stream, its tool calls; an empty finish reason becomes stop |
| AgentLoop.Executor.RunTools | agentorchestrator/agent_loop.go:121-191 | one call event per call, then one result event and one tool message per call, in order |
| AgentLoop.Executor.FailRun | agentorchestrator/agent_loop.go:418-468 | one run.failed event; saves and retries only when the stored status read back is not terminal |
| AgentLoop.Executor.TransitionToRunning | agentorchestrator/agent_loop.go:233-250 | run.started, and the running status unless the context is over and the save refused |
| PiiScan.DetectorRanked | internal/pii/detector.go:21-41 | however it is set up, a detector scans for exactly the wanted patterns in priority order, and so meets what scanning asks for |
| PiiScan.Detector.constructor | internal/pii/detector.go:21-41 | the selection loop enables those patterns |
| PiiScan.ScanKeeps | internal/pii/detector.go:46-91 | after each pattern the kept spans are in bounds and disjoint, every one genuine, and every validated match is kept or overlaps a kept one of no lower priority |
| PiiScan.SortedCorrect | internal/pii/detector.go:93-98 | any sort by start of them is in bounds, sorted and pairwise disjoint |
| PiiLaws.ScanFields | internal/pii/detector.go:21-99 | a report holds only validated matches of wanted patterns, and every such match unless one of a pattern earlier in the order SSN, card, email, phone, IP address was reported on one of its bytes |
| PiiScan.Detector.Scan | internal/pii/detector.go:46-99 | the claimed-byte loop reports exactly that |
| PiiScan.Detector.ScanPattern | internal/pii/detector.go:55-91 | one pattern: claimed bytes are exactly those covered by kept spans, before and after |
| PiiRedact.SweepIsRow | internal/pii/redactor.go:67-75 | what overlap resolution keeps runs left to right without overlap |
| PiiRedact.DroppedStartsInside | internal/pii/redactor.go:55-75 | whatever it drops starts inside something kept that sorts no later |
| PiiRedact.LongerMayLose | internal/pii/redactor.go:44-76 | a longer detection can lose to a shorter one |
| PiiRedact.LongerWinsExactly | internal/pii/redactor.go:44-76 | of two overlapping detections alone the longer is kept if and only if it does not start after the other |
| PiiRedact.SweepDocumented | internal/pii/redactor.go:44-76 | on any list where of two overlapping detections the earlier is the longer or has the priority at equal length, every dropped detection overlaps a kept one that beats it as documented |
| PiiRedact.DocumentedExactly | internal/pii/redactor.go:44-76 | the documented rule holds on a list and on every selection from it if and only if that is so |
| PiiRedact.BackwardIsForward | internal/pii/redactor.go:26-39 | splicing from the end gives the left-to-right concatenation of gaps and placeholders |
| PiiRedact.RedactDeterministic | internal/pii/redactor.go:18-76 | the result depends only on which detections there are, not on their order or on how ties are sorted |
| PiiRedact.RedactScan | internal/pii/redactor.go:18-42 | redacting a scan's report gives the undetected gaps in order with one placeholder per detection |
| PiiLaws.RedactedTags | internal/pii/redactor.go:18-42 | in a redacted scan the bracketed name of each detection's kind stands where the detection began, moved by what the earlier replacements added or removed |
| PiiLaws.RedactedKeeps | internal/pii/redactor.go:18-42 | every byte outside the detections stands where it was, moved likewise |
| PiiLaws.RedactedLength | internal/pii/redactor.go:18-42 | there is nothing else in it |
| PiiRedact.Redact | internal/pii/redactor.go:18-42 | for some sort of the detections, the row kept is replaced by placeholders |
| PiiRedact.SpliceAll | internal/pii/redactor.go:32-39 | the replacement loop equals back-to-front splicing |
| PiiRedact.ResolveOverlaps | internal/pii/redactor.go:67-75 | the loop keeps exactly the sweep of the sorted list |
| Luhn.LuhnValid | internal/pii/patterns.go:71-97 | accepts exactly 13 to 19 digits whose weighted sum is divisible by 10, whatever stands between them |
| Luhn.ValidIsAnnex | internal/pii/patterns.go:71-97 | validity is that of the standard's formula (Annex B of ISO/IEC 7812-1): every second digit from the right doubled and its own digits added up, the sum divisible by ten |
| Luhn.DigitsRead | internal/pii/patterns.go:72-80 | a text is read as the values of its digits in order and of nothing else |
| Luhn.SingleErrorCaught | internal/pii/patterns.go:85-96 | changing any single digit of a valid number makes it invalid (Annex B of ISO/IEC 7812-1) |
| Luhn.TranspositionCaught | internal/pii/patterns.go:85-96 | swapping neighbours keeps a valid number valid if and only if they are equal or are 0 and 9 |
| Luhn.CheckDigitUnique | internal/pii/patterns.go:85-96 | exactly one check digit completes a number |
| Luhn.MistypedRejected | internal/pii/patterns.go:71-97 | the first law on the text itself, separators included |
| Luhn.SwappedRejected | internal/pii/patterns.go:71-97 | the second law on the text itself |
| Cascade.CascadeExact | agentorchestrator/server.go:1522-1572 | when no queued or running run of the tenant has two parents and the start is not below itself, the cascade cancels exactly the queued or running descendants reachable through queued or running runs within the levels left, changes nothing else and releases quota once for each, in any listing order |
| Cascade.CascadeFields | agentorchestrator/server.go:1522-1572 | the same field by field from an inactive start: exactly the runs on a chain of queued or running runs linked by retryOf or parentRunId become canceled with their links kept, all others keep every field, and there is one release each |
| Cascade.WithinIsLinked | agentorchestrator/server.go:1533-1571 | being reachable within so many levels is having such a chain of at most that length |
| Cascade.CancelsOnlyReachable | agentorchestrator/server.go:1522-1572 | on any links, cyclic ones included, it cancels nothing else |
| Cascade.StartsLoopless | agentorchestrator/server.go:1482-1492 | the start is not below itself once it is cancelled, or when every run is newer than its parents |
| Cascade.TwoParents | agentorchestrator/server.go:1541-1571 | with two parents, which only a loaded file can give a run, it can be released twice |
| Cascade.ReachIsSubtrees | agentorchestrator/server.go:1533-1571 | what a run reaches is the subtrees of its active children |
| Cascade.Server.ListChildRuns | internal/storage/file_run_store.go:186-207 | lists exactly the tenant's runs that name the parent in either link |
| Cascade.Server.CascadeCancelChildren | agentorchestrator/server.go:1522-1572 | the recursion executes some complete schedule of visits, on any store |
| Cascade.Server.CancelRun | agentorchestrator/server.go:1482-1495 | cancelling a run cancels it and its reachable descendants, with one release more |
| Demux.DemuxEncoded | internal/sandbox/executor.go:437-457 | demultiplexing the encoding of frames below 2^32 bytes gives each stream's payloads in order |
| Demux.ReadIsLossless | internal/sandbox/executor.go:439-457 | any bytes decompose into whole frames and a short tail or one cut-off frame, and putting them together gives the input back |
| Demux.EncodeInjective | internal/sandbox/executor.go:437-438 | an encoding determines its frames |
| Demux.Header | internal/sandbox/executor.go:437-442 | the header's big-endian size reads back as written |
| Demux.DemuxDockerStream | internal/sandbox/executor.go:439-457 | the loop writes exactly the payload bytes of streams 1 and 2, in input order, and stays in bounds |

## Left out

- HTTP handlers, routing, JSON and YAML decoding, SSE framing, the CLI and compose code: plumbing without state of its own.
- Network calls to model providers other than the reply folds, webhooks, Docker, knowledge bases and Prometheus: external behaviour.
- Postgres stores, purging and migrations: only the quota refill statement on one existing row is modelled, not the insert of a missing row.
- Encryption, bcrypt, JWT and OIDC, TLS, RBAC, clearance tiers, registries and configuration loading: thin wrappers or single-branch facts.
- Regular-expression matching: a pattern's matches are given as ordered, non-empty, in-bounds spans.
- Goroutine scheduling and mutexes: every locked method is one atomic step.
- Metrics, logging, tracing and audit output: no effect on the modelled state.
- Error texts and the positions inside them: errors are modelled by kind.
- The run store's file, key cleaning and the list queries other than child runs.
- The event sink's durable log and the identifiers and timestamps of events.
- Token usage accounting, the token budget and the scan of model output, which only logs.
- The choice of the step limit and model from run, agent and default settings: the loop takes both as given.
- The delay, persistence and resubmission of an automatic retry: only its record and the guard are modelled.
- Memory loading and prompt building: the prompt is any conversation.
- ChatCompleteStream in the retry wrapper: the same loop around another inner call.
- Job payloads and their marshalling.
- The kill switch's reasons and segmentation's path rules: the governance check takes their verdicts as configured.
- BackoffDuration: over reals; the overflow of a float-to-integer conversion is not modelled.
- BurstBound: for a rate that stays the same for the tenant throughout the history.
- SweepUnobservable: for rates and restored counters that are not negative; RestoreExact says that the latter is exact.
- LoopBound: for loop windows of at most a day; the detector forgets older attempts.
- HourlyBound: for buckets not evicted; NothingEvicted says when none is.
- VerdictExact: for buckets not evicted, which NothingEvicted says more about, and loop windows of at most a day.
- GrantExact: for a rate that stays the same for the tenant throughout the history.
- SlotsExact: for counters that start at zero; restored ones are the subject of RestoreExact.
- CallOneLaw: which number each named function gives is not modelled; number functions are uninterpreted.
- RunAnnounces: the cutting of long tool results in result events is not modelled.
- Tool categories other than observe and action, the two the configuration knows.
- DailyBound: for buckets not evicted; NothingEvicted says when none is.
- StreamedIsBuffered: argument texts are compared as texts; that JSON marshalling gives a non-empty text, and which one, is not modelled.
- Redact: for detections that are non-empty and in bounds, as every scan reports; other spans make the code panic or are empty matches.
- CancelSurvives: the cancel handler's status test and its save are not one step, so its save may come at any point; other writers of the run are not modelled.
- CascadeExact: completion timestamps and the executor's own cancel call are not modelled; saves succeed and run ids are not empty.
- CascadeCancelChildren: the set of children stands for the list, its iteration order for the listing order.
