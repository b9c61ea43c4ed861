# Paota: tasks, retries and connections, verified

Paota is a task queue on RabbitMQ. A submitted task is a *signature*; it is published, delivered to a
worker, run, and then acknowledged, put back, discarded, or published again to wait in the delayed
queue, to rest in the failed queue, or, when it waited too long to start, in the timeout queue. This
project models that life, the wire forms a signature travels in, the connection pool every publish
borrows from and the dispatch of deliveries to workers, and proves what holds over whole runs.

## How it is built

| file | content |
|---|---|
| `GoInt.dfy`, `Tasks.dfy` | 64-bit integers; signatures, bodies, times in nanoseconds |
| `Backoff.dfy` | the Fibonacci delay in wrapping arithmetic, against the mathematical sequence |
| `Wire.dfy` | headers or document: encoding, decoding, and the normal form between them |
| `Broker.dfy` | bindings, routing of the direct exchange, time-to-live, publishing |
| `RetryRule.dfy` | start deadline, retry rule and settlement of one delivery, as functions |
| `Registrar.dfy` | the same as methods that change a shared signature and talk to the broker |
| `Protocol.dfy` | the step system: copies of tasks in queues and in workers, with crashes and lost confirms |
| `Deliveries.dfy` | a delivery as the methods handle it is a walk of the step system |
| `Lineage.dfy`, `Safety.dfy` | what each step keeps of one copy, and of the whole state |
| `Prospects.dfy` | which deliveries of a signature can lose its task, from a given time on |
| `Guarantees.dfy` | the results about every reachable state and about what was handed over |
| `Losses.dfy` | which submissions are always kept, exactly, with a run that loses each of the others |
| `Tallies.dfy`, `Executions.dfy` | what each step uses up of a task's allowance; bounds on executions and on steps |
| `ExactlyOnce.dfy` | one standing copy, and its exact number of executions, unless a fault doubles the task |
| `Endings.dfy` | when a queued message can leave its queue, and how every task can be brought to its end |
| `Repeats.dfy` | runs that meet the bound on executions |
| `RetryRuns.dfy` | whole runs of a task that always fails, against an abstract rule of two counters |
| `DelayLine.dfy` | the delayed queue: first in, first out, expiry only at the head |
| `PoolModel.dfy`, `PoolBounds.dfy`, `Pool.dfy` | the pool as a state machine, its exact growth bound, and the provider's methods |
| `WorkerGroup.dfy` | round-robin dispatch over unbuffered channels |

A *copy* is one message the broker stores. Publishing makes a new one and settling a delivery ends
one, so a task has a chain of copies; the newest *stands* for it. In the step system any copy may step
at any time, and a publish may be confirmed, not stored, or stored and yet reported as an error. Any
unsettled delivery may come back, as the message that was stored, whatever was changed in memory
meanwhile: because its worker is gone (`GiveBack`), or because its channel is, while the worker goes on
with its execution and its publish and then settles nothing (`Disconnect`). The consumer loop reconnects
without stopping its workers (workerpool/workerpool.go:165-184), so the latter doubles a task.

## Assumptions

- The exchange is direct, the binding key is set, the task, delayed and failed or timeout queues have
  different names, and the binding key is none of the last three (`ValidConfig`); for the guarantees
  the failed and the timeout queue are named (`NamedQueues`). They may be one queue, as by default.
- Clocks do not go back and start at or after the Unix epoch. Task functions leave the signature alone.
- `encoding/json` keeps every field of a signature, writes absent raw arguments as `null` and refuses
  empty ones. The AMQP library writes a Go `int` in a table as a 32-bit integer (AMQP 0-9-1, section
  4.2.5.5). A direct exchange routes by equal keys (section 3.1.3.1), and an unacknowledged delivery is
  given back when its channel is lost (section 3.1.8).
- RabbitMQ removes the expiration of a dead-lettered message, expires messages at the head of a queue,
  does not deliver expired ones, and drops them where no dead-letter exchange is set.

## What the proofs show about the code

- Retry 50 overflows: its delay wraps to a negative duration, nothing is advanced, and a task with a
  retry count of 50 or more never reaches the failed queue (`FailsFinallyIff`). In header form it goes
  round without delay for ever once its ETA is past (`StallsForEver`); as a document it stays in the delayed
  queue, unless it is hurried (see below) and comes back every 5 ms (`RetryFiftyStalls`). Up to there, and
  for good up to 49 retries, both wire forms go the same way (`WireFormsAgreeIff`).
- The delayed queue keeps a retry for ever if less than a millisecond is left of its interval when it is
  published, unless it is hurried (`RetryExpiresIff`), and such a message blocks everything behind it, of
  any task (`UnexpiringBlocks`, `LeavesIff`).
- The repository's README says that an empty routing key defaults to the binding key. With an ETA ahead
  it stays empty, and the task is confirmed and gone (`PublishedIsStoredIff`, `ConfirmedSubmissionIsStoredIff`).
- A *hurried* task, one with a start timeout and a priority above 1 that is sent as a document, comes back
  from the delayed queue after 5 ms, however long its delay (`RetryExpiresIff`), and its message to the
  failed queue expires after 5 ms (`FailedMessageExpiresIff`). If it passes its deadline before its ETA its
  message to the timeout queue expires when the ETA comes (`TimeoutMessageExpiresIff`), and is dropped there.
  So it is lost in some run if it can be started and retried at all (`HurriedIsLost`), or scheduled and
  started (`ExpiringFailureIsLost`, `EarlyTimeoutIsLost`).
- A task with an ETA ahead is lost if it is sent to the task queue by its own key: its message expires
  there. Only the delayed queue holds a schedule (`ScheduledElsewhereIsLost`). Which submissions are kept
  in every run, and which are lost in some, is decided exactly (`AlwaysKeptIff`).
- A delivery that comes back while its worker goes on doubles the task. No network fault is needed: one
  empty message ends the consumer's channel, and every delivery on it comes back. With n doublings a task
  of R retries can be executed (R + 1) * (n + 1) times (`StartsBoundIsMet`), and no more often than that
  but for executions whose worker or publish failed (`StartsAreBounded`).
- The pool can outgrow its configured size as soon as two callers use it (`BoundIsReached`).

## Model

| member | source | states |
|---|---|---|
| Backoff.FibonacciExact | internal/utils/fibonacci.go:10-15 | the code's recursion in wrapping 64-bit arithmetic equals the mathematical sequence for n up to 50 |
| Backoff.IntervalExact | internal/task/memory/task.go:287-298 | for retries 1 to 49 the delay is exactly min(F(k), 10) seconds, so between one second and the cap |
| Backoff.IntervalMonotone | internal/task/memory/task.go:287-298 | up to retry 49 a later retry never waits less |
| Backoff.IntervalWrapsAt50 | internal/task/memory/task.go:289 | the delay of retry 50 is negative, so 49 is the last exact retry |
| Backoff.NoDelayMeansOverflow | internal/task/memory/task.go:276-284 | a retry that gets no positive delay has a number above 49 |
| Backoff.TotalBackoffClosedForm | internal/task/memory/task.go:287-298 | the delays of R retries add up to F(R+2)-1 seconds for R up to 6 and 20+10(R-6) seconds from there to 49 |
| Wire.HeaderFormRoundTrip | internal/task/memory/task.go:322-347 | reading the headers after the trip over the wire gives the normal form of the signature |
| Wire.RoundTrip | internal/broker/amqp/broker.go:145-161 | every signature that can be marshalled decodes, in either wire form, to its normal form; no published body is empty |
| Wire.FormIs | internal/broker/amqp/broker.go:145-161 | the body is the raw arguments, with the task name in the headers, exactly when there are any and they are not "null"; otherwise it is the whole document and there are no headers |
| Wire.DocumentRoundTrip | schema/task.go:109-119 | a document is read back as it was, but for absent raw arguments, which read "null" |
| Wire.ForeignHeaders | internal/utils/signature_helper.go:10-51 | whatever publisher wrote the headers, numbers of either width and the routing key are read as written, and a priority never is |
| Wire.NormalIsIdempotent | internal/broker/amqp/broker.go:150-158 | a second trip loses nothing more, and a received signature is republished in the wire form it came in |
| Wire.HeaderFormIsLosslessIff | internal/utils/signature_helper.go:10-51 | the header form loses nothing if and only if arguments, key and priority are empty, counters fit 32 bits and times are whole seconds |
| Broker.RouteIsExact | internal/broker/amqp/broker.go:217-271 | under a valid configuration a key leads to at most one queue, and which |
| Broker.DefaultKeyReachesTaskQueueIff | internal/broker/amqp/broker.go:48-57 | the default key, also the dead-letter key of the delayed queue, leads to the task queue if and only if the binding key is set |
| Broker.DefaultKeyIs | internal/broker/amqp/broker.go:48-57 | the default key is the binding key exactly on a direct exchange that has one, and otherwise the name of the task queue |
| Broker.PublishedIsReceived | internal/broker/amqp/broker.go:118-140 | what is published is received in normal form, and publishing fails only when marshalling does |
| Broker.PublishedIsStoredIff | internal/broker/amqp/broker.go:132-139 | a publish without a key reaches the task queue exactly when no ETA is pending and no queue otherwise; with a key it is stored exactly when a queue is bound to it |
| RetryRule.SingleSettlement | internal/task/memory/task.go:94-236 | whatever the world does, the last thing asked of the broker for a delivery is its one settlement |
| RetryRule.AckIsEarned | internal/task/memory/task.go:162-235 | an acknowledged delivery was run with success, or its successor was confirmed before, or the queue it was meant for has no name |
| RetryRule.DeliveryOutcome | internal/task/memory/task.go:94-285 | how a delivery ends in every case: discarded if undecodable or unregistered, acknowledged after a success or for an unnamed queue, else published to the timeout, failed or delayed queue and acknowledged exactly if that is confirmed |
| Registrar.TaskRegistrar.Publish | internal/broker/amqp/broker.go:118-140 | sends a message that carries the signature's priority, is received in its normal form and has the routing key the signature is left with; nothing else of the signature changes |
| Registrar.TaskRegistrar.SendTask | internal/task/memory/task.go:304-320 | an absent creation time becomes the time of the call and a present one is kept, likewise the UUID; no other field changes but an empty routing key; it publishes, and succeeds exactly on a confirm |
| Registrar.TaskRegistrar.PushToTimeoutQueue | internal/task/memory/task.go:247-256 | follows the timeout plan: message, outcome and the signature left in memory |
| Registrar.TaskRegistrar.RetryTask | internal/task/memory/task.go:258-285 | follows the retry plan: message, outcome and the signature left in memory |
| Registrar.TaskRegistrar.ProcessSignature | internal/task/memory/task.go:131-236 | asks the broker for exactly the events specified for the signature, report and readings, and returns an error exactly for an unregistered task and a failed retry |
| Registrar.TaskRegistrar.ProcessMessage | internal/task/memory/task.go:94-129 | the same for a message; an empty and an undecodable one are discarded with different errors |
| Registrar.TaskRegistrar.ProcessDelivery | internal/broker/amqp/broker.go:100-113 | settles an empty delivery and hands over any other unsettled |
| Registrar.TaskRegistrar.HandleDelivery | internal/broker/amqp/broker.go:100-113 | consumer and worker together leave the specified events for any message, of which exactly the last settles the delivery |
| Deliveries.DeliveryIsStepped | internal/task/memory/task.go:131-236 | the steps of the step system, taken with the readings of one delivery, publish the same message and decide on the same settlement as the registrar |
| Lineage.OutgoingDescends | internal/task/memory/task.go:258-285 | a republished signature comes back from the wire with everything but the retry fields as first received, and never with a later ETA |
| Lineage.SuccessorLineage | internal/task/memory/task.go:258-285 | the copy a republish stores descends from the submission and its execution count adds up |
| Prospects.OutgoingTTL | internal/broker/amqp/broker.go:399-417 | only a retry, or a stalled document on its way back to the delayed queue, gets a time-to-live; that of a retry is at most 10000 ms and ends less than a millisecond before its ETA |
| Prospects.TTLValue | internal/broker/amqp/broker.go:399-417 | the time-to-live is 5 ms exactly for an ETA with a priority above 1, a timeout and a creation time; else what is left until the ETA in whole milliseconds, at most the range of a duration |
| Prospects.BackIsDue | internal/broker/amqp/broker.go:410-413 | the time-to-live of a submission ends less than a millisecond before its ETA, if not traded for priority and in the range of a duration |
| Prospects.DoomedEarlier | internal/broker/amqp/broker.go:399-417 | a signature whose delivery cannot lose its task from one time on cannot from any later time on |
| Safety.SuccessorIsHopeful | internal/task/memory/task.go:247-285 | what a sound republish stores is parked for good or comes back when no delivery of it can lose the task |
| Safety.StepKeepsInv | internal/task/memory/task.go:131-285 | every step, with faults, keeps the invariant |
| Safety.ReachableInv | internal/task/memory/task.go:131-285 | the invariant holds in every reachable state |
| Guarantees.NoTaskIsLost | internal/task/memory/task.go:162-235 | in every reachable state an accepted well-formed task has a standing copy in a queue, with a worker, or done |
| Guarantees.SubmittedOnce | internal/task/memory/task.go:304-320 | in every run, every task was handed over by one of the steps, and is recorded with the fields handed over, and the time of that step as its creation time if it had none; it is accepted exactly if that publish was confirmed |
| Guarantees.SubmitIsRecorded | internal/task/memory/task.go:304-320 | and every step that hands over a signature that can be marshalled is so recorded, for good |
| Guarantees.PriorityIsCarried | internal/broker/amqp/broker.go:124-130 | in every run, messages carry the submitted priority: all of them for a document, only the submission itself in header form, where later ones have 0 |
| Guarantees.CalmExpirations | internal/broker/amqp/broker.go:405-408 | in every run of a task with a priority of at most 1 and no submitted ETA, only the delayed queue holds expirations, those of retries are 1 to 10000 ms, and messages to the failed and the timeout queue have none |
| Losses.AlwaysKeptIff | internal/broker/amqp/broker.go:399-417 | a submission has a kept copy in every state of every run if and only if it is well formed: it is stored, its time-to-live is waited for in the delayed queue, and no delivery after that can time out before the ETA, find the task unregistered, or fail into a publish that does not wait for its time-to-live |
| Losses.ScheduledElsewhereIsLost | internal/broker/amqp/broker.go:132-139 | a run in which a confirmed task with an unbound key, or a time-to-live and a key other than the delayed queue's, has no copy left |
| Losses.HurriedIsLost | internal/task/memory/task.go:247-285 | a run in which a hurried task fails just before its deadline, comes back late and is dropped from the timeout queue |
| Losses.EarlyTimeoutIsLost | internal/task/memory/task.go:247-256 | a run in which a task that passes its deadline before its ETA is dropped from the timeout queue |
| Losses.ExpiringFailureIsLost | internal/task/memory/task.go:262-274 | a run in which a task without retries and with a time-to-live on its failure is dropped from the failed queue |
| Losses.EarlyStallIsLost | internal/task/memory/task.go:276-284 | a run in which retry 50 in header form is published before its ETA, without a key, and stored nowhere |
| Guarantees.ConfirmedSubmissionIsStoredIff | internal/broker/amqp/broker.go:132-139 | a confirmed submission has a copy if and only if it has no key and no pending ETA, or a bound key |
| Guarantees.TruncationIsEarly | internal/task/memory/task.go:337-340 | second-truncation of the creation time moves the deadline earlier, by less than a second |
| Guarantees.NoLateStart | internal/task/memory/task.go:238-245 | no execution starts at or after submitted creation time plus timeout, over all retries and redeliveries |
| Guarantees.TimesOutIff | internal/task/memory/task.go:238-245 | a delivery goes to the timeout queue if and only if it has a timeout and a creation time and the one has passed since the other; otherwise it is started if it is registered |
| Guarantees.TimedOutOnlyWhenLate | internal/task/memory/task.go:238-256 | a task is in the timeout queue only at or after its submitted creation time plus its timeout, less at most a second in header form, and does not time out again there |
| Guarantees.UndatedTimesOutLate | internal/task/memory/task.go:304-320 | a task handed over without a creation time is there only at or after the time of the submission plus its timeout, likewise |
| Guarantees.NoEarlyStart | internal/broker/amqp/broker.go:410-413 | no execution of a task scheduled through the delayed queue starts before its time-to-live is over, and so none a millisecond or more before its ETA unless it trades its delay for priority |
| Guarantees.IdentityIsKept | internal/task/memory/task.go:304-314 | UUID, name and everything else but the retry fields are those of the submission in every copy, and the creation time is set once |
| Guarantees.QueuesFitReasons | internal/task/memory/task.go:258-285 | failed, timed-out and retried copies are in the failed, the timeout, and the delayed or task queue |
| Guarantees.RunsAddUp | internal/task/memory/task.go:205-235 | executions on the way to one copy equal retries done plus deliveries given back after an execution plus stalls plus the open one; no stalls up to 49 retries |
| Guarantees.RunsAreBounded | internal/task/memory/task.go:258-285 | on the way to one copy of a task that allows at most 49 retries at most one execution more than retries left, not counting those put back; exactly that many to a copy in the failed queue |
| Tallies.RepublishPays | internal/task/memory/task.go:258-285 | with what a republish stores the copies of a task have less ahead of them than before, unless the publish fails or doubles the task |
| Tallies.StepBalances | internal/task/memory/task.go:131-285 | no step, with a handling that outlives its channel among them, lets a task use more executions or steps than its allowance and its faults give it |
| Executions.StartsAreBounded | internal/task/memory/task.go:258-285 | after any run the log holds at most (retries left + 1) * (1 + times doubled) + executions put back of a task with at most 49 retries; a delivery that comes back while its worker goes on doubles |
| Executions.MovesAreBounded | internal/task/memory/task.go:258-285 | such a task takes at most (8 * retries left + 8) * (1 + times doubled) + 6 * faults steps in any run, so it ends if its faults do |
| Repeats.StartsBoundIsMet | internal/task/memory/task.go:205-235 | for every retry count up to 49 and every number of doublings a run that starts a task exactly as often as the bound allows |
| Endings.LeavesIff | internal/broker/amqp/broker.go:225-235 | a copy in the delayed, the failed or the timeout queue can leave it in some run if and only if neither it nor any copy before it there lacks an expiration |
| Endings.NeverStuck | internal/task/memory/task.go:94-236 | a copy that is not at rest has a step without a fault, or the head of its queue has, at the latest when its expiration is over |
| Endings.SmoothAdvances | internal/task/memory/task.go:131-285 | a step without a fault takes no task further from its end, and a task whose copy takes it nearer, however many retries it allows |
| Endings.ComesToRest | internal/task/memory/task.go:131-285 | from every reachable state, steps without faults bring all copies of any task to rest: over, or held up in a queue by a message without an expiration |
| Endings.EveryTaskCanEnd | internal/task/memory/task.go:131-285 | an accepted well-formed task then has succeeded, rests in the failed or the timeout queue, or is held up in the delayed queue at or behind a message without an expiration, however many retries it allows |
| Guarantees.ExpirationsAreDelays | internal/broker/amqp/broker.go:399-417 | expirations of well-formed tasks occur only in the delayed queue; those of retries are 1 to 10000 ms and end less than a millisecond before the ETA, as do all if that of the submission does |
| ExactlyOnce.StepKeepsAtMostOne | internal/task/memory/task.go:131-285 | a step that does not double a task never makes a second standing copy of it |
| ExactlyOnce.ExactlyOneCopyStands | internal/task/memory/task.go:131-285 | after any run that did not double an accepted well-formed task, exactly one copy stands for it, and it is kept |
| ExactlyOnce.FaultFreeDoublesNothing | internal/task/memory/task.go:131-285 | a run without lost workers, lost channels and false error reports doubles no task |
| ExactlyOnce.ReachableCountsWell | internal/task/memory/task.go:205-235 | unless a task was doubled, its standing copy counts the executions in the log and those that were put back |
| ExactlyOnce.StartsAddUp | internal/task/memory/task.go:205-235 | unless a task was doubled, its executions in the log are its retries done plus those put back plus stalls plus the open one |
| ExactlyOnce.FailedAfterAllRetries | internal/task/memory/task.go:258-274 | such a task is in the failed queue after exactly its retries plus one executions, not counting those put back |
| RetryRuns.RuleRunIs | internal/task/memory/task.go:258-298 | the abstract rule waits up to its limit or 49 times, counting up, and then fails or stalls for good |
| RetryRuns.HopFollowsRule | internal/task/memory/task.go:258-285 | one failure of the code, with encoding and decoding, is one step of the abstract rule |
| RetryRuns.RunFollowsRule | internal/task/memory/task.go:258-285 | every run of failures is a run of the abstract rule, in destinations and counters |
| RetryRuns.FailsFinallyIff | internal/task/memory/task.go:262-274 | hop i goes to the failed queue if and only if at most 49 retries are allowed and i is their number; all earlier ones wait |
| RetryRuns.PromptRunFails | internal/task/memory/task.go:276-284 | a full run to the failed queue exists whenever retries are published promptly |
| RetryRuns.WireFormsAgree | internal/broker/amqp/broker.go:145-185 | up to 49 retries, and of more for the first 49 hops, destinations are the same in whichever wire forms; received counters are so throughout |
| RetryRuns.WireFormsAgreeIff | internal/broker/amqp/broker.go:145-185 | of two failing runs in different wire forms hop i goes to the same queue if and only if at most 49 retries are allowed or i is below 49 |
| RetryRuns.RetryFiftyStalls | internal/task/memory/task.go:276-284 | retry 50 resends the same signature: in header form to the task queue, or nowhere with its ETA ahead; as a document to the delayed queue, to leave it exactly if it is hurried or its ETA is ahead |
| RetryRuns.StallsForEver | internal/task/memory/task.go:276-284 | if it comes back from retry 50, there are failing runs of every length, none of which gets to the failed queue |
| RetryRuns.RetryExpiresIff | internal/broker/amqp/broker.go:399-417 | a retry expires once it is at the head of the delayed queue if and only if it has a priority above 1, a timeout and a creation time, or is published at least a millisecond before its interval ends; its time-to-live is 5 ms in the first case, else what is left, 1 to 10000 ms |
| RetryRuns.FailedMessageExpiresIff | internal/broker/amqp/broker.go:399-417 | a message to the failed queue expires if and only if its task has an ETA that is a millisecond ahead, or an ETA, a timeout, a creation time and a priority above 1, and in this case after 5 ms |
| RetryRuns.TimeoutMessageExpiresIff | internal/task/memory/task.go:247-256 | a message to the timeout queue expires if and only if its ETA is a millisecond ahead, after what is left until then |
| DelayLine.EntersAs | internal/broker/amqp/broker.go:132-136 | the j-th delayed message was put in by one step, at its time, and expires its time-to-live later, or never without one |
| DelayLine.LeavesAt | internal/task/memory/task.go:287-298 | a delayed message leaves at the latest expiry up to its own, so never before its own and at most 10 s after it came in |
| DelayLine.LeavesInTime | internal/task/memory/task.go:287-298 | a message does leave within 10 s after it came in when neither its time-to-live nor one before it exceeds that |
| DelayLine.UnexpiringBlocks | internal/broker/amqp/broker.go:225-235 | a delayed message without an expiration holds up everything behind it |
| PoolModel.ActKeepsInv | internal/provider/amqp.go:322-437 | every pool step keeps ownership, slot count and growth bound |
| PoolModel.ReplaceRestores | internal/provider/amqp.go:322-344 | a watcher whose dial succeeds leaves an open, never dialled connection in the place of its dead one and all else as it was; if the dial fails, or the dead one is not idle, nothing changes |
| PoolModel.PoolIsSafe | internal/provider/amqp.go:322-437 | under every interleaving nothing is idle twice or idle and lent, no open connection is leaked, idle + lent + lost slots = size * (1 + refills), and idle + lent <= size + callers - 1 |
| PoolModel.LentToOneCaller | internal/provider/amqp.go:370-400 | a connection is handed out open and to nobody who shares it |
| PoolModel.LentUntilGivenUp | internal/provider/amqp.go:134-196 | a borrowed connection stays lent through any run of allowed steps until its borrower gives it up |
| PoolBounds.BoundIsReached | internal/provider/amqp.go:370-437 | size + callers - 1 is reached, for every size and number of callers |
| PoolBounds.RoundsRotate | internal/provider/amqp.go:346-400 | with all connections open, get and release rotate the pool, and as many rounds as connections restore it |
| Pool.AmqpProvider.CreateConnectionPool | internal/provider/amqp.go:275-311 | all or nothing: a full new pool, or the old one with every connection opened meanwhile closed; for a new provider it establishes the pool's invariant |
| Pool.AmqpProvider.RefillConnectionPool | internal/provider/amqp.go:402-437 | the same for a refill, which also closes what was idle |
| Pool.AmqpProvider.GetConnectionFromPool | internal/provider/amqp.go:372-400 | takes the first connection, or a new one for it if it has died, or the first of a whole new pool; what it returns is open and not lent |
| Pool.AmqpProvider.ReleaseConnectionToPool | internal/provider/amqp.go:347-368 | appends the connection, or a new one if it has died; it fails only if that dial fails |
| Pool.AmqpProvider.DiscardConnection | internal/provider/amqp.go:121-132 | closes the connection and leaves the pool as it is |
| Pool.AmqpProvider.ReplaceDeadConnection | internal/provider/amqp.go:322-344 | where the dead connection is found a new one takes its place if the dial succeeds; otherwise nothing changes, and nothing is dialled if it is not there |
| Pool.AmqpProvider.FinishPublish | internal/provider/amqp.go:142-196 | in any valid state in which the connection is still lent, gives it up, released after a confirm and closed after an error |
| Pool.AmqpProvider.OtherStep | internal/provider/amqp.go:322-437 | any step of another caller, a watcher or a dying connection is an allowed step of the machine and leaves a borrowed connection alone |
| Pool.AmqpProvider.PublishWithConfirm | internal/provider/amqp.go:134-196 | gives up the connection it borrowed on every path, released or closed, whatever allowed steps others take in between, and succeeds exactly when it got one, a channel and a confirm |
| Pool.AmqpProvider.DialAll | internal/provider/amqp.go:281-298 | a whole pool of new connections, or none: at the first failed dial every one before it is closed |
| WorkerGroup.Dispatcher.constructor | internal/workergroup/workergroup.go:33-48 | all workers free, nothing dispatched |
| WorkerGroup.Dispatcher.Offer | internal/workergroup/workergroup.go:73-79 | chooses the next worker in turn, free or not |
| WorkerGroup.Dispatcher.Take | internal/workergroup/workergroup.go:63-70 | the chosen worker, when free, receives the job, and every worker has then received exactly the jobs numbered with its remainder, in order |
| WorkerGroup.Dispatcher.AssignJob | internal/workergroup/workergroup.go:73-81 | ends with the job received by the next worker in turn, whichever busy workers finish while it blocks |
| WorkerGroup.Dispatcher.UnfinishedJobs | internal/workergroup/workergroup.go:63-81 | jobs dispatched and not finished are one for each busy worker and the one in the dispatcher's hand, so at most the concurrency and that one |
| WorkerGroup.SharesAreEven | internal/workergroup/workergroup.go:77 | after q turns and r jobs workers 1 to r have q + 1 jobs and the others q |
| WorkerGroup.ShareAt | internal/workergroup/workergroup.go:77-80 | which job is the j-th of a worker |

## Left out

- AlwaysKeptIff: leaves open only hurried tasks with retries left that are submitted with 50 or more (or a negative number of) retries done, or with a timeout too long for a duration (292 years).
- StartsAreBounded: is for at most 49 retries, as is `MovesAreBounded`; with more there is no bound (`StallsForEver`).
- ExactlyOneCopyStands: is not for doubled tasks, which do have more than one copy.
- NeverStuck: any copy may be next in the task queue, whose order is not modelled; in the other queues the copies leave in the order of publishing.
- The connection watchers themselves: after a release replaces a dead connection the code watches the dead one, so a watcher's step is only ever one that may happen.
- Dialling, TLS, heartbeats, channels, quality of service and the client library: the network decides each dial, a confirm has three outcomes.
- The text of JSON documents, times outside the years it can write, and foreign messages that happen to decode: a body is the document of a signature or a text that is none.
- Numbers of type float64 in headers of foreign publishers.
- The rounding of float64 seconds in the start deadline.
- The outer recovery from a panic in the registrar's own code; a panic of the task itself is a report.
- A task that runs on after its execution limit and shares the signature.
- Start, stop and signals of the worker pool; the consumer loop's other events.
- Exchanges that are not direct.
- Task registration, configuration, validation, logging, factories and the MongoDB store: they would only add easy members.
