# Verified model of the invocation protocol

This project models, in Dafny 4.11, how an invocation travels through the platform: the API request
that admits it, the Redis stream and consumer group that hold it, the workers that run it, crash and
recover it, the Pub/Sub channel that carries its reply, and the worker registry that decides who is
alive. It proves what every interleaving of those processes keeps. `dafny verify dfyconfig.toml`
checks everything.

## How it is built

Three layers, lowest first.

**The shared state and its steps, as values.** `InvocationStream.dfy` is the append-only log, the
consumer group (start, cursor, pending entries) and the five stream commands with the meanings the
code relies on. `Registry.dfy` is the heartbeat hash and the health and capacity tests. `Wire.dfy`
is the flat field list of a log entry, `Replies.dfy` the text of a reply, and `Json.dfy` the JSON
inside both. `Calls.dfy` is
one API request and the `waiters` map, subscriptions and rows around it. `Protocol.dfy` puts them
together: a `State`, the `Action`s of every process (`Tick`, `Work` for a worker, `Serve` for a
request), when each is enabled, and what it does. A run, `Behaviour(states, acts)`, is any sequence
of enabled actions: heartbeats, crashes at every point, failing Redis calls (carried out or not),
graceful stops, timers and any number of requests and workers interleave freely. States carry
history (every delivery with its time and worker, every start, result, publish and settlement) that
the theorems speak of and no step reads.

**The theorems.** `Invariants.dfy` and `Preservation.dfy` prove that every action keeps an
inductive invariant; `History.dfy` what no later state takes back. `Delivery.dfy`,
`Settlement.dfy`, `Recovery.dfy`, `Admission.dfy`, `Capacity.dfy` and `Rejections.dfy` hold the main
results, all about every state or step of every run. `Retention.dfy` is about what is not retried
while its owner lives, and `Progress.dfy` shows that from every reachable state every job can still be
begun. `Counterexamples.dfy` builds, step by step, runs that refute claims made in the code's comments.

**The classes.** `World.dfy` is the world a process acts on: it keeps the run so far, and an object
can change it only by an action the protocol enables. `WorkerService.dfy`,
`InvocationDispatchService.dfy` and `FunctionsService.dfy` are the services as imperative classes
with their own fields (`running`, `inFlight`, `heartbeatTimer`; `waiters`), loops and try/finally
order, coupled to the protocol's state; each `await` admits any steps of everybody else.
How a Redis call ends, what running a job comes to, when a heartbeat timer fires and when a worker is
asked to stop is fixed by the world's oracle and not by the methods, so a method that throws, answers
or stops must show the call, the run or the request that made it.
`WorkerRegistryService.dfy` keeps the hash as the JSON texts Redis stores; `Metrics.dfy` is the
scrape, down to the `indexOf` lookup in the flat `XINFO GROUPS` reply.

## Assumptions about the environment

- Redis commands are atomic and mean what `InvocationStream` and `Calls` say; an entry's id is its
  position in the log; the stream is never trimmed and Redis never restarts.
- One monotone clock stands for every process's `Date.now()` and for Redis's idle times.
- Worker ids and correlation ids are fresh (`crypto.randomUUID`), and all workers use one value of
  `INVOCATION_CLAIM_IDLE_MS`.
- HSET and HDEL of one worker travel on one connection, so they arrive in the order sent, or not at all.
- An execution is one outcome, success, error or timeout, after any amount of time.
- `INVOCATION_CLAIM_IDLE_MS` and `INVOCATION_DISPATCH_TIMEOUT_MS`, where set, are natural numbers, and
  a dispatch timeout is at most 2147483647: Node runs a timer with a larger or non-numeric delay after
  1 ms.
- A start-up that throws ends the worker's process, which is how Nest treats a rejected `onModuleInit`.

## Where the code differs from what is said about it

The model follows the code. Each of these has a theorem over all runs that says exactly when the
claim does hold; the lemmas of `Counterexamples` named beside them are runs that break it.

- A reclaim can take a job from a worker that is alive and running it (the comments at
  `src/worker/worker.service.ts:30-32` and `:115-123` say it cannot): `Counterexamples.ReclaimFromLiveWorker`.
  A sweep attempts a row if and only if its owner, another worker, had deregistered or had landed no
  heartbeat of the last 10000 ms when the sweep read the registry (`Recovery.AttemptsIffNoFreshBeat`);
  a claim then takes that owner's very delivery unless the listing is claimIdleMs old
  (`Recovery.ClaimIsOfSilentOwner`), so a worker whose heartbeats land in time is never robbed by a
  prompt claim (`Recovery.FreshOwnerKeepsEntry`).
- A job whose PUBLISH or XACK failed is not retried while the worker that failed lives: that worker
  skips its own rows, and the entry stays pending with it for as long as the claims granted are prompt
  and find its heartbeats fresh (`Retention.LiveOwnerKeepsFailedEntry`).
- `NO_WORKER` does not mean that nothing ran (`src/functions/functions.service.ts:136-139`):
  `Counterexamples.NoWorkerYetRan`. It does, now and in every continuation, if and only if the request
  found no capacity, its SUBSCRIBE threw, or its XADD threw without having been carried out
  (`Rejections.NoWorkerMeansNothingRanIff`); in every other case some continuation begins the job.
- A request can get `NO_WORKER` although its promise holds an outcome: if and only if a Redis call of
  its dispatch threw, which was then the UNSUBSCRIBE or an XADD that had been carried out
  (`Rejections.OutcomeLostIffThrew`, `Rejections.AnsweredIffNothingThrew`).
- A reply can miss a waiter that is still registered: if XADD is carried out but its answer is lost,
  `finally` unsubscribes and the waiter stays until its timer. `Counterexamples.FailedAddLosesReply`;
  a publish is queued for a registered waiter if and only if its channel is still subscribed
  (`Settlement.WakeUpIffSubscribed`), which it is unless that XADD threw (`Settlement.NoLostWakeUp`).
- A request past the 404 and 409 checks can end with no row: `hasSpareCapacity` is called outside the
  `try`. `Counterexamples.FinishedWithoutRow`; a finished request has its row if and only if its
  registry read did not throw (`Settlement.OneRowEach`, `Rejections.ServerErrorIffRegistryThrew`).
- Admission can exceed the fleet's capacity: `Counterexamples.AdmissionExceedsCapacity`. Counting as
  demand every job let through that is unacknowledged and in no live worker's hands, and as free every
  worker that is alive, in its loop, not told to stop and with nothing in hand, an admission fits if
  and only if fewer jobs needed a worker than were free by what they had done since they were booted
  (`Capacity.AdmissionFitsIff`). The worker an admission rests on is free if and only if by then it has
  begun its loop, and since its heartbeat it neither crashed nor was told to stop, and every message it
  had or took has ended (`Capacity.WitnessIsFreeIff`); where no other worker is free, the admission fits if and only if that
  holds and no other job needs a worker.
- The field-list lookup misreads a job if and only if its image tag is `event`, `timeoutMs` or
  `memoryMb` (`Wire.RoundTrip`). No tag that reaches invoke is one of these: the references the build
  service stores (`src/build/local-docker-build-executor.ts:33`, `src/build/codebuild-executor.ts:45`)
  hold a colon, and such jobs all round-trip (`Wire.ReferencesRoundTrip`).
- The queue-depth gauge shows 0 when Redis reports a nil lag: `Counterexamples.NilLagHidesBacklog`; it
  is the lag if and only if Redis told it or it is 0 (`Metrics.GaugeIsLag`).

## Model

| member | source | states |
|---|---|---|
| Wire.DecodesValues | src/invocation/invocation-dispatch.service.ts:94-101 | of every pair list dispatch writes, timeout and memory are read back, and the event as it was sent, or {} if it was null, unless the tag is a later field name |
| Wire.DecodeNames | src/worker/worker.service.ts:152-154 | correlation id and image tag are read back for every job, since no UUID is a key |
| Wire.LaterKey | src/worker/worker.service.ts:166-168 | each value field is found in its own place unless the tag reads like its key |
| Wire.TagShadowsKey | src/worker/worker.service.ts:152 | a tag that is a later key makes that key's lookup return the text "event" |
| Wire.RoundTrip | src/worker/worker.service.ts:152-169 | a worker decodes the id, tag, event as sent ({} for null), timeout and memory that dispatch encoded if and only if the tag is no later field name |
| Wire.ReferencesRoundTrip | src/build/codebuild-executor.ts:45 | every job whose tag is an image reference, which holds a colon, is decoded as it was sent, its event {} only if it was null |
| Wire.ChannelNames | src/worker/invocation-stream.constants.ts:10-12 | a reply channel is the 18 characters invocation-result: and then the id |
| Wire.ChannelsDiffer | src/worker/invocation-stream.constants.ts:10-12 | two correlation ids never share a reply channel |
| Json.ReadPrintedNat | src/worker/worker.service.ts:167-168 | Number(String(n)) is n for every natural number |
| Json.ParseText | src/worker/worker.service.ts:166 | JSON.parse(JSON.stringify(v)) is v, for nested objects, arrays, escaped strings, integers and numbers with fraction or exponent |
| Json.ParsedStart | src/worker/worker.service.ts:166 | a compact text that JSON.parse accepts starts like a JSON value, so no field name is one |
| Replies.ReadBack | src/worker/worker.service.ts:190 | the outcome the message handler parses is the one the worker published, whatever its result or error text |
| InvocationStream.DeliveriesApart | src/worker/worker.service.ts:142-144 | the j-th delivery of an entry is at least j - i idle periods after the i-th |
| InvocationStream.BoundedStarts | src/worker/worker.service.ts:142-147 | no delivery is handled twice, and deliveries number at most 1 + floor(age / claimIdleMs) |
| InvocationStream.Partition | src/worker/worker.service.ts:79-149 | acknowledged, pending and undelivered ids are disjoint and together are all ids from the group's start |
| InvocationStream.Conservation | src/metrics/metrics.controller.ts:39-55 | lag + pending + acknowledged equals the entries appended since the group's start |
| InvocationStream.ListsLowestIdle | src/worker/worker.service.ts:127-131 | XPENDING lists an id if and only if it is idle and fewer than ten idle ids are below it |
| InvocationStream.RowsFrom | src/worker/worker.service.ts:127-131 | every row is a pending idle entry with its present owner and delivery count |
| Calls.CallAfterOk | src/invocation/invocation-dispatch.service.ts:60-106 | every step of a request keeps: waiting iff unsettled, subscribed throughout the try, no entry before the subscribe, first publish resolves |
| Calls.CallStepTableOk | src/functions/functions.service.ts:190-216 | every step keeps: one row per request finished without the escaping error, and it says SUCCESS, TIMEOUT or ERROR exactly for an outcome of that kind and NO_WORKER exactly for a 503 |
| Calls.CountsSum | src/functions/functions.service.ts:129 | the four statuses share out the rows |
| Preservation.WorkInv | src/worker/worker.service.ts:49-192 | every step of a worker, crash and failing call included, keeps the invariant of the whole state |
| Preservation.ServeInv | src/functions/functions.service.ts:95-145 | every step of a request keeps it too |
| Preservation.RunInv | src/worker/worker.service.ts:35-193 | every state of every run satisfies it |
| Preservation.AuthorIsTarget | src/worker/worker.service.ts:190 | the channel decoded from a delivered entry is that of the dispatch that appended it |
| Preservation.RefusedIsDealt | src/worker/worker.service.ts:142-148 | an XCLAIM refused after the listing finds its entry acknowledged or delivered again |
| History.RunAfter | src/worker/worker.service.ts:79-192 | later states of a run keep the log, deliveries, results, acks, settled promises and rows of earlier ones |
| Delivery.BoundedDuplication | src/worker/worker.service.ts:100-149 | in every run deliveries of one entry are claimIdleMs apart and at most 1 + floor((now - first delivery) / claimIdleMs) executions have begun |
| Delivery.NoLostJob | src/worker/worker.service.ts:79-149 | in every reachable state undelivered, pending (each with one booted owner) and acknowledged entries partition the log from the group's start |
| Delivery.IdleIffOverdue | src/worker/worker.service.ts:127-144 | in every state an entry can be listed and claimed if and only if it was delivered, is not acknowledged, and its last delivery is claimIdleMs old |
| Delivery.AckedIsFinal | src/worker/worker.service.ts:191 | an acknowledged entry is never pending, delivered or claimed again |
| Delivery.ReplyBeforeAck | src/worker/worker.service.ts:190-191 | at every XACK, by an owner or not, the entry's run has an outcome and its own dispatch's channel has carried it |
| Delivery.OnlyAckAcks | src/worker/worker.service.ts:191 | nothing but such an XACK acknowledges an entry |
| Delivery.AckedWasAnswered | src/worker/worker.service.ts:151-192 | in every state an acknowledged entry was executed and answered on its own channel |
| Delivery.AdmittedIsDeliverable | src/functions/functions.service.ts:102-119 | every entry appended through invoke lies at or after the group's $ start, because a worker makes the group before its first heartbeat |
| Delivery.LagBalances | src/metrics/metrics.controller.ts:39-55 | in every state the lag is the number of never-delivered entries, and lag + pending + acked is what was appended |
| Delivery.LagMoves | src/metrics/metrics.controller.ts:39-55 | an append raises the lag by one, a first delivery lowers it by one, nothing else moves it |
| Settlement.SubscribeComesFirst | src/invocation/invocation-dispatch.service.ts:88-92 | until the subscribe has completed no entry carries the id and nothing has been published for it |
| Settlement.NoLostWakeUp | src/invocation/invocation-dispatch.service.ts:60-106 | an outcome published for a registered waiter stays queued for it until it is settled, unless this dispatch's XADD threw after being carried out |
| Settlement.WakeUpIffSubscribed | src/invocation/invocation-dispatch.service.ts:103-105 | a publish is queued for a registered waiter if and only if its channel is still subscribed; if not, its XADD had thrown |
| Settlement.WaitersAreUnsettled | src/invocation/invocation-dispatch.service.ts:32-74 | a channel is in waiters if and only if its promise is unsettled |
| Settlement.SettledOnce | src/invocation/invocation-dispatch.service.ts:38-74 | duplicates, late messages and the uncleared timer change nothing once a promise is settled |
| Settlement.SettledByFirstOrTimer | src/invocation/invocation-dispatch.service.ts:38-74 | it settles with the first outcome published or, at or after its deadline, by the timer |
| Settlement.TimerEndsWaiting | src/invocation/invocation-dispatch.service.ts:69-73 | whatever subscribe and XADD came to, a waiter at its deadline can be removed by its timer, which rejects it |
| Settlement.DeadlineIs | src/invocation/invocation-dispatch.service.ts:63-74 | in every state a waiter's deadline is the configured dispatch timeout after its registration, or the job's own timeout and 5000 ms |
| Settlement.OwnOutcome | src/invocation/invocation-dispatch.service.ts:60-106 | the outcome an invoke returns came from a worker that decoded this dispatch's own entry: its image tag, its event ({} for null), its timeout and memory |
| Settlement.AnswersDoNotMix | src/invocation/invocation-dispatch.service.ts:61-62 | the runs behind two dispatches' answers are of different entries |
| Settlement.AnswerTakesTurns | src/worker/worker.service.ts:142-144 | an answer from the n-th redelivery comes at least n idle periods after the promise was made |
| Settlement.AnswerFitsDeadline | src/invocation/invocation-dispatch.service.ts:63-74 | with exact timers a run after n reclaims can resolve its dispatch only if n * claimIdleMs fits the configured timeout, or the job's own and 5000 ms |
| Settlement.ShortJobsFirstDelivery | src/invocation/invocation-dispatch.service.ts:15 | with the default constants a function of timeoutMs < 3000 is answered by its first delivery or not at all |
| Settlement.OneRowEach | src/functions/functions.service.ts:95-145 | a finished request has exactly one row if and only if its response is not the escaping error; the row says SUCCESS, TIMEOUT or ERROR exactly when the caller got an outcome of that kind, NO_WORKER exactly when it got either 503 |
| Rejections.ServerErrorIffRegistryThrew | src/functions/functions.service.ts:102 | a finished request reports the escaping error if and only if its registry read threw |
| Rejections.AnsweredIffNothingThrew | src/invocation/invocation-dispatch.service.ts:92-105 | a finished request returned an outcome if and only if its promise was resolved and none of SUBSCRIBE, XADD and UNSUBSCRIBE threw |
| Rejections.OutcomeLostIffThrew | src/invocation/invocation-dispatch.service.ts:93-105 | a request whose promise was resolved ends as NO_WORKER if and only if one of those calls threw, never one that kept the entry out of the log |
| Rejections.NoEntryIff | src/invocation/invocation-dispatch.service.ts:92-101 | a request turned away has no entry if and only if it found no capacity, its SUBSCRIBE threw, or its XADD threw without being carried out |
| Rejections.StillSubscribedIff | src/invocation/invocation-dispatch.service.ts:92-105 | a finished request's channel is still subscribed if and only if its SUBSCRIBE threw after being carried out or its UNSUBSCRIBE threw without being carried out |
| Rejections.NoWorkerMeansNothingRanIff | src/functions/functions.service.ts:135-145 | the job of a request turned away with NO_WORKER never begins, now or in any continuation, in exactly those three cases |
| Progress.CanBegin | src/worker/worker.service.ts:89-192 | from every reachable state, whatever crashed or failed, some continuation begins the handling of any entry from the group's start on |
| Progress.GetsTo | src/worker/worker.service.ts:89-192 | a worker alone gets to every entry not yet acknowledged, and by then every entry of the group before it has been acknowledged |
| Settlement.BackpressureAppendsNothing | src/functions/functions.service.ts:102-105 | a request rejected for lack of capacity has put nothing into the stream and registered no waiter |
| Settlement.TotalsBalance | src/functions/functions.service.ts:190-216 | in every state each status total is the number of finished requests with such a response, and the four sum to all that got to record |
| Recovery.HealthyIffFreshBeatLanded | src/worker-registry/worker-registry.service.ts:35-50 | judged at any time, a worker in the registry of any state is healthy if and only if it had not deregistered and a heartbeat stamped in the 10000 ms before that time had landed |
| Recovery.RunUpIsListed | src/worker/worker.service.ts:49-57 | a worker is in the registry from its first heartbeat's landing until it deregisters |
| Recovery.CrashedStaysUnhealthy | src/worker-registry/worker-registry.service.ts:20-50 | a crashed worker is listed unhealthy from 10001 ms after its last heartbeat, for ever |
| Recovery.DeadOwnsNoMore | src/worker/worker.service.ts:124-149 | what a dead worker owns later it owned all along, with no delivery in between |
| Recovery.AttemptsIffNoFreshBeat | src/worker/worker.service.ts:134-139 | a sweep attempts a row if and only if its owner is another worker that by the sweep's HGETALL had deregistered or landed no heartbeat of the last 10000 ms |
| Recovery.ClaimIsOfSilentOwner | src/worker/worker.service.ts:137-148 | every XCLAIM granted takes the delivery its sweep's XPENDING listed, from such a silent owner, unless the entry was delivered again since and the listing is at least claimIdleMs old |
| Recovery.PromptClaimIsSafe | src/worker/worker.service.ts:127-148 | a claim granted within claimIdleMs of its XPENDING takes the very delivery listed, from another worker with no fresh heartbeat by the HGETALL |
| Recovery.FreshOwnerKeepsEntry | src/worker/worker.service.ts:115-149 | a worker that had not deregistered and had a heartbeat of the last 10000 ms landed by the HGETALL loses no entry to a prompt claim |
| Recovery.OnlyLowestAreClaimed | src/worker/worker.service.ts:127-144 | a worker claims only an id that one of its own listings had among the ten lowest idle ones |
| Recovery.TenLowerIdsStarve | src/worker/worker.service.ts:127-131 | while ten lower ids are idle at each of a worker's listings, it never claims the id above them |
| Recovery.SweepRecovers | src/worker/worker.service.ts:124-149 | a sweep without Redis errors, listed late enough after a crash, leaves none of the listed entries with the crashed worker |
| Recovery.SweepIsProgress | src/worker/worker.service.ts:124-149 | such a sweep takes everything it listed off the crashed worker for good and nothing is added, so whatever it holds strictly shrinks if anything of it was listed |
| Retention.LiveOwnerKeepsFailedEntry | src/worker/worker.service.ts:137-139 | an entry its owner no longer has in hand stays pending with that owner and is delivered to nobody, as long as the claims granted are prompt and find the owner's heartbeats fresh |
| Retention.FailureLeavesEntry | src/worker/worker.service.ts:190-191 | a PUBLISH or XACK that throws, by the one worker with the entry in hand, leaves the entry so |
| Admission.AdmissionIsRecent | src/worker-registry/worker-registry.service.ts:43-55 | a request is admitted only if some worker was alive with inFlight < capacity at an instant of the last 10000 ms |
| Capacity.RunReckoned | src/worker/worker.service.ts:49-192 | whether a worker is alive, in its loop and has a message in hand follows from any earlier state by what it did since: crashes, the loop's begin, stops, and messages taken and let go |
| Capacity.FreeIff | src/worker/worker.service.ts:59-68 | a worker is alive, in its loop, not told to stop and empty-handed if and only if that follows from what it did since any state it was in |
| Capacity.NoIterationAfterStop | src/worker/worker.service.ts:60-90 | a worker that has been told to stop begins no further iteration of its loop, in any continuation |
| Capacity.WitnessIsFreeIff | src/worker-registry/worker-registry.service.ts:52-55 | the worker an admission rests on can take on a job if and only if it has begun its loop and, since the heartbeat, neither crashed nor was told to stop, and ended every message it had or took |
| Capacity.AdmissionFitsIff | src/functions/functions.service.ts:97-105 | an admission leaves no more jobs needing a worker than workers free if and only if fewer needed one than were free by their history; with no other free worker, if and only if no other job needs one and the worker it rests on is free by what it did since its heartbeat |
| Admission.OwnsOnlyItsTask | src/worker/worker.service.ts:100-192 | without Redis errors a worker owns at most the entry it is handling |
| Admission.CleanLoopHead | src/worker/worker.service.ts:89-98 | and at its loop head it owns nothing and has nothing in flight |
| Admission.InFlightIsOneOrNone | src/worker/worker.service.ts:162-175 | inFlight is 1 exactly while a job executes, errors or not, so no heartbeat reports more than the capacity |
| Admission.DrainedBeforeDeregister | src/worker/worker.service.ts:59-68 | a graceful shutdown deregisters owning nothing, and the worker is neither listed nor an owner ever after |
| Counterexamples.ReclaimFromLiveWorker | src/worker/worker.service.ts:115-149 | a run in which a claim is granted against a worker that is alive and executing the job |
| Counterexamples.NoWorkerYetRan | src/functions/functions.service.ts:135-145 | a run in which the one row says NO_WORKER although the job was executed |
| Counterexamples.FailedAddLosesReply | src/invocation/invocation-dispatch.service.ts:93-105 | a run in which a published outcome misses its registered waiter |
| Counterexamples.FinishedWithoutRow | src/functions/functions.service.ts:102 | a run in which a request past its checks ends with no row |
| Counterexamples.AdmissionExceedsCapacity | src/functions/functions.service.ts:97-105 | a run in which two requests are admitted on one free slot |
| Counterexamples.NilLagHidesBacklog | src/metrics/metrics.controller.ts:53-54 | a run with one unread job behind two or more older entries, for which Redis cannot tell the lag and the gauge shows 0 |
| WorkerServices.WorkerService.constructor | src/worker/worker.service.ts:35-47 | a new process under a fresh id: not running, nothing in flight, no timer |
| WorkerServices.WorkerService.OnModuleInit | src/worker/worker.service.ts:49-57 | starts if and only if neither of its two calls went wrong: then it is at the loop, the group made, the worker registered, timer and running set; otherwise the process has ended and its loop never ran |
| WorkerServices.WorkerService.EnsureConsumerGroup | src/worker/worker.service.ts:79-87 | throws if and only if the XGROUP CREATE itself went wrong, whether or not the group was already there; otherwise the group exists |
| WorkerServices.WorkerService.SendHeartbeat | src/worker/worker.service.ts:70-77 | sends one heartbeat with this moment's inFlight and clock |
| WorkerServices.WorkerService.BeginShutdown | src/worker/worker.service.ts:60-61 | at any await: no more running, no more heartbeats, and nothing else changes |
| WorkerServices.WorkerService.Turn | src/worker/worker.service.ts:53-61 | at a step of an await a heartbeat is sent if the timer fires, else the shutdown begins if a stop is asked for |
| WorkerServices.WorkerService.Await | src/worker/worker.service.ts:53-61 | in all of an await a heartbeat is sent whenever the timer fires, and the shutdown begins whenever else a stop is asked for; the worker stays where it is in its code |
| WorkerServices.WorkerService.OnModuleDestroy | src/worker/worker.service.ts:62-68 | once the loop has ended, the worker ends deregistered, or, only if the HDEL goes wrong, ended all the same; either way owning no entry unless a Redis call in its loop had failed |
| WorkerServices.WorkerService.Execute | src/worker/worker.service.ts:162-175 | the message ends with inFlight back at 0 and the outcome that running the decoded job gave; an event that does not parse is an error of duration 0 |
| WorkerServices.WorkerService.HandleMessage | src/worker/worker.service.ts:151-192 | unless a Redis call throws, the entry is acknowledged and its own dispatch's channel carried, in this very delivery, the outcome that running its decoded job gave |
| WorkerServices.WorkerService.ListStale | src/worker/worker.service.ts:125-132 | the rows are XPENDING's at one moment of the call; no rows lead straight to the read |
| WorkerServices.WorkerService.CopyRegistry | src/worker-registry/worker-registry.service.ts:44 | the copy is the registry at one moment of the call |
| WorkerServices.WorkerService.HealthyWorkers | src/worker/worker.service.ts:134-135 | exactly the workers healthy by the copy read, at the clock after its answer |
| WorkerServices.WorkerService.XClaim | src/worker/worker.service.ts:142-144 | granted, the row's entry is a new delivery to handle; refused, the next row is next |
| WorkerServices.WorkerService.SweepRows | src/worker/worker.service.ts:137-148 | unless a Redis call throws it comes to the last row, and every row of neither its own nor a healthy owner is then acknowledged or delivered again |
| WorkerServices.WorkerService.ReclaimFromDeadWorkers | src/worker/worker.service.ts:124-149 | rows are XPENDING's and healthy the workers healthy by the HGETALL of this very call; unless a Redis call throws, every row of an unhealthy other owner ends acknowledged or delivered again |
| WorkerServices.WorkerService.ReadNext | src/worker/worker.service.ts:101-107 | reads once: the entry at the group's cursor, never delivered before, or nothing if and only if there was none to read |
| WorkerServices.WorkerService.ReadAndProcessOnce | src/worker/worker.service.ts:100-113 | unless a Redis call throws, it reads once and the entry it read, if any, is acknowledged when it ends; always back at the loop head with nothing in flight |
| WorkerServices.WorkerService.Iterate | src/worker/worker.service.ts:90-97 | unless one of this worker's Redis calls failed in it, an iteration listed what is idle, read once after that, and acknowledged what it read; whatever was thrown, it ends at the loop head with nothing in flight |
| WorkerServices.WorkerService.Loop | src/worker/worker.service.ts:89-98 | it runs on until asked to stop; unless one of its Redis calls fails, it reads at least once for each iteration it runs on, and the first lists, reads and acknowledges what it read; it ends at its head, owning nothing unless a Redis call had failed |
| DispatchServices.MirrorsSet | src/invocation/invocation-dispatch.service.ts:67-68 | setting a channel keeps the map the exact image of the registered waiters |
| DispatchServices.MirrorsDelete | src/invocation/invocation-dispatch.service.ts:39-43 | so does deleting one; no other waiter goes with it |
| DispatchServices.InvocationDispatchService.OnMessage | src/invocation/invocation-dispatch.service.ts:38-46 | takes the message out of the queue; resolves and removes a waiter still in the map with its outcome, and does nothing to the promise otherwise |
| DispatchServices.InvocationDispatchService.OnTimer | src/invocation/invocation-dispatch.service.ts:69-73 | rejects and removes a waiter still in the map, and does nothing to the promise otherwise |
| DispatchServices.InvocationDispatchService.Enroll | src/invocation/invocation-dispatch.service.ts:61-74 | the waiter is in the map under its own channel, its deadline the configured timeout from now, or the job's own and 5000 ms |
| DispatchServices.InvocationDispatchService.Subscribe | src/invocation/invocation-dispatch.service.ts:92 | a subscribe throws only if a Redis call goes wrong, and then ends the dispatch before anything is added |
| DispatchServices.InvocationDispatchService.Exchange | src/invocation/invocation-dispatch.service.ts:93-105 | the try and its finally: it throws if and only if the XADD or the UNSUBSCRIBE did, and otherwise gives the promise's settlement and leaves the channel unsubscribed |
| DispatchServices.InvocationDispatchService.AwaitResult | src/invocation/invocation-dispatch.service.ts:102 | returns the resolved outcome or the timer's rejection; a reply that is there before the deadline when the wait begins is the result |
| DispatchServices.InvocationDispatchService.Unsubscribe | src/invocation/invocation-dispatch.service.ts:103-105 | unless it throws the channel is no longer subscribed; a throw replaces the result; a settled promise stays settled |
| DispatchServices.InvocationDispatchService.Dispatch | src/invocation/invocation-dispatch.service.ts:60-106 | it fails if and only if one of its Redis calls threw; otherwise the caller gets the promise's settlement, the waiter is gone and the channel unsubscribed; an outcome is always that of a run of this job |
| FunctionsServices.FunctionsService.HasSpareCapacity | src/functions/functions.service.ts:102-105 | spare if and only if the registry read during the call holds a worker with inFlight below its capacity and a heartbeat at most 10000 ms old at a later moment of the call; a failed read escapes the try |
| FunctionsServices.FunctionsService.RecordInvocation | src/functions/functions.service.ts:190-216 | finishes the request with the response it was given, insert or no insert, and leaves a settled promise as it is |
| FunctionsServices.FunctionsService.Accounts | src/functions/functions.service.ts:95-146 | one row of the status of its response or none, an own outcome, an empty-handed rejection, and for a lost reply exactly when nothing ever runs |
| FunctionsServices.FunctionsService.Invoke | src/functions/functions.service.ts:71-146 | a failed lookup, 404 and 409 have no effect; every other request is accounted for as above, under its own job; the escaping error needs a failed Redis call, and a lost reply one or the timer |
| RegistryServices.ReadWritten | src/worker-registry/worker-registry.service.ts:35-47 | a heartbeat read from the hash is the one written |
| RegistryServices.StoredReadsBack | src/worker-registry/worker-registry.service.ts:43-49 | so is the whole registry |
| RegistryServices.StatusesIn | src/worker-registry/worker-registry.service.ts:43-50 | each registered worker once, with its heartbeat, healthy iff its heartbeat is at most 10000 ms old |
| RegistryServices.SpareIn | src/worker-registry/worker-registry.service.ts:52-55 | on any reply of texts, true if and only if some worker in it has a heartbeat at most 10000 ms old and inFlight below its capacity |
| RegistryServices.WorkerRegistryService.Heartbeat | src/worker-registry/worker-registry.service.ts:35-37 | the stored text of that worker and the protocol's registry change alike, and no other worker's |
| RegistryServices.WorkerRegistryService.Deregister | src/worker-registry/worker-registry.service.ts:39-41 | both lose that worker and no other |
| RegistryServices.WorkerRegistryService.Other | src/worker-registry/worker-registry.service.ts:33-41 | no other step of the protocol touches the stored hash or the registry it stands for |
| RegistryServices.WorkerRegistryService.ListWorkers | src/worker-registry/worker-registry.service.ts:43-50 | the statuses of the protocol's registry, read from the stored texts |
| RegistryServices.WorkerRegistryService.HasSpareCapacity | src/worker-registry/worker-registry.service.ts:52-55 | true if and only if some registered worker has a heartbeat at most 10000 ms old and inFlight below its capacity |
| Metrics.FindsOwnGroup | src/metrics/metrics.controller.ts:51-52 | the lookup finds our group's list if and only if it is there, whatever other groups are called |
| Metrics.LagIsFound | src/metrics/metrics.controller.ts:53 | in our group's list no value before lag reads "lag" |
| Metrics.GaugeIsLag | src/metrics/metrics.controller.ts:49-55 | the reported depth is the stream's lag if and only if Redis told it or it is 0 |
| Metrics.HealthyGauge | src/metrics/metrics.controller.ts:34 | the count of healthy statuses is the number of healthy workers of the registry |
| Metrics.MetricsController.GetConsumerGroupLag | src/metrics/metrics.controller.ts:49-55 | the lag of the stream at the moment Redis answered, or 0 if it could not be told |
| Metrics.MetricsController.GetMetrics | src/metrics/metrics.controller.ts:24-37 | both gauges show values true at some moment of the scrape; if either read throws, neither is set |

## Left out

- WorkerServices.WorkerService.Loop: takes a bound on its iterations, because the loop runs until a shutdown that need not come; what it ensures holds for every bound.
- WorkerServices.WorkerService.OnModuleDestroy: starts where `await this.loopPromise` is fulfilled; its statements before that are BeginShutdown, which the model may run at any await of the loop.
- WorkerServices.WorkerService.SendHeartbeat: may be called at any time once the timer is set, not every 3000 ms, so the theorems hold for every rhythm of heartbeats.
- WorkerServices.WorkerService.ReadNext: does not model the 2000 ms of BLOCK; it may return nothing only when there is nothing to read.
- Settlement.AnswerFitsDeadline: assumes timers that fire exactly at their deadline; AnswerTakesTurns is its form without that assumption.
- Wire.RoundTrip: timeoutMs and memoryMb are natural numbers, and Number() is modelled on decimal digits and the empty text.
- Json.ParsedStart: white space between tokens and escapes that JSON.stringify does not write are not read by the model's JSON.parse, which is meant for what JSON.stringify writes.
- FunctionsServices.FunctionsService.Invoke: the answers of the two database lookups are parameters.
- The duration and message stored in an invocation row, and its insert failing: a row stands for one attempt at it.
- Steps of the protocol carry an outcome as a value, not as its JSON text; Replies.ReadBack shows that nothing is lost between the two, for any result but undefined, whose key JSON.stringify drops.
- An outcome whose status is none of success, error and timeout, which a user's runtime could forge.
- Docker execution, scratch files and the runtime shim: an execution is one outcome of any duration.
- An API process crashing is a request that takes no further step; nothing is proved about its caller.
- Registration, removal and listing of functions, authentication, API keys and validation: short lookups and membership checks.
- getMetricsSummary, whose percentiles are computed inside PostgreSQL, and the worker's counters and logs.
- ECR login, object storage, the build pipeline, the relay, the CLI, NestJS wiring and deployment.
