# Claim processing: a verified model

A caller creates a claim over HTTP, a queue in Redis hands it to fraud workers, each worker takes it
through three status changes under optimistic locking, and the owner hears about every change over
a socket. This project models that protocol as one concurrent system and proves what holds in every
state any run of it can reach, for any number of callers, workers, other updaters and sockets.

## How it is put together

`ClaimSystem.dfy` is the whole service as a state machine. The state is the shared store (the
idempotency entries, pending markers, payloads, the queue list, the dead-letter list, the retry hash,
the claims table and the clock) and one program position per thread, each thread being stopped in front
of its next `await`. Every external command is one atomic step with three possible outcomes: carried
out and acknowledged (`Acked`), carried out but reported failed (`Unacked`), or never carried out and
reported failed (`Lost`). The other steps are the passage of time, which removes entries whose time to
live is over; new calls, workers, sockets and requests to join a room; the stop of a worker; the death of a caller or a worker
at any moment; and other callers of `updateClaimStatus`. `Run(Init(limit), actions)` is therefore any
interleaving at all, a lemma named `Always…` is an invariant of every one of them, and `Reachable(s)`
says that one of them leads to `s`. The `Ledger`
records what has happened (status histories with their authors, events with their audience, pushes and
pops, lapses of a key, retired and dropped tokens) and `Faults` which threads' commands were reported
failed and which workers came to an end; no branch of any thread reads either, except that identifiers are
drawn fresh.

The classes (`World`, `IdempotencyService`, `QueueService`, `ClaimServices`, `FraudWorkers`, `Gateway`,
`RateLimitService`) follow the services method by method and statement by statement. A `ClaimWorld`
couples them to the state machine: `Await` lets any other threads take any number of steps, and each
command's effect on the store's objects has to be the effect of this thread's next step
(`Record`, `RecordCreate`, `RecordWork`). A method that left a command out, swapped two or took another
branch would not meet these preconditions. In return every state the code is ever in is a reachable
state of the machine, so the invariants apply inside the methods and appear in their contracts.

| file | content |
|---|---|
| `Basics.dfy` | options and sums over sequences |
| `IdempotencyKeys.dfy` | sanitizing, key building, key isolation and the exact collisions |
| `Lifecycle.dfy` | transition table, stages, verdict |
| `ClaimSystem.dfy`, `Runs.dfy`, `Frames.dfy`, `Registry.dfy` | the state machine, runs put together, what each step leaves alone, who owns which identifier and row |
| `Accounting.dfy`, `Orphans.dfy`, `Replies.dfy`, `Wedges.dfy` | idempotent creation, and the locks that never expire |
| `Answers.dfy`, `Refusals.dfy`, `FaultReports.dfy` | what is replayed, how long a caller waits, how a failing creation is undone, what a refusal means and what it is due to |
| `Tokens.dfy`, `Retries.dfy`, `Drain.dfy`, `Backpressure.dfy`, `Overshoot.dfy` | queue, retries, drain, and the overshoot, which is attained |
| `History.dfy`, `Ownership.dfy`, `Outcomes.dfy` | optimistic locking, the single owner of a claim, how claims end |
| `Updates.dfy`, `Survival.dfy` | exactly when an update succeeds, and exactly when a worker comes to an end |
| `Stranding.dfy`, `Finishing.dfy`, `Abandonment.dfy` | claims left half-way, claims whose token is gone, and exactly which claims can still be finished |
| `Creations.dfy`, `Continuations.dfy`, `Scenarios.dfy` | runs that create a claim, runs that finish one, whole runs from the empty system |
| `Rooms.dfy` | socket rooms and event delivery |
| `RateLimit.dfy`, `RateLimitService.dfy` | the write throttle |
| `World.dfy`, `IdempotencyService.dfy`, `QueueService.dfy`, `ClaimServices.dfy`, `FraudWorkers.dfy`, `Gateway.dfy` | the services as classes |

## What came out

- `release` deletes an entry without looking whose it is, and still the claims under one key never
  outnumber the entry plus the lapses (`Accounting.ClaimsPerKey`). A lapse is an expiry of the entry, a
  completion or an insert that is reported failed, or a compensating delete that is not carried
  out. The bound is exact: for every n some run has n lapses and n claims (`Orphans.BoundIsAttained`).
- Retries are replayed: whoever comes to a complete entry, and is answered without a failing command of its
  own while the key has not lapsed, is told of the entry's claim if that is its own, under any interleaving
  (`Answers.AnsweredWithTheEntry`), and a caller that completes its entry alone is replayed for a day to its
  identity (`Answers.ReplayedForADay`). A caller whose entry stays pending gives up after twenty looks and two seconds
  (`Answers.BlockedRequestGivesUp`), even when the entry has been completed since its last look (`Answers.WakesExactly`).
- "Failed" and a bare backend error are answered if and only if a command of that very call was reported
  failed (`FaultReports.RefusedForAReason`). The entry is then released and the claim deleted, unless it was the
  insert or the completion that was reported failed (`Answers.FailureIsUndone`).
- Nothing that fails in the database ends a worker; a failing command on the queue, in the retry
  bookkeeping or in the clean-up does (`Survival.EndsExactlyBy`). A running worker that is at its end was ended
  that way or died (`Survival.HaltedForAReason`).
- Events are heard by the claim's owner only (`Rooms.EventsReachOnlyTheOwner`) and by every socket that has joined
  and stays connected (`Rooms.MembersHearEverything`).
- Every completed entry expires after a day, so the results about keys without a lapse are stated for
  any stretch of a run without one, an epoch: it begins in any reachable state with nobody inside the
  key's locked section, whatever the key has been through before (`Accounting.ClaimsPerEpoch`,
  `Accounting.OneJoinsPerEpoch`, `Replies.RepliesAgree`, `Replies.RefinesPutIfAbsent`,
  `Wedges.WedgedExactlyBy`).
- A refused caller has left a claim behind if and only if its insert or its completion was reported
  failed, or its compensating delete was not carried out (`Refusals.RefusedExactlyWithoutClaim`).
- The queue can outgrow its limit by as many callers as are past the size check together, and by the
  workers' requeues (`Backpressure.QueueBound`); for all limits and numbers of either some run gets
  there (`Overshoot.OvershootIsAttained`).
- A caller that fails between SETNX and PEXPIRE leaves an entry without a time to live. Such a key
  is stuck for ever: no later call on it is ever told of a claim (`Wedges.WedgedForEver`).
  `Wedges.WedgedExactlyBy` says which steps of an epoch do this, exactly: SETNX carried out
  on the free key but reported failed, PEXPIRE not carried out, or the caller's death in between.
  `Wedges.StuckExactlyWithoutTtl` says which idle entries are stuck, and `Wedges.WedgeReached` gets any free
  key whose locked section nobody is inside of into this state.
- Keys of different identities can coincide when an identity contains a colon;
  `IdempotencyKeys.CollisionExactlyWhenExtended` says exactly for which pairs of identities there are
  headers that collide. Even so nobody is ever told of somebody else's claim
  (`Replies.NobodyIsToldOfAnothersClaim`).
- The throttle reads the clock and increments in separate steps, and the counter's time to live is set
  from the first increment. An increment that finds the counter gone, although its window has been
  counted, starts a new allowance. One allowance per restart is all that can pass (`RateLimit.PassesPerRestart`),
  for every number of restarts and all settings some run without an error passes that many
  (`RateLimit.RestartsAreAttained`), and a used-up window can be reopened by waiting if and only if its counter is
  gone or has a time to live (`RateLimit.ReopensExactlyWithTtl`). Increments in time never restart a counter.
- A claim is stranded, half-way through its changes and driven by nobody, by exactly these steps: the
  delivery that drives it fails or dies between its first and its last change, or the first change is
  carried out but reported failed (`Stranding.StrandedExactlyBy`). The retries all ask for PROCESSING
  first, so no continuation with workers as the only updaters, however many deliveries it has, drives
  the claim any further or retires its token (`Stranding.StrandedForEver`); in a run that drops no token it
  ends in the dead-letter queue (`Stranding.StrandedEndsBuried`).
- A claim is abandoned when its token is dead-lettered, retired or lost: without redelivery by hand
  its record never changes again (`Abandonment.AbandonedForEver`), so a claim abandoned as PENDING stays
  PENDING. A stop between RPOP and GET does this (`Abandonment.AbandonedReached`), and so do failing first
  reads alone (`Abandonment.BuriedReached`).
- Not every claim, then, can still get to a verdict. Without redelivery by hand and with workers as the only
  updaters it can if and only if it has one, or a delivery is driving it, or it is PENDING and its token
  is live: a delivery has begun, or its payload is stored and the token is in the queue or in the hands of a
  worker that can deliver or requeue it, or its caller has yet to push it
  (`Finishing.FinishesExactlyWhenLive`). If claims may be put back by hand, which no code does, a claim
  with its row and payload that nobody is driving can if and only if its status is not PROCESSING or
  FRAUD_CHECKING (`Abandonment.FinishesExactlyUnlessHalfway`).
- Any request to the empty system can end up stranded (`Scenarios.StrandedFromStart`) or abandoned as
  PENDING (`Scenarios.AbandonedFromStart`).

## Model

| member | source | states |
|---|---|---|
| IdempotencyKeys.SanitizeKeepsPlaces | src/common/idempotency/claim-idempotency.service.ts:24 | place by place: the first 128 code units, each of them kept if it is a letter, a digit or one of `._:-`, and an underscore otherwise |
| IdempotencyKeys.SanitizeIsIdempotent | src/common/idempotency/claim-idempotency.service.ts:24 | sanitizing twice is sanitizing once, and it changes nothing exactly when the text was short and safe already |
| IdempotencyKeys.TrimUnwraps | src/common/idempotency/claim-idempotency.service.ts:23 | trimming takes away the ECMAScript blanks around a text that neither begins nor ends with one, and nothing else |
| IdempotencyKeys.EveryHeaderWraps | src/common/idempotency/claim-idempotency.service.ts:23 | every header is such a text with blanks around it |
| IdempotencyKeys.HeadersAgreeExactly | src/common/idempotency/claim-idempotency.service.ts:18-27 | two requests of one identity, with headers that are not blank, get the same key if and only if the trimmed headers show the same in their first 128 places |
| IdempotencyKeys.KeyIsReadable | src/common/idempotency/claim-idempotency.service.ts:26 | prefix, identity, colon and part can be read off the key at their places |
| IdempotencyKeys.FingerprintIsKept | src/common/idempotency/claim-idempotency.service.ts:23-24 | a 64-digit fingerprint passes through unchanged and is the fallback for a missing or blank header, so a key's last part is never empty |
| IdempotencyKeys.PartsAreParts | src/common/idempotency/claim-idempotency.service.ts:18-27 | every request yields a nonempty, bounded, safe part |
| IdempotencyKeys.KeyIsolation | src/common/idempotency/claim-idempotency.service.ts:18-27 | for colon-free identities two requests share a key exactly when identity and part agree |
| IdempotencyKeys.PartPassesThrough | src/common/idempotency/claim-idempotency.service.ts:23-24 | every nonempty, bounded, safe part is what some header yields: itself |
| IdempotencyKeys.CollisionExactlyWhenExtended | src/common/idempotency/claim-idempotency.service.ts:18-27 | two different identities have headers for which `buildKey` gives them the same key if and only if one continues the other after a colon, in safe characters and within the length bound |
| IdempotencyKeys.NameSpacesAreDisjoint | src/common/redis/redis-queue.service.ts:8-12 | keys built from the service's different prefixes never coincide, nor with the names of the queue, the dead-letter queue and the retry hash |
| Lifecycle.PathsAreShort | src/claim/validators/claim-status-transition.validator.ts:14-26 | every walk through the transition table has at most three steps, and a terminal status is its end |
| Lifecycle.TerminalExactlyWhenStuck | src/claim/validators/claim-status-transition.validator.ts:14-26 | the statuses without an allowed transition are exactly APPROVED and REJECTED |
| Lifecycle.CompleteWalks | src/claim/validators/claim-status-transition.validator.ts:14-26 | the walks through the table that end in a terminal status are exactly three: to REJECTED from PROCESSING, and to either verdict from FRAUD_CHECKING |
| Lifecycle.VerdictIsParity | src/claim/workers/fraud.worker.ts:141-147 | a claim is APPROVED if and only if its identifier has an even number of odd code units, and REJECTED otherwise |
| Lifecycle.VerdictTurns | src/claim/workers/fraud.worker.ts:141-147 | the empty identifier is APPROVED, and one more code unit turns the verdict just when it is odd |
| Registry.AlwaysRegistered | src/claim/claims.service.ts:74-100 | every reachable state: identifiers belong to one caller each, a caller's position says whether it has an identifier and a row, and a row's owner is its creator |
| Accounting.CommandPaid | src/claim/claims.service.ts:57-130 | whatever one command of `createClaim` adds to its caller's weight on the key is paid for by the entry or by a lapse |
| Accounting.AlwaysAccounted | src/claim/claims.service.ts:57-130 | every reachable state: claims left behind under a key plus callers inside its locked section <= the entry (0 or 1) plus lapses |
| Accounting.ClaimsPerKey | src/claim/claims.service.ts:57-130 | every reachable state: the rows created under a key number at most the entry plus all its lapses, hence at most one without a lapse |
| Accounting.RunPays | src/claim/claims.service.ts:57-130 | from any reachable state on, what any continuation adds to the weight of a key (claims left behind, callers inside) is paid for by the entry or by new lapses |
| Accounting.ClaimsPerEpoch | src/claim/claims.service.ts:57-130 | from any reachable state in which nobody is inside the key, whatever happened to it before: the rows it gains under any continuation are at most the entry gained plus the lapses in between |
| Accounting.OneJoinsPerEpoch | src/common/idempotency/claim-idempotency.service.ts:39-83 | in an epoch without a lapse at most one caller gets inside the locked section or gains a claim, and only if the key was free when the epoch began |
| Accounting.OneEngagedPerKey | src/common/idempotency/claim-idempotency.service.ts:39-83 | without a lapse at most one caller is inside the locked section or has a live claim, and then the entry is there |
| Orphans.BoundIsAttained | src/claim/claims.service.ts:77-130 | for every n and every request some run has n lapses of its key and exactly n claims under it, so the bound cannot be improved |
| Replies.AlwaysSound | src/claim/claims.service.ts:45-72 | every reachable state, lapses included: a completed entry, and any claim a caller has been or is about to be told of, names an existing row created under that key, never to be compensated away |
| Replies.ReplayFindsOwnClaim | src/claim/claims.service.ts:48-69 | with colon-free identities the replay's `getClaim` finds a row owned by the caller: answered, it never raises NotFound |
| Replies.ReplayedExactlyToOwner | src/claim/claims.service.ts:149-165 | the replay's `getClaim`, answered, leads to the claim if and only if its row belongs to the caller, and to NotFound otherwise |
| Replies.AlwaysToldOwn | src/claim/claims.service.ts:45-124 | every reachable state: whatever claim a caller has been told of was created by a caller of its identity |
| Replies.NobodyIsToldOfAnothersClaim | src/claim/claims.service.ts:45-124 | every reachable state, keys that coincide included: a caller that was told of a claim owns its row, which exists |
| Replies.RunAgreed | src/claim/claims.service.ts:45-124 | in an epoch without a lapse every claim named under the key since its beginning is the one in the entry; an entry complete at the beginning stays, and one completed since names the claim its creator was told |
| Replies.RepliesAgree | src/claim/claims.service.ts:45-124 | all successful replies for one key decided on in an epoch without a lapse carry the same claim, whichever path returned them: the one in the entry, and if the entry had one when the epoch began, that one |
| Replies.RefinesPutIfAbsent | src/common/idempotency/claim-idempotency.service.ts:29-83 | every step of an epoch that does not lapse the key leaves its cell alone or fills the empty cell with the claim of the caller that is told so by that very step: an atomic put-if-absent |
| Refusals.AlwaysExplained | src/claim/claims.service.ts:77-146 | every reachable state: a caller that is refused or about to be has a row exactly when it slipped, and a slip is a lapse of its key that only ever leads to a refusal or to its death |
| Refusals.RefusedExactlyWithoutClaim | src/claim/claims.service.ts:77-146 | a refused caller has left a claim behind if and only if its insert or completion was reported failed or its compensating delete was not carried out; so never while its key has not lapsed |
| FaultReports.AlwaysAccount | src/claim/claims.service.ts:38-147 | every reachable state: a caller that has not died is answering, or has answered, that something failed if and only if a command of its own was reported failed |
| FaultReports.RefusedForAReason | src/claim/claims.service.ts:38-147 | every reachable state: "failed" or a backend error is answered just to calls with a failing command; with colon-free identities no call is told that its claim was not found |
| Answers.CompleteIsReplayed | src/claim/claims.service.ts:46-72 | a caller that looks at a complete entry, at first or while waiting, is answered by its next two commands, which only read: with the entry's claim if that belongs to its identity, and with NotFound otherwise |
| Answers.RequestIsReplayed | src/claim/claims.service.ts:46-55 | the same for a whole request: three steps, and nothing in the store has changed |
| Answers.RepeatedRequestIsReplayed | src/claim/claims.service.ts:46-55 | once a client has been told of a claim in an epoch without a lapse, every further request of its identity on the key is answered with that claim; no hypothesis on identities |
| Answers.AnsweredWithTheEntry | src/claim/claims.service.ts:46-72 | under any interleaving: a caller that comes to a complete entry and is answered without a failing command, while the key has not lapsed, is told of the entry's claim if and only if that belongs to its identity, and NotFound otherwise |
| Answers.KeptUntilThen | src/common/idempotency/claim-idempotency.service.ts:72-83 | a complete entry that nobody is inside of stays as it is, under every continuation, until its time to live is over |
| Answers.TimeExpiresExactly | src/common/idempotency/claim-idempotency.service.ts:49-78 | time removes exactly the entries, markers and payloads whose time to live is over, and changes nothing else |
| Answers.ReplayedForADay | src/common/idempotency/claim-idempotency.service.ts:72-79 | a completion made alone in the locked section is replayed to every request of the same identity on the key in every continuation of less than 86,400,000 ms |
| Answers.AnswersStay | src/claim/claims.service.ts:38-147 | an answer is final: no continuation changes a caller that has been answered |
| Answers.LockOrWait | src/common/idempotency/claim-idempotency.service.ts:39-52 | SETNX acknowledged: the caller waits if the entry is there, and otherwise holds a pending one |
| Answers.GivesUpAfterTwoSeconds | src/common/idempotency/claim-idempotency.service.ts:54-70 | with the entry pending: after n looks a tenth of a second apart the caller still waits for n < 20, and is refused as busy for n = 20 |
| Answers.BlockedRequestGivesUp | src/claim/claims.service.ts:57-75 | a request on a pending key, run by itself, is refused as busy exactly two seconds later |
| Answers.WakesExactly | src/common/idempotency/claim-idempotency.service.ts:60-66 | a waiting caller looks again if and only if its tenth of a second is over and two seconds are not; afterwards it is refused without another look |
| Answers.OverloadedExactly | src/claim/claims.service.ts:77-100 | the caller is refused as overloaded if and only if it finds the queue at its limit, with the entry released and no row; otherwise its row is inserted |
| Answers.FailureIsUndone | src/claim/claims.service.ts:77-146 | whichever command of the creation fails, two more lead to the answer that it failed, the entry gone and the row gone, save for an insert or a completion reported failed |
| Answers.ReleaseFollows | src/claim/claims.service.ts:109-126 | a compensating delete is followed by the release whatever becomes of it, and a failing release is answered as a backend error |
| Answers.FailureOutsideIsTold | src/claim/claims.service.ts:43-65 | a failing command before the locked section, or of the lock itself, is answered as a backend error at once |
| Wedges.WedgedForEver | src/common/idempotency/claim-idempotency.service.ts:39-52 | a pending entry without a time to live and without a caller inside stays under every continuation, and no further caller is ever told of a claim |
| Wedges.AlwaysCompletionsExpire | src/common/idempotency/claim-idempotency.service.ts:72-79 | every reachable state: an entry without a time to live is pending, never complete |
| Wedges.StuckExactlyWithoutTtl | src/common/idempotency/claim-idempotency.service.ts:39-52 | an entry nobody is inside outlives every continuation if and only if it has no time to live |
| Wedges.RunEntryHeld | src/common/idempotency/claim-idempotency.service.ts:39-83 | in an epoch without a lapse whoever is inside the locked section finds the pending entry, without a time to live just before its own PEXPIRE |
| Wedges.WedgedExactlyBy | src/common/idempotency/claim-idempotency.service.ts:39-52 | a step of an epoch without a lapse leaves a stuck entry if and only if it is SETNX on the free key carried out but reported failed, PEXPIRE not carried out, or the caller's death between the two |
| Wedges.WedgeReached | src/common/idempotency/claim-idempotency.service.ts:39-52 | from any state in which a key is free and nobody is inside its locked section, four steps of one request leave it stuck |
| Tokens.TokenMoves | src/claim/workers/fraud.worker.ts:35-139 | at every command a worker's token is kept, put back, buried, retired or dropped, exactly one of these |
| Tokens.AlwaysConserved | src/common/redis/redis-queue.service.ts:31-60 | every reachable state, for every claim: waiting + held + dead-lettered + retired + dropped == pushed by `add` + put back by hand |
| Tokens.AlwaysPushedOnce | src/common/redis/redis-queue.service.ts:31-43 | `add` pushes an identifier at most once, and only for the caller that drew it |
| Tokens.OneToken | src/common/redis/redis-queue.service.ts:31-60 | without redelivery by hand a claim's token is in at most one place |
| Tokens.DropEndsWorker | src/claim/workers/fraud.worker.ts:35-48 | a worker's step drops a token only when its payload is missing or the worker is thereby finished |
| Tokens.AlwaysLossBounded | src/claim/workers/fraud.worker.ts:35-139 | over a whole run, tokens dropped <= missing payloads + workers that came to an end |
| Tokens.AlwaysFifo | src/common/redis/redis-queue.service.ts:43-52 | every reachable state: the pushes are the pops followed by the list, oldest first |
| Tokens.ServedInTurn | src/common/redis/redis-queue.service.ts:103-105 | an identifier pushed when n wait is what exactly the (n+1)-th later pop returns, under any interleaving |
| Retries.AlwaysTried | src/common/redis/redis-queue.service.ts:84-105 | every reachable state, for a claim not put back by hand: it is delivered at most three times, and its retry counter tells how often wherever its token is |
| Retries.BuriedAfterThree | src/claim/workers/fraud.worker.ts:111-128 | a claim not put back by hand is in the dead-letter queue only after exactly three deliveries, and waits in the queue only after fewer |
| Retries.DeliveriesBounded | src/claim/workers/fraud.worker.ts:111-128 | without redelivery by hand, n claims pushed are delivered at most 3n times in all |
| Drain.DeliveriesBurnFuel | src/claim/workers/fraud.worker.ts:106-139 | every reachable state without redelivery by hand: no worker step raises the sum of attempts left over all queued and held tokens, and one that ends a delivery lowers it |
| Backpressure.AlwaysBounded | src/claim/claims.service.ts:78-108 | every reachable state: queue + callers past the check + tokens in flight <= limit - 1 + the most callers there ever were past the check + workers (+ redeliveries by hand) |
| Backpressure.QueueBound | src/claim/claims.service.ts:78-108 | the same without redelivery, requeues included |
| Overshoot.OvershootIsAttained | src/claim/claims.service.ts:78-108 | for every limit, every positive number of callers past the check and every number of workers a run without redelivery attains limit - 1 + callers + workers, so the bound cannot be improved |
| History.AlwaysChronicled | src/claim/claims.service.ts:196-232 | every reachable state: a claim's history is a walk through the table, the row is its last entry, and what any updater has read is on record at its version |
| History.NoLostUpdates | src/claim/claims.service.ts:214-232 | for any callers and targets: version == number of changes <= 3, status == last change, a terminal status is never left |
| History.EqualVersionEqualStatus | src/claim/claims.service.ts:197-224 | at whatever two moments of a run a version is observed, in the row or by whoever has read it and not written yet, it shows the same status; so a matching compare-and-set replaces the very status that was validated |
| History.RunRemembers | src/claim/claims.service.ts:214-224 | no run ever rewrites or forgets a recorded change, compensating deletes included |
| Ownership.AlwaysRunsDistinct | src/claim/workers/fraud.worker.ts:46-53 | deliveries in progress are different deliveries |
| Ownership.AlwaysDriven | src/claim/workers/fraud.worker.ts:76-92 | every reachable state with workers as the only updaters, duplicate deliveries included: one delivery made all changes of a claim, and a worker in the middle of it stands where history and events say |
| Ownership.EventsFollowHistory | src/claim/claims.service.ts:214-248 | with workers as the only updaters, the emitted statuses are the full history after PENDING, or that minus its last entry: no gap, no duplicate, no reordering |
| Ownership.DriverCannotLose | src/claim/workers/fraud.worker.ts:76-92 | with workers as the only updaters, past its first change a delivery is alone, its transitions are allowed, and its compare-and-sets match unless the row was removed |
| Ownership.RetiredMeansDecided | src/claim/workers/fraud.worker.ts:58-147 | with workers as the only updaters, a token is retired only when its claim went PENDING, PROCESSING, FRAUD_CHECKING, verdict, and the row shows the verdict of its identifier |
| Ownership.NoConcurrentUpdate | src/claim/claims.service.ts:226-232 | with workers only and no redelivery, a compare-and-set about to be sent matches if and only if the row still exists: "Concurrent update detected" needs a compensating delete |
| Updates.UpdateSucceeds | src/claim/claims.service.ts:196-257 | undisturbed, an update of an existing row along the transition table changes that row's status, raises its version by one, and puts one change and one event on record |
| Updates.UpdateIsRejected | src/claim/claims.service.ts:196-212 | an update is over with its first read, without any effect, if and only if the read fails, the row is missing or the table has no such transition |
| Updates.StaleUpdateChangesNothing | src/claim/claims.service.ts:214-232 | a compare-and-set changes the row if and only if it is carried out and the version is the one read; the update goes on if and only if, besides, it hears of it |
| Updates.AnnouncedExactlyWhenReread | src/claim/claims.service.ts:234-248 | the change is announced, and the caller told of success, if and only if the second read succeeds |
| Updates.FirstUpdateWins | src/claim/claims.service.ts:214-232 | of two updates that have read the same version, the one whose compare-and-set comes second fails and changes nothing |
| Survival.AlwaysEndsKnown | src/claim/workers/fraud.worker.ts:35-139 | every reachable state: a worker at its end was ended by an exception or its death, or told to stop; and one that was ended is at its end |
| Survival.HaltedForAReason | src/claim/workers/fraud.worker.ts:35-48 | a running worker is halted only after an exception that escaped its loop, or its death |
| Survival.EndsExactlyBy | src/claim/workers/fraud.worker.ts:35-139 | over all steps: a worker comes to its end if and only if it dies, a command outside the try block fails, or it was told to stop and looks; never by a failing database command |
| Survival.EmptyListIsWaitedOut | src/claim/workers/fraud.worker.ts:36-45 | a running worker that finds the list empty is back at the head of its loop 500 ms later, with the store unchanged |
| Survival.MissingPayloadIsWaitedOut | src/common/redis/redis-queue.service.ts:52-62 | so is one whose claim has lost its payload |
| Survival.NapEnds | src/claim/workers/fraud.worker.ts:41-44 | the wait lasts 500 ms, to the millisecond |
| Survival.FinishedClaimIsSkipped | src/claim/workers/fraud.worker.ts:58-74 | a claim with a verdict is left as it is, its token retired, and the worker takes the next one |
| Survival.DeliveryFailsExactlyBy | src/claim/workers/fraud.worker.ts:58-106 | command by command: a delivery fails if and only if the command is reported failed, the claim is not there, its status is not one this stage can start from, or its version has moved on |
| Survival.EarlyFailureIsRequeued | src/claim/workers/fraud.worker.ts:106-124 | after a first or second failure the claim is at the end of the queue, its counter raised, its row untouched, and the worker at the head of its loop |
| Survival.ThirdFailureIsBuried | src/claim/workers/fraud.worker.ts:106-134 | after a third it is dead-lettered and its counter gone, and the worker at the head of its loop |
| Survival.PauseTakesASecond | src/claim/workers/fraud.worker.ts:76-88 | after its first and second change a delivery pauses for 1000 ms, to the millisecond, and then reads for the next stage |
| Survival.StoppedWorkerDeliversNothing | src/claim/workers/fraud.worker.ts:31-40 | a worker that is told to stop before it has its payload takes up no delivery |
| Outcomes.AlwaysQueued | src/claim/claims.service.ts:102-117 | a caller that completes has pushed its claim: `add` never finds its own marker taken |
| Outcomes.AlwaysNamesPushed | src/claim/claims.service.ts:102-117 | every reachable state: any claim a completed entry or a caller names has been pushed, also when its creator was told that completing had failed |
| Outcomes.ClaimsToldEnd | src/claim/workers/fraud.worker.ts:58-147 | with workers as the only updaters and no redelivery of it by hand, a claim a client was told of, by its creation or by a replay, once at rest, exists and is exactly one of retired with its verdict, dead-lettered, dropped |
| Outcomes.BenignRunsDropNothing | src/claim/workers/fraud.worker.ts:106-134 | no worker stopped, payloads present and bookkeeping succeeding: nothing is dropped, whatever the database does |
| Outcomes.ClaimsToldAreSettled | src/claim/workers/fraud.worker.ts:58-147 | in such a run, with workers as the only updaters and no redelivery of it by hand, every claim a client was told of and that is at rest is retired with its verdict or is in the dead-letter queue, and not both |
| Stranding.StrandedForEver | src/claim/workers/fraud.worker.ts:76-92 | a claim half-way and driven by nobody stays so in every continuation with workers as the only updaters, redeliveries included: its record does not change, nobody drives it, its token is never retired |
| Stranding.StrandedEndsBuried | src/claim/workers/fraud.worker.ts:106-134 | in a run that drops nothing, such a claim that a client was told of, not put back by hand and at rest, is in the dead-letter queue and not retired |
| Stranding.StrandedExactlyBy | src/claim/workers/fraud.worker.ts:76-128 | over all steps, with workers as the only updaters: a step strands a claim if and only if the delivery that drives it fails or dies before its last change is made, or the first change is carried out but reported failed |
| Continuations.PendingCanFinish | src/claim/workers/fraud.worker.ts:58-105 | a queued PENDING claim with its row and payload has a continuation, without redelivery or a lost token, to its verdict and its token's retirement |
| Finishing.HopelessForEver | src/claim/workers/fraud.worker.ts:35-139 | an untouched claim whose token is in no place from where it could be delivered stays so in every continuation with workers as the only updaters and without redelivery of it by hand |
| Finishing.FinishesExactlyWhenLive | src/claim/workers/fraud.worker.ts:35-139 | every reachable state with workers as the only updaters, whatever has failed, stopped or died: a claim with a row can still reach a verdict, without redelivery of it by hand, if and only if it has one, or is being driven, or is PENDING with a live token |
| Abandonment.AbandonedForEver | src/claim/workers/fraud.worker.ts:106-139 | a claim whose token is dead-lettered, retired or lost keeps its record in every continuation with workers as the only updaters and without redelivery of it by hand, and no token of it comes back |
| Abandonment.AbandonedCannotFinish | src/claim/workers/fraud.worker.ts:106-139 | such a claim can still reach a verdict if and only if it has one |
| Abandonment.AbandonedReached | src/common/redis/redis-queue.service.ts:46-82 | a queued claim is abandoned, untouched and with its payload stored, when its worker is stopped between RPOP and GET |
| Abandonment.BuriedReached | src/claim/workers/fraud.worker.ts:106-128 | from any reachable state a queued claim is dead-lettered untouched by nothing but failing first reads |
| Abandonment.StrandedReached | src/claim/workers/fraud.worker.ts:76-92 | any queued PENDING claim with its row and payload has a continuation that strands it: the first second read fails |
| Abandonment.FinishesExactlyUnlessHalfway | src/claim/workers/fraud.worker.ts:64-92 | with redelivery by hand: a claim with row and payload that nobody is driving can still reach a verdict, by any number of retries and redeliveries, if and only if its status is not PROCESSING or FRAUD_CHECKING |
| Creations.CreateSucceeds | src/claim/claims.service.ts:45-124 | a request on a free key with room in the queue has a run that answers it with its new claim and changes exactly this in the store: the entry complete, marker and payload, each for 86,400,000 ms; the PENDING row at version 0 of its identity; the claim at the queue's end |
| Scenarios.StrandedFromStart | src/claim/workers/fraud.worker.ts:76-92 | every request to the empty system has a run that ends in a stranded claim |
| Scenarios.AbandonedFromStart | src/claim/workers/fraud.worker.ts:35-48 | every request to the empty system has a run without redelivery that ends with its claim PENDING, row and payload in place, and its token lost |
| Rooms.AlwaysCleared | src/claim/gateway/claim.webSocketGateway.ts:121-126 | every reachable state, any number of requests per socket under way: a socket is in, or about to join, only rooms of claims its own identity created |
| Rooms.EventsReachOnlyTheOwner | src/claim/gateway/claim.webSocketGateway.ts:163-168 | every reachable state: every event ever emitted went only to sockets of the identity that created the claim |
| Rooms.WorkerIsHeard | src/claim/gateway/claim.webSocketGateway.ts:149-168 | a worker's successful second read emits one event, of the stage's status, to all the sockets in the claim's room at that moment and to no other |
| Rooms.UpdaterIsHeard | src/claim/gateway/claim.webSocketGateway.ts:149-168 | the same for any other caller of `updateClaimStatus` |
| Rooms.MembersHearEverything | src/claim/gateway/claim.webSocketGateway.ts:121-168 | a socket in a claim's room hears every later event of the claim in every continuation in which it stays connected |
| Rooms.OwnerGetsIn | src/claim/gateway/claim.webSocketGateway.ts:121-132 | a request whose commands succeed gets its socket into the room if and only if the row belongs to the socket's identity, and changes no other membership |
| Rooms.OwnerIsTurnedAwayByFailure | src/claim/gateway/claim.webSocketGateway.ts:121-143 | of its own claim a request is turned away if and only if a command of it fails |
| Rooms.DisconnectLeaves | src/claim/gateway/claim.webSocketGateway.ts:87-107 | a socket that disconnects leaves all its rooms, and no other socket leaves any |
| RateLimit.AlwaysSane | src/common/rate-limiting/claim-rate-limit.service.ts:9-26 | every reachable state, PEXPIRE delayed or lost: without a restart the counter is the true tally, a slot incremented only in time never restarts, passes stay below one limit per restart, and reach the limit when nothing failed or restarted |
| RateLimit.PassesPerRestart | src/common/rate-limiting/claim-rate-limit.service.ts:9-26 | every reachable state, late and failing commands included: at most limit * (1 + restarts) pass in a window, and no increment in time is a restart |
| RateLimit.RestartsAreAttained | src/common/rate-limiting/claim-rate-limit.service.ts:11-25 | for all settings and every n, a run without errors has n restarts of one window and limit * (1 + n) passes |
| RateLimit.ReopensExactlyWithTtl | src/common/rate-limiting/claim-rate-limit.service.ts:14-25 | when a window that has not restarted has used up its limit, some waiting lets one more attempt through if and only if its counter is gone or has a time to live |
| RateLimit.AlwaysTallied | src/common/rate-limiting/claim-rate-limit.service.ts:11-14 | without errors every attempt that is past its INCR has been counted exactly once |
| RateLimit.ExactlyTheLimitPasses | src/common/rate-limiting/claim-rate-limit.service.ts:14-25 | without errors and restarts, exactly min(attempts, limit) pass in each window |
| RateLimit.AlwaysPrompt | src/common/rate-limiting/claim-rate-limit.service.ts:9-26 | every reachable state, with no hypothesis: of the attempts counted before their window's end at most the limit pass |
| RateLimit.IntervalBound | src/common/rate-limiting/claim-rate-limit.service.ts:9-26 | with no hypothesis, any half-open interval admits at most (ceil(length / window) + 1) * limit creations of one identity, plus those counted after their window's end |
| RateLimit.ArrivesInItsWindow | src/common/rate-limiting/claim-rate-limit.service.ts:11-12 | an attempt is counted for its identity in the window that contains its arrival |
| RateLimit.FirstAttemptPasses | src/common/rate-limiting/claim-rate-limit.service.ts:14-25 | the first attempt of a window starts the counter at one, with one window's time to live, and passes |
| RateLimit.FurtherAttemptIsMeasured | src/common/rate-limiting/claim-rate-limit.service.ts:14-25 | a further one counts, leaves the time to live alone, and passes if and only if the limit has not been used up |
| RateLimit.FailureRefuses | src/common/rate-limiting/claim-rate-limit.service.ts:14-18 | a command reported failed refuses the attempt, and what was carried out stays counted |
| RateLimit.CountersExpireExactly | src/common/rate-limiting/claim-rate-limit.service.ts:16-18 | a counter is there until its time to live is over, and one without for ever |
| World.ClaimWorld.Await | src/claim/claims.service.ts:43-47 | an `await` lets any other threads take any steps; this thread stays where it is, time does not run backwards, and no recorded change is lost |
| IdempotencyService.ClaimIdempotencyService.ClaimExistingClaimId | src/common/idempotency/claim-idempotency.service.ts:29-37 | one read: the claim with which the entry is complete, none if it is not, and an exception if and only if the read was reported failed; and where each sends the caller |
| IdempotencyService.ClaimIdempotencyService.AcquirePendingLock | src/common/idempotency/claim-idempotency.service.ts:39-52 | SETNX then PEXPIRE: true puts the caller inside with a fresh identifier, the entry expiring in a minute and, without a lapse, there and pending; false means that the entry was there; an error of either reaches the client |
| IdempotencyService.ClaimIdempotencyService.WaitForCompletion | src/common/idempotency/claim-idempotency.service.ts:54-70 | polling ends with the completed claim, none after at least two seconds, or an exception if and only if a read was reported failed |
| IdempotencyService.ClaimIdempotencyService.Finalize | src/common/idempotency/claim-idempotency.service.ts:72-79 | success means that the caller's entry names its claim for a day and that the caller is told so |
| IdempotencyService.ClaimIdempotencyService.Release | src/common/idempotency/claim-idempotency.service.ts:81-83 | success removes the entry, whoever set it, and the caller gets its original error |
| QueueService.RedisQueueService.QueueSize | src/common/redis/redis-queue.service.ts:115-117 | the length, and that it decides between overload and insert |
| QueueService.RedisQueueService.Add | src/common/redis/redis-queue.service.ts:17-44 | success means the claim has been pushed exactly once; any failure sends the caller to the compensating delete |
| QueueService.RedisQueueService.GetNext | src/common/redis/redis-queue.service.ts:46-82 | a returned payload is the stored one of an identifier popped in between, and starts a delivery; without one a running worker waits for 500 ms; an exception means that a command was reported failed, and ends the worker |
| QueueService.RedisQueueService.TakeNext | src/common/redis/redis-queue.service.ts:52-54 | RPOP takes the last identifier of the list and puts it on record, or finds the list empty and lets a running worker wait; an exception if and only if it was reported failed |
| QueueService.RedisQueueService.IncrementRetry | src/common/redis/redis-queue.service.ts:84-86 | success returns the new counter, which is at least one |
| QueueService.RedisQueueService.CanRetry | src/common/redis/redis-queue.service.ts:88-96 | true exactly when the counter is below three, which decides between requeue and dead-letter queue |
| QueueService.RedisQueueService.Requeue | src/common/redis/redis-queue.service.ts:103-105 | success puts the claim at the back of the queue |
| QueueService.RedisQueueService.MoveToDlq | src/common/redis/redis-queue.service.ts:98-101 | success means that the claim is in the dead-letter queue and its counter forgotten |
| QueueService.RedisQueueService.ClearPending | src/common/redis/redis-queue.service.ts:107-109 | success removes the marker; the worker goes on only if this and the delivery's bookkeeping succeeded |
| ClaimServices.ClaimService.GetClaim | src/claim/claims.service.ts:149-165 | answered, it finds the claim exactly when the row exists and belongs to the identity |
| ClaimServices.ClaimService.UpdateClaimStatus | src/claim/claims.service.ts:196-257 | success means this thread's change is on the claim's record and announced to exactly the sockets in its room; otherwise a command failed, the row is missing, the transition is not allowed, or somebody else has changed the status since |
| ClaimServices.RepliesAreTruthful | src/claim/claims.service.ts:45-124 | what a caller was told names an existing claim of this key and of its own identity, and without a lapse the one every caller is told |
| ClaimServices.ClaimService.TryCreate | src/claim/claims.service.ts:77-124 | backpressure, insert, push or compensate, complete: success means the caller is told its claim, failure that it goes on to release, with "overloaded" as the cause only when the queue has reached its limit |
| ClaimServices.ClaimService.CreateLocked | src/claim/claims.service.ts:77-146 | the answer is the caller's own claim or a refusal; a refusal reaches the client with the entry deleted, unless deleting it failed too |
| ClaimServices.ClaimService.CreateClaim | src/claim/claims.service.ts:38-147 | refused by the throttle exactly when its attempt is over the limit, without any effect; otherwise the answer is truthful in the sense of `RepliesAreTruthful`, a refusal leaves a claim behind exactly when the caller slipped, "failed" and backend errors are due to failing commands, a call that came to a complete entry is answered with its claim if that is its own, and "busy" takes two seconds |
| FraudWorkers.FraudWorker.ProcessClaim | src/claim/workers/fraud.worker.ts:50-139 | a delivery ends at the head of the loop, or with the worker halted when an exception escapes |
| FraudWorkers.FraudWorker.Drive | src/claim/workers/fraud.worker.ts:58-105 | without an exception the token is retired and, workers being the only updaters, the claim has its verdict; otherwise the failure is counted |
| FraudWorkers.FraudWorker.AllStages | src/claim/workers/fraud.worker.ts:76-92 | success means that the claim's changes are PROCESSING, FRAUD_CHECKING, verdict in this order, all made by this delivery in two seconds at least, without a failing command, and that its token is retired |
| FraudWorkers.FraudWorker.HandleFailure | src/claim/workers/fraud.worker.ts:106-134 | when all of it succeeds the claim is at the end of the queue, or in the dead-letter queue with its counter forgotten; without redelivery by hand the latter exactly when it has had three deliveries |
| FraudWorkers.FraudWorker.Start | src/claim/workers/fraud.worker.ts:35-48 | a worker that is still there has gone through all its rounds, each a delivery or half a second; one that is halted was told to stop or ended by an exception |
| Gateway.ClaimGateway.HandleJoinRoom | src/claim/gateway/claim.webSocketGateway.ts:109-147 | whatever runs between the check and the join, other requests of the socket included, the socket is only in rooms of claims its identity created; a positive answer means that it is in this one, a negative one that a command failed or the claim is not there for this identity |
| RateLimitService.ClaimRateLimitService.AssertCreateAllowed | src/common/rate-limiting/claim-rate-limit.service.ts:9-26 | one new attempt, in the window the clock shows, answered by its count; unavailable only after a failing command; afterwards every window has let through at most one limit per start of its counter |

## Left out

- FraudWorkers.FraudWorker.Start: takes a number of rounds, because a loop that may run for ever has no terminating model; the state machine's workers have no such bound.
- RateLimitService.ClaimRateLimitService.AssertCreateAllowed: has a clock and counters of its own; `createClaim` enters the shared system when the throttle has answered.
- Liveness: nothing is proved about scheduling or fairness; drain and retry results bound what can happen, and `PendingCanFinish` and `FinishesExactlyWhenLive` say what is possible, not what will happen.
- Token checks, SHA-256, JSON and random identifiers: identities are opaque, the fingerprint is a parameter, identifiers are any fresh ones, records and payloads are values. A payload is present or missing, never malformed; the code treats both alike.
- Redis, Prisma, Socket.IO and the event emitter beyond the commands used: each is one atomic step; resending, reconnecting and exceptions thrown by event listeners are not modelled.
- Putting an identifier back on the queue by hand is a step of the environment (`Redeliver`); no code does it. It stands for duplicate deliveries, under which single ownership is proved all the same.
- Other callers of `updateClaimStatus` (`CallUpdate`) do not exist in the repository today either; lost-update freedom is proved with them, event order, ownership and stranding without.
- Events are emitted within one process in the source; `EmitTo` reaches every socket of the modelled system, which therefore stands for a single process. Workers, callers and sockets of other processes would not hear of each other's events.
- A timer lets at least its time pass; the model's delays may take longer, never less.
- Policy, description, amount, correlation identifiers and timestamps of claims, the marker's hash value: no step depends on them.
- Metrics, tracing, logging, controllers, configuration parsing, the exception filter, the header middleware, the user cache and user validation: wiring or facts of one branch.
- `pendingCount`, `dlqSize`, `getAllClaims`: read-only and outside the protocol.
