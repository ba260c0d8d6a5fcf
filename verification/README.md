# A verification model of PayMux

PayMux sits between applications and a payment gateway. This project models the parts of it in which
interleaving, retries and lost answers decide whether money moves once, and proves what they promise over
every run. `dafny verify dfyconfig.toml` checks all of it.

## What is modelled

**Payouts.** `PayoutStatuses` is the table of allowed moves, `Iris` the reading of one exchange with the
disbursement gateway, `PayoutStore` the tables and the repository, `PayoutService` the service.
`PayoutProtocol` puts them into a world of workers that act on copies of rows read earlier, administrators, a
clock, a network that delays requests and loses answers, and a gateway that remembers a key for a day and
starts a transfer for one it does not remember. A crash is a worker that is dropped between any two steps.
`PayoutEffects` says what one operation can do to the tables whatever copy it works from; `PayoutSafety` what
every step keeps; `PayoutTheorems`, `PayoutBelief` and `PayoutAdmission` what follows for every run;
`PayoutOverlap` how far overlapping admissions can pass the limit; `PayoutWorkers` that a worker nobody disturbs
does what the service does in one go; `PayoutRequests` how every request is answered; `PayoutOutcomes` what every
answer, approval and batch makes of the tables, read off the exchange column by column; `PayoutSubmission` and
`PayoutAnswers` what one answer makes of a payout, and which answers mislead; `PayoutWitnesses` runs from the
empty tables in which a promise fails.

The timing assumption is a predicate on runs: a first submission reaches the gateway within a day of the
first time its key was sent, and a resend within four hours of the check that allowed it. `PayoutBelief` also
assumes an honest gateway: a full refusal only of what it refused, a held payout only under a mapped word and
the right reference, one reference per transfer, and answers that stay the same while a key is remembered. All
other answers, and none at all, may come at any time. The invariants that need neither assumption are proved
without them.

**Deliveries.** `Deliveries` holds the retry schedule, the table that is also the queue, and the worker;
`DeliveryProtocol` any number of workers with crashes, stale locks and manual retries; `DeliveryExclusion` what
holds when every attempt ends before its lock is five minutes old; `DeliveryTermination` how long any run can be
at work on a delivery, with late workers and with timely ones; `DeliveryRetries` what a retry by hand gives it.
`Events`, `Publishing` and `FanOut` are the transactional fan-out.

**Requests and payments.** `Idempotency` interleaves the two statements of a claim with time, completion,
release and pruning. `PaymentStatuses`, `Payments` and `Notifications` are the ranked state machine under
reordered and repeated notifications. `Refunds` reserves under a lock and calls the gateway outside it;
`RefundReturns` sets the gateway's books beside the service's. There a request may be carried out at any time
after its reservation or be refused, once per refund key; an answer that a refund was made is taken to be true,
and an error may mean anything. The gateway is not taken to check the balance itself.

**Codecs.** `Money`, `Ulid` with `Bytes` and `Numerals`, and `Paging`; `GoStrings` and `Multiples` are helpers.

Code that changes state is a class whose methods are proved to take the tables to the state a function
describes; the protocols step by the same functions, and the properties are lemmas about them.

## Where the code is weaker than its comments

- A create answer that means completed or rejected has no move from APPROVED, so the payout stays APPROVED;
  one under a word outside the vocabulary is recorded as FAILED although the gateway holds it
  (`PayoutSubmission.SubmissionSettles`, `PayoutSubmission.FailedThoughHeld`). The contract in
  internal/gateway/payout.go that a plain error means "did not happen" is met exactly when the word is mapped
  (`Iris.PlainErrorMeansDeclined`).
- The status a history row gives as left is the caller's copy's (`PayoutTheorems.RecordedFromExactly`,
  `PayoutWitnesses.LostAnswerDisjoins`).
- The daily limit is checked outside the transaction that inserts (`PayoutAdmission.RollingLimitExactly`,
  `PayoutOverlap.OverlapReaches`).
- Any refusal of a request under an accepted key, a rate limit included, is recorded as FAILED
  (`PayoutAnswers.BooksAreTrueExactly`).
- A claim under an idempotency key is completed without asking whose it is
  (`Idempotency.AnswersAreForTheSameRequest`, `Idempotency.OvertakenAnswersWrongly`).
- A late record of a failed attempt undoes a recorded success (`DeliveryExclusion.SuccessIsUndoneBy`,
  `DeliveryExclusion.LateFailureUndoes`). The timeout on an attempt is as long as the staleness limit but starts after the
  claim, so this needs the recovery of stale locks to fall into that delay.
- A payment moves from REFUNDED back to PARTIALLY_REFUNDED, although internal/gateway/status.go says a payment
  never moves backwards; so the order of those two reports matters (`Payments.OrderDoesNotMatter`).
- Pending refunds do not reduce the balance, although internal/payment/refund_service.go says concurrent
  refunds cannot return more than was paid. That holds exactly while no refund is made for more than is left
  then, and a reservation is safe exactly when it fits into what is neither returned nor returnable
  (`Refunds.RefundsExactly`, `RefundReturns.GrantIsSafeExactly`, `Refunds.BoundIsReached`).
- A refund whose answer was lost or unreadable is recorded as FAILED although the gateway may have made it, and
  the balance is free for another: even one refund at a time can return any multiple of what was paid. The
  refund key does not help, because a key once used is refused and the next refund carries its own
  (`RefundReturns.ReturnsExactly`, `RefundReturns.LostAnswersReturnAgain`).
- A second partial refund is no change of status, so the stored refunded amount stays at the first and no
  payment event is published, although internal/event/types.go gives each of them a key of its own
  (`Refunds.PaymentFollowsRefunds`).
- A notification is recorded under its key whether or not it was verified, and one recorded is never applied
  later: a forgery under a genuine key blocks the report (`Notifications.CountsExactly`,
  `Notifications.ForgedKeyBlocks`).
- A sign without digits parses as zero, and the smallest 64-bit amount does not come back from being formatted
  and parsed (`Money.ParseIsExact`, `Money.RoundTrip`).

## Model

| member | source | states |
|---|---|---|
| PayoutStatuses.PredecessorsOf | internal/gateway/payout.go:155-165 | the collected list holds exactly the statuses that may move to the given one, each once |
| PayoutStatuses.PathIsShort | internal/gateway/payout.go:66-94 | a path of allowed moves never repeats a status and has at most five entries |
| PayoutStatuses.RankFallsOnlyOnLateSubmission | internal/gateway/payout.go:86-94 | the rank falls along an allowed move only from UNRESOLVED to SUBMITTED, so rank is no measure of progress |
| PayoutStatuses.ApprovedIsBehind | internal/gateway/payout.go:66-84 | a path that has shown APPROVED ends neither in REQUESTED nor in REJECTED, and UNRESOLVED is only reached through APPROVED |
| PayoutStatuses.MovesAre | internal/gateway/payout.go:66-84 | the eleven allowed moves, one by one; there is no other |
| Iris.Vocabulary | internal/gateway/midtrans/iris.go:460-476 | which word means which status, ignoring case and surrounding spaces; every other word means none |
| Iris.PlainErrorMeansDeclined | internal/gateway/midtrans/iris.go:360-452 | an error other than "unknown" means the gateway declined in full, exactly unless it held the payout under a word outside the vocabulary |
| Iris.OutcomeIsDecided | internal/gateway/midtrans/iris.go:360-452 | a result is returned exactly for a held payout under a mapped word, and "unknown" exactly when the answer was neither a refusal nor a held payout |
| Iris.KeysGoWhole | internal/gateway/midtrans/iris.go:390-392 | a key goes over the wire whole if and only if it has at most a hundred characters, and two such keys stay apart |
| PayoutStore.UpdatedRow | internal/payout/repository.go:230-277 | the conditional update succeeds only along an allowed move and keeps everything fixed at creation |
| PayoutStore.Repository.ApplyState | internal/payout/repository.go:230-277 | writes the row the update rule describes, its guard being the collected predecessor list, and changes nothing when refused |
| PayoutStore.Repository.Create | internal/payout/repository.go:71-105 | inserts unless the application already used the reference; a refused insert changes nothing |
| PayoutStore.FindReference | internal/payout/repository.go:137-149 | finds a payout under the reference exactly when there is one |
| PayoutStore.Repository.SentToday | internal/payout/repository.go:337-349 | adds up exactly the application's payouts of the last 24 hours that have neither failed nor been rejected, each once |
| PayoutStore.CommittedIsTheSum | internal/payout/repository.go:337-349 | the committed total of any window is the amounts of exactly the payouts that count in it |
| PayoutStore.Repository.RecordTransition | internal/payout/repository.go:356-374 | history is only appended to |
| PayoutService.Service.Request | internal/payout/service.go:104-195 | refines the admission rule, checks in the order of the code, then inserts row, history and events together |
| PayoutService.Service.Move | internal/payout/service.go:459-480 | status, history row and event change together or not at all; the status recorded as left is that of the caller's copy |
| PayoutService.Service.Approve | internal/payout/service.go:308-331 | refines the approval rule: pending only, and never by the one who asked |
| PayoutService.Service.Reject | internal/payout/service.go:334-353 | refines the rejection rule |
| PayoutService.Service.Submit | internal/payout/service.go:365-393 | reads the row again and refines the submission rule for whatever the gateway answers |
| PayoutService.Service.RecordSubmissionFailure | internal/payout/service.go:396-426 | an unknown outcome becomes UNRESOLVED with its resend window, any other error FAILED |
| PayoutService.Service.ApplyGatewayResult | internal/payout/service.go:429-455 | a result the caller's copy has no move to changes nothing but the sync mark |
| PayoutService.Service.Reconcile | internal/payout/service.go:492-562 | refines the reconciliation rule for every status, within and after the resend window |
| PayoutService.Service.ReconcileBatch | internal/payout/service.go:565-586 | the loop over the claimed copies refines the fold of single reconciliations and counts those that did not fail |
| PayoutOutcomes.ReconcilingDecides | internal/payout/service.go:492-562 | reconciling from any copy, read off the exchange: a submitted payout is moved by a word for completed or failed, marked by any other known word, a 404 or a missing reference, and left alone by every other answer; one with an unknown outcome is sent again within twenty hours of its request and then moved as the exchange says, and after that only marked; every column, the history row and the event are written out |
| PayoutOutcomes.SubmittingDecides | internal/payout/service.go:365-455 | submitting, read off the exchange: only an approved row is sent, and its columns, history row and event are what a refusal, a lost answer or each word of the vocabulary calls for |
| PayoutOutcomes.PollingSettles | internal/payout/service.go:496-514 | a submitted payout ends COMPLETED or FAILED when the word says so, with its time, history row and event, and otherwise stays SUBMITTED with none |
| PayoutOutcomes.PollIsRead | internal/gateway/midtrans/iris.go:214-246 | what a status read comes to, read off the exchange: a result, a missing payout for a 404, or an error |
| PayoutOutcomes.CreateIsRead | internal/gateway/midtrans/iris.go:360-452 | what a create comes to, read off the exchange, each error included |
| PayoutOutcomes.ApprovingDecides | internal/payout/service.go:308-331 | an approval succeeds if and only if copy and row are pending, the administrator is not the one who asked and no check or index blocks the row; the row, its history and its event are written out, and so is each refusal |
| PayoutOutcomes.RejectingDecides | internal/payout/service.go:334-353 | the same for a rejection |
| PayoutOutcomes.BatchReconcilesEach | internal/payout/service.go:565-586 | a batch reconciles each claimed payout once, from a copy that is still up to date and with its own answer, and what came of it stands at the end |
| PayoutOutcomes.BatchLeavesOthers | internal/payout/service.go:565-586 | a batch touches no payout that was not claimed |
| PayoutOutcomes.BatchCounts | internal/payout/service.go:574-585 | a batch counts every payout but those that ended in an error, an unknown outcome not being one |
| PayoutRequests.RefusedUnseen | internal/payout/service.go:104-122 | an application that may not ask is refused for the first of the four checks that fails, whatever the tables hold and whatever destination it names |
| PayoutRequests.OriginalIsReturned | internal/payout/service.go:123-129 | a repeated request is answered with the payout there is under its reference and changes nothing, whatever the daily limit and the destination |
| PayoutRequests.RepeatFindsTheFirst | internal/payout/service.go:123-129 | with any run of the service between two requests under one reference, the second is answered with the payout of the first as it is then and changes nothing |
| PayoutRequests.FirstIsJudged | internal/payout/service.go:131-195 | a first request is refused exactly for the daily limit, then for the destination, and is otherwise stored with the amount, the upper-cased currency, the destination, its first history row and its events as written out |
| PayoutEffects.MovedHasEffect | internal/payout/service.go:459-480 | whatever copy it works from, a change touches one payout, which stays or makes one allowed, recorded and announced move |
| PayoutEffects.CreateRecordedHasEffect | internal/payout/service.go:365-455 | the same for recording any create outcome, from a copy in APPROVED or UNRESOLVED |
| PayoutEffects.PollRecordedHasEffect | internal/payout/service.go:492-522 | the same for recording a status read |
| PayoutEffects.ApprovingHasEffect | internal/payout/service.go:308-331 | the same for an approval, whose history row names an administrator other than the requester |
| PayoutEffects.RejectingHasEffect | internal/payout/service.go:334-353 | the same for a rejection |
| PayoutSafety.ArrivesWhileRemembered | internal/payout/service.go:525-535 | a resend allowed before the twentieth hour and received within four more finds the key still remembered; so does a first submission within a day of the first send |
| PayoutSafety.NextSafe | internal/payout/service.go:104-586 | each of the sixteen kinds of step, on any stale copy, keeps the invariant over rows, history, keys, workers and requests under way |
| PayoutSafety.RunSafe | internal/payout/service.go:104-586 | hence every reachable state satisfies it, with its timing half whenever requests arrive in time |
| PayoutSafety.NextGrows | internal/payout/repository.go:230-374 | no step removes a payout, changes what was fixed at creation, or shortens a history |
| PayoutTheorems.AtMostOneTransfer | internal/payout/service.go:365-562 | in every run in which requests arrive in time, no key ever starts a second transfer |
| PayoutTheorems.TransfersAreArrivals | internal/payout/model.go:108-113 | over any run, timely or not, the transfers under a key are exactly its arrivals that no earlier decision of the last day answers and that are accepted |
| PayoutWitnesses.PaidTwice | internal/payout/service.go:365-393 | from the empty tables, without the timing assumption: a payout whose submission was never recorded is sent again a day later and paid twice |
| PayoutTheorems.HistoryIsAPath | internal/payout/service.go:459-480 | in every reachable state the history is a path of allowed moves without repeats, of at most five rows, ending in the stored status, and the events announced are those of the path |
| PayoutTheorems.RowsAreStamped | internal/payout/repository.go:239-262 | in every reachable state a row carries the time of the outcome it shows, was never released by the administrator who asked for it, and is not both released and refused |
| PayoutTheorems.NothingIsRewritten | internal/payout/repository.go:230-374 | in every run a payout keeps what was fixed at creation, every time taken, and its history so far |
| PayoutTheorems.RecordedFromExactly | internal/payout/service.go:459-480 | in every reachable state a row appended to a history gives as left the status the row before it reached if and only if the copy it was written from is up to date |
| PayoutWitnesses.LostAnswerDisjoins | internal/payout/service.go:459-480 | from the empty tables, two workers and one lost answer write a history whose last row says it left a status the row before it had already left |
| PayoutTheorems.SentMeansReleased | internal/payout/service.go:308-393 | a payout whose key was ever sent shows a release by the request itself or by an administrator other than the requester, and is neither REQUESTED nor REJECTED |
| PayoutTheorems.ShutForGood | internal/payout/service.go:525-535 | past its window and past APPROVED, no run sends a payout again |
| PayoutTheorems.StrandedIsNeverSentAgain | internal/payout/model.go:114-128 | from any reachable state in which a payout is stranded, no run sends it again |
| PayoutWorkers.CreateRunReconciles | internal/payout/service.go:365-562 | reading, sending, receiving and recording as separate steps, undisturbed, leaves the tables as submitting or re-sending in one go does, whatever the gateway decides |
| PayoutWorkers.PollRunReconciles | internal/payout/service.go:492-522 | the same for a status read |
| PayoutSubmission.SubmissionSettles | internal/payout/service.go:365-455 | the status submission ends in, read off the exchange: a payout the gateway already calls completed or rejected stays APPROVED, one held under an unmapped word becomes FAILED |
| PayoutSubmission.FailedThoughHeld | internal/gateway/midtrans/iris.go:188-211 | the books say FAILED although the gateway said it holds the payout if and only if its word means failed or is outside the vocabulary |
| PayoutSubmission.LateRetryPaysTwice | internal/payout/service.go:365-393 | the same from any state with an approved payout that was not sent |
| PayoutAnswers.BooksAreTrueExactly | internal/payout/service.go:396-455 | recording the answer to a request under an accepted key, from an up-to-date copy and where no unique index or check blocks the row, leaves it true of the gateway if and only if the answer does not mislead: no refusal, failure or unmapped word unless the transfer came back, no other reference, no completion of what was not paid |
| PayoutBelief.ReadAnswerFits | internal/gateway/midtrans/iris.go:188-211 | an honest answer, as the client reads it, says nothing untrue of the gateway's record |
| PayoutBelief.CreateRecordedFits | internal/payout/service.go:396-455 | recording a true outcome leaves a row that is true of the gateway, whatever the row has become meanwhile |
| PayoutBelief.PollRecordedFits | internal/payout/service.go:492-522 | the same for a status read |
| PayoutBelief.ReadsRightTransfer | internal/payout/service.go:492-522 | a status read under the stored reference describes this payout's transfer |
| PayoutBelief.NextBelief | internal/payout/service.go:104-586 | every step with an honest gateway and timely requests keeps rows, copies, answers and messages true |
| PayoutBelief.BeliefIsTrue | internal/gateway/payout.go:25-54 | in every such run SUBMITTED means one transfer under the stored reference, COMPLETED one that was paid, FAILED none or one that was returned |
| PayoutAdmission.AdmissionIsExact | internal/payout/service.go:104-160 | a request is admitted if and only if all seven conditions hold, and waits for approval exactly if the application needs it |
| PayoutAdmission.NextLimitExactly | internal/payout/service.go:123-195 | a step keeps every day-long window within the limit if and only if it does not insert a payout for which the day, at the insert, has no room |
| PayoutAdmission.RollingLimitExactly | internal/payout/service.go:123-195 | over a whole run the limit is kept in every state if and only if no insert comes without room, however other applications are admitted |
| PayoutAdmission.RollingLimitHolds | internal/payout/service.go:123-140 | with the application's admission as one step under a constant limit, or split with room left at the insert, every day-long window of its payouts neither failed nor rejected stays within it, in every run |
| PayoutAdmission.NewPayoutFits | internal/payout/service.go:123-140 | a payout admitted within the last day's limit fits every day-long window that contains it |
| PayoutAdmission.EffectShrinks | internal/payout/repository.go:337-349 | no later change of any payout makes a window's total grow |
| PayoutAdmission.OverlapOvershoots | internal/payout/service.go:123-195 | two requests judged before either is inserted are both admitted and both count in full, so together they pass the limit exactly when the sum does |
| PayoutOverlap.OverlapIsBounded | internal/payout/service.go:123-195 | when each request overlaps with fewer than k others judged and not yet inserted, every day-long window stays within k times the limit, in every run |
| PayoutOverlap.OverlapReaches | internal/payout/service.go:123-195 | for any number of new payouts a run from the empty tables with just that much overlap comes to exactly that many times the limit |
| PayoutAdmission.OnePayoutPerReference | internal/payout/repository.go:71-105 | in every run an application's reference names at most one payout, overlapping requests included |
| Deliveries.JitterIsBounded | internal/delivery/model.go:89-114 | jitter moves a delay by at most a tenth, and the one-second floor never decides |
| Deliveries.BackoffGrows | internal/delivery/model.go:75-99 | each wait of the schedule is longer than the one before, whatever the jitter of either |
| Deliveries.Schedule | internal/delivery/model.go:75-114 | the waits are 1, 5 and 15 minutes, 1, 6 and 24 hours, spread over exactly a tenth to either side |
| Deliveries.ClaimedRows | internal/delivery/repository.go:110-147 | a claim makes exactly the chosen rows delivering, locked by the worker from that moment, and leaves the others, the attempts and the index as they were |
| Deliveries.Repository.Enqueue | internal/delivery/repository.go:58-92 | a second enqueue for an event and destination returns the first and adds nothing |
| Deliveries.Repository.Claim | internal/delivery/repository.go:110-147 | the loop refines the batch claim and returns the rows as locked, in order |
| Deliveries.Repository.ReleaseStale | internal/delivery/repository.go:153-165 | refines the release of locks older than the given age |
| Deliveries.Repository.RecordSuccess | internal/delivery/repository.go:168-183 | attempt and row are written together, by the id of the copy alone; a missing row changes nothing |
| Deliveries.Repository.RecordFailure | internal/delivery/repository.go:187-210 | likewise for a failure, which ends the delivery when it is not to be retried or the copy's attempts are used up |
| Deliveries.Repository.InsertAttempt | internal/delivery/repository.go:362-374 | the first record of an attempt number is kept |
| Deliveries.Repository.Retry | internal/delivery/repository.go:216-237 | requeues anything but a delivery under way, with its counter reset |
| Deliveries.Worker.Process | internal/delivery/worker.go:183-247 | refines the processing rule for every reply: unprepared, no answer, blocked, any status code |
| Deliveries.Worker.Drain | internal/delivery/worker.go:135-153 | claims a batch and processes each row from its copy as claimed |
| DeliveryProtocol.OutcomeOfAnAttempt | internal/delivery/worker.go:183-247 | which replies end in succeeded, which in dead and which in failed, and that a failed delivery is not due before the schedule says, give or take a tenth |
| DeliveryProtocol.RecordOfAnAttempt | internal/delivery/worker.go:183-247 | what is kept of an attempt: status and trouble as they were met, under one number past the copy's unless that was recorded before, and in the row the same without a lock; nothing else changes |
| DeliveryProtocol.StaleIsReleased | internal/delivery/repository.go:153-165 | recovery fails, unlocks and makes due exactly the rows locked for more than five minutes |
| DeliveryProtocol.ProcessedIsRecord | internal/delivery/worker.go:183-247 | processing records one attempt, numbered one past the copy, in a row that is unlocked and either ended or has attempts left |
| DeliveryProtocol.RecordedAttempt | internal/delivery/repository.go:362-374 | recording under the next or a used number keeps the numbers gapless and the earlier records |
| DeliveryProtocol.NextSound | internal/delivery/repository.go:110-237 | every step, late and repeated records included, keeps the accounting of attempts |
| DeliveryProtocol.AttemptsAreAccounted | internal/delivery/repository.go:153-237 | in every reachable state a delivery is locked exactly while it is delivering, its recorded attempts are 1 to m with m at most its maximum, and it has an attempt left unless it has ended |
| DeliveryProtocol.AttemptsAreKept | internal/delivery/repository.go:362-374 | no later record, retry or crash changes or removes a recorded attempt |
| DeliveryExclusion.OneAttemptAtATime | internal/delivery/repository.go:110-165 | when attempts end before their locks go stale, no two workers attempt a delivery at once and each works on the row it claimed |
| DeliveryExclusion.SuccessIsUndoneBy | internal/delivery/repository.go:168-237 | a step takes a delivery out of succeeded if and only if it retries it or records a failed attempt of a worker whose copy is out of date |
| DeliveryExclusion.LateFailureUndoes | internal/delivery/worker.go:135-153 | from the empty queue: a lock goes stale, another worker delivers, and the late record of the first leaves the delivery failed and due again |
| DeliveryExclusion.SuccessStays | internal/delivery/repository.go:168-237 | hence with attempts that end in time only a retry does |
| DeliveryTermination.EveryDeliveryEnds | internal/delivery/worker.go:91-153 | in every run without a retry by hand, however late workers are, the claims and ends of attempts at a delivery are at most what was left to do, one for each crash and two for each allowed attempt whenever an attempt still under way lost its lock; when they reach that, it has ended and no attempt at it is under way |
| DeliveryTermination.RestIsNothing | internal/delivery/worker.go:91-153 | nothing is left to do if and only if the delivery has ended and no attempt at it is under way |
| DeliveryTermination.TimelyDeliveryEnds | internal/delivery/worker.go:135-153 | when every attempt ends before its lock is stale nothing is overtaken: two steps for each allowed attempt and one for each crash are all it can take |
| DeliveryTermination.CanAlwaysEnd | internal/delivery/worker.go:91-180 | from every state a run can reach, late workers included, some run without crash or retry brings a given delivery to an end with no attempt under way |
| DeliveryRetries.RetryRevives | internal/delivery/repository.go:216-237 | a retry answers NotFound exactly for a missing row and InFlight exactly for one being delivered; any other, dead and succeeded included, is then pending, unlocked, at its first attempt and due at that moment |
| DeliveryRetries.RetryGivesAFullRound | internal/delivery/repository.go:212-225 | from every state that is no attempt under way, some run without a crash or another retry makes every allowed attempt after the retry, over exactly the waits of the schedule |
| DeliveryRetries.ScheduleSpans | internal/delivery/model.go:67-86 | with seven attempts those waits add up to 1881 minutes, a little over 31 hours |
| Publishing.Publisher.CreateEvent | internal/event/repository.go:47-78 | stores the event unless its key is taken |
| Publishing.Publisher.EnqueueAll | internal/delivery/publisher.go:72-88 | queues to the listed destinations in order up to the first that fails: exactly those before it are queued to, and one delivery is returned for each of them |
| Publishing.Publisher.Publish | internal/delivery/publisher.go:55-110 | one transaction: after a failure both tables are as before, a duplicate changes nothing, otherwise event and deliveries are there together, one returned for each destination |
| FanOut.NothingHalfDone | internal/delivery/publisher.go:55-110 | a failed and a repeated publish change nothing at all |
| FanOut.FanOutIsExact | internal/delivery/publisher.go:55-110 | in every run, whatever is delivered or reconfigured, an event has exactly one delivery for each destination of its audience, none for any other, and no delivery lacks its event |
| FanOut.AudienceIsFixed | internal/delivery/publisher.go:72-88 | the audience is exactly the enabled destinations of the application that took the type when it was published, for good |
| FanOut.PublishedIsQueued | internal/delivery/publisher.go:72-88 | a new event is queued to each listed destination at its address of the moment: pending, due at once, never tried, with seven attempts |
| FanOut.DuplicateMeansSameOccurrence | internal/event/repository.go:47-78 | a publish counts as repeated if and only if the same occurrence is stored |
| FanOut.OneEventPerOccurrence | internal/event/types.go:109-185 | every run stores at most one event per payout and type, and per payment and type other than the two refund states |
| Events.KeysAreInjective | internal/event/types.go:109-185 | two occurrences of any families share a key if and only if they are the same, for ids and types without a colon |
| Events.SplitsOnce | internal/event/types.go:109-185 | a string splits at its first colon in one way |
| Events.TypeIsTheName | internal/event/types.go:113-139 | the event of a payment status is named after the status |
| Events.TypesDiffer | internal/event/types.go:113-139 | each payment status has an event of its own |
| Idempotency.Store.Claim | internal/payment/idempotency.go:79-142 | the caller owns the key if and only if there was no record or it had run out |
| Idempotency.Store.Complete | internal/payment/idempotency.go:163-180 | completes whatever claim is in progress under the key, without looking at whose it is |
| Idempotency.Store.Release | internal/payment/idempotency.go:184-193 | drops a claim in progress, never a completed record |
| Idempotency.Store.Prune | internal/payment/idempotency.go:196-203 | keeps exactly the records that have not run out |
| Idempotency.Handler.CreatePayment | internal/api/payments.go:77-155 | refines the request rule: only the owner works, completes or releases |
| Idempotency.RepeatIsReplayed | internal/api/payments.go:99-154 | a repeated request is answered with the first answer and changes nothing until the key runs out; a failed one leaves no trace |
| Idempotency.RequestIsAnswered | internal/api/payments.go:77-155 | whoever else holds its key, how a request is answered: the work is done only if nobody does or did so more than 24 hours ago; otherwise another request is a conflict, the same one gets the answer there is or is told it is being worked on, and nothing changes |
| Idempotency.NextSafe | internal/payment/idempotency.go:79-203 | with the two statements of a claim freely interleaved, every step keeps claims with their owners and completed records traceable |
| Idempotency.HeldExactly | internal/payment/idempotency.go:79-131 | while every request at work holds its claim, a step takes one away if and only if it takes over or prunes a claim that has run out |
| Idempotency.ClaimsAreKept | internal/payment/idempotency.go:79-203 | over a whole run every request at work keeps its claim if and only if none is taken over or pruned |
| Idempotency.OneOwner | internal/payment/idempotency.go:79-142 | and then at most one request works under a key at a time, with the two statements of the claims freely interleaved |
| Idempotency.SecondWorkerExactly | internal/payment/idempotency.go:79-142 | a second worker appears under a key if and only if a request reads the key as its own while another, whose claim is gone, is still at work |
| Idempotency.DisplacedIsJoined | internal/payment/idempotency.go:79-142 | a claim lost by a request at work is enough for that: whoever took it over, or claims next, joins it |
| Idempotency.TracedExactly | internal/payment/idempotency.go:163-180 | a step makes an answer on record wrong if and only if it completes a claim in progress for a request whose result it is not, and then the two requests differ |
| Idempotency.AnswersAreForTheSameRequest | internal/payment/idempotency.go:134-180 | over a whole run, whatever the timing, every answer given or on record was created for the same key and request hash if and only if no completion is misdirected |
| Idempotency.MisdirectedIsRead | internal/payment/idempotency.go:134-142 | whoever repeats the request that holds a claim completed that way is answered with the result of another |
| Idempotency.WorkInTimeIsEnough | internal/payment/idempotency.go:79-203 | when work is over before its claim runs out, no completion is misdirected and no claim lost |
| Idempotency.CompletedStays | internal/payment/idempotency.go:79-203 | a completed record stays as it is until it runs out, in every run |
| Idempotency.CompletedIsNotRedone | internal/payment/idempotency.go:134-142 | while it stays nobody works under the key, and a further claim reads the answer or, for another hash, a conflict |
| Idempotency.OvertakenAnswersWrongly | internal/payment/idempotency.go:163-180 | from the empty table: a run in which a replay answers one request with what was created for another |
| PaymentStatuses.PredecessorsOf | internal/gateway/status.go:143-151 | the list for the database holds exactly the statuses that may move to the given one, each once and by rank |
| PaymentStatuses.MovesAre | internal/gateway/status.go:65-99 | the moves the ranks leave, status by status |
| Payments.Repository.ApplyState | internal/payment/repository.go:367-417 | updates the row exactly when its status may move to the new one; otherwise it is stale and nothing changes |
| Payments.NothingIsUndone | internal/payment/repository.go:384-409 | over any updates: settled stays settled, a failed row is never touched again, the rank falls only from REFUNDED to PARTIALLY_REFUNDED, a status is entered with its time, and a time once set never changes |
| Payments.FinalIsTheRows | internal/payment/repository.go:384-409 | the status of a row after any updates is that of the reports alone |
| Payments.ConsistentReportsLeaveTheHighest | internal/gateway/status.go:65-99 | reports without a conflict, in any order and with any repeats, leave the highest-ranked one seen |
| Payments.OrderDoesNotMatter | internal/gateway/status.go:65-99 | every order of the same reports leaves the same status if and only if no two of them conflict |
| Refunds.Service.SucceededRefundTotal | internal/payment/refund_repository.go:104-114 | the loop computes the sum of the succeeded refunds alone |
| Refunds.Service.Reserve | internal/payment/refund_service.go:51-108 | refines the reservation rule, error by error; a refused one changes nothing |
| Refunds.Service.ApplyRefundToPayment | internal/payment/refund_service.go:158-197 | refines the rule for the payment after a refund |
| Refunds.Service.MakeRefund | internal/payment/refund_service.go:33-155 | refines reservation, gateway call and recording in sequence; any error of the call, an answer lost after the refund was made included, is recorded as FAILED |
| Refunds.GrantedExactly | internal/payment/refund_service.go:34-108 | a reservation is granted if and only if it is not negative, comes from the payment's application or none, the payment was paid, something and enough of it is left and the key is new; each refusal is given exactly when its check is the first to fail |
| Refunds.NextAddsExactly | internal/payment/refund_service.go:51-146 | a step adds a refund if and only if it is a reservation that may be granted; the others keep key and amount, and their outcome once they have one |
| Refunds.OnlyPaidIsRefunded | internal/payment/refund_service.go:62-64 | over every run, whatever is reported of the payment, only a payment that was paid has refunds, each for something and at most what was paid, and no key is used twice |
| Refunds.RefundsExactly | internal/payment/refund_service.go:51-146 | over every run, no more is recorded as succeeded than was paid, in any state, if and only if no refund is recorded as made for more than is left then; succeeded and pending together stay within it if and only if no reservation asks for more than is neither |
| Refunds.NextRecordedExactly | internal/payment/refund_service.go:140-146 | a step keeps what is recorded as succeeded within what was paid if and only if it does not record a refund larger than what is left |
| Refunds.NextCommittedExactly | internal/payment/refund_service.go:66-81 | a step keeps succeeded and pending within what was paid if and only if it is no reservation larger than what is neither |
| Refunds.RefundsStayWithin | internal/payment/refund_service.go:51-146 | with at most k refunds in flight, the amounts recorded as succeeded and pending together never exceed k times the payment; one at a time, no more is recorded as succeeded than was paid |
| Refunds.BoundIsReached | internal/payment/refund_repository.go:104-114 | for every k some run records exactly k times the payment as succeeded |
| Refunds.EverythingIsEverything | internal/payment/refund_service.go:66-84 | a zero-amount refund, once made, leaves nothing to refund, whatever happened in between |
| Refunds.PaymentFollowsRefunds | internal/payment/refund_service.go:158-197 | for any answer: the payment takes the reported status, or else the one the total stands for, and an event is published, if and only if it may move there; the refunded amount is stored if and only if it moves or was right already |
| RefundReturns.ReturnsExactly | internal/payment/refund_service.go:121-146 | over every run, lost answers and crashes included, the gateway returns no more than was paid, in any state, if and only if it makes no refund larger than what it has not returned; returned and still returnable stay within it if and only if no reservation asks for more than is neither |
| RefundReturns.NextExposureExactly | internal/payment/refund_service.go:66-81 | a step keeps returned and still returnable within what was paid if and only if it is no reservation larger than what is neither |
| RefundReturns.GrantIsSafeExactly | internal/payment/refund_service.go:66-81 | a reservation leaves no course of events before the next one that returns more than was paid, if and only if it asks for no more than was neither returned nor may yet be |
| RefundReturns.ReturnsStayWithin | internal/payment/refund_service.go:51-146 | with at most k refunds open at a time, one whose answer was lost staying open until the gateway refuses it, never more than k times the payment is returned or returnable |
| RefundReturns.RecordedExactly | internal/payment/refund_service.go:130-146 | in every reachable state no more is recorded as returned than was, and exactly as much if and only if every refund the gateway made is recorded as made |
| RefundReturns.RefundingIsARun | internal/payment/refund_service.go:33-155 | a refund nothing interferes with returns the money if and only if the gateway made it, and tells the caller so if and only if the answer was read |
| RefundReturns.LostAnswersReturnAgain | internal/gateway/midtrans/client.go:95-135 | for every k some run with never more than one refund waiting returns k times the payment and records none of it, each answer being lost |
| Notifications.Processor.Process | internal/notification/processor.go:84-185 | refines the processing rule: parsed, verified, attributed, recorded once, applied |
| Notifications.Processor.Apply | internal/notification/processor.go:188-303 | a mapped status the payment may move to is applied and announced, any other only marks the record |
| Notifications.OnlyTakenNotificationsTouch | internal/notification/processor.go:84-303 | a payment changes if and only if a verified notification, the first under its key, reports a known order in an allowed status |
| Notifications.TakenIsApplied | internal/notification/processor.go:188-303 | what a notification that takes makes of its payment, column by column, and the one event it announces |
| Notifications.RoutingIsExact | internal/notification/processor.go:84-185 | how every notification is answered and recorded: unparsable, already recorded, rejected, unrouted, ignored, routed or duplicate, each exactly when |
| Notifications.ForgeriesChangeNothing | internal/notification/processor.go:97-145 | any number of unverified notifications change no payment and announce nothing |
| Notifications.ChangedStatusIsAnnounced | internal/notification/processor.go:188-303 | after any notifications a payment whose status changed has that status announced |
| Notifications.RecordIsTheFirst | internal/notification/repository.go:86-114 | a key is recorded as the first notification under it was, verified or not, for good |
| Notifications.CountsExactly | internal/notification/processor.go:110-145 | a genuine report counts, itself or an earlier copy of it, if and only if the first notification under its key was verified |
| Notifications.ShadowedIsIgnored | internal/notification/processor.go:110-145 | a notification that an unverified one came before under its key changes nothing at all |
| Notifications.ReportsLeaveTheHighest | internal/notification/repository.go:86-114 | whatever else arrives, forgeries under the same keys included, the reports that count, redelivered and reordered, leave a payment in the highest-ranked of them if they do not conflict |
| Notifications.ForgedKeyBlocks | internal/notification/processor.go:110-145 | a report that would move a payment changes nothing if a forged copy of it came before |
| Ulid.EncodeUlid | internal/ids/ids.go:129-158 | the 26 unrolled expressions are the base-32 digits of the bytes, spelled in the alphabet |
| Ulid.DigitsAreTheNumber | internal/ids/ids.go:129-158 | those digits write the same number as the 16 bytes, and the first ten the same as the first six |
| Ulid.EncodingKeepsOrder | internal/ids/ids.go:1-6 | identifiers are ordered as the bytes they write, and no two byte strings write the same one |
| Ulid.LaterSortsLater | internal/ids/ids.go:1-6 | an identifier made in a later millisecond sorts later, whatever the random parts |
| Ulid.RandomPartDecides | internal/ids/ids.go:113-126 | of two identifiers made in one millisecond the random part decides the order, and different ones never give the same identifier |
| Ulid.TimeIsRecovered | internal/ids/ids.go:96-126 | the time read from an identifier is the time it was made at to 48 bits, and its text is well formed |
| Ulid.BuildDecoding | internal/ids/ids.go:43-58 | the two loops and the aliases fill the table with each character's value |
| Ulid.DecodesSymbol | internal/ids/ids.go:43-58 | decoding undoes encoding for each of the 32 letters |
| Ulid.CharactersMean | internal/ids/ids.go:41-58 | what every character stands for: a digit, a letter of either case in order without I, L, O and U, and 1, 1 and 0 for the first three |
| Ulid.Validate | internal/ids/ids.go:70-85 | accepts exactly the prefix, an underscore and 26 readable characters |
| Ulid.TimeOf | internal/ids/ids.go:96-111 | the shifting loop computes the number the ten leading characters write, or refuses the text |
| Ulid.MakeUlid | internal/ids/ids.go:113-126 | fills the bytes with the time and the random part and encodes them |
| Numerals.OrderOfDigits | internal/ids/ids.go:1-6 | digit strings of one length are ordered as the numbers they write |
| Money.Format | internal/money/money.go:73-95 | the decimal text of an amount, or the error for an unknown currency |
| Money.Parse | internal/money/money.go:102-149 | the reading of a text, or the reason it has none |
| Money.Currencies | internal/money/money.go:24-58 | IDR, JPY, KRW and VND have no decimals, the seventeen other codes have two, and no other is known |
| Money.CodesIgnoreCase | internal/money/money.go:65-68 | a code is known in either case and within any spaces |
| Money.AmountIsWritten | internal/money/money.go:73-95 | the text of an amount is the amount itself in the four currencies without decimals and a hundredth of it, to two places, in the others, without superfluous zeros |
| Money.AmountIsRead | internal/money/money.go:97-149 | a text is read as exactly the amount it denotes in the four currencies without decimals and a hundred times that in the others |
| Money.RefusedExactly | internal/money/money.go:97-149 | a text is refused exactly when it is empty, no decimal, denotes no whole number of minor units, or one of more than 63 bits, each with its own error |
| Money.ParseMagnitude | internal/money/money.go:120-149 | the unsigned reading of the split and padded parts |
| Money.Pow10 | internal/money/money.go:163-169 | the loop computes the power of ten |
| Money.IsDigits | internal/money/money.go:151-161 | true exactly for non-empty strings of ASCII digits |
| Money.ParseIsExact | internal/money/money.go:97-149 | whenever a text parses, the result is its decimal value times ten to the exponent exactly, with no rounding |
| Money.ParseFindsEveryAmount | internal/money/money.go:97-149 | every well-formed text whose value is a whole number of minor units in range parses |
| Money.RoundTrip | internal/money/money.go:73-149 | parsing what was formatted, within any spaces, gives the amount back, for every known currency and every amount if and only if it is not the smallest |
| Money.RoundTripText | internal/money/money.go:73-149 | for either exponent, the text of an amount, within any spaces, parses to it if and only if it is not the smallest |
| Paging.Normalize | internal/storage/page.go:23-31 | the limit is brought into 1 to 100, 25 if there is none, and left alone when it is there |
| Paging.NewList | internal/storage/page.go:47-57 | trims to the limit and reports more exactly when something was trimmed |
| Paging.BuildConditions | internal/payment/repository.go:281-320 | the conditions gathered select exactly the rows the filter and the cursor ask for |
| Paging.ListRows | internal/payment/repository.go:278-344 | one page is the newest matching rows below the cursor, with the sentinel trimmed |
| Paging.PageIsExact | internal/storage/page.go:23-57 | a page is the newest matching rows after its cursor, as many as fit, and says whether there are more |
| Paging.ContinuesAfter | internal/payment/repository.go:278-344 | continuing after the k-th row gives exactly the rows after it |
| Paging.WalkIsExact | internal/storage/page.go:14-57 | a walk to the last page returns exactly the rows that matched when it began, newest first and each once, whatever arrives meanwhile, and ends after as many pages as hold them |
| Paging.NewestIsSorted | internal/payment/repository.go:278-344 | the matching rows are all listed, once each, by falling identifier |

## Left out

- PayoutAdmission.RollingLimitHolds: does not cover a limit that changes during the run; admission split over two transactions is covered as far as it leaves room, and otherwise bounded by PayoutOverlap.OverlapIsBounded.
- PayoutAnswers.BooksAreTrueExactly: covers a copy equal to the stored row, and a row no unique index or check blocks; what a stale copy can do is bounded by PayoutEffects.CreateRecordedHasEffect.
- PayoutTheorems.AtMostOneTransfer: does not cover requests that reach the gateway later than the timing assumption allows, because then it is false (PayoutWitnesses.PaidTwice); PayoutTheorems.TransfersAreArrivals counts the transfers of every run.
- Notifications.ReportsLeaveTheHighest: takes each notification to be processed without interruption, because recording and applying are separate transactions and a crash between them loses the report.
- Paging.WalkIsExact: takes identifiers as numbers (their text is ordered alike, Ulid.EncodingKeepsOrder) and rows that do not change while they are walked over.
- Deliveries.Worker.Drain: processes the claimed rows one after the other; the protocol lets their attempts overlap.
- Iris.Vocabulary: case is mapped for ASCII letters only, in status words as in currency codes; the spaces trimmed are all those of Unicode, in UTF-8.
- Money.Format: upper-cases ASCII letters only, so a currency code with a non-ASCII letter whose upper case is ASCII is unknown here and known to the code.
- Money.Parse: upper-cases ASCII letters only, as Money.Format does.
- PostgreSQL: every SQL statement is one step on maps with unique keys, and a transaction is all or nothing; isolation levels, aborted transactions and `FOR UPDATE SKIP LOCKED` beyond "some due rows" are not modelled.
- Clocks: one monotone integer clock stands for the database's, the application's and the gateway's; history is in order of commit.
- Randomness: jitter is any value in its range, and generated identifiers are any new ones.
- Events of payouts, payments and refunds published after the change they announce: publishing is taken to succeed; in the code a failure is logged and the change stands.
- Derived and descriptive columns: failure codes the gateway reports with a status, status rank, durations, response bodies, fraud status, payment method, gateway data, customer and items.
- JSON encoding, hashing, signatures, address checks and HTTP transport: a request hash, a verified flag and a reply stand for them.
- Beneficiaries beyond usable or not, destinations' deletion, subscriptions, accounts, audit log, dashboards, rate limiting and configuration: they add only single-branch rules.
- Listings of payouts and beneficiaries: their queries do not apply the cursor.
