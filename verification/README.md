# RideFleet core: the ride saga, modelled and proved

RideFleet lets independent ride services delegate rides to each other through one core.  A ride is created by its
origin group, auctioned among the other groups, won, confirmed, driven and completed; it can be compensated and
auctioned again, or cancelled.  Three writers change a ride's status: the groups through PATCH, the auction worker
and the lock monitor.  They cooperate only through the ride's auction status, its lease row, the last client
timestamp and a comma-joined exclusion list.  This project models that cooperation and proves what it guarantees.

## How the model is built

- **Values.** `Saga.State` is everything the core keeps: groups, rides, leases, the audit log, the `auction_request`
  queue with its acknowledgements, proposals, breakers, the Lamport clock and the wall clock.  `Saga.Apply` is one
  step, `Saga.Reach` a run from the empty state, `Saga.Reachable` any state such a run leads to.  The steps are group
  registration, time passing, a use of a breaker by the HTTP controllers, creation, PATCH, lease acquisition and
  release, the delivery of one queue message (acknowledged or left to be delivered again) and one iteration of the
  lock monitor.  Every step is allowed in every state.
- **One ride at a time.** A `View` is one ride's row, lease, log and messages, and a `Move` is what a step does to it.
  `RideMoves.Follows` shows that every step is a legal move of each ride; the invariants in `RideInvariants` are kept
  by every legal move, and so hold of every ride in every reachable state.
- **Objects.** The clock, the breakers and their manager, the repositories, the ride service, the state machine
  service, the auction worker and the lock monitor are classes whose methods update their fields as the program does,
  with its loops and early returns.  Each handler is proved to take the tables exactly where `Apply` takes them, so
  every theorem about runs is about these methods.

Files: `ExclusionList`, `LamportClock`, `CircuitBreaker`, `Auction` are the algorithmic pieces; `RideModel`, `Saga`,
`RideMoves` the state machine; `AuditTrail`, `RideInvariants` the invariants; `SagaProperties`, `Causality`,
`Delivery`, `Leases`, `SagaBound`, `SagaLimits` the main results;
`StepEffects` and `AuctionOutcome` what each step and each auction round mean, written out without the functions that
define them; `Repositories`, `Core`, `StateMachineService`, `RideService`,
`AuctionWorker`, `LockMonitor` the objects.  `dafny verify dfyconfig.toml` checks the whole project.

## Assumptions

- One handler, one message delivery and one whole sweep of the monitor are each one atomic step.  The code commits
  several times per handler and takes no row locks.  An `Expire` step is one iteration of a sweep; a sweep is a run of
  them (`LockMonitors.LockMonitor.Sweep`), so what holds of all runs holds of all sequences of handlers and sweeps.
  The sweep has to be one step because the code lists the expired rows once and never looks at them again:
  `LockMonitors.LockMonitor.Handle` says what one iteration does to any tables, and
  `LockMonitors.StaleRowTakesRenewedLease` what it takes from a holder who renews in the middle of a sweep.
- One process lifetime (the clock and the breakers start anew with the process), and no database exceptions.
- Registered group ids match `^[a-z0-9-]+$` and are unique.  The `serviceId` of a PATCH or a lease request is free
  text, so exclusion lists are treated for arbitrary strings.
- A row id stands for a ride's uuid.  Times are whole microseconds, prices exact reals.  A participant without an
  answer has timed out.  How long the collection of answers takes, what each group answers, and whether the broker takes
  a message are parameters of the step.

## Where the code differs from its documentation

The model follows the code.

- `spec/saga/state-machine.md` calls `cancelled` terminal.  A ride cancelled by PATCH out of `request` keeps its open
  auction, and as long as one of its messages is queued it can be matched again (`Delivery.CancelledCanComeBack`, and
  `SagaLimits.CancelledIsNotFinal` for a whole run).  `Delivery.FinalIffFrozen` and `Delivery.StatusFinalIffFrozen` say
  exactly when a ride's row and its status can no longer change.
- The documentation opens a breaker after two failures; the code opens it on the third
  (`CircuitBreakers.OpensOnThirdFailure`, and in general `CircuitBreakers.ClosedIffFewFailures`).
- The documentation asks for an active lease for `confirm`, `in_transit` and `complete`.  The code compares the holder
  only; an expired row that has not been swept is enough (`SagaProperties.ForwardIffHolder`).
- The documentation reserves compensation to the core and starts it from `match`, `confirm` and `in_transit`.  A PATCH
  into `compensating` or `cancelled` with a newer timestamp is accepted from every group exactly when the table allows
  it (`SagaProperties.UnguardedIffInTable`), and the monitor also compensates live rides in `request`
  (`Leases.SweepCorrect`).
- `spec/saga/state-machine.md` and `spec/api/openapi.yaml` exclude the group that failed.  A PATCH excludes its sender
  (`SagaProperties.CompensationExcludesSender`) and the monitor whoever holds the lease (`Leases.SweptExclusions`), so
  the assigned group can win again even on the newest message and with no message lost
  (`SagaLimits.RepeatAfterPatch`, `SagaLimits.RepeatAfterTakeOver`).
- The idempotence key is ride, service and client timestamp; a second PATCH under the same key is acknowledged without
  effect even when it asks for another state (`SagaProperties.ResubmissionChangesNothing`).
- A renewal may shorten the holder's own lease (`Leases.RenewalCanShorten`).
- A publication that fails is only logged.  A compensation whose message is lost leaves its ride in `compensating` for
  good (`Delivery.LostMessageFreezes`).
- A queued older message still carries the older exclusion list.  After a compensation it can give the ride back to the
  group that was just excluded (`SagaLimits.RepeatWinner`, and `SagaLimits.OneGroupCanWinTwice` for a whole run).
- Taken together, winners are sure to stay distinct only when the ride is final: `SagaLimits.DistinctForeverIffFrozen`.
- A `serviceId` with a comma is read back from the column as several groups (`ExclusionList.MessageMatchesColumn`).

## Model

| member | source | states |
|---|---|---|
| `SagaProperties.ReplayReproducesRide` | app/services/state_machine_service.py:122-210 | In every reachable state, folding a ride's audit events gives exactly its stored status and core timestamp; a ride without a row has no events. |
| `SagaProperties.FromStatesAreReplayed` | app/services/state_machine_service.py:179-208 | Every recorded `fromState` is the status the events before it fold to, and creation is the first event and only the first. |
| `SagaProperties.LogFollowsStateMachine` | app/services/state_machine_service.py:27-47 | Every log is a path through the state machine: what the events before it fold to admits each next event. Creation comes first and once; a transition starts from the status reached; an auction closes only on a ride in request, compensating or cancelled. |
| `SagaProperties.TransitionsAreLawful` | app/services/state_machine_service.py:97-105 | Each recorded transition that carries a client timestamp is one of the table, and each other one is the core's compensation of a ride in request, match, confirm or in_transit. |
| `SagaProperties.PatchOutcome` | app/services/state_machine_service.py:93-120 | How every PATCH ends in every reachable state: 404 for an unknown ride; already applied when the log holds one with this sender and timestamp; 422 unless the move is one of the diagram, listed move by move, and the timestamp is newer; 409 for confirm, in_transit and complete unless the lease row names the sender; accepted otherwise. |
| `SagaProperties.AcceptedIff` | app/services/state_machine_service.py:27-53 | With a newer timestamp, a PATCH is accepted if and only if it is match to confirm, confirm to in_transit, in_transit to complete, one of these three to compensating, or one of them or request to cancelled, and for confirm, in_transit and complete the lease row names the sender. |
| `SagaProperties.UnguardedIffInTable` | app/services/state_machine_service.py:93-120 | A PATCH to any other state, with a newer timestamp, is accepted if and only if the move is permitted, whichever group sends it. |
| `SagaProperties.AuctionConservation` | app/workers/auction_worker.py:118-125 | However messages are duplicated or redelivered: closings, plus one while the auction is open, equal one plus the compensations out of match, confirm or in_transit. |
| `SagaProperties.StatusFitsAuction` | app/workers/auction_worker.py:308-323 | Request and compensating imply an open auction; match to complete imply a closed one and a registered recipient other than the origin; no proposals implies cancelled; the closing time is empty exactly while open. |
| `SagaProperties.LeaseAgreesWithLog` | app/services/ride_service.py:389-406 | A lease row belongs to an existing ride and its holder is the one the ride's log replays to. |
| `SagaProperties.HoldersAgreeUnlessDropped` | app/workers/lock_monitor.py:55-65 | After any run, lease row and log agree on the holder, or on there being none, if and only if the last step that moved the lease was not the monitor's silent deletion. |
| `SagaProperties.OnlyDropDiverges` | app/workers/lock_monitor.py:60-65 | One step: they agree afterwards if and only if the step moved the lease otherwise than by that deletion, or left it alone and they agreed before. |
| `SagaProperties.CompletionHistory` | app/services/state_machine_service.py:27-53 | The last four status events of a complete ride are an auction won by its recipient, then match to confirm, confirm to in_transit, in_transit to complete. |
| `SagaProperties.GuardedMovesCameFromHolder` | app/services/state_machine_service.py:113-120 | Wherever it stands in a log, a move to confirm, in_transit or complete was sent by the holder of record at that point. |
| `SagaProperties.ForwardIffHolder` | app/services/state_machine_service.py:102-120 | A permitted move to confirm, in_transit or complete with a newer timestamp is accepted if and only if the lease row names the sender, expired or not. |
| `SagaProperties.ClientStampsIncrease` | app/services/state_machine_service.py:107-162 | Client timestamps of accepted PATCHes strictly increase along a ride's log, so the idempotence query matches at most one row. |
| `SagaProperties.NeverManyRows` | app/repositories/audit_repository.py:39-57 | In no reachable state can the idempotence query fail on several rows. |
| `SagaProperties.ResubmissionChangesNothing` | app/services/ride_service.py:238-250 | An accepted PATCH sent again after any further steps, even with another target state, leaves the whole state as it is, clock included, and is answered as already applied. |
| `SagaProperties.MessagesCarryPrefix` | app/services/ride_service.py:291-316 | Every message ever published carries a prefix of the ride's stored exclusion list, as both read back; literally a prefix when its ids are plain. |
| `SagaProperties.StoredExclusionsGrow` | app/workers/lock_monitor.py:100-106 | Along any run the stored exclusion list only grows, at its end. |
| `SagaProperties.CompensationExcludesSender` | app/services/ride_service.py:291-294 | An accepted PATCH into compensating appends its sender, as it reads back, to the stored exclusions, whoever the ride is assigned to. |
| `SagaProperties.WinnerIsEligible` | app/workers/auction_worker.py:127-133 | From any state with unique group ids: an auction closes only by delivering a queued message of its ride, picks a registered group that is neither the origin nor in that message's list, matches the ride with it and leases it to that group for sixty seconds from the closing. |
| `SagaProperties.StatusEventsBounded` | app/services/state_machine_service.py:27-55 | Without any assumption on the groups, a ride has at most four status events per won auction, and three more. |
| `RideInvariants.ReachableIsGood` | app/workers/auction_worker.py:305-360 | All ride invariants together hold of every ride in every reachable state, and group ids stay valid and unique. |
| `RideMoves.Follows` | app/services/ride_service.py:88-327 | Every step of the core is, for each ride, one move whose guards held and whose timestamps lie between the old and the new clock; other rides are untouched. |
| `RideMoves.RunGroups` | app/services/auth_service.py:29-76 | Along any run the registered groups are only appended to, with unique ids that match the pattern. |
| `Causality.AuditInOrder` | app/core/lamport_clock.py:19-34 | The audit log of the whole core is strictly increasing in logical time, so stamps differ across rides too, and none exceeds the clock. |
| `Causality.RideStampsInOrder` | app/services/state_machine_service.py:141-142 | For every ride, last client timestamp < core timestamp <= clock. |
| `Causality.StepKeepsOrder` | app/services/state_machine_service.py:122-162 | No step turns the clock back, and whatever a step records is stamped after everything recorded before. |
| `Causality.SortedIsUnique` | app/repositories/audit_repository.py:27-37 | A strictly stamped log has one sorted arrangement: itself. |
| `Causality.ListingIsAppendOrder` | app/repositories/audit_repository.py:27-37 | Ordering a ride's events by logical timestamp, by any method, gives them in the order of writing. |
| `Delivery.NoStrandedRide` | app/workers/auction_worker.py:572-601 | If no publication for a ride is lost, then whenever its auction is open one of its messages is still unacknowledged. |
| `Delivery.FinalIffFrozen` | app/services/state_machine_service.py:97-105 | A ride's row is the same after every continuation if and only if the ride is complete, or is cancelled or compensating without both an open auction and a queued message. |
| `Delivery.StatusFinalIffFrozen` | app/workers/auction_worker.py:118-125 | The same condition says exactly when the status alone can no longer change. |
| `Delivery.RunKeepsFrozen` | app/workers/lock_monitor.py:60-65 | No sequence of steps changes any column of such a ride; its lease may still come and go. |
| `Delivery.CancelledCanComeBack` | app/workers/auction_worker.py:118-133 | Every cancelled ride with an open auction and a queued message has a continuation that matches it, whoever is registered now. |
| `Delivery.DeliveryPicks` | app/workers/auction_worker.py:127-133 | Delivering any queued message of an open auction in which one invited group bids matches the ride with that group. |
| `Delivery.LostMessageFreezes` | app/services/ride_service.py:317-322 | A compensation whose only message is lost leaves the ride compensating and frozen. |
| `Leases.LeaseExclusion` | app/services/ride_service.py:375-389 | After a lease granted until e, another group acquires it before e only if some step in between gave it up: release or shorter renewal by the holder, a PATCH to a terminal state, or a closing auction that does not lease the ride to the holder until e or later. |
| `Leases.StepKeepsLeaseIff` | app/services/ride_service.py:375-436 | While a lease lasts, a step gives it up in this sense if and only if the holder no longer has it until e afterwards. |
| `Leases.RunKeepsLease` | app/services/ride_service.py:421-436 | Along any run without such a step the holder keeps a lease until e or later. |
| `Leases.NewRideIsReserved` | app/services/ride_service.py:132-135 | A new ride's lease excludes all other groups until thirty seconds after its auction timeout, in the same sense. |
| `Leases.RenewalCanShorten` | app/repositories/lock_repository.py:31-60 | A holder that renews for less lets another group in before the first expiry. |
| `Leases.RefusedIffNotSweepable` | app/repositories/lock_repository.py:71-76 | Other groups can acquire a lease if and only if the monitor would act on it: refused and expired are exact complements. |
| `Leases.SweepCorrect` | app/workers/lock_monitor.py:51-106 | After one sweep no expired lease remains; each live ride that lost one is compensating with an open auction and two new events; other rides that lost one, and all rides that did not, are unchanged. |
| `Leases.SweptExclusions` | app/workers/lock_monitor.py:100-106 | The exclusions of such a ride are the old ones followed by the holder as it reads back; by the holder itself when its id is plain. |
| `Leases.SweepPunishesOnce` | app/workers/lock_monitor.py:67-71 | A sweep counts one failure per live ride whose expired lease the group held, and none for leftover leases. |
| `SagaBound.SagaIsBounded` | app/workers/lock_monitor.py:100-120 | If no message is lost, auctions close on the newest message and compensation names the assigned group, then winners are pairwise distinct and never the origin: with n groups at most n-1 matches and 4n-1 status events. |
| `SagaBound.NewestCarriesAll` | app/services/ride_service.py:305-316 | If no publication for a ride is lost, its newest message carries the whole stored exclusion list. |
| `SagaLimits.RepeatWinner` | app/workers/auction_worker.py:127-133 | In every reachable state with an older message that omits the holder of the expired lease, the lapse and that message make the same group win again; if the message of the lapse is lost, the older one may well be the newest. |
| `SagaLimits.RepeatAfterPatch` | app/services/ride_service.py:291-316 | In every reachable state in which the assigned group is not yet excluded and is admitted, a PATCH into compensating by any other sender and the newest message make the assigned group win again. |
| `SagaLimits.RepeatAfterExpiry` | app/workers/lock_monitor.py:100-120 | The same when another group holds the expired lease: the monitor excludes that group instead. |
| `SagaLimits.RepeatAfterTakeOver` | app/services/ride_service.py:378-389 | The same from the take-over on: any group that can acquire the lease of an assigned ride and lets it expire. |
| `SagaLimits.DistinctForeverIffFrozen` | app/workers/auction_worker.py:118-133 | From any reachable state, the winners of a ride are distinct in every continuation if and only if they are distinct now and the ride is final as in `Delivery.FinalIffFrozen`. |
| `SagaLimits.OneGroupCanWinTwice` | app/workers/auction_worker.py:587-593 | A concrete run with two groups in which one of them wins the ride twice. |
| `SagaLimits.CancelledIsNotFinal` | app/workers/auction_worker.py:118-125 | A concrete run in which a cancelled ride is matched. |
| `Auctions.Validate` | app/workers/auction_worker.py:74-91 | A bid passes exactly when its ETA is present and at least one and its price is present and not negative. |
| `Auctions.Reply` | app/workers/auction_worker.py:403-484 | Answer by answer: a proposal is accepted exactly for an offer with an ETA of at least one and a price that is not negative, and then keeps that ETA and price; passed exactly for 204; timed out exactly for a timeout or no answer; an error otherwise. |
| `AuctionOutcomes.WinnerIsCheapest` | app/workers/auction_worker.py:51-71 | The selected bid has the lowest price; among those the lowest ETA; among those no group id comes before it at the first differing character. Missing values come last. |
| `AuctionOutcomes.SelectedIffFirst` | app/workers/auction_worker.py:62-71 | With distinct groups a proposal is selected if and only if it ranks before every other one in that order. |
| `Auctions.WinnerOrderIndependent` | app/workers/auction_worker.py:51-71 | Permuting the bids does not change the winner. |
| `Auctions.WinnerWasInvited` | app/workers/auction_worker.py:127-133 | The winner was invited and made a valid bid; there is none if and only if nobody invited made one. |
| `Auctions.CanWinIffInvited` | app/workers/auction_worker.py:127-133 | A group can win for some answers if and only if the screening invites it. |
| `Auctions.BreakersAfterRound` | app/workers/auction_worker.py:224-276 | After a round each invited group's breaker was read once and got one success if the group declined or made a valid offer, one failure otherwise; a candidate turned away was only read, all others are untouched. |
| `AuctionOutcomes.WinsIff` | app/workers/auction_worker.py:127-300 | A group wins a round if and only if it is registered, neither origin nor excluded, let through by its breaker, made a valid offer, and its offer beats that of every other such group by price, then ETA, then id. |
| `AuctionOutcomes.CountIsBids` | app/workers/auction_worker.py:253-356 | The count reported at the closing is the number of groups with a valid offer. |
| `AuctionOutcomes.StoredIff` | app/workers/auction_worker.py:276-300 | Stored are exactly the replies of the invited groups, flagged for the winner. |
| `Auctions.ExactlyOneFlag` | app/workers/auction_worker.py:289-300 | Exactly one stored proposal of a round is flagged, the winner's, and none when there is no winner. |
| `Auctions.RoundOrderIndependent` | app/workers/auction_worker.py:127-300 | Winner, count, breakers and the multiset of stored proposals do not depend on the order of the groups. |
| `CircuitBreakers.ClosedIffFewFailures` | app/core/circuit_breaker.py:32-53 | After any calls the breaker is closed if and only if the failures since the last success do not exceed the threshold (or there are none). |
| `CircuitBreakers.OpenedByFailure` | app/core/circuit_breaker.py:36-39 | A breaker that is not closed was opened by a failure at the time it remembers, with no success since. |
| `CircuitBreakers.RefusedUntilRecovery` | app/core/circuit_breaker.py:22-30 | After an opening, without a success and before a check past the recovery time, nothing moves the opening time, and a check is admitted if and only if the recovery time has passed. |
| `CircuitBreakers.ChecksRefusedInOrder` | app/core/circuit_breaker.py:41-47 | For calls in time order, every check before the recovery time is refused, also when failures arrive while open. |
| `CircuitBreakers.TrialAdmitted` | app/core/circuit_breaker.py:22-30 | The first check at or past the recovery time lets a trial call through and leaves the breaker half-open. |
| `CircuitBreakers.TrialFailureReopens` | app/core/circuit_breaker.py:36-39 | A failure while half-open opens the breaker again at the time of that failure. |
| `CircuitBreakers.FailedTrialShutsOut` | app/core/circuit_breaker.py:22-47 | After an opening, a trial call and its failure, checks are admitted again if and only if the recovery time has passed since that failure. |
| `StepEffects.DeployedBreaker` | app/core/circuit_breaker_manager.py:5-25 | The deployed breaker stays closed after two failures, opens on the third, and refuses checks for exactly twenty seconds from it. |
| `CircuitBreakers.OpensOnThirdFailure` | app/core/circuit_breaker_manager.py:5-7 | With the deployed threshold two failures leave the breaker closed and the third opens it. |
| `CircuitBreakers.CircuitBreaker.State` | app/core/circuit_breaker.py:22-30 | Reading the state moves an open breaker to half-open once the recovery time has passed. |
| `CircuitBreakers.CircuitBreaker.FailIncrement` | app/core/circuit_breaker.py:32-39 | Does to the fields what `Fail` says, which uses the stored state; in particular a half-open breaker opens now. |
| `CircuitBreakers.CircuitBreaker.CheckState` | app/core/circuit_breaker.py:41-47 | Admits when the state read is closed or half-open, and leaves that state. |
| `CircuitBreakers.CircuitBreaker.Success` | app/core/circuit_breaker.py:49-53 | Does to the fields what `Succeed` says. |
| `CircuitBreakers.CircuitBreakerManager.GetBreaker` | app/core/circuit_breaker_manager.py:16-22 | Hands out the one breaker of the group, a new one on first use, and changes no other. |
| `LamportClocks.LamportClock.Tick` | app/core/lamport_clock.py:19-24 | Rule IR1 of Lamport's 1978 paper: the next value. |
| `LamportClocks.LamportClock.Update` | app/core/lamport_clock.py:26-34 | Rule IR2: the least value past both the local clock and the received timestamp. |
| `ExclusionList.RoundTrip` | app/services/ride_service.py:66-69 | Parsing a comma-join gives the list back if and only if all ids are non-empty and comma-free. |
| `ExclusionList.ParseMissing` | app/services/ride_service.py:66-69 | A missing or empty column reads back as no groups. |
| `ExclusionList.ParseJoin` | app/services/ride_service.py:292-294 | For arbitrary ids, parsing the join parses each id on its own. |
| `ExclusionList.ParseJoinParse` | app/workers/lock_monitor.py:33-37 | For arbitrary text, parse, join, parse is parse. |
| `ExclusionList.AppendStored` | app/workers/lock_monitor.py:101-103 | Appending a group and storing the join extends the stored list by what that group reads back to. |
| `ExclusionList.MessageMatchesColumn` | app/services/ride_service.py:291-316 | The list in the message equals the list read back from the column if and only if the appended id is plain. |
| `StepEffects.CreateEffect` | app/services/ride_service.py:104-169 | Column by column: the new row with its origin, client and core timestamps, timeout and open auction; its lease for the timeout and thirty seconds; one event; one message with the timeout and no exclusions; two clock values. |
| `StepEffects.PatchBeforeCreationRefused` | app/services/state_machine_service.py:107-111 | No PATCH stamped at or before a ride's creation is accepted in any later state. |
| `StepEffects.LatePatchRefused` | app/services/state_machine_service.py:107-111 | No PATCH stamped at or before the ride's client timestamp is accepted in any later state. |
| `StepEffects.PatchEffect` | app/services/ride_service.py:252-322 | Column by column, an accepted PATCH: status and timestamps, the exclusion list, auction status and message for compensation, the lease deleted exactly for complete and cancelled, one event with the old and new state, two or three clock values. |
| `StepEffects.PatchRefusedEffect` | app/services/ride_service.py:238-270 | Any other PATCH changes at most the clock: by one for 422 and 409, not at all for an unknown ride or one applied before. |
| `StepEffects.LeaseAcquired` | app/services/ride_service.py:375-412 | Outcome and whole state: refused only while another group's lease lasts; otherwise a lease from now for the time asked, and one event. |
| `StepEffects.LeaseReleased` | app/services/ride_service.py:421-447 | Outcome and whole state: only the holder releases. |
| `StepEffects.DeliveryIgnored` | app/workers/auction_worker.py:113-125 | A message for an unknown ride or a closed auction moves the clock past its timestamp and nothing else. |
| `StepEffects.AuctionEffect` | app/workers/auction_worker.py:302-393 | Column by column, a closed auction: match, recipient and assignment time with a winner, cancelled without; the lease for sixty seconds or none; the events; the stored proposals; the clock. |
| `StepEffects.ExpiryWithoutTrace` | app/workers/lock_monitor.py:54-65 | A lease that has not expired is left alone; one of a ride that is over, compensating or gone is deleted and nothing else happens. |
| `StepEffects.LapseEffect` | app/workers/lock_monitor.py:67-131 | Column by column, the lapse of a live ride: compensating, open auction, the holder excluded, expiry event of the holder, transition of the core, one message, one failure for the holder. |
| `StepEffects.RegisterEffect` | app/dtos/auth_request_dto.py:7 | A group is added exactly for a new non-empty id of small letters, digits and hyphens. |
| `StepEffects.UseEffect` | app/controllers/ride_controller.py:66-308 | The controllers' checks, failures and successes act on that group's breaker under the deployed limits. |
| `RideServices.RideService.CreateRide` | app/services/ride_service.py:88-188 | The whole state after the call is that of the `Create` step, and the new row is given column by column; returns its core timestamp. |
| `RideServices.RideService.UpdateStatus` | app/services/ride_service.py:218-327 | The whole state and the outcome are those of the `Patch` step: idempotence check, refusals, the transition and compensation. |
| `RideServices.RideService.Compensate` | app/services/ride_service.py:291-322 | Appends the sender to the exclusions, reopens the auction and asks for a new one with the full list. |
| `RideServices.RideService.AcquireLock` | app/services/ride_service.py:375-412 | The whole state and the outcome are those of the `Acquire` step. |
| `RideServices.RideService.ReleaseLock` | app/services/ride_service.py:421-447 | The whole state and the outcome are those of the `Release` step. |
| `StateMachine.StateMachineService.ApplyGroupTransition` | app/services/state_machine_service.py:79-165 | Accepts exactly a permitted move with a newer timestamp whose sender, for confirm, in_transit and complete, is named by the lease row; refuses in the order of the checks and then changes nothing; an accepted transition changes the row, deletes the lease on a terminal target and records one event. |
| `StateMachine.StateMachineService.ApplyCoreTransition` | app/services/state_machine_service.py:167-210 | Sets status and core timestamp, leaves the client timestamp, and records one event of the core. |
| `AuctionWorkers.ScreenGroups` | app/workers/auction_worker.py:127-133 | The filter loop invites whom `Screen` invites and moves the breakers as it does; breakers are read only for candidates. |
| `AuctionWorkers.ClassifyAnswers` | app/workers/auction_worker.py:224-276 | The classification loop yields the proposals, the accepted ones and the breakers of `Classify`. |
| `AuctionWorkers.AuctionWorker.Collect` | app/workers/auction_worker.py:127-300 | Screening, collection, grading and selection give the round of `Conduct` and store its proposals. |
| `AuctionWorkers.AuctionWorker.Close` | app/workers/auction_worker.py:305-393 | Closes the row, records the closing, and either leases the ride to the winner and records that or deletes the lease. |
| `AuctionWorkers.AuctionWorker.ExecuteAuction` | app/workers/auction_worker.py:94-400 | Does nothing unless the ride exists and its auction is open; otherwise the whole state is that of one closed round. |
| `AuctionWorkers.AuctionWorker.HandleMessage` | app/workers/auction_worker.py:572-601 | The whole state after handling a message is that of the `Deliver` step; the message is acknowledged after the auction or stays queued. |
| `LockMonitors.LockMonitor.Handle` | app/workers/lock_monitor.py:54-143 | The whole state after one iteration for a listed row, whatever has become of the lease since: the row's lease is gone and a live ride is compensated in the name of the listed holder. |
| `LockMonitors.CurrentRowIsExpire` | app/workers/lock_monitor.py:54-143 | For a row that is as it was listed, that state is the one of the `Expire` step. |
| `LockMonitors.StaleRowTakesRenewedLease` | app/workers/lock_monitor.py:52-92 | For a row renewed by its holder after the listing, the iteration deletes the renewed lease and compensates the ride although an `Expire` step would do nothing. |
| `LockMonitors.LockMonitor.Lapse` | app/workers/lock_monitor.py:80-131 | Two events, no lease, a compensating row with the holder appended, and one message unless the publication fails. |
| `LockMonitors.LockMonitor.Sweep` | app/workers/lock_monitor.py:51-143 | The loop is a run of `Expire` steps that names every lease expired at its start exactly once. |
| `Repositories.LockRepository.CreateOrRenew` | app/repositories/lock_repository.py:31-60 | At most one lease per ride: a present row is overwritten whoever holds it. |
| `Repositories.LockRepository.Delete` | app/repositories/lock_repository.py:62-69 | Removes the ride's row only, and says whether there was one. |
| `Repositories.LockRepository.ListExpired` | app/repositories/lock_repository.py:71-76 | Lists exactly the rows that expire at or before the given time, each once. |
| `Repositories.AuditRepository.Record` | app/repositories/audit_repository.py:20-25 | Appends the event. |
| `Repositories.AuditRepository.FindIdempotent` | app/repositories/audit_repository.py:39-57 | Tells whether the ride has no, one or several accepted PATCHes with this service and client timestamp. |
| `Repositories.AuditRepository.ListByRide` | app/repositories/audit_repository.py:27-37 | The ride's events, all of them and no others, in order of logical timestamp. |
| `Repositories.ProposalRepository.CreateMany` | app/repositories/proposal_repository.py:27-34 | Appends the proposals of a round in order. |
| `Repositories.GroupRepository.Register` | app/services/auth_service.py:29-76 | A new valid id is appended; registering a known one again adds no row. |

## Left out

- Interleavings inside a handler or inside a sweep: sessions, several commits per handler, refreshes and lost updates between handlers.
- RabbitMQ connections, reconnection and backoff, and undecodable or ride-less messages; what remains is a queue with redelivery in any order.
- The HTTP fan-out to the groups and the notification of the winner; a round takes a map of answers instead.
- Floating-point prices, including NaN and rounding.
- The HTTP controllers: their breaker gate and their success and failure calls appear only as `Use` steps that may happen at any time.
- The messages `ride_created`, `ride_status_changed` and `compensation_triggered`, of which only the clock ticks are kept.
- Columns no decision depends on: passenger, coordinates, foreign keys, service urls, response times, acquisition time of a lease, and proposals' own timestamps, which are never fed into the clock.
- The object identity of a proposal that is both in the accepted and in the stored list: the winner's flag is set in the stored list by value.
- Registration data other than the id, API keys and authentication, and listing, filters and pagination.
- The winner reported by `buscar_propostas` after a re-auction: old flags are never cleared, so it need not be the current recipient.
- Metrics, logging, dashboards and DTO bounds.
- Liveness that depends on real time: nothing says that a queued message is ever delivered or that the monitor ever sweeps.
