/** The auction worker: one queue message at a time. */
module AuctionWorkers {
  import opened Wrappers
  import opened CircuitBreakers
  import opened Auctions
  import opened RideModel
  import opened Saga
  import opened RideMoves
  import opened CoreState

  /** The participant filter.  The breaker is consulted only for groups that pass the other two
      tests, and consulting it may move it. */
  method ScreenGroups(manager: CircuitBreakerManager, groups: seq<GroupId>, origin: GroupId,
                      excluded: seq<GroupId>, now: Time)
    returns (participants: seq<GroupId>)
    requires manager.Valid()
    modifies manager, manager.repr
    ensures manager.Valid() && fresh(manager.repr - old(manager.repr))
    ensures Screening(participants, manager.table) ==
            Screen(groups, origin, excluded, old(manager.table), manager.limits, now)
  {
    participants := [];
    for i := 0 to |groups|
      invariant manager.Valid() && fresh(manager.repr - old(manager.repr))
      invariant Screening(participants, manager.table) ==
                Screen(groups[..i], origin, excluded, old(manager.table), manager.limits, now)
    {
      var g := groups[i];
      assert groups[..i + 1][..i] == groups[..i];
      if g != origin && g !in excluded {
        var admitted := manager.CheckState(g, now);
        if admitted {
          participants := participants + [g];
        }
      }
    }
    assert groups[..|groups|] == groups;
  }

  /** The classification loop. */
  method ClassifyAnswers(manager: CircuitBreakerManager, participants: seq<GroupId>,
                         answers: map<GroupId, Answer>, now: Time)
    returns (all: seq<Proposal>, accepted: seq<Proposal>)
    requires manager.Valid()
    modifies manager, manager.repr
    ensures manager.Valid() && fresh(manager.repr - old(manager.repr))
    ensures Classification(all, accepted, manager.table) ==
            Classify(participants, answers, old(manager.table), manager.limits, now)
  {
    all, accepted := [], [];
    for i := 0 to |participants|
      invariant manager.Valid() && fresh(manager.repr - old(manager.repr))
      invariant Classification(all, accepted, manager.table) ==
                Classify(participants[..i], answers, old(manager.table), manager.limits, now)
    {
      var g := participants[i];
      assert participants[..i + 1][..i] == participants[..i];
      var p := Reply(g, answers);
      if p.status == Accepted || p.status == Passed {
        manager.Success(g);
        if p.status == Accepted {
          accepted := accepted + [p];
        }
      } else {
        manager.FailIncrement(g, now);
      }
      all := all + [p];
    }
    assert participants[..|participants|] == participants;
  }

  class AuctionWorker {
    const core: Core

    constructor (core: Core)
      ensures this.core == core
    {
      this.core := core;
    }

    /** Screens, collects and grades; the winner is flagged in the stored list.  Collecting takes
        `elapsed`. */
    method Collect(r: RideId, origin: GroupId, excluded: seq<GroupId>, elapsed: nat,
                   answers: map<GroupId, Answer>)
      returns (winner: Option<GroupId>, acceptedCount: nat)
      requires core.Valid()
      modifies core`now, core.clock, core.proposals, core.breakers, core.breakers.repr
      ensures core.Valid() && fresh(core.breakers.repr - old(core.breakers.repr))
      ensures core.now == old(core.now) + elapsed
      ensures core.clock.value == old(core.clock.value) + 2
      ensures var round := Conduct(core.groups.groups, origin, excluded, old(core.breakers.table), LIMITS,
                                   old(core.now), core.now, answers);
              && winner == round.winner && acceptedCount == round.acceptedCount
              && core.breakers.table == round.table
              && core.proposals.proposals == old(core.proposals.proposals) + Stored(r, round.proposals)
    {
      var participants := ScreenGroups(core.breakers, core.groups.groups, origin, excluded, core.now);
      var _ := core.clock.Tick();
      var _ := core.clock.Tick();
      core.now := core.now + elapsed;
      var all, accepted := ClassifyAnswers(core.breakers, participants, answers, core.now);
      var best := SelectWinner(accepted);
      core.proposals.CreateMany(r, Flag(all, best));
      winner := if best.Some? then Some(best.value.group) else None;
      acceptedCount := |accepted|;
    }

    /** Closes the auction of an open ride and moves its lease to the winner. */
    method Close(r: RideId, ride: Ride, winner: Option<GroupId>, acceptedCount: nat)
      requires r in core.rides.rides && core.rides.rides[r] == ride
      modifies core.clock, core.rides, core.locks, core.audit
      ensures core.rides.rides ==
                old(core.rides.rides)[r := ClosedRide(ride, winner, core.now, old(core.clock.value) + 1)]
      ensures core.audit.events ==
                old(core.audit.events) + ClosingEvents(r, winner, acceptedCount, old(core.clock.value) + 1)
      ensures core.locks.locks ==
                if winner.Some?
                then old(core.locks.locks)[r := Lock(winner.value, core.now + LOCK_TTL_WINNER * SECOND)]
                else old(core.locks.locks) - {r}
      ensures core.clock.value == old(core.clock.value) + if winner.Some? then 2 else 1
    {
      var tsClose := core.clock.Tick();
      var row := ride;
      if winner.Some? {
        row := row.(status := Match, recipient := winner, assignedAt := Some(core.now));
        row := row.(auction := AuctionStatus.Closed);
      } else {
        row := row.(status := Cancelled, auction := NoProposals);
      }
      row := row.(closedAt := Some(core.now), coreTs := tsClose);
      core.rides.Save(r, row);
      core.audit.Record(Event(r, AuctionClosed(winner, acceptedCount), CORE, tsClose));
      if winner.None? {
        var _ := core.locks.Delete(r);
        return;
      }
      core.locks.CreateOrRenew(r, winner.value, core.now + LOCK_TTL_WINNER * SECOND);
      var tsLock := core.clock.Tick();
      core.audit.Record(Event(r, LockAcquired(LOCK_TTL_WINNER), winner.value, tsLock));
    }

    /** `_executar_leilao`, after the message at `index` has moved the clock. */
    method ExecuteAuction(index: nat, elapsed: nat, answers: map<GroupId, Answer>)
      requires core.Valid() && index < |core.broker.requests|
      modifies core`now, core.clock, core.rides, core.locks, core.audit, core.proposals, core.breakers,
               core.breakers.repr
      ensures core.Valid() && fresh(core.breakers.repr - old(core.breakers.repr))
      ensures core.Snapshot() == Executed(old(core.Snapshot()), index, elapsed, answers)
    {
      var q := core.broker.requests[index];
      var found := core.rides.FindByUuid(q.ride);
      if found.None? {
        return;
      }
      if found.value.auction != AuctionStatus.Open {
        return;
      }
      ghost var s := core.Snapshot();
      ghost var round := HoldRound(q, found.value, elapsed, answers);
      ExecutedOpen(s, core.Snapshot(), index, elapsed, answers, round);
    }

    /** The rest of `_executar_leilao`, for a ride whose auction is open. */
    method HoldRound(q: AuctionRequest, ride: Ride, elapsed: nat, answers: map<GroupId, Answer>)
      returns (ghost round: Round)
      requires core.Valid()
      requires q.ride in core.rides.rides && core.rides.rides[q.ride] == ride
      modifies core`now, core.clock, core.rides, core.locks, core.audit, core.proposals, core.breakers,
               core.breakers.repr
      ensures core.Valid() && fresh(core.breakers.repr - old(core.breakers.repr))
      ensures round == Conduct(core.groups.groups, ride.origin, q.excluded, old(core.breakers.table), LIMITS,
                               old(core.now), core.now, answers)
      ensures core.rides.rides ==
                old(core.rides.rides)[q.ride := ClosedRide(ride, round.winner, core.now, old(core.clock.value) + 3)]
      ensures core.locks.locks ==
                if round.winner.Some?
                then old(core.locks.locks)[q.ride := Lock(round.winner.value, core.now + LOCK_TTL_WINNER * SECOND)]
                else old(core.locks.locks) - {q.ride}
      ensures core.audit.events ==
                old(core.audit.events) +
                ClosingEvents(q.ride, round.winner, round.acceptedCount, old(core.clock.value) + 3)
      ensures core.proposals.proposals == old(core.proposals.proposals) + Stored(q.ride, round.proposals)
      ensures unchanged(core.groups) && unchanged(core.broker)
      ensures core.breakers.table == round.table && core.now == old(core.now) + elapsed
      ensures core.clock.value == old(core.clock.value) + if round.winner.Some? then 4 else 3
    {
      var winner, acceptedCount := Collect(q.ride, ride.origin, q.excluded, elapsed, answers);
      round := Conduct(core.groups.groups, ride.origin, q.excluded, old(core.breakers.table), LIMITS,
                       old(core.now), core.now, answers);
      Close(q.ride, ride, winner, acceptedCount);
    }

    /** One delivery of the message at `index`.  `acked` is false when the acknowledgement is lost and
        the message stays in the queue. */
    method HandleMessage(index: nat, elapsed: nat, answers: map<GroupId, Answer>, acked: bool)
      requires core.Valid() && index < |core.broker.requests| && index !in core.broker.acked
      modifies core`now, core.clock, core.rides, core.locks, core.audit, core.proposals, core.broker,
               core.breakers, core.breakers.repr
      ensures core.Valid() && fresh(core.breakers.repr - old(core.breakers.repr))
      ensures core.Snapshot() == Apply(old(core.Snapshot()), Deliver(index, elapsed, answers, acked))
    {
      ghost var s := core.Snapshot();
      var q := core.broker.requests[index];
      var _ := core.clock.Update(q.ts);
      ghost var t := core.Snapshot();
      assert t == s.(clock := Received(s, index));
      ExecuteAuction(index, elapsed, answers);
      if acked {
        core.broker.Ack(index);
      }
      DeliverStep(s, index, elapsed, answers, acked);
    }
  }

  // ---- The step, written out as tables -----------------------------------------------------

  /** The state after the auction of message `index`, whose clock is already in `s`. */
  function Executed(s: State, index: nat, elapsed: nat, answers: map<GroupId, Answer>): State
    requires index < |s.requests|
  {
    var q := s.requests[index];
    if !AuctionOpen(s, q.ride) then s
    else Closing(s, q.ride, s.now + elapsed, RoundOf(s, index, elapsed, answers))
  }

  /** The state after `round` closed the auction of `r` at `closeAt`. */
  function Closing(s: State, r: RideId, closeAt: Time, round: Round): State
    requires r in s.rides
  {
    s.(rides := s.rides[r := ClosedRide(s.rides[r], round.winner, closeAt, s.clock + 3)],
       locks := if round.winner.Some?
                then s.locks[r := Lock(round.winner.value, closeAt + LOCK_TTL_WINNER * SECOND)]
                else s.locks - {r},
       audit := s.audit + ClosingEvents(r, round.winner, round.acceptedCount, s.clock + 3),
       proposals := s.proposals + Stored(r, round.proposals),
       breakers := round.table,
       clock := if round.winner.Some? then s.clock + 4 else s.clock + 3,
       now := closeAt)
  }

  /** `Executed` for an open auction, table by table. */
  lemma ExecutedOpen(s: State, t: State, index: nat, elapsed: nat, answers: map<GroupId, Answer>, round: Round)
    requires index < |s.requests| && AuctionOpen(s, s.requests[index].ride)
    requires var q := s.requests[index];
             && round == Conduct(s.groups, s.rides[q.ride].origin, q.excluded, s.breakers, LIMITS, s.now, t.now,
                                 answers)
             && t.rides == s.rides[q.ride := ClosedRide(s.rides[q.ride], round.winner, t.now, s.clock + 3)]
             && t.locks == (if round.winner.Some?
                            then s.locks[q.ride := Lock(round.winner.value, t.now + LOCK_TTL_WINNER * SECOND)]
                            else s.locks - {q.ride})
             && t.audit == s.audit + ClosingEvents(q.ride, round.winner, round.acceptedCount, s.clock + 3)
             && t.proposals == s.proposals + Stored(q.ride, round.proposals)
    requires t.breakers == round.table && t.now == s.now + elapsed
    requires t.clock == s.clock + if round.winner.Some? then 4 else 3
    requires t.groups == s.groups && t.requests == s.requests && t.acked == s.acked
    ensures t == Executed(s, index, elapsed, answers)
  {
  }

  lemma ClosingStep(s: State, clock: nat, r: RideId, closeAt: Time, excluded: seq<GroupId>, round: Round)
    requires r in s.rides
    ensures Enact(s, r, DecideAuction(clock, closeAt, excluded, round)).(
              breakers := round.table, proposals := s.proposals + Stored(r, round.proposals), now := closeAt) ==
            Closing(s.(clock := clock), r, closeAt, round)
  {
    CommitSettled(s, r, round.winner, round.acceptedCount, closeAt, clock + 3, excluded);
  }

  lemma RoundIgnoresClock(s: State, clock: nat, index: nat, elapsed: nat, answers: map<GroupId, Answer>)
    requires index < |s.requests| && s.requests[index].ride in s.rides
    ensures RoundOf(s.(clock := clock), index, elapsed, answers) == RoundOf(s, index, elapsed, answers)
  {
  }

  lemma AuctionStep(s: State, index: nat, elapsed: nat, answers: map<GroupId, Answer>)
    requires index < |s.requests|
    ensures HoldAuction(s, index, elapsed, answers) ==
            Executed(s.(clock := Received(s, index)), index, elapsed, answers)
  {
    var q := s.requests[index];
    if AuctionOpen(s, q.ride) {
      var round := RoundOf(s, index, elapsed, answers);
      RoundIgnoresClock(s, Received(s, index), index, elapsed, answers);
      ClosingStep(s, Received(s, index), q.ride, s.now + elapsed, q.excluded, round);
    }
  }

  lemma DeliverStep(s: State, index: nat, elapsed: nat, answers: map<GroupId, Answer>, acked: bool)
    requires Pending(s, index)
    ensures var t := Executed(s.(clock := Received(s, index)), index, elapsed, answers);
            Apply(s, Deliver(index, elapsed, answers, acked)) == if acked then t.(acked := s.acked + {index}) else t
  {
    AuctionStep(s, index, elapsed, answers);
  }
}
