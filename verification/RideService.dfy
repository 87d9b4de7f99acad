/** The ride service: creation, PATCH, and explicit lease acquisition and release. */
module RideServices {
  import opened Wrappers
  import opened LamportClocks
  import opened Auctions
  import opened RideModel
  import opened ExclusionList
  import opened Saga
  import opened RideMoves
  import opened Repositories
  import opened CoreState
  import opened StateMachine

  class RideService {
    const core: Core
    const stateMachine: StateMachineService

    constructor (core: Core)
      ensures this.core == core && stateMachine.core == core && fresh(stateMachine)
    {
      this.core := core;
      stateMachine := new StateMachineService(core);
    }

    /** `r` is the new row's id; the origin is the authenticated group; `up` says whether the
        broker takes the message. */
    method CreateRide(r: RideId, origin: GroupId, clientTs: nat, timeout: nat, up: bool) returns (ts: nat)
      requires core.Valid()
      requires r !in core.rides.rides && origin in core.groups.groups
      modifies core.clock, core.rides, core.locks, core.audit, core.broker
      ensures core.Snapshot() == Apply(old(core.Snapshot()), Create(r, origin, clientTs, timeout, up))
      ensures core.rides.rides == old(core.rides.rides)[
                r := Ride(origin, Request, AuctionStatus.Open, None, None, ts, clientTs, None, None, timeout)]
    {
      ghost var s := core.Snapshot();
      ts := core.clock.Update(clientTs);
      var ride := Ride(origin, Request, AuctionStatus.Open, None, None, ts, clientTs, None, None, timeout);
      core.rides.Save(r, ride);
      var expires := core.now + (timeout + LOCK_TTL_AUCTION_EXTRA) * SECOND;
      core.locks.CreateOrRenew(r, origin, expires);
      core.audit.Record(Event(r, RideCreated(timeout), origin, ts));
      var tsAuction := core.clock.Tick();
      core.broker.Publish(AuctionRequest(r, tsAuction, timeout, []), up);
      assert core.Snapshot() == Created(s, r, origin, clientTs, timeout, up);
      CreateStep(s, r, origin, clientTs, timeout, up);
    }

    /** The compensation part of a PATCH: exclude the sender, reopen the auction, ask for a new one. */
    method Compensate(r: RideId, ride: Ride, service: GroupId, up: bool)
      requires core.Valid()
      modifies core.rides, core.clock, core.broker
      ensures core.clock.value == old(core.clock.value) + 1
      ensures core.rides.rides == old(core.rides.rides)[r := Reopened(ride, service)]
      ensures core.broker.acked == old(core.broker.acked)
      ensures core.broker.requests == old(core.broker.requests) +
                if up
                then [AuctionRequest(r, core.clock.value, AUCTION_TIMEOUT_COMPENSATION, Excluding(ride, service))]
                else []
    {
      var excluded := Parse(ride.excluded);
      excluded := excluded + [service];
      var row := ride.(excluded := Some(Join(excluded)), auction := AuctionStatus.Open, closedAt := None);
      core.rides.Save(r, row);
      var ts := core.clock.Tick();
      core.broker.Publish(AuctionRequest(r, ts, AUCTION_TIMEOUT_COMPENSATION, excluded), up);
    }

    /** `atualizar_status`. */
    method UpdateStatus(r: RideId, service: GroupId, target: Option<Status>, clientTs: nat, up: bool)
      returns (outcome: Outcome)
      requires core.Valid() && stateMachine.core == core
      modifies core.clock, core.rides, core.locks, core.audit, core.broker
      ensures core.Snapshot() == Apply(old(core.Snapshot()), Patch(r, service, target, clientTs, up))
      ensures var s := old(core.Snapshot());
              outcome == DecidePatch(ViewOf(s, r), r, s.clock, service, target, clientTs, up).outcome
    {
      ghost var s := core.Snapshot();
      var found := core.audit.FindIdempotent(r, service, clientTs);
      if found == ManyRows {
        PatchRefused(s, r, service, target, clientTs, up);
        return MultipleRows;
      }
      if found == OneRow {
        var known := core.rides.FindByUuid(r);
        PatchRefused(s, r, service, target, clientTs, up);
        return if known.Some? then AlreadyApplied else NotFound;
      }
      outcome := Transition(r, service, target, clientTs, up);
      if outcome == Done {
        PatchAccepted(s, r, service, target, clientTs, up);
      } else {
        PatchRefused(s, r, service, target, clientTs, up);
      }
    }

    /** The rest of `atualizar_status`, for a PATCH that was not seen before. */
    method Transition(r: RideId, service: GroupId, target: Option<Status>, clientTs: nat, up: bool)
      returns (outcome: Outcome)
      requires core.Valid() && stateMachine.core == core
      modifies core.clock, core.rides, core.locks, core.audit, core.broker
      ensures outcome == CheckTransition(Get(old(core.rides.rides), r), Get(old(core.locks.locks), r),
                                         service, target, clientTs)
      ensures outcome == Done ==>
                core.Snapshot() == Patched(old(core.Snapshot()), r, service, target.value, clientTs, up)
      ensures outcome == NotFound ==> core.Snapshot() == old(core.Snapshot())
      ensures outcome != Done && outcome != NotFound ==>
                core.Snapshot() == old(core.Snapshot()).(clock := old(core.clock.value) + 1)
    {
      ghost var s := core.Snapshot();
      var ride: Option<Ride>;
      outcome, ride := stateMachine.ApplyGroupTransition(r, service, target, clientTs);
      if outcome == Unprocessable || outcome == Conflict {
        var _ := core.clock.Tick();
        return;
      }
      if outcome != Done {
        return;
      }
      var _ := core.clock.Tick();
      if target.value == Compensating {
        Compensate(r, ride.value, service, up);
        assert core.rides.rides == s.rides[r := Reopened(ride.value, service)];
      }
    }

    /** `adquirir_lock`. */
    method AcquireLock(r: RideId, service: GroupId, ttl: nat) returns (outcome: Outcome)
      requires core.Valid()
      modifies core.clock, core.locks, core.audit
      ensures core.Snapshot() == Apply(old(core.Snapshot()), Acquire(r, service, ttl))
      ensures var s := old(core.Snapshot());
              outcome == DecideAcquire(ViewOf(s, r), s.clock, s.now, service, ttl).outcome
    {
      ghost var s := core.Snapshot();
      AcquireStep(s, r, service, ttl);
      var ride := core.rides.FindByUuid(r);
      if ride.None? {
        return NotFound;
      }
      var lock := core.locks.FindByRide(r);
      var now := core.now;
      if lock.Some? && lock.value.heldBy != service && lock.value.expiresAt > now {
        return Conflict;
      }
      var expiresAt := now + ttl * SECOND;
      core.locks.CreateOrRenew(r, service, expiresAt);
      var ts := core.clock.Tick();
      core.audit.Record(Event(r, LockAcquired(ttl), service, ts));
      return Done;
    }

    /** `liberar_lock`. */
    method ReleaseLock(r: RideId, service: GroupId) returns (outcome: Outcome)
      requires core.Valid()
      modifies core.clock, core.locks, core.audit
      ensures core.Snapshot() == Apply(old(core.Snapshot()), Release(r, service))
      ensures var s := old(core.Snapshot());
              outcome == DecideRelease(ViewOf(s, r), s.clock, service).outcome
    {
      ghost var s := core.Snapshot();
      ReleaseStep(s, r, service);
      var ride := core.rides.FindByUuid(r);
      if ride.None? {
        return NotFound;
      }
      var lock := core.locks.FindByRide(r);
      if lock.None? {
        return NotFound;
      }
      if lock.value.heldBy != service {
        return Forbidden;
      }
      var _ := core.locks.Delete(r);
      var ts := core.clock.Tick();
      core.audit.Record(Event(r, LockReleased, service, ts));
      return Done;
    }
  }

  // ---- The steps, written out as tables ------------------------------------------------

  function Created(s: State, r: RideId, origin: GroupId, clientTs: nat, timeout: nat, up: bool): State {
    var ts := Max(s.clock, clientTs) + 1;
    s.(rides := s.rides[r := NewRide(origin, clientTs, timeout, ts)],
       locks := s.locks[r := Lock(origin, s.now + (timeout + LOCK_TTL_AUCTION_EXTRA) * SECOND)],
       audit := s.audit + [Event(r, RideCreated(timeout), origin, ts)],
       requests := s.requests + (if up then [AuctionRequest(r, ts + 1, timeout, [])] else []),
       clock := ts + 1)
  }

  lemma CreateStep(s: State, r: RideId, origin: GroupId, clientTs: nat, timeout: nat, up: bool)
    requires r !in s.rides && origin in s.groups
    ensures Apply(s, Create(r, origin, clientTs, timeout, up)) == Created(s, r, origin, clientTs, timeout, up)
  {
  }

  function Patched(s: State, r: RideId, service: GroupId, target: Status, clientTs: nat, up: bool): State
    requires r in s.rides
  {
    var ts := Max(s.clock, clientTs) + 1;
    var t := s.(
      rides := s.rides[r := ShiftedRide(s.rides[r], service, target, clientTs, ts)],
      locks := if Terminal(target) then s.locks - {r} else s.locks,
      audit := s.audit + [Event(r, StateTransition(s.rides[r].status, target, Some(clientTs)), service, ts)]);
    if target.Compensating? then
      t.(requests := s.requests +
           (if up
            then [AuctionRequest(r, ts + 2, AUCTION_TIMEOUT_COMPENSATION, Excluding(s.rides[r], service))] else []),
         clock := ts + 2)
    else t.(clock := ts + 1)
  }

  lemma PatchAccepted(s: State, r: RideId, service: GroupId, target: Option<Status>, clientTs: nat, up: bool)
    requires Resubmissions(RideLog(s.audit, r), service, clientTs) == 0
    requires CheckTransition(Get(s.rides, r), Get(s.locks, r), service, target, clientTs) == Done
    ensures Apply(s, Patch(r, service, target, clientTs, up)) == Patched(s, r, service, target.value, clientTs, up)
    ensures DecidePatch(ViewOf(s, r), r, s.clock, service, target, clientTs, up).outcome == Done
  {
    AcceptedDecision(ViewOf(s, r), r, s.clock, service, target.value, clientTs, up);
    var m := DecidePatch(ViewOf(s, r), r, s.clock, service, target, clientTs, up).move;
    CommitShifted(s, r, service, target.value, clientTs, m.ts, m.request);
    assert s.requests + [] == s.requests;
  }

  lemma RefusedDecision(v: View, r: RideId, clock: nat, service: GroupId, target: Option<Status>, clientTs: nat,
                        up: bool)
    requires Resubmissions(v.log, service, clientTs) > 0
             || CheckTransition(v.ride, v.lock, service, target, clientTs) != Done
    ensures var d := DecidePatch(v, r, clock, service, target, clientTs, up);
            var seen := Resubmissions(v.log, service, clientTs);
            var check := CheckTransition(v.ride, v.lock, service, target, clientTs);
            && d.move == Idle
            && d.clock == (if seen == 0 && check != NotFound then clock + 1 else clock)
            && d.outcome == (if seen > 1 then MultipleRows
                             else if seen == 1 then (if v.ride.Some? then AlreadyApplied else NotFound)
                             else check)
  {
  }

  lemma EnactIdle(s: State, r: RideId, d: Decision)
    requires d.move == Idle
    ensures Enact(s, r, d) == s.(clock := d.clock)
  {
    CommitIdle(s, r);
  }

  /** Every other PATCH moves nothing, and at most the clock. */
  lemma PatchRefused(s: State, r: RideId, service: GroupId, target: Option<Status>, clientTs: nat, up: bool)
    requires var seen := Resubmissions(RideLog(s.audit, r), service, clientTs);
             seen > 0 || CheckTransition(Get(s.rides, r), Get(s.locks, r), service, target, clientTs) != Done
    ensures var d := DecidePatch(ViewOf(s, r), r, s.clock, service, target, clientTs, up);
            var seen := Resubmissions(RideLog(s.audit, r), service, clientTs);
            var check := CheckTransition(Get(s.rides, r), Get(s.locks, r), service, target, clientTs);
            && d.outcome == (if seen > 1 then MultipleRows
                             else if seen == 1 then (if r in s.rides then AlreadyApplied else NotFound)
                             else check)
            && Apply(s, Patch(r, service, target, clientTs, up)) ==
                 if seen == 0 && check != NotFound then s.(clock := s.clock + 1) else s
  {
    RefusedDecision(ViewOf(s, r), r, s.clock, service, target, clientTs, up);
    EnactIdle(s, r, DecidePatch(ViewOf(s, r), r, s.clock, service, target, clientTs, up));
  }

  lemma ReleaseStep(s: State, r: RideId, service: GroupId)
    ensures var d := DecideRelease(ViewOf(s, r), s.clock, service);
            && d.outcome == (if r !in s.rides || r !in s.locks then NotFound
                             else if s.locks[r].heldBy != service then Forbidden else Done)
            && Apply(s, Release(r, service)) ==
                 if d.outcome == Done
                 then s.(locks := s.locks - {r},
                         audit := s.audit + [Event(r, LockReleased, service, s.clock + 1)],
                         clock := s.clock + 1)
                 else s
  {
    RowUnchanged(s, r);
    CommitIdle(s, r);
  }
}
