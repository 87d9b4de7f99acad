/** The state machine service: checks a transition, persists it and records its event. */
module StateMachine {
  import opened Wrappers
  import opened LamportClocks
  import opened Auctions
  import opened RideModel
  import opened Saga
  import opened RideMoves
  import opened CoreState

  class StateMachineService {
    const core: Core

    constructor (core: Core)
      ensures this.core == core
    {
      this.core := core;
    }

    /** A transition asked for by a group.  The outcome is that of `CheckTransition`; only an
        accepted transition writes. */
    method ApplyGroupTransition(r: RideId, service: GroupId, target: Option<Status>, clientTs: nat)
      returns (outcome: Outcome, ride: Option<Ride>)
      requires core.Valid()
      modifies core.rides, core.locks, core.audit, core.clock
      ensures outcome == CheckTransition(Get(old(core.rides.rides), r), Get(old(core.locks.locks), r),
                                         service, target, clientTs)
      ensures outcome == Done <==>
                && r in old(core.rides.rides) && target.Some?
                && Permitted(old(core.rides.rides[r]).status, target.value)
                && clientTs > old(core.rides.rides[r]).clientTs
                && (target.value in {Confirm, InTransit, Complete} ==>
                      r in old(core.locks.locks) && old(core.locks.locks[r]).heldBy == service)
      ensures outcome != Done ==> ride == None && core.Snapshot() == old(core.Snapshot())
      ensures outcome == Done ==>
                && r in old(core.rides.rides)
                && ride == Some(Transitioned(old(core.rides.rides[r]), target.value, clientTs, core.clock.value))
                && core.clock.value == Max(old(core.clock.value), clientTs) + 1
                && core.rides.rides == old(core.rides.rides)[r := ride.value]
                && core.locks.locks ==
                     (if Terminal(target.value) then old(core.locks.locks) - {r} else old(core.locks.locks))
                && core.audit.events == old(core.audit.events) + [
                     Event(r, StateTransition(old(core.rides.rides[r]).status, target.value, Some(clientTs)),
                           service, core.clock.value)]
    {
      CheckPassesIff(Get(core.rides.rides, r), Get(core.locks.locks, r), service, target, clientTs);
      var found := core.rides.FindByUuid(r);
      if found.None? {
        return NotFound, None;
      }
      var row := found.value;
      if ValidTargets(row.status) == {} {
        return Unprocessable, None;
      }
      if target.None? || target.value !in ValidTargets(row.status) {
        return Unprocessable, None;
      }
      if clientTs <= row.clientTs {
        return Unprocessable, None;
      }
      var lock := core.locks.FindByRide(r);
      if NeedsLock(target.value) {
        if lock.None? || lock.value.heldBy != service {
          return Conflict, None;
        }
      }
      var oldState := row.status;
      var tsCore := core.clock.Update(clientTs);
      row := row.(status := target.value);
      row := row.(coreTs := tsCore, clientTs := clientTs);
      if Terminal(target.value) {
        var _ := core.locks.Delete(r);
      }
      core.rides.Save(r, row);
      core.audit.Record(Event(r, StateTransition(oldState, target.value, Some(clientTs)), service, tsCore));
      return Done, Some(row);
    }

    /** A transition made by the core itself, without any check. */
    method ApplyCoreTransition(r: RideId, ride: Ride, target: Status) returns (moved: Ride)
      requires core.Valid()
      modifies core.rides, core.audit, core.clock
      ensures core.clock.value == old(core.clock.value) + 1
      ensures moved == ride.(status := target, coreTs := core.clock.value)
      ensures core.rides.rides == old(core.rides.rides)[r := moved]
      ensures core.audit.events == old(core.audit.events) + [
                Event(r, StateTransition(ride.status, target, None), CORE, core.clock.value)]
    {
      var tsCore := core.clock.Tick();
      moved := ride.(status := target, coreTs := tsCore);
      core.rides.Save(r, moved);
      core.audit.Record(Event(r, StateTransition(ride.status, target, None), CORE, tsCore));
    }
  }
}
