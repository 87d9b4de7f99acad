/** The running core: every repository and singleton that the handlers share. */
module CoreState {
  import opened LamportClocks
  import opened CircuitBreakers
  import opened RideModel
  import opened Saga
  import opened Repositories

  class Core {
    const clock: LamportClock
    const breakers: CircuitBreakerManager
    const rides: RideRepository
    const locks: LockRepository
    const audit: AuditRepository
    const proposals: ProposalRepository
    const groups: GroupRepository
    const broker: Broker
    var now: Time

    constructor ()
      ensures Valid() && Snapshot() == INITIAL
    {
      clock := new LamportClock();
      breakers := new CircuitBreakerManager(LIMITS);
      rides := new RideRepository();
      locks := new LockRepository();
      audit := new AuditRepository();
      proposals := new ProposalRepository();
      groups := new GroupRepository();
      broker := new Broker();
      now := 0;
    }

    ghost predicate Valid()
      reads breakers, breakers.repr
    {
      breakers.Valid() && breakers.limits == LIMITS
    }

    /** The tables as a value. */
    ghost function Snapshot(): State
      reads this, clock, breakers, rides, locks, audit, proposals, groups, broker
    {
      State(groups.groups, rides.rides, locks.locks, audit.events, broker.requests, broker.acked,
            proposals.proposals, breakers.table, clock.value, now)
    }
  }
}
