/**
  The ride saga as one state machine over shared tables.

  A handler looks at the tables, decides on at most one `Move` of one ride, and commits
  it.  `Decide...` is the business logic of each handler, `Play` is what a move does to
  the ride it concerns, and `Apply` is the whole step, including the clock, the breakers,
  the queue and the wall clock.
*/
module Saga {
  import opened Wrappers
  import opened LamportClocks
  import opened CircuitBreakers
  import opened Auctions
  import opened RideModel
  import opened ExclusionList

  datatype State = State(
    groups: seq<GroupId>,
    rides: map<RideId, Ride>,
    locks: map<RideId, Lock>,
    audit: seq<Event>,
    requests: seq<AuctionRequest>,
    acked: set<nat>,
    proposals: seq<StoredProposal>,
    breakers: BreakerTable,
    clock: nat,
    now: Time)

  /** Everything the tables hold about one ride. */
  datatype View = View(
    ride: Option<Ride>,
    lock: Option<Lock>,
    log: seq<Event>,
    requests: seq<AuctionRequest>)

  function Get<K, V>(m: map<K, V>, k: K): Option<V> {
    if k in m then Some(m[k]) else None
  }

  function Put<K, V>(m: map<K, V>, k: K, value: Option<V>): map<K, V> {
    match value
    case Some(v) => m[k := v]
    case None => m - {k}
  }

  function ViewOf(s: State, r: RideId): View {
    View(Get(s.rides, r), Get(s.locks, r), RideLog(s.audit, r), RideRequests(s.requests, r))
  }

  // ---- Moves of one ride ----------------------------------------------------

  datatype Move =
    | Idle
      /** A ride is created with its first lease. */
    | Born(origin: GroupId, clientTs: nat, timeout: nat, expiresAt: Time, ts: nat,
           request: Option<AuctionRequest>)
      /** An accepted PATCH. */
    | Shifted(service: GroupId, target: Status, clientTs: nat, ts: nat, request: Option<AuctionRequest>)
      /** A lease is acquired or renewed through the API. */
    | Granted(service: GroupId, ttl: nat, expiresAt: Time, ts: nat)
      /** A lease is released by its holder. */
    | Freed(ts: nat)
      /** An auction over `excluded` closes. */
    | Settled(winner: Option<GroupId>, accepted: nat, closeAt: Time, ts: nat, excluded: seq<GroupId>)
      /** The monitor deletes an expired lease and writes nothing. */
    | Dropped
      /** The monitor compensates a live ride whose lease expired. */
    | Lapsed(expiredTs: nat, ts: nat, request: Option<AuctionRequest>)

  /** The excluded groups after compensation, as sent in the message. */
  function Excluding(ride: Ride, group: GroupId): seq<GroupId> {
    Parse(ride.excluded) + [group]
  }

  /** Compensation reopens the auction. */
  function Reopened(ride: Ride, group: GroupId): Ride {
    ride.(excluded := Some(Join(Excluding(ride, group))), auction := AuctionStatus.Open, closedAt := None)
  }

  function NewRide(origin: GroupId, clientTs: nat, timeout: nat, ts: nat): Ride {
    Ride(origin, Request, AuctionStatus.Open, None, None, ts, clientTs, None, None, timeout)
  }

  function Transitioned(ride: Ride, target: Status, clientTs: nat, ts: nat): Ride {
    ride.(status := target, coreTs := ts, clientTs := clientTs)
  }

  /** An accepted PATCH; compensation excludes the sender. */
  function ShiftedRide(ride: Ride, service: GroupId, target: Status, clientTs: nat, ts: nat): Ride {
    var moved := Transitioned(ride, target, clientTs, ts);
    if target.Compensating? then Reopened(moved, service) else moved
  }

  function ClosedRide(ride: Ride, winner: Option<GroupId>, closeAt: Time, ts: nat): Ride {
    var closed := ride.(closedAt := Some(closeAt), coreTs := ts);
    if winner.Some?
    then closed.(status := Match, auction := AuctionStatus.Closed, recipient := winner, assignedAt := Some(closeAt))
    else closed.(status := Cancelled, auction := NoProposals)
  }

  /** The monitor's compensation excludes the holder of the expired lease. */
  function LapsedRide(ride: Ride, holder: GroupId, ts: nat): Ride {
    Reopened(ride.(status := Compensating, coreTs := ts), holder)
  }

  function MovedRide(v: View, m: Move): Option<Ride> {
    match m
    case Born(origin, clientTs, timeout, _, ts, _) => Some(NewRide(origin, clientTs, timeout, ts))
    case Shifted(service, target, clientTs, ts, _) =>
      if v.ride.None? then None else Some(ShiftedRide(v.ride.value, service, target, clientTs, ts))
    case Settled(winner, _, closeAt, ts, _) =>
      if v.ride.None? then None else Some(ClosedRide(v.ride.value, winner, closeAt, ts))
    case Lapsed(_, ts, _) =>
      if v.ride.None? || v.lock.None? then v.ride else Some(LapsedRide(v.ride.value, v.lock.value.heldBy, ts))
    case _ => v.ride
  }

  function MovedLock(v: View, m: Move): Option<Lock> {
    match m
    case Born(origin, _, _, expiresAt, _, _) => Some(Lock(origin, expiresAt))
    case Shifted(_, target, _, _, _) => if Terminal(target) then None else v.lock
    case Granted(service, _, expiresAt, _) => Some(Lock(service, expiresAt))
    case Settled(winner, _, closeAt, _, _) =>
      if winner.Some? then Some(Lock(winner.value, closeAt + LOCK_TTL_WINNER * SECOND)) else None
    case Freed(_) => None
    case Dropped => None
    case Lapsed(_, _, _) => None
    case Idle => v.lock
  }

  function ClosingEvents(r: RideId, winner: Option<GroupId>, accepted: nat, ts: nat): seq<Event> {
    [Event(r, AuctionClosed(winner, accepted), CORE, ts)] +
    if winner.Some? then [Event(r, LockAcquired(LOCK_TTL_WINNER), winner.value, ts + 1)] else []
  }

  function LapseEvents(r: RideId, ride: Ride, lock: Lock, expiredTs: nat, ts: nat): seq<Event> {
    [Event(r, LockExpired(lock.expiresAt), lock.heldBy, expiredTs),
     Event(r, StateTransition(ride.status, Compensating, None), CORE, ts)]
  }

  /** The audit events a move writes. */
  function NewEvents(v: View, r: RideId, m: Move): seq<Event> {
    match m
    case Born(origin, _, timeout, _, ts, _) => [Event(r, RideCreated(timeout), origin, ts)]
    case Shifted(service, target, clientTs, ts, _) =>
      if v.ride.None? then []
      else [Event(r, StateTransition(v.ride.value.status, target, Some(clientTs)), service, ts)]
    case Granted(service, ttl, _, ts) => [Event(r, LockAcquired(ttl), service, ts)]
    case Freed(ts) => if v.lock.None? then [] else [Event(r, LockReleased, v.lock.value.heldBy, ts)]
    case Settled(winner, accepted, _, ts, _) =>
      ClosingEvents(r, winner, accepted, ts)
    case Lapsed(expiredTs, ts, _) =>
      if v.ride.None? || v.lock.None? then []
      else LapseEvents(r, v.ride.value, v.lock.value, expiredTs, ts)
    case Dropped => []
    case Idle => []
  }

  function NewRequests(m: Move): seq<AuctionRequest> {
    match m
    case Born(_, _, _, _, _, request) => ToSeq(request)
    case Shifted(_, _, _, _, request) => ToSeq(request)
    case Lapsed(_, _, request) => ToSeq(request)
    case _ => []
  }

  function ToSeq<T>(x: Option<T>): seq<T> {
    if x.Some? then [x.value] else []
  }

  function Play(v: View, r: RideId, m: Move): View {
    View(MovedRide(v, m), MovedLock(v, m), v.log + NewEvents(v, r, m), v.requests + NewRequests(m))
  }

  // ---- Decisions ------------------------------------------------------------

  datatype Decision = Decision(outcome: Outcome, move: Move, clock: nat)

  /** `RideService.criar_corrida`; a taken row id or an unregistered origin cannot reach it. */
  function DecideCreate(v: View, r: RideId, groups: seq<GroupId>, clock: nat, now: Time,
                        origin: GroupId, clientTs: nat, timeout: nat, published: bool): Decision
  {
    if v.ride.Some? || origin !in groups then Decision(Ignored, Idle, clock)
    else
      var ts := Max(clock, clientTs) + 1;
      var request := if published then Some(AuctionRequest(r, ts + 1, timeout, [])) else None;
      var expiresAt := now + (timeout + LOCK_TTL_AUCTION_EXTRA) * SECOND;
      Decision(Done, Born(origin, clientTs, timeout, expiresAt, ts, request), ts + 1)
  }

  /** `StateMachineService.aplicar_transicao_grupo`, up to the point where it writes:
      `target` is `None` when the requested state is not a state at all. */
  function CheckTransition(ride: Option<Ride>, lock: Option<Lock>, service: GroupId, target: Option<Status>,
                           clientTs: nat): Outcome
  {
    if ride.None? then NotFound
    else if ValidTargets(ride.value.status) == {} then Unprocessable
    else if target.None? || target.value !in ValidTargets(ride.value.status) then Unprocessable
    else if clientTs <= ride.value.clientTs then Unprocessable
    else if NeedsLock(target.value) && (lock.None? || lock.value.heldBy != service) then Conflict
    else Done
  }

  /** `RideService.atualizar_status`. */
  function DecidePatch(v: View, r: RideId, clock: nat, service: GroupId, target: Option<Status>,
                       clientTs: nat, published: bool): Decision
  {
    var seen := Resubmissions(v.log, service, clientTs);
    if seen > 1 then Decision(MultipleRows, Idle, clock)
    else if seen == 1 then Decision(if v.ride.Some? then AlreadyApplied else NotFound, Idle, clock)
    else
      match CheckTransition(v.ride, v.lock, service, target, clientTs)
      case Done =>
        var ts := Max(clock, clientTs) + 1;
        if target.value.Compensating? then
          var message := AuctionRequest(r, ts + 2, AUCTION_TIMEOUT_COMPENSATION,
                                        Excluding(v.ride.value, service));
          Decision(Done,
                   Shifted(service, Compensating, clientTs, ts, if published then Some(message) else None),
                   ts + 2)
        else Decision(Done, Shifted(service, target.value, clientTs, ts, None), ts + 1)
      case NotFound => Decision(NotFound, Idle, clock)
      case rejected => Decision(rejected, Idle, clock + 1)
  }

  /** `RideService.adquirir_lock`. */
  function DecideAcquire(v: View, clock: nat, now: Time, service: GroupId, ttl: nat): Decision {
    if v.ride.None? then Decision(NotFound, Idle, clock)
    else if v.lock.Some? && v.lock.value.heldBy != service && v.lock.value.expiresAt > now then
      Decision(Conflict, Idle, clock)
    else Decision(Done, Granted(service, ttl, now + ttl * SECOND, clock + 1), clock + 1)
  }

  /** `RideService.liberar_lock`. */
  function DecideRelease(v: View, clock: nat, service: GroupId): Decision {
    if v.ride.None? || v.lock.None? then Decision(NotFound, Idle, clock)
    else if v.lock.value.heldBy != service then Decision(Forbidden, Idle, clock)
    else Decision(Done, Freed(clock + 1), clock + 1)
  }

  /** One iteration of the loop in `monitorar_locks_expirados`. */
  function DecideExpire(v: View, r: RideId, clock: nat, now: Time, published: bool): Decision {
    if v.lock.None? || v.lock.value.expiresAt > now then Decision(Ignored, Idle, clock)
    else if v.ride.None? || Terminal(v.ride.value.status) || v.ride.value.status.Compensating? then
      Decision(Done, Dropped, clock)
    else
      var message := AuctionRequest(r, clock + 3, AUCTION_TIMEOUT_COMPENSATION,
                                    Excluding(v.ride.value, v.lock.value.heldBy));
      Decision(Done,
               Lapsed(clock + 1, clock + 2, if published then Some(message) else None),
               if published then clock + 4 else clock + 3)
  }

  /** What `_executar_leilao` makes of a round; the message has already moved the clock. */
  function DecideAuction(clock: nat, closeAt: Time, excluded: seq<GroupId>, round: Round): Decision {
    Decision(Done, Settled(round.winner, round.acceptedCount, closeAt, clock + 3, excluded),
             if round.winner.Some? then clock + 4 else clock + 3)
  }

  // ---- Steps ----------------------------------------------------------------

  datatype Probe = Admission | Fault | Recovery

  /**
    Everything that can happen.  `Probe` is a use of a breaker by the HTTP controllers.
    `Deliver` hands over the message at `index`; it is acknowledged, or it is left in the
    queue to be delivered again.  `Expire` is one iteration of the lock monitor's loop on a row that is
    as it was listed; a whole sweep, which is what the monitor does in one go, is a run of them.
  */
  datatype Op =
    | Register(group: GroupId)
    | Advance(elapsed: nat)
    | Use(group: GroupId, probe: Probe)
    | Create(ride: RideId, origin: GroupId, clientTs: nat, timeout: nat, published: bool)
    | Patch(ride: RideId, service: GroupId, target: Option<Status>, clientTs: nat, published: bool)
    | Acquire(ride: RideId, service: GroupId, ttl: nat)
    | Release(ride: RideId, service: GroupId)
    | Deliver(index: nat, elapsed: nat, answers: map<GroupId, Answer>, acked: bool)
    | Expire(ride: RideId, published: bool)

  function Commit(s: State, r: RideId, m: Move): State {
    var v := ViewOf(s, r);
    s.(rides := Put(s.rides, r, MovedRide(v, m)),
       locks := Put(s.locks, r, MovedLock(v, m)),
       audit := s.audit + NewEvents(v, r, m),
       requests := s.requests + NewRequests(m))
  }

  function Enact(s: State, r: RideId, d: Decision): State {
    Commit(s, r, d.move).(clock := d.clock)
  }

  function UseBreaker(table: BreakerTable, group: GroupId, probe: Probe, now: Time): BreakerTable {
    var b := Lookup(table, group);
    table[group := match probe
                   case Admission => Observe(b, LIMITS, now)
                   case Fault => Fail(b, LIMITS, now)
                   case Recovery => Succeed(b)]
  }

  /** Message `index` is in the queue. */
  predicate Pending(s: State, index: nat) {
    index < |s.requests| && index !in s.acked
  }

  predicate AuctionOpen(s: State, r: RideId) {
    r in s.rides && s.rides[r].auction == AuctionStatus.Open
  }

  /** The clock after a message was received. */
  function Received(s: State, index: nat): nat
    requires index < |s.requests|
  {
    Max(s.clock, s.requests[index].ts) + 1
  }

  /** The round that delivering message `index` holds. */
  function RoundOf(s: State, index: nat, elapsed: nat, answers: map<GroupId, Answer>): Round
    requires index < |s.requests| && s.requests[index].ride in s.rides
  {
    var q := s.requests[index];
    Conduct(s.groups, s.rides[q.ride].origin, q.excluded, s.breakers, LIMITS, s.now, s.now + elapsed, answers)
  }

  function AuctionDecision(s: State, index: nat, elapsed: nat, answers: map<GroupId, Answer>): Decision
    requires index < |s.requests| && s.requests[index].ride in s.rides
  {
    DecideAuction(Received(s, index), s.now + elapsed, s.requests[index].excluded,
                  RoundOf(s, index, elapsed, answers))
  }

  /** `_executar_leilao` for the message at `index`. */
  function HoldAuction(s: State, index: nat, elapsed: nat, answers: map<GroupId, Answer>): State
    requires index < |s.requests|
  {
    var q := s.requests[index];
    if !AuctionOpen(s, q.ride) then s.(clock := Received(s, index))
    else
      var round := RoundOf(s, index, elapsed, answers);
      Enact(s, q.ride, AuctionDecision(s, index, elapsed, answers)).(
        breakers := round.table,
        proposals := s.proposals + Stored(q.ride, round.proposals),
        now := s.now + elapsed)
  }

  function ExpireDecision(s: State, r: RideId, published: bool): Decision {
    DecideExpire(ViewOf(s, r), r, s.clock, s.now, published)
  }

  /** One iteration of the monitor: a live ride's lapse also counts against the holder. */
  function ExpireOne(s: State, r: RideId, published: bool): State {
    var d := ExpireDecision(s, r, published);
    var t := Enact(s, r, d);
    if d.move.Lapsed? && r in s.locks
    then t.(breakers := UseBreaker(s.breakers, s.locks[r].heldBy, Fault, s.now))
    else t
  }

  function Apply(s: State, op: Op): State {
    match op
    case Register(g) =>
      if ValidGroupId(g) && g !in s.groups then s.(groups := s.groups + [g]) else s
    case Advance(elapsed) => s.(now := s.now + elapsed)
    case Use(g, probe) => s.(breakers := UseBreaker(s.breakers, g, probe, s.now))
    case Create(r, origin, clientTs, timeout, published) =>
      Enact(s, r, DecideCreate(ViewOf(s, r), r, s.groups, s.clock, s.now, origin, clientTs, timeout, published))
    case Patch(r, service, target, clientTs, published) =>
      Enact(s, r, DecidePatch(ViewOf(s, r), r, s.clock, service, target, clientTs, published))
    case Acquire(r, service, ttl) =>
      Enact(s, r, DecideAcquire(ViewOf(s, r), s.clock, s.now, service, ttl))
    case Release(r, service) =>
      Enact(s, r, DecideRelease(ViewOf(s, r), s.clock, service))
    case Deliver(index, elapsed, answers, acked) =>
      if !Pending(s, index) then s
      else
        var t := HoldAuction(s, index, elapsed, answers);
        if acked then t.(acked := t.acked + {index}) else t
    case Expire(r, published) => ExpireOne(s, r, published)
  }

  // ---- One sweep of the monitor ---------------------------------------------

  predicate Expired(s: State, r: RideId) {
    r in s.locks && s.locks[r].expiresAt <= s.now
  }

  /** The loop of the monitor, over the leases that were expired when it started. */
  ghost predicate SweepOf(s: State, ops: seq<Op>) {
    && (forall op <- ops :: op.Expire?)
    && (forall i, j | 0 <= i < j < |ops| :: ops[i].ride != ops[j].ride)
    && (forall r :: Expired(s, r) <==> Names(ops, r))
  }

  ghost predicate Names(ops: seq<Op>, r: RideId)
    requires forall op <- ops :: op.Expire?
  {
    exists op <- ops :: op.ride == r
  }

  // ---- Runs -----------------------------------------------------------------

  const INITIAL := State([], map[], map[], [], [], {}, [], map[], 0, 0)

  /** A run from `s`. */
  function Run(s: State, ops: seq<Op>): State {
    if ops == [] then s else Apply(Run(s, ops[..|ops| - 1]), ops[|ops| - 1])
  }

  /** The state a run of the core reaches from an empty database. */
  function Reach(ops: seq<Op>): State {
    Run(INITIAL, ops)
  }

  ghost predicate Reachable(s: State) {
    exists ops: seq<Op> :: Reach(ops) == s
  }

  lemma {:induction false} RunConcat(s: State, a: seq<Op>, b: seq<Op>)
    ensures Run(s, a + b) == Run(Run(s, a), b)
  {
    if b == [] {
      assert a + b == a;
    } else {
      assert (a + b)[..|a + b| - 1] == a + b[..|b| - 1];
      RunConcat(s, a, b[..|b| - 1]);
    }
  }

  lemma RunReachable(s: State, more: seq<Op>)
    requires Reachable(s)
    ensures Reachable(Run(s, more))
  {
    var ops: seq<Op> :| Reach(ops) == s;
    RunConcat(INITIAL, ops, more);
    assert Reach(ops + more) == Run(s, more);
  }

  lemma RunStep(s: State, ops: seq<Op>, op: Op)
    ensures Run(s, ops + [op]) == Apply(Run(s, ops), op)
  {
    assert (ops + [op])[..|ops|] == ops;
  }

  lemma RunOne(s: State, op: Op)
    ensures Run(s, [op]) == Apply(s, op)
  {
    assert [op][..0] == [];
  }

  lemma RunTwo(s: State, first: Op, second: Op)
    ensures Run(s, [first, second]) == Apply(Apply(s, first), second)
  {
    RunOne(s, first);
    RunStep(s, [first], second);
    assert [first] + [second] == [first, second];
  }

  lemma StepReachable(s: State, op: Op)
    requires Reachable(s)
    ensures Reachable(Apply(s, op))
  {
    RunOne(s, op);
    RunReachable(s, [op]);
  }
}
