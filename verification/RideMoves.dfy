/**
  Every step of the core, seen from one ride, is one legal move of that ride.

  This is what lets the histories be studied ride by ride: `Follows` is the bridge from
  the shared tables to a single ride's `View`.
*/
module RideMoves {
  import opened Wrappers
  import opened LamportClocks
  import opened CircuitBreakers
  import opened Auctions
  import opened RideModel
  import opened Saga

  /** The move that step `op` makes of ride `r`. */
  function MoveFor(s: State, op: Op, r: RideId): Move {
    match op
    case Create(x, origin, clientTs, timeout, published) =>
      if x != r then Idle
      else DecideCreate(ViewOf(s, r), r, s.groups, s.clock, s.now, origin, clientTs, timeout, published).move
    case Patch(x, service, target, clientTs, published) =>
      if x != r then Idle
      else DecidePatch(ViewOf(s, r), r, s.clock, service, target, clientTs, published).move
    case Acquire(x, service, ttl) =>
      if x != r then Idle else DecideAcquire(ViewOf(s, r), s.clock, s.now, service, ttl).move
    case Release(x, service) =>
      if x != r then Idle else DecideRelease(ViewOf(s, r), s.clock, service).move
    case Deliver(index, elapsed, answers, acked) =>
      if !Pending(s, index) || s.requests[index].ride != r || !AuctionOpen(s, r) then Idle
      else AuctionDecision(s, index, elapsed, answers).move
    case Expire(x, published) =>
      if x != r then Idle else ExpireDecision(s, r, published).move
    case _ => Idle
  }

  /** A published message belongs to the step that took the clock from `before` to `after`. */
  ghost predicate FreshRequest(request: Option<AuctionRequest>, r: RideId, excluded: seq<GroupId>,
                               before: nat, after: nat)
  {
    request.Some? ==>
      && request.value.ride == r
      && request.value.excluded == excluded
      && before < request.value.ts <= after
  }

  /** The guards under which the handlers make each move, and the timestamps they issue. */
  ghost predicate Legal(v: View, r: RideId, m: Move, before: nat, after: nat, groups: seq<GroupId>) {
    match m
    case Idle => before <= after
    case Born(origin, clientTs, _, _, ts, request) =>
      && v.ride.None? && origin in groups
      && before < ts <= after && clientTs < ts
      && FreshRequest(request, r, [], ts, after)
    case Shifted(service, target, clientTs, ts, request) =>
      && CheckTransition(v.ride, v.lock, service, Some(target), clientTs) == Done
      && Resubmissions(v.log, service, clientTs) == 0
      && before < ts <= after && clientTs < ts
      && (request.Some? ==> target.Compensating?)
      && FreshRequest(request, r, Excluding(v.ride.value, service), ts, after)
    case Granted(service, _, _, ts) => v.ride.Some? && before < ts <= after
    case Freed(ts) => v.ride.Some? && v.lock.Some? && before < ts <= after
    case Settled(winner, _, _, ts, excluded) =>
      && v.ride.Some? && v.ride.value.auction == AuctionStatus.Open
      && (exists q <- v.requests :: q.excluded == excluded)
      && before < ts <= after
      && (winner.Some? ==>
            && winner.value in groups && winner.value != v.ride.value.origin && winner.value !in excluded
            && ts < after)
    case Dropped =>
      && before <= after && v.lock.Some?
      && (v.ride.None? || Terminal(v.ride.value.status) || v.ride.value.status.Compensating?)
    case Lapsed(expiredTs, ts, request) =>
      && v.ride.Some? && v.lock.Some?
      && Live(v.ride.value.status)
      && before < expiredTs < ts <= after
      && FreshRequest(request, r, Excluding(v.ride.value, v.lock.value.heldBy), ts, after)
  }

  // ---- Committing one move ----------------------------------------------------

  ghost predicate OwnRequests(m: Move, r: RideId) {
    forall q <- NewRequests(m) :: q.ride == r
  }

  lemma {:induction false} OwnLog(events: seq<Event>, r: RideId, q: RideId)
    requires forall e <- events :: e.ride == r
    ensures RideLog(events, q) == if q == r then events else []
  {
    if events != [] {
      var before, last := events[..|events| - 1], events[|events| - 1];
      assert events == before + [last];
      OwnLog(before, r, q);
    }
  }

  lemma NewEventsOwned(v: View, r: RideId, m: Move, q: RideId)
    ensures RideLog(NewEvents(v, r, m), q) == if q == r then NewEvents(v, r, m) else []
  {
    OwnLog(NewEvents(v, r, m), r, q);
  }

  lemma NewRequestsOwned(m: Move, r: RideId, q: RideId)
    requires OwnRequests(m, r)
    ensures RideRequests(NewRequests(m), q) == if q == r then NewRequests(m) else []
  {
    var es := NewRequests(m);
    if |es| == 1 {
      assert es[..0] == [];
      assert es[0] in es;
    }
  }

  lemma CommitLog(s: State, r: RideId, m: Move, q: RideId)
    ensures RideLog(Commit(s, r, m).audit, q) ==
            RideLog(s.audit, q) + if q == r then NewEvents(ViewOf(s, r), r, m) else []
  {
    RideLogConcat(s.audit, NewEvents(ViewOf(s, r), r, m), q);
    NewEventsOwned(ViewOf(s, r), r, m, q);
  }

  lemma CommitRequests(s: State, r: RideId, m: Move, q: RideId)
    requires OwnRequests(m, r)
    ensures RideRequests(Commit(s, r, m).requests, q) ==
            RideRequests(s.requests, q) + if q == r then NewRequests(m) else []
  {
    RideRequestsConcat(s.requests, NewRequests(m), q);
    NewRequestsOwned(m, r, q);
  }

  lemma PutGet<K, V>(table: map<K, V>, k: K, value: Option<V>, x: K)
    ensures Get(Put(table, k, value), x) == if x == k then value else Get(table, x)
  {
  }

  /** Committing a move of `r` plays it on `r` and touches no other ride. */
  lemma CommitView(s: State, r: RideId, m: Move, q: RideId)
    requires OwnRequests(m, r)
    ensures ViewOf(Commit(s, r, m), q) == if q == r then Play(ViewOf(s, r), r, m) else ViewOf(s, q)
  {
    PutGet(s.rides, r, MovedRide(ViewOf(s, r), m), q);
    PutGet(s.locks, r, MovedLock(ViewOf(s, r), m), q);
    CommitLog(s, r, m, q);
    CommitRequests(s, r, m, q);
    if q != r {
      assert RideLog(s.audit, q) + [] == RideLog(s.audit, q);
      assert RideRequests(s.requests, q) + [] == RideRequests(s.requests, q);
    }
  }

  lemma PlayIdle(v: View, r: RideId)
    ensures Play(v, r, Idle) == v
  {
    assert v.log + [] == v.log && v.requests + [] == v.requests;
  }

  lemma CommitIdle(s: State, r: RideId)
    ensures Commit(s, r, Idle) == s
  {
    var t := Commit(s, r, Idle);
    assert t.rides == s.rides;
    assert t.locks == s.locks;
    assert s.audit + [] == s.audit && s.requests + [] == s.requests;
  }

  lemma RowUnchanged(s: State, r: RideId)
    ensures Put(s.rides, r, Get(s.rides, r)) == s.rides
    ensures Put(s.locks, r, Get(s.locks, r)) == s.locks
    ensures s.requests + [] == s.requests
  {
  }

  lemma {:induction false} RequestInView(requests: seq<AuctionRequest>, index: nat)
    requires index < |requests|
    ensures requests[index] in RideRequests(requests, requests[index].ride)
  {
    if index < |requests| - 1 {
      RequestInView(requests[..|requests| - 1], index);
    }
  }

  // ---- The tables after a move ------------------------------------------------------

  lemma CommitShifted(s: State, r: RideId, service: GroupId, target: Status, clientTs: nat, ts: nat,
                      request: Option<AuctionRequest>)
    requires r in s.rides
    ensures Commit(s, r, Shifted(service, target, clientTs, ts, request)) ==
            s.(rides := s.rides[r := ShiftedRide(s.rides[r], service, target, clientTs, ts)],
               locks := if Terminal(target) then s.locks - {r} else s.locks,
               audit := s.audit + [Event(r, StateTransition(s.rides[r].status, target, Some(clientTs)), service, ts)],
               requests := s.requests + ToSeq(request))
  {
    RowUnchanged(s, r);
  }

  /** The checks pass exactly when the move is permitted, the timestamp is newer, and for confirm, in_transit
      and complete the lease row names the sender. */
  lemma CheckPassesIff(ride: Option<Ride>, lock: Option<Lock>, service: GroupId, target: Option<Status>, clientTs: nat)
    ensures CheckTransition(ride, lock, service, target, clientTs) == Done <==>
            && ride.Some? && target.Some? && Permitted(ride.value.status, target.value)
            && clientTs > ride.value.clientTs
            && (target.value in {Confirm, InTransit, Complete} ==> lock.Some? && lock.value.heldBy == service)
  {
    if ride.Some? && target.Some? {
      PermittedIsTable(ride.value.status, target.value);
    }
  }

  lemma AcceptedDecision(v: View, r: RideId, clock: nat, service: GroupId, target: Status, clientTs: nat, up: bool)
    requires Resubmissions(v.log, service, clientTs) == 0
    requires CheckTransition(v.ride, v.lock, service, Some(target), clientTs) == Done
    ensures var ts := Max(clock, clientTs) + 1;
            var last := if target.Compensating? then ts + 2 else ts + 1;
            var request := if target.Compensating? && up
                           then Some(AuctionRequest(r, last, AUCTION_TIMEOUT_COMPENSATION,
                                                    Excluding(v.ride.value, service)))
                           else None;
            DecidePatch(v, r, clock, service, Some(target), clientTs, up) ==
            Decision(Done, Shifted(service, target, clientTs, ts, request), last)
  {
  }

  lemma CommitSettled(s: State, r: RideId, winner: Option<GroupId>, accepted: nat, closeAt: Time, ts: nat,
                      excluded: seq<GroupId>)
    requires r in s.rides
    ensures Commit(s, r, Settled(winner, accepted, closeAt, ts, excluded)) ==
            s.(rides := s.rides[r := ClosedRide(s.rides[r], winner, closeAt, ts)],
               locks := if winner.Some?
                        then s.locks[r := Lock(winner.value, closeAt + LOCK_TTL_WINNER * SECOND)]
                        else s.locks - {r},
               audit := s.audit + ClosingEvents(r, winner, accepted, ts))
  {
    var m := Settled(winner, accepted, closeAt, ts, excluded);
    assert MovedRide(ViewOf(s, r), m) == Some(ClosedRide(s.rides[r], winner, closeAt, ts));
    assert s.requests + [] == s.requests;
  }

  lemma CommitLapsed(s: State, r: RideId, expiredTs: nat, ts: nat, request: Option<AuctionRequest>)
    requires r in s.rides && r in s.locks
    ensures Commit(s, r, Lapsed(expiredTs, ts, request)) ==
            s.(rides := s.rides[r := LapsedRide(s.rides[r], s.locks[r].heldBy, ts)],
               locks := s.locks - {r},
               audit := s.audit + LapseEvents(r, s.rides[r], s.locks[r], expiredTs, ts),
               requests := s.requests + ToSeq(request))
  {
  }

  lemma LapseDecision(v: View, r: RideId, clock: nat, now: Time, up: bool)
    requires v.lock.Some? && v.lock.value.expiresAt <= now && v.ride.Some? && Live(v.ride.value.status)
    ensures var message := AuctionRequest(r, clock + 3, AUCTION_TIMEOUT_COMPENSATION,
                                          Excluding(v.ride.value, v.lock.value.heldBy));
            DecideExpire(v, r, clock, now, up) ==
            Decision(Done, Lapsed(clock + 1, clock + 2, if up then Some(message) else None),
                     if up then clock + 4 else clock + 3)
  {
  }

  lemma AcquireStep(s: State, r: RideId, service: GroupId, ttl: nat)
    ensures var d := DecideAcquire(ViewOf(s, r), s.clock, s.now, service, ttl);
            && d.outcome == (if r !in s.rides then NotFound
                             else if r in s.locks && s.locks[r].heldBy != service && s.locks[r].expiresAt > s.now
                             then Conflict else Done)
            && Apply(s, Acquire(r, service, ttl)) ==
                 if d.outcome == Done
                 then s.(locks := s.locks[r := Lock(service, s.now + ttl * SECOND)],
                         audit := s.audit + [Event(r, LockAcquired(ttl), service, s.clock + 1)],
                         clock := s.clock + 1)
                 else s
  {
    RowUnchanged(s, r);
    CommitIdle(s, r);
  }

  // ---- Every decision is legal ----------------------------------------------------

  lemma CreateLegal(v: View, r: RideId, groups: seq<GroupId>, clock: nat, now: Time,
                    origin: GroupId, clientTs: nat, timeout: nat, published: bool)
    ensures var d := DecideCreate(v, r, groups, clock, now, origin, clientTs, timeout, published);
            Legal(v, r, d.move, clock, d.clock, groups) && OwnRequests(d.move, r)
  {
  }

  lemma PatchLegal(v: View, r: RideId, clock: nat, service: GroupId, target: Option<Status>,
                   clientTs: nat, published: bool, groups: seq<GroupId>)
    ensures var d := DecidePatch(v, r, clock, service, target, clientTs, published);
            Legal(v, r, d.move, clock, d.clock, groups) && OwnRequests(d.move, r)
  {
  }

  lemma ExpireLegal(v: View, r: RideId, clock: nat, now: Time, published: bool, groups: seq<GroupId>)
    ensures var d := DecideExpire(v, r, clock, now, published);
            Legal(v, r, d.move, clock, d.clock, groups) && OwnRequests(d.move, r)
  {
  }

  /** Deliveries: the winner was invited, and the message is one of the ride's own. */
  lemma AuctionLegal(s: State, index: nat, elapsed: nat, answers: map<GroupId, Answer>)
    requires index < |s.requests| && AuctionOpen(s, s.requests[index].ride) && NoDuplicates(s.groups)
    ensures var q := s.requests[index];
            var d := AuctionDecision(s, index, elapsed, answers);
            Legal(ViewOf(s, q.ride), q.ride, d.move, s.clock, d.clock, s.groups)
  {
    var q := s.requests[index];
    WinnerWasInvited(s.groups, s.rides[q.ride].origin, q.excluded, s.breakers, LIMITS, s.now,
                     s.now + elapsed, answers);
    RequestInView(s.requests, index);
    assert q in ViewOf(s, q.ride).requests;
  }

  // ---- The bridge -------------------------------------------------------------------

  /** What a step commits: a decision about one ride, or nothing about any ride. */
  ghost predicate Bridged(s: State, t: State, r: RideId, m: Move) {
    Legal(ViewOf(s, r), r, m, s.clock, t.clock, s.groups) && ViewOf(t, r) == Play(ViewOf(s, r), r, m)
  }

  lemma BridgeEnact(s: State, x: RideId, d: Decision, t: State, r: RideId)
    requires Legal(ViewOf(s, x), x, d.move, s.clock, d.clock, s.groups) && OwnRequests(d.move, x)
    requires t.rides == Enact(s, x, d).rides && t.locks == Enact(s, x, d).locks
    requires t.audit == Enact(s, x, d).audit && t.requests == Enact(s, x, d).requests
    requires t.clock == d.clock
    ensures Bridged(s, t, r, if x == r then d.move else Idle)
  {
    CommitView(s, x, d.move, r);
    assert ViewOf(t, r) == ViewOf(Commit(s, x, d.move), r);
    PlayIdle(ViewOf(s, r), r);
  }

  lemma BridgeIdle(s: State, t: State, r: RideId)
    requires t.rides == s.rides && t.locks == s.locks && t.audit == s.audit && t.requests == s.requests
    requires s.clock <= t.clock
    ensures Bridged(s, t, r, Idle)
  {
    PlayIdle(ViewOf(s, r), r);
  }

  lemma BridgeAuction(s: State, index: nat, elapsed: nat, answers: map<GroupId, Answer>, t: State, r: RideId)
    requires index < |s.requests| && AuctionOpen(s, s.requests[index].ride) && NoDuplicates(s.groups)
    requires t.rides == HoldAuction(s, index, elapsed, answers).rides
    requires t.locks == HoldAuction(s, index, elapsed, answers).locks
    requires t.audit == HoldAuction(s, index, elapsed, answers).audit
    requires t.requests == HoldAuction(s, index, elapsed, answers).requests
    requires t.clock == HoldAuction(s, index, elapsed, answers).clock
    ensures Bridged(s, t, r,
                    if s.requests[index].ride == r then AuctionDecision(s, index, elapsed, answers).move else Idle)
  {
    AuctionLegal(s, index, elapsed, answers);
    BridgeEnact(s, s.requests[index].ride, AuctionDecision(s, index, elapsed, answers), t, r);
  }

  lemma BridgeDelivery(s: State, op: Op, r: RideId)
    requires op.Deliver? && NoDuplicates(s.groups)
    ensures Bridged(s, Apply(s, op), r, MoveFor(s, op, r))
  {
    if !Pending(s, op.index) || !AuctionOpen(s, s.requests[op.index].ride) {
      BridgeIdle(s, Apply(s, op), r);
    } else {
      BridgeAuction(s, op.index, op.elapsed, op.answers, Apply(s, op), r);
    }
  }

  lemma BridgeCreate(s: State, op: Op, r: RideId)
    requires op.Create?
    ensures Bridged(s, Apply(s, op), r, MoveFor(s, op, r))
  {
    var x := op.ride;
    CreateLegal(ViewOf(s, x), x, s.groups, s.clock, s.now, op.origin, op.clientTs, op.timeout, op.published);
    BridgeEnact(s, x, DecideCreate(ViewOf(s, x), x, s.groups, s.clock, s.now, op.origin, op.clientTs, op.timeout,
                                   op.published), Apply(s, op), r);
  }

  lemma BridgePatch(s: State, op: Op, r: RideId)
    requires op.Patch?
    ensures Bridged(s, Apply(s, op), r, MoveFor(s, op, r))
  {
    var x := op.ride;
    PatchLegal(ViewOf(s, x), x, s.clock, op.service, op.target, op.clientTs, op.published, s.groups);
    BridgeEnact(s, x, DecidePatch(ViewOf(s, x), x, s.clock, op.service, op.target, op.clientTs, op.published),
                Apply(s, op), r);
  }

  lemma BridgeLease(s: State, op: Op, r: RideId)
    requires op.Acquire? || op.Release?
    ensures Bridged(s, Apply(s, op), r, MoveFor(s, op, r))
  {
    if op.Acquire? {
      BridgeEnact(s, op.ride, DecideAcquire(ViewOf(s, op.ride), s.clock, s.now, op.service, op.ttl),
                  Apply(s, op), r);
    } else {
      BridgeEnact(s, op.ride, DecideRelease(ViewOf(s, op.ride), s.clock, op.service), Apply(s, op), r);
    }
  }

  lemma BridgeExpire(s: State, op: Op, r: RideId)
    requires op.Expire?
    ensures Bridged(s, Apply(s, op), r, MoveFor(s, op, r))
  {
    ExpireLegal(ViewOf(s, op.ride), op.ride, s.clock, s.now, op.published, s.groups);
    BridgeEnact(s, op.ride, ExpireDecision(s, op.ride, op.published), Apply(s, op), r);
  }

  lemma BridgeRest(s: State, op: Op, r: RideId)
    requires op.Register? || op.Advance? || op.Use?
    ensures Bridged(s, Apply(s, op), r, MoveFor(s, op, r))
  {
    BridgeIdle(s, Apply(s, op), r);
  }

  /** Seen from ride `r`, a step is a legal move of `r` and nothing else. */
  lemma Follows(s: State, op: Op, r: RideId)
    requires NoDuplicates(s.groups)
    ensures Bridged(s, Apply(s, op), r, MoveFor(s, op, r))
  {
    match op
    case Create(_, _, _, _, _) => BridgeCreate(s, op, r);
    case Patch(_, _, _, _, _) => BridgePatch(s, op, r);
    case Acquire(_, _, _) => BridgeLease(s, op, r);
    case Release(_, _) => BridgeLease(s, op, r);
    case Deliver(_, _, _, _) => BridgeDelivery(s, op, r);
    case Expire(_, _) => BridgeExpire(s, op, r);
    case _ => BridgeRest(s, op, r);
  }

  lemma StepLegal(s: State, op: Op, r: RideId) returns (after: nat)
    requires NoDuplicates(s.groups)
    ensures Legal(ViewOf(s, r), r, MoveFor(s, op, r), s.clock, after, s.groups)
  {
    Follows(s, op, r);
    after := Apply(s, op).clock;
  }

  lemma StepView(s: State, op: Op, r: RideId)
    requires NoDuplicates(s.groups)
    ensures ViewOf(Apply(s, op), r) == Play(ViewOf(s, r), r, MoveFor(s, op, r))
  {
    Follows(s, op, r);
  }

  lemma IdleKeepsView(s: State, op: Op, r: RideId)
    requires NoDuplicates(s.groups) && MoveFor(s, op, r) == Idle
    ensures ViewOf(Apply(s, op), r) == ViewOf(s, r)
  {
    StepView(s, op, r);
    PlayIdle(ViewOf(s, r), r);
  }

  /** An auction of `r` closes only by delivering one of its queued messages. */
  lemma SettledIsDelivered(s: State, op: Op, r: RideId)
    requires MoveFor(s, op, r).Settled?
    ensures op.Deliver? && Pending(s, op.index) && s.requests[op.index].ride == r && AuctionOpen(s, r)
    ensures MoveFor(s, op, r).excluded == s.requests[op.index].excluded
    ensures MoveFor(s, op, r).closeAt == s.now + op.elapsed
  {
  }

  // ---- The registry -------------------------------------------------------------

  /** Group ids are unique and match the registration pattern. */
  ghost predicate GroupsValid(groups: seq<GroupId>) {
    NoDuplicates(groups) && forall g <- groups :: ValidGroupId(g)
  }

  /** Registration only appends. */
  lemma StepGroups(s: State, op: Op)
    requires GroupsValid(s.groups)
    ensures GroupsValid(Apply(s, op).groups)
    ensures s.groups <= Apply(s, op).groups
  {
  }

  lemma {:induction false} RunGroups(s: State, ops: seq<Op>)
    requires GroupsValid(s.groups)
    ensures GroupsValid(Run(s, ops).groups)
    ensures s.groups <= Run(s, ops).groups
  {
    if ops != [] {
      var before := ops[..|ops| - 1];
      RunGroups(s, before);
      StepGroups(Run(s, before), ops[|ops| - 1]);
    }
  }
}
