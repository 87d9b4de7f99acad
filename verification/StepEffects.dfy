/**
  What every step does to the tables, column by column.

  States, amounts and timestamps are written out, so that these lemmas say what a step means without
  leaning on the functions that define it.
*/
module StepEffects {
  import opened Wrappers
  import opened CircuitBreakers
  import opened Auctions
  import opened RideModel
  import opened ExclusionList
  import opened Saga
  import opened RideMoves
  import opened SagaProperties

  // ---- Creation ------------------------------------------------------------------------

  /** A new ride: its row, its first lease, its event and its first message. */
  lemma CreateEffect(s: State, op: Op, t: State, ts: nat)
    requires op.Create? && t == Apply(s, op) && op.ride !in s.rides && op.origin in s.groups
    requires ts == (if s.clock >= op.clientTs then s.clock else op.clientTs) + 1
    ensures op.ride in t.rides && t.rides == s.rides[op.ride := t.rides[op.ride]]
    ensures var row := t.rides[op.ride];
            && row.origin == op.origin && row.clientTs == op.clientTs && row.coreTs == ts && row.timeout == op.timeout
            && row.status == Request && row.auction == AuctionStatus.Open
            && row.recipient == None && row.assignedAt == None && row.closedAt == None && row.excluded == None
    ensures t.locks == s.locks[op.ride := Lock(op.origin, s.now + (op.timeout + 30) * 1_000_000)]
    ensures t.audit == s.audit + [Event(op.ride, RideCreated(op.timeout), op.origin, ts)]
    ensures t.requests == s.requests +
                          if op.published then [AuctionRequest(op.ride, ts + 1, op.timeout, [])] else []
    ensures t.clock == ts + 1
    ensures t.groups == s.groups && t.acked == s.acked && t.proposals == s.proposals
    ensures t.breakers == s.breakers && t.now == s.now
  {
  }

  /** Nothing happens for a row id that is taken or an origin that is not registered. */
  lemma CreateIgnored(s: State, op: Op)
    requires op.Create? && (op.ride in s.rides || op.origin !in s.groups)
    ensures Apply(s, op) == s
  {
    CommitIdle(s, op.ride);
  }

  // ---- PATCH ---------------------------------------------------------------------------

  ghost predicate PatchDone(s: State, op: Op)
    requires op.Patch?
  {
    DecidePatch(ViewOf(s, op.ride), op.ride, s.clock, op.service, op.target, op.clientTs, op.published).outcome == Done
  }

  /** An accepted PATCH. */
  lemma PatchEffect(s: State, op: Op, t: State, ts: nat)
    requires op.Patch? && t == Apply(s, op) && PatchDone(s, op)
    requires ts == (if s.clock >= op.clientTs then s.clock else op.clientTs) + 1
    ensures op.ride in s.rides && op.target.Some?
    ensures op.ride in t.rides && t.rides == s.rides[op.ride := t.rides[op.ride]]
    ensures var was, row := s.rides[op.ride], t.rides[op.ride];
            && row.status == op.target.value && row.clientTs == op.clientTs && row.coreTs == ts
            && row.origin == was.origin && row.recipient == was.recipient && row.assignedAt == was.assignedAt
            && row.timeout == was.timeout
            && (op.target != Some(Compensating) ==>
                  row.auction == was.auction && row.closedAt == was.closedAt && row.excluded == was.excluded)
            && (op.target == Some(Compensating) ==>
                  && row.auction == AuctionStatus.Open && row.closedAt == None
                  && row.excluded == Some(Join(Parse(was.excluded) + [op.service])))
    ensures t.locks == if op.target in {Some(Complete), Some(Cancelled)} then s.locks - {op.ride} else s.locks
    ensures t.audit == s.audit + [
              Event(op.ride, StateTransition(s.rides[op.ride].status, op.target.value, Some(op.clientTs)),
                    op.service, ts)]
    ensures t.requests == s.requests +
              if op.target == Some(Compensating) && op.published
              then [AuctionRequest(op.ride, ts + 2, 10, Parse(s.rides[op.ride].excluded) + [op.service])] else []
    ensures t.clock == if op.target == Some(Compensating) then ts + 2 else ts + 1
    ensures t.groups == s.groups && t.acked == s.acked && t.proposals == s.proposals
    ensures t.breakers == s.breakers && t.now == s.now
  {
    var r, target := op.ride, op.target.value;
    AcceptedDecision(ViewOf(s, r), r, s.clock, op.service, target, op.clientTs, op.published);
    var m := DecidePatch(ViewOf(s, r), r, s.clock, op.service, op.target, op.clientTs, op.published).move;
    CommitShifted(s, r, op.service, target, op.clientTs, ts, m.request);
    assert s.requests + [] == s.requests;
  }

  /** A PATCH that is not accepted changes no row; a refusal with 422 or 409 costs one tick. */
  lemma PatchRefusedEffect(s: State, op: Op)
    requires op.Patch? && Reachable(s) && !PatchDone(s, op)
    ensures Apply(s, op) ==
            if op.ride !in s.rides || Seen(s, op.ride, op.service, op.clientTs) then s
            else s.(clock := s.clock + 1)
  {
    var r := op.ride;
    PatchOutcome(s, r, op.service, op.target, op.clientTs, op.published);
    RefusalMovesNothing(ViewOf(s, r), r, s.clock, op.service, op.target, op.clientTs, op.published);
    CommitIdle(s, r);
  }

  lemma RefusalMovesNothing(v: View, r: RideId, clock: nat, service: GroupId, target: Option<Status>, clientTs: nat,
                            published: bool)
    ensures var d := DecidePatch(v, r, clock, service, target, clientTs, published);
            d.outcome != Done ==>
              d.move == Idle && d.clock == if d.outcome in {Unprocessable, Conflict} then clock + 1 else clock
  {
  }

  // ---- Leases --------------------------------------------------------------------------

  /** Acquisition and renewal: refused only while another group's lease has not expired. */
  lemma LeaseAcquired(s: State, r: RideId, service: GroupId, ttl: nat)
    ensures DecideAcquire(ViewOf(s, r), s.clock, s.now, service, ttl).outcome ==
            if r !in s.rides then NotFound
            else if r in s.locks && s.locks[r].heldBy != service && s.locks[r].expiresAt > s.now then Conflict
            else Done
    ensures Apply(s, Acquire(r, service, ttl)) ==
            if r in s.rides && (r !in s.locks || s.locks[r].heldBy == service || s.locks[r].expiresAt <= s.now)
            then s.(locks := s.locks[r := Lock(service, s.now + ttl * 1_000_000)],
                    audit := s.audit + [Event(r, LockAcquired(ttl), service, s.clock + 1)],
                    clock := s.clock + 1)
            else s
  {
    AcquireStep(s, r, service, ttl);
  }

  /** Only the holder releases. */
  lemma LeaseReleased(s: State, r: RideId, service: GroupId)
    ensures DecideRelease(ViewOf(s, r), s.clock, service).outcome ==
            if r !in s.rides || r !in s.locks then NotFound
            else if s.locks[r].heldBy != service then Forbidden
            else Done
    ensures Apply(s, Release(r, service)) ==
            if r in s.rides && r in s.locks && s.locks[r].heldBy == service
            then s.(locks := s.locks - {r},
                    audit := s.audit + [Event(r, LockReleased, service, s.clock + 1)],
                    clock := s.clock + 1)
            else s
  {
    RowUnchanged(s, r);
    CommitIdle(s, r);
  }

  // ---- Deliveries ------------------------------------------------------------------------

  /** A message for a ride that is unknown or waits for no auction only moves the clock. */
  lemma DeliveryIgnored(s: State, op: Op)
    requires op.Deliver? && op.index < |s.requests| && op.index !in s.acked
    requires var q := s.requests[op.index];
             q.ride !in s.rides || s.rides[q.ride].auction != AuctionStatus.Open
    ensures var q := s.requests[op.index];
            Apply(s, op) == s.(clock := (if s.clock >= q.ts then s.clock else q.ts) + 1,
                               acked := if op.acked then s.acked + {op.index} else s.acked)
  {
  }

  lemma DeliveryHoldsRound(s: State, op: Op, q: AuctionRequest, c: nat, closeAt: Time, round: Round)
    requires op.Deliver? && op.index < |s.requests| && op.index !in s.acked
    requires q == s.requests[op.index] && q.ride in s.rides && s.rides[q.ride].auction == AuctionStatus.Open
    requires c == (if s.clock >= q.ts then s.clock else q.ts) + 1 && closeAt == s.now + op.elapsed
    requires round == Conduct(s.groups, s.rides[q.ride].origin, q.excluded, s.breakers, Limits(2, 20_000_000),
                              s.now, closeAt, op.answers)
    ensures Apply(s, op) ==
            Enact(s, q.ride, DecideAuction(c, closeAt, q.excluded, round)).(
              breakers := round.table, proposals := s.proposals + Stored(q.ride, round.proposals), now := closeAt,
              acked := if op.acked then s.acked + {op.index} else s.acked)
  {
    assert round == RoundOf(s, op.index, op.elapsed, op.answers);
  }

  /** The auction of a delivered message closes: with a winner, or without one. */
  lemma AuctionEffect(s: State, op: Op, t: State, q: AuctionRequest, c: nat, closeAt: Time, round: Round)
    requires op.Deliver? && t == Apply(s, op) && op.index < |s.requests| && op.index !in s.acked
    requires q == s.requests[op.index] && q.ride in s.rides && s.rides[q.ride].auction == AuctionStatus.Open
    requires c == (if s.clock >= q.ts then s.clock else q.ts) + 1 && closeAt == s.now + op.elapsed
    requires round == Conduct(s.groups, s.rides[q.ride].origin, q.excluded, s.breakers, Limits(2, 20_000_000),
                              s.now, closeAt, op.answers)
    ensures q.ride in t.rides && t.rides == s.rides[q.ride := t.rides[q.ride]]
    ensures var was, row := s.rides[q.ride], t.rides[q.ride];
            && row.closedAt == Some(closeAt) && row.coreTs == c + 3
            && row.origin == was.origin && row.clientTs == was.clientTs && row.excluded == was.excluded
            && row.timeout == was.timeout
            && (round.winner.Some? ==>
                  && row.status == Match && row.auction == AuctionStatus.Closed
                  && row.recipient == round.winner && row.assignedAt == Some(closeAt))
            && (round.winner.None? ==>
                  && row.status == Cancelled && row.auction == NoProposals
                  && row.recipient == was.recipient && row.assignedAt == was.assignedAt)
    ensures t.locks == if round.winner.Some?
                       then s.locks[q.ride := Lock(round.winner.value, closeAt + 60_000_000)]
                       else s.locks - {q.ride}
    ensures t.audit == s.audit + [Event(q.ride, AuctionClosed(round.winner, round.acceptedCount), "core", c + 3)] +
                       if round.winner.Some? then [Event(q.ride, LockAcquired(60), round.winner.value, c + 4)] else []
    ensures t.clock == if round.winner.Some? then c + 4 else c + 3
    ensures t.breakers == round.table && t.now == closeAt
    ensures |t.proposals| == |s.proposals| + |round.proposals| && s.proposals <= t.proposals
    ensures forall i | 0 <= i < |round.proposals| ::
              t.proposals[|s.proposals| + i] == StoredProposal(q.ride, round.proposals[i])
    ensures t.groups == s.groups && t.requests == s.requests
    ensures t.acked == if op.acked then s.acked + {op.index} else s.acked
  {
    var d := DecideAuction(c, closeAt, q.excluded, round);
    DeliveryHoldsRound(s, op, q, c, closeAt, round);
    CommitSettled(s, q.ride, round.winner, round.acceptedCount, closeAt, c + 3, q.excluded);
    assert t.rides == Enact(s, q.ride, d).rides && t.locks == Enact(s, q.ride, d).locks;
  }

  // ---- The monitor -------------------------------------------------------------------------

  /** A lease that has not expired is left alone, one of a ride that is over, compensating or gone is
      deleted without a trace. */
  lemma ExpiryWithoutTrace(s: State, r: RideId, published: bool)
    requires r !in s.locks || s.locks[r].expiresAt > s.now || r !in s.rides
             || s.rides[r].status in {Complete, Cancelled, Compensating}
    ensures Apply(s, Expire(r, published)) ==
            if r !in s.locks || s.locks[r].expiresAt > s.now then s else s.(locks := s.locks - {r})
  {
    RowUnchanged(s, r);
    CommitIdle(s, r);
    assert s.audit + [] == s.audit;
  }

  /** A live ride loses its expired lease. */
  lemma LapseEffect(s: State, r: RideId, published: bool, t: State)
    requires r in s.locks && s.locks[r].expiresAt <= s.now && r in s.rides
    requires s.rides[r].status in {Request, Match, Confirm, InTransit} && t == Apply(s, Expire(r, published))
    ensures r in t.rides && t.rides == s.rides[r := t.rides[r]]
    ensures var was, row, holder := s.rides[r], t.rides[r], s.locks[r].heldBy;
            && row.status == Compensating && row.coreTs == s.clock + 2
            && row.auction == AuctionStatus.Open && row.closedAt == None
            && row.excluded == Some(Join(Parse(was.excluded) + [holder]))
            && row.origin == was.origin && row.clientTs == was.clientTs && row.timeout == was.timeout
            && row.recipient == was.recipient && row.assignedAt == was.assignedAt
    ensures t.locks == s.locks - {r}
    ensures t.audit == s.audit + [
              Event(r, LockExpired(s.locks[r].expiresAt), s.locks[r].heldBy, s.clock + 1),
              Event(r, StateTransition(s.rides[r].status, Compensating, None), "core", s.clock + 2)]
    ensures t.requests == s.requests +
              if published
              then [AuctionRequest(r, s.clock + 3, 10, Parse(s.rides[r].excluded) + [s.locks[r].heldBy])] else []
    ensures t.breakers == s.breakers[
              s.locks[r].heldBy := Fail(Lookup(s.breakers, s.locks[r].heldBy), Limits(2, 20_000_000), s.now)]
    ensures t.clock == if published then s.clock + 4 else s.clock + 3
    ensures t.groups == s.groups && t.acked == s.acked && t.proposals == s.proposals && t.now == s.now
  {
    LapseDecision(ViewOf(s, r), r, s.clock, s.now, published);
    var m := ExpireDecision(s, r, published).move;
    CommitLapsed(s, r, s.clock + 1, s.clock + 2, m.request);
    assert s.requests + [] == s.requests;
  }

  // ---- The rest ------------------------------------------------------------------------------

  /** The characters of a group id. */
  predicate IdChar(c: char) {
    c == '-' || (0 <= c as int - 'a' as int < 26) || (0 <= c as int - '0' as int < 10)
  }

  /** Registration adds a row for a new id of small letters, digits and hyphens, and for nothing else. */
  lemma RegisterEffect(s: State, g: GroupId)
    ensures Apply(s, Register(g)) ==
            if g != "" && (forall i | 0 <= i < |g| :: IdChar(g[i])) && g !in s.groups
            then s.(groups := s.groups + [g]) else s
  {
    assert (forall c <- g :: IdChar(c)) <==> forall i | 0 <= i < |g| :: IdChar(g[i]);
  }

  /** The controllers' use of a breaker, under the deployed limits. */
  lemma UseEffect(s: State, g: GroupId, probe: Probe)
    ensures var b := if g in s.breakers then s.breakers[g] else Breaker(0, BreakerState.Closed, 0);
            Apply(s, Use(g, probe)) == s.(breakers := s.breakers[g :=
              match probe
              case Admission => Observe(b, Limits(2, 20_000_000), s.now)
              case Fault => Fail(b, Limits(2, 20_000_000), s.now)
              case Recovery => Succeed(b)])
  {
  }

  /** The deployed breaker opens on the third failure and shuts its group out for twenty seconds. */
  lemma DeployedBreaker(a: Time, b: Time, c: Time, at: Time)
    ensures Replay(LIMITS, [Failure(a), Failure(b)]).state.Closed?
    ensures Replay(LIMITS, [Failure(a), Failure(b), Failure(c)]).state.Open?
    ensures Admits(Replay(LIMITS, [Failure(a), Failure(b), Failure(c)]), LIMITS, at) <==> at >= c + 20_000_000
  {
    OpensOnThirdFailure(20_000_000, a, b, c);
    assert LIMITS == Limits(2, 20_000_000);
  }

  // ---- Late PATCHes -----------------------------------------------------------------------

  lemma MoveKeepsStamp(v: View, r: RideId, m: Move, before: nat, after: nat, groups: seq<GroupId>)
    requires Legal(v, r, m, before, after, groups) && v.ride.Some?
    ensures Play(v, r, m).ride.Some? && Play(v, r, m).ride.value.clientTs >= v.ride.value.clientTs
  {
  }

  lemma StepKeepsStamp(s: State, op: Op, r: RideId, bound: nat)
    requires NoDuplicates(s.groups) && r in s.rides && s.rides[r].clientTs >= bound
    ensures Get(Apply(s, op).rides, r).Some? && Apply(s, op).rides[r].clientTs >= bound
  {
    var after := StepLegal(s, op, r);
    MoveKeepsStamp(ViewOf(s, r), r, MoveFor(s, op, r), s.clock, after, s.groups);
    StepView(s, op, r);
    assert ViewOf(Apply(s, op), r).ride == Get(Apply(s, op).rides, r);
  }

  lemma {:induction false} RunKeepsStamp(s: State, more: seq<Op>, r: RideId, bound: nat)
    requires GroupsValid(s.groups) && r in s.rides && s.rides[r].clientTs >= bound
    ensures Get(Run(s, more).rides, r).Some? && Run(s, more).rides[r].clientTs >= bound
  {
    if more != [] {
      var front := more[..|more| - 1];
      RunKeepsStamp(s, front, r, bound);
      RunGroups(s, front);
      StepKeepsStamp(Run(s, front), more[|more| - 1], r, bound);
    }
  }

  /** From a state in which the ride has client timestamp `bound`, no PATCH stamped `bound` or earlier is
      ever accepted. */
  lemma LatePatchRefused(s: State, more: seq<Op>, u: State, r: RideId, bound: nat, late: Op)
    requires GroupsValid(s.groups) && r in s.rides && s.rides[r].clientTs >= bound && u == Run(s, more)
    requires late.Patch? && late.ride == r && late.clientTs <= bound
    ensures !PatchDone(u, late)
  {
    RunKeepsStamp(s, more, r, bound);
    StaleIsNotDone(ViewOf(u, r), r, u.clock, late.service, late.target, late.clientTs, late.published);
    assert ViewOf(u, r).ride == Get(u.rides, r);
  }

  lemma StaleIsNotDone(v: View, r: RideId, clock: nat, service: GroupId, target: Option<Status>, clientTs: nat,
                       published: bool)
    ensures v.ride.Some? && clientTs <= v.ride.value.clientTs ==>
              DecidePatch(v, r, clock, service, target, clientTs, published).outcome != Done
  {
  }

  /** No PATCH stamped at or before a ride's creation is ever accepted. */
  lemma PatchBeforeCreationRefused(s: State, op: Op, t: State, more: seq<Op>, u: State, late: Op)
    requires GroupsValid(s.groups) && op.Create? && op.ride !in s.rides && op.origin in s.groups
    requires t == Apply(s, op) && u == Run(t, more)
    requires late.Patch? && late.ride == op.ride && late.clientTs <= op.clientTs
    ensures !PatchDone(u, late)
  {
    CreateEffect(s, op, t, (if s.clock >= op.clientTs then s.clock else op.clientTs) + 1);
    LatePatchRefused(t, more, u, op.ride, op.clientTs, late);
  }
}
