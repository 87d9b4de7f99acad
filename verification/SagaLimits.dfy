/**
  What the hypotheses of the bounded saga are for.

  Leaving out any one of them lets the assigned group win its ride again, and without them
  winners are sure to stay distinct only when the ride is final.
*/
module SagaLimits {
  import opened Sequences
  import opened Wrappers
  import opened LamportClocks
  import opened CircuitBreakers
  import opened Auctions
  import opened RideModel
  import opened ExclusionList
  import opened Saga
  import opened RideMoves
  import opened AuditTrail
  import opened RideInvariants
  import opened SagaProperties
  import opened Delivery
  import opened Leases
  import opened SagaBound

  // ---- Winning again --------------------------------------------------------------------------

  lemma {:induction false} WonIsWinner(log: seq<Event>, events: seq<Event>, w: GroupId)
    requires events <= StatusEvents(log) && Won(events, Some(w))
    ensures w in Winners(log)
  {
    var front := Front(log);
    if !(events <= StatusEvents(front)) {
      assert events == StatusEvents(log);
    } else {
      WonIsWinner(front, events, w);
    }
  }

  lemma RecipientIsWinner(v: View)
    requires Progressed(v) && v.ride.Some? && Underway(v.ride.value.status)
    ensures v.ride.value.recipient.Some? && v.ride.value.recipient.value in Winners(v.log)
  {
    var events := StatusEvents(v.log);
    var recipient := v.ride.value.recipient;
    if v.ride.value.status.Match? {
      WonIsWinner(v.log, events, recipient.value);
    } else if v.ride.value.status.Confirm? {
      WonIsWinner(v.log, Front(events), recipient.value);
    } else {
      WonIsWinner(v.log, Front(Front(events)), recipient.value);
    }
  }

  lemma UnsettledKeepsWinners(s: State, op: Op, r: RideId, u: State)
    requires NoDuplicates(s.groups) && u == Apply(s, op) && !MoveFor(s, op, r).Settled?
    ensures Winners(LogOf(u, r)) == Winners(LogOf(s, r))
  {
    WinnersGrow(ViewOf(s, r), r, MoveFor(s, op, r));
    assert Winners(LogOf(s, r)) + [] == Winners(LogOf(s, r));
    StepView(s, op, r);
    LogInView(u, r);
  }

  lemma LapsedRow(s: State, r: RideId, published: bool, u: State)
    requires r in s.rides && Live(s.rides[r].status) && r in s.locks && s.locks[r].expiresAt <= s.now
    requires u == Apply(s, Expire(r, published))
    ensures MoveFor(s, Expire(r, published), r).Lapsed?
    ensures AuctionOpen(u, r) && u.rides[r].origin == s.rides[r].origin
  {
    LapseDecision(ViewOf(s, r), r, s.clock, s.now, published);
    CommitLapsed(s, r, s.clock + 1, s.clock + 2, ExpireDecision(s, r, published).move.request);
  }

  lemma LapseReopens(s: State, r: RideId, published: bool)
    requires NoDuplicates(s.groups) && r in s.rides && Underway(s.rides[r].status)
    requires r in s.locks && s.locks[r].expiresAt <= s.now
    ensures var u := Apply(s, Expire(r, published));
            && AuctionOpen(u, r) && u.rides[r].origin == s.rides[r].origin
            && Winners(LogOf(u, r)) == Winners(LogOf(s, r))
  {
    var u := Apply(s, Expire(r, published));
    LapsedRow(s, r, published, u);
    UnsettledKeepsWinners(s, Expire(r, published), r, u);
  }

  lemma LapseLeavesQueue(s: State, r: RideId, published: bool)
    requires r in s.rides && Live(s.rides[r].status) && r in s.locks && s.locks[r].expiresAt <= s.now
    ensures var u := Apply(s, Expire(r, published));
            && u.groups == s.groups && u.acked == s.acked && u.now == s.now
            && u.requests == s.requests + (
                 if published
                 then [AuctionRequest(r, s.clock + 3, AUCTION_TIMEOUT_COMPENSATION,
                                      Excluding(s.rides[r], s.locks[r].heldBy))]
                 else [])
            && u.breakers == UseBreaker(s.breakers, s.locks[r].heldBy, Fault, s.now)
  {
  }

  /** Message `index` of ride `r` is old: it does not name `winner`, who holds the expired lease of
      the ride and whose breaker will admit it after this one failure. */
  ghost predicate StaleFor(s: State, r: RideId, index: nat, winner: GroupId) {
    && r in s.rides && Underway(s.rides[r].status) && s.rides[r].recipient == Some(winner)
    && r in s.locks && s.locks[r].heldBy == winner && s.locks[r].expiresAt <= s.now
    && Pending(s, index) && s.requests[index].ride == r && winner !in s.requests[index].excluded
    && Admits(Fail(Lookup(s.breakers, winner), LIMITS, s.now), LIMITS, s.now)
  }

  lemma LapseInvites(s: State, r: RideId, index: nat, w: GroupId, published: bool)
    requires GoodState(s) && StaleFor(s, r, index, w)
    ensures var u := Apply(s, Expire(r, published));
            && AuctionOpen(u, r) && Pending(u, index) && u.requests[index].ride == r
            && Invited(w, u.groups, u.rides[r].origin, u.requests[index].excluded, u.breakers, LIMITS, u.now)
            && Winners(LogOf(u, r)) == Winners(LogOf(s, r))
  {
    JointAt(s, r);
    LapseReopens(s, r, published);
    LapseLeavesQueue(s, r, published);
  }

  lemma DeliveryAddsWinner(s: State, index: nat, r: RideId, w: GroupId)
    requires NoDuplicates(s.groups) && AuctionOpen(s, r) && Pending(s, index) && s.requests[index].ride == r
    requires Invited(w, s.groups, s.rides[r].origin, s.requests[index].excluded, s.breakers, LIMITS, s.now)
    ensures Winners(LogOf(Apply(s, Deliver(index, 0, SoleBid(w), true)), r)) == Winners(LogOf(s, r)) + [w]
  {
    var op := Deliver(index, 0, SoleBid(w), true);
    DeliveryPicks(s, index, r, w);
    WinnersGrow(ViewOf(s, r), r, MoveFor(s, op, r));
    StepView(s, op, r);
  }

  lemma RepeatIsDuplicate<T>(xs: seq<T>, x: T)
    requires x in xs
    ensures !NoDuplicates(xs + [x])
  {
    var i :| 0 <= i < |xs| && xs[i] == x;
    assert (xs + [x])[i] == (xs + [x])[|xs|];
  }

  /** An older message that is still queued and does not name the winner undoes the exclusion:
      after the winner's lease lapses, delivering that message can give the ride to the same
      group again, although the column now excludes it.  When the message of the lapse itself is lost,
      the older message is the newest there is. */
  lemma RepeatWinner(s: State, r: RideId, index: nat, w: GroupId, published: bool, u: State, t: State)
    requires Reachable(s) && StaleFor(s, r, index, w)
    requires u == Apply(s, Expire(r, published)) && t == Apply(u, Deliver(index, 0, SoleBid(w), true))
    ensures Winners(LogOf(t, r)) == Winners(LogOf(s, r)) + [w]
    ensures !NoDuplicates(Winners(LogOf(t, r)))
    ensures Pending(u, index) && (!published && Newest(s, index) ==> Newest(u, index))
  {
    ReachableIsGood(s);
    ProgressedAt(s, r);
    RecipientIsWinner(ViewOf(s, r));
    LapseInvites(s, r, index, w, published);
    LapseLeavesQueue(s, r, published);
    StepGroups(s, Expire(r, published));
    DeliveryAddsWinner(u, index, r, w);
    RepeatIsDuplicate(Winners(LogOf(s, r)), w);
  }

  // ---- Each hypothesis of the bound, left out ---------------------------------------------------

  /** The newest message of `r` after a compensation in the name of `x`, seen from a past winner. */
  ghost predicate ReopenedFor(s: State, u: State, r: RideId, x: GroupId) {
    && r in s.rides && AuctionOpen(u, r) && u.rides[r].origin == s.rides[r].origin
    && u.groups == s.groups && u.acked == s.acked && u.now == s.now
    && (exists ts: nat ::
          u.requests == s.requests +
                        [AuctionRequest(r, ts, AUCTION_TIMEOUT_COMPENSATION, Excluding(s.rides[r], x))])
    && Winners(LogOf(u, r)) == Winners(LogOf(s, r))
  }

  /** The newest message lists who asked for the compensation, not who failed: a group that is not
      excluded yet and is admitted can win on it. */
  lemma NewestCanRepeat(s: State, u: State, r: RideId, x: GroupId, w: GroupId, t: State)
    requires NoDuplicates(u.groups) && AcksInRange(s) && ReopenedFor(s, u, r, x)
    requires w in s.groups && w != s.rides[r].origin && w != x && w !in Parse(s.rides[r].excluded)
    requires Admits(Lookup(u.breakers, w), LIMITS, u.now)
    requires t == Apply(u, Deliver(|s.requests|, 0, SoleBid(w), true))
    ensures Pending(u, |s.requests|) && Newest(u, |s.requests|)
    ensures Winners(LogOf(t, r)) == Winners(LogOf(s, r)) + [w]
  {
    var n := |s.requests|;
    assert u.requests[n].ride == r && u.requests[n].excluded == Excluding(s.rides[r], x);
    assert Pending(u, n);
    DeliveryAddsWinner(u, n, r, w);
  }

  /** What an accepted compensation by PATCH makes of the tables. */
  lemma PatchTables(s: State, r: RideId, x: GroupId, clientTs: nat, ts: nat, request: AuctionRequest, u: State)
    requires r in s.rides && Resubmissions(LogOf(s, r), x, clientTs) == 0
    requires CheckTransition(Some(s.rides[r]), Get(s.locks, r), x, Some(Compensating), clientTs) == Done
    requires ts == Max(s.clock, clientTs) + 1
    requires request == AuctionRequest(r, ts + 2, AUCTION_TIMEOUT_COMPENSATION, Excluding(s.rides[r], x))
    requires u == Apply(s, Patch(r, x, Some(Compensating), clientTs, true))
    ensures MoveFor(s, Patch(r, x, Some(Compensating), clientTs, true), r) ==
            Shifted(x, Compensating, clientTs, ts, Some(request))
    ensures u.rides == s.rides[r := ShiftedRide(s.rides[r], x, Compensating, clientTs, ts)]
    ensures u.requests == s.requests + [request]
    ensures u.groups == s.groups && u.acked == s.acked && u.now == s.now && u.breakers == s.breakers
  {
    AcceptedDecision(ViewOf(s, r), r, s.clock, x, Compensating, clientTs, true);
    CommitShifted(s, r, x, Compensating, clientTs, ts, Some(request));
  }

  lemma PatchReopens(s: State, r: RideId, x: GroupId, clientTs: nat, u: State)
    requires GoodState(s) && r in s.rides && Underway(s.rides[r].status) && clientTs > s.rides[r].clientTs
    requires u == Apply(s, Patch(r, x, Some(Compensating), clientTs, true))
    ensures ReopenedFor(s, u, r, x) && u.breakers == s.breakers
  {
    StampedAt(s, r);
    StaleBound(LogOf(s, r), s.rides[r].clientTs, x, clientTs);
    var ts := Max(s.clock, clientTs) + 1;
    var request := AuctionRequest(r, ts + 2, AUCTION_TIMEOUT_COMPENSATION, Excluding(s.rides[r], x));
    PatchTables(s, r, x, clientTs, ts, request, u);
    UnsettledKeepsWinners(s, Patch(r, x, Some(Compensating), clientTs, true), r, u);
  }

  /** A PATCH excludes its sender: when another group than the assigned one asks for the compensation,
      the assigned group can win again on the newest message, with no message lost. */
  lemma RepeatAfterPatch(s: State, r: RideId, x: GroupId, w: GroupId, clientTs: nat, u: State, t: State)
    requires Reachable(s) && r in s.rides && Underway(s.rides[r].status) && clientTs > s.rides[r].clientTs
    requires s.rides[r].recipient == Some(w) && w != x && w !in Parse(s.rides[r].excluded)
    requires Admits(Lookup(s.breakers, w), LIMITS, s.now)
    requires u == Apply(s, Patch(r, x, Some(Compensating), clientTs, true))
    requires t == Apply(u, Deliver(|s.requests|, 0, SoleBid(w), true))
    ensures Pending(u, |s.requests|) && Newest(u, |s.requests|)
    ensures Winners(LogOf(t, r)) == Winners(LogOf(s, r)) + [w] && !NoDuplicates(Winners(LogOf(t, r)))
  {
    ReachableIsGood(s);
    ReachableAcks(s);
    RecipientFacts(s, r, w);
    PatchReopens(s, r, x, clientTs, u);
    NewestCanRepeat(s, u, r, x, w, t);
    RepeatIsDuplicate(Winners(LogOf(s, r)), w);
  }

  lemma RecipientFacts(s: State, r: RideId, w: GroupId)
    requires GoodState(s) && r in s.rides && Underway(s.rides[r].status) && s.rides[r].recipient == Some(w)
    ensures w in s.groups && w != s.rides[r].origin && w in Winners(LogOf(s, r))
  {
    JointAt(s, r);
    ProgressedAt(s, r);
    RecipientIsWinner(ViewOf(s, r));
  }

  lemma ExpiryReopens(s: State, r: RideId, u: State)
    requires GoodState(s) && r in s.rides && Underway(s.rides[r].status)
    requires r in s.locks && s.locks[r].expiresAt <= s.now && u == Apply(s, Expire(r, true))
    ensures ReopenedFor(s, u, r, s.locks[r].heldBy)
    ensures u.breakers == UseBreaker(s.breakers, s.locks[r].heldBy, Fault, s.now)
  {
    LapseReopens(s, r, true);
    LapseLeavesQueue(s, r, true);
  }

  /** The monitor excludes whoever holds the lease: when another group than the assigned one let it
      expire, the assigned group can win again on the newest message, with no message lost. */
  lemma RepeatAfterExpiry(s: State, r: RideId, w: GroupId, u: State, t: State)
    requires Reachable(s) && r in s.rides && Underway(s.rides[r].status)
    requires s.rides[r].recipient == Some(w) && w !in Parse(s.rides[r].excluded)
    requires r in s.locks && s.locks[r].heldBy != w && s.locks[r].expiresAt <= s.now
    requires Admits(Lookup(s.breakers, w), LIMITS, s.now)
    requires u == Apply(s, Expire(r, true)) && t == Apply(u, Deliver(|s.requests|, 0, SoleBid(w), true))
    ensures Pending(u, |s.requests|) && Newest(u, |s.requests|)
    ensures Winners(LogOf(t, r)) == Winners(LogOf(s, r)) + [w] && !NoDuplicates(Winners(LogOf(t, r)))
  {
    ReachableIsGood(s);
    ReachableAcks(s);
    RecipientFacts(s, r, w);
    ExpiryReopens(s, r, u);
    NewestCanRepeat(s, u, r, s.locks[r].heldBy, w, t);
    RepeatIsDuplicate(Winners(LogOf(s, r)), w);
  }

  /** The lease is taken over while `r` is with `w`, and runs out. */
  lemma TakeOver(s: State, r: RideId, x: GroupId, ttl: nat, t: State)
    requires r in s.rides && CanAcquire(s, r, x, ttl)
    requires t == Apply(Apply(s, Acquire(r, x, ttl)), Advance(ttl * SECOND))
    ensures t.rides == s.rides && t.breakers == s.breakers && t.requests == s.requests
    ensures t.now == s.now + ttl * SECOND && Get(t.locks, r) == Some(Lock(x, t.now))
  {
    AcquireStep(s, r, x, ttl);
  }

  /** The companion from the take-over on: any group that can acquire the lease of an assigned ride and
      lets it expire draws the exclusion on itself, and the assigned group can win again. */
  lemma RepeatAfterTakeOver(s: State, r: RideId, x: GroupId, w: GroupId, ttl: nat, held: State, u: State, t: State)
    requires Reachable(s) && r in s.rides && Underway(s.rides[r].status)
    requires s.rides[r].recipient == Some(w) && w != x && w !in Parse(s.rides[r].excluded)
    requires CanAcquire(s, r, x, ttl) && Admits(Lookup(s.breakers, w), LIMITS, s.now + ttl * SECOND)
    requires held == Apply(Apply(s, Acquire(r, x, ttl)), Advance(ttl * SECOND))
    requires u == Apply(held, Expire(r, true)) && t == Apply(u, Deliver(|s.requests|, 0, SoleBid(w), true))
    ensures Pending(u, |s.requests|) && Newest(u, |s.requests|)
    ensures !NoDuplicates(Winners(LogOf(t, r)))
  {
    StepReachable(s, Acquire(r, x, ttl));
    StepReachable(Apply(s, Acquire(r, x, ttl)), Advance(ttl * SECOND));
    TakeOver(s, r, x, ttl, held);
    RepeatAfterExpiry(held, r, w, u, t);
  }

  // ---- When winners stay distinct ----------------------------------------------------------------

  lemma FrozenKeepsWinners(s: State, op: Op, r: RideId)
    requires GoodState(s) && Frozen(s, r)
    ensures Winners(LogOf(Apply(s, op), r)) == Winners(LogOf(s, r))
  {
    FrozenNeverSettles(s, op, r);
    WinnersGrow(ViewOf(s, r), r, MoveFor(s, op, r));
    StepView(s, op, r);
    assert Winners(ViewOf(s, r).log) + [] == Winners(ViewOf(s, r).log);
    LogInView(Apply(s, op), r);
  }

  lemma LogInView(s: State, r: RideId)
    ensures ViewOf(s, r).log == LogOf(s, r)
  {
  }

  lemma {:induction false} FrozenRunKeepsWinners(s: State, more: seq<Op>, r: RideId)
    requires GoodState(s) && Frozen(s, r)
    ensures Winners(LogOf(Run(s, more), r)) == Winners(LogOf(s, r))
  {
    if more != [] {
      FrozenRunKeepsWinners(s, Front(more), r);
      RunKeepsGood(s, Front(more));
      RunKeepsFrozen(s, Front(more), r);
      FrozenKeepsWinners(Run(s, Front(more)), Last(more), r);
    }
  }

  /** A ride in `request` gets a queued message again through the lapse of a lease. */
  lemma RequestReopens(s: State, r: RideId) returns (more: seq<Op>, index: nat)
    requires Reachable(s) && r in s.rides && s.rides[r].status.Request?
    ensures var t := Run(s, more);
            AuctionOpen(t, r) && Pending(t, index) && t.requests[index].ride == r
  {
    var wait: nat := if r in s.locks && s.locks[r].expiresAt > s.now then s.locks[r].expiresAt - s.now else 0;
    var s1 := Apply(s, Advance(wait));
    AcquireAllowed(s1, r, CORE, 1);
    var s2 := Apply(s1, Acquire(r, CORE, 1));
    var held := Apply(s2, Advance(1 * SECOND));
    TakeOver(s1, r, CORE, 1, held);
    StepReachable(s, Advance(wait));
    StepReachable(s1, Acquire(r, CORE, 1));
    StepReachable(s2, Advance(1 * SECOND));
    index := |held.requests|;
    LapseQueues(held, r);
    more := [Advance(wait), Acquire(r, CORE, 1), Advance(1 * SECOND), Expire(r, true)];
    RunFour(s, more[0], more[1], more[2], more[3]);
  }

  lemma RunFour(s: State, a: Op, b: Op, c: Op, d: Op)
    ensures Run(s, [a, b, c, d]) == Apply(Apply(Apply(Apply(s, a), b), c), d)
  {
    RunTwo(s, a, b);
    RunTwo(Run(s, [a, b]), c, d);
    RunConcat(s, [a, b], [c, d]);
    assert [a, b] + [c, d] == [a, b, c, d];
  }

  lemma LapseQueues(s: State, r: RideId)
    requires Reachable(s) && r in s.rides && Live(s.rides[r].status)
    requires r in s.locks && s.locks[r].expiresAt <= s.now
    ensures var t := Apply(s, Expire(r, true));
            AuctionOpen(t, r) && Pending(t, |s.requests|) && t.requests[|s.requests|].ride == r
  {
    var op := Expire(r, true);
    ReachableIsGood(s);
    ReachableAcks(s);
    LapseLeavesQueue(s, r, true);
    assert MoveFor(s, op, r).Lapsed?;
    StepView(s, op, r);
    assert ViewOf(Apply(s, op), r).ride == Get(Apply(s, op).rides, r);
  }

  lemma UnderwayReopens(s: State, r: RideId) returns (more: seq<Op>, index: nat)
    requires Reachable(s) && r in s.rides && Underway(s.rides[r].status)
    ensures var t := Run(s, more);
            AuctionOpen(t, r) && Pending(t, index) && t.requests[index].ride == r
  {
    var op := Patch(r, CORE, Some(Compensating), s.rides[r].clientTs + 1, true);
    var u := Apply(s, op);
    ReachableIsGood(s);
    ReachableAcks(s);
    PatchReopens(s, r, CORE, s.rides[r].clientTs + 1, u);
    more, index := [op], |s.requests|;
    RunOne(s, op);
    ReopenedIsQueued(s, u, r, CORE);
  }

  lemma ReopenedIsQueued(s: State, u: State, r: RideId, x: GroupId)
    requires AcksInRange(s) && ReopenedFor(s, u, r, x)
    ensures AuctionOpen(u, r) && Pending(u, |s.requests|) && u.requests[|s.requests|].ride == r
  {
  }

  lemma WaitingIsQueued(s: State, r: RideId) returns (more: seq<Op>, index: nat)
    requires r in s.rides && !Frozen(s, r) && !Live(s.rides[r].status)
    ensures var t := Run(s, more);
            AuctionOpen(t, r) && Pending(t, index) && t.requests[index].ride == r
  {
    index :| Pending(s, index) && s.requests[index].ride == r;
    more := [];
  }

  /** From every state in which a ride is not frozen a run leads to an open auction with a queued message. */
  lemma Reopen(s: State, r: RideId) returns (more: seq<Op>, index: nat)
    requires Reachable(s) && r in s.rides && !Frozen(s, r)
    ensures var t := Run(s, more);
            AuctionOpen(t, r) && Pending(t, index) && t.requests[index].ride == r
  {
    if s.rides[r].status.Request? {
      more, index := RequestReopens(s, r);
    } else if Underway(s.rides[r].status) {
      more, index := UnderwayReopens(s, r);
    } else {
      more, index := WaitingIsQueued(s, r);
    }
  }

  lemma NewcomerRepeats(s: State, r: RideId, index: nat, g: GroupId, u: State, t: State)
    requires Reachable(s) && GoodState(s) && AuctionOpen(s, r) && Pending(s, index) && s.requests[index].ride == r
    requires Reachable(u) && Reachable(t)
    requires g !in Known(s, r, index) && u == s.(groups := s.groups + [g])
    requires Invited(g, u.groups, s.rides[r].origin, s.requests[index].excluded, s.breakers, LIMITS, s.now)
    requires t == Apply(u, Deliver(index, 0, SoleBid(g), true))
    requires r in t.rides && t.rides[r].status.Match? && t.rides[r].recipient == Some(g)
    ensures var v := Apply(t, Patch(r, CORE, Some(Compensating), t.rides[r].clientTs + 1, true));
            var w := Apply(v, Deliver(|t.requests|, 0, SoleBid(g), true));
            !NoDuplicates(Winners(LogOf(w, r)))
  {
    ReachableIsGood(u);
    WinnerIsReady(s, u, t, r, index, g);
    var v := Apply(t, Patch(r, CORE, Some(Compensating), t.rides[r].clientTs + 1, true));
    RepeatAfterPatch(t, r, CORE, g, t.rides[r].clientTs + 1, v, Apply(v, Deliver(|t.requests|, 0, SoleBid(g), true)));
  }

  /** With an open auction and a queued message, a group that registers now can win the ride twice. */
  lemma NewcomerWinsTwice(s: State, r: RideId, index: nat) returns (more: seq<Op>)
    requires Reachable(s) && AuctionOpen(s, r) && Pending(s, index) && s.requests[index].ride == r
    ensures !NoDuplicates(Winners(LogOf(Run(s, more), r)))
  {
    ReachableIsGood(s);
    var g, u, t := NewcomerWins(s, r, index);
    StepReachable(s, Register(g));
    StepReachable(u, Deliver(index, 0, SoleBid(g), true));
    NewcomerRepeats(s, r, index, g, u, t);
    more := [Register(g), Deliver(index, 0, SoleBid(g), true),
             Patch(r, CORE, Some(Compensating), t.rides[r].clientTs + 1, true),
             Deliver(|t.requests|, 0, SoleBid(g), true)];
    RunFour(s, more[0], more[1], more[2], more[3]);
  }

  /** The newcomer that won is not excluded and is admitted. */
  lemma WinnerIsReady(s: State, u: State, t: State, r: RideId, index: nat, g: GroupId)
    requires GoodState(s) && GoodState(u) && AuctionOpen(s, r) && Pending(s, index) && s.requests[index].ride == r
    requires g !in Known(s, r, index) && u == s.(groups := s.groups + [g])
    requires Invited(g, u.groups, s.rides[r].origin, s.requests[index].excluded, s.breakers, LIMITS, s.now)
    requires t == Apply(u, Deliver(index, 0, SoleBid(g), true))
    ensures g != CORE && Get(t.rides, r).Some? && g !in Parse(t.rides[r].excluded)
    ensures Admits(Lookup(t.breakers, g), LIMITS, t.now)
  {
    var op := Deliver(index, 0, SoleBid(g), true);
    SettledKeepsExclusions(ViewOf(u, r), r, MoveFor(u, op, r));
    StepView(u, op, r);
    assert ViewOf(t, r).ride == Get(t.rides, r);
    BreakersAfterRound(u.groups, u.rides[r].origin, u.requests[index].excluded, u.breakers, LIMITS, u.now,
                       u.now + 0, SoleBid(g), g);
    assert Reply(g, SoleBid(g)).status.Accepted?;
  }

  lemma SettledKeepsExclusions(v: View, r: RideId, m: Move)
    requires m.Settled? && v.ride.Some?
    ensures Play(v, r, m).ride.Some? && Play(v, r, m).ride.value.excluded == v.ride.value.excluded
  {
  }

  /** Main result: the winners of a ride are distinct in every continuation exactly when they are
      distinct now and the ride is frozen.  Without discipline nothing short of being final protects
      the bound. */
  lemma {:induction false} DistinctForeverIffFrozen(s: State, r: RideId)
    requires Reachable(s) && r in s.rides
    ensures NoDuplicates(Winners(LogOf(s, r))) && Frozen(s, r) <==>
            forall more: seq<Op> :: NoDuplicates(Winners(LogOf(Run(s, more), r)))
  {
    ReachableIsGood(s);
    if !Frozen(s, r) {
      var first, index := Reopen(s, r);
      RunReachable(s, first);
      var second := NewcomerWinsTwice(Run(s, first), r, index);
      RunConcat(s, first, second);
      assert !NoDuplicates(Winners(LogOf(Run(s, first + second), r)));
    } else if NoDuplicates(Winners(LogOf(s, r))) {
      forall more: seq<Op>
        ensures NoDuplicates(Winners(LogOf(Run(s, more), r)))
      {
        FrozenRunKeepsWinners(s, more, r);
      }
    } else {
      assert !NoDuplicates(Winners(LogOf(Run(s, []), r)));
    }
  }

  // ---- A run in which one group wins twice --------------------------------------------------------

  const A: GroupId := "a"
  const B: GroupId := "b"

  lemma RegisterTwo() returns (s: State)
    ensures Reachable(s) && s == INITIAL.(groups := [A, B])
  {
    assert ValidGroupId(A) && ValidGroupId(B);
    RunOne(INITIAL, Register(A));
    assert Reach([]) == INITIAL;
    var s1 := Apply(INITIAL, Register(A));
    StepReachable(INITIAL, Register(A));
    assert s1.groups == [A];
    StepReachable(s1, Register(B));
    s := Apply(s1, Register(B));
    assert s.groups == [A, B];
  }

  lemma CreateOne(s: State) returns (t: State)
    requires Reachable(s) && s == INITIAL.(groups := [A, B])
    ensures Reachable(t) && t.groups == [A, B] && t.breakers == map[] && t.acked == {}
    ensures AuctionOpen(t, 0) && t.rides[0].origin == A && t.rides[0].status.Request?
    ensures t.requests == [AuctionRequest(0, 2, 10, [])]
  {
    var op := Create(0, A, 0, 10, true);
    assert DecideCreate(ViewOf(s, 0), 0, s.groups, s.clock, s.now, A, 0, 10, true).move.Born?;
    StepReachable(s, op);
    t := Apply(s, op);
    assert t.requests == [] + [AuctionRequest(0, 2, 10, [])];
  }

  /** The auction of ride 0 closes with B as winner, but the acknowledgement is lost. */
  lemma DeliverUnacked(s: State) returns (t: State)
    requires Reachable(s) && s.groups == [A, B] && s.breakers == map[] && s.acked == {}
    requires AuctionOpen(s, 0) && s.rides[0].origin == A && s.requests == [AuctionRequest(0, 2, 10, [])]
    ensures Reachable(t) && t.groups == [A, B] && Pending(t, 0) && t.requests == s.requests
    ensures 0 in t.rides && t.rides[0].status.Match? && t.rides[0].recipient == Some(B)
    ensures 0 in t.locks && t.locks[0] == Lock(B, t.now + LOCK_TTL_WINNER * SECOND)
    ensures Lookup(t.breakers, B) == NEW_BREAKER
  {
    var op := Deliver(0, 0, SoleBid(B), false);
    ReachableIsGood(s);
    assert Lookup(s.breakers, B) == NEW_BREAKER && Invited(B, s.groups, A, [], s.breakers, LIMITS, s.now);
    SoleBidWins(s.groups, A, [], s.breakers, LIMITS, s.now, s.now + 0, B);
    BreakersAfterRound(s.groups, A, [], s.breakers, LIMITS, s.now, s.now + 0, SoleBid(B), B);
    var m := MoveFor(s, op, 0);
    assert m.Settled? && m.winner == Some(B) && m.closeAt == s.now;
    assert Reply(B, SoleBid(B)).status.Accepted?;
    SettledView(ViewOf(s, 0), 0, m);
    StepView(s, op, 0);
    StepReachable(s, op);
    t := Apply(s, op);
    assert t.requests == s.requests + [];
  }

  /** With two groups registered, a redelivered message makes the only eligible group win the ride
      twice: two matches where a disciplined run has at most one. */
  lemma OneGroupCanWinTwice() returns (s: State)
    ensures Reachable(s) && |s.groups| == 2
    ensures |Winners(LogOf(s, 0))| >= 2 && !NoDuplicates(Winners(LogOf(s, 0)))
  {
    var s1 := RegisterTwo();
    var s2 := CreateOne(s1);
    var s3 := DeliverUnacked(s2);
    StepReachable(s3, Advance(LOCK_TTL_WINNER * SECOND));
    var s4 := Apply(s3, Advance(LOCK_TTL_WINNER * SECOND));
    assert StaleFor(s4, 0, 0, B);
    var s5 := Apply(s4, Expire(0, true));
    s := Apply(s5, Deliver(0, 0, SoleBid(B), true));
    RepeatWinner(s4, 0, 0, B, true, s5, s);
    StepReachable(s4, Expire(0, true));
    StepReachable(s5, Deliver(0, 0, SoleBid(B), true));
    ReachableIsGood(s4);
    LapseLeavesQueue(s4, 0, true);
    DeliveryKeepsGroups(s5, 0, B);
  }

  lemma DeliveryKeepsGroups(s: State, index: nat, group: GroupId)
    ensures Apply(s, Deliver(index, 0, SoleBid(group), true)).groups == s.groups
  {
  }

  // ---- A run in which a cancelled ride is matched ---------------------------------------------------

  /** The origin cancels its ride before the auction is held: the message is still queued. */
  lemma CancelFirst(s: State) returns (t: State)
    requires Reachable(s) && s.groups == [A, B] && s.breakers == map[] && s.acked == {}
    requires AuctionOpen(s, 0) && s.rides[0].origin == A && s.requests == [AuctionRequest(0, 2, 10, [])]
    requires s.rides[0].status.Request?
    ensures Reachable(t) && t.groups == [A, B] && t.breakers == map[] && Pending(t, 0) && t.requests == s.requests
    ensures AuctionOpen(t, 0) && t.rides[0].status.Cancelled? && t.rides[0].origin == A
  {
    var op := Patch(0, A, Some(Cancelled), s.rides[0].clientTs + 1, true);
    ReachableIsGood(s);
    StampedAt(s, 0);
    StaleBound(LogOf(s, 0), s.rides[0].clientTs, A, op.clientTs);
    var m := MoveFor(s, op, 0);
    assert m.Shifted? && m.target.Cancelled? && m.request.None?;
    StepReachable(s, op);
    t := Apply(s, op);
    assert t.requests == s.requests + [];
  }

  /** `cancelled` is not final: after the cancellation above, delivering the queued message matches
      the ride. */
  lemma CancelledIsNotFinal() returns (s: State, op: Op)
    ensures Reachable(s) && 0 in s.rides && s.rides[0].status.Cancelled?
    ensures Get(Apply(s, op).rides, 0).Some? && Apply(s, op).rides[0].status.Match?
  {
    var s1 := RegisterTwo();
    var s2 := CreateOne(s1);
    s := CancelFirst(s2);
    op := Deliver(0, 0, SoleBid(B), true);
    assert Invited(B, s.groups, A, [], s.breakers, LIMITS, s.now);
    ReachableIsGood(s);
    DeliveryPicks(s, 0, 0, B);
  }
}
