/** The auction queue: no open auction is stranded, and when a ride is final. */
module Delivery {
  import opened Sequences
  import opened Wrappers
  import opened CircuitBreakers
  import opened Auctions
  import opened RideModel
  import opened ExclusionList
  import opened Saga
  import opened RideMoves
  import opened AuditTrail
  import opened RideInvariants
  import opened SagaProperties

  // ---- What a step does to the queue ----------------------------------------------

  ghost predicate AcksInRange(s: State) {
    forall i <- s.acked :: i < |s.requests|
  }

  /** A step only appends messages and only adds acknowledgements. */
  ghost predicate QueueGrows(s: State, op: Op, t: State) {
    && s.requests <= t.requests
    && s.acked <= t.acked
    && t.acked <= s.acked + (if op.Deliver? && op.acked && Pending(s, op.index) then {op.index} else {})
  }

  lemma StepQueue(s: State, op: Op)
    ensures QueueGrows(s, op, Apply(s, op))
  {
  }

  lemma {:induction false} RequestIsSomewhere(requests: seq<AuctionRequest>, r: RideId, q: AuctionRequest)
    returns (i: nat)
    requires q in RideRequests(requests, r)
    ensures i < |requests| && requests[i] == q && q.ride == r
  {
    var last := requests[|requests| - 1];
    if last.ride == r && q == last {
      i := |requests| - 1;
    } else {
      i := RequestIsSomewhere(Front(requests), r, q);
    }
  }

  /** Some message of ride `r` is still in the queue. */
  ghost predicate Queued(s: State, r: RideId) {
    exists i: nat :: Pending(s, i) && s.requests[i].ride == r
  }

  /** The messages of `r` that a step adds are those its move of `r` publishes. */
  lemma AddedRequests(s: State, op: Op, r: RideId)
    requires NoDuplicates(s.groups)
    ensures s.requests <= Apply(s, op).requests
    ensures RideRequests(Apply(s, op).requests[|s.requests|..], r) == NewRequests(MoveFor(s, op, r))
  {
    StepQueue(s, op);
    StepView(s, op, r);
    AddedShare(s.requests, Apply(s, op).requests, r, NewRequests(MoveFor(s, op, r)));
  }

  lemma AddedShare(older: seq<AuctionRequest>, newer: seq<AuctionRequest>, r: RideId, added: seq<AuctionRequest>)
    requires older <= newer
    requires RideRequests(newer, r) == RideRequests(older, r) + added
    ensures RideRequests(newer[|older|..], r) == added
  {
    assert newer == older + newer[|older|..];
    RideRequestsConcat(older, newer[|older|..], r);
    var n := |RideRequests(older, r)|;
    assert RideRequests(newer, r)[n..] == added;
    assert RideRequests(newer, r)[n..] == RideRequests(newer[|older|..], r);
  }

  lemma RequestsAdded(s: State, op: Op, r: RideId, i: nat)
    requires NoDuplicates(s.groups)
    requires |s.requests| <= i < |Apply(s, op).requests| && Apply(s, op).requests[i].ride == r
    ensures NewRequests(MoveFor(s, op, r)) != []
  {
    AddedRequests(s, op, r);
    ShareNotEmpty(s.requests, Apply(s, op).requests, r, i);
  }

  lemma ShareNotEmpty(older: seq<AuctionRequest>, newer: seq<AuctionRequest>, r: RideId, i: nat)
    requires older <= newer && |older| <= i < |newer| && newer[i].ride == r
    ensures RideRequests(newer[|older|..], r) != []
  {
    RequestInView(newer[|older|..], i - |older|);
  }

  lemma RequestPublished(s: State, op: Op, r: RideId) returns (i: nat)
    requires NoDuplicates(s.groups)
    requires NewRequests(MoveFor(s, op, r)) != []
    ensures |s.requests| <= i < |Apply(s, op).requests| && Apply(s, op).requests[i].ride == r
  {
    AddedRequests(s, op, r);
    i := FirstOfShare(s.requests, Apply(s, op).requests, r);
  }

  lemma FirstOfShare(older: seq<AuctionRequest>, newer: seq<AuctionRequest>, r: RideId) returns (i: nat)
    requires older <= newer && RideRequests(newer[|older|..], r) != []
    ensures |older| <= i < |newer| && newer[i].ride == r
  {
    var added := newer[|older|..];
    var k := RequestIsSomewhere(added, r, RideRequests(added, r)[0]);
    i := |older| + k;
  }

  // ---- No stranded ride ---------------------------------------------------------------

  /** If the step publishes an auction request for `r`, the broker takes it. */
  predicate Published(op: Op, r: RideId) {
    match op
    case Create(x, _, _, _, published) => x == r ==> published
    case Patch(x, _, _, _, published) => x == r ==> published
    case Expire(x, published) => x == r ==> published
    case _ => true
  }

  predicate Opens(m: Move) {
    m.Born? || (m.Shifted? && m.target.Compensating?) || m.Lapsed?
  }

  lemma OpeningIsPublished(s: State, op: Op, r: RideId)
    requires Published(op, r) && Opens(MoveFor(s, op, r))
    ensures NewRequests(MoveFor(s, op, r)) != []
  {
  }

  lemma StillOpen(v: View, r: RideId, m: Move)
    requires !Opens(m)
    requires Play(v, r, m).ride.Some? && Play(v, r, m).ride.value.auction == AuctionStatus.Open
    ensures v.ride.Some? && v.ride.value.auction == AuctionStatus.Open && !m.Settled?
  {
  }

  /** A message taken away by its delivery leaves the auction closed. */
  lemma DeliveryCloses(s: State, op: Op, r: RideId, i: nat)
    requires AuctionOpen(s, r) && Pending(s, i) && s.requests[i].ride == r && !MoveFor(s, op, r).Settled?
    ensures op.Deliver? && op.acked ==> op.index != i
  {
  }

  lemma StaysQueued(s: State, op: Op, r: RideId)
    requires AuctionOpen(s, r) && Queued(s, r) && !MoveFor(s, op, r).Settled?
    ensures Queued(Apply(s, op), r)
  {
    StepQueue(s, op);
    var i: nat :| Pending(s, i) && s.requests[i].ride == r;
    DeliveryCloses(s, op, r, i);
    assert Pending(Apply(s, op), i);
  }

  lemma OpeningQueues(s: State, op: Op, r: RideId)
    requires NoDuplicates(s.groups) && AcksInRange(s) && Published(op, r) && Opens(MoveFor(s, op, r))
    ensures Queued(Apply(s, op), r)
  {
    StepQueue(s, op);
    OpeningIsPublished(s, op, r);
    var i := RequestPublished(s, op, r);
    assert Pending(Apply(s, op), i);
  }

  lemma StepServes(s: State, op: Op, r: RideId)
    requires NoDuplicates(s.groups) && AcksInRange(s) && Published(op, r)
    requires AuctionOpen(s, r) ==> Queued(s, r)
    requires AuctionOpen(Apply(s, op), r)
    ensures Queued(Apply(s, op), r)
  {
    if Opens(MoveFor(s, op, r)) {
      OpeningQueues(s, op, r);
    } else {
      StepView(s, op, r);
      StillOpen(ViewOf(s, r), r, MoveFor(s, op, r));
      StaysQueued(s, op, r);
    }
  }

  lemma StepAcksInRange(s: State, op: Op)
    requires AcksInRange(s)
    ensures AcksInRange(Apply(s, op))
  {
    StepQueue(s, op);
  }

  lemma {:induction false} ReachAcks(ops: seq<Op>)
    ensures AcksInRange(Reach(ops))
  {
    if ops != [] {
      ReachAcks(Front(ops));
      StepAcksInRange(Reach(Front(ops)), Last(ops));
    }
  }

  lemma ReachableAcks(s: State)
    requires Reachable(s)
    ensures AcksInRange(s)
  {
    var ops: seq<Op> :| Reach(ops) == s;
    ReachAcks(ops);
  }

  /** If no publication for the ride is lost, then whenever its auction is open a message for it
      is still in the queue, whatever is redelivered. */
  lemma {:induction false} NoStrandedRide(ops: seq<Op>, r: RideId)
    requires forall op <- ops :: Published(op, r)
    ensures AuctionOpen(Reach(ops), r) ==> Queued(Reach(ops), r)
  {
    if ops != [] {
      var s := Reach(Front(ops));
      NoStrandedRide(Front(ops), r);
      ReachIsGood(Front(ops));
      ReachAcks(Front(ops));
      assert Last(ops) in ops;
      if AuctionOpen(Reach(ops), r) {
        StepServes(s, Last(ops), r);
      }
    }
  }

  // ---- Finality ---------------------------------------------------------------------------

  /** Nothing can change the ride's row any more. */
  ghost predicate Frozen(s: State, r: RideId) {
    && r in s.rides
    && (|| s.rides[r].status.Complete?
        || (s.rides[r].status in {Cancelled, Compensating} && (!AuctionOpen(s, r) || !Queued(s, r))))
  }

  lemma FrozenViewMoves(v: View, r: RideId, m: Move, before: nat, after: nat, groups: seq<GroupId>)
    requires Legal(v, r, m, before, after, groups) && Joint(v, groups)
    requires v.ride.Some? && (Terminal(v.ride.value.status) || v.ride.value.status.Compensating?)
    ensures m.Idle? || m.Granted? || m.Freed? || m.Dropped? || m.Settled?
    ensures m.Settled? ==> !v.ride.value.status.Complete?
    ensures !m.Settled? ==> NewRequests(m) == [] && Play(v, r, m).ride == v.ride
  {
  }

  lemma SettlingNeedsMessage(s: State, op: Op, r: RideId)
    ensures MoveFor(s, op, r).Settled? ==> AuctionOpen(s, r) && Queued(s, r)
  {
    if MoveFor(s, op, r).Settled? {
      SettledIsDelivered(s, op, r);
      assert Pending(s, op.index) && s.requests[op.index].ride == r;
    }
  }

  lemma FrozenNeverSettles(s: State, op: Op, r: RideId)
    requires GoodState(s) && Frozen(s, r)
    ensures !MoveFor(s, op, r).Settled?
  {
    JointAt(s, r);
    SettlingNeedsMessage(s, op, r);
  }

  /** The moves left to a frozen ride concern its lease only. */
  lemma FrozenMoves(s: State, op: Op, r: RideId)
    requires GoodState(s) && Frozen(s, r)
    ensures NewRequests(MoveFor(s, op, r)) == []
    ensures Play(ViewOf(s, r), r, MoveFor(s, op, r)).ride == Some(s.rides[r])
  {
    JointAt(s, r);
    var after := StepLegal(s, op, r);
    FrozenViewMoves(ViewOf(s, r), r, MoveFor(s, op, r), s.clock, after, s.groups);
    FrozenNeverSettles(s, op, r);
  }

  lemma StepKeepsFrozen(s: State, op: Op, r: RideId)
    requires GoodState(s) && Frozen(s, r)
    ensures Frozen(Apply(s, op), r) && Apply(s, op).rides[r] == s.rides[r]
  {
    FrozenMoves(s, op, r);
    StepView(s, op, r);
    assert Get(Apply(s, op).rides, r) == Get(s.rides, r);
    if !Queued(s, r) {
      StaysUnqueued(s, op, r);
    }
  }

  lemma {:induction false} RunKeepsFrozen(s: State, ops: seq<Op>, r: RideId)
    requires GoodState(s) && Frozen(s, r)
    ensures Frozen(Run(s, ops), r) && Run(s, ops).rides[r] == s.rides[r]
  {
    if ops != [] {
      RunKeepsFrozen(s, Front(ops), r);
      RunKeepsGood(s, Front(ops));
      StepKeepsFrozen(Run(s, Front(ops)), Last(ops), r);
    }
  }

  /** A live ride can be cancelled, by anybody. */
  lemma ThawByPatch(s: State, r: RideId, service: GroupId, t: State)
    requires GoodState(s) && r in s.rides && Live(s.rides[r].status)
    requires t == Apply(s, Patch(r, service, Some(Cancelled), s.rides[r].clientTs + 1, true))
    ensures Get(t.rides, r).Some? && t.rides[r].status.Cancelled?
  {
    var op := Patch(r, service, Some(Cancelled), s.rides[r].clientTs + 1, true);
    var v := ViewOf(s, r);
    StampedAt(s, r);
    StaleBound(v.log, s.rides[r].clientTs, service, op.clientTs);
    AcceptedDecision(v, r, s.clock, service, Cancelled, op.clientTs, true);
    StepView(s, op, r);
    assert ViewOf(t, r).ride == Get(t.rides, r);
  }

  // ---- Matching a ride that waits ------------------------------------------------------------

  lemma {:induction false} LongerThanAll(ids: set<string>) returns (n: nat)
    ensures forall id <- ids :: |id| < n
  {
    if ids == {} {
      n := 0;
    } else {
      var id :| id in ids;
      var m := LongerThanAll(ids - {id});
      n := if m > |id| then m else |id| + 1;
      forall other | other in ids
        ensures |other| < n
      {
        assert other == id || other in ids - {id};
      }
    }
  }

  /** There is always another id to register. */
  lemma FreshId(ids: set<string>) returns (id: GroupId)
    ensures ValidGroupId(id) && id !in ids
  {
    var n := LongerThanAll(ids);
    id := seq(n + 1, i => 'a');
  }

  lemma RegisterEffect(s: State, g: GroupId)
    requires ValidGroupId(g) && g !in s.groups
    ensures Apply(s, Register(g)) == s.(groups := s.groups + [g])
  {
  }

  /** The ids that are in use around ride `r` and message `index`. */
  function Known(s: State, r: RideId, index: nat): set<string>
    requires r in s.rides && index < |s.requests|
  {
    (set g | g in s.groups) + (set g | g in s.requests[index].excluded) +
    (set g | g in Parse(s.rides[r].excluded)) + s.breakers.Keys + {CORE}
  }

  lemma NewcomerIsInvited(s: State, r: RideId, index: nat, g: GroupId)
    requires Joint(ViewOf(s, r), s.groups) && r in s.rides && index < |s.requests|
    requires g !in Known(s, r, index)
    ensures Invited(g, s.groups + [g], s.rides[r].origin, s.requests[index].excluded, s.breakers, LIMITS, s.now)
  {
    assert s.rides[r].origin in s.groups;
    assert Lookup(s.breakers, g) == NEW_BREAKER;
    assert (s.groups + [g])[|s.groups|] == g;
  }

  /** A ride whose auction is open and has a message in the queue can always be matched: a group that
      registers now and bids alone wins it. */
  lemma NewcomerWins(s: State, r: RideId, index: nat) returns (g: GroupId, u: State, t: State)
    requires GoodState(s) && AuctionOpen(s, r) && Pending(s, index) && s.requests[index].ride == r
    ensures ValidGroupId(g) && g !in Known(s, r, index)
    ensures u == Apply(s, Register(g)) && u == s.(groups := s.groups + [g])
    ensures Invited(g, u.groups, s.rides[r].origin, s.requests[index].excluded, s.breakers, LIMITS, s.now)
    ensures t == Apply(u, Deliver(index, 0, SoleBid(g), true))
    ensures Get(t.rides, r).Some? && t.rides[r].status.Match? && t.rides[r].recipient == Some(g)
  {
    g := FreshId(Known(s, r, index));
    assert g !in s.groups;
    JointAt(s, r);
    RegisterEffect(s, g);
    NewcomerIsInvited(s, r, index, g);
    u := Apply(s, Register(g));
    StepGroups(s, Register(g));
    DeliveryPicks(u, index, r, g);
    t := Apply(u, Deliver(index, 0, SoleBid(g), true));
  }

  /** A ride cancelled by PATCH while still in `request` keeps its open auction: as long as one of its
      messages is queued, it can be matched. */
  lemma CancelledCanComeBack(s: State, r: RideId, index: nat) returns (more: seq<Op>)
    requires Reachable(s)
    requires AuctionOpen(s, r) && s.rides[r].status.Cancelled? && Pending(s, index) && s.requests[index].ride == r
    ensures var t := Run(s, more);
            Get(t.rides, r).Some? && t.rides[r].status.Match?
  {
    ReachableIsGood(s);
    var g, u, t := NewcomerWins(s, r, index);
    more := [Register(g), Deliver(index, 0, SoleBid(g), true)];
    RunTwo(s, more[0], more[1]);
  }

  // ---- When a ride is final ----------------------------------------------------------------

  /** Some run changes the status of a ride that is not frozen. */
  lemma Thaw(s: State, r: RideId) returns (more: seq<Op>)
    requires GoodState(s) && r in s.rides && !Frozen(s, r)
    ensures var t := Run(s, more);
            Get(t.rides, r).Some? && t.rides[r].status != s.rides[r].status
  {
    if Live(s.rides[r].status) {
      var op := Patch(r, CORE, Some(Cancelled), s.rides[r].clientTs + 1, true);
      ThawByPatch(s, r, CORE, Apply(s, op));
      RunOne(s, op);
      more := [op];
    } else {
      var i: nat :| Pending(s, i) && s.requests[i].ride == r;
      var g, u, t := NewcomerWins(s, r, i);
      more := [Register(g), Deliver(i, 0, SoleBid(g), true)];
      RunTwo(s, more[0], more[1]);
    }
  }

  /** The row of a ride is the same in every continuation exactly when the ride is complete,
      or is cancelled or compensating without both an open auction and a queued message. */
  lemma {:induction false} FinalIffFrozen(s: State, r: RideId)
    requires Reachable(s) && r in s.rides
    ensures Frozen(s, r) <==> forall more: seq<Op> :: Get(Run(s, more).rides, r) == Get(s.rides, r)
  {
    ReachableIsGood(s);
    if Frozen(s, r) {
      forall more: seq<Op>
        ensures Get(Run(s, more).rides, r) == Get(s.rides, r)
      {
        RunKeepsFrozen(s, more, r);
      }
    } else {
      var more := Thaw(s, r);
      assert Get(Run(s, more).rides, r) != Get(s.rides, r);
    }
  }

  /** The status alone is final under exactly the same condition. */
  lemma {:induction false} StatusFinalIffFrozen(s: State, r: RideId)
    requires Reachable(s) && r in s.rides
    ensures Frozen(s, r) <==>
            forall more: seq<Op> :: StatusOf(Run(s, more), r) == Some(s.rides[r].status)
  {
    ReachableIsGood(s);
    if Frozen(s, r) {
      forall more: seq<Op>
        ensures StatusOf(Run(s, more), r) == Some(s.rides[r].status)
      {
        RunKeepsFrozen(s, more, r);
      }
    } else {
      var more := Thaw(s, r);
      assert StatusOf(Run(s, more), r) != Some(s.rides[r].status);
    }
  }

  function StatusOf(s: State, r: RideId): Option<Status> {
    if r in s.rides then Some(s.rides[r].status) else None
  }

  /** Delivering a message to an open auction in which only `group` bids. */
  lemma DeliveryPicks(s: State, index: nat, r: RideId, group: GroupId)
    requires NoDuplicates(s.groups)
    requires AuctionOpen(s, r) && Pending(s, index) && s.requests[index].ride == r
    requires Invited(group, s.groups, s.rides[r].origin, s.requests[index].excluded, s.breakers, LIMITS, s.now)
    ensures var op := Deliver(index, 0, SoleBid(group), true);
            && MoveFor(s, op, r).Settled? && MoveFor(s, op, r).winner == Some(group)
            && Get(Apply(s, op).rides, r).Some?
            && Apply(s, op).rides[r].status.Match? && Apply(s, op).rides[r].recipient == Some(group)
  {
    var op := Deliver(index, 0, SoleBid(group), true);
    SoleBidWins(s.groups, s.rides[r].origin, s.requests[index].excluded, s.breakers, LIMITS, s.now, s.now + 0, group);
    var m := MoveFor(s, op, r);
    assert m.Settled? && m.winner == Some(group);
    SettledView(ViewOf(s, r), r, m);
    StepView(s, op, r);
  }

  lemma ReopensCompensating(v: View, r: RideId, m: Move)
    requires Opens(m) && !m.Born? && v.ride.Some? && (m.Lapsed? ==> v.lock.Some?)
    ensures Play(v, r, m).ride.Some? && Play(v, r, m).ride.value.status.Compensating?
  {
  }

  /** Losing the one message of a compensation strands the ride in `compensating` for good. */
  lemma LostMessageFreezes(s: State, op: Op, r: RideId)
    requires Reachable(s) && Opens(MoveFor(s, op, r)) && !MoveFor(s, op, r).Born?
    requires NewRequests(MoveFor(s, op, r)) == [] && !Queued(s, r)
    ensures Get(Apply(s, op).rides, r).Some? && Apply(s, op).rides[r].status.Compensating?
    ensures Frozen(Apply(s, op), r)
  {
    ReachableIsGood(s);
    var after := StepLegal(s, op, r);
    ReopensCompensating(ViewOf(s, r), r, MoveFor(s, op, r));
    StepView(s, op, r);
    StaysUnqueued(s, op, r);
    CompensatingFreezes(Apply(s, op), r);
  }

  lemma CompensatingFreezes(s: State, r: RideId)
    requires ViewOf(s, r).ride.Some? && ViewOf(s, r).ride.value.status.Compensating? && !Queued(s, r)
    ensures r in s.rides && Frozen(s, r)
  {
  }

  lemma StaysUnqueued(s: State, op: Op, r: RideId)
    requires NoDuplicates(s.groups)
    requires NewRequests(MoveFor(s, op, r)) == [] && !Queued(s, r)
    ensures !Queued(Apply(s, op), r)
  {
    var t := Apply(s, op);
    StepQueue(s, op);
    forall i: nat | Pending(t, i)
      ensures t.requests[i].ride != r
    {
      if i >= |s.requests| && t.requests[i].ride == r {
        RequestsAdded(s, op, r, i);
      } else if i < |s.requests| {
        assert Pending(s, i);
      }
    }
  }
}
