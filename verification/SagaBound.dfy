/**
  The bounded saga: with well-behaved groups no group wins the same ride twice.

  The auction trusts the list in its message, the monitor excludes whoever holds the lease
  and a PATCH excludes whoever sends it.  So the bound asks that no message is lost, that the
  newest message is the one delivered, that the lease stays with the winner, and that the winner
  itself asks for compensation.  `SagaLimits` shows that each of these is needed.
*/
module SagaBound {
  import opened Sequences
  import opened Wrappers
  import opened Auctions
  import opened RideModel
  import opened ExclusionList
  import opened Saga
  import opened RideMoves
  import opened AuditTrail
  import opened RideInvariants
  import opened SagaProperties
  import opened Delivery

  // ---- Good behaviour around one ride ----------------------------------------------------

  /** Message `index` is the newest one of its ride. */
  predicate Newest(s: State, index: nat)
    requires index < |s.requests|
  {
    forall j | index < j < |s.requests| :: s.requests[j].ride != s.requests[index].ride
  }

  /** The step loses no message of `r`, delivers only its newest one, and compensates an assigned
      ride in the name of the assigned group. */
  ghost predicate Disciplined(s: State, op: Op, r: RideId) {
    && Published(op, r)
    && (op.Deliver? && MoveFor(s, op, r).Settled? ==> Newest(s, op.index))
    && (op.Patch? && MoveFor(s, op, r).Shifted? && op.target == Some(Compensating) ==>
          r in s.rides && s.rides[r].recipient == Some(op.service))
    && (op.Expire? && MoveFor(s, op, r).Lapsed? && Underway(s.rides[r].status) ==>
          s.rides[r].recipient == Some(s.locks[r].heldBy))
  }

  ghost predicate DisciplinedRun(ops: seq<Op>, r: RideId) {
    ops != [] ==> DisciplinedRun(Front(ops), r) && Disciplined(Reach(Front(ops)), Last(ops), r)
  }

  /** The same, as a property of one move. */
  ghost predicate Tidy(v: View, m: Move) {
    && (Opens(m) ==> NewRequests(m) != [])
    && (m.Shifted? && m.target.Compensating? && v.ride.Some? ==> v.ride.value.recipient == Some(m.service))
    && (m.Lapsed? && v.ride.Some? && v.lock.Some? && Underway(v.ride.value.status) ==>
          v.ride.value.recipient == Some(v.lock.value.heldBy))
    && (m.Settled? ==> v.requests != [] && m.excluded == Last(v.requests).excluded)
  }

  lemma {:induction false} NoLaterShare(requests: seq<AuctionRequest>, r: RideId)
    requires forall q <- requests :: q.ride != r
    ensures RideRequests(requests, r) == []
  {
    if requests != [] {
      assert Last(requests) in requests;
      NoLaterShare(Front(requests), r);
    }
  }

  lemma NewestIsLast(requests: seq<AuctionRequest>, index: nat)
    requires index < |requests|
    requires forall j | index < j < |requests| :: requests[j].ride != requests[index].ride
    ensures var mine := RideRequests(requests, requests[index].ride);
            mine != [] && Last(mine) == requests[index]
  {
    var r := requests[index].ride;
    var head, tail := requests[..index + 1], requests[index + 1..];
    assert requests == head + tail;
    RideRequestsConcat(head, tail, r);
    NoLaterShare(tail, r);
    assert Last(head) == requests[index] && Last(head).ride == r;
  }

  lemma DisciplinedIsTidy(s: State, op: Op, r: RideId)
    requires Disciplined(s, op, r)
    ensures Tidy(ViewOf(s, r), MoveFor(s, op, r))
  {
    var m := MoveFor(s, op, r);
    if Opens(m) {
      OpeningIsPublished(s, op, r);
    }
    if m.Settled? {
      NewestIsLast(s.requests, op.index);
    } else if m.Shifted? {
      ShiftedAsAsked(ViewOf(s, r), r, s.clock, op.service, op.target, op.clientTs, op.published);
    }
  }

  // ---- The invariant ------------------------------------------------------------------------

  /** Past winners are distinct eligible groups, and all but a current recipient are excluded:
      in the column, and, while an auction is open, in the newest message. */
  ghost predicate Fair(v: View, groups: seq<GroupId>) {
    v.ride.Some? ==>
      var ride := v.ride.value;
      var winners := Winners(v.log);
      && NoDuplicates(winners)
      && (forall w <- winners :: w in groups && w != ride.origin)
      && (forall w <- winners ::
            w in Parse(ride.excluded) || (ride.auction != AuctionStatus.Open && ride.recipient == Some(w)))
      && (ride.auction == AuctionStatus.Open ==>
            v.requests != [] && forall w <- winners :: w in Last(v.requests).excluded)
  }

  /** Compensation in the name of `group` keeps the invariant when `group` is the recipient or
      there has been no winner outside the column. */
  lemma ReopeningIsFair(v: View, w: View, group: GroupId, groups: seq<GroupId>)
    requires v.ride.Some? && Fair(v, groups) && forall g <- groups :: PlainId(g)
    requires v.ride.value.auction == AuctionStatus.Open || v.ride.value.recipient == Some(group)
    requires w.ride.Some? && w.ride.value.excluded == Some(Join(Excluding(v.ride.value, group)))
    requires w.ride.value.origin == v.ride.value.origin && Winners(w.log) == Winners(v.log)
    requires w.requests != [] && Last(w.requests).excluded == Excluding(v.ride.value, group)
    ensures Fair(w, groups)
  {
    AppendStored(v.ride.value.excluded, group);
    forall g | g in Winners(v.log)
      ensures g in Parse(w.ride.value.excluded) && g in Last(w.requests).excluded
    {
      assert PlainId(g);
      if g !in Parse(v.ride.value.excluded) {
        assert g == group;
      }
    }
  }

  lemma SettlingIsFair(v: View, r: RideId, m: Move, before: nat, after: nat, groups: seq<GroupId>)
    requires Legal(v, r, m, before, after, groups) && Tidy(v, m) && Fair(v, groups) && m.Settled?
    ensures Fair(Play(v, r, m), groups)
  {
    WinnersGrow(v, r, m);
    if m.winner.Some? {
      var winners := Winners(v.log);
      assert m.winner.value !in winners;
      assert NoDuplicates(winners + [m.winner.value]);
    }
  }

  lemma CompensationIsFair(v: View, r: RideId, m: Move, group: GroupId, before: nat, after: nat, groups: seq<GroupId>)
    requires Legal(v, r, m, before, after, groups) && Tidy(v, m)
    requires (m.Lapsed? && v.lock.Some? && group == v.lock.value.heldBy)
             || (m.Shifted? && m.target.Compensating? && group == m.service)
    requires Joint(v, groups) && Fair(v, groups) && forall g <- groups :: PlainId(g)
    ensures Fair(Play(v, r, m), groups)
  {
    WinnersGrow(v, r, m);
    assert Winners(v.log) + [] == Winners(v.log);
    ReopeningIsFair(v, Play(v, r, m), group, groups);
  }

  lemma OtherMovesAreFair(v: View, r: RideId, m: Move, before: nat, after: nat, groups: seq<GroupId>)
    requires Legal(v, r, m, before, after, groups) && Tidy(v, m) && Rooted(v) && Fair(v, groups)
    requires !m.Settled? && !m.Lapsed? && !(m.Shifted? && m.target.Compensating?)
    ensures Fair(Play(v, r, m), groups)
  {
    WinnersGrow(v, r, m);
    assert Winners(v.log) + [] == Winners(v.log);
    if !m.Born? {
      assert v.requests + [] == v.requests;
    }
  }

  lemma MoveKeepsFair(v: View, r: RideId, m: Move, before: nat, after: nat, groups: seq<GroupId>)
    requires Legal(v, r, m, before, after, groups) && Tidy(v, m)
    requires Rooted(v) && Joint(v, groups) && Fair(v, groups)
    requires forall g <- groups :: PlainId(g)
    ensures Fair(Play(v, r, m), groups)
  {
    if m.Settled? {
      SettlingIsFair(v, r, m, before, after, groups);
    } else if m.Lapsed? {
      CompensationIsFair(v, r, m, v.lock.value.heldBy, before, after, groups);
    } else if m.Shifted? && m.target.Compensating? {
      CompensationIsFair(v, r, m, m.service, before, after, groups);
    } else {
      OtherMovesAreFair(v, r, m, before, after, groups);
    }
  }

  lemma GroupsArePlain(groups: seq<GroupId>)
    requires GroupsValid(groups)
    ensures forall g <- groups :: PlainId(g)
  {
  }

  lemma FairWithMoreGroups(v: View, groups: seq<GroupId>, more: seq<GroupId>)
    requires Fair(v, groups) && groups <= more
    ensures Fair(v, more)
  {
  }

  lemma StepKeepsFair(s: State, op: Op, r: RideId)
    requires GoodState(s) && Disciplined(s, op, r) && Fair(ViewOf(s, r), s.groups)
    ensures Fair(ViewOf(Apply(s, op), r), Apply(s, op).groups)
  {
    RootedAt(s, r);
    JointAt(s, r);
    GroupsArePlain(s.groups);
    DisciplinedIsTidy(s, op, r);
    var after := StepLegal(s, op, r);
    MoveKeepsFair(ViewOf(s, r), r, MoveFor(s, op, r), s.clock, after, s.groups);
    StepView(s, op, r);
    StepGroups(s, op);
    FairWithMoreGroups(ViewOf(Apply(s, op), r), s.groups, Apply(s, op).groups);
  }

  lemma {:induction false} FairHolds(ops: seq<Op>, r: RideId)
    requires DisciplinedRun(ops, r)
    ensures Fair(ViewOf(Reach(ops), r), Reach(ops).groups)
  {
    if ops != [] {
      var s := Reach(Front(ops));
      FairHolds(Front(ops), r);
      ReachIsGood(Front(ops));
      StepKeepsFair(s, Last(ops), r);
    }
  }

  // ---- The newest message -----------------------------------------------------------------------

  /** The newest message reads back to the whole stored list. */
  ghost predicate CarriesAll(v: View) {
    v.ride.Some? ==> v.requests != [] && Flatten(Last(v.requests).excluded) == Parse(v.ride.value.excluded)
  }

  lemma MoveKeepsCarriesAll(v: View, r: RideId, m: Move, before: nat, after: nat, groups: seq<GroupId>)
    requires Legal(v, r, m, before, after, groups) && Rooted(v) && CarriesAll(v)
    requires Opens(m) ==> NewRequests(m) != []
    ensures CarriesAll(Play(v, r, m))
  {
    if m.Lapsed? {
      ParseSomeJoin(Excluding(v.ride.value, v.lock.value.heldBy));
    } else if m.Shifted? && m.target.Compensating? {
      ParseSomeJoin(Excluding(v.ride.value, m.service));
    } else if m.Born? {
      assert Flatten([]) == [];
    } else {
      assert v.requests + [] == v.requests;
    }
  }

  lemma StepKeepsCarriesAll(s: State, op: Op, r: RideId)
    requires GoodState(s) && Published(op, r) && CarriesAll(ViewOf(s, r))
    ensures CarriesAll(ViewOf(Apply(s, op), r))
  {
    RootedAt(s, r);
    if Opens(MoveFor(s, op, r)) {
      OpeningIsPublished(s, op, r);
    }
    var after := StepLegal(s, op, r);
    MoveKeepsCarriesAll(ViewOf(s, r), r, MoveFor(s, op, r), s.clock, after, s.groups);
    StepView(s, op, r);
  }

  /** If no publication for the ride is lost, its newest message carries the whole stored list. */
  lemma {:induction false} NewestCarriesAll(ops: seq<Op>, r: RideId)
    requires forall op <- ops :: Published(op, r)
    ensures var mine := RideRequests(Reach(ops).requests, r);
            r in Reach(ops).rides ==>
              mine != [] && Flatten(Last(mine).excluded) == Parse(Reach(ops).rides[r].excluded)
  {
    if ops != [] {
      var s := Reach(Front(ops));
      NewestCarriesAll(Front(ops), r);
      ReachIsGood(Front(ops));
      assert Last(ops) in ops;
      StepKeepsCarriesAll(s, Last(ops), r);
      assert ViewOf(Reach(ops), r).ride == Get(Reach(ops).rides, r);
    }
  }

  // ---- Counting -------------------------------------------------------------------------------

  /** Distinct elements of `ys`, without `x` from `ys`, are fewer than `ys`. */
  lemma {:induction false} FewerThan<T>(xs: seq<T>, ys: seq<T>, x: T)
    requires NoDuplicates(xs) && x in ys && x !in xs
    requires forall e <- xs :: e in ys
    ensures |xs| <= |ys| - 1
  {
    var i :| 0 <= i < |ys| && ys[i] == x;
    var rest := ys[..i] + ys[i + 1..];
    if xs != [] {
      var front, last := Front(xs), Last(xs);
      assert xs == front + [last];
      forall e | e in xs
        ensures e in rest
      {
        var k :| 0 <= k < |ys| && ys[k] == e;
        assert rest[if k < i then k else k - 1] == e;
      }
      assert last in xs && last !in front;
      FewerThan(front, rest, last);
    }
  }

  /** Main result: in a disciplined run the winners of a ride are pairwise distinct registered
      groups other than the origin, so with n groups there are at most n - 1 matches and at most
      4n - 1 status events. */
  lemma {:induction false} SagaIsBounded(ops: seq<Op>, s: State, r: RideId, winners: seq<GroupId>)
    requires DisciplinedRun(ops, r) && s == Reach(ops) && r in s.rides && winners == Winners(LogOf(s, r))
    ensures NoDuplicates(winners)
    ensures forall w <- winners :: w in s.groups && w != s.rides[r].origin
    ensures |winners| <= |s.groups| - 1
    ensures |StatusEvents(LogOf(s, r))| <= 4 * |s.groups| - 1
  {
    FairHolds(ops, r);
    ReachIsGood(ops);
    JointAt(s, r);
    StatusEventsBounded(s, r);
    FewerThan(winners, s.groups, s.rides[r].origin);
  }
}
