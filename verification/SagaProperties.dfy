/** Main results about the history of every ride, in every reachable state of the core. */
module SagaProperties {
  import opened Sequences
  import opened Wrappers
  import opened Auctions
  import opened RideModel
  import opened ExclusionList
  import opened Saga
  import opened RideMoves
  import opened AuditTrail
  import opened RideInvariants

  function LogOf(s: State, r: RideId): seq<Event> {
    RideLog(s.audit, r)
  }

  // ---- Replay -----------------------------------------------------------------------

  /** Folding a ride's audit events gives back its stored status and core timestamp; a ride
      without a row has no events. */
  lemma ReplayReproducesRide(s: State, r: RideId)
    requires Reachable(s)
    ensures r in s.rides ==> ReplayStanding(LogOf(s, r)) == Some(Standing(s.rides[r].status, s.rides[r].coreTs))
    ensures r !in s.rides ==> LogOf(s, r) == []
  {
    ReachableIsGood(s);
    ReplaysAt(s, r);
    RootedAt(s, r);
  }

  /** Every log is a path through the state machine: whatever the events before it fold to admits
      the next event.  In particular an auction closes only on a ride in `request`, `compensating` or
      `cancelled`. */
  lemma LogFollowsStateMachine(s: State, r: RideId, i: nat)
    requires Reachable(s) && i < |LogOf(s, r)|
    ensures Admitted(ReplayStanding(LogOf(s, r)[..i]), LogOf(s, r)[i])
  {
    ReachableIsGood(s);
    ReplaysAt(s, r);
    CoherentAt(LogOf(s, r), i);
  }

  /** Every recorded transition is one of the table, or the core's compensation of a live ride. */
  lemma TransitionsAreLawful(s: State, r: RideId)
    requires Reachable(s)
    ensures forall e <- LogOf(s, r) :: Lawful(e)
  {
    forall i | 0 <= i < |LogOf(s, r)|
      ensures Lawful(LogOf(s, r)[i])
    {
      LogFollowsStateMachine(s, r, i);
    }
  }

  /** Every recorded `fromState` is what the events before it fold to, and the ride is created
      by its first event only. */
  lemma FromStatesAreReplayed(s: State, r: RideId, i: nat)
    requires Reachable(s) && i < |LogOf(s, r)|
    ensures LogOf(s, r)[i].kind.StateTransition? ==>
              && ReplayStanding(LogOf(s, r)[..i]).Some?
              && ReplayStanding(LogOf(s, r)[..i]).value.status == LogOf(s, r)[i].kind.fromState
    ensures LogOf(s, r)[i].kind.RideCreated? <==> i == 0
  {
    ReachableIsGood(s);
    ReplaysAt(s, r);
    CoherentAt(LogOf(s, r), i);
    StandingExists(LogOf(s, r)[..i]);
  }

  // ---- Conservation -------------------------------------------------------------------

  /** Auctions closed, plus one while an auction is open, is one more than the times the
      ride was compensated out of match, confirm or in_transit; however often messages
      are duplicated or redelivered. */
  lemma AuctionConservation(s: State, r: RideId)
    requires Reachable(s) && r in s.rides
    ensures Closings(LogOf(s, r)) + (if AuctionOpen(s, r) then 1 else 0) == 1 + Reopenings(LogOf(s, r))
  {
    ReachableIsGood(s);
    ConservedAt(s, r);
  }

  // ---- Joint invariant ------------------------------------------------------------------

  lemma StatusFitsAuction(s: State, r: RideId)
    requires Reachable(s) && r in s.rides
    ensures var ride := s.rides[r];
            && (ride.status in {Request, Compensating} ==> ride.auction == AuctionStatus.Open)
            && (ride.status in {Match, Confirm, InTransit, Complete} ==>
                  && ride.auction == AuctionStatus.Closed
                  && ride.recipient.Some? && ride.recipient.value in s.groups
                  && ride.recipient.value != ride.origin)
            && (ride.auction == NoProposals ==> ride.status == Cancelled)
            && (ride.closedAt.None? <==> ride.auction == AuctionStatus.Open)
  {
    ReachableIsGood(s);
    JointAt(s, r);
  }

  // ---- Leases and the log ------------------------------------------------------------------

  function HolderOf(lock: Option<Lock>): Option<GroupId> {
    if lock.Some? then Some(lock.value.heldBy) else None
  }

  /** A lease row belongs to a ride and is always held by the holder of record. */
  lemma LeaseAgreesWithLog(s: State, r: RideId)
    requires Reachable(s) && r in s.locks
    ensures r in s.rides
    ensures ReplayHolder(LogOf(s, r)) == Some(s.locks[r].heldBy)
  {
    ReachableIsGood(s);
    LeasedAt(s, r);
    RootedAt(s, r);
  }

  /** Lease row and log also agree on there being no holder. */
  ghost predicate SameHolder(s: State, r: RideId) {
    ReplayHolder(LogOf(s, r)) == HolderOf(Get(s.locks, r))
  }

  /** The move writes or deletes a lease row. */
  predicate MovesLease(m: Move) {
    match m
    case Idle => false
    case Shifted(_, target, _, _, _) => Terminal(target)
    case _ => true
  }

  lemma HolderAfterMove(v: View, r: RideId, m: Move, before: nat, after: nat, groups: seq<GroupId>)
    requires Legal(v, r, m, before, after, groups) && Rooted(v)
    requires v.lock.Some? ==> ReplayHolder(v.log) == Some(v.lock.value.heldBy)
    ensures ReplayHolder(Play(v, r, m).log) == HolderOf(Play(v, r, m).lock) <==>
            if MovesLease(m) then !m.Dropped? else ReplayHolder(v.log) == HolderOf(v.lock)
  {
    var es := NewEvents(v, r, m);
    LogOfPlay(v, r, m);
    if |es| >= 1 {
      HolderAppend(v.log, es[0]);
    }
    if |es| == 2 {
      HolderAppend(v.log + [es[0]], es[1]);
    }
  }

  /** After any step row and log agree on the holder exactly if the step moved the lease otherwise than
      by the monitor's silent deletion, or left it alone and they agreed before. */
  lemma OnlyDropDiverges(s: State, op: Op, r: RideId)
    requires GoodState(s)
    ensures SameHolder(Apply(s, op), r) <==>
            if MovesLease(MoveFor(s, op, r)) then !MoveFor(s, op, r).Dropped? else SameHolder(s, r)
  {
    RootedAt(s, r);
    LeasedAt(s, r);
    var after := StepLegal(s, op, r);
    HolderAfterMove(ViewOf(s, r), r, MoveFor(s, op, r), s.clock, after, s.groups);
    StepView(s, op, r);
    SameHolderView(s, r);
    SameHolderView(Apply(s, op), r);
  }

  /** The last step of the run that moved the lease of `r` was a silent deletion by the monitor. */
  ghost predicate LastDropped(ops: seq<Op>, r: RideId) {
    ops != [] &&
    var m := MoveFor(Reach(Front(ops)), Last(ops), r);
    if MovesLease(m) then m.Dropped? else LastDropped(Front(ops), r)
  }

  /** Lease row and log agree on the holder, or on there being none, exactly unless the last step that
      moved the lease was the monitor's silent deletion. */
  lemma {:induction false} HoldersAgreeUnlessDropped(ops: seq<Op>, r: RideId)
    ensures SameHolder(Reach(ops), r) <==> !LastDropped(ops, r)
  {
    if ops != [] {
      HoldersAgreeUnlessDropped(Front(ops), r);
      ReachIsGood(Front(ops));
      OnlyDropDiverges(Reach(Front(ops)), Last(ops), r);
    }
  }

  lemma SameHolderView(s: State, r: RideId)
    ensures SameHolder(s, r) <==> ReplayHolder(ViewOf(s, r).log) == HolderOf(ViewOf(s, r).lock)
  {
  }

  // ---- Completion ----------------------------------------------------------------------------

  lemma {:induction false} SentByHolderAt(log: seq<Event>, i: nat)
    requires SentByHolder(log) && i < |log|
    ensures log[i].kind.StateTransition? && NeedsLock(log[i].kind.toState) ==>
              ReplayHolder(log[..i]) == Some(log[i].service)
  {
    if i < |log| - 1 {
      SentByHolderAt(Front(log), i);
      assert Front(log)[..i] == log[..i];
    }
  }

  /** An auction won by `recipient`, then confirm, in_transit and complete. */
  ghost predicate CompletedWith(events: seq<Event>, recipient: Option<GroupId>) {
    var n := |events|;
    && n >= 4 && recipient.Some?
    && events[n - 4].kind.AuctionClosed? && events[n - 4].kind.winner == recipient
    && Hop(events[n - 3], Match, Confirm)
    && Hop(events[n - 2], Confirm, InTransit)
    && Hop(events[n - 1], InTransit, Complete)
  }

  lemma ProgressToComplete(events: seq<Event>, recipient: Option<GroupId>)
    requires Progress(events, Complete, recipient)
    ensures CompletedWith(events, recipient)
  {
  }

  /** The last four status events of a complete ride are a won auction, confirm, in_transit and
      complete, in this order and with no other status event in between. */
  lemma CompletionHistory(s: State, r: RideId)
    requires Reachable(s) && r in s.rides && s.rides[r].status.Complete?
    ensures CompletedWith(StatusEvents(LogOf(s, r)), s.rides[r].recipient)
  {
    ReachableIsGood(s);
    ProgressedAt(s, r);
    ProgressToComplete(StatusEvents(LogOf(s, r)), s.rides[r].recipient);
  }

  /** Wherever it stands in a log, a move to confirm, in_transit or complete was sent by the
      group that held the lease of record at that point. */
  lemma GuardedMovesCameFromHolder(s: State, r: RideId, i: nat)
    requires Reachable(s) && i < |LogOf(s, r)|
    requires LogOf(s, r)[i].kind.StateTransition? && LogOf(s, r)[i].kind.toState in {Confirm, InTransit, Complete}
    ensures ReplayHolder(LogOf(s, r)[..i]) == Some(LogOf(s, r)[i].service)
  {
    ReachableIsGood(s);
    LeasedAt(s, r);
    SentByHolderAt(LogOf(s, r), i);
  }

  /** The ride's log holds an accepted PATCH with this service and client timestamp. */
  ghost predicate Seen(s: State, r: RideId, service: GroupId, clientTs: nat) {
    exists e <- LogOf(s, r) :: e.kind.StateTransition? && e.service == service && e.kind.clientTs == Some(clientTs)
  }

  /** How a PATCH ends, in every reachable state. */
  lemma PatchOutcome(s: State, r: RideId, service: GroupId, target: Option<Status>, clientTs: nat, published: bool)
    requires Reachable(s)
    ensures DecidePatch(ViewOf(s, r), r, s.clock, service, target, clientTs, published).outcome ==
            if r !in s.rides then NotFound
            else if Seen(s, r, service, clientTs) then AlreadyApplied
            else if target.None? || !Permitted(s.rides[r].status, target.value) then Unprocessable
            else if clientTs <= s.rides[r].clientTs then Unprocessable
            else if target.value in {Confirm, InTransit, Complete} && (r !in s.locks || s.locks[r].heldBy != service)
            then Conflict
            else Done
  {
    ReachableIsGood(s);
    StampedAt(s, r);
    RootedAt(s, r);
    PatchOutcomeOfView(ViewOf(s, r), r, s.clock, service, target, clientTs, published);
  }

  lemma PatchOutcomeOfView(v: View, r: RideId, clock: nat, service: GroupId, target: Option<Status>, clientTs: nat,
                           published: bool)
    requires Stamped(v) && Rooted(v)
    ensures DecidePatch(v, r, clock, service, target, clientTs, published).outcome ==
            if v.ride.None? then NotFound
            else if exists e <- v.log ::
                      e.kind.StateTransition? && e.service == service && e.kind.clientTs == Some(clientTs)
            then AlreadyApplied
            else if target.None? || !Permitted(v.ride.value.status, target.value) then Unprocessable
            else if clientTs <= v.ride.value.clientTs then Unprocessable
            else if target.value in {Confirm, InTransit, Complete} && (v.lock.None? || v.lock.value.heldBy != service)
            then Conflict
            else Done
  {
    AtMostOneRow(v.log, service, clientTs);
    assert forall e <- v.log :: IsPatchBy(e, service, clientTs) <==>
        e.kind.StateTransition? && e.service == service && e.kind.clientTs == Some(clientTs);
    if v.ride.Some? && target.Some? {
      PermittedIsTable(v.ride.value.status, target.value);
    }
  }

  /** A PATCH with a newer timestamp is accepted exactly when the move is permitted and, for confirm,
      in_transit and complete, the lease row names the sender. */
  lemma AcceptedIff(s: State, r: RideId, service: GroupId, target: Status, clientTs: nat, published: bool)
    requires Reachable(s) && r in s.rides && clientTs > s.rides[r].clientTs
    ensures DecidePatch(ViewOf(s, r), r, s.clock, service, Some(target), clientTs, published).outcome == Done <==>
            && Permitted(s.rides[r].status, target)
            && (target in {Confirm, InTransit, Complete} ==> r in s.locks && s.locks[r].heldBy == service)
  {
    ReachableIsGood(s);
    StampedAt(s, r);
    StaleBound(LogOf(s, r), s.rides[r].clientTs, service, clientTs);
    PermittedIsTable(s.rides[r].status, target);
  }

  /** A permitted move to confirm, in_transit or complete with a newer timestamp is accepted exactly when
      the sender is named by the lease row; whether the lease has expired plays no part. */
  lemma ForwardIffHolder(s: State, r: RideId, service: GroupId, target: Status, clientTs: nat, published: bool)
    requires Reachable(s) && r in s.rides && clientTs > s.rides[r].clientTs
    requires target in {Confirm, InTransit, Complete} && Permitted(s.rides[r].status, target)
    ensures DecidePatch(ViewOf(s, r), r, s.clock, service, Some(target), clientTs, published).outcome == Done <==>
            r in s.locks && s.locks[r].heldBy == service
  {
    AcceptedIff(s, r, service, target, clientTs, published);
  }

  /** Every other PATCH with a newer timestamp is accepted exactly when the move is permitted, whoever
      sends it: compensating and cancelling are open to every group. */
  lemma UnguardedIffInTable(s: State, r: RideId, service: GroupId, target: Status, clientTs: nat, published: bool)
    requires Reachable(s) && r in s.rides && clientTs > s.rides[r].clientTs
    requires target !in {Confirm, InTransit, Complete}
    ensures DecidePatch(ViewOf(s, r), r, s.clock, service, Some(target), clientTs, published).outcome == Done <==>
            Permitted(s.rides[r].status, target)
  {
    AcceptedIff(s, r, service, target, clientTs, published);
  }

  // ---- PATCH exactly once -----------------------------------------------------------------------

  lemma StepExtendsLog(s: State, op: Op, r: RideId)
    requires NoDuplicates(s.groups)
    ensures LogOf(s, r) <= LogOf(Apply(s, op), r)
    ensures r in s.rides ==> r in Apply(s, op).rides
  {
    StepView(s, op, r);
    var after := StepLegal(s, op, r);
    assert Get(Apply(s, op).rides, r) == MovedRide(ViewOf(s, r), MoveFor(s, op, r));
  }

  lemma {:induction false} RunExtendsLog(s: State, ops: seq<Op>, r: RideId)
    requires GroupsValid(s.groups)
    ensures LogOf(s, r) <= LogOf(Run(s, ops), r)
    ensures r in s.rides ==> r in Run(s, ops).rides
  {
    if ops != [] {
      RunExtendsLog(s, Front(ops), r);
      RunGroups(s, Front(ops));
      StepExtendsLog(Run(s, Front(ops)), Last(ops), r);
    }
  }

  /** Client timestamps of accepted PATCHes strictly increase along a ride's log, so the idempotence
      query never finds two rows. */
  lemma ClientStampsIncrease(s: State, r: RideId, service: GroupId, clientTs: nat)
    requires Reachable(s)
    ensures StampsIncrease(LogOf(s, r))
    ensures Resubmissions(LogOf(s, r), service, clientTs) <= 1
  {
    ReachableIsGood(s);
    StampedAt(s, r);
    AtMostOneRow(LogOf(s, r), service, clientTs);
  }

  /** The idempotence query cannot fail on several rows. */
  lemma NeverManyRows(s: State, r: RideId, service: GroupId, target: Option<Status>, clientTs: nat, published: bool)
    requires Reachable(s)
    ensures DecidePatch(ViewOf(s, r), r, s.clock, service, target, clientTs, published).outcome != MultipleRows
  {
    ClientStampsIncrease(s, r, service, clientTs);
  }

  lemma ShiftedAsAsked(v: View, r: RideId, clock: nat, service: GroupId, target: Option<Status>,
                       clientTs: nat, published: bool)
    ensures var m := DecidePatch(v, r, clock, service, target, clientTs, published).move;
            m.Shifted? ==> m.service == service && m.clientTs == clientTs && Some(m.target) == target
  {
  }

  lemma ShiftLogged(v: View, r: RideId, m: Move)
    requires m.Shifted? && v.ride.Some?
    ensures Play(v, r, m).ride.Some?
    ensures exists e <- Play(v, r, m).log :: IsPatchBy(e, m.service, m.clientTs)
  {
    assert IsPatchBy(Play(v, r, m).log[|v.log|], m.service, m.clientTs);
  }

  lemma AcceptedIsLogged(s: State, op: Op)
    requires NoDuplicates(s.groups) && op.Patch? && MoveFor(s, op, op.ride).Shifted?
    ensures exists e <- LogOf(Apply(s, op), op.ride) :: IsPatchBy(e, op.service, op.clientTs)
    ensures op.ride in Apply(s, op).rides
  {
    var r := op.ride;
    var v, m := ViewOf(s, r), MoveFor(s, op, r);
    var after := StepLegal(s, op, r);
    ShiftedAsAsked(v, r, s.clock, op.service, op.target, op.clientTs, op.published);
    ShiftLogged(v, r, m);
    StepView(s, op, r);
  }

  lemma LoggedIsIgnored(s: State, op: Op)
    requires op.Patch? && op.ride in s.rides && StampsIncrease(LogOf(s, op.ride))
    requires exists e <- LogOf(s, op.ride) :: IsPatchBy(e, op.service, op.clientTs)
    ensures Apply(s, op) == s
    ensures DecidePatch(ViewOf(s, op.ride), op.ride, s.clock, op.service, op.target, op.clientTs,
                        op.published).outcome == AlreadyApplied
  {
    AtMostOneRow(LogOf(s, op.ride), op.service, op.clientTs);
    CommitIdle(s, op.ride);
  }

  /** Sending an accepted PATCH again, at any later time and even with another target state,
      changes nothing at all: no row, no event, no message and not the clock. */
  lemma ResubmissionChangesNothing(s: State, first: Op, more: seq<Op>, again: Op)
    requires Reachable(s) && first.Patch? && again.Patch?
    requires again.ride == first.ride && again.service == first.service && again.clientTs == first.clientTs
    requires MoveFor(s, first, first.ride).Shifted?
    ensures var t := Run(Apply(s, first), more);
            && Apply(t, again) == t
            && DecidePatch(ViewOf(t, again.ride), again.ride, t.clock, again.service, again.target,
                           again.clientTs, again.published).outcome == AlreadyApplied
  {
    var u := Apply(s, first);
    var t := Run(u, more);
    ReachableIsGood(s);
    AcceptedIsLogged(s, first);
    StepKeepsGood(s, first);
    RunKeepsGood(u, more);
    RunExtendsLog(u, more, first.ride);
    var e :| e in LogOf(u, first.ride) && IsPatchBy(e, first.service, first.clientTs);
    assert e in LogOf(t, first.ride);
    StampedAt(t, first.ride);
    LoggedIsIgnored(t, again);
  }

  // ---- Exclusions ---------------------------------------------------------------------------------

  /** Every message ever published carries a prefix of the stored exclusion list, up to the
      way identifiers with commas read back; with plain identifiers, a prefix as it stands. */
  lemma MessagesCarryPrefix(s: State, index: nat)
    requires Reachable(s) && index < |s.requests|
    ensures var q := s.requests[index];
            && q.ride in s.rides
            && Flatten(q.excluded) <= Parse(s.rides[q.ride].excluded)
            && (AllPlain(q.excluded) ==> q.excluded <= Parse(s.rides[q.ride].excluded))
  {
    var q := s.requests[index];
    ReachableIsGood(s);
    RootedAt(s, q.ride);
    ExcludesAt(s, q.ride);
    RequestInView(s.requests, index);
    if AllPlain(q.excluded) {
      FlattenPlain(q.excluded);
    }
  }

  /** The stored list only grows, at its end. */
  lemma {:induction false} StoredExclusionsGrow(s: State, ops: seq<Op>, r: RideId)
    requires GoodState(s) && r in s.rides
    ensures r in Run(s, ops).rides
    ensures Parse(s.rides[r].excluded) <= Parse(Run(s, ops).rides[r].excluded)
  {
    if ops != [] {
      StoredExclusionsGrow(s, Front(ops), r);
      RunKeepsGood(s, Front(ops));
      StepGrowsExclusions(Run(s, Front(ops)), Last(ops), r);
    }
  }

  lemma StepGrowsExclusions(s: State, op: Op, r: RideId)
    requires GoodState(s) && r in s.rides
    ensures r in Apply(s, op).rides
    ensures Parse(s.rides[r].excluded) <= Parse(Apply(s, op).rides[r].excluded)
  {
    RootedAt(s, r);
    ExcludesAt(s, r);
    var after := StepLegal(s, op, r);
    KeepsExcludes(ViewOf(s, r), r, MoveFor(s, op, r), s.clock, after, s.groups);
    StepView(s, op, r);
    assert ViewOf(Apply(s, op), r).ride == Get(Apply(s, op).rides, r);
  }

  lemma ShiftExcludes(v: View, r: RideId, m: Move)
    requires m.Shifted? && m.target.Compensating? && v.ride.Some?
    ensures var w := Play(v, r, m);
            && w.ride.Some?
            && Parse(w.ride.value.excluded) == Parse(v.ride.value.excluded) + ParseText(m.service)
            && (PlainId(m.service) ==> Parse(w.ride.value.excluded) == Parse(v.ride.value.excluded) + [m.service])
  {
    AppendStored(v.ride.value.excluded, m.service);
  }

  /** A PATCH into `compensating` excludes whoever sent it, which need not be the assigned group. */
  lemma CompensationExcludesSender(s: State, op: Op, r: RideId, t: State, m: Move)
    requires NoDuplicates(s.groups) && t == Apply(s, op)
    requires m == MoveFor(s, op, r) && m.Shifted? && m.target.Compensating?
    ensures op.Patch? && op.service == m.service
    ensures Get(s.rides, r).Some? && Get(t.rides, r).Some?
    ensures Parse(t.rides[r].excluded) == Parse(s.rides[r].excluded) + ParseText(m.service)
    ensures PlainId(m.service) ==> Parse(t.rides[r].excluded) == Parse(s.rides[r].excluded) + [m.service]
  {
    var after := StepLegal(s, op, r);
    ShiftedAsAsked(ViewOf(s, r), r, s.clock, op.service, op.target, op.clientTs, op.published);
    ShiftExcludes(ViewOf(s, r), r, m);
    StepView(s, op, r);
    assert ViewOf(t, r).ride == Get(t.rides, r) && ViewOf(s, r).ride == Get(s.rides, r);
  }

  lemma SettledView(v: View, r: RideId, m: Move)
    requires m.Settled? && m.winner.Some? && v.ride.Some?
    ensures var w := Play(v, r, m);
            && w.ride.Some? && w.ride.value.recipient == m.winner && w.ride.value.status.Match?
            && w.lock == Some(Lock(m.winner.value, m.closeAt + LOCK_TTL_WINNER * SECOND))
  {
  }

  lemma WinnerByMove(s: State, op: Op, r: RideId, t: State, m: Move)
    requires NoDuplicates(s.groups) && t == Apply(s, op)
    requires m == MoveFor(s, op, r) && m.Settled? && m.winner.Some?
    ensures r in s.rides && Get(t.rides, r).Some?
    ensures var w := m.winner.value;
            && w in s.groups && w != s.rides[r].origin && w !in m.excluded
            && t.rides[r].recipient == Some(w) && t.rides[r].status.Match?
            && Get(t.locks, r) == Some(Lock(w, m.closeAt + LOCK_TTL_WINNER * SECOND))
  {
    var after := StepLegal(s, op, r);
    StepView(s, op, r);
    EligibleByMove(s, t, r, m, after);
  }

  /** A delivered auction never picks the origin or a group in its message's list, and hands the
      ride and a lease of sixty seconds from its closing to the winner. */
  lemma WinnerIsEligible(s: State, op: Op, r: RideId, t: State, m: Move)
    requires NoDuplicates(s.groups) && t == Apply(s, op)
    requires m == MoveFor(s, op, r) && m.Settled? && m.winner.Some?
    ensures op.Deliver? && Pending(s, op.index) && s.requests[op.index].ride == r && AuctionOpen(s, r)
    ensures Get(t.rides, r).Some?
    ensures var w := m.winner.value;
            && w in s.groups && w != s.rides[r].origin && w !in s.requests[op.index].excluded
            && t.rides[r].recipient == Some(w) && t.rides[r].status.Match?
            && Get(t.locks, r) == Some(Lock(w, s.now + op.elapsed + LOCK_TTL_WINNER * SECOND))
  {
    SettledIsDelivered(s, op, r);
    WinnerByMove(s, op, r, t, m);
  }

  lemma EligibleByMove(s: State, t: State, r: RideId, m: Move, after: nat)
    requires Legal(ViewOf(s, r), r, m, s.clock, after, s.groups) && m.Settled? && m.winner.Some?
    requires ViewOf(t, r) == Play(ViewOf(s, r), r, m)
    ensures r in s.rides
    ensures var w := m.winner.value;
            && w in s.groups && w != s.rides[r].origin && w !in m.excluded
            && Get(t.rides, r).Some? && t.rides[r].recipient == Some(w) && t.rides[r].status.Match?
            && Get(t.locks, r) == Some(Lock(w, m.closeAt + LOCK_TTL_WINNER * SECOND))
  {
    SettledView(ViewOf(s, r), r, m);
    assert ViewOf(t, r).ride == Get(t.rides, r) && ViewOf(t, r).lock == Get(t.locks, r);
  }

  // ---- Bound ------------------------------------------------------------------------------------------

  /** Without any assumption on the groups' behaviour: at most four status events per won
      auction, and three more. */
  lemma StatusEventsBounded(s: State, r: RideId)
    requires Reachable(s)
    ensures |StatusEvents(LogOf(s, r))| <= 4 * |Winners(LogOf(s, r))| + 3
  {
    ReachableIsGood(s);
    RootedAt(s, r);
    BoundedAt(s, r);
  }
}
