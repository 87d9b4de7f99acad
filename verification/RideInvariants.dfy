/**
  What every reachable ride satisfies.

  Each invariant is a predicate of one ride's `View` with a lemma that every legal move
  keeps it; `Good` puts them together and `ReachIsGood` carries them through all runs.
*/
module RideInvariants {
  import opened Sequences
  import opened Wrappers
  import opened Auctions
  import opened RideModel
  import opened ExclusionList
  import opened Saga
  import opened RideMoves
  import opened AuditTrail

  /** Without a row there is no lease, no event and no message. */
  ghost predicate Rooted(v: View) {
    v.ride.None? ==> v.lock.None? && v.log == [] && v.requests == []
  }

  /** The log replays to the stored status and core timestamp. */
  ghost predicate Replays(v: View) {
    && Coherent(v.log)
    && (v.ride.Some? ==>
          ReplayStanding(v.log) == Some(Standing(v.ride.value.status, v.ride.value.coreTs)))
  }

  /** Status, auction status, recipient and closing time fit together. */
  ghost predicate Joint(v: View, groups: seq<GroupId>) {
    v.ride.Some? ==>
      var ride := v.ride.value;
      && ride.origin in groups
      && (ride.status.Request? || ride.status.Compensating? ==> ride.auction == AuctionStatus.Open)
      && (Underway(ride.status) || ride.status.Complete? ==>
            && ride.auction == AuctionStatus.Closed
            && ride.recipient.Some? && ride.recipient.value in groups && ride.recipient.value != ride.origin)
      && (ride.auction == NoProposals ==> ride.status.Cancelled?)
      && (ride.closedAt.None? <==> ride.auction == AuctionStatus.Open)
  }

  /** Every auction that was opened is closed once or still open. */
  ghost predicate Conserved(v: View) {
    v.ride.Some? ==>
      Closings(v.log) + (if v.ride.value.auction == AuctionStatus.Open then 1 else 0) == 1 + Reopenings(v.log)
  }

  /** A lease row agrees with the log, and lease-guarded moves came from the holder of record. */
  ghost predicate Leased(v: View) {
    && (v.lock.Some? ==> ReplayHolder(v.log) == Some(v.lock.value.heldBy))
    && SentByHolder(v.log)
  }

  ghost predicate Progressed(v: View) {
    v.ride.Some? ==> Progress(StatusEvents(v.log), v.ride.value.status, v.ride.value.recipient)
  }

  ghost predicate Stamped(v: View) {
    StampsIncrease(v.log) && (v.ride.Some? ==> StampsUpTo(v.log, v.ride.value.clientTs))
  }

  /** The exclusion lists as they read back: a chain of prefixes below `stored`. */
  ghost predicate Chain(requests: seq<AuctionRequest>, stored: seq<GroupId>) {
    && (forall i | 0 <= i < |requests| :: Flatten(requests[i].excluded) <= stored)
    && (forall i, j | 0 <= i < j < |requests| ::
          Flatten(requests[i].excluded) <= Flatten(requests[j].excluded))
  }

  /** Messages carry prefixes of the stored exclusion list, in the order of publication. */
  ghost predicate Excludes(v: View) {
    v.ride.Some? ==> Chain(v.requests, Parse(v.ride.value.excluded))
  }

  /** How many status events a ride can have, given how often it was won. */
  function Allowance(ride: Ride): int {
    match ride.status
    case Request => 1
    case Compensating => 2
    case Match => -1
    case Confirm => 0
    case InTransit => 1
    case Complete => 2
    case Cancelled => if ride.auction == AuctionStatus.Open then 2 else 3
  }

  ghost predicate Bounded(v: View) {
    v.ride.Some? ==>
      |StatusEvents(v.log)| <= 4 * |Winners(v.log)| + Allowance(v.ride.value)
  }

  /** Timestamps increase along the log and stay within the clock. */
  ghost predicate Clocked(log: seq<Event>, clock: nat) {
    (forall e <- log :: e.ts <= clock) && forall i, j | 0 <= i < j < |log| :: log[i].ts < log[j].ts
  }

  /** Logical time: the ride's timestamps, its log and its messages. */
  ghost predicate Timed(v: View, clock: nat) {
    && (v.ride.Some? ==> v.ride.value.clientTs < v.ride.value.coreTs <= clock)
    && Clocked(v.log, clock)
    && (forall q <- v.requests :: q.ts <= clock)
    && (forall i, j | 0 <= i < j < |v.requests| :: v.requests[i].ts < v.requests[j].ts)
  }

  // ---- The events of a move --------------------------------------------------------

  /** The new log, one event at a time. */
  lemma LogOfPlay(v: View, r: RideId, m: Move)
    ensures var es := NewEvents(v, r, m);
            && |es| <= 2
            && Play(v, r, m).log == if |es| == 0 then v.log else if |es| == 1 then v.log + [es[0]]
                                    else v.log + [es[0]] + [es[1]]
  {
    var es := NewEvents(v, r, m);
    if |es| == 1 {
      assert es == [es[0]];
    } else if |es| == 2 {
      assert es == [es[0], es[1]];
    }
  }

  /** The status event a move writes: at most one. */
  function NewStatusEvents(v: View, r: RideId, m: Move): seq<Event> {
    match m
    case Born(_, _, _, _, _, _) => NewEvents(v, r, m)
    case Shifted(_, _, _, _, _) => NewEvents(v, r, m)
    case Settled(winner, accepted, _, ts, _) => [Event(r, AuctionClosed(winner, accepted), CORE, ts)]
    case Lapsed(_, ts, _) =>
      if v.ride.None? || v.lock.None? then []
      else [Event(r, StateTransition(v.ride.value.status, Compensating, None), CORE, ts)]
    case _ => []
  }

  lemma OneEvent(e: Event)
    ensures StatusEvents([e]) == if IsStatusEvent(e) then [e] else []
    ensures Winners([e]) == WinnerOf(e)
    ensures Closings([e]) == if e.kind.AuctionClosed? then 1 else 0
    ensures Reopenings([e]) == if IsReopening(e) then 1 else 0
  {
    assert Front([e]) == [];
  }

  lemma TwoEvents(a: Event, b: Event)
    ensures StatusEvents([a, b]) == StatusEvents([a]) + StatusEvents([b])
    ensures Winners([a, b]) == Winners([a]) + Winners([b])
    ensures Closings([a, b]) == Closings([a]) + Closings([b])
    ensures Reopenings([a, b]) == Reopenings([a]) + Reopenings([b])
  {
    assert [a, b] == [a] + [b];
    StatusEventsConcat([a], [b]);
    WinnersConcat([a], [b]);
    CountsConcat([a], [b]);
  }

  /** The summaries of the events of one move. */
  lemma NewSummaries(v: View, r: RideId, m: Move)
    ensures var es := NewEvents(v, r, m);
            && StatusEvents(es) == NewStatusEvents(v, r, m)
            && Winners(es) == (if m.Settled? && m.winner.Some? then [m.winner.value] else [])
            && Closings(es) == (if m.Settled? then 1 else 0)
            && Reopenings(es) == (if Reopening(v, m) then 1 else 0)
  {
    if m.Settled? {
      SettledSummaries(v, r, m);
    } else if m.Lapsed? && v.ride.Some? && v.lock.Some? {
      LapsedSummaries(v, r, m);
    } else {
      SingleSummaries(v, r, m);
    }
  }

  lemma SingleSummaries(v: View, r: RideId, m: Move)
    requires !m.Settled? && (m.Lapsed? ==> v.ride.None? || v.lock.None?)
    ensures var es := NewEvents(v, r, m);
            && StatusEvents(es) == NewStatusEvents(v, r, m)
            && Winners(es) == [] && Closings(es) == 0
            && Reopenings(es) == (if Reopening(v, m) then 1 else 0)
  {
    AtMostOneEvent(NewEvents(v, r, m));
  }

  lemma AtMostOneEvent(es: seq<Event>)
    requires |es| <= 1
    ensures StatusEvents(es) == if es != [] && IsStatusEvent(es[0]) then es else []
    ensures Winners(es) == if es != [] then WinnerOf(es[0]) else []
    ensures Closings(es) == if es != [] && es[0].kind.AuctionClosed? then 1 else 0
    ensures Reopenings(es) == if es != [] && IsReopening(es[0]) then 1 else 0
  {
    if es != [] {
      assert es == [es[0]];
      OneEvent(es[0]);
    }
  }

  lemma LapsedSummaries(v: View, r: RideId, m: Move)
    requires m.Lapsed? && v.ride.Some? && v.lock.Some?
    ensures var es := NewEvents(v, r, m);
            && StatusEvents(es) == NewStatusEvents(v, r, m)
            && Winners(es) == [] && Closings(es) == 0
            && Reopenings(es) == (if Reopening(v, m) then 1 else 0)
  {
    PairSummaries(NewEvents(v, r, m));
  }

  lemma SettledSummaries(v: View, r: RideId, m: Move)
    requires m.Settled?
    ensures var es := NewEvents(v, r, m);
            && StatusEvents(es) == NewStatusEvents(v, r, m)
            && Winners(es) == (if m.winner.Some? then [m.winner.value] else [])
            && Closings(es) == 1 && Reopenings(es) == 0
  {
    var closing := Event(r, AuctionClosed(m.winner, m.accepted), CORE, m.ts);
    if m.winner.Some? {
      PairSummaries([closing, Event(r, LockAcquired(LOCK_TTL_WINNER), m.winner.value, m.ts + 1)]);
    } else {
      assert NewEvents(v, r, m) == [closing];
      OneEvent(closing);
    }
  }

  lemma PairSummaries(es: seq<Event>)
    requires |es| == 2
    ensures StatusEvents(es) == (if IsStatusEvent(es[0]) then [es[0]] else []) +
                                (if IsStatusEvent(es[1]) then [es[1]] else [])
    ensures Winners(es) == WinnerOf(es[0]) + WinnerOf(es[1])
    ensures Closings(es) == (if es[0].kind.AuctionClosed? then 1 else 0) + (if es[1].kind.AuctionClosed? then 1 else 0)
    ensures Reopenings(es) == (if IsReopening(es[0]) then 1 else 0) + (if IsReopening(es[1]) then 1 else 0)
  {
    assert es == [es[0], es[1]];
    OneEvent(es[0]);
    OneEvent(es[1]);
    TwoEvents(es[0], es[1]);
  }

  /** The move compensates a ride out of match, confirm or in_transit. */
  predicate Reopening(v: View, m: Move) {
    && v.ride.Some? && Underway(v.ride.value.status)
    && ((m.Shifted? && m.target.Compensating?) || (m.Lapsed? && v.lock.Some?))
  }

  lemma StatusEventsGrow(v: View, r: RideId, m: Move)
    ensures StatusEvents(Play(v, r, m).log) == StatusEvents(v.log) + NewStatusEvents(v, r, m)
  {
    StatusEventsConcat(v.log, NewEvents(v, r, m));
    NewSummaries(v, r, m);
  }

  lemma WinnersGrow(v: View, r: RideId, m: Move)
    ensures Winners(Play(v, r, m).log) ==
            Winners(v.log) + if m.Settled? && m.winner.Some? then [m.winner.value] else []
  {
    WinnersConcat(v.log, NewEvents(v, r, m));
    NewSummaries(v, r, m);
  }

  lemma CountsGrow(v: View, r: RideId, m: Move)
    ensures Closings(Play(v, r, m).log) == Closings(v.log) + if m.Settled? then 1 else 0
    ensures Reopenings(Play(v, r, m).log) ==
            Reopenings(v.log) + if Reopening(v, m) then 1 else 0
  {
    CountsConcat(v.log, NewEvents(v, r, m));
    NewSummaries(v, r, m);
  }

  // ---- Moves keep the invariants -----------------------------------------------------

  lemma KeepsRooted(v: View, r: RideId, m: Move, before: nat, after: nat, groups: seq<GroupId>)
    requires Legal(v, r, m, before, after, groups) && Rooted(v)
    ensures Rooted(Play(v, r, m))
  {
  }

  /** The events of a move lead from the old standing to the standing of the moved row. */
  lemma StandingOfPlay(v: View, r: RideId, m: Move)
    ensures var es := NewStatusEvents(v, r, m);
            && |es| <= 1
            && ReplayStanding(Play(v, r, m).log) ==
                 if es == [] || !IsStatusEvent(es[0]) then ReplayStanding(v.log) else Some(StandingAfter(es[0]))
  {
    var es := NewEvents(v, r, m);
    LogOfPlay(v, r, m);
    if |es| >= 1 {
      StandingAppend(v.log, es[0]);
    }
    if |es| == 2 {
      StandingAppend(v.log + [es[0]], es[1]);
    }
  }

  lemma KeepsStanding(v: View, r: RideId, m: Move, before: nat, after: nat, groups: seq<GroupId>)
    requires Legal(v, r, m, before, after, groups) && Rooted(v) && Replays(v)
    ensures var w := Play(v, r, m);
            w.ride.Some? ==> ReplayStanding(w.log) == Some(Standing(w.ride.value.status, w.ride.value.coreTs))
  {
    StandingOfPlay(v, r, m);
  }

  lemma FirstIsAdmitted(v: View, r: RideId, m: Move, before: nat, after: nat, groups: seq<GroupId>)
    requires Legal(v, r, m, before, after, groups) && Rooted(v) && Replays(v) && Joint(v, groups)
    requires NewEvents(v, r, m) != []
    ensures Admitted(ReplayStanding(v.log), NewEvents(v, r, m)[0])
  {
  }

  lemma SecondIsAdmitted(v: View, r: RideId, m: Move, before: nat, after: nat, groups: seq<GroupId>)
    requires Legal(v, r, m, before, after, groups) && Replays(v) && |NewEvents(v, r, m)| == 2
    ensures Admitted(ReplayStanding(v.log + [NewEvents(v, r, m)[0]]), NewEvents(v, r, m)[1])
  {
    StandingAppend(v.log, NewEvents(v, r, m)[0]);
  }

  lemma KeepsCoherent(v: View, r: RideId, m: Move, before: nat, after: nat, groups: seq<GroupId>)
    requires Legal(v, r, m, before, after, groups) && Rooted(v) && Replays(v) && Joint(v, groups)
    ensures Coherent(Play(v, r, m).log)
  {
    var es := NewEvents(v, r, m);
    LogOfPlay(v, r, m);
    if |es| >= 1 {
      FirstIsAdmitted(v, r, m, before, after, groups);
      CoherentAppend(v.log, es[0]);
    }
    if |es| == 2 {
      SecondIsAdmitted(v, r, m, before, after, groups);
      CoherentAppend(v.log + [es[0]], es[1]);
    }
  }

  lemma KeepsReplays(v: View, r: RideId, m: Move, before: nat, after: nat, groups: seq<GroupId>)
    requires Legal(v, r, m, before, after, groups) && Rooted(v) && Replays(v) && Joint(v, groups)
    ensures Replays(Play(v, r, m))
  {
    KeepsStanding(v, r, m, before, after, groups);
    KeepsCoherent(v, r, m, before, after, groups);
  }

  lemma KeepsJoint(v: View, r: RideId, m: Move, before: nat, after: nat, groups: seq<GroupId>)
    requires Legal(v, r, m, before, after, groups) && Joint(v, groups)
    ensures Joint(Play(v, r, m), groups)
  {
  }

  lemma KeepsConserved(v: View, r: RideId, m: Move, before: nat, after: nat, groups: seq<GroupId>)
    requires Legal(v, r, m, before, after, groups) && Rooted(v) && Joint(v, groups) && Conserved(v)
    ensures Conserved(Play(v, r, m))
  {
    CountsGrow(v, r, m);
  }

  lemma KeepsHolder(v: View, r: RideId, m: Move, before: nat, after: nat, groups: seq<GroupId>)
    requires Legal(v, r, m, before, after, groups) && Rooted(v)
    requires v.lock.Some? ==> ReplayHolder(v.log) == Some(v.lock.value.heldBy)
    ensures var w := Play(v, r, m);
            w.lock.Some? ==> ReplayHolder(w.log) == Some(w.lock.value.heldBy)
  {
    var es := NewEvents(v, r, m);
    LogOfPlay(v, r, m);
    if |es| >= 1 {
      HolderAppend(v.log, es[0]);
    }
    if |es| == 2 {
      HolderAppend(v.log + [es[0]], es[1]);
    }
  }

  lemma KeepsSentByHolder(v: View, r: RideId, m: Move, before: nat, after: nat, groups: seq<GroupId>)
    requires Legal(v, r, m, before, after, groups) && Leased(v)
    ensures SentByHolder(Play(v, r, m).log)
  {
    var es := NewEvents(v, r, m);
    LogOfPlay(v, r, m);
    if m.Shifted? {
      SentAppend(v.log, es[0]);
    } else {
      if |es| >= 1 {
        SentUnguarded(v.log, es[0]);
      }
      if |es| == 2 {
        SentUnguarded(v.log + [es[0]], es[1]);
      }
    }
  }

  lemma KeepsLeased(v: View, r: RideId, m: Move, before: nat, after: nat, groups: seq<GroupId>)
    requires Legal(v, r, m, before, after, groups) && Rooted(v) && Leased(v)
    ensures Leased(Play(v, r, m))
  {
    KeepsHolder(v, r, m, before, after, groups);
    KeepsSentByHolder(v, r, m, before, after, groups);
  }

  lemma ShiftProgresses(events: seq<Event>, e: Event, from: Status, to: Status, recipient: Option<GroupId>)
    requires Progress(events, from, recipient)
    requires to in ValidTargets(from) && Hop(e, from, to)
    ensures Progress(events + [e], to, recipient)
  {
    FrontOfAppend(events, e);
  }

  lemma ShiftKeepsProgressed(v: View, r: RideId, m: Move)
    requires m.Shifted? && v.ride.Some? && m.target in ValidTargets(v.ride.value.status) && Progressed(v)
    ensures Progressed(Play(v, r, m))
  {
    var ride := v.ride.value;
    var e := Event(r, StateTransition(ride.status, m.target, Some(m.clientTs)), m.service, m.ts);
    StatusEventsGrow(v, r, m);
    assert NewStatusEvents(v, r, m) == [e];
    ShiftProgresses(StatusEvents(v.log), e, ride.status, m.target, ride.recipient);
  }

  lemma ClosingProgresses(events: seq<Event>, e: Event, recipient: Option<GroupId>)
    requires e.kind.AuctionClosed? && (e.kind.winner.Some? ==> recipient == e.kind.winner)
    ensures Progress(events + [e], if e.kind.winner.Some? then Match else Cancelled, recipient)
  {
    FrontOfAppend(events, e);
  }

  lemma SettlingKeepsProgressed(v: View, r: RideId, m: Move)
    requires m.Settled? && v.ride.Some?
    ensures Progressed(Play(v, r, m))
  {
    var e := Event(r, AuctionClosed(m.winner, m.accepted), CORE, m.ts);
    StatusEventsGrow(v, r, m);
    assert NewStatusEvents(v, r, m) == [e];
    ClosingProgresses(StatusEvents(v.log), e, MovedRide(v, m).value.recipient);
  }

  lemma OtherMovesKeepProgressed(v: View, r: RideId, m: Move)
    requires !m.Shifted? && !m.Settled? && Progressed(v)
    ensures Progressed(Play(v, r, m))
  {
    var w := Play(v, r, m);
    if w.ride.Some? && !w.ride.value.status.Request? && !w.ride.value.status.Compensating? {
      StatusEventsGrow(v, r, m);
      assert w.ride == v.ride && NewStatusEvents(v, r, m) == [];
      assert StatusEvents(v.log) + [] == StatusEvents(v.log);
    }
  }

  lemma KeepsProgressed(v: View, r: RideId, m: Move, before: nat, after: nat, groups: seq<GroupId>)
    requires Legal(v, r, m, before, after, groups) && Progressed(v)
    ensures Progressed(Play(v, r, m))
  {
    if m.Shifted? {
      ShiftKeepsProgressed(v, r, m);
    } else if m.Settled? {
      SettlingKeepsProgressed(v, r, m);
    } else {
      OtherMovesKeepProgressed(v, r, m);
    }
  }

  lemma KeepsStamped(v: View, r: RideId, m: Move, before: nat, after: nat, groups: seq<GroupId>)
    requires Legal(v, r, m, before, after, groups) && Rooted(v) && Stamped(v)
    ensures Stamped(Play(v, r, m))
  {
  }

  lemma PrefixTransitive<T>(a: seq<T>, b: seq<T>, c: seq<T>)
    requires a <= b <= c
    ensures a <= c
  {
  }

  lemma ChainGrows(requests: seq<AuctionRequest>, stored: seq<GroupId>, grown: seq<GroupId>)
    requires Chain(requests, stored) && stored <= grown
    ensures Chain(requests, grown)
  {
    forall i | 0 <= i < |requests|
      ensures Flatten(requests[i].excluded) <= grown
    {
      PrefixTransitive(Flatten(requests[i].excluded), stored, grown);
    }
  }

  lemma ChainAppend(requests: seq<AuctionRequest>, stored: seq<GroupId>, q: AuctionRequest)
    requires Chain(requests, stored) && Flatten(q.excluded) == stored
    ensures Chain(requests + [q], stored)
  {
  }

  /** Compensation in the name of `group`, with or without a message getting through. */
  lemma ReopeningKeepsExcludes(v: View, w: View, group: GroupId, request: Option<AuctionRequest>)
    requires v.ride.Some? && w.ride.Some? && Excludes(v)
    requires w.ride.value.excluded == Some(Join(Excluding(v.ride.value, group)))
    requires w.requests == v.requests + ToSeq(request)
    requires request.Some? ==> request.value.excluded == Excluding(v.ride.value, group)
    ensures Excludes(w)
    ensures Parse(v.ride.value.excluded) <= Parse(w.ride.value.excluded)
  {
    var stored := Parse(w.ride.value.excluded);
    AppendStored(v.ride.value.excluded, group);
    ParseSomeJoin(Excluding(v.ride.value, group));
    ChainGrows(v.requests, Parse(v.ride.value.excluded), stored);
    if request.Some? {
      ChainAppend(v.requests, stored, request.value);
    } else {
      assert w.requests == v.requests;
    }
  }

  lemma KeepsExcludes(v: View, r: RideId, m: Move, before: nat, after: nat, groups: seq<GroupId>)
    requires Legal(v, r, m, before, after, groups) && Rooted(v) && Excludes(v)
    ensures Excludes(Play(v, r, m))
    ensures v.ride.Some? ==>
              && Play(v, r, m).ride.Some?
              && Parse(v.ride.value.excluded) <= Parse(Play(v, r, m).ride.value.excluded)
  {
    var w := Play(v, r, m);
    if m.Shifted? && m.target.Compensating? {
      ReopeningKeepsExcludes(v, w, m.service, m.request);
    } else if m.Lapsed? {
      ReopeningKeepsExcludes(v, w, v.lock.value.heldBy, m.request);
    } else if m.Born? {
      assert Flatten([]) == [];
    } else {
      assert w.requests == v.requests;
    }
  }

  /** A status event is paid for by the status it leads to, and a won auction pays for four. */
  lemma AllowanceStep(v: View, r: RideId, m: Move, before: nat, after: nat, groups: seq<GroupId>)
    requires Legal(v, r, m, before, after, groups) && Joint(v, groups) && v.ride.Some?
    ensures Play(v, r, m).ride.Some?
    ensures |NewStatusEvents(v, r, m)| + Allowance(v.ride.value) <=
            Allowance(Play(v, r, m).ride.value) + if m.Settled? && m.winner.Some? then 4 else 0
  {
  }

  lemma KeepsBounded(v: View, r: RideId, m: Move, before: nat, after: nat, groups: seq<GroupId>)
    requires Legal(v, r, m, before, after, groups) && Rooted(v) && Bounded(v) && Joint(v, groups)
    ensures Bounded(Play(v, r, m))
  {
    StatusEventsGrow(v, r, m);
    WinnersGrow(v, r, m);
    if v.ride.Some? {
      AllowanceStep(v, r, m, before, after, groups);
    }
  }

  lemma ClockedAppend(log: seq<Event>, clock: nat, e: Event)
    requires Clocked(log, clock) && clock < e.ts
    ensures Clocked(log + [e], e.ts)
  {
  }

  lemma ClockedLater(log: seq<Event>, clock: nat, later: nat)
    requires Clocked(log, clock) && clock <= later
    ensures Clocked(log, later)
  {
  }

  lemma EventsKeepClocked(v: View, r: RideId, m: Move, before: nat, after: nat, groups: seq<GroupId>)
    requires Legal(v, r, m, before, after, groups) && Clocked(v.log, before)
    ensures Clocked(Play(v, r, m).log, after)
  {
    var es := NewEvents(v, r, m);
    LogOfPlay(v, r, m);
    if |es| == 0 {
      ClockedLater(v.log, before, after);
    } else {
      ClockedAppend(v.log, before, es[0]);
      if |es| == 2 {
        ClockedAppend(v.log + [es[0]], es[0].ts, es[1]);
      }
      ClockedLater(Play(v, r, m).log, es[|es| - 1].ts, after);
    }
  }

  lemma KeepsTimed(v: View, r: RideId, m: Move, before: nat, after: nat, groups: seq<GroupId>)
    requires Legal(v, r, m, before, after, groups) && Timed(v, before)
    ensures Timed(Play(v, r, m), after)
  {
    EventsKeepClocked(v, r, m, before, after, groups);
  }

  // ---- All of them, in every run --------------------------------------------------------

  ghost predicate Good(v: View, groups: seq<GroupId>, clock: nat) {
    && Rooted(v) && Replays(v) && Joint(v, groups) && Conserved(v) && Leased(v)
    && Progressed(v) && Stamped(v) && Excludes(v) && Bounded(v) && Timed(v, clock)
  }

  lemma MoveKeepsGood(v: View, r: RideId, m: Move, before: nat, after: nat, groups: seq<GroupId>)
    requires Legal(v, r, m, before, after, groups) && Good(v, groups, before)
    ensures Good(Play(v, r, m), groups, after)
  {
    KeepsRooted(v, r, m, before, after, groups);
    KeepsReplays(v, r, m, before, after, groups);
    KeepsJoint(v, r, m, before, after, groups);
    KeepsConserved(v, r, m, before, after, groups);
    KeepsLeased(v, r, m, before, after, groups);
    KeepsProgressed(v, r, m, before, after, groups);
    KeepsStamped(v, r, m, before, after, groups);
    KeepsExcludes(v, r, m, before, after, groups);
    KeepsBounded(v, r, m, before, after, groups);
    KeepsTimed(v, r, m, before, after, groups);
  }

  lemma MoreGroups(v: View, groups: seq<GroupId>, more: seq<GroupId>)
    requires Joint(v, groups) && groups <= more
    ensures Joint(v, more)
  {
  }

  ghost predicate GoodRide(s: State, r: RideId) {
    Good(ViewOf(s, r), s.groups, s.clock)
  }

  /** The state as a whole. */
  ghost predicate GoodState(s: State) {
    GroupsValid(s.groups) && forall r :: GoodRide(s, r)
  }

  lemma StepKeepsGoodRide(s: State, op: Op, r: RideId)
    requires GroupsValid(s.groups) && GoodRide(s, r)
    ensures GoodRide(Apply(s, op), r)
  {
    var t := Apply(s, op);
    var m := MoveFor(s, op, r);
    StepGroups(s, op);
    Follows(s, op, r);
    MoveKeepsGood(ViewOf(s, r), r, m, s.clock, t.clock, s.groups);
    MoreGroups(ViewOf(t, r), s.groups, t.groups);
  }

  lemma StepKeepsGood(s: State, op: Op)
    requires GoodState(s)
    ensures GoodState(Apply(s, op))
  {
    StepGroups(s, op);
    forall r
      ensures GoodRide(Apply(s, op), r)
    {
      assert GoodRide(s, r);
      StepKeepsGoodRide(s, op, r);
    }
  }

  lemma {:induction false} RunKeepsGood(s: State, ops: seq<Op>)
    requires GoodState(s)
    ensures GoodState(Run(s, ops))
  {
    if ops != [] {
      RunKeepsGood(s, Front(ops));
      StepKeepsGood(Run(s, Front(ops)), Last(ops));
    }
  }

  /** Every invariant holds of every ride in every reachable state. */
  lemma ReachIsGood(ops: seq<Op>)
    ensures GoodState(Reach(ops))
  {
    forall r
      ensures GoodRide(INITIAL, r)
    {
    }
    RunKeepsGood(INITIAL, ops);
  }

  lemma ReachableIsGood(s: State)
    requires Reachable(s)
    ensures GoodState(s)
  {
    var ops: seq<Op> :| Reach(ops) == s;
    ReachIsGood(ops);
  }

  lemma ReachableGroups(s: State)
    requires Reachable(s)
    ensures GroupsValid(s.groups)
  {
    ReachableIsGood(s);
  }

  // ---- One invariant at a time ----------------------------------------------------------------

  lemma RootedAt(s: State, r: RideId)
    requires GoodState(s)
    ensures Rooted(ViewOf(s, r))
  {
    assert GoodRide(s, r);
  }

  lemma ReplaysAt(s: State, r: RideId)
    requires GoodState(s)
    ensures Replays(ViewOf(s, r))
  {
    assert GoodRide(s, r);
  }

  lemma JointAt(s: State, r: RideId)
    requires GoodState(s)
    ensures Joint(ViewOf(s, r), s.groups)
  {
    assert GoodRide(s, r);
  }

  lemma ConservedAt(s: State, r: RideId)
    requires GoodState(s)
    ensures Conserved(ViewOf(s, r))
  {
    assert GoodRide(s, r);
  }

  lemma LeasedAt(s: State, r: RideId)
    requires GoodState(s)
    ensures Leased(ViewOf(s, r))
  {
    assert GoodRide(s, r);
  }

  lemma ProgressedAt(s: State, r: RideId)
    requires GoodState(s)
    ensures Progressed(ViewOf(s, r))
  {
    assert GoodRide(s, r);
  }

  lemma StampedAt(s: State, r: RideId)
    requires GoodState(s)
    ensures Stamped(ViewOf(s, r))
  {
    assert GoodRide(s, r);
  }

  lemma ExcludesAt(s: State, r: RideId)
    requires GoodState(s)
    ensures Excludes(ViewOf(s, r))
  {
    assert GoodRide(s, r);
  }

  lemma BoundedAt(s: State, r: RideId)
    requires GoodState(s)
    ensures Bounded(ViewOf(s, r))
  {
    assert GoodRide(s, r);
  }

  lemma TimedAt(s: State, r: RideId)
    requires GoodState(s)
    ensures Timed(ViewOf(s, r), s.clock)
  {
    assert GoodRide(s, r);
  }
}
