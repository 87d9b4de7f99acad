/** Reading a ride's audit log: what the events alone say about the ride. */
module AuditTrail {
  import opened Sequences
  import opened Wrappers
  import opened Auctions
  import opened RideModel

  /** Status and logical timestamp. */
  datatype Standing = Standing(status: Status, ts: nat)

  predicate IsStatusEvent(e: Event) {
    e.kind.RideCreated? || e.kind.StateTransition? || e.kind.AuctionClosed?
  }

  /** The standing an event that changes the status leads to. */
  function StandingAfter(e: Event): Standing
    requires IsStatusEvent(e)
  {
    match e.kind
    case RideCreated(_) => Standing(Request, e.ts)
    case StateTransition(_, toState, _) => Standing(toState, e.ts)
    case AuctionClosed(winner, _) => Standing(if winner.Some? then Match else Cancelled, e.ts)
  }

  function ReplayStanding(log: seq<Event>): Option<Standing> {
    if log == [] then None
    else if IsStatusEvent(Last(log)) then Some(StandingAfter(Last(log)))
    else ReplayStanding(Front(log))
  }

  /** A transition a group may ask for, or the monitor's compensation of a live ride. */
  predicate Lawful(e: Event) {
    e.kind.StateTransition? ==>
      if e.kind.clientTs.Some? then e.kind.toState in ValidTargets(e.kind.fromState)
      else e.service == CORE && e.kind.toState.Compensating? && Live(e.kind.fromState)
  }

  /** Event `e` is one the state machine can write for a ride whose log so far replays to `before`. */
  predicate Admitted(before: Option<Standing>, e: Event) {
    match e.kind
    case RideCreated(_) => before.None?
    case StateTransition(fromState, _, _) => before.Some? && before.value.status == fromState && Lawful(e)
    case AuctionClosed(_, _) => before.Some? && before.value.status in {Request, Compensating, Cancelled}
    case _ => before.Some?
  }

  /** The log is a path through the state machine. */
  ghost predicate Coherent(log: seq<Event>) {
    log != [] ==> Coherent(Front(log)) && Admitted(ReplayStanding(Front(log)), Last(log))
  }

  /** The holder of record. */
  function ReplayHolder(log: seq<Event>): Option<GroupId> {
    if log == [] then None
    else
      var e := Last(log);
      match e.kind
      case RideCreated(_) => Some(e.service)
      case LockAcquired(_) => Some(e.service)
      case LockReleased => None
      case LockExpired(_) => None
      case StateTransition(_, toState, _) => if Terminal(toState) then None else ReplayHolder(Front(log))
      case AuctionClosed(winner, _) => if winner.None? then None else ReplayHolder(Front(log))
  }

  /** Every move to confirm, in_transit or complete was sent by the holder of record at that point. */
  ghost predicate SentByHolder(log: seq<Event>) {
    log != [] ==>
      && SentByHolder(Front(log))
      && (Last(log).kind.StateTransition? && NeedsLock(Last(log).kind.toState) ==>
            ReplayHolder(Front(log)) == Some(Last(log).service))
  }

  function StatusEvents(log: seq<Event>): seq<Event> {
    if log == [] then []
    else StatusEvents(Front(log)) + if IsStatusEvent(Last(log)) then [Last(log)] else []
  }

  /** The winners of the ride's auctions, in order. */
  function Winners(log: seq<Event>): seq<GroupId> {
    if log == [] then []
    else Winners(Front(log)) + WinnerOf(Last(log))
  }

  function Closings(log: seq<Event>): nat {
    if log == [] then 0 else Closings(Front(log)) + if Last(log).kind.AuctionClosed? then 1 else 0
  }

  predicate IsReopening(e: Event) {
    e.kind.StateTransition? && Underway(e.kind.fromState) && e.kind.toState.Compensating?
  }

  function Reopenings(log: seq<Event>): nat {
    if log == [] then 0 else Reopenings(Front(log)) + if IsReopening(Last(log)) then 1 else 0
  }

  // ---- Appending -----------------------------------------------------------------

  lemma StandingAppend(log: seq<Event>, e: Event)
    ensures ReplayStanding(log + [e]) == if IsStatusEvent(e) then Some(StandingAfter(e)) else ReplayStanding(log)
  {
    FrontOfAppend(log, e);
  }

  lemma CoherentAppend(log: seq<Event>, e: Event)
    requires Coherent(log) && Admitted(ReplayStanding(log), e)
    ensures Coherent(log + [e])
  {
    FrontOfAppend(log, e);
  }

  lemma {:induction false} StandingExists(log: seq<Event>)
    requires Coherent(log)
    ensures ReplayStanding(log).None? <==> log == []
  {
    if log != [] && !IsStatusEvent(Last(log)) {
      StandingExists(Front(log));
    }
  }

  lemma {:induction false} CoherentAt(log: seq<Event>, i: nat)
    requires Coherent(log) && i < |log|
    ensures Coherent(log[..i]) && Admitted(ReplayStanding(log[..i]), log[i])
  {
    if i < |log| - 1 {
      CoherentAt(Front(log), i);
      assert Front(log)[..i] == log[..i];
    }
  }

  lemma HolderAppend(log: seq<Event>, e: Event)
    ensures ReplayHolder(log + [e]) == match e.kind {
              case RideCreated(_) => Some(e.service)
              case LockAcquired(_) => Some(e.service)
              case LockReleased => None
              case LockExpired(_) => None
              case StateTransition(_, toState, _) => if Terminal(toState) then None else ReplayHolder(log)
              case AuctionClosed(winner, _) => if winner.None? then None else ReplayHolder(log)
            }
  {
    FrontOfAppend(log, e);
  }

  lemma SentAppend(log: seq<Event>, e: Event)
    ensures SentByHolder(log + [e]) <==>
              && SentByHolder(log)
              && (e.kind.StateTransition? && NeedsLock(e.kind.toState) ==> ReplayHolder(log) == Some(e.service))
  {
    FrontOfAppend(log, e);
  }

  lemma SentUnguarded(log: seq<Event>, e: Event)
    requires SentByHolder(log) && !(e.kind.StateTransition? && NeedsLock(e.kind.toState))
    ensures SentByHolder(log + [e])
  {
    FrontOfAppend(log, e);
  }

  lemma {:induction false} StatusEventsConcat(a: seq<Event>, b: seq<Event>)
    ensures StatusEvents(a + b) == StatusEvents(a) + StatusEvents(b)
  {
    if b == [] {
      assert a + b == a;
    } else {
      FrontOfConcat(a, b);
      StatusEventsConcat(a, Front(b));
      ConcatAssociative(StatusEvents(a), StatusEvents(Front(b)), if IsStatusEvent(Last(b)) then [Last(b)] else []);
    }
  }

  /** What one event adds to the list of winners. */
  function WinnerOf(e: Event): seq<GroupId> {
    if e.kind.AuctionClosed? && e.kind.winner.Some? then [e.kind.winner.value] else []
  }

  lemma {:induction false} WinnersConcat(a: seq<Event>, b: seq<Event>)
    ensures Winners(a + b) == Winners(a) + Winners(b)
  {
    if b == [] {
      assert a + b == a;
    } else {
      FrontOfConcat(a, b);
      WinnersConcat(a, Front(b));
      ConcatAssociative(Winners(a), Winners(Front(b)), WinnerOf(Last(b)));
    }
  }

  lemma {:induction false} CountsConcat(a: seq<Event>, b: seq<Event>)
    ensures Closings(a + b) == Closings(a) + Closings(b)
    ensures Reopenings(a + b) == Reopenings(a) + Reopenings(b)
  {
    if b == [] {
      assert a + b == a;
    } else {
      FrontOfConcat(a, b);
      CountsConcat(a, Front(b));
    }
  }

  // ---- Order by logical time -----------------------------------------------------

  ghost predicate SortedByTs(log: seq<Event>) {
    forall i, j | 0 <= i < j < |log| :: log[i].ts <= log[j].ts
  }

  ghost predicate StrictByTs(log: seq<Event>) {
    forall i, j | 0 <= i < j < |log| :: log[i].ts < log[j].ts
  }

  // ---- Client timestamps --------------------------------------------------------

  predicate IsPatch(e: Event) {
    e.kind.StateTransition? && e.kind.clientTs.Some?
  }

  ghost predicate StampsUpTo(log: seq<Event>, bound: nat) {
    forall e <- log | IsPatch(e) :: e.kind.clientTs.value <= bound
  }

  ghost predicate StampsIncrease(log: seq<Event>) {
    forall i, j | 0 <= i < j < |log| && IsPatch(log[i]) && IsPatch(log[j]) ::
      log[i].kind.clientTs.value < log[j].kind.clientTs.value
  }

  lemma {:induction false} NoResubmission(log: seq<Event>, service: GroupId, clientTs: nat)
    requires forall e <- log :: !IsPatchBy(e, service, clientTs)
    ensures Resubmissions(log, service, clientTs) == 0
  {
    if log != [] {
      assert Last(log) in log;
      NoResubmission(Front(log), service, clientTs);
    }
  }

  lemma StaleBound(log: seq<Event>, bound: nat, service: GroupId, clientTs: nat)
    requires StampsUpTo(log, bound) && clientTs > bound
    ensures Resubmissions(log, service, clientTs) == 0
  {
    NoResubmission(log, service, clientTs);
  }

  lemma StampsOfFront(log: seq<Event>)
    requires log != [] && StampsIncrease(log)
    ensures StampsIncrease(Front(log))
    ensures forall e <- Front(log) | IsPatch(e) && IsPatch(Last(log)) ::
              e.kind.clientTs.value < Last(log).kind.clientTs.value
  {
    forall e | e in Front(log) && IsPatch(e) && IsPatch(Last(log))
      ensures e.kind.clientTs.value < Last(log).kind.clientTs.value
    {
      var i :| 0 <= i < |log| - 1 && log[i] == e;
    }
  }

  /** With increasing stamps the idempotence query finds one row or none. */
  lemma {:induction false} AtMostOneRow(log: seq<Event>, service: GroupId, clientTs: nat)
    requires StampsIncrease(log)
    ensures Resubmissions(log, service, clientTs) <= 1
    ensures Resubmissions(log, service, clientTs) == 1 <==>
            exists e <- log :: IsPatchBy(e, service, clientTs)
  {
    if log != [] {
      var front, last := Front(log), Last(log);
      assert log == front + [last];
      StampsOfFront(log);
      AtMostOneRow(front, service, clientTs);
      if IsPatchBy(last, service, clientTs) {
        NoResubmission(front, service, clientTs);
        assert last in log;
      }
    }
  }

  // ---- The way to completion ------------------------------------------------------

  predicate Hop(e: Event, from: Status, to: Status) {
    e.kind.StateTransition? && e.kind.fromState == from && e.kind.toState == to && e.kind.clientTs.Some?
  }

  /** The last status event is an auction won by `recipient`. */
  ghost predicate Won(events: seq<Event>, recipient: Option<GroupId>) {
    && events != [] && recipient.Some?
    && Last(events).kind.AuctionClosed? && Last(events).kind.winner == recipient
  }

  /** The status events end with a won auction and one hop for every state reached since. */
  ghost predicate Progress(events: seq<Event>, status: Status, recipient: Option<GroupId>) {
    match status
    case Match => Won(events, recipient)
    case Confirm =>
      events != [] && Hop(Last(events), Match, Confirm) && Won(Front(events), recipient)
    case InTransit =>
      && |events| >= 2 && Hop(Last(events), Confirm, InTransit)
      && Hop(Last(Front(events)), Match, Confirm) && Won(Front(Front(events)), recipient)
    case Complete =>
      && |events| >= 3 && Hop(Last(events), InTransit, Complete)
      && Hop(Last(Front(events)), Confirm, InTransit)
      && Hop(Last(Front(Front(events))), Match, Confirm)
      && Won(Front(Front(Front(events))), recipient)
    case _ => true
  }
}
