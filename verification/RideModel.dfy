/** The rows the core keeps, and the constants and tables of the saga. */
module RideModel {
  import opened Wrappers
  import opened CircuitBreakers
  import opened Auctions

  /** The row id of a ride; it stands for the uuid as well. */
  type RideId = nat

  const SECOND: Time := 1_000_000
  const LOCK_TTL_AUCTION_EXTRA: nat := 30
  const LOCK_TTL_WINNER: nat := 60
  const AUCTION_TIMEOUT_COMPENSATION: nat := 10
  const LIMITS := Limits(2, 20 * SECOND)
  const CORE: GroupId := "core"

  datatype Status = Request | Match | Confirm | InTransit | Complete | Compensating | Cancelled

  datatype AuctionStatus = Open | Closed | NoProposals

  /** `_TRANSICOES_VALIDAS`: what a group may ask for. */
  function ValidTargets(from: Status): set<Status> {
    match from
    case Request => {Cancelled}
    case Match => {Confirm, Compensating, Cancelled}
    case Confirm => {InTransit, Compensating, Cancelled}
    case InTransit => {Complete, Compensating, Cancelled}
    case Complete => {}
    case Compensating => {}
    case Cancelled => {}
  }

  /** The moves a group may ask for, one by one. */
  ghost predicate Permitted(from: Status, target: Status) {
    || (from == Match && target == Confirm)
    || (from == Confirm && target == InTransit)
    || (from == InTransit && target == Complete)
    || (from in {Match, Confirm, InTransit} && target == Compensating)
    || (from in {Request, Match, Confirm, InTransit} && target == Cancelled)
  }

  lemma PermittedIsTable(from: Status, target: Status)
    ensures Permitted(from, target) <==> target in ValidTargets(from)
  {
  }

  predicate NeedsLock(target: Status) {
    target in {Confirm, InTransit, Complete}
  }

  predicate Terminal(status: Status) {
    status in {Complete, Cancelled}
  }

  /** The ride has an assignment that can still fail. */
  predicate Underway(status: Status) {
    status in {Match, Confirm, InTransit}
  }

  /** The monitor compensates such a ride. */
  predicate Live(status: Status) {
    status.Request? || Underway(status)
  }

  datatype Ride = Ride(
    origin: GroupId,
    status: Status,
    auction: AuctionStatus,
    recipient: Option<GroupId>,
    assignedAt: Option<Time>,
    coreTs: nat,
    clientTs: nat,
    closedAt: Option<Time>,
    excluded: Option<string>,
    timeout: nat)

  datatype Lock = Lock(heldBy: GroupId, expiresAt: Time)

  datatype EventKind =
    | RideCreated(timeout: nat)
    | StateTransition(fromState: Status, toState: Status, clientTs: Option<nat>)
    | AuctionClosed(winner: Option<GroupId>, proposals: nat)
    | LockAcquired(ttl: nat)
    | LockReleased
    | LockExpired(expiredAt: Time)

  datatype Event = Event(ride: RideId, kind: EventKind, service: GroupId, ts: nat)

  /** The `auction_request` message. */
  datatype AuctionRequest = AuctionRequest(ride: RideId, ts: nat, timeout: nat, excluded: seq<GroupId>)

  datatype StoredProposal = StoredProposal(ride: RideId, proposal: Proposal)

  function Stored(ride: RideId, ps: seq<Proposal>): seq<StoredProposal> {
    seq(|ps|, i requires 0 <= i < |ps| => StoredProposal(ride, ps[i]))
  }

  /** The pattern a registered group id must match: letters a to z, digits and hyphens. */
  predicate ValidGroupId(id: string) {
    id != "" && forall c <- id :: 'a' <= c <= 'z' || '0' <= c <= '9' || c == '-'
  }

  /** How a handler ends. */
  datatype Outcome =
    | Done
    | AlreadyApplied
    | NotFound
    | Unprocessable
    | Conflict
    | Forbidden
    | MultipleRows
    | Ignored

  // ---- One ride's share of the audit log and of the queue -------------------

  function RideLog(audit: seq<Event>, ride: RideId): seq<Event> {
    if audit == [] then []
    else
      var last := audit[|audit| - 1];
      RideLog(audit[..|audit| - 1], ride) + if last.ride == ride then [last] else []
  }

  function RideRequests(requests: seq<AuctionRequest>, ride: RideId): seq<AuctionRequest> {
    if requests == [] then []
    else
      var last := requests[|requests| - 1];
      RideRequests(requests[..|requests| - 1], ride) + if last.ride == ride then [last] else []
  }

  lemma {:induction false} RideLogConcat(a: seq<Event>, b: seq<Event>, ride: RideId)
    ensures RideLog(a + b, ride) == RideLog(a, ride) + RideLog(b, ride)
  {
    if b == [] {
      assert a + b == a;
    } else {
      assert (a + b)[..|a + b| - 1] == a + b[..|b| - 1];
      RideLogConcat(a, b[..|b| - 1], ride);
    }
  }

  lemma RideLogAppend(log: seq<Event>, e: Event, ride: RideId)
    ensures RideLog(log + [e], ride) == RideLog(log, ride) + if e.ride == ride then [e] else []
  {
    assert (log + [e])[..|log|] == log;
  }

  lemma {:induction false} RideRequestsConcat(a: seq<AuctionRequest>, b: seq<AuctionRequest>, ride: RideId)
    ensures RideRequests(a + b, ride) == RideRequests(a, ride) + RideRequests(b, ride)
  {
    if b == [] {
      assert a + b == a;
    } else {
      assert (a + b)[..|a + b| - 1] == a + b[..|b| - 1];
      RideRequestsConcat(a, b[..|b| - 1], ride);
    }
  }

  /** `existe_idempotente` counts these: accepted PATCHes with this service and client timestamp. */
  predicate IsPatchBy(e: Event, service: GroupId, clientTs: nat) {
    e.kind.StateTransition? && e.service == service && e.kind.clientTs == Some(clientTs)
  }

  function Resubmissions(log: seq<Event>, service: GroupId, clientTs: nat): nat {
    if log == [] then 0
    else
      Resubmissions(log[..|log| - 1], service, clientTs) +
      if IsPatchBy(log[|log| - 1], service, clientTs) then 1 else 0
  }

  lemma ResubmissionsAppend(log: seq<Event>, e: Event, service: GroupId, clientTs: nat)
    ensures Resubmissions(log + [e], service, clientTs) ==
            Resubmissions(log, service, clientTs) + if IsPatchBy(e, service, clientTs) then 1 else 0
  {
    assert (log + [e])[..|log|] == log;
  }
}
