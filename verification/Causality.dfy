/** Logical time across the whole core. */
module Causality {
  import opened Sequences
  import opened Wrappers
  import opened Auctions
  import opened RideModel
  import opened Saga
  import opened RideMoves
  import opened AuditTrail
  import opened RideInvariants
  import opened SagaProperties

  /** Audit timestamps increase in the order of writing, across all rides, up to the clock. */
  ghost predicate AuditOrdered(audit: seq<Event>, clock: nat) {
    && (forall i, j | 0 <= i < j < |audit| :: audit[i].ts < audit[j].ts)
    && (forall e <- audit :: e.ts <= clock)
  }

  /** A step appends at most two events, stamped after the old clock and in order. */
  ghost predicate StampedAfter(added: seq<Event>, before: nat, after: nat) {
    && before <= after
    && (forall e <- added :: before < e.ts <= after)
    && (forall i, j | 0 <= i < j < |added| :: added[i].ts < added[j].ts)
  }

  lemma LegalEventsStamped(v: View, r: RideId, m: Move, before: nat, after: nat, groups: seq<GroupId>)
    requires Legal(v, r, m, before, after, groups)
    ensures StampedAfter(NewEvents(v, r, m), before, after)
  {
  }

  /** The ride a step works on, if any. */
  function RideOf(s: State, op: Op): Option<RideId> {
    match op
    case Create(r, _, _, _, _) => Some(r)
    case Patch(r, _, _, _, _) => Some(r)
    case Acquire(r, _, _) => Some(r)
    case Release(r, _) => Some(r)
    case Expire(r, _) => Some(r)
    case Deliver(index, _, _, _) =>
      if Pending(s, index) && AuctionOpen(s, s.requests[index].ride) then Some(s.requests[index].ride) else None
    case _ => None
  }

  lemma StepAudit(s: State, op: Op)
    ensures Apply(s, op).audit == s.audit + match RideOf(s, op)
                                            case None => []
                                            case Some(r) => NewEvents(ViewOf(s, r), r, MoveFor(s, op, r))
  {
    assert s.audit + [] == s.audit;
  }

  lemma StepKeepsOrder(s: State, op: Op)
    requires NoDuplicates(s.groups) && AuditOrdered(s.audit, s.clock)
    ensures AuditOrdered(Apply(s, op).audit, Apply(s, op).clock)
    ensures s.clock <= Apply(s, op).clock
  {
    StepAudit(s, op);
    var r := if RideOf(s, op).Some? then RideOf(s, op).value else 0;
    Follows(s, op, r);
    LegalEventsStamped(ViewOf(s, r), r, MoveFor(s, op, r), s.clock, Apply(s, op).clock, s.groups);
  }

  lemma {:induction false} ReachKeepsOrder(ops: seq<Op>)
    ensures AuditOrdered(Reach(ops).audit, Reach(ops).clock)
  {
    if ops != [] {
      ReachKeepsOrder(Front(ops));
      ReachIsGood(Front(ops));
      StepKeepsOrder(Reach(Front(ops)), Last(ops));
    }
  }

  /** The audit log of the whole core is strictly ordered by logical time, so timestamps of
      different events differ, also across rides. */
  lemma AuditInOrder(s: State)
    requires Reachable(s)
    ensures forall i, j | 0 <= i < j < |s.audit| :: s.audit[i].ts < s.audit[j].ts
    ensures forall e <- s.audit :: e.ts <= s.clock
  {
    var ops: seq<Op> :| Reach(ops) == s;
    ReachKeepsOrder(ops);
  }

  /** A ride's timestamps keep their order: client before core, core not after the clock. */
  lemma RideStampsInOrder(s: State, r: RideId)
    requires Reachable(s) && r in s.rides
    ensures s.rides[r].clientTs < s.rides[r].coreTs <= s.clock
  {
    ReachableIsGood(s);
    TimedAt(s, r);
  }

  // ---- Listing a ride's log by logical time ------------------------------------------------

  lemma MultisetFront(xs: seq<Event>)
    requires xs != []
    ensures multiset(Front(xs)) == multiset(xs) - multiset{Last(xs)}
  {
    assert xs == Front(xs) + [Last(xs)];
  }

  /** The latest event of both listings is the same one. */
  lemma LastsAgree(log: seq<Event>, listed: seq<Event>)
    requires StrictByTs(log) && SortedByTs(listed) && multiset(log) == multiset(listed)
    requires log != [] && listed != []
    ensures Last(log) == Last(listed)
  {
    var a, b := Last(log), Last(listed);
    assert b in multiset(log) && a in multiset(listed);
    var i :| 0 <= i < |log| && log[i] == b;
    var j :| 0 <= j < |listed| && listed[j] == a;
    assert a.ts <= b.ts && b.ts <= a.ts;
  }

  lemma FrontsStaySorted(log: seq<Event>, listed: seq<Event>)
    requires StrictByTs(log) && SortedByTs(listed) && multiset(log) == multiset(listed)
    requires log != [] && listed != [] && Last(log) == Last(listed)
    ensures StrictByTs(Front(log)) && SortedByTs(Front(listed))
    ensures multiset(Front(log)) == multiset(Front(listed))
  {
    MultisetFront(log);
    MultisetFront(listed);
  }

  lemma SameFrontSameLast(xs: seq<Event>, ys: seq<Event>)
    requires xs != [] && ys != [] && Front(xs) == Front(ys) && Last(xs) == Last(ys)
    ensures xs == ys
  {
    assert xs == Front(xs) + [Last(xs)] && ys == Front(ys) + [Last(ys)];
  }

  lemma SameElementsSameLength(xs: seq<Event>, ys: seq<Event>)
    requires multiset(xs) == multiset(ys)
    ensures |xs| == |ys|
  {
    assert |xs| == |multiset(xs)| == |multiset(ys)| == |ys|;
  }

  lemma {:induction false} SortedIsUnique(log: seq<Event>, listed: seq<Event>)
    requires StrictByTs(log) && SortedByTs(listed) && multiset(log) == multiset(listed)
    ensures listed == log
  {
    SameElementsSameLength(log, listed);
    if log != [] {
      LastsAgree(log, listed);
      FrontsStaySorted(log, listed);
      SortedIsUnique(Front(log), Front(listed));
      SameFrontSameLast(log, listed);
    }
  }

  /** Sorting a ride's events by logical timestamp, in whatever way, gives them in the order in
      which they were written. */
  lemma ListingIsAppendOrder(s: State, r: RideId, listed: seq<Event>)
    requires Reachable(s)
    requires SortedByTs(listed) && multiset(listed) == multiset(LogOf(s, r))
    ensures listed == LogOf(s, r)
  {
    ReachableIsGood(s);
    TimedAt(s, r);
    SortedIsUnique(LogOf(s, r), listed);
  }
}
