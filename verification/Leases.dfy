/** Lease exclusion over runs, and the correctness of one sweep of the lock monitor. */
module Leases {
  import opened Sequences
  import opened Wrappers
  import opened CircuitBreakers
  import opened Auctions
  import opened RideModel
  import opened ExclusionList
  import opened Saga
  import opened RideMoves
  import opened RideInvariants
  import opened SagaProperties

  // ---- Exclusion ----------------------------------------------------------------------

  /** `service` is granted the lease of `r` if it asks in state `s`. */
  predicate CanAcquire(s: State, r: RideId, service: GroupId, ttl: nat) {
    DecideAcquire(ViewOf(s, r), s.clock, s.now, service, ttl).outcome == Done
  }

  /** The steps that give up a lease of `r` held by `holder` until `until`: the holder releases
      it or renews it for a shorter time, a PATCH ends the ride, or an auction of the ride closes
      otherwise than by leasing it to the holder for as long. */
  ghost predicate GivesUp(s: State, op: Op, r: RideId, holder: GroupId, until: Time) {
    match MoveFor(s, op, r)
    case Freed(_) => op.Release? && op.service == holder
    case Granted(service, _, expiresAt, _) => service == holder && expiresAt < until
    case Settled(winner, _, closeAt, _, _) =>
      winner != Some(holder) || closeAt + LOCK_TTL_WINNER * SECOND < until
    case Shifted(_, target, _, _, _) => Terminal(target)
    case _ => false
  }

  ghost predicate HeldAtLeast(s: State, r: RideId, holder: GroupId, until: Time) {
    r in s.rides && r in s.locks && s.locks[r].heldBy == holder && s.locks[r].expiresAt >= until
  }

  lemma StepNow(s: State, op: Op)
    ensures s.now <= Apply(s, op).now
  {
  }

  /** The moves that leave a lease of `holder` until `until` in place. */
  ghost predicate LeavesLease(m: Move, holder: GroupId, until: Time) {
    || m.Idle?
    || (m.Shifted? && !Terminal(m.target))
    || (m.Granted? && m.service == holder && m.expiresAt >= until)
    || (m.Settled? && m.winner == Some(holder) && m.closeAt + LOCK_TTL_WINNER * SECOND >= until)
  }

  /** While the lease has not expired, every other move is one of giving it up. */
  lemma GivesUpOrLeaves(s: State, op: Op, r: RideId, holder: GroupId, until: Time)
    requires HeldAtLeast(s, r, holder, until) && s.now < until
    ensures GivesUp(s, op, r, holder, until) <==> !LeavesLease(MoveFor(s, op, r), holder, until)
  {
  }

  ghost predicate HasLease(v: View, holder: GroupId, until: Time) {
    v.ride.Some? && v.lock.Some? && v.lock.value.heldBy == holder && v.lock.value.expiresAt >= until
  }

  lemma LeaseStaysIff(v: View, r: RideId, m: Move, holder: GroupId, until: Time)
    requires HasLease(v, holder, until) && !m.Born?
    ensures HasLease(Play(v, r, m), holder, until) <==> LeavesLease(m, holder, until)
  {
  }

  /** While a lease lasts, the steps that give it up are exactly those after which the holder no longer
      has it for as long. */
  lemma StepKeepsLeaseIff(s: State, op: Op, r: RideId, holder: GroupId, until: Time)
    requires NoDuplicates(s.groups) && HeldAtLeast(s, r, holder, until) && s.now < until
    ensures HeldAtLeast(Apply(s, op), r, holder, until) <==> !GivesUp(s, op, r, holder, until)
  {
    var after := StepLegal(s, op, r);
    GivesUpOrLeaves(s, op, r, holder, until);
    LeaseStaysIff(ViewOf(s, r), r, MoveFor(s, op, r), holder, until);
    StepView(s, op, r);
    HeldInView(Apply(s, op), r, holder, until);
  }

  lemma HeldInView(s: State, r: RideId, holder: GroupId, until: Time)
    ensures HeldAtLeast(s, r, holder, until) <==> HasLease(ViewOf(s, r), holder, until)
  {
  }

  /** Along a run, a lease is kept unless some step gives it up. */
  lemma {:induction false} RunKeepsLease(s: State, ops: seq<Op>, r: RideId, holder: GroupId, until: Time)
    requires GroupsValid(s.groups) && HeldAtLeast(s, r, holder, until) && Run(s, ops).now < until
    requires forall k | 0 <= k < |ops| :: !GivesUp(Run(s, ops[..k]), ops[k], r, holder, until)
    ensures HeldAtLeast(Run(s, ops), r, holder, until)
  {
    if ops != [] {
      var front := Front(ops);
      StepNow(Run(s, front), Last(ops));
      forall k | 0 <= k < |front|
        ensures !GivesUp(Run(s, front[..k]), front[k], r, holder, until)
      {
        assert front[..k] == ops[..k];
      }
      RunKeepsLease(s, front, r, holder, until);
      RunGroups(s, front);
      assert ops[..|ops| - 1] == front;
      StepKeepsLeaseIff(Run(s, front), Last(ops), r, holder, until);
    }
  }

  /** After a lease granted until `until`, no other group can acquire it earlier unless a step in
      between gave it up. */
  lemma {:induction false} LeaseExclusion(s: State, more: seq<Op>, r: RideId, holder: GroupId, until: Time,
                                          other: GroupId, ttl: nat)
    requires Reachable(s) && HeldAtLeast(s, r, holder, until) && other != holder
    requires Run(s, more).now < until && CanAcquire(Run(s, more), r, other, ttl)
    ensures exists k | 0 <= k < |more| :: GivesUp(Run(s, more[..k]), more[k], r, holder, until)
  {
    ReachableIsGood(s);
    AcquireAllowed(Run(s, more), r, other, ttl);
    if forall k | 0 <= k < |more| :: !GivesUp(Run(s, more[..k]), more[k], r, holder, until) {
      RunKeepsLease(s, more, r, holder, until);
    }
  }

  lemma BirthLease(s: State, op: Op)
    requires NoDuplicates(s.groups) && op.Create? && MoveFor(s, op, op.ride).Born?
    ensures HeldAtLeast(Apply(s, op), op.ride, op.origin, s.now + (op.timeout + LOCK_TTL_AUCTION_EXTRA) * SECOND)
    ensures Apply(s, op).now == s.now
  {
    StepView(s, op, op.ride);
    var t := Apply(s, op);
    assert ViewOf(t, op.ride).lock == Get(t.locks, op.ride) && ViewOf(t, op.ride).ride == Get(t.rides, op.ride);
  }

  /** A new ride is reserved for its origin: until thirty seconds after its auction timeout no other
      group acquires the lease, unless a step gives it up. */
  lemma {:induction false} NewRideIsReserved(s: State, op: Op, born: State, until: Time, more: seq<Op>,
                                             other: GroupId, ttl: nat)
    requires Reachable(s) && op.Create? && MoveFor(s, op, op.ride).Born? && other != op.origin
    requires born == Apply(s, op) && until == s.now + (op.timeout + LOCK_TTL_AUCTION_EXTRA) * SECOND
    requires Run(born, more).now < until && CanAcquire(Run(born, more), op.ride, other, ttl)
    ensures exists k | 0 <= k < |more| :: GivesUp(Run(born, more[..k]), more[k], op.ride, op.origin, until)
  {
    ReachableGroups(s);
    BirthLease(s, op);
    StepReachable(s, op);
    LeaseExclusion(born, more, op.ride, op.origin, until, other, ttl);
  }

  lemma AcquireEffect(s: State, r: RideId, service: GroupId, ttl: nat)
    requires CanAcquire(s, r, service, ttl)
    ensures var t := Apply(s, Acquire(r, service, ttl));
            && t.locks == s.locks[r := Lock(service, s.now + ttl * SECOND)]
            && t.rides.Keys == s.rides.Keys && t.now == s.now
  {
  }

  lemma AcquireAllowed(s: State, r: RideId, service: GroupId, ttl: nat)
    ensures CanAcquire(s, r, service, ttl) <==>
            r in s.rides && (r in s.locks ==> s.locks[r].heldBy == service || s.locks[r].expiresAt <= s.now)
  {
  }

  /** A renewal can shorten a lease: the holder renews for less, and another group gets in before
      the first expiry. */
  lemma RenewalCanShorten(s: State, r: RideId, other: GroupId, ttl: nat, otherTtl: nat)
    requires Reachable(s) && r in s.locks && other != s.locks[r].heldBy
    requires s.now + ttl * SECOND < s.locks[r].expiresAt
    ensures var t := Apply(Apply(s, Acquire(r, s.locks[r].heldBy, ttl)), Advance(ttl * SECOND));
            t.now < s.locks[r].expiresAt && CanAcquire(t, r, other, otherTtl)
  {
    LeaseAgreesWithLog(s, r);
    AcquireAllowed(s, r, s.locks[r].heldBy, ttl);
    AcquireEffect(s, r, s.locks[r].heldBy, ttl);
    var t := Apply(Apply(s, Acquire(r, s.locks[r].heldBy, ttl)), Advance(ttl * SECOND));
    AcquireAllowed(t, r, other, otherTtl);
  }

  /** A lease is refused to every other group exactly as long as the monitor leaves it alone. */
  lemma RefusedIffNotSweepable(s: State, r: RideId, other: GroupId, ttl: nat, published: bool)
    requires Reachable(s) && r in s.locks && other != s.locks[r].heldBy
    ensures CanAcquire(s, r, other, ttl) <==> !MoveFor(s, Expire(r, published), r).Idle?
  {
    LeaseAgreesWithLog(s, r);
    AcquireAllowed(s, r, other, ttl);
  }

  // ---- One sweep --------------------------------------------------------------------------

  lemma NamesFront(ops: seq<Op>, r: RideId)
    requires ops != [] && (forall op <- ops :: op.Expire?)
    requires forall i, j | 0 <= i < j < |ops| :: ops[i].ride != ops[j].ride
    ensures forall op <- Front(ops) :: op.Expire?
    ensures Names(ops, r) <==> Names(Front(ops), r) || Last(ops).ride == r
    ensures !(Names(Front(ops), r) && Last(ops).ride == r)
  {
    assert ops == Front(ops) + [Last(ops)];
    assert Last(ops) in ops;
  }

  /** What the sweep makes of a ride whose lease was expired. */
  ghost predicate Swept(v: View, r: RideId, w: View) {
    && v.lock.Some? && w.lock.None?
    && (v.ride.Some? && !Live(v.ride.value.status) ==> w.ride == v.ride && w.log == v.log)
    && (v.ride.Some? && Live(v.ride.value.status) ==>
          exists expiredTs: nat, ts: nat ::
            && v.ride.value.coreTs < expiredTs < ts
            && w.ride == Some(LapsedRide(v.ride.value, v.lock.value.heldBy, ts))
            && w.log == v.log + LapseEvents(r, v.ride.value, v.lock.value, expiredTs, ts))
  }

  lemma ExpireOther(s: State, x: RideId, published: bool, r: RideId)
    requires NoDuplicates(s.groups) && x != r
    ensures ViewOf(Apply(s, Expire(x, published)), r) == ViewOf(s, r)
  {
    IdleKeepsView(s, Expire(x, published), r);
  }

  /** What the monitor decides about an expired lease. */
  lemma ExpireMove(s: State, r: RideId, published: bool)
    requires Expired(s, r) && r in s.rides
    ensures var m := MoveFor(s, Expire(r, published), r);
            if Live(s.rides[r].status) then m.Lapsed? && s.clock < m.expiredTs < m.ts else m.Dropped?
  {
  }

  lemma SweptByMove(v: View, r: RideId, m: Move)
    requires v.ride.Some? && v.lock.Some?
    requires if Live(v.ride.value.status) then m.Lapsed? && v.ride.value.coreTs < m.expiredTs < m.ts else m.Dropped?
    ensures Swept(v, r, Play(v, r, m))
  {
    if m.Dropped? {
      assert v.log + [] == v.log;
    } else {
      assert NewEvents(v, r, m) == LapseEvents(r, v.ride.value, v.lock.value, m.expiredTs, m.ts);
    }
  }

  lemma ExpireThis(s: State, r: RideId, published: bool)
    requires GoodState(s) && Expired(s, r)
    ensures Swept(ViewOf(s, r), r, ViewOf(Apply(s, Expire(r, published)), r))
  {
    RootedAt(s, r);
    TimedAt(s, r);
    ExpireMove(s, r, published);
    SweptByMove(ViewOf(s, r), r, MoveFor(s, Expire(r, published), r));
    StepView(s, Expire(r, published), r);
  }

  lemma ExpireKeepsRest(s: State, op: Op)
    requires op.Expire?
    ensures var t := Apply(s, op);
            t.now == s.now && t.groups == s.groups && t.acked == s.acked && t.proposals == s.proposals
  {
  }

  /** One ride through a sequence of loop iterations that name it at most once. */
  lemma {:induction false} SweepOneRide(s: State, ops: seq<Op>, r: RideId)
    requires GoodState(s)
    requires forall op <- ops :: op.Expire?
    requires forall i, j | 0 <= i < j < |ops| :: ops[i].ride != ops[j].ride
    requires Names(ops, r) ==> Expired(s, r)
    ensures Run(s, ops).now == s.now
    ensures Names(ops, r) ==> Swept(ViewOf(s, r), r, ViewOf(Run(s, ops), r))
    ensures !Names(ops, r) ==> ViewOf(Run(s, ops), r) == ViewOf(s, r)
  {
    if ops != [] {
      var front, last := Front(ops), Last(ops);
      var t := Run(s, front);
      NamesFront(ops, r);
      SweepOneRide(s, front, r);
      RunKeepsGood(s, front);
      ExpireKeepsRest(t, last);
      if last.ride == r {
        assert Get(t.locks, r) == ViewOf(t, r).lock == Get(s.locks, r);
        ExpireThis(t, r, last.published);
      } else {
        ExpireOther(t, last.ride, last.published, r);
      }
    }
  }

  /** A sweep deletes exactly the expired leases.  A live ride that lost its lease is compensating,
      with its auction open again, the holder appended to its exclusions and two new events;
      any other ride that lost one is otherwise unchanged, and all other rides are untouched. */
  lemma {:induction false} SweepCorrect(s: State, ops: seq<Op>, t: State, r: RideId)
    requires GoodState(s) && SweepOf(s, ops) && t == Run(s, ops)
    ensures !Expired(t, r)
    ensures Expired(s, r) ==> Swept(ViewOf(s, r), r, ViewOf(t, r))
    ensures !Expired(s, r) ==> ViewOf(t, r) == ViewOf(s, r)
  {
    SweepOneRide(s, ops, r);
    assert Get(t.locks, r) == ViewOf(t, r).lock && Get(s.locks, r) == ViewOf(s, r).lock;
  }

  /** For a lapsed lease with a plain holder id, the stored exclusions are the old ones and the holder. */
  lemma SweptExclusions(v: View, r: RideId, w: View)
    requires Swept(v, r, w) && v.ride.Some? && Live(v.ride.value.status)
    ensures w.ride.Some? && w.ride.value.status.Compensating?
    ensures w.ride.value.auction == AuctionStatus.Open && w.ride.value.closedAt.None?
    ensures Parse(w.ride.value.excluded) == Parse(v.ride.value.excluded) + ParseText(v.lock.value.heldBy)
    ensures PlainId(v.lock.value.heldBy) ==>
              Parse(w.ride.value.excluded) == Parse(v.ride.value.excluded) + [v.lock.value.heldBy]
  {
    AppendStored(v.ride.value.excluded, v.lock.value.heldBy);
  }

  // ---- Punishment ---------------------------------------------------------------------------

  /** How many of the named leases were held by `group` on a live ride. */
  function FaultsOf(s: State, ops: seq<Op>, group: GroupId): nat
    requires forall op <- ops :: op.Expire?
  {
    if ops == [] then 0
    else
      var r := Last(ops).ride;
      FaultsOf(s, Front(ops), group) +
      if r in s.rides && r in s.locks && Live(s.rides[r].status) && s.locks[r].heldBy == group then 1 else 0
  }

  lemma ExpirePunishes(s: State, r: RideId, published: bool, group: GroupId)
    requires Expired(s, r) && r in s.rides
    ensures Lookup(Apply(s, Expire(r, published)).breakers, group).fails ==
            Lookup(s.breakers, group).fails +
            if Live(s.rides[r].status) && s.locks[r].heldBy == group then 1 else 0
  {
  }

  lemma {:induction false} PunishedSoFar(s: State, ops: seq<Op>, group: GroupId)
    requires GoodState(s)
    requires forall op <- ops :: op.Expire? && Expired(s, op.ride)
    requires forall i, j | 0 <= i < j < |ops| :: ops[i].ride != ops[j].ride
    ensures Lookup(Run(s, ops).breakers, group).fails == Lookup(s.breakers, group).fails + FaultsOf(s, ops, group)
  {
    if ops != [] {
      var front, r := Front(ops), Last(ops).ride;
      var t := Run(s, front);
      assert Last(ops) in ops;
      NamesFront(ops, r);
      PunishedSoFar(s, front, group);
      SweepOneRide(s, front, r);
      assert Get(t.locks, r) == ViewOf(t, r).lock == Get(s.locks, r);
      assert Get(t.rides, r) == ViewOf(t, r).ride == Get(s.rides, r);
      RootedAt(s, r);
      ExpirePunishes(t, r, Last(ops).published, group);
    }
  }

  /** A sweep counts one failure against a group for every live ride whose expired lease it held,
      and none for leftover leases of rides that are over or already compensating. */
  lemma SweepPunishesOnce(s: State, ops: seq<Op>, group: GroupId)
    requires GoodState(s) && SweepOf(s, ops)
    ensures Lookup(Run(s, ops).breakers, group).fails == Lookup(s.breakers, group).fails + FaultsOf(s, ops, group)
  {
    forall op | op in ops
      ensures Expired(s, op.ride)
    {
      assert Names(ops, op.ride);
    }
    PunishedSoFar(s, ops, group);
  }
}
