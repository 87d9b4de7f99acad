/** The lock monitor: one sweep over the leases that have expired. */
module LockMonitors {
  import opened Wrappers
  import opened RideModel
  import opened RideMoves
  import opened ExclusionList
  import opened Saga
  import opened Repositories
  import opened CoreState
  import opened StateMachine

  class LockMonitor {
    const core: Core
    const stateMachine: StateMachineService

    constructor (core: Core)
      ensures this.core == core && stateMachine.core == core && fresh(stateMachine)
    {
      this.core := core;
      stateMachine := new StateMachineService(core);
    }

    /** The body of the loop for one row as it was listed.  The row is not read again, so this is what
        happens to the tables whatever has become of the lease since. */
    method Handle(row: LockRow, up: bool)
      requires core.Valid() && stateMachine.core == core
      modifies core.clock, core.rides, core.locks, core.audit, core.broker, core.breakers,
               core.breakers.repr
      ensures core.Valid() && fresh(core.breakers.repr - old(core.breakers.repr))
      ensures core.Snapshot() == Handled(old(core.Snapshot()), row, up)
    {
      var r := row.ride;
      var found := core.rides.FindByUuid(r);
      if found.None? {
        var _ := core.locks.Delete(r);
        return;
      }
      var ride := found.value;
      if Terminal(ride.status) || ride.status == Compensating {
        var _ := core.locks.Delete(r);
        return;
      }
      Punish(row, ride, up);
    }

    /** The rest of the loop body, for a live ride: the expiry is the holder's fault. */
    method Punish(row: LockRow, ride: Ride, up: bool)
      requires core.Valid() && stateMachine.core == core
      requires row.ride in core.rides.rides && core.rides.rides[row.ride] == ride
      modifies core.clock, core.rides, core.locks, core.audit, core.broker, core.breakers,
               core.breakers.repr
      ensures core.Valid() && fresh(core.breakers.repr - old(core.breakers.repr))
      ensures core.Snapshot() == Lapsing(old(core.Snapshot()), row.ride, row.lock, up)
    {
      ghost var s := core.Snapshot();
      core.breakers.FailIncrement(row.lock.heldBy, core.now);
      assert core.Snapshot() == s.(breakers := UseBreaker(s.breakers, row.lock.heldBy, Fault, s.now));
      Lapse(row.ride, ride, row.lock, up);
    }

    /** Records the expiry, deletes the row and compensates the ride. */
    method Lapse(r: RideId, ride: Ride, lock: Lock, up: bool)
      requires stateMachine.core == core && core.Valid()
      requires r in core.rides.rides && core.rides.rides[r] == ride
      modifies core.clock, core.rides, core.locks, core.audit, core.broker
      ensures core.rides.rides ==
                old(core.rides.rides)[r := LapsedRide(ride, lock.heldBy, old(core.clock.value) + 2)]
      ensures core.locks.locks == old(core.locks.locks) - {r}
      ensures core.audit.events == old(core.audit.events) +
                LapseEvents(r, ride, lock, old(core.clock.value) + 1, old(core.clock.value) + 2)
      ensures core.broker.acked == old(core.broker.acked)
      ensures core.broker.requests == old(core.broker.requests) +
                if up
                then [AuctionRequest(r, old(core.clock.value) + 3, AUCTION_TIMEOUT_COMPENSATION,
                                     Excluding(ride, lock.heldBy))]
                else []
      ensures core.clock.value == old(core.clock.value) + if up then 4 else 3
    {
      var tsExpired := core.clock.Tick();
      core.audit.Record(Event(r, LockExpired(lock.expiresAt), lock.heldBy, tsExpired));
      var _ := core.locks.Delete(r);
      var moved := stateMachine.ApplyCoreTransition(r, ride, Compensating);
      var excluded := Parse(moved.excluded);
      excluded := excluded + [lock.heldBy];
      moved := moved.(excluded := Some(Join(excluded)), auction := AuctionStatus.Open, closedAt := None);
      core.rides.Save(r, moved);
      var tsPub := core.clock.Tick();
      core.broker.Publish(AuctionRequest(r, tsPub, AUCTION_TIMEOUT_COMPENSATION, excluded), up);
      if up {
        var _ := core.clock.Tick();
      }
    }

    /** One sweep.  `up` says for which rides the broker takes the message; `ops` are the loop
        iterations, which name every expired lease once. */
    method Sweep(up: RideId -> bool) returns (ghost ops: seq<Op>)
      requires core.Valid() && stateMachine.core == core
      modifies core.clock, core.rides, core.locks, core.audit, core.broker, core.breakers,
               core.breakers.repr
      ensures core.Valid() && fresh(core.breakers.repr - old(core.breakers.repr))
      ensures SweepOf(old(core.Snapshot()), ops)
      ensures core.Snapshot() == Run(old(core.Snapshot()), ops)
    {
      ghost var s := core.Snapshot();
      var rows := core.locks.ListExpired(core.now);
      HandleAll(rows, up);
      ops := Iterations(rows, up);
      NamesRows(s, rows, ops);
    }

    /** The loop over the rows that were read. */
    method HandleAll(rows: seq<LockRow>, up: RideId -> bool)
      requires core.Valid() && stateMachine.core == core
      requires StillThere(core.Snapshot(), rows)
      requires forall row <- rows :: row.lock.expiresAt <= core.now
      requires forall i, j | 0 <= i < j < |rows| :: rows[i].ride != rows[j].ride
      modifies core.clock, core.rides, core.locks, core.audit, core.broker, core.breakers,
               core.breakers.repr
      ensures core.Valid() && fresh(core.breakers.repr - old(core.breakers.repr))
      ensures core.Snapshot() == Run(old(core.Snapshot()), Iterations(rows, up))
    {
      ghost var s := core.Snapshot();
      for i := 0 to |rows|
        invariant core.Valid() && fresh(core.breakers.repr - old(core.breakers.repr))
        invariant core.Snapshot() == Run(s, Iterations(rows[..i], up))
        invariant StillThere(core.Snapshot(), rows[i..])
      {
        var row := rows[i];
        ghost var before := core.Snapshot();
        assert rows[i..] == [row] + rows[i + 1..] && row in rows;
        RowsStay(before, row, rows[i + 1..], up(row.ride));
        IterationsStep(s, rows, i, up);
        CurrentRowIsExpire(before, row, up(row.ride));
        Handle(row, up(row.ride));
        assert core.Snapshot() == Apply(before, Expire(row.ride, up(row.ride)));
      }
      assert rows[..|rows|] == rows;
    }
  }

  /** The loop iterations for `rows`. */
  ghost function Iterations(rows: seq<LockRow>, up: RideId -> bool): seq<Op> {
    seq(|rows|, i requires 0 <= i < |rows| => Expire(rows[i].ride, up(rows[i].ride)))
  }

  lemma IterationsStep(s: State, rows: seq<LockRow>, i: nat, up: RideId -> bool)
    requires i < |rows|
    ensures Run(s, Iterations(rows[..i + 1], up)) ==
            Apply(Run(s, Iterations(rows[..i], up)), Expire(rows[i].ride, up(rows[i].ride)))
  {
    var op := Expire(rows[i].ride, up(rows[i].ride));
    assert Iterations(rows[..i + 1], up) == Iterations(rows[..i], up) + [op];
    RunStep(s, Iterations(rows[..i], up), op);
  }

  // ---- The steps, written out as tables --------------------------------------------------

  lemma DropStep(s: State, r: RideId, up: bool)
    requires r in s.locks && s.locks[r].expiresAt <= s.now
    requires r in s.rides ==> Terminal(s.rides[r].status) || s.rides[r].status.Compensating?
    ensures Apply(s, Expire(r, up)) == s.(locks := s.locks - {r})
  {
    RowUnchanged(s, r);
    assert s.audit + [] == s.audit;
  }

  /** The state after the lapse of `lock`, as listed, on ride `r`. */
  function Lapsing(s: State, r: RideId, lock: Lock, up: bool): State
    requires r in s.rides
  {
    var ride := s.rides[r];
    s.(rides := s.rides[r := LapsedRide(ride, lock.heldBy, s.clock + 2)],
       locks := s.locks - {r},
       audit := s.audit + LapseEvents(r, ride, lock, s.clock + 1, s.clock + 2),
       requests := s.requests +
         (if up then [AuctionRequest(r, s.clock + 3, AUCTION_TIMEOUT_COMPENSATION, Excluding(ride, lock.heldBy))]
          else []),
       breakers := UseBreaker(s.breakers, lock.heldBy, Fault, s.now),
       clock := if up then s.clock + 4 else s.clock + 3)
  }

  /** The state after one iteration for `row`. */
  function Handled(s: State, row: LockRow, up: bool): State {
    if row.ride in s.rides && Live(s.rides[row.ride].status)
    then Lapsing(s, row.ride, row.lock, up)
    else s.(locks := s.locks - {row.ride})
  }

  lemma LapseStep(s: State, r: RideId, up: bool)
    requires r in s.locks && s.locks[r].expiresAt <= s.now && r in s.rides && Live(s.rides[r].status)
    ensures Apply(s, Expire(r, up)) == Lapsing(s, r, s.locks[r], up)
  {
    LapseDecision(ViewOf(s, r), r, s.clock, s.now, up);
    var m := ExpireDecision(s, r, up).move;
    CommitLapsed(s, r, s.clock + 1, s.clock + 2, m.request);
    assert s.requests + [] == s.requests;
  }

  /** A row that is still as it was listed is handled as an `Expire` step. */
  lemma CurrentRowIsExpire(s: State, row: LockRow, up: bool)
    requires row.ride in s.locks && s.locks[row.ride] == row.lock && row.lock.expiresAt <= s.now
    ensures Handled(s, row, up) == Apply(s, Expire(row.ride, up))
  {
    if row.ride in s.rides && Live(s.rides[row.ride].status) {
      LapseStep(s, row.ride, up);
    } else {
      DropStep(s, row.ride, up);
    }
  }

  /** Why a sweep has to be one step: an iteration for a row that its holder renewed after it was listed
      still takes the lease away and compensates the ride, although an `Expire` step would not. */
  lemma StaleRowTakesRenewedLease(s: State, row: LockRow, ttl: nat, up: bool)
    requires row.ride in s.rides && Live(s.rides[row.ride].status)
    requires row.ride in s.locks && s.locks[row.ride] == row.lock && ttl > 0
    ensures var t := Apply(s, Acquire(row.ride, row.lock.heldBy, ttl));
            && Get(t.locks, row.ride) == Some(Lock(row.lock.heldBy, s.now + ttl * SECOND))
            && Apply(t, Expire(row.ride, up)) == t
            && row.ride !in Handled(t, row, up).locks
            && Get(Handled(t, row, up).rides, row.ride).Some?
            && Handled(t, row, up).rides[row.ride].status.Compensating?
  {
    AcquireStep(s, row.ride, row.lock.heldBy, ttl);
    CommitIdle(Apply(s, Acquire(row.ride, row.lock.heldBy, ttl)), row.ride);
  }

  lemma ExpireKeepsOtherLocks(s: State, r: RideId, up: bool)
    ensures forall x <- s.locks | x != r ::
              x in Apply(s, Expire(r, up)).locks && Apply(s, Expire(r, up)).locks[x] == s.locks[x]
    ensures Apply(s, Expire(r, up)).now == s.now
  {
  }

  /** The rows read at the start of the sweep are still in the table as they were. */
  ghost predicate StillThere(s: State, rows: seq<LockRow>) {
    forall row <- rows :: row.ride in s.locks && s.locks[row.ride] == row.lock
  }

  lemma RowsStay(s: State, row: LockRow, rest: seq<LockRow>, up: bool)
    requires StillThere(s, [row] + rest) && forall other <- rest :: other.ride != row.ride
    ensures row.ride in s.locks && s.locks[row.ride] == row.lock
    ensures StillThere(Apply(s, Expire(row.ride, up)), rest)
    ensures Apply(s, Expire(row.ride, up)).now == s.now
  {
    assert row in [row] + rest;
    ExpireKeepsOtherLocks(s, row.ride, up);
    forall other | other in rest
      ensures other.ride in Apply(s, Expire(row.ride, up)).locks
      ensures Apply(s, Expire(row.ride, up)).locks[other.ride] == other.lock
    {
      assert other in [row] + rest;
    }
  }

  lemma NamesRows(s: State, rows: seq<LockRow>, ops: seq<Op>)
    requires forall row <- rows :: row.ride in s.locks && s.locks[row.ride] == row.lock && row.lock.expiresAt <= s.now
    requires forall r <- s.locks | s.locks[r].expiresAt <= s.now :: LockRow(r, s.locks[r]) in rows
    requires forall i, j | 0 <= i < j < |rows| :: rows[i].ride != rows[j].ride
    requires |ops| == |rows| && forall k | 0 <= k < |ops| :: ops[k].Expire? && ops[k].ride == rows[k].ride
    ensures SweepOf(s, ops)
  {
    forall r
      ensures Expired(s, r) <==> Names(ops, r)
    {
      if Expired(s, r) {
        var k :| 0 <= k < |rows| && rows[k] == LockRow(r, s.locks[r]);
        assert ops[k] in ops && ops[k].ride == r;
      }
      if Names(ops, r) {
        var k :| 0 <= k < |ops| && ops[k].ride == r;
        assert rows[k] in rows;
      }
    }
  }
}
