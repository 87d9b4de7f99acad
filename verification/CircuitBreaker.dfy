/**
  The lazy circuit breaker kept for every group, and the manager that hands breakers out.

  Times are microseconds on one wall clock.  The value functions below say what one call
  does to a breaker; the classes are proved against them, and the second half of the
  module relates them to the whole history of calls.
*/
module CircuitBreakers {
  type Time = int

  datatype BreakerState = Closed | Open | HalfOpen

  datatype Limits = Limits(failureThreshold: int, recoveryTimeout: Time)

  datatype Breaker = Breaker(fails: nat, state: BreakerState, lastOpened: Time)

  const NEW_BREAKER := Breaker(0, BreakerState.Closed, 0)

  // ---- One call -----------------------------------------------------------

  /** Reading the state is what moves an open breaker to half-open. */
  function Observe(b: Breaker, lim: Limits, now: Time): Breaker {
    if b.state.Open? && now - b.lastOpened >= lim.recoveryTimeout then b.(state := HalfOpen) else b
  }

  predicate Admits(b: Breaker, lim: Limits, now: Time) {
    !Observe(b, lim, now).state.Open?
  }

  /** Uses the stored state, not the observed one. */
  function Fail(b: Breaker, lim: Limits, now: Time): Breaker {
    if (b.fails + 1 > lim.failureThreshold && b.state.Closed?) || b.state.HalfOpen?
    then Breaker(b.fails + 1, Open, now)
    else b.(fails := b.fails + 1)
  }

  function Succeed(b: Breaker): Breaker {
    b.(fails := 0, state := Closed)
  }

  class CircuitBreaker {
    const limits: Limits
    var failCounter: nat
    var state: BreakerState
    var lastTimeOpened: Time

    constructor (limits: Limits)
      ensures this.limits == limits && Value() == NEW_BREAKER
    {
      this.limits := limits;
      failCounter, state, lastTimeOpened := 0, BreakerState.Closed, 0;
    }

    function Value(): Breaker
      reads this
    {
      Breaker(failCounter, state, lastTimeOpened)
    }

    method State(now: Time) returns (current: BreakerState)
      modifies this
      ensures Value() == Observe(old(Value()), limits, now) && current == state
    {
      if state == BreakerState.Open {
        var gap := now - lastTimeOpened;
        if gap >= limits.recoveryTimeout {
          state := HalfOpen;
        }
      }
      current := state;
    }

    method FailIncrement(now: Time)
      modifies this
      ensures Value() == Fail(old(Value()), limits, now)
      ensures old(state) == HalfOpen ==> state == BreakerState.Open && lastTimeOpened == now
    {
      failCounter := failCounter + 1;
      if (failCounter > limits.failureThreshold && state == BreakerState.Closed) || state == HalfOpen {
        state := BreakerState.Open;
        lastTimeOpened := now;
      }
    }

    method CheckState(now: Time) returns (admitted: bool)
      modifies this
      ensures Value() == Observe(old(Value()), limits, now)
      ensures admitted == Admits(old(Value()), limits, now)
    {
      var current := State(now);
      admitted := current in {BreakerState.Closed, HalfOpen};
    }

    method Success()
      modifies this
      ensures Value() == Succeed(old(Value()))
    {
      failCounter := 0;
      state := BreakerState.Closed;
    }
  }

  // ---- The manager --------------------------------------------------------

  type BreakerTable = map<string, Breaker>

  /** A group without an entry behaves like a new breaker. */
  function Lookup(table: BreakerTable, group: string): Breaker {
    if group in table then table[group] else NEW_BREAKER
  }

  class CircuitBreakerManager {
    const limits: Limits
    var breakers: map<string, CircuitBreaker>
    /** The values of all breakers. */
    ghost var table: BreakerTable
    /** The breaker objects handed out so far. */
    ghost var repr: set<CircuitBreaker>

    constructor (limits: Limits)
      ensures this.limits == limits && Valid() && table == map[]
      ensures breakers == map[] && repr == {}
    {
      this.limits := limits;
      breakers := map[];
      table := map[];
      repr := {};
    }

    /** One breaker object per group, all under the manager's limits. */
    ghost predicate Valid()
      reads this, repr
    {
      && table.Keys == breakers.Keys
      && (forall g <- breakers ::
            breakers[g] in repr && breakers[g].limits == limits && table[g] == breakers[g].Value())
      && (forall g, h | g in breakers && h in breakers && breakers[g] == breakers[h] :: g == h)
    }

    method GetBreaker(group: string) returns (b: CircuitBreaker)
      requires Valid()
      modifies this
      ensures Valid() && group in breakers && breakers[group] == b
      ensures fresh(repr - old(repr))
      ensures table == old(table)[group := Lookup(old(table), group)]
    {
      if group !in breakers {
        b := new CircuitBreaker(limits);
        breakers := breakers[group := b];
        table := table[group := NEW_BREAKER];
        repr := repr + {b};
      }
      b := breakers[group];
    }

    method CheckState(group: string, now: Time) returns (admitted: bool)
      requires Valid()
      modifies this, repr
      ensures Valid() && fresh(repr - old(repr))
      ensures admitted == Admits(Lookup(old(table), group), limits, now)
      ensures table == old(table)[group := Observe(Lookup(old(table), group), limits, now)]
    {
      var b := GetBreaker(group);
      admitted := b.CheckState(now);
      table := table[group := b.Value()];
    }

    method FailIncrement(group: string, now: Time)
      requires Valid()
      modifies this, repr
      ensures Valid() && fresh(repr - old(repr))
      ensures table == old(table)[group := Fail(Lookup(old(table), group), limits, now)]
    {
      var b := GetBreaker(group);
      b.FailIncrement(now);
      table := table[group := b.Value()];
    }

    method Success(group: string)
      requires Valid()
      modifies this, repr
      ensures Valid() && fresh(repr - old(repr))
      ensures table == old(table)[group := Succeed(Lookup(old(table), group))]
    {
      var b := GetBreaker(group);
      b.Success();
      table := table[group := b.Value()];
    }
  }

  // ---- Whole histories ----------------------------------------------------

  datatype Call = Check(at: Time) | Failure(at: Time) | Success(at: Time)

  function After(b: Breaker, lim: Limits, call: Call): Breaker {
    match call
    case Check(at) => Observe(b, lim, at)
    case Failure(at) => Fail(b, lim, at)
    case Success(_) => Succeed(b)
  }

  /** The breaker that a history of calls leaves behind. */
  function Replay(lim: Limits, calls: seq<Call>): Breaker {
    if calls == [] then NEW_BREAKER
    else After(Replay(lim, calls[..|calls| - 1]), lim, calls[|calls| - 1])
  }

  function FailuresSinceSuccess(calls: seq<Call>): nat {
    if calls == [] then 0
    else
      match calls[|calls| - 1]
      case Success(_) => 0
      case Failure(_) => FailuresSinceSuccess(calls[..|calls| - 1]) + 1
      case Check(_) => FailuresSinceSuccess(calls[..|calls| - 1])
  }

  /** The breaker is closed exactly while the failures since the last success have not
      exceeded the threshold: it opens on failure number threshold + 1. */
  lemma {:induction false} ClosedIffFewFailures(lim: Limits, calls: seq<Call>)
    ensures Replay(lim, calls).fails == FailuresSinceSuccess(calls)
    ensures Replay(lim, calls).state.Closed? <==>
            FailuresSinceSuccess(calls) == 0 || FailuresSinceSuccess(calls) <= lim.failureThreshold
  {
    if calls != [] {
      ClosedIffFewFailures(lim, calls[..|calls| - 1]);
    }
  }

  /** An open breaker was opened by a failure at the time it remembers, with no success since. */
  lemma {:induction false} OpenedByFailure(lim: Limits, calls: seq<Call>) returns (k: nat)
    requires !Replay(lim, calls).state.Closed?
    ensures k < |calls| && calls[k] == Failure(Replay(lim, calls).lastOpened)
    ensures forall j | k < j < |calls| :: !calls[j].Success?
  {
    var before := calls[..|calls| - 1];
    var last := calls[|calls| - 1];
    if last.Failure? && Replay(lim, calls).lastOpened == last.at {
      k := |calls| - 1;
    } else {
      k := OpenedByFailure(lim, before);
    }
  }

  /** From an opening on, without a success and before any check past the recovery time,
      nothing moves the opening time (not even further failures), and a check is admitted
      exactly when the recovery time has elapsed. */
  lemma {:induction false} RefusedUntilRecovery(lim: Limits, calls: seq<Call>, more: seq<Call>, now: Time)
    requires Replay(lim, calls).state.Open?
    requires forall c <- more :: !c.Success?
    requires forall c <- more ::
               c.Check? ==> c.at < Replay(lim, calls).lastOpened + lim.recoveryTimeout
    ensures Replay(lim, calls + more).state.Open?
    ensures Replay(lim, calls + more).lastOpened == Replay(lim, calls).lastOpened
    ensures Admits(Replay(lim, calls + more), lim, now) <==>
            now >= Replay(lim, calls).lastOpened + lim.recoveryTimeout
  {
    if more == [] {
      assert calls + more == calls;
    } else {
      var whole := calls + more;
      assert whole[..|whole| - 1] == calls + more[..|more| - 1];
      assert more[|more| - 1] in more;
      RefusedUntilRecovery(lim, calls, more[..|more| - 1], now);
    }
  }

  /** A failure of the trial call opens a half-open breaker again, at the time of that failure and
      whatever the counter says. */
  lemma TrialFailureReopens(lim: Limits, calls: seq<Call>, at: Time)
    requires Replay(lim, calls).state.HalfOpen?
    ensures Replay(lim, calls + [Failure(at)]).state.Open?
    ensures Replay(lim, calls + [Failure(at)]).lastOpened == at
    ensures !Admits(Replay(lim, calls + [Failure(at)]), lim, at) <==> lim.recoveryTimeout > 0
  {
    assert (calls + [Failure(at)])[..|calls|] == calls;
  }

  /** The first check at or past the recovery time lets a trial call through. */
  lemma TrialAdmitted(lim: Limits, calls: seq<Call>, at: Time)
    requires Replay(lim, calls).state.Open? && at >= Replay(lim, calls).lastOpened + lim.recoveryTimeout
    ensures Admits(Replay(lim, calls), lim, at)
    ensures Replay(lim, calls + [Check(at)]).state.HalfOpen?
  {
    assert (calls + [Check(at)])[..|calls|] == calls;
  }

  /** An opening, a trial call at or past the recovery time that fails at `failedAt`: as long as no success
      follows and no check comes after the second recovery time, checks are refused until then. */
  lemma FailedTrialShutsOut(lim: Limits, calls: seq<Call>, checkedAt: Time, failedAt: Time, more: seq<Call>, now: Time)
    requires Replay(lim, calls).state.Open? && checkedAt >= Replay(lim, calls).lastOpened + lim.recoveryTimeout
    requires forall c <- more :: !c.Success? && (c.Check? ==> c.at < failedAt + lim.recoveryTimeout)
    ensures Admits(Replay(lim, calls + [Check(checkedAt)] + [Failure(failedAt)] + more), lim, now) <==>
            now >= failedAt + lim.recoveryTimeout
  {
    TrialAdmitted(lim, calls, checkedAt);
    TrialFailureReopens(lim, calls + [Check(checkedAt)], failedAt);
    RefusedUntilRecovery(lim, calls + [Check(checkedAt)] + [Failure(failedAt)], more, now);
  }

  /** Calls in time order: every check before the recovery time is refused. */
  lemma ChecksRefusedInOrder(lim: Limits, calls: seq<Call>, more: seq<Call>, k: nat)
    requires Replay(lim, calls).state.Open?
    requires forall c <- more :: !c.Success?
    requires forall i, j | 0 <= i < j < |more| :: more[i].at <= more[j].at
    requires k < |more| && more[k].at < Replay(lim, calls).lastOpened + lim.recoveryTimeout
    ensures !Admits(Replay(lim, calls + more[..k]), lim, more[k].at)
  {
    RefusedUntilRecovery(lim, calls, more[..k], more[k].at);
  }

  /** With the deployed threshold of two, two failures leave the breaker closed; the third opens it. */
  lemma OpensOnThirdFailure(recovery: Time, a: Time, b: Time, c: Time)
    ensures Replay(Limits(2, recovery), [Failure(a), Failure(b)]).state.Closed?
    ensures Replay(Limits(2, recovery), [Failure(a), Failure(b), Failure(c)]) == Breaker(3, Open, c)
  {
    var lim := Limits(2, recovery);
    assert [Failure(a), Failure(b), Failure(c)][..2] == [Failure(a), Failure(b)];
    assert [Failure(a), Failure(b)][..1] == [Failure(a)];
    assert [Failure(a)][..0] == [];
    assert Replay(lim, [Failure(a)]) == Fail(NEW_BREAKER, lim, a);
    assert Replay(lim, [Failure(a), Failure(b)]) == Fail(Fail(NEW_BREAKER, lim, a), lim, b);
  }
}
