/** The tables, the queue and the queries over them. */
module Repositories {
  import opened Wrappers
  import opened CircuitBreakers
  import opened Auctions
  import opened RideModel
  import opened AuditTrail

  class RideRepository {
    var rides: map<RideId, Ride>

    constructor ()
      ensures rides == map[]
    {
      rides := map[];
    }

    function FindByUuid(r: RideId): Option<Ride>
      reads this
    {
      if r in rides then Some(rides[r]) else None
    }

    method Save(r: RideId, ride: Ride)
      modifies this
      ensures rides == old(rides)[r := ride]
    {
      rides := rides[r := ride];
    }
  }

  datatype LockRow = LockRow(ride: RideId, lock: Lock)

  class LockRepository {
    var locks: map<RideId, Lock>

    constructor ()
      ensures locks == map[]
    {
      locks := map[];
    }

    function FindByRide(r: RideId): Option<Lock>
      reads this
    {
      if r in locks then Some(locks[r]) else None
    }

    /** At most one lease per ride: an existing row is overwritten whoever holds it. */
    method CreateOrRenew(r: RideId, service: GroupId, expiresAt: Time)
      modifies this
      ensures locks == old(locks)[r := Lock(service, expiresAt)]
    {
      var found := FindByRide(r);
      if found.Some? {
        locks := locks[r := found.value.(heldBy := service, expiresAt := expiresAt)];
      } else {
        locks := locks[r := Lock(service, expiresAt)];
      }
    }

    method Delete(r: RideId) returns (existed: bool)
      modifies this
      ensures existed == (r in old(locks))
      ensures locks == old(locks) - {r}
    {
      existed := r in locks;
      if existed {
        locks := locks - {r};
      }
    }

    /** Every expired row once, in no particular order. */
    method ListExpired(now: Time) returns (rows: seq<LockRow>)
      ensures forall row <- rows :: row.ride in locks && locks[row.ride] == row.lock && row.lock.expiresAt <= now
      ensures forall r <- locks | locks[r].expiresAt <= now :: LockRow(r, locks[r]) in rows
      ensures forall i, j | 0 <= i < j < |rows| :: rows[i].ride != rows[j].ride
    {
      rows := [];
      var left := locks.Keys;
      while left != {}
        invariant left <= locks.Keys
        invariant forall row <- rows ::
                    && row.ride in locks && row.ride !in left
                    && locks[row.ride] == row.lock && row.lock.expiresAt <= now
        invariant forall r <- locks | locks[r].expiresAt <= now && r !in left :: LockRow(r, locks[r]) in rows
        invariant forall i, j | 0 <= i < j < |rows| :: rows[i].ride != rows[j].ride
        decreases |left|
      {
        var r :| r in left;
        left := left - {r};
        if locks[r].expiresAt <= now {
          assert forall row <- rows :: row.ride != r;
          rows := rows + [LockRow(r, locks[r])];
        }
      }
    }
  }

  datatype Found = NoRow | OneRow | ManyRows

  class AuditRepository {
    var events: seq<Event>

    constructor ()
      ensures events == []
    {
      events := [];
    }

    method Record(e: Event)
      modifies this
      ensures events == old(events) + [e]
    {
      events := events + [e];
    }

    /** The idempotence query; `scalar_one_or_none` fails on several rows. */
    method FindIdempotent(r: RideId, service: GroupId, clientTs: nat) returns (found: Found)
      ensures var n := Resubmissions(RideLog(events, r), service, clientTs);
              found == if n == 0 then NoRow else if n == 1 then OneRow else ManyRows
    {
      var rows := 0;
      for i := 0 to |events|
        invariant rows == Resubmissions(RideLog(events[..i], r), service, clientTs)
      {
        var e := events[i];
        assert events[..i + 1] == events[..i] + [e];
        RideLogAppend(events[..i], e, r);
        if e.ride == r {
          ResubmissionsAppend(RideLog(events[..i], r), e, service, clientTs);
          if IsPatchBy(e, service, clientTs) {
            rows := rows + 1;
          }
        } else {
          assert RideLog(events[..i], r) + [] == RideLog(events[..i], r);
        }
      }
      assert events[..|events|] == events;
      found := if rows == 0 then NoRow else if rows == 1 then OneRow else ManyRows;
    }

    /** The ride's events, `ORDER BY logical_timestamp`. */
    method ListByRide(r: RideId) returns (listed: seq<Event>)
      ensures SortedByTs(listed)
      ensures multiset(listed) == multiset(RideLog(events, r))
    {
      listed := [];
      for i := 0 to |events|
        invariant SortedByTs(listed)
        invariant multiset(listed) == multiset(RideLog(events[..i], r))
      {
        var e := events[i];
        assert events[..i + 1] == events[..i] + [e];
        RideLogAppend(events[..i], e, r);
        if e.ride == r {
          listed := InsertByTs(listed, e);
        }
      }
      assert events[..|events|] == events;
    }

    static method InsertByTs(listed: seq<Event>, e: Event) returns (grown: seq<Event>)
      requires SortedByTs(listed)
      ensures SortedByTs(grown)
      ensures multiset(grown) == multiset(listed) + multiset{e}
    {
      var k := |listed|;
      while k > 0 && listed[k - 1].ts > e.ts
        invariant 0 <= k <= |listed|
        invariant forall j | k <= j < |listed| :: e.ts < listed[j].ts
      {
        k := k - 1;
      }
      InsertionKeepsOrder(listed, k, e);
      InsertionKeepsElements(listed, k, e);
      grown := listed[..k] + [e] + listed[k..];
    }

    static lemma InsertionKeepsOrder(listed: seq<Event>, k: nat, e: Event)
      requires SortedByTs(listed) && k <= |listed|
      requires k > 0 ==> listed[k - 1].ts <= e.ts
      requires forall j | k <= j < |listed| :: e.ts < listed[j].ts
      ensures SortedByTs(listed[..k] + [e] + listed[k..])
    {
      var grown := listed[..k] + [e] + listed[k..];
      assert forall i | 0 <= i < |grown| ::
          grown[i] == if i < k then listed[i] else if i == k then e else listed[i - 1];
      assert forall i | 0 <= i < k :: listed[i].ts <= e.ts;
    }

    static lemma InsertionKeepsElements(listed: seq<Event>, k: nat, e: Event)
      requires k <= |listed|
      ensures multiset(listed[..k] + [e] + listed[k..]) == multiset(listed) + multiset{e}
    {
      assert listed == listed[..k] + listed[k..];
    }
  }

  class ProposalRepository {
    var proposals: seq<StoredProposal>

    constructor ()
      ensures proposals == []
    {
      proposals := [];
    }

    method CreateMany(r: RideId, round: seq<Proposal>)
      modifies this
      ensures proposals == old(proposals) + Stored(r, round)
    {
      for i := 0 to |round|
        invariant proposals == old(proposals) + Stored(r, round[..i])
      {
        proposals := proposals + [StoredProposal(r, round[i])];
      }
      assert round[..|round|] == round;
    }
  }

  class GroupRepository {
    var groups: seq<GroupId>

    constructor ()
      ensures groups == []
    {
      groups := [];
    }

    /** `registrar_grupo`: registering a known group again keeps its row. */
    method Register(g: GroupId)
      modifies this
      ensures groups == if ValidGroupId(g) && g !in old(groups) then old(groups) + [g] else old(groups)
    {
      if ValidGroupId(g) && g !in groups {
        groups := groups + [g];
      }
    }
  }

  /** The `auction_request` queue: messages in publication order, and those acknowledged. */
  class Broker {
    var requests: seq<AuctionRequest>
    var acked: set<nat>

    constructor ()
      ensures requests == [] && acked == {}
    {
      requests, acked := [], {};
    }

    /** `up` says whether the broker takes the message. */
    method Publish(q: AuctionRequest, up: bool)
      modifies this
      ensures requests == old(requests) + (if up then [q] else []) && acked == old(acked)
    {
      if up {
        requests := requests + [q];
      }
    }

    method Ack(index: nat)
      modifies this
      ensures acked == old(acked) + {index} && requests == old(requests)
    {
      acked := acked + {index};
    }
  }
}
