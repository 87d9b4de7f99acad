/** What a round amounts to, in terms of the groups' answers alone. */
module AuctionOutcomes {
  import opened Wrappers
  import opened CircuitBreakers
  import opened Auctions

  // ---- The order of bids ---------------------------------------------------------------

  /** `a` comes before `b` alphabetically: at the first position where they differ `b` goes on
      and `a` stops or has the smaller code point. */
  ghost predicate Before(a: string, b: string) {
    exists k :: DiffersAt(a, b, k)
  }

  ghost predicate DiffersAt(a: string, b: string, k: int) {
    0 <= k <= |a| && k < |b| && a[..k] == b[..k] && (k == |a| || a[k] < b[k])
  }

  lemma DiffersInRest(a: string, b: string, k: nat)
    requires a != "" && b != "" && a[0] == b[0]
    ensures DiffersAt(a[1..], b[1..], k) <==> DiffersAt(a, b, k + 1)
  {
    if k + 1 <= |a| && k + 1 <= |b| {
      assert a[..k + 1] == [a[0]] + a[1..][..k] && b[..k + 1] == [b[0]] + b[1..][..k];
      assert a[1..][..k] == a[..k + 1][1..] && b[1..][..k] == b[..k + 1][1..];
    }
  }

  lemma DiffersAtStart(a: string, b: string)
    ensures DiffersAt(a, b, 0) <==> b != "" && (a == "" || a[0] < b[0])
  {
    if b != "" {
      assert a[..0] == b[..0] == "";
    }
  }

  lemma NoLaterDifference(a: string, b: string, k: nat)
    requires DiffersAt(a, b, k) && k > 0
    ensures a != "" && b != "" && a[0] == b[0]
  {
    assert a[..k][0] == b[..k][0];
  }

  lemma {:induction false} TextLessIsBefore(a: string, b: string)
    ensures TextLess(a, b) <==> Before(a, b)
  {
    DiffersAtStart(a, b);
    if a != "" && b != "" && a[0] == b[0] {
      TextLessIsBefore(a[1..], b[1..]);
      if Before(a[1..], b[1..]) {
        var k :| DiffersAt(a[1..], b[1..], k);
        DiffersInRest(a, b, k);
      }
    }
    if Before(a, b) {
      var k :| DiffersAt(a, b, k);
      if k > 0 {
        NoLaterDifference(a, b, k);
        DiffersInRest(a, b, k - 1);
      }
    }
  }

  /** The winner has the lowest price; among those the lowest ETA; among those the first group id.
      A missing price or ETA comes last. */
  lemma WinnerIsCheapest(ps: seq<Proposal>, w: Proposal, p: Proposal)
    requires SelectWinner(ps) == Some(w) && p in ps
    ensures p.price.Some? ==> w.price.Some? && w.price.value <= p.price.value
    ensures p.price == w.price && p.eta.Some? ==> w.eta.Some? && w.eta.value <= p.eta.value
    ensures p.price == w.price && p.eta == w.eta ==> !Before(p.group, w.group)
  {
    WinnerIsLeast(ps);
    TextLessIsBefore(p.group, w.group);
  }

  /** `p` ranks before `q`: lower price, or the same price and lower ETA, or both the same and the
      earlier group id, where a missing price or ETA comes last. */
  ghost predicate Ranks(p: Proposal, q: Proposal) {
    || (p.price.Some? && q.price.None?)
    || (p.price.Some? && q.price.Some? && p.price.value < q.price.value)
    || (p.price == q.price && p.eta.Some? && q.eta.None?)
    || (p.price == q.price && p.eta.Some? && q.eta.Some? && p.eta.value < q.eta.value)
    || (p.price == q.price && p.eta == q.eta && Before(p.group, q.group))
  }

  /** With distinct groups a proposal is selected exactly when it ranks before every other one. */
  lemma SelectedIffFirst(ps: seq<Proposal>, w: Proposal)
    requires DistinctGroups(ps) && w in ps
    ensures SelectWinner(ps) == Some(w) <==> forall p <- ps :: p == w || Ranks(w, p)
  {
    WinnerIsUniqueMinimum(ps, w);
    forall p | p in ps
      ensures Better(w, p) <==> Ranks(w, p)
    {
      TextLessIsBefore(w.group, p.group);
    }
  }

  // ---- Bids ----------------------------------------------------------------------------

  /** The group is registered, is neither the origin nor excluded, is let through by its breaker, and
      made an offer with an ETA of at least one and a price that is not negative. */
  ghost predicate Bids(g: GroupId, groups: seq<GroupId>, origin: GroupId, excluded: seq<GroupId>,
                       table: BreakerTable, lim: Limits, now: Time, answers: map<GroupId, Answer>)
  {
    && Invited(g, groups, origin, excluded, table, lim, now)
    && g in answers && answers[g].Offer?
    && answers[g].eta.Some? && answers[g].eta.value >= 1
    && answers[g].price.Some? && answers[g].price.value >= 0.0
  }

  /** The offer `a` of group `g` is better than the offer `b` of group `h`. */
  ghost predicate Beats(a: Answer, g: GroupId, b: Answer, h: GroupId)
    requires a.Offer? && a.eta.Some? && a.price.Some? && b.Offer? && b.eta.Some? && b.price.Some?
  {
    || a.price.value < b.price.value
    || (a.price.value == b.price.value && a.eta.value < b.eta.value)
    || (a.price.value == b.price.value && a.eta.value == b.eta.value && Before(g, h))
  }

  lemma BetterIsBeats(g: GroupId, h: GroupId, answers: map<GroupId, Answer>)
    requires Reply(g, answers).status.Accepted? && Reply(h, answers).status.Accepted?
    ensures Better(Reply(g, answers), Reply(h, answers)) <==> Beats(answers[g], g, answers[h], h)
  {
    TextLessIsBefore(g, h);
  }

  /** The accepted proposals of a round are the bids. */
  lemma AcceptedIsBid(groups: seq<GroupId>, origin: GroupId, excluded: seq<GroupId>, table: BreakerTable,
                      lim: Limits, now: Time, closeAt: Time, answers: map<GroupId, Answer>, p: Proposal)
    requires NoDuplicates(groups)
    ensures var s := Screen(groups, origin, excluded, table, lim, now);
            p in Classify(s.participants, answers, s.table, lim, closeAt).accepted <==>
            Bids(p.group, groups, origin, excluded, table, lim, now, answers) && p == Reply(p.group, answers)
  {
    var s := Screen(groups, origin, excluded, table, lim, now);
    ScreenAt(groups, origin, excluded, table, lim, now, p.group);
    ClassifyAccepted(s.participants, answers, s.table, lim, closeAt, p);
    ProposalOf(s.participants, answers, s.table, lim, closeAt, p);
  }

  /** Who wins a round: the group whose bid beats the bid of every other group. */
  lemma WinsIff(groups: seq<GroupId>, origin: GroupId, excluded: seq<GroupId>, table: BreakerTable,
                lim: Limits, now: Time, closeAt: Time, answers: map<GroupId, Answer>, w: GroupId)
    requires NoDuplicates(groups)
    ensures Conduct(groups, origin, excluded, table, lim, now, closeAt, answers).winner == Some(w) <==>
            && Bids(w, groups, origin, excluded, table, lim, now, answers)
            && forall g | Bids(g, groups, origin, excluded, table, lim, now, answers) ::
                 g == w || Beats(answers[w], w, answers[g], g)
  {
    var s := Screen(groups, origin, excluded, table, lim, now);
    var ps := Classify(s.participants, answers, s.table, lim, closeAt).accepted;
    ScreenDistinct(groups, origin, excluded, table, lim, now);
    AcceptedDistinct(s.participants, answers, s.table, lim, closeAt);
    forall p
      ensures p in ps <==>
              Bids(p.group, groups, origin, excluded, table, lim, now, answers) && p == Reply(p.group, answers)
    {
      AcceptedIsBid(groups, origin, excluded, table, lim, now, closeAt, answers, p);
    }
    if Bids(w, groups, origin, excluded, table, lim, now, answers) {
      var best := Reply(w, answers);
      assert best in ps;
      WinnerIsUniqueMinimum(ps, best);
      forall g | Bids(g, groups, origin, excluded, table, lim, now, answers)
        ensures Reply(g, answers) in ps
        ensures Better(best, Reply(g, answers)) <==> Beats(answers[w], w, answers[g], g)
      {
        BetterIsBeats(w, g, answers);
      }
      assert SelectWinner(ps) == Some(best) <==> SelectWinner(ps).Some? && SelectWinner(ps).value.group == w by {
        WinnerIsLeast(ps);
      }
    } else {
      WinnerIsLeast(ps);
    }
  }

  // ---- Counting and storing --------------------------------------------------------------

  lemma {:induction false} SizeOfDistinct(ps: seq<Proposal>, ids: set<GroupId>)
    requires DistinctGroups(ps)
    requires forall g :: g in ids <==> exists p <- ps :: p.group == g
    ensures |ids| == |ps|
  {
    if ps == [] {
      assert ids == {};
    } else {
      var before, last := ps[..|ps| - 1], ps[|ps| - 1];
      assert ps == before + [last] && last in ps;
      forall g
        ensures g in ids - {last.group} <==> exists p <- before :: p.group == g
      {
      }
      SizeOfDistinct(before, ids - {last.group});
    }
  }

  /** The number of proposals reported at the closing is the number of bids. */
  lemma CountIsBids(groups: seq<GroupId>, origin: GroupId, excluded: seq<GroupId>, table: BreakerTable,
                    lim: Limits, now: Time, closeAt: Time, answers: map<GroupId, Answer>)
    requires NoDuplicates(groups)
    ensures Conduct(groups, origin, excluded, table, lim, now, closeAt, answers).acceptedCount ==
            |set g | g in groups && Bids(g, groups, origin, excluded, table, lim, now, answers)|
  {
    var s := Screen(groups, origin, excluded, table, lim, now);
    var ps := Classify(s.participants, answers, s.table, lim, closeAt).accepted;
    ScreenDistinct(groups, origin, excluded, table, lim, now);
    AcceptedDistinct(s.participants, answers, s.table, lim, closeAt);
    var ids := set g | g in groups && Bids(g, groups, origin, excluded, table, lim, now, answers);
    forall g
      ensures g in ids <==> exists p <- ps :: p.group == g
    {
      AcceptedIsBid(groups, origin, excluded, table, lim, now, closeAt, answers, Reply(g, answers));
      if p :| p in ps && p.group == g {
        AcceptedIsBid(groups, origin, excluded, table, lim, now, closeAt, answers, p);
      }
    }
    SizeOfDistinct(ps, ids);
  }

  /** What is stored of a round: one proposal per invited group, as it replied, and flagged for the winner. */
  lemma StoredIff(groups: seq<GroupId>, origin: GroupId, excluded: seq<GroupId>, table: BreakerTable,
                  lim: Limits, now: Time, closeAt: Time, answers: map<GroupId, Answer>, p: Proposal)
    requires NoDuplicates(groups)
    ensures var r := Conduct(groups, origin, excluded, table, lim, now, closeAt, answers);
            p in r.proposals <==>
            && Invited(p.group, groups, origin, excluded, table, lim, now)
            && p == Reply(p.group, answers).(isWinner := r.winner == Some(p.group))
  {
    var s := Screen(groups, origin, excluded, table, lim, now);
    var c := Classify(s.participants, answers, s.table, lim, closeAt);
    var w := SelectWinner(c.accepted);
    FlagFacts(c.proposals, w);
    ScreenAt(groups, origin, excluded, table, lim, now, p.group);
    WinnerReplied(s.participants, answers, s.table, lim, closeAt);
    var plain := Reply(p.group, answers);
    ProposalOf(s.participants, answers, s.table, lim, closeAt, plain);
    if p in Flag(c.proposals, w) {
      var i :| 0 <= i < |c.proposals| && Flag(c.proposals, w)[i] == p;
      ProposalOf(s.participants, answers, s.table, lim, closeAt, c.proposals[i]);
    }
    if plain in c.proposals {
      var i :| 0 <= i < |c.proposals| && c.proposals[i] == plain;
      assert Flag(c.proposals, w)[i] in Flag(c.proposals, w);
    }
  }

  lemma WinnerReplied(ps: seq<GroupId>, answers: map<GroupId, Answer>, table: BreakerTable, lim: Limits, now: Time)
    ensures var w := SelectWinner(Classify(ps, answers, table, lim, now).accepted);
            w.Some? ==> w.value == Reply(w.value.group, answers)
  {
    var c := Classify(ps, answers, table, lim, now);
    WinnerIsLeast(c.accepted);
    if c.accepted != [] {
      var w := SelectWinner(c.accepted).value;
      ClassifyAccepted(ps, answers, table, lim, now, w);
      ProposalOf(ps, answers, table, lim, now, w);
    }
  }
}
