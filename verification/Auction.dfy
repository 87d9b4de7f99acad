/**
  One auction round: who is invited, how the answers are graded, and who wins.

  The HTTP fan-out is replaced by a map from group to answer; a group without an entry
  never answered.  Prices are exact reals.
*/
module Auctions {
  import opened Wrappers
  import opened CircuitBreakers

  type GroupId = string

  datatype ProposalStatus = Accepted | Passed | TimedOut | Errored

  datatype Proposal = Proposal(
    group: GroupId, status: ProposalStatus, eta: Option<int>, price: Option<real>, isWinner: bool)

  /** What the call to one group produced. */
  datatype Answer =
    | NoContent
    | Offer(eta: Option<int>, price: Option<real>)
    | OtherCode
    | Timeout
    | CallFailed
    | Raised

  datatype Rejection = EtaMissing | EtaBelowOne | PriceMissing | PriceNegative

  /** `_validar_proposta`. */
  function Validate(eta: Option<int>, price: Option<real>): (reason: Option<Rejection>)
    ensures reason.None? <==> eta.Some? && eta.value >= 1 && price.Some? && price.value >= 0.0
  {
    if eta.None? then Some(EtaMissing)
    else if eta.value < 1 then Some(EtaBelowOne)
    else if price.None? then Some(PriceMissing)
    else if price.value < 0.0 then Some(PriceNegative)
    else None
  }

  /** `_chamar_grupo`, together with the exception branch of the gather. */
  function Reply(group: GroupId, answers: map<GroupId, Answer>): (p: Proposal)
    ensures p.group == group && !p.isWinner
    ensures p.status.Accepted? <==>
              && group in answers && answers[group].Offer?
              && answers[group].eta.Some? && answers[group].eta.value >= 1
              && answers[group].price.Some? && answers[group].price.value >= 0.0
    ensures p.status.Passed? <==> group in answers && answers[group].NoContent?
    ensures p.status.TimedOut? <==> group !in answers || answers[group].Timeout?
    ensures p.status.Accepted? ==> p.eta == answers[group].eta && p.price == answers[group].price
    ensures !p.status.Accepted? ==> p.eta.None? && p.price.None?
  {
    var answer := if group in answers then answers[group] else Timeout;
    match answer
    case NoContent => Proposal(group, Passed, None, None, false)
    case Offer(eta, price) =>
      if Validate(eta, price).None? then Proposal(group, Accepted, eta, price, false)
      else Proposal(group, Errored, None, None, false)
    case Timeout => Proposal(group, TimedOut, None, None, false)
    case OtherCode => Proposal(group, Errored, None, None, false)
    case CallFailed => Proposal(group, Errored, None, None, false)
    case Raised => Proposal(group, Errored, None, None, false)
  }

  // ---- The ranking --------------------------------------------------------

  /** Alphabetical order by code point. */
  predicate TextLess(a: string, b: string) {
    b != "" && (a == "" || a[0] < b[0] || (a[0] == b[0] && TextLess(a[1..], b[1..])))
  }

  /** A missing price or ETA counts as infinity. */
  predicate PriceLess(a: Option<real>, b: Option<real>) {
    a.Some? && (b.None? || a.value < b.value)
  }

  predicate EtaLess(a: Option<int>, b: Option<int>) {
    a.Some? && (b.None? || a.value < b.value)
  }

  /** `p` has a smaller key than `q`: price, then ETA, then group. */
  predicate Better(p: Proposal, q: Proposal) {
    || PriceLess(p.price, q.price)
    || (p.price == q.price && EtaLess(p.eta, q.eta))
    || (p.price == q.price && p.eta == q.eta && TextLess(p.group, q.group))
  }

  /** `selecionar_vencedor`: the first proposal with the least key. */
  function SelectWinner(ps: seq<Proposal>): Option<Proposal> {
    if ps == [] then None
    else
      var last := ps[|ps| - 1];
      match SelectWinner(ps[..|ps| - 1])
      case None => Some(last)
      case Some(best) => if Better(last, best) then Some(last) else Some(best)
  }

  ghost predicate DistinctGroups(ps: seq<Proposal>) {
    forall i, j | 0 <= i < j < |ps| :: ps[i].group != ps[j].group
  }

  lemma {:induction false} TextLessTransitive(a: string, b: string, c: string)
    requires TextLess(a, b) && TextLess(b, c)
    ensures TextLess(a, c)
  {
    if a != "" && a[0] == b[0] == c[0] {
      TextLessTransitive(a[1..], b[1..], c[1..]);
    }
  }

  lemma {:induction false} TextLessTotal(a: string, b: string)
    ensures a == b || TextLess(a, b) || TextLess(b, a)
    ensures !(TextLess(a, b) && TextLess(b, a))
    ensures !TextLess(a, a)
  {
    if a != "" {
      TextLessTotal(a[1..], a[1..]);
      if b != "" {
        assert a == [a[0]] + a[1..] && b == [b[0]] + b[1..];
        TextLessTotal(a[1..], b[1..]);
      }
    }
  }

  lemma BetterTransitive(p: Proposal, q: Proposal, r: Proposal)
    requires Better(p, q) && Better(q, r)
    ensures Better(p, r)
  {
    if TextLess(p.group, q.group) && TextLess(q.group, r.group) {
      TextLessTransitive(p.group, q.group, r.group);
    }
  }

  lemma BetterDecides(p: Proposal, q: Proposal)
    ensures !(Better(p, q) && Better(q, p))
    ensures p.group != q.group ==> Better(p, q) || Better(q, p)
  {
    TextLessTotal(p.group, q.group);
  }

  lemma {:induction false} WinnerIsLeast(ps: seq<Proposal>)
    ensures SelectWinner(ps).None? <==> ps == []
    ensures ps != [] ==> SelectWinner(ps).value in ps
    ensures forall p <- ps :: !Better(p, SelectWinner(ps).value)
  {
    if ps != [] {
      var before, last := ps[..|ps| - 1], ps[|ps| - 1];
      assert ps == before + [last];
      WinnerIsLeast(before);
      BetterDecides(last, last);
      if before != [] {
        var best := SelectWinner(before).value;
        forall p | p in ps
          ensures !Better(p, SelectWinner(ps).value)
        {
          if p in before && Better(last, best) && Better(p, last) {
            BetterTransitive(p, last, best);
          }
        }
      }
    }
  }

  /** With distinct groups the winner is the one proposal that beats every other. */
  lemma WinnerIsUniqueMinimum(ps: seq<Proposal>, w: Proposal)
    requires DistinctGroups(ps) && w in ps
    ensures SelectWinner(ps) == Some(w) <==> forall p <- ps :: p == w || Better(w, p)
  {
    WinnerIsLeast(ps);
    var best := SelectWinner(ps).value;
    forall p | p in ps
      ensures p == best || Better(best, p)
    {
      BetterDecides(p, best);
    }
    BetterDecides(best, w);
  }

  /** The winner does not depend on the order in which the proposals are listed. */
  lemma WinnerOrderIndependent(ps: seq<Proposal>, qs: seq<Proposal>)
    requires DistinctGroups(ps) && multiset(ps) == multiset(qs)
    ensures SelectWinner(ps) == SelectWinner(qs)
  {
    WinnerIsLeast(ps);
    WinnerIsLeast(qs);
    forall p
      ensures p in ps <==> p in qs
    {
      assert p in multiset(ps) <==> p in multiset(qs);
    }
    if ps != [] {
      var w := SelectWinner(ps).value;
      assert w in qs;
      assert qs != [];
      var v := SelectWinner(qs).value;
      WinnerIsUniqueMinimum(ps, w);
    } else {
      assert |multiset(qs)| == 0;
    }
  }

  // ---- Inviting and grading -----------------------------------------------

  datatype Screening = Screening(participants: seq<GroupId>, table: BreakerTable)

  predicate Candidate(group: GroupId, origin: GroupId, excluded: seq<GroupId>) {
    group != origin && group !in excluded
  }

  /** The participant filter; its last test reads, and so may move, the group's breaker. */
  function Screen(groups: seq<GroupId>, origin: GroupId, excluded: seq<GroupId>,
                  table: BreakerTable, lim: Limits, now: Time): Screening
  {
    if groups == [] then Screening([], table)
    else
      var before := Screen(groups[..|groups| - 1], origin, excluded, table, lim, now);
      var g := groups[|groups| - 1];
      if !Candidate(g, origin, excluded) then before
      else
        var b := Lookup(before.table, g);
        Screening(if Admits(b, lim, now) then before.participants + [g] else before.participants,
                  before.table[g := Observe(b, lim, now)])
  }

  datatype Classification = Classification(
    proposals: seq<Proposal>, accepted: seq<Proposal>, table: BreakerTable)

  /** An answer is good for the breaker when the group bid or passed. */
  function Grade(status: ProposalStatus, b: Breaker, lim: Limits, now: Time): Breaker {
    if status.Accepted? || status.Passed? then Succeed(b) else Fail(b, lim, now)
  }

  function Classify(participants: seq<GroupId>, answers: map<GroupId, Answer>,
                    table: BreakerTable, lim: Limits, now: Time): Classification
  {
    if participants == [] then Classification([], [], table)
    else
      var before := Classify(participants[..|participants| - 1], answers, table, lim, now);
      var g := participants[|participants| - 1];
      var p := Reply(g, answers);
      Classification(
        before.proposals + [p],
        if p.status.Accepted? then before.accepted + [p] else before.accepted,
        before.table[g := Grade(p.status, Lookup(before.table, g), lim, now)])
  }

  /** `vencedor.is_winner = 1`, seen from the list that is stored. */
  function Flag(ps: seq<Proposal>, winner: Option<Proposal>): seq<Proposal> {
    if ps == [] then []
    else
      var last := ps[|ps| - 1];
      Flag(ps[..|ps| - 1], winner) + [if winner == Some(last) then last.(isWinner := true) else last]
  }

  datatype Round = Round(
    proposals: seq<Proposal>, winner: Option<GroupId>, acceptedCount: nat, table: BreakerTable)

  /** Screening at `now`, grading and closing at `closeAt`. */
  function Conduct(groups: seq<GroupId>, origin: GroupId, excluded: seq<GroupId>, table: BreakerTable,
                   lim: Limits, now: Time, closeAt: Time, answers: map<GroupId, Answer>): Round
  {
    var s := Screen(groups, origin, excluded, table, lim, now);
    var c := Classify(s.participants, answers, s.table, lim, closeAt);
    var w := SelectWinner(c.accepted);
    Round(Flag(c.proposals, w), if w.Some? then Some(w.value.group) else None, |c.accepted|, c.table)
  }

  // ---- What a round amounts to, group by group ------------------------------

  ghost predicate NoDuplicates<T>(xs: seq<T>) {
    forall i, j | 0 <= i < j < |xs| :: xs[i] != xs[j]
  }

  ghost predicate Invited(group: GroupId, groups: seq<GroupId>, origin: GroupId, excluded: seq<GroupId>,
                          table: BreakerTable, lim: Limits, now: Time)
  {
    group in groups && group != origin && group !in excluded && Admits(Lookup(table, group), lim, now)
  }

  /** Screening, seen from one group. */
  lemma {:induction false} ScreenAt(groups: seq<GroupId>, origin: GroupId, excluded: seq<GroupId>,
                                    table: BreakerTable, lim: Limits, now: Time, g: GroupId)
    requires NoDuplicates(groups)
    ensures var s := Screen(groups, origin, excluded, table, lim, now);
            && (g in s.participants <==> Invited(g, groups, origin, excluded, table, lim, now))
            && (g in s.table <==> g in table || (g in groups && Candidate(g, origin, excluded)))
            && Lookup(s.table, g) ==
                 if g in groups && Candidate(g, origin, excluded)
                 then Observe(Lookup(table, g), lim, now) else Lookup(table, g)
  {
    if groups != [] {
      var before, last := groups[..|groups| - 1], groups[|groups| - 1];
      assert groups == before + [last];
      ScreenAt(before, origin, excluded, table, lim, now, g);
      assert last !in before;
    }
  }

  lemma {:induction false} ScreenDistinct(groups: seq<GroupId>, origin: GroupId, excluded: seq<GroupId>,
                                          table: BreakerTable, lim: Limits, now: Time)
    requires NoDuplicates(groups)
    ensures NoDuplicates(Screen(groups, origin, excluded, table, lim, now).participants)
  {
    if groups != [] {
      var before, last := groups[..|groups| - 1], groups[|groups| - 1];
      ScreenDistinct(before, origin, excluded, table, lim, now);
      ScreenAt(before, origin, excluded, table, lim, now, last);
      assert last !in before;
      var ps := Screen(before, origin, excluded, table, lim, now).participants;
      assert last !in ps;
      assert NoDuplicates(ps + [last]);
    }
  }

  lemma {:induction false} ClassifyProposals(ps: seq<GroupId>, answers: map<GroupId, Answer>,
                                             table: BreakerTable, lim: Limits, now: Time)
    ensures var c := Classify(ps, answers, table, lim, now);
            && |c.proposals| == |ps|
            && forall i | 0 <= i < |ps| :: c.proposals[i] == Reply(ps[i], answers)
  {
    if ps != [] {
      ClassifyProposals(ps[..|ps| - 1], answers, table, lim, now);
    }
  }

  lemma {:induction false} ClassifyAccepted(ps: seq<GroupId>, answers: map<GroupId, Answer>,
                                            table: BreakerTable, lim: Limits, now: Time, p: Proposal)
    ensures var c := Classify(ps, answers, table, lim, now);
            p in c.accepted <==> p in c.proposals && p.status.Accepted?
  {
    if ps != [] {
      ClassifyAccepted(ps[..|ps| - 1], answers, table, lim, now, p);
    }
  }

  lemma {:induction false} ClassifyTable(ps: seq<GroupId>, answers: map<GroupId, Answer>,
                                         table: BreakerTable, lim: Limits, now: Time, g: GroupId)
    requires NoDuplicates(ps)
    ensures var c := Classify(ps, answers, table, lim, now);
            && (g in c.table <==> g in table || g in ps)
            && Lookup(c.table, g) ==
                 if g in ps then Grade(Reply(g, answers).status, Lookup(table, g), lim, now)
                 else Lookup(table, g)
  {
    if ps != [] {
      var before, last := ps[..|ps| - 1], ps[|ps| - 1];
      assert ps == before + [last];
      ClassifyTable(before, answers, table, lim, now, g);
      assert last !in before;
    }
  }

  /** A proposal of the round is the reply of one participant, and conversely. */
  lemma ProposalOf(ps: seq<GroupId>, answers: map<GroupId, Answer>, table: BreakerTable, lim: Limits,
                   now: Time, p: Proposal)
    ensures p in Classify(ps, answers, table, lim, now).proposals <==>
            p.group in ps && p == Reply(p.group, answers)
  {
    ClassifyProposals(ps, answers, table, lim, now);
    var c := Classify(ps, answers, table, lim, now);
    if p.group in ps && p == Reply(p.group, answers) {
      var i :| 0 <= i < |ps| && ps[i] == p.group;
      assert c.proposals[i] == p;
    }
  }

  lemma ProposalsDistinct(ps: seq<GroupId>, answers: map<GroupId, Answer>, table: BreakerTable,
                          lim: Limits, now: Time)
    requires NoDuplicates(ps)
    ensures DistinctGroups(Classify(ps, answers, table, lim, now).proposals)
  {
    ClassifyProposals(ps, answers, table, lim, now);
    var c := Classify(ps, answers, table, lim, now);
    forall i, j | 0 <= i < j < |c.proposals|
      ensures c.proposals[i].group != c.proposals[j].group
    {
      assert c.proposals[i].group == ps[i] && c.proposals[j].group == ps[j];
    }
  }

  lemma {:induction false} AcceptedDistinct(ps: seq<GroupId>, answers: map<GroupId, Answer>,
                                            table: BreakerTable, lim: Limits, now: Time)
    requires NoDuplicates(ps)
    ensures DistinctGroups(Classify(ps, answers, table, lim, now).accepted)
  {
    if ps != [] {
      var before, last := ps[..|ps| - 1], ps[|ps| - 1];
      AcceptedDistinct(before, answers, table, lim, now);
      assert last !in before;
      var kept := Classify(before, answers, table, lim, now).accepted;
      forall i | 0 <= i < |kept|
        ensures kept[i].group != last
      {
        ClassifyAccepted(before, answers, table, lim, now, kept[i]);
        ProposalOf(before, answers, table, lim, now, kept[i]);
      }
    }
  }

  lemma DistinctGroupsNoDuplicates(ps: seq<Proposal>)
    requires DistinctGroups(ps)
    ensures NoDuplicates(ps)
  {
    forall i, j | 0 <= i < j < |ps|
      ensures ps[i] != ps[j]
    {
      assert ps[i].group != ps[j].group;
    }
  }

  lemma {:induction false} FlagFacts(ps: seq<Proposal>, winner: Option<Proposal>)
    ensures |Flag(ps, winner)| == |ps|
    ensures forall i | 0 <= i < |ps| ::
              Flag(ps, winner)[i] == if winner == Some(ps[i]) then ps[i].(isWinner := true) else ps[i]
  {
    if ps != [] {
      FlagFacts(ps[..|ps| - 1], winner);
    }
  }

  // ---- Main results -------------------------------------------------------

  /** The winner was invited, so it is registered, is not the origin and is not excluded,
      and it made a valid bid; there is no winner exactly when nobody invited made one. */
  lemma WinnerWasInvited(groups: seq<GroupId>, origin: GroupId, excluded: seq<GroupId>, table: BreakerTable,
                         lim: Limits, now: Time, closeAt: Time, answers: map<GroupId, Answer>)
    requires NoDuplicates(groups)
    ensures var r := Conduct(groups, origin, excluded, table, lim, now, closeAt, answers);
            && (r.winner.Some? ==>
                  && Invited(r.winner.value, groups, origin, excluded, table, lim, now)
                  && Reply(r.winner.value, answers).status.Accepted?)
            && (r.winner.None? <==>
                  forall g | Invited(g, groups, origin, excluded, table, lim, now) ::
                    !Reply(g, answers).status.Accepted?)
  {
    var s := Screen(groups, origin, excluded, table, lim, now);
    var c := Classify(s.participants, answers, s.table, lim, closeAt);
    WinnerIsLeast(c.accepted);
    if c.accepted != [] {
      var w := SelectWinner(c.accepted).value;
      ClassifyAccepted(s.participants, answers, s.table, lim, closeAt, w);
      ProposalOf(s.participants, answers, s.table, lim, closeAt, w);
      ScreenAt(groups, origin, excluded, table, lim, now, w.group);
    } else {
      forall g | Invited(g, groups, origin, excluded, table, lim, now)
        ensures !Reply(g, answers).status.Accepted?
      {
        ScreenAt(groups, origin, excluded, table, lim, now, g);
        ProposalOf(s.participants, answers, s.table, lim, closeAt, Reply(g, answers));
        ClassifyAccepted(s.participants, answers, s.table, lim, closeAt, Reply(g, answers));
      }
    }
  }

  /** The one bid that makes `group` win alone. */
  function SoleBid(group: GroupId): map<GroupId, Answer> {
    map[group := Offer(Some(1), Some(0.0))]
  }

  lemma SoleBidWins(groups: seq<GroupId>, origin: GroupId, excluded: seq<GroupId>, table: BreakerTable,
                    lim: Limits, now: Time, closeAt: Time, group: GroupId)
    requires NoDuplicates(groups) && Invited(group, groups, origin, excluded, table, lim, now)
    ensures Conduct(groups, origin, excluded, table, lim, now, closeAt, SoleBid(group)).winner == Some(group)
  {
    WinnerWasInvited(groups, origin, excluded, table, lim, now, closeAt, SoleBid(group));
    assert Reply(group, SoleBid(group)).status.Accepted?;
  }

  /** Whom an auction can pick: exactly the groups its screening invites.  In particular a
      group that the ride's column excludes stays pickable when the message omits it. */
  lemma CanWinIffInvited(groups: seq<GroupId>, origin: GroupId, excluded: seq<GroupId>, table: BreakerTable,
                         lim: Limits, now: Time, closeAt: Time, group: GroupId)
    requires NoDuplicates(groups)
    ensures Invited(group, groups, origin, excluded, table, lim, now) <==>
            exists answers :: Conduct(groups, origin, excluded, table, lim, now, closeAt, answers).winner
                              == Some(group)
  {
    forall answers: map<GroupId, Answer>
      ensures Conduct(groups, origin, excluded, table, lim, now, closeAt, answers).winner == Some(group) ==>
              Invited(group, groups, origin, excluded, table, lim, now)
    {
      WinnerWasInvited(groups, origin, excluded, table, lim, now, closeAt, answers);
    }
    if Invited(group, groups, origin, excluded, table, lim, now) {
      SoleBidWins(groups, origin, excluded, table, lim, now, closeAt, group);
    }
  }

  /** The group declined, or made an offer with an ETA of at least one and a price that is not negative. */
  ghost predicate Responds(group: GroupId, answers: map<GroupId, Answer>) {
    && group in answers
    && (|| answers[group].NoContent?
        || (&& answers[group].Offer?
            && answers[group].eta.Some? && answers[group].eta.value >= 1
            && answers[group].price.Some? && answers[group].price.value >= 0.0))
  }

  /** Every breaker after a round: a participant's was read once and then got exactly one
      success or one failure, a candidate that was turned away was only read, and all
      others are untouched. */
  lemma BreakersAfterRound(groups: seq<GroupId>, origin: GroupId, excluded: seq<GroupId>, table: BreakerTable,
                           lim: Limits, now: Time, closeAt: Time, answers: map<GroupId, Answer>, g: GroupId)
    requires NoDuplicates(groups)
    ensures var r := Conduct(groups, origin, excluded, table, lim, now, closeAt, answers);
            var seen := Observe(Lookup(table, g), lim, now);
            Lookup(r.table, g) ==
              if Invited(g, groups, origin, excluded, table, lim, now)
              then (if Responds(g, answers) then Succeed(seen) else Fail(seen, lim, closeAt))
              else if g in groups && g != origin && g !in excluded then seen
              else Lookup(table, g)
  {
    var s := Screen(groups, origin, excluded, table, lim, now);
    ScreenAt(groups, origin, excluded, table, lim, now, g);
    ScreenDistinct(groups, origin, excluded, table, lim, now);
    ClassifyTable(s.participants, answers, s.table, lim, closeAt, g);
  }

  /** `ps` flags exactly one proposal, and it is the winner's. */
  ghost predicate OneFlag(ps: seq<Proposal>, winner: GroupId) {
    exists i ::
      && 0 <= i < |ps| && ps[i].isWinner && ps[i].group == winner
      && forall j | 0 <= j < |ps| && j != i :: !ps[j].isWinner
  }

  lemma FlagsOne(ps: seq<Proposal>, w: Proposal)
    requires w in ps && DistinctGroups(ps)
    requires forall p <- ps :: !p.isWinner
    ensures OneFlag(Flag(ps, Some(w)), w.group)
  {
    FlagFacts(ps, Some(w));
    var i :| 0 <= i < |ps| && ps[i] == w;
    assert Flag(ps, Some(w))[i].isWinner;
    forall j | 0 <= j < |ps| && j != i
      ensures !Flag(ps, Some(w))[j].isWinner
    {
      assert ps[j].group != w.group && ps[j] in ps;
    }
  }

  /** One stored proposal of the round is flagged when there is a winner, and none otherwise. */
  lemma ExactlyOneFlag(groups: seq<GroupId>, origin: GroupId, excluded: seq<GroupId>, table: BreakerTable,
                       lim: Limits, now: Time, closeAt: Time, answers: map<GroupId, Answer>)
    requires NoDuplicates(groups)
    ensures var r := Conduct(groups, origin, excluded, table, lim, now, closeAt, answers);
            && (r.winner.Some? ==> OneFlag(r.proposals, r.winner.value))
            && (r.winner.None? ==> forall p <- r.proposals :: !p.isWinner)
  {
    var s := Screen(groups, origin, excluded, table, lim, now);
    var c := Classify(s.participants, answers, s.table, lim, closeAt);
    var w := SelectWinner(c.accepted);
    ScreenDistinct(groups, origin, excluded, table, lim, now);
    ProposalsDistinct(s.participants, answers, s.table, lim, closeAt);
    forall p | p in c.proposals
      ensures !p.isWinner
    {
      ProposalOf(s.participants, answers, s.table, lim, closeAt, p);
    }
    WinnerIsLeast(c.accepted);
    if w.Some? {
      ClassifyAccepted(s.participants, answers, s.table, lim, closeAt, w.value);
      FlagsOne(c.proposals, w.value);
    } else {
      FlagFacts(c.proposals, w);
    }
  }

  lemma {:induction false} CountOfDistinct<T>(xs: seq<T>, x: T)
    requires NoDuplicates(xs)
    ensures multiset(xs)[x] == if x in xs then 1 else 0
  {
    if xs != [] {
      var before, last := xs[..|xs| - 1], xs[|xs| - 1];
      assert xs == before + [last];
      CountOfDistinct(before, x);
      assert last !in before;
    }
  }

  lemma DistinctSameElements<T>(xs: seq<T>, ys: seq<T>)
    requires NoDuplicates(xs) && NoDuplicates(ys)
    requires forall x :: x in xs <==> x in ys
    ensures multiset(xs) == multiset(ys)
  {
    forall x
      ensures multiset(xs)[x] == multiset(ys)[x]
    {
      CountOfDistinct(xs, x);
      CountOfDistinct(ys, x);
    }
  }

  lemma TablesAgree(a: BreakerTable, b: BreakerTable)
    requires forall g :: g in a <==> g in b
    requires forall g :: Lookup(a, g) == Lookup(b, g)
    ensures a == b
  {
    forall g | g in a
      ensures a[g] == b[g]
    {
      assert Lookup(a, g) == Lookup(b, g);
    }
  }

  lemma ScreenOrderIndependent(groups: seq<GroupId>, shuffled: seq<GroupId>, origin: GroupId,
                               excluded: seq<GroupId>, table: BreakerTable, lim: Limits, now: Time)
    requires NoDuplicates(groups) && NoDuplicates(shuffled)
    requires forall g :: g in groups <==> g in shuffled
    ensures var s := Screen(groups, origin, excluded, table, lim, now);
            var t := Screen(shuffled, origin, excluded, table, lim, now);
            && s.table == t.table
            && forall g :: g in s.participants <==> g in t.participants
  {
    var s := Screen(groups, origin, excluded, table, lim, now);
    var t := Screen(shuffled, origin, excluded, table, lim, now);
    forall g
      ensures g in s.participants <==> g in t.participants
      ensures g in s.table <==> g in t.table
      ensures Lookup(s.table, g) == Lookup(t.table, g)
    {
      ScreenAt(groups, origin, excluded, table, lim, now, g);
      ScreenAt(shuffled, origin, excluded, table, lim, now, g);
    }
    TablesAgree(s.table, t.table);
  }

  lemma ClassifyTableOrderIndependent(ps: seq<GroupId>, qs: seq<GroupId>, answers: map<GroupId, Answer>,
                                      table: BreakerTable, lim: Limits, now: Time)
    requires NoDuplicates(ps) && NoDuplicates(qs)
    requires forall g :: g in ps <==> g in qs
    ensures Classify(ps, answers, table, lim, now).table == Classify(qs, answers, table, lim, now).table
  {
    var c := Classify(ps, answers, table, lim, now);
    var d := Classify(qs, answers, table, lim, now);
    forall g
      ensures g in c.table <==> g in d.table
      ensures Lookup(c.table, g) == Lookup(d.table, g)
    {
      ClassifyTable(ps, answers, table, lim, now, g);
      ClassifyTable(qs, answers, table, lim, now, g);
    }
    TablesAgree(c.table, d.table);
  }

  lemma ClassifyOrderIndependent(ps: seq<GroupId>, qs: seq<GroupId>, answers: map<GroupId, Answer>,
                                 table: BreakerTable, lim: Limits, now: Time)
    requires NoDuplicates(ps) && NoDuplicates(qs)
    requires forall g :: g in ps <==> g in qs
    ensures var c := Classify(ps, answers, table, lim, now);
            var d := Classify(qs, answers, table, lim, now);
            multiset(c.proposals) == multiset(d.proposals) && multiset(c.accepted) == multiset(d.accepted)
  {
    var c := Classify(ps, answers, table, lim, now);
    var d := Classify(qs, answers, table, lim, now);
    forall p
      ensures p in c.proposals <==> p in d.proposals
      ensures p in c.accepted <==> p in d.accepted
    {
      ProposalOf(ps, answers, table, lim, now, p);
      ProposalOf(qs, answers, table, lim, now, p);
      ClassifyAccepted(ps, answers, table, lim, now, p);
      ClassifyAccepted(qs, answers, table, lim, now, p);
    }
    DistinctClassification(ps, answers, table, lim, now);
    DistinctClassification(qs, answers, table, lim, now);
    DistinctSameElements(c.proposals, d.proposals);
    DistinctSameElements(c.accepted, d.accepted);
  }

  lemma DistinctClassification(ps: seq<GroupId>, answers: map<GroupId, Answer>,
                               table: BreakerTable, lim: Limits, now: Time)
    requires NoDuplicates(ps)
    ensures NoDuplicates(Classify(ps, answers, table, lim, now).proposals)
    ensures NoDuplicates(Classify(ps, answers, table, lim, now).accepted)
  {
    ProposalsDistinct(ps, answers, table, lim, now);
    AcceptedDistinct(ps, answers, table, lim, now);
    DistinctGroupsNoDuplicates(Classify(ps, answers, table, lim, now).proposals);
    DistinctGroupsNoDuplicates(Classify(ps, answers, table, lim, now).accepted);
  }

  /** The outcome depends on who answered what, not on the order in which the registered
      groups are listed. */
  lemma RoundOrderIndependent(groups: seq<GroupId>, shuffled: seq<GroupId>, origin: GroupId,
                              excluded: seq<GroupId>, table: BreakerTable, lim: Limits, now: Time,
                              closeAt: Time, answers: map<GroupId, Answer>)
    requires NoDuplicates(groups) && NoDuplicates(shuffled)
    requires forall g :: g in groups <==> g in shuffled
    ensures var r := Conduct(groups, origin, excluded, table, lim, now, closeAt, answers);
            var q := Conduct(shuffled, origin, excluded, table, lim, now, closeAt, answers);
            && r.winner == q.winner && r.acceptedCount == q.acceptedCount && r.table == q.table
            && multiset(r.proposals) == multiset(q.proposals)
  {
    ScreenOrderIndependent(groups, shuffled, origin, excluded, table, lim, now);
    ScreenDistinct(groups, origin, excluded, table, lim, now);
    ScreenDistinct(shuffled, origin, excluded, table, lim, now);
    var s := Screen(groups, origin, excluded, table, lim, now);
    var t := Screen(shuffled, origin, excluded, table, lim, now);
    ClassifyOrderIndependent(s.participants, t.participants, answers, s.table, lim, closeAt);
    ClassifyTableOrderIndependent(s.participants, t.participants, answers, s.table, lim, closeAt);
    var c := Classify(s.participants, answers, s.table, lim, closeAt);
    var d := Classify(t.participants, answers, s.table, lim, closeAt);
    AcceptedDistinct(s.participants, answers, s.table, lim, closeAt);
    WinnerOrderIndependent(c.accepted, d.accepted);
    assert |c.accepted| == |multiset(c.accepted)| == |d.accepted|;
    ProposalsDistinct(s.participants, answers, s.table, lim, closeAt);
    ProposalsDistinct(t.participants, answers, s.table, lim, closeAt);
    FlagOrderIndependent(c.proposals, d.proposals, SelectWinner(c.accepted));
  }

  lemma FlagOrderIndependent(ps: seq<Proposal>, qs: seq<Proposal>, winner: Option<Proposal>)
    requires DistinctGroups(ps) && DistinctGroups(qs)
    requires multiset(ps) == multiset(qs)
    ensures multiset(Flag(ps, winner)) == multiset(Flag(qs, winner))
  {
    FlagDistinct(ps, winner);
    FlagDistinct(qs, winner);
    forall x
      ensures x in Flag(ps, winner) <==> x in Flag(qs, winner)
    {
      FlagMembers(ps, qs, winner, x);
      FlagMembers(qs, ps, winner, x);
    }
    DistinctSameElements(Flag(ps, winner), Flag(qs, winner));
  }

  lemma FlagDistinct(ps: seq<Proposal>, winner: Option<Proposal>)
    requires DistinctGroups(ps)
    ensures NoDuplicates(Flag(ps, winner))
  {
    FlagFacts(ps, winner);
    forall i, j | 0 <= i < j < |ps|
      ensures Flag(ps, winner)[i] != Flag(ps, winner)[j]
    {
      assert Flag(ps, winner)[i].group == ps[i].group;
      assert Flag(ps, winner)[j].group == ps[j].group;
    }
  }

  lemma FlagMembers(ps: seq<Proposal>, qs: seq<Proposal>, winner: Option<Proposal>, x: Proposal)
    requires multiset(ps) == multiset(qs)
    ensures x in Flag(ps, winner) ==> x in Flag(qs, winner)
  {
    FlagFacts(ps, winner);
    FlagFacts(qs, winner);
    if x in Flag(ps, winner) {
      var i :| 0 <= i < |ps| && Flag(ps, winner)[i] == x;
      assert ps[i] in multiset(ps);
      assert ps[i] in multiset(qs);
      var j :| 0 <= j < |qs| && qs[j] == ps[i];
      assert Flag(qs, winner)[j] == x;
    }
  }
}
