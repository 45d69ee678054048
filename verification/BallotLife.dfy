/** The life of a proposal over whole runs of ballots. */
module BallotLife {
  import opened Domain
  import opened Voting
  import opened Governance
  import opened Calls
  import opened Keyed
  import opened Replica
  import Franchise

  type Ballots = map<ProposalId, Proposal>

  /** One step on the proposals: a call that leaves them alone, a newly opened one under a fresh id, or any of
      them evolving at the step's instant. */
  ghost predicate BallotStep(before: Ballots, after: Ballots, now: Timestamp) {
    && before.Keys <= after.Keys
    && (forall id :: id in before ==> after[id] == before[id] || Evolves(before[id], after[id], now))
    && (forall id :: id in after && id !in before ==> IsNew(after[id], id, now))
  }

  predicate IsNew(p: Proposal, id: ProposalId, now: Timestamp) {
    p == NewProposal(id, p.serverId, p.proposer, p.kind, now)
  }

  datatype Instant = Instant(now: Timestamp, after: Ballots)

  function At(run: seq<Instant>, i: nat): Ballots
    requires i <= |run|
  {
    if i == 0 then map[] else run[i - 1].after
  }

  ghost predicate IsBallotRun(run: seq<Instant>) {
    forall i :: 0 <= i < |run| ==> Steps(run, i)
  }

  ghost predicate Steps(run: seq<Instant>, i: nat)
    requires i < |run|
  {
    BallotStep(At(run, i), run[i].after, run[i].now)
  }

  const CONSTITUTIONAL_DAYS: int := VOTING_WINDOW_DAYS + RECALL_WINDOW_DAYS

  /** What holds of every proposal at every moment. */
  predicate LifeOk(p: Proposal) {
    && p.closesAt == PlusDays(p.openedAt, VOTING_WINDOW_DAYS)
    && (p.isApplied ==> p.status.Passed?)
    && (p.status.Passed? ==> p.status.effectiveAt >= p.closesAt)
    && (p.status.Passed? && DecisionClassOf(p.kind).Constitutional? ==>
         p.status.effectiveAt >= PlusDays(p.openedAt, CONSTITUTIONAL_DAYS))
  }

  lemma EvolvingKeepsLife(p: Proposal, p': Proposal, now: Timestamp)
    requires LifeOk(p) && Evolves(p, p', now)
    ensures LifeOk(p')
  {
  }

  lemma {:induction false} EveryoneIsOk(run: seq<Instant>, i: nat, id: ProposalId)
    requires IsBallotRun(run) && i <= |run| && id in At(run, i)
    ensures LifeOk(At(run, i)[id])
  {
    if i > 0 {
      assert Steps(run, i - 1);
      var before, after := At(run, i - 1), run[i - 1].after;
      if id in before {
        EveryoneIsOk(run, i - 1, id);
        if after[id] != before[id] { EvolvingKeepsLife(before[id], after[id], run[i - 1].now); }
      }
    }
  }

  /** Once decided, decided: from any moment on, a proposal that has left Open keeps its status, and one marked applied
      stays so marked. That its effect is executed but once is `BallotRuns.EffectsHappenOnce`. */
  lemma {:induction false} DecidedOnce(run: seq<Instant>, i: nat, j: nat, id: ProposalId)
    requires IsBallotRun(run) && i <= j <= |run| && id in At(run, i)
    ensures id in At(run, j)
    ensures var p, q := At(run, i)[id], At(run, j)[id];
            && q == p.(status := q.status, isApplied := q.isApplied)
            && (!p.status.Open? ==> q.status == p.status)
            && (p.isApplied ==> q.isApplied)
    decreases j
  {
    if i < j {
      DecidedOnce(run, i, j - 1, id);
      assert Steps(run, j - 1);
    }
  }

  /** Only a passed ballot whose time has come is marked applied; a constitutional one no sooner than ten days after it
      was opened. */
  lemma AppliedOnlyWhenMature(run: seq<Instant>, i: nat, id: ProposalId)
    requires IsBallotRun(run) && i < |run| && id in At(run, i)
    requires !At(run, i)[id].isApplied && id in At(run, i + 1) && At(run, i + 1)[id].isApplied
    ensures var p := At(run, i + 1)[id];
            && p.status.Passed? && run[i].now >= p.status.effectiveAt >= p.closesAt
            && (DecisionClassOf(p.kind).Constitutional? ==> run[i].now >= p.openedAt + 10 * 86_400)
  {
    assert Steps(run, i);
    EveryoneIsOk(run, i + 1, id);
  }

  /** A new proposal is open and unapplied: nothing is ever applied on opening. */
  lemma NothingAppliedOnOpening(run: seq<Instant>, i: nat, id: ProposalId)
    requires IsBallotRun(run) && i < |run| && id !in At(run, i) && id in At(run, i + 1)
    ensures At(run, i + 1)[id].status.Open? && !At(run, i + 1)[id].isApplied
  {
    assert Steps(run, i);
  }

  // --- the use-cases are such steps -----------------------------------------------------------------------

  lemma ResolvingIsAStep(s: Site, server: ServerId, names: Names, now: Timestamp)
    requires RowsOk(s.Tables(), now)
    ensures BallotStep(s.Tables().proposals, ResolveDue(s, server, names, now).Tables().proposals, now)
  {
    ResolveOutcome(s, server, names, now);
  }

  lemma OpeningIsAStep(t: Tables, user: UserId, server: ServerId, kind: ProposalKind, id: ProposalId, now: Timestamp)
    requires id !in t.proposals && OpenProposal(t, user, server, kind, id, now).Granted?
    ensures BallotStep(t.proposals, TablesAfter(t, OpenProposal(t, user, server, kind, id, now).call).proposals, now)
  {
  }

  lemma VotingIsAStep(t: Tables, voter: UserId, proposal: ProposalId, isAye: bool, now: Timestamp)
    requires CastVote(t, voter, proposal, isAye).Granted?
    ensures BallotStep(t.proposals, TablesAfter(t, CastVote(t, voter, proposal, isAye).call).proposals, now)
  {
  }

  // --- one ballot per voter --------------------------------------------------------------------------------

  ghost predicate OneBallotEach(votes: seq<Vote>) {
    DistinctBy(votes, VoteKey)
  }

  /** A second vote replaces the first, so the store holds one ballot per proposal and voter after any port
      call, and a tally counts each voter once. */
  lemma StoreKeepsOneBallotEach(t: Tables, c: Call)
    requires OneBallotEach(t.votes)
    ensures OneBallotEach(TablesAfter(t, c).votes)
  {
    if c.UpsertVote? {
      var v := c.vote;
      var rest := WithoutVote(t.votes, v.proposalId, v.voter);
      assert OneBallotEach(rest) by {
        var p, u := v.proposalId, v.voter;
        RetainDistinct(t.votes, VoteKey, (x: Vote) => !(x.proposalId == p && x.voter == u));
      }
      forall i | 0 <= i < |rest| ensures VoteKey(rest[i]) != VoteKey(v) { assert rest[i] in rest; }
    }
  }

  lemma CountedOnce(t: Tables, proposal: ProposalId)
    requires OneBallotEach(t.votes)
    ensures OneVoteEach(VotesOn(t, proposal))
  {
    RetainDistinct(t.votes, VoteKey, (v: Vote) => v.proposalId == proposal);
    var on := VotesOn(t, proposal);
    forall i, j | 0 <= i < j < |on| ensures on[i].voter != on[j].voter {
      assert on[i] in on && on[j] in on;
    }
  }

  /** An unweighted constitutional change is the roll's own: the franchised members who voted aye, each counted once,
      are more than 45% of a Chartering roll and more than 33.33% of a Sovereign one. */
  lemma AmendedByTheRoll(t: Tables, server: Server, p: Proposal, citizens: nat, phase: Franchise.Phase, now: Timestamp)
    requires OneBallotEach(t.votes) && !server.weightingScope.AppliesToBallots() && Franchise.RollOk(t.memberships, now)
    requires DecisionClassOf(p.kind).Constitutional? && p.status.Open?
    requires Closed(p, WeightedTally(t, server, p, now), citizens, phase, now).status.Passed?
    ensures var ayes := AyeVoters(VotesOn(t, p.id), t.memberships, server.id);
            && ayes <= Franchise.Citizens(t.memberships, server.id)
            && (phase.Chartering? ==> |ayes| * 100 > 45 * citizens)
            && (phase.Sovereign? ==> |ayes| * 10_000 > 3_333 * citizens)
            && !phase.Seed?
  {
    CountedOnce(t, p.id);
    AyesAreHeads(VotesOn(t, p.id), t.memberships, server, now);
    AmendmentShare(WeightedTally(t, server, p, now), citizens, phase);
  }
}
