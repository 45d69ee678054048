/** Opening a ballot and casting a vote: exactly when each is accepted, what it stores, and how it moves the tally. */
module Casting {
  import opened Domain
  import opened Replica
  import opened Keyed
  import opened Calls
  import opened Voting
  import opened Governance
  import opened Services
  import Closing
  import Commands
  import Franchise

  /** Known, a citizen of the server, and not under a sanction. */
  predicate MayVoteIn(t: Tables, user: UserId, server: ServerId) {
    && user in t.users && (user, server) in t.memberships
    && t.memberships[(user, server)].tier.Citizen? && !t.memberships[(user, server)].isSanctioned
  }

  // --- weights ------------------------------------------------------------------------------------------------

  /** The weight `w`, held in 1 to 16, that a scheme gives a member: one each; one more than the square root of the
      contribution; one more than the full years, of 365 days, since they were enfranchised; or what was granted. */
  predicate Weighs(scheme: VoteWeighting, m: Membership, now: Timestamp, w: nat) {
    1 <= w <= 16 &&
    match scheme
    case Equal => w == 1
    case ByContribution => (w == 1 || (w - 1) * (w - 1) <= m.contribution) && (w < 16 ==> m.contribution < w * w)
    case ByTenure =>
      if m.enfranchisedAt.None? then w == 1
      else
        var held := now - m.enfranchisedAt.value;
        (w == 1 || (w - 1) * 365 * 86_400 <= held) && (w < 16 ==> held < w * 365 * 86_400)
    case ByRole => (w > 1 ==> w <= m.grantedWeight) && (w < 16 ==> m.grantedWeight <= w)
  }

  lemma WeightIs(scheme: VoteWeighting, m: Membership, now: Timestamp)
    ensures Weighs(scheme, m, now, WeightOf(scheme, m, now))
  {
    if scheme.ByTenure? && m.enfranchisedAt.Some? { FullYears(now - m.enfranchisedAt.value); }
  }

  lemma FullYears(held: int)
    ensures held >= 0 ==> var years := held / 86_400 / 365; years * 365 * 86_400 <= held < (years + 1) * 365 * 86_400
    ensures held < 0 ==> held / 86_400 < 0
  {
  }

  /** A ballot weighs what the scheme of its server gives its voter, or one where weights do not reach ballots; and
      nothing at all unless the voter is a citizen there and not under a sanction. */
  lemma BallotWeightIs(roll: Franchise.Roll, server: Server, voter: UserId, now: Timestamp)
    ensures var w := BallotWeight(roll, server, voter, now);
            if (voter, server.id) !in roll || !roll[(voter, server.id)].tier.Citizen?
               || roll[(voter, server.id)].isSanctioned then w == 0
            else if server.weightingScope.BothScopes? || server.weightingScope.BallotsOnly?
            then Weighs(server.voteWeighting, roll[(voter, server.id)], now, w)
            else w == 1
  {
    if (voter, server.id) in roll { WeightIs(server.voteWeighting, roll[(voter, server.id)], now); }
  }

  // --- casting ------------------------------------------------------------------------------------------------

  /** A vote is accepted exactly when the proposal is known and open and the voter a franchised member of its server. */
  lemma VoteAcceptedIff(t: Tables, voter: UserId, proposal: ProposalId, isAye: bool)
    ensures CastVote(t, voter, proposal, isAye).Granted? <==>
      && proposal in t.proposals && t.proposals[proposal].status.Open?
      && MayVoteIn(t, voter, t.proposals[proposal].serverId)
  {
  }

  /** A vote that comes as a forwarded command is the same vote. */
  lemma ForwardedVote(t: Tables, voter: UserId, proposal: ProposalId, isAye: bool, now: Timestamp, dm: DmId)
    ensures var r := CastVote(t, voter, proposal, isAye);
            Commands.UseCase(t, Commands.CastBallot(proposal, voter, isAye), now, dm)
            == if r.Granted? then Some(r.call) else None
  {
  }

  predicate IsOf(v: Vote, proposal: ProposalId, voter: UserId) {
    v.proposalId == proposal && v.voter == voter
  }

  /** After an accepted vote the store holds that ballot, as it was cast, and no other of that voter on that proposal;
      every other ballot is as before, in its order, and nothing else has changed. */
  lemma VoteIsStored(s: StoreState, voter: UserId, proposal: ProposalId, isAye: bool)
    requires CastVote(s.tables, voter, proposal, isAye).Granted?
    ensures var t, t' := s.tables, Exec(s, CastVote(s.tables, voter, proposal, isAye).call).tables;
            var others := (v: Vote) => !(v.proposalId == proposal && v.voter == voter);
            && t'.votes == Retain(t.votes, others) + [Vote(proposal, voter, isAye)]
            && t' == t.(votes := t'.votes)
            && (forall v :: v in t'.votes && IsOf(v, proposal, voter) ==> v.isAye == isAye)
            && Retain(t'.votes, others) == Retain(t.votes, others)
  {
    var t, t' := s.tables, Exec(s, CastVote(s.tables, voter, proposal, isAye).call).tables;
    var others := (v: Vote) => !(v.proposalId == proposal && v.voter == voter);
    var rest := WithoutVote(t.votes, proposal, voter);
    SameRetain(t.votes, others, (v: Vote) => !(v.proposalId == proposal && v.voter == voter));
    RetainOneMore(rest, Vote(proposal, voter, isAye), others);
    RetainAll(rest, others);
  }

  /** The ballots on a proposal but for one voter's. */
  function OthersOn(t: Tables, proposal: ProposalId, voter: UserId): seq<Vote> {
    Retain(VotesOn(t, proposal), (v: Vote) => v.voter != voter)
  }

  lemma OnAfterVote(t: Tables, voter: UserId, proposal: ProposalId, isAye: bool)
    requires CastVote(t, voter, proposal, isAye).Granted?
    ensures VotesOn(TablesAfter(t, CastVote(t, voter, proposal, isAye).call), proposal)
         == OthersOn(t, proposal, voter) + [Vote(proposal, voter, isAye)]
  {
    var onIt := (v: Vote) => v.proposalId == proposal;
    var v := Vote(proposal, voter, isAye);
    RetainOneMore(WithoutVote(t.votes, proposal, voter), v, onIt);
    var both := (x: Vote) => x.proposalId == proposal && x.voter != voter;
    RetainBoth(t.votes, (x: Vote) => !(x.proposalId == proposal && x.voter == voter), onIt, both);
    RetainBoth(t.votes, onIt, (x: Vote) => x.voter != voter, both);
  }

  /** The tally is then that of the other voters and the voter's own weight, on the side they chose. */
  lemma VoteIsCounted(t: Tables, voter: UserId, proposal: ProposalId, isAye: bool, server: Server, now: Timestamp)
    requires CastVote(t, voter, proposal, isAye).Granted? && t.proposals[proposal].id == proposal
    ensures var t' := TablesAfter(t, CastVote(t, voter, proposal, isAye).call);
            var others := TallyOf(OthersOn(t, proposal, voter), WeightIn(t, server, now));
            var weight := BallotWeight(t.memberships, server, voter, now);
            WeightedTally(t', server, t.proposals[proposal], now)
            == if isAye then Tally(others.aye + weight, others.nay) else Tally(others.aye, others.nay + weight)
  {
    var t' := TablesAfter(t, CastVote(t, voter, proposal, isAye).call);
    var others, v := OthersOn(t, proposal, voter), Vote(proposal, voter, isAye);
    OnAfterVote(t, voter, proposal, isAye);
    assert (others + [v])[..|others|] == others;
    SameWeights(others + [v], WeightIn(t', server, now), WeightIn(t, server, now));
  }

  lemma {:induction false} SameWeights(votes: seq<Vote>, f: UserId -> nat, g: UserId -> nat)
    requires forall u :: f(u) == g(u)
    ensures TallyOf(votes, f) == TallyOf(votes, g)
    decreases |votes|
  {
    if votes != [] { SameWeights(votes[..|votes| - 1], f, g); }
  }

  // --- opening ------------------------------------------------------------------------------------------------

  /** The switch in a server's governance surface under which a kind may be opened. */
  predicate IsUnder(k: ProposalKind, b: BallotKind) {
    match b
    case BkRemoveContent => k.RemoveContent?
    case BkBan => k.Ban?
    case BkTimeout => k.Timeout?
    case BkRecall => k.Recall?
    case BkCreateChannel => k.CreateChannel?
    case BkDeleteChannel => k.DeleteChannel?
    case BkAddRule => k.AddRule?
    case BkRemoveRule => k.RemoveRule?
    case BkAmendCriteria => k.AmendCriteria?
    case BkSetJurySizing => k.SetJurySizing?
    case BkSetVoteWeighting => k.SetVoteWeighting?
    case BkSetWeightingScope => k.SetWeightingScope?
    case BkGrantVoteWeight => k.GrantVoteWeight?
    case BkSetGovernanceSurface => k.SetGovernanceSurface?
    case BkManageRoles => k.CreateRole? || k.DeleteRole? || k.AssignRole? || k.UnassignRole?
    case BkSetRehomingPolicy => k.SetRehomingPolicy?
    case BkSetInvitePolicy => k.SetInvitePolicy?
  }

  lemma SwitchIs(k: ProposalKind, b: BallotKind)
    ensures BallotKindOf(k) == b <==> IsUnder(k, b)
  {
  }

  lemma SwitchIsOn(server: Server, k: ProposalKind)
    ensures BallotKindOf(k) in server.enabledBallots <==> exists b :: b in server.enabledBallots && IsUnder(k, b)
  {
    SwitchIs(k, BallotKindOf(k));
    forall b | IsUnder(k, b) ensures b == BallotKindOf(k) { SwitchIs(k, b); }
  }

  /** Only an amendment is ever out of reach, and only below ten citizens. */
  lemma InReachIff(k: ProposalKind, citizens: nat)
    ensures ThresholdFor(DecisionClassOf(k), Franchise.PhaseOf(citizens)).Some?
      <==> (Closing.IsAmendment(k) ==> citizens >= 10)
  {
  }

  /** A ballot is opened exactly by a franchised member of a known server, for a kind whose switch is on, and an
      amendment only where there are ten citizens. */
  lemma OpenedIff(t: Tables, user: UserId, server: ServerId, kind: ProposalKind, id: ProposalId, now: Timestamp)
    ensures OpenProposal(t, user, server, kind, id, now).Granted? <==>
      && server in t.servers && MayVoteIn(t, user, server)
      && (exists b :: b in t.servers[server].enabledBallots && IsUnder(kind, b))
      && (Closing.IsAmendment(kind) ==> Franchise.CitizenCount(t.memberships, server) >= 10)
  {
    if server in t.servers { SwitchIsOn(t.servers[server], kind); }
    InReachIff(kind, Franchise.CitizenCount(t.memberships, server));
  }

  /** It is stored open under its id, by its proposer, for its kind, with three days to vote and no effect yet; nothing
      else changes. */
  lemma OpenedIs(t: Tables, user: UserId, server: ServerId, kind: ProposalKind, id: ProposalId, now: Timestamp)
    requires OpenProposal(t, user, server, kind, id, now).Granted?
    ensures TablesAfter(t, OpenProposal(t, user, server, kind, id, now).call)
         == t.(proposals := t.proposals[id := Proposal(id, server, user, kind, now, now + 3 * 86_400, Open, false)])
  {
  }
}
