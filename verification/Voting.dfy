/** What passing means: the bar of each decision class, how a ballot is tallied, and what a passed one proves. */
module Voting {
  import opened Domain
  import opened Finite
  import Franchise

  datatype DecisionClass = Moderation | RuleChange | BanOrRecall | Constitutional

  datatype Threshold = Threshold(approvalBp: nat, quorumBp: nat)

  datatype Tally = Tally(aye: nat, nay: nat) {
    function Cast(): nat { aye + nay }
  }

  function DecisionClassOf(k: ProposalKind): DecisionClass {
    match k
    case RemoveContent(_) => Moderation
    case Ban(_) => BanOrRecall
    case Timeout(_, _) => BanOrRecall
    case Recall(_) => BanOrRecall
    case GrantVoteWeight(_, _) => BanOrRecall
    case AmendCriteria(_) => Constitutional
    case SetVoteWeighting(_) => Constitutional
    case SetWeightingScope(_) => Constitutional
    case SetRehomingPolicy(_) => Constitutional
    case _ => RuleChange
  }

  function BallotKindOf(k: ProposalKind): BallotKind {
    match k
    case RemoveContent(_) => BkRemoveContent
    case Ban(_) => BkBan
    case Timeout(_, _) => BkTimeout
    case Recall(_) => BkRecall
    case CreateChannel(_, _) => BkCreateChannel
    case DeleteChannel(_) => BkDeleteChannel
    case AddRule(_) => BkAddRule
    case RemoveRule(_) => BkRemoveRule
    case AmendCriteria(_) => BkAmendCriteria
    case SetJurySizing(_) => BkSetJurySizing
    case SetVoteWeighting(_) => BkSetVoteWeighting
    case SetWeightingScope(_) => BkSetWeightingScope
    case GrantVoteWeight(_, _) => BkGrantVoteWeight
    case SetGovernanceSurface(_) => BkSetGovernanceSurface
    case SetRehomingPolicy(_) => BkSetRehomingPolicy
    case SetInvitePolicy(_) => BkSetInvitePolicy
    case _ => BkManageRoles
  }

  /** The bar per class and phase; none at all for constitutional change while a server is tiny. */
  function ThresholdFor(c: DecisionClass, p: Franchise.Phase): Option<Threshold> {
    match c
    case Moderation => Some(Threshold(5_000, 1_000))
    case RuleChange => Some(Threshold(6_000, 3_000))
    case BanOrRecall => Some(Threshold(6_000, 3_000))
    case Constitutional =>
      match p
      case Seed => None
      case Chartering => Some(Threshold(7_500, 6_000))
      case Sovereign => Some(Threshold(6_666, 5_000))
  }

  predicate HasQuorum(t: Tally, citizens: nat, bar: Threshold) {
    citizens > 0 && t.Cast() * 10_000 >= bar.quorumBp * citizens
  }

  predicate HasApproval(t: Tally, bar: Threshold) {
    t.Cast() > 0 && t.aye * 10_000 > bar.approvalBp * t.Cast()
  }

  predicate Passes(t: Tally, citizens: nat, bar: Threshold) {
    HasQuorum(t, citizens, bar) && HasApproval(t, bar)
  }

  // --- weights ---------------------------------------------------------------------------------------

  const MAX_VOTE_WEIGHT: nat := 16

  /** ⌊√n⌋. */
  function Isqrt(n: nat): (r: nat)
    ensures r * r <= n < (r + 1) * (r + 1)
  {
    if n == 0 then 0
    else
      var r := Isqrt(n - 1);
      if (r + 1) * (r + 1) <= n then r + 1 else r
  }

  function WeightOf(scheme: VoteWeighting, m: Membership, now: Timestamp): (w: nat)
    ensures 1 <= w <= MAX_VOTE_WEIGHT
  {
    var raw: nat :=
      match scheme
      case Equal => 1
      case ByContribution => 1 + Isqrt(if m.contribution > 0 then m.contribution else 0)
      case ByTenure =>
        (match m.enfranchisedAt
         case Some(at) => 1 + (if DaysSince(now, at) > 0 then DaysSince(now, at) else 0) / 365
         case None => 1)
      case ByRole => m.grantedWeight;
    if raw < 1 then 1 else if raw > MAX_VOTE_WEIGHT then MAX_VOTE_WEIGHT else raw
  }

  /** What one member's ballot weighs in a server; 0 for someone not, or no longer, franchised there. */
  function BallotWeight(roll: Franchise.Roll, server: Server, voter: UserId, now: Timestamp): nat {
    if (voter, server.id) in roll && roll[(voter, server.id)].IsFranchised() then
      if server.weightingScope.AppliesToBallots() then
        WeightOf(server.voteWeighting, roll[(voter, server.id)], now)
      else 1
    else 0
  }

  // --- the tally -------------------------------------------------------------------------------------

  function AddBallot(t: Tally, v: Vote, weight: nat): Tally {
    if v.isAye then t.(aye := t.aye + weight) else t.(nay := t.nay + weight)
  }

  /** Ballots counted in the order the store lists them, each at its voter's weight. */
  function TallyOf(votes: seq<Vote>, weigh: UserId -> nat): Tally {
    if votes == [] then Tally(0, 0)
    else
      var n := |votes| - 1;
      AddBallot(TallyOf(votes[..n], weigh), votes[n], weigh(votes[n].voter))
  }

  lemma {:induction false} TallyConcat(a: seq<Vote>, b: seq<Vote>, weigh: UserId -> nat)
    ensures TallyOf(a + b, weigh).aye == TallyOf(a, weigh).aye + TallyOf(b, weigh).aye
    ensures TallyOf(a + b, weigh).nay == TallyOf(a, weigh).nay + TallyOf(b, weigh).nay
    decreases |b|
  {
    if b == [] {
      assert a + b == a;
    } else {
      var n := |b| - 1;
      assert (a + b)[..|a| + n] == a + b[..n];
      TallyConcat(a, b[..n], weigh);
    }
  }

  lemma TallyOfOne(v: Vote, weigh: UserId -> nat)
    ensures TallyOf([v], weigh) == AddBallot(Tally(0, 0), v, weigh(v.voter))
  {
  }

  lemma {:induction false} TallyWithout(votes: seq<Vote>, i: nat, weigh: UserId -> nat)
    requires i < |votes|
    ensures TallyOf(votes, weigh)
         == AddBallot(TallyOf(votes[..i] + votes[i + 1..], weigh), votes[i], weigh(votes[i].voter))
  {
    var a, one, b := votes[..i], [votes[i]], votes[i + 1..];
    assert votes == (a + one) + b;
    TallyConcat(a + one, b, weigh);
    TallyConcat(a, one, weigh);
    TallyConcat(a, b, weigh);
    TallyOfOne(votes[i], weigh);
  }

  /** The tally does not depend on the order in which votes were cast or stored. */
  lemma {:induction false} TallyIgnoresOrder(xs: seq<Vote>, ys: seq<Vote>, weigh: UserId -> nat)
    requires multiset(xs) == multiset(ys)
    ensures TallyOf(xs, weigh) == TallyOf(ys, weigh)
    decreases |xs|
  {
    if xs == [] {
      assert |multiset(ys)| == 0;
      assert ys == [];
    } else {
      var n := |xs| - 1;
      var last := xs[n];
      assert last in multiset(ys);
      var i :| 0 <= i < |ys| && ys[i] == last;
      var rest := ys[..i] + ys[i + 1..];
      assert ys == ys[..i] + [last] + ys[i + 1..];
      assert multiset(ys) == multiset(rest) + multiset{last};
      assert xs == xs[..n] + [last];
      assert multiset(xs[..n]) == multiset(xs) - multiset{last};
      TallyIgnoresOrder(xs[..n], rest, weigh);
      TallyWithout(ys, i, weigh);
    }
  }

  // --- what changing a vote can do ---------------------------------------------------------------------

  lemma MulMono(a: nat, x: nat, y: nat)
    requires x <= y
    ensures a * x <= a * y
  {
  }

  /** A further aye, of any weight, never un-passes a ballot. */
  lemma ExtraAyeHelps(t: Tally, w: nat, citizens: nat, bar: Threshold)
    requires bar.approvalBp <= 10_000 && Passes(t, citizens, bar)
    ensures Passes(t.(aye := t.aye + w), citizens, bar)
  {
    var a, cast := bar.approvalBp, t.Cast();
    MulMono(w, a, 10_000);
    assert a * (cast + w) == a * cast + a * w;
    assert t.(aye := t.aye + w).Cast() == cast + w;
  }

  /** Nor does a nay turned into an aye at the same weight. */
  lemma SwitchToAyeHelps(t: Tally, w: nat, citizens: nat, bar: Threshold)
    requires w <= t.nay && Passes(t, citizens, bar)
    ensures Passes(Tally(t.aye + w, t.nay - w), citizens, bar)
  {
  }

  /** At the level of ballots: voter `i` changing nay to aye keeps a passing ballot passing, whatever the
      weights. */
  lemma {:induction false} ChangingMyVoteToAye(votes: seq<Vote>, i: nat, weigh: UserId -> nat, citizens: nat,
                                               bar: Threshold)
    requires i < |votes| && !votes[i].isAye
    requires Passes(TallyOf(votes, weigh), citizens, bar)
    ensures Passes(TallyOf(votes[i := votes[i].(isAye := true)], weigh), citizens, bar)
  {
    var changed := votes[i := votes[i].(isAye := true)];
    TallyWithout(votes, i, weigh);
    TallyWithout(changed, i, weigh);
    assert changed[..i] == votes[..i] && changed[i + 1..] == votes[i + 1..];
    SwitchToAyeHelps(TallyOf(votes, weigh), weigh(votes[i].voter), citizens, bar);
  }

  // --- what a passed ballot proves ------------------------------------------------------------------------

  /** Ayes above the approval share of the quorum share of the whole roll. */
  lemma PassingNeedsAyes(t: Tally, citizens: nat, bar: Threshold)
    requires Passes(t, citizens, bar)
    ensures t.aye * 100_000_000 > bar.approvalBp * bar.quorumBp * citizens
  {
  }

  /** Constitutional change: more than 45% of the whole roll in Chartering, more than 33.33% in Sovereign. */
  lemma AmendmentShare(t: Tally, citizens: nat, p: Franchise.Phase)
    requires ThresholdFor(Constitutional, p).Some? && Passes(t, citizens, ThresholdFor(Constitutional, p).value)
    ensures p.Chartering? ==> t.aye * 100 > 45 * citizens
    ensures p.Sovereign? ==> t.aye * 10_000 > 3_333 * citizens
  {
  }

  /** One vote per voter, as the store keeps them for a proposal. */
  ghost predicate OneVoteEach(votes: seq<Vote>) {
    forall i, j :: 0 <= i < j < |votes| ==> votes[i].voter != votes[j].voter
  }

  function Voters(votes: seq<Vote>, roll: Franchise.Roll, s: ServerId): set<Franchise.Key> {
    set i | 0 <= i < |votes| && (votes[i].voter, s) in roll
        && roll[(votes[i].voter, s)].IsFranchised() :: (votes[i].voter, s)
  }

  predicate IsVoter(v: Vote, roll: Franchise.Roll, s: ServerId) {
    (v.voter, s) in roll && roll[(v.voter, s)].IsFranchised()
  }

  lemma VotersOneMore(votes: seq<Vote>, roll: Franchise.Roll, s: ServerId)
    requires votes != [] && OneVoteEach(votes)
    ensures |Voters(votes, roll, s)|
         == |Voters(votes[..|votes| - 1], roll, s)| + if IsVoter(votes[|votes| - 1], roll, s) then 1 else 0
  {
    var n := |votes| - 1;
    var front, k := votes[..n], (votes[n].voter, s);
    assert k !in Voters(front, roll, s);
    assert Voters(votes, roll, s) == Voters(front, roll, s) + if IsVoter(votes[n], roll, s) then {k} else {};
  }

  /** Each voter's weight, as a function of the voter. */
  function Weights(roll: Franchise.Roll, server: Server, now: Timestamp): UserId -> nat {
    (u: UserId) => BallotWeight(roll, server, u, now)
  }

  /** A franchised voter's ballot weighs at least one, anyone else's nothing. */
  lemma BallotWeighs(roll: Franchise.Roll, server: Server, v: Vote, now: Timestamp)
    ensures Weights(roll, server, now)(v.voter) >= 1 <==> IsVoter(v, roll, server.id)
    ensures IsVoter(v, roll, server.id) && !server.weightingScope.AppliesToBallots() ==>
      Weights(roll, server, now)(v.voter) == 1
  {
  }

  predicate OnlyVotersWeigh(votes: seq<Vote>, weigh: UserId -> nat, roll: Franchise.Roll, s: ServerId) {
    forall i :: 0 <= i < |votes| ==> (weigh(votes[i].voter) >= 1 <==> IsVoter(votes[i], roll, s))
  }

  predicate NobodyWeighsMore(votes: seq<Vote>, weigh: UserId -> nat) {
    forall i :: 0 <= i < |votes| ==> weigh(votes[i].voter) <= 1
  }

  lemma OneMoreWeighs(votes: seq<Vote>, weigh: UserId -> nat)
    requires votes != []
    ensures var front, v := votes[..|votes| - 1], votes[|votes| - 1];
            && TallyOf(votes, weigh).Cast() == TallyOf(front, weigh).Cast() + weigh(v.voter)
            && (NobodyWeighsMore(votes, weigh) <==> NobodyWeighsMore(front, weigh) && weigh(v.voter) <= 1)
  {
    assert forall i | 0 <= i < |votes| - 1 :: votes[..|votes| - 1][i] == votes[i];
  }

  lemma NoVoters(roll: Franchise.Roll, s: ServerId)
    ensures |Voters([], roll, s)| == 0
  {
    assert forall k :: k !in Voters([], roll, s);
  }

  lemma {:induction false} HeadsUnderWeights(votes: seq<Vote>, weigh: UserId -> nat, roll: Franchise.Roll, s: ServerId)
    requires OneVoteEach(votes) && OnlyVotersWeigh(votes, weigh, roll, s)
    ensures TallyOf(votes, weigh).Cast() >= |Voters(votes, roll, s)|
    ensures TallyOf(votes, weigh).Cast() == |Voters(votes, roll, s)| <==> NobodyWeighsMore(votes, weigh)
    decreases |votes|
  {
    if votes == [] {
      NoVoters(roll, s);
    } else {
      HeadsUnderWeights(votes[..|votes| - 1], weigh, roll, s);
      VotersOneMore(votes, roll, s);
      OneMoreWeighs(votes, weigh);
    }
  }

  /** The weight cast is never below the number of franchised voters, and it is a head count if and only if none of
      them weighs more than one. */
  lemma HeadCountIff(votes: seq<Vote>, roll: Franchise.Roll, server: Server, now: Timestamp)
    requires OneVoteEach(votes)
    ensures TallyOf(votes, Weights(roll, server, now)).Cast() >= |Voters(votes, roll, server.id)|
    ensures TallyOf(votes, Weights(roll, server, now)).Cast() == |Voters(votes, roll, server.id)|
      <==> NobodyWeighsMore(votes, Weights(roll, server, now))
  {
    var weigh := Weights(roll, server, now);
    forall i | 0 <= i < |votes| ensures weigh(votes[i].voter) >= 1 <==> IsVoter(votes[i], roll, server.id) {
      BallotWeighs(roll, server, votes[i], now);
    }
    HeadsUnderWeights(votes, weigh, roll, server.id);
  }

  /** Unweighted it always is. */
  lemma UnweightedIsHeadCount(votes: seq<Vote>, roll: Franchise.Roll, server: Server, now: Timestamp)
    requires OneVoteEach(votes) && !server.weightingScope.AppliesToBallots()
    ensures TallyOf(votes, Weights(roll, server, now)).Cast() == |Voters(votes, roll, server.id)|
  {
    HeadCountIff(votes, roll, server, now);
    forall i | 0 <= i < |votes| ensures Weights(roll, server, now)(votes[i].voter) <= 1 {
      BallotWeighs(roll, server, votes[i], now);
    }
  }

  /** So an unweighted ballot never counts more heads than the roll it is measured against. */
  lemma TurnoutIsReal(votes: seq<Vote>, roll: Franchise.Roll, server: Server, now: Timestamp)
    requires OneVoteEach(votes) && !server.weightingScope.AppliesToBallots() && Franchise.RollOk(roll, now)
    ensures TallyOf(votes, Weights(roll, server, now)).Cast() <= Franchise.CitizenCount(roll, server.id)
  {
    UnweightedIsHeadCount(votes, roll, server, now);
    assert Voters(votes, roll, server.id) <= Franchise.Citizens(roll, server.id);
    SubsetSize(Voters(votes, roll, server.id), Franchise.Citizens(roll, server.id));
  }

  /** The franchised members who voted aye. */
  function AyeVoters(votes: seq<Vote>, roll: Franchise.Roll, s: ServerId): set<Franchise.Key> {
    set i | 0 <= i < |votes| && votes[i].isAye && IsVoter(votes[i], roll, s) :: (votes[i].voter, s)
  }

  lemma AyeVotersOneMore(votes: seq<Vote>, roll: Franchise.Roll, s: ServerId)
    requires votes != [] && OneVoteEach(votes)
    ensures var front, v := votes[..|votes| - 1], votes[|votes| - 1];
            |AyeVoters(votes, roll, s)| == |AyeVoters(front, roll, s)| + if v.isAye && IsVoter(v, roll, s) then 1 else 0
  {
    var n := |votes| - 1;
    var front, v := votes[..n], votes[n];
    assert (v.voter, s) !in AyeVoters(front, roll, s);
    assert AyeVoters(votes, roll, s)
        == AyeVoters(front, roll, s) + if v.isAye && IsVoter(v, roll, s) then {(v.voter, s)} else {};
  }

  /** Unweighted, the ayes are the distinct franchised members who voted aye. */
  lemma {:induction false} AyesAreHeads(votes: seq<Vote>, roll: Franchise.Roll, server: Server, now: Timestamp)
    requires OneVoteEach(votes) && !server.weightingScope.AppliesToBallots()
    ensures TallyOf(votes, Weights(roll, server, now)).aye == |AyeVoters(votes, roll, server.id)|
    decreases |votes|
  {
    if votes != [] {
      AyesAreHeads(votes[..|votes| - 1], roll, server, now);
      AyeVotersOneMore(votes, roll, server.id);
    }
  }

  // --- one heavy vote -----------------------------------------------------------------------------------

  lemma AloneApproves(w: nat, approvalBp: nat)
    ensures w > 0 && w * 10_000 > approvalBp * w <==> w > 0 && approvalBp < 10_000
  {
    if approvalBp < 10_000 { MulMono(w, approvalBp + 1, 10_000); } else { MulMono(w, 10_000, approvalBp); }
  }

  /** Weights break the reading of a quorum as a turnout: it compares weight cast with heads on the roll. A single
      aye passes a ballot if and only if its weight alone meets the quorum of the roll under a bar short of
      unanimity, for any roll, weights and bar. */
  lemma LoneAyePassesIff(votes: seq<Vote>, weigh: UserId -> nat, citizens: nat, bar: Threshold)
    requires |votes| == 1 && votes[0].isAye
    ensures var w := weigh(votes[0].voter);
            Passes(TallyOf(votes, weigh), citizens, bar)
            <==> citizens > 0 && w > 0 && bar.approvalBp < 10_000 && w * 10_000 >= bar.quorumBp * citizens
  {
    TallyOfOne(votes[0], weigh);
    assert votes == [votes[0]];
    AloneApproves(weigh(votes[0].voter), bar.approvalBp);
  }

  /** The constitution: one aye of weight `w` amends it alone if and only if the roll has at least ten and at most
      5w/3 citizens while Chartering, at most 2w once Sovereign. Unweighted, nobody can; at the top weight, one
      citizen of up to 32. */
  lemma LoneAmendmentIff(votes: seq<Vote>, weigh: UserId -> nat, citizens: nat)
    requires |votes| == 1 && votes[0].isAye
    ensures var w := weigh(votes[0].voter); var bar := ThresholdFor(Constitutional, Franchise.PhaseOf(citizens));
            bar.Some? && Passes(TallyOf(votes, weigh), citizens, bar.value)
            <==> citizens >= 10 && (if citizens < 25 then 3 * citizens <= 5 * w else citizens <= 2 * w)
  {
    var bar := ThresholdFor(Constitutional, Franchise.PhaseOf(citizens));
    if bar.Some? { LoneAyePassesIff(votes, weigh, citizens, bar.value); }
  }
}
