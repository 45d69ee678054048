/** Which ballots pass: the bar of every kind in numbers, for one ballot and for all that a call resolves. */
module Closing {
  import opened Domain
  import opened Replica
  import opened Calls
  import opened Voting
  import opened Governance
  import BallotLife
  import Franchise

  /** At least `quorumBp` ten-thousandths of the roll cast, and more than `approvalBp` of what was cast is aye. */
  predicate Meets(aye: nat, cast: nat, citizens: nat, quorumBp: nat, approvalBp: nat) {
    citizens > 0 && cast * 10_000 >= quorumBp * citizens && cast > 0 && aye * 10_000 > approvalBp * cast
  }

  predicate IsAmendment(k: ProposalKind) {
    k.AmendCriteria? || k.SetVoteWeighting? || k.SetWeightingScope? || k.SetRehomingPolicy?
  }

  /** Removing content: a tenth of the roll and a majority. Amending the constitution: not below ten citizens, 60% of
      the roll and 75% below twenty-five, half of it and 66.66% from there. Anything else: 30% and 60%. */
  predicate MeetsBar(k: ProposalKind, aye: nat, cast: nat, citizens: nat) {
    if k.RemoveContent? then Meets(aye, cast, citizens, 1_000, 5_000)
    else if !IsAmendment(k) then Meets(aye, cast, citizens, 3_000, 6_000)
    else if citizens < 10 then false
    else if citizens < 25 then Meets(aye, cast, citizens, 6_000, 7_500)
    else Meets(aye, cast, citizens, 5_000, 6_666)
  }

  /** A ballot that is closed passes exactly when it meets the bar of its kind, and takes effect at once, an amendment
      seven days later; otherwise it has failed. */
  lemma ClosedIff(p: Proposal, tally: Tally, citizens: nat, now: Timestamp)
    ensures var p' := Closed(p, tally, citizens, Franchise.PhaseOf(citizens), now);
            p' == p.(status := if !MeetsBar(p.kind, tally.aye, tally.aye + tally.nay, citizens) then Failed
                               else Passed(if IsAmendment(p.kind) then now + 7 * 86_400 else now))
  {
  }

  // --- everything a call resolves -----------------------------------------------------------------------------

  /** The tables a proposal of the snapshot is tallied on: those its predecessors in the loop left. */
  function TurnOf(s: Site, ses: Session, names: Names, ps: seq<Proposal>, k: nat): Tables
    requires k <= |ps|
  {
    ResolveList(s, ses, names, ps[..k]).Tables()
  }

  lemma LastSettles(s: Site, ses: Session, names: Names, ps: seq<Proposal>)
    requires RowsOk(s.Tables(), ses.now) && IsSnapshot(s.Tables(), ps) && ps != []
    ensures var n := |ps| - 1; var mid := ResolveList(s, ses, names, ps[..n]).Tables();
            ResolveList(s, ses, names, ps).Tables().proposals == mid.proposals[ps[n].id := Settle(mid, ses, ps[n])]
  {
    var n := |ps| - 1;
    SnapshotFront(s.Tables(), ps);
    ResolveListOutcome(s, ses, names, ps[..n]);
    ResolveOneOutcome(ResolveList(s, ses, names, ps[..n]), ses, names, ps[n]);
  }

  lemma FrontIsSnapshot(t: Tables, ps: seq<Proposal>, k: nat)
    requires IsSnapshot(t, ps) && k < |ps| - 1
    ensures IsSnapshot(t, ps[..|ps| - 1]) && ps[k].id != ps[|ps| - 1].id
  {
  }

  /** Each proposal of the snapshot ends as it is settled at its turn. */
  lemma {:induction false} SettledAtTurn(s: Site, ses: Session, names: Names, ps: seq<Proposal>, k: nat)
    requires RowsOk(s.Tables(), ses.now) && IsSnapshot(s.Tables(), ps) && k < |ps|
    ensures var t' := ResolveList(s, ses, names, ps).Tables();
            ps[k].id in t'.proposals && t'.proposals[ps[k].id] == Settle(TurnOf(s, ses, names, ps, k), ses, ps[k])
    decreases |ps|
  {
    LastSettles(s, ses, names, ps);
    if k < |ps| - 1 {
      FrontIsSnapshot(s.Tables(), ps, k);
      SettledAtTurn(s, ses, names, ps[..|ps| - 1], k);
      assert ps[..|ps| - 1][..k] == ps[..k];
    }
  }

  /** Every proposal of the server that is due ends passed exactly when the ballots cast on it, weighed at its turn,
      meet the bar of its kind for the roll the call found; every other keeps its status. */
  lemma ResolvedIff(s: Site, server: ServerId, names: Names, now: Timestamp, k: nat)
    requires RowsOk(s.Tables(), now) && server in s.Tables().servers && k < |Snapshot(s.Tables(), server)|
    ensures var t, t', ses := s.Tables(), ResolveDue(s, server, names, now).Tables(), Capture(s.Tables(), server, now);
            var p, turn := Snapshot(t, server)[k], TurnOf(s, ses, names, Snapshot(t, server), k);
            var tally := WeightedTally(turn, t.servers[server], p, now);
            && p.id in t'.proposals && p.id in t.proposals && t.proposals[p.id] == p
            && t'.proposals[p.id].status
               == if !(p.status.Open? && now >= p.closesAt) then p.status
                  else if !MeetsBar(p.kind, tally.aye, tally.aye + tally.nay,
                                    Franchise.CitizenCount(t.memberships, server)) then Failed
                  else Passed(if IsAmendment(p.kind) then now + 7 * 86_400 else now)
  {
    var t, ses, ps := s.Tables(), Capture(s.Tables(), server, now), Snapshot(s.Tables(), server);
    SnapshotIsOne(t, server, now);
    SettledAtTurn(s, ses, names, ps, k);
    ClosedIff(ps[k], WeightedTally(TurnOf(s, ses, names, ps, k), ses.server, ps[k], now), ses.citizens, now);
  }

  predicate AppliedInTime(p: Proposal, p': Proposal, now: Timestamp) {
    && (p'.isApplied <==> p.isApplied || (p'.status.Passed? && now >= p'.status.effectiveAt))
    && p'.(status := p.status, isApplied := p.isApplied) == p
  }

  lemma SettledInTime(t: Tables, ses: Session, p: Proposal)
    ensures AppliedInTime(p, Settle(t, ses, p), ses.now)
  {
  }

  /** And every proposal of the server that has passed, before or just now, and whose time has come is applied; none is
      applied otherwise, and nothing but its status and this mark has changed. */
  lemma AppliedIff(s: Site, server: ServerId, names: Names, now: Timestamp, k: nat)
    requires RowsOk(s.Tables(), now) && server in s.Tables().servers && k < |Snapshot(s.Tables(), server)|
    ensures var p, t' := Snapshot(s.Tables(), server)[k], ResolveDue(s, server, names, now).Tables();
            p.id in t'.proposals && AppliedInTime(p, t'.proposals[p.id], now)
  {
    var t, ses, ps := s.Tables(), Capture(s.Tables(), server, now), Snapshot(s.Tables(), server);
    SnapshotIsOne(t, server, now);
    SettledAtTurn(s, ses, names, ps, k);
    SettledInTime(TurnOf(s, ses, names, ps, k), ses, ps[k]);
  }

  lemma TurnKeepsVotes(s: Site, ses: Session, names: Names, ps: seq<Proposal>, k: nat)
    requires RowsOk(s.Tables(), ses.now) && IsSnapshot(s.Tables(), ps) && k <= |ps|
    ensures TurnOf(s, ses, names, ps, k).votes == s.Tables().votes
  {
    ResolveListOutcome(s, ses, names, ps[..k]);
  }

  /** Unweighted, by heads: the franchised members who voted, and those of them who voted aye. A member sanctioned by a
      ballot resolved earlier in the same call is no longer among them. */
  lemma ResolvedByHeads(s: Site, server: ServerId, names: Names, now: Timestamp, k: nat)
    requires RowsOk(s.Tables(), now) && server in s.Tables().servers && k < |Snapshot(s.Tables(), server)|
    requires BallotLife.OneBallotEach(s.Tables().votes)
    requires !s.Tables().servers[server].weightingScope.AppliesToBallots() && s.Tables().servers[server].id == server
    ensures var t, ses := s.Tables(), Capture(s.Tables(), server, now);
            var p, turn := Snapshot(t, server)[k], TurnOf(s, ses, names, Snapshot(t, server), k);
            var t', votes := ResolveDue(s, server, names, now).Tables(), VotesOn(t, p.id);
            p.status.Open? && now >= p.closesAt ==>
              p.id in t'.proposals
              && (t'.proposals[p.id].status.Passed?
                  <==> MeetsBar(p.kind, |AyeVoters(votes, turn.memberships, server)|,
                                |Voters(votes, turn.memberships, server)|,
                                Franchise.CitizenCount(t.memberships, server)))
  {
    var t, ses, ps := s.Tables(), Capture(s.Tables(), server, now), Snapshot(s.Tables(), server);
    var p, turn := ps[k], TurnOf(s, ses, names, ps, k);
    SnapshotIsOne(t, server, now);
    ResolvedIff(s, server, names, now, k);
    TurnKeepsVotes(s, ses, names, ps, k);
    assert VotesOn(turn, p.id) == VotesOn(t, p.id);
    BallotLife.CountedOnce(t, p.id);
    AyesAreHeads(VotesOn(t, p.id), turn.memberships, ses.server, now);
    UnweightedIsHeadCount(VotesOn(t, p.id), turn.memberships, ses.server, now);
  }
}
