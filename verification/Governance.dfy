/** Ballots: opening, voting, and resolving what is due, as functions of the tables; and the life of a proposal
    over any run. */
module Governance {
  import opened Domain
  import opened Replica
  import opened Keyed
  import opened Calls
  import opened Services
  import opened Voting
  import opened Ids
  import Franchise

  const VOTING_WINDOW_DAYS: int := 3
  const RECALL_WINDOW_DAYS: int := 7

  /** What effects take from outside: name normalization, and which of several channels of one name a search of the
      channel table comes upon first, which is a matter of hash order. */
  datatype Names = Names(channelName: string -> string, roleName: string -> string,
                         firstAmong: set<ChannelId> -> ChannelId)

  /** Any of the channels found: the one hash order gives. */
  function Picked(names: Names, found: set<ChannelId>): (id: ChannelId)
    requires found != {}
    ensures id in found
    ensures names.firstAmong(found) in found ==> id == names.firstAmong(found)
  {
    if names.firstAmong(found) in found then names.firstAmong(found) else Least(found)
  }

  datatype VoteError = NoSuchVoter | NoSuchProposal | BallotClosed | VoterNotFranchised

  datatype ProposeError = NoSuchProposer | ServerUnknown | ProposerNotFranchised | NotGoverned | NotAllowedInPhase

  datatype Ruling<+E> = Declined(error: E) | Granted(call: Call)

  function NewProposal(id: ProposalId, server: ServerId, user: UserId, kind: ProposalKind, now: Timestamp): Proposal {
    Proposal(id, server, user, kind, now, PlusDays(now, VOTING_WINDOW_DAYS), Open, false)
  }

  predicate IsFranchisedIn(t: Tables, user: UserId, server: ServerId) {
    (user, server) in t.memberships && t.memberships[(user, server)].IsFranchised()
  }

  function OpenProposal(t: Tables, user: UserId, server: ServerId, kind: ProposalKind, id: ProposalId, now: Timestamp)
    : Ruling<ProposeError>
  {
    if user !in t.users then Declined(NoSuchProposer)
    else if server !in t.servers then Declined(ServerUnknown)
    else if !IsFranchisedIn(t, user, server) then Declined(ProposerNotFranchised)
    else if BallotKindOf(kind) !in t.servers[server].enabledBallots then Declined(NotGoverned)
    else if ThresholdFor(DecisionClassOf(kind),
                         Franchise.PhaseOf(Franchise.CitizenCount(t.memberships, server))).None? then
      Declined(NotAllowedInPhase)
    else Granted(PutProposal(NewProposal(id, server, user, kind, now)))
  }

  function CastVote(t: Tables, voter: UserId, proposal: ProposalId, isAye: bool): Ruling<VoteError> {
    if voter !in t.users then Declined(NoSuchVoter)
    else if proposal !in t.proposals then Declined(NoSuchProposal)
    else if !t.proposals[proposal].status.Open? then Declined(BallotClosed)
    else if !IsFranchisedIn(t, voter, t.proposals[proposal].serverId) then Declined(VoterNotFranchised)
    else Granted(UpsertVote(Vote(proposal, voter, isAye)))
  }

  // --- closing -----------------------------------------------------------------------------------------

  /** The threshold of the phase, and for constitutional change the recall window. */
  function Closed(p: Proposal, tally: Tally, citizens: nat, phase: Franchise.Phase, now: Timestamp): Proposal {
    var kind := DecisionClassOf(p.kind);
    match ThresholdFor(kind, phase)
    case None => p.(status := Failed)
    case Some(bar) =>
      if Passes(tally, citizens, bar) then
        p.(status := Passed(if kind.Constitutional? then PlusDays(now, RECALL_WINDOW_DAYS) else now))
      else p.(status := Failed)
  }

  predicate IsDue(p: Proposal, now: Timestamp) {
    p.status.Open? && now >= p.closesAt
  }

  predicate IsMature(p: Proposal, now: Timestamp) {
    p.status.Passed? && !p.isApplied && now >= p.status.effectiveAt
  }

  function VotesOn(t: Tables, proposal: ProposalId): seq<Vote> {
    Retain(t.votes, (v: Vote) => v.proposalId == proposal)
  }

  function WeightIn(t: Tables, server: Server, now: Timestamp): UserId -> nat {
    Weights(t.memberships, server, now)
  }

  function WeightedTally(t: Tables, server: Server, p: Proposal, now: Timestamp): Tally {
    TallyOf(VotesOn(t, p.id), WeightIn(t, server, now))
  }

  // --- effects -----------------------------------------------------------------------------------------

  function ChannelsNamed(t: Tables, s: ServerId, name: string): set<ChannelId> {
    set id | id in t.channels && t.channels[id].serverId == s && t.channels[id].name == name
  }

  predicate HasRoleNamed(t: Tables, s: ServerId, name: string) {
    exists id | id in t.roles :: t.roles[id].serverId == s && t.roles[id].name == name
  }

  predicate IsRoleOf(t: Tables, role: RoleId, s: ServerId) {
    role in t.roles && t.roles[role].serverId == s
  }

  predicate IsMemberKind(k: ProposalKind) { k.Ban? || k.Timeout? || k.GrantVoteWeight? }

  predicate IsPlaceKind(k: ProposalKind) { k.CreateChannel? || k.DeleteChannel? || k.AddRule? || k.RemoveRule? }

  predicate IsRoleKind(k: ProposalKind) { k.CreateRole? || k.DeleteRole? || k.AssignRole? || k.UnassignRole? }

  predicate IsIdleKind(k: ProposalKind) { k.Recall? || k.RemoveContent? }

  /** A sanction, or a granted ballot weight: never a path into the franchise. */
  function MemberEffect(t: Tables, p: Proposal): Option<Call>
    requires IsMemberKind(p.kind)
  {
    var k := (p.kind.user, p.serverId);
    if k !in t.memberships then None
    else if p.kind.GrantVoteWeight? then Some(PutMembership(t.memberships[k].(grantedWeight := p.kind.weight)))
    else Some(PutMembership(t.memberships[k].(isSanctioned := true)))
  }

  /** The server's row with one setting changed; the always-on ballot kinds stay on. */
  function Rewritten(s: Server, k: ProposalKind): Server {
    match k
    case SetGovernanceSurface(enabled) => s.(enabledBallots := enabled + ALWAYS_ON)
    case AmendCriteria(proposed) => s.(criteria := proposed)
    case SetJurySizing(sizing) => s.(jurySizing := sizing)
    case SetVoteWeighting(scheme) => s.(voteWeighting := scheme)
    case SetWeightingScope(scope) => s.(weightingScope := scope)
    case SetRehomingPolicy(isDisabled) => s.(isRehomingDisabled := isDisabled)
    case SetInvitePolicy(isOpen) => s.(invitesOpen := isOpen)
    case _ => s
  }

  function ServerEffect(t: Tables, p: Proposal): Option<Call> {
    if p.serverId in t.servers then Some(PutServer(Rewritten(t.servers[p.serverId], p.kind))) else None
  }

  function PlaceEffect(t: Tables, p: Proposal, names: Names, next: Counters, now: Timestamp): Option<Call>
    requires IsPlaceKind(p.kind)
  {
    var s := p.serverId;
    match p.kind
    case CreateChannel(raw, topic) =>
      var name := names.channelName(raw);
      if name != "" && ChannelsNamed(t, s, name) == {} then
        Some(PutChannel(Channel(next.Channel(), s, name, topic, now, false)))
      else None
    case DeleteChannel(raw) =>
      var found := ChannelsNamed(t, s, names.channelName(raw));
      if found != {} then Some(RemoveChannel(Picked(names, found))) else None
    case AddRule(text) => Some(PutRule(Rule(next.Rule(), s, text, now)))
    case RemoveRule(rule) => Some(Call.RemoveRule(rule))
  }

  function RoleEffect(t: Tables, p: Proposal, names: Names, next: Counters, now: Timestamp): Option<Call>
    requires IsRoleKind(p.kind)
  {
    var s := p.serverId;
    match p.kind
    case CreateRole(raw) =>
      var name := names.roleName(raw);
      if name != "" && !HasRoleNamed(t, s, name) then Some(PutRole(Role(next.Role(), s, name, now))) else None
    case DeleteRole(role) => if IsRoleOf(t, role, s) then Some(RemoveRole(role)) else None
    case AssignRole(user, role) => if IsRoleOf(t, role, s) then Some(Assign(RoleAssignment(s, role, user))) else None
    case UnassignRole(user, role) => if IsRoleOf(t, role, s) then Some(Unassign(role, user)) else None
  }

  /** The counters with every id an effect may need handed out. */
  function NextIds(ids: Counters): Counters {
    ids.(channels := ids.channels + 1, rules := ids.rules + 1, roles := ids.roles + 1)
  }

  /** The concrete meaning of each ballot kind: at most one port call, which may take the next id of its kind. Recall
      and content removal have none. */
  function EffectCall(t: Tables, p: Proposal, names: Names, ids: Counters, now: Timestamp): Option<Call> {
    if IsMemberKind(p.kind) then MemberEffect(t, p)
    else if IsPlaceKind(p.kind) then PlaceEffect(t, p, names, NextIds(ids), now)
    else if IsRoleKind(p.kind) then RoleEffect(t, p, names, NextIds(ids), now)
    else if IsIdleKind(p.kind) then None
    else ServerEffect(t, p)
  }

  /** The counters after a call that took an id. */
  function Minted(ids: Counters, c: Option<Call>): Counters {
    match c
    case Some(PutChannel(_)) => ids.(channels := ids.channels + 1)
    case Some(PutRule(_)) => ids.(rules := ids.rules + 1)
    case Some(PutRole(_)) => ids.(roles := ids.roles + 1)
    case _ => ids
  }

  // --- resolving what is due --------------------------------------------------------------------------

  /** What `resolve_due` reads once, before its loop. */
  datatype Session = Session(server: Server, citizens: nat, phase: Franchise.Phase, now: Timestamp)

  function Capture(t: Tables, s: ServerId, now: Timestamp): Session
    requires s in t.servers
  {
    var citizens := Franchise.CitizenCount(t.memberships, s);
    Session(t.servers[s], citizens, Franchise.PhaseOf(citizens), now)
  }

  /** A due ballot closed on the weighted tally; any other proposal as it is. */
  function CloseDue(t: Tables, ses: Session, p: Proposal): Proposal {
    if IsDue(p, ses.now) then Closed(p, WeightedTally(t, ses.server, p, ses.now), ses.citizens, ses.phase, ses.now)
    else p
  }

  /** The proposal as the loop leaves it: closed when due, marked applied when matured. */
  function Settle(t: Tables, ses: Session, p: Proposal): Proposal {
    var closed := CloseDue(t, ses, p);
    if IsMature(closed, ses.now) then closed.(isApplied := true) else closed
  }

  /** One execution of a passed ballot's effect. */
  datatype Executed = Executed(proposal: ProposalId, kind: ProposalKind, at: Timestamp)

  /** A node's store, its counters, and, as history, every effect it has executed. */
  datatype Site = Site(store: StoreState, ids: Counters, effects: seq<Executed>) {
    function Tables(): Replica.Tables { store.tables }
  }

  function ExecSome(s: StoreState, c: Option<Call>): StoreState {
    if c.Some? then Exec(s, c.value) else s
  }

  function Put(s: Site, p: Proposal): Site {
    s.(store := Exec(s.store, PutProposal(p)))
  }

  /** The node after a passed ballot's effect has been executed, once more. */
  function WithEffect(s: Site, p: Proposal, names: Names, now: Timestamp): Site {
    var c := EffectCall(s.Tables(), p, names, s.ids, now);
    Site(ExecSome(s.store, c), Minted(s.ids, c), s.effects + [Executed(p.id, p.kind, now)])
  }

  function ApplyIfMature(s: Site, names: Names, p: Proposal, now: Timestamp): Site {
    if IsMature(p, now) then Put(WithEffect(s, p, names, now), p.(isApplied := true)) else s
  }

  /** The node after the loop has handled one proposal of its snapshot. */
  function ResolveOne(s: Site, ses: Session, names: Names, p: Proposal): Site {
    var closed := CloseDue(s.Tables(), ses, p);
    ApplyIfMature(if IsDue(p, ses.now) then Put(s, closed) else s, names, closed, ses.now)
  }

  function ResolveList(s: Site, ses: Session, names: Names, ps: seq<Proposal>): Site
    decreases |ps|
  {
    if ps == [] then s
    else ResolveOne(ResolveList(s, ses, names, ps[..|ps| - 1]), ses, names, ps[|ps| - 1])
  }

  function ProposalsOf(t: Tables, s: ServerId): set<ProposalId> {
    set id | id in t.proposals && t.proposals[id].serverId == s
  }

  function Snapshot(t: Tables, s: ServerId): (r: seq<Proposal>)
    ensures |r| == |Sorted(ProposalsOf(t, s))|
  {
    var ids := Sorted(ProposalsOf(t, s));
    seq(|ids|, i requires 0 <= i < |ids| => assert ids[i] in ids; t.proposals[ids[i]])
  }

  function ResolveDue(s: Site, server: ServerId, names: Names, now: Timestamp): Site {
    if server !in s.Tables().servers then s
    else ResolveList(s, Capture(s.Tables(), server, now), names, Snapshot(s.Tables(), server))
  }

  // --- what an effect can touch -------------------------------------------------------------------------

  /** Rows sit at their own key. */
  ghost predicate RowsOk(t: Tables, now: Timestamp) {
    && Franchise.RollOk(t.memberships, now)
    && (forall id :: id in t.servers ==> t.servers[id].id == id)
    && (forall id :: id in t.proposals ==> t.proposals[id].id == id)
  }

  /** The tables a ballot reads are as before, and nobody's franchise has changed. */
  ghost predicate BallotsUntouched(t: Tables, t': Tables, now: Timestamp) {
    && t'.proposals == t.proposals && t'.votes == t.votes
    && Franchise.Changes(t.memberships, Franchise.Kept, now, t'.memberships)
    && t'.servers.Keys == t.servers.Keys
    && (forall id :: id in t'.servers ==> t'.servers[id].id == id)
  }

  predicate IsEffectCall(t: Tables, c: Call) {
    || c.PutChannel? || c.RemoveChannel? || c.PutRule? || c.RemoveRule? || c.PutRole? || c.RemoveRole?
    || c.Assign? || c.Unassign?
    || (c.PutServer? && c.server.id in t.servers)
    || (c.PutMembership? && (c.membership.userId, c.membership.serverId) in t.memberships
        && Franchise.FranchiseKept(t.memberships[(c.membership.userId, c.membership.serverId)], c.membership))
  }

  lemma EffectIsModest(t: Tables, p: Proposal, names: Names, ids: Counters, now: Timestamp)
    requires RowsOk(t, now) && EffectCall(t, p, names, ids, now).Some?
    ensures IsEffectCall(t, EffectCall(t, p, names, ids, now).value)
  {
  }

  lemma EffectCallSpares(t: Tables, c: Call, now: Timestamp)
    requires RowsOk(t, now) && IsEffectCall(t, c)
    ensures BallotsUntouched(t, TablesAfter(t, c), now)
  {
  }

  /** No ballot effect touches a proposal, a vote, a tier or an enfranchisement time. */
  lemma EffectSparesBallots(t: Tables, p: Proposal, names: Names, ids: Counters, now: Timestamp)
    requires RowsOk(t, now) && EffectCall(t, p, names, ids, now).Some?
    ensures BallotsUntouched(t, TablesAfter(t, EffectCall(t, p, names, ids, now).value), now)
  {
    EffectIsModest(t, p, names, ids, now);
    EffectCallSpares(t, EffectCall(t, p, names, ids, now).value, now);
  }

  // --- one pass of the loop --------------------------------------------------------------------------------

  function EffectiveAt(k: ProposalKind, closedAt: Timestamp): Timestamp {
    PlusDays(closedAt, if DecisionClassOf(k).Constitutional? then RECALL_WINDOW_DAYS else 0)
  }

  /** What may happen to a proposal between two states: nothing, leaving Open once its window is over, having a
      passed and matured effect marked applied. Nothing else ever. */
  ghost predicate Evolves(p: Proposal, p': Proposal, now: Timestamp) {
    && p' == p.(status := p'.status, isApplied := p'.isApplied)
    && (p'.status != p.status ==> IsDue(p, now) && (p'.status.Failed? || p'.status == Passed(EffectiveAt(p.kind, now))))
    && (p'.isApplied != p.isApplied ==> p'.isApplied && p'.status.Passed? && now >= p'.status.effectiveAt)
  }

  /** Nothing left to do for it at this instant. */
  predicate IsQuiet(p: Proposal, now: Timestamp) {
    !IsDue(p, now) && !IsMature(p, now)
  }

  lemma SettleOutcome(t: Tables, ses: Session, p: Proposal)
    ensures Evolves(p, Settle(t, ses, p), ses.now)
    ensures IsQuiet(Settle(t, ses, p), ses.now)
    ensures IsQuiet(p, ses.now) ==> Settle(t, ses, p) == p
  {
  }

  lemma PutProposalOutcome(t: Tables, p: Proposal, now: Timestamp)
    requires RowsOk(t, now)
    ensures var t' := TablesAfter(t, PutProposal(p));
            RowsOk(t', now) && t' == t.(proposals := t.proposals[p.id := p])
  {
  }

  /** What a step of the loop leaves alone. */
  ghost predicate OnlyBallotsMoved(t: Tables, t': Tables, now: Timestamp) {
    && t'.votes == t.votes
    && Franchise.Changes(t.memberships, Franchise.Kept, now, t'.memberships)
    && t'.servers.Keys == t.servers.Keys
    && RowsOk(t', now)
  }

  lemma PutMoves(s: Site, p: Proposal, now: Timestamp)
    requires RowsOk(s.Tables(), now)
    ensures Put(s, p).Tables() == s.Tables().(proposals := s.Tables().proposals[p.id := p])
    ensures OnlyBallotsMoved(s.Tables(), Put(s, p).Tables(), now)
  {
    PutProposalOutcome(s.Tables(), p, now);
  }

  lemma EffectMoves(s: Site, p: Proposal, names: Names, now: Timestamp)
    requires RowsOk(s.Tables(), now)
    ensures var t' := WithEffect(s, p, names, now).Tables();
            t'.proposals == s.Tables().proposals && OnlyBallotsMoved(s.Tables(), t', now)
  {
    if EffectCall(s.Tables(), p, names, s.ids, now).Some? {
      EffectSparesBallots(s.Tables(), p, names, s.ids, now);
      Franchise.ChangeKeepsOk(s.Tables().memberships, Franchise.Kept, now,
                              WithEffect(s, p, names, now).Tables().memberships);
    }
  }

  lemma MovedTwice(a: Tables, b: Tables, c: Tables, now: Timestamp)
    requires OnlyBallotsMoved(a, b, now) && OnlyBallotsMoved(b, c, now)
    ensures OnlyBallotsMoved(a, c, now)
  {
  }

  /** Applying an effect and marking it applied, or leaving it. */
  lemma ApplyOutcome(s: Site, names: Names, p: Proposal, now: Timestamp)
    requires RowsOk(s.Tables(), now)
    ensures var t, t' := s.Tables(), ApplyIfMature(s, names, p, now).Tables();
            && t'.proposals == (if IsMature(p, now) then t.proposals[p.id := p.(isApplied := true)] else t.proposals)
            && OnlyBallotsMoved(t, t', now)
  {
    if IsMature(p, now) {
      var mid := WithEffect(s, p, names, now);
      EffectMoves(s, p, names, now);
      PutMoves(mid, p.(isApplied := true), now);
      MovedTwice(s.Tables(), mid.Tables(), Put(mid, p.(isApplied := true)).Tables(), now);
    }
  }

  lemma DueOutcome(s: Site, ses: Session, names: Names, p: Proposal)
    requires RowsOk(s.Tables(), ses.now) && IsDue(p, ses.now)
    ensures var t, t' := s.Tables(), ResolveOne(s, ses, names, p).Tables();
            t'.proposals == t.proposals[p.id := Settle(t, ses, p)] && OnlyBallotsMoved(t, t', ses.now)
  {
    var closed := CloseDue(s.Tables(), ses, p);
    PutMoves(s, closed, ses.now);
    ApplyOutcome(Put(s, closed), names, closed, ses.now);
    MovedTwice(s.Tables(), Put(s, closed).Tables(), ResolveOne(s, ses, names, p).Tables(), ses.now);
  }

  lemma ResolveOneOutcome(s: Site, ses: Session, names: Names, p: Proposal)
    requires RowsOk(s.Tables(), ses.now) && p.id in s.Tables().proposals && s.Tables().proposals[p.id] == p
    ensures var t, t' := s.Tables(), ResolveOne(s, ses, names, p).Tables();
            t'.proposals == t.proposals[p.id := Settle(t, ses, p)] && OnlyBallotsMoved(t, t', ses.now)
  {
    if IsDue(p, ses.now) { DueOutcome(s, ses, names, p); } else { ApplyOutcome(s, names, p, ses.now); }
  }

  // --- the whole loop ------------------------------------------------------------------------------------------

  function IdsOf(ps: seq<Proposal>): set<ProposalId> {
    set i | 0 <= i < |ps| :: ps[i].id
  }

  /** A snapshot of stored proposals, each once. */
  ghost predicate IsSnapshot(t: Tables, ps: seq<Proposal>) {
    && (forall i :: 0 <= i < |ps| ==> ps[i].id in t.proposals && t.proposals[ps[i].id] == ps[i])
    && (forall i, j :: 0 <= i < j < |ps| ==> ps[i].id != ps[j].id)
  }

  /** Every listed proposal has evolved and is quiet; every other is as it was. */
  ghost predicate IsResolved(before: map<ProposalId, Proposal>, after: map<ProposalId, Proposal>, ids: set<ProposalId>,
                             now: Timestamp)
  {
    && after.Keys == before.Keys
    && forall id :: id in before ==>
         if id in ids then Evolves(before[id], after[id], now) && IsQuiet(after[id], now) else after[id] == before[id]
  }

  lemma ResolvedOneMore(before: map<ProposalId, Proposal>, mid: map<ProposalId, Proposal>, ids: set<ProposalId>,
                        p: Proposal, settled: Proposal, now: Timestamp)
    requires IsResolved(before, mid, ids, now) && p.id !in ids && p.id in before && before[p.id] == p
    requires Evolves(p, settled, now) && IsQuiet(settled, now)
    ensures IsResolved(before, mid[p.id := settled], ids + {p.id}, now)
  {
  }

  lemma SnapshotFront(t: Tables, ps: seq<Proposal>)
    requires ps != [] && IsSnapshot(t, ps)
    ensures var front, p := ps[..|ps| - 1], ps[|ps| - 1];
            && IsSnapshot(t, front) && p.id in t.proposals && t.proposals[p.id] == p
            && p.id !in IdsOf(front) && IdsOf(ps) == IdsOf(front) + {p.id}
  {
  }

  /** One more proposal of the list. */
  lemma ResolveNextOutcome(t: Tables, mid: Site, ses: Session, names: Names, ids: set<ProposalId>, p: Proposal)
    requires OnlyBallotsMoved(t, mid.Tables(), ses.now) && IsResolved(t.proposals, mid.Tables().proposals, ids, ses.now)
    requires p.id !in ids && p.id in t.proposals && t.proposals[p.id] == p
    ensures OnlyBallotsMoved(t, ResolveOne(mid, ses, names, p).Tables(), ses.now)
    ensures IsResolved(t.proposals, ResolveOne(mid, ses, names, p).Tables().proposals, ids + {p.id}, ses.now)
  {
    ResolveOneOutcome(mid, ses, names, p);
    SettleOutcome(mid.Tables(), ses, p);
    ResolvedOneMore(t.proposals, mid.Tables().proposals, ids, p, Settle(mid.Tables(), ses, p), ses.now);
    MovedTwice(t, mid.Tables(), ResolveOne(mid, ses, names, p).Tables(), ses.now);
  }

  lemma {:induction false} ResolveListOutcome(s: Site, ses: Session, names: Names, ps: seq<Proposal>)
    requires RowsOk(s.Tables(), ses.now) && IsSnapshot(s.Tables(), ps)
    ensures OnlyBallotsMoved(s.Tables(), ResolveList(s, ses, names, ps).Tables(), ses.now)
    ensures IsResolved(s.Tables().proposals, ResolveList(s, ses, names, ps).Tables().proposals, IdsOf(ps), ses.now)
    decreases |ps|
  {
    if ps != [] {
      var front, p := ps[..|ps| - 1], ps[|ps| - 1];
      SnapshotFront(s.Tables(), ps);
      ResolveListOutcome(s, ses, names, front);
      ResolveNextOutcome(s.Tables(), ResolveList(s, ses, names, front), ses, names, IdsOf(front), p);
    }
  }

  lemma SnapshotIsOne(t: Tables, s: ServerId, now: Timestamp)
    requires RowsOk(t, now)
    ensures IsSnapshot(t, Snapshot(t, s))
    ensures IdsOf(Snapshot(t, s)) == ProposalsOf(t, s)
  {
    var ids := Sorted(ProposalsOf(t, s));
    var ps := Snapshot(t, s);
    forall i | 0 <= i < |ps| ensures ps[i].id == ids[i] && ids[i] in t.proposals && t.proposals[ids[i]] == ps[i] {
      assert ids[i] in ids;
    }
    forall id | id in ProposalsOf(t, s) ensures id in IdsOf(ps) {
      assert id in ids;
      var i :| 0 <= i < |ids| && ids[i] == id;
      assert ps[i].id == id;
    }
    forall id | id in IdsOf(ps) ensures id in ProposalsOf(t, s) {
      var i :| 0 <= i < |ps| && ps[i].id == id;
      assert ids[i] in ids;
    }
  }

  /** Resolving a server: every proposal of it evolves and is left quiet, no other proposal, no vote and
      nobody's franchise is touched. */
  lemma ResolveOutcome(s: Site, server: ServerId, names: Names, now: Timestamp)
    requires RowsOk(s.Tables(), now)
    ensures var t, t' := s.Tables(), ResolveDue(s, server, names, now).Tables();
            && OnlyBallotsMoved(t, t', now)
            && (server in t.servers ==> IsResolved(t.proposals, t'.proposals, ProposalsOf(t, server), now))
            && (server !in t.servers ==> ResolveDue(s, server, names, now) == s)
  {
    if server in s.Tables().servers {
      SnapshotIsOne(s.Tables(), server, now);
      ResolveListOutcome(s, Capture(s.Tables(), server, now), names, Snapshot(s.Tables(), server));
    }
  }

  /** The citizen count and phase read before the loop stay those of the roll all the way through it. */
  lemma CapturedPhaseStaysValid(s: Site, server: ServerId, names: Names, now: Timestamp, k: nat)
    requires RowsOk(s.Tables(), now) && server in s.Tables().servers && k <= |Snapshot(s.Tables(), server)|
    ensures var ses := Capture(s.Tables(), server, now);
            var mid := ResolveList(s, ses, names, Snapshot(s.Tables(), server)[..k]).Tables();
            && server in mid.servers
            && Capture(mid, server, now).citizens == ses.citizens && Capture(mid, server, now).phase == ses.phase
  {
    var t := s.Tables();
    SnapshotIsOne(t, server, now);
    ResolveListOutcome(s, Capture(t, server, now), names, Snapshot(t, server)[..k]);
    var mid := ResolveList(s, Capture(t, server, now), names, Snapshot(t, server)[..k]).Tables();
    assert Franchise.Citizens(mid.memberships, server) == Franchise.Citizens(t.memberships, server);
  }

  lemma {:induction false} QuietListStays(s: Site, ses: Session, names: Names, ps: seq<Proposal>)
    requires forall i :: 0 <= i < |ps| ==> IsQuiet(ps[i], ses.now)
    ensures ResolveList(s, ses, names, ps) == s
    decreases |ps|
  {
    if ps != [] {
      QuietListStays(s, ses, names, ps[..|ps| - 1]);
      assert IsQuiet(ps[|ps| - 1], ses.now);
    }
  }

  /** When every proposal of a server is quiet there is nothing to resolve. */
  lemma NothingDue(s: Site, server: ServerId, names: Names, now: Timestamp)
    requires RowsOk(s.Tables(), now)
    requires forall id :: id in ProposalsOf(s.Tables(), server) ==> IsQuiet(s.Tables().proposals[id], now)
    ensures ResolveDue(s, server, names, now) == s
  {
    if server in s.Tables().servers {
      SnapshotIsOne(s.Tables(), server, now);
      var ps := Snapshot(s.Tables(), server);
      forall i | 0 <= i < |ps| ensures IsQuiet(ps[i], now) { assert ps[i].id in IdsOf(ps); }
      QuietListStays(s, Capture(s.Tables(), server, now), names, ps);
    }
  }

  lemma AllQuietAfter(s: Site, server: ServerId, names: Names, now: Timestamp)
    requires RowsOk(s.Tables(), now) && server in s.Tables().servers
    ensures var t' := ResolveDue(s, server, names, now).Tables();
            RowsOk(t', now) && forall id :: id in ProposalsOf(t', server) ==> IsQuiet(t'.proposals[id], now)
  {
    ResolveOutcome(s, server, names, now);
    var t, t' := s.Tables(), ResolveDue(s, server, names, now).Tables();
    forall id | id in ProposalsOf(t', server) ensures IsQuiet(t'.proposals[id], now) {
      assert id in t.proposals;
      assert t'.proposals[id].serverId == t.proposals[id].serverId;
      assert id in ProposalsOf(t, server);
    }
  }

  /** Calling it again at the same instant changes nothing: not the tables, not the outbox, no effect a second time. */
  lemma ResolveTwiceIsOnce(s: Site, server: ServerId, names: Names, now: Timestamp)
    requires RowsOk(s.Tables(), now)
    ensures ResolveDue(ResolveDue(s, server, names, now), server, names, now) == ResolveDue(s, server, names, now)
  {
    if server in s.Tables().servers {
      AllQuietAfter(s, server, names, now);
      NothingDue(ResolveDue(s, server, names, now), server, names, now);
    } else {
      ResolveOutcome(s, server, names, now);
    }
  }

  // --- every effect once ------------------------------------------------------------------------------------------

  ghost predicate IsLogged(effects: seq<Executed>, id: ProposalId) {
    exists i :: 0 <= i < |effects| && effects[i].proposal == id
  }

  /** The log of executed effects: no proposal twice, each passed and matured when it was executed, and exactly those
      marked applied. */
  ghost predicate LogOk(s: Site) {
    && (forall i, j :: 0 <= i < j < |s.effects| ==> s.effects[i].proposal != s.effects[j].proposal)
    && (forall i :: 0 <= i < |s.effects| ==> IsMatureEffect(s, s.effects[i]))
    && (forall id :: id in s.Tables().proposals && s.Tables().proposals[id].isApplied ==> IsLogged(s.effects, id))
  }

  predicate IsMatureEffect(s: Site, e: Executed) {
    e.proposal in s.Tables().proposals &&
    var p := s.Tables().proposals[e.proposal];
    p.isApplied && p.status.Passed? && p.kind == e.kind && e.at >= p.status.effectiveAt
  }

  /** Writing an unapplied proposal where none is applied leaves the log right. */
  lemma PutKeepsLog(s: Site, p: Proposal)
    requires LogOk(s) && !p.isApplied
    requires p.id in s.Tables().proposals ==> !s.Tables().proposals[p.id].isApplied
    ensures LogOk(Put(s, p))
  {
    forall i | 0 <= i < |s.effects| ensures IsMatureEffect(Put(s, p), s.effects[i]) {
      assert IsMatureEffect(s, s.effects[i]);
    }
  }

  lemma SameProposalsKeepLog(s: Site, s': Site)
    requires LogOk(s) && s'.Tables().proposals == s.Tables().proposals && s'.effects == s.effects
    ensures LogOk(s')
  {
    forall i | 0 <= i < |s'.effects| ensures IsMatureEffect(s', s'.effects[i]) {
      assert IsMatureEffect(s, s.effects[i]);
    }
  }

  /** A matured effect was not logged before, and is after. */
  lemma ApplyKeepsLog(s: Site, names: Names, p: Proposal, now: Timestamp)
    requires LogOk(s) && RowsOk(s.Tables(), now)
    requires IsMature(p, now) && p.id in s.Tables().proposals && !s.Tables().proposals[p.id].isApplied
    ensures LogOk(ApplyIfMature(s, names, p, now))
  {
    var s' := ApplyIfMature(s, names, p, now);
    ApplyOutcome(s, names, p, now);
    var effects, e := s.effects, Executed(p.id, p.kind, now);
    assert s'.effects == effects + [e];
    forall i | 0 <= i < |effects| ensures effects[i].proposal != p.id && IsMatureEffect(s', effects[i]) {
      assert IsMatureEffect(s, effects[i]);
    }
    forall id | id in s'.Tables().proposals && s'.Tables().proposals[id].isApplied ensures IsLogged(s'.effects, id) {
      if id == p.id {
        assert s'.effects[|effects|].proposal == id;
      } else {
        var i :| 0 <= i < |effects| && effects[i].proposal == id;
        assert s'.effects[i].proposal == id;
      }
    }
  }

  lemma ResolveOneKeepsLog(s: Site, ses: Session, names: Names, p: Proposal)
    requires LogOk(s) && RowsOk(s.Tables(), ses.now) && p.id in s.Tables().proposals && s.Tables().proposals[p.id] == p
    ensures LogOk(ResolveOne(s, ses, names, p))
  {
    if p.isApplied {
      var i :| 0 <= i < |s.effects| && s.effects[i].proposal == p.id;
      assert IsMatureEffect(s, s.effects[i]);
    }
    var closed := CloseDue(s.Tables(), ses, p);
    if IsDue(p, ses.now) {
      PutKeepsLog(s, closed);
      PutMoves(s, closed, ses.now);
      if IsMature(closed, ses.now) { ApplyKeepsLog(Put(s, closed), names, closed, ses.now); }
    } else if IsMature(p, ses.now) {
      ApplyKeepsLog(s, names, p, ses.now);
    }
  }

  lemma {:induction false} ResolveListKeepsLog(s: Site, ses: Session, names: Names, ps: seq<Proposal>)
    requires LogOk(s) && RowsOk(s.Tables(), ses.now) && IsSnapshot(s.Tables(), ps)
    ensures LogOk(ResolveList(s, ses, names, ps))
    decreases |ps|
  {
    if ps != [] {
      var front, p := ps[..|ps| - 1], ps[|ps| - 1];
      SnapshotFront(s.Tables(), ps);
      ResolveListKeepsLog(s, ses, names, front);
      ResolveListOutcome(s, ses, names, front);
      ResolveOneKeepsLog(ResolveList(s, ses, names, front), ses, names, p);
    }
  }

  /** Resolving executes each effect at most once, ever, and only when passed and matured. */
  lemma ResolveKeepsLog(s: Site, server: ServerId, names: Names, now: Timestamp)
    requires LogOk(s) && RowsOk(s.Tables(), now)
    ensures LogOk(ResolveDue(s, server, names, now))
  {
    if server in s.Tables().servers {
      SnapshotIsOne(s.Tables(), server, now);
      ResolveListKeepsLog(s, Capture(s.Tables(), server, now), names, Snapshot(s.Tables(), server));
    }
  }
}
