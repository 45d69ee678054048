/** What each passed ballot does once its effect is executed, as the rest of the platform sees it. */
module Effects {
  import opened Domain
  import opened Replica
  import opened Keyed
  import opened Calls
  import opened Services
  import opened Voting
  import opened Governance
  import opened Ids
  import Chat
  import EmojiBoard
  import Franchise

  /** The tables an executed effect leaves. */
  function Left(s: Site, p: Proposal, names: Names, now: Timestamp): Tables {
    WithEffect(s, p, names, now).Tables()
  }

  lemma LeftIs(s: Site, p: Proposal, names: Names, now: Timestamp)
    ensures var c := EffectCall(s.Tables(), p, names, s.ids, now);
            Left(s, p, names, now) == if c.Some? then TablesAfter(s.Tables(), c.value) else s.Tables()
  {
  }

  /** Marking the proposal applied is all that resolving adds to it. */
  lemma AppliedLeaves(s: Site, names: Names, p: Proposal, now: Timestamp)
    requires IsMature(p, now)
    ensures ApplyIfMature(s, names, p, now).Tables()
         == Left(s, p, names, now).(proposals := Left(s, p, names, now).proposals[p.id := p.(isApplied := true)])
  {
  }

  // --- sanctions -----------------------------------------------------------------------------------------

  /** A ban or a timeout sanctions a member, and does nothing to anybody else or anything else. */
  lemma BanSanctions(s: Site, p: Proposal, user: UserId, names: Names, now: Timestamp)
    requires Franchise.RollOk(s.Tables().memberships, now)
    requires p.kind == Ban(user) || (p.kind.Timeout? && p.kind.user == user)
    ensures var t, k := s.Tables(), (user, p.serverId);
            Left(s, p, names, now)
            == if k in t.memberships then t.(memberships := t.memberships[k := t.memberships[k].(isSanctioned := true)])
               else t
  {
  }

  /** What a sanctioned member of a server may still try there. */
  datatype Try =
    | TryPost(channel: ChannelId, body: string, attachments: seq<string>)
    | TrySealed(channel: ChannelId, ciphertext: string, keyEpoch: nat, parent: Option<MessageId>)
    | TryReply(to: MessageId, body: string)
    | TryVote(proposal: ProposalId, isAye: bool)
    | TryPropose(kind: ProposalKind)
    | TryEmoji(emoji: EmojiId, isUp: bool)

  /** A try goes through. */
  predicate Succeeds(t: Tables, user: UserId, server: ServerId, a: Try, id: nat, now: Timestamp) {
    match a
    case TryPost(c, body, files) => Chat.PostMessage(t, user, server, c, body, files, id, now).Posted?
    case TrySealed(c, text, epoch, parent) =>
      Chat.PostSealedMessage(t, user, server, c, text, epoch, parent, id, now).Posted?
    case TryReply(to, body) =>
      to in t.messages && t.messages[to].serverId == server && Chat.ReplyMessage(t, user, to, body, id, now).Posted?
    case TryVote(p, isAye) =>
      p in t.proposals && t.proposals[p].serverId == server && CastVote(t, user, p, isAye).Granted?
    case TryPropose(kind) => OpenProposal(t, user, server, kind, id, now).Granted?
    case TryEmoji(emoji, isUp) => EmojiBoard.VoteEmoji(t, user, server, emoji, isUp).Taken?
  }

  predicate IsSanctionedIn(t: Tables, user: UserId, server: ServerId) {
    (user, server) in t.memberships && t.memberships[(user, server)].isSanctioned
  }

  /** Somebody under a sanction is not franchised, weighs nothing, and posts, replies, votes and proposes nothing. */
  lemma SanctionSilences(t: Tables, user: UserId, server: Server, a: Try, id: nat, now: Timestamp)
    requires IsSanctionedIn(t, user, server.id)
    ensures !IsFranchisedIn(t, user, server.id) && BallotWeight(t.memberships, server, user, now) == 0
    ensures !Succeeds(t, user, server.id, a, id, now)
  {
  }

  /** So after an executed ban or timeout of a member. */
  lemma BanSilences(s: Site, p: Proposal, user: UserId, names: Names, now: Timestamp, server: Server, a: Try, id: nat,
                    later: Timestamp)
    requires Franchise.RollOk(s.Tables().memberships, now) && (user, p.serverId) in s.Tables().memberships
    requires p.kind == Ban(user) || (p.kind.Timeout? && p.kind.user == user)
    requires server.id == p.serverId
    ensures var t' := Left(s, p, names, now);
            IsSanctionedIn(t', user, p.serverId) && !Succeeds(t', user, p.serverId, a, id, later)
            && BallotWeight(t'.memberships, server, user, later) == 0
  {
    BanSanctions(s, p, user, names, now);
    SanctionSilences(Left(s, p, names, now), user, server, a, id, later);
  }

  // --- granted weight ------------------------------------------------------------------------------------

  /** A granted weight is written on the member's row, and on nothing else. */
  lemma GrantIsWritten(s: Site, p: Proposal, names: Names, now: Timestamp)
    requires Franchise.RollOk(s.Tables().memberships, now) && p.kind.GrantVoteWeight?
    ensures var t, k := s.Tables(), (p.kind.user, p.serverId);
            Left(s, p, names, now)
            == if k in t.memberships then
                 t.(memberships := t.memberships[k := t.memberships[k].(grantedWeight := p.kind.weight)])
               else t
  {
  }

  function Held(x: nat, low: nat, high: nat): nat {
    if x < low then low else if x > high then high else x
  }

  lemma WeightAsGranted(roll: Franchise.Roll, k: Franchise.Key, w: nat, server: Server, now: Timestamp)
    requires k in roll && server.id == k.1 && server.voteWeighting.ByRole? && server.weightingScope.AppliesToBallots()
    ensures BallotWeight(roll[k := roll[k].(grantedWeight := w)], server, k.0, now)
         == if roll[k].IsFranchised() then Held(w, 1, 16) else 0
  {
  }

  /** Where ballots weigh by role, a franchised citizen's weighs what was granted, from 1 to 16; and nobody is
      franchised by a grant. */
  lemma GrantWeighs(s: Site, p: Proposal, names: Names, now: Timestamp, later: Timestamp)
    requires Franchise.RollOk(s.Tables().memberships, now) && p.kind.GrantVoteWeight?
    requires p.serverId in s.Tables().servers && s.Tables().servers[p.serverId].id == p.serverId
    requires var server := s.Tables().servers[p.serverId];
             server.voteWeighting.ByRole? && server.weightingScope.AppliesToBallots()
    ensures var t, t' := s.Tables(), Left(s, p, names, now); var server := t.servers[p.serverId];
            BallotWeight(t'.memberships, server, p.kind.user, later)
            == if IsFranchisedIn(t, p.kind.user, p.serverId) then Held(p.kind.weight, 1, 16) else 0
  {
    GrantIsWritten(s, p, names, now);
    var t, k := s.Tables(), (p.kind.user, p.serverId);
    if k in t.memberships { WeightAsGranted(t.memberships, k, p.kind.weight, t.servers[p.serverId], later); }
  }

  // --- settings ------------------------------------------------------------------------------------------

  predicate IsSetting(k: ProposalKind) {
    k.SetGovernanceSurface? || k.AmendCriteria? || k.SetJurySizing? || k.SetVoteWeighting? || k.SetWeightingScope?
    || k.SetRehomingPolicy? || k.SetInvitePolicy?
  }

  /** The server's row has the setting that was voted on, and every other field as before. */
  predicate IsSet(before: Server, after: Server, k: ProposalKind) {
    match k
    case SetGovernanceSurface(enabled) =>
      (forall b :: b in after.enabledBallots <==> b in enabled || b.BkAmendCriteria? || b.BkSetGovernanceSurface?)
      && after.(enabledBallots := before.enabledBallots) == before
    case AmendCriteria(c) => after.criteria == c && after.(criteria := before.criteria) == before
    case SetJurySizing(z) => after.jurySizing == z && after.(jurySizing := before.jurySizing) == before
    case SetVoteWeighting(w) => after.voteWeighting == w && after.(voteWeighting := before.voteWeighting) == before
    case SetWeightingScope(w) => after.weightingScope == w && after.(weightingScope := before.weightingScope) == before
    case SetRehomingPolicy(off) =>
      after.isRehomingDisabled == off && after.(isRehomingDisabled := before.isRehomingDisabled) == before
    case SetInvitePolicy(open) => after.invitesOpen == open && after.(invitesOpen := before.invitesOpen) == before
    case _ => false
  }

  lemma RewrittenIsSet(server: Server, k: ProposalKind)
    requires IsSetting(k)
    ensures IsSet(server, Rewritten(server, k), k) && Rewritten(server, k).id == server.id
  {
  }

  lemma SettingIsSet(s: Site, p: Proposal, names: Names, now: Timestamp)
    requires IsSetting(p.kind) && RowsOk(s.Tables(), now)
    ensures var t, t' := s.Tables(), Left(s, p, names, now);
            if p.serverId in t.servers then
              p.serverId in t'.servers && IsSet(t.servers[p.serverId], t'.servers[p.serverId], p.kind)
              && t' == t.(servers := t.servers[p.serverId := t'.servers[p.serverId]])
            else t' == t
  {
    if p.serverId in s.Tables().servers { RewrittenIsSet(s.Tables().servers[p.serverId], p.kind); }
  }

  // --- and obeyed ----------------------------------------------------------------------------------------

  /** After invites were closed nobody gets in by one. */
  lemma ClosedInvitesAdmitNobody(s: Site, p: Proposal, names: Names, now: Timestamp, user: UserId, code: string,
                                 later: Timestamp)
    requires p.kind == SetInvitePolicy(false) && RowsOk(s.Tables(), now) && p.serverId in s.Tables().servers
    requires code in s.Tables().invites && s.Tables().invites[code].serverId == p.serverId
    ensures AcceptInvite(Left(s, p, names, now), user, code, later).Refuse?
  {
    SettingIsSet(s, p, names, now);
  }

  /** A kind switched off is not opened any more. */
  lemma SwitchedOffIsNotOpened(s: Site, p: Proposal, names: Names, now: Timestamp, user: UserId, kind: ProposalKind,
                               id: ProposalId, later: Timestamp)
    requires p.kind.SetGovernanceSurface? && RowsOk(s.Tables(), now) && p.serverId in s.Tables().servers
    requires BallotKindOf(kind) !in p.kind.enabled && !kind.AmendCriteria? && !kind.SetGovernanceSurface?
    ensures OpenProposal(Left(s, p, names, now), user, p.serverId, kind, id, later).Declined?
  {
    SettingIsSet(s, p, names, now);
    SurfaceRefuses(s.Tables().servers[p.serverId], Left(s, p, names, now), user, p.serverId, p.kind, kind, id, later);
  }

  lemma SurfaceRefuses(before: Server, t: Tables, user: UserId, server: ServerId, surface: ProposalKind,
                       kind: ProposalKind, id: ProposalId, now: Timestamp)
    requires surface.SetGovernanceSurface? && server in t.servers && IsSet(before, t.servers[server], surface)
    requires BallotKindOf(kind) !in surface.enabled && !kind.AmendCriteria? && !kind.SetGovernanceSurface?
    ensures OpenProposal(t, user, server, kind, id, now).Declined?
  {
    assert BallotKindOf(kind) !in t.servers[server].enabledBallots;
  }

  /** New criteria are the ones a citizen is admitted under. */
  lemma NewCriteriaAdmit(s: Site, p: Proposal, names: Names, now: Timestamp, user: UserId, later: Timestamp)
    requires p.kind.AmendCriteria? && RowsOk(s.Tables(), now) && p.serverId in s.Tables().servers
    requires TryEnfranchise(Left(s, p, names, now), user, p.serverId, later).Do?
    ensures var t := s.Tables();
            (user, p.serverId) in t.memberships && user in t.users
            && Franchise.IsEligible(t.users[user], t.memberships[(user, p.serverId)], p.kind.proposed, later)
  {
    SettingIsSet(s, p, names, now);
  }

  // --- channels and rules --------------------------------------------------------------------------------

  predicate IsChannelName(t: Tables, server: ServerId, name: string) {
    exists c | c in t.channels :: t.channels[c].serverId == server && t.channels[c].name == name
  }

  /** A channel is opened under its normalized name and a new id, unless the name is empty or taken. */
  lemma ChannelIsOpened(s: Site, p: Proposal, names: Names, now: Timestamp)
    requires p.kind.CreateChannel?
    ensures var t, name := s.Tables(), names.channelName(p.kind.name);
            var id := ComposeId(s.ids.node, s.ids.channels + 1);
            var isTaken := IsChannelName(t, p.serverId, name);
            Left(s, p, names, now)
            == if name == "" || isTaken then t
               else t.(channels := t.channels[id := Channel(id, p.serverId, name, p.kind.topic, now, false)])
  {
    var t, name := s.Tables(), names.channelName(p.kind.name);
    if IsChannelName(t, p.serverId, name) {
      var c :| c in t.channels && t.channels[c].serverId == p.serverId && t.channels[c].name == name;
      assert c in ChannelsNamed(t, p.serverId, name);
    }
  }

  /** One channel of that name goes, with exactly its own messages; when there is none, nothing. */
  lemma ChannelIsClosed(s: Site, p: Proposal, names: Names, now: Timestamp)
    requires p.kind.DeleteChannel?
    ensures var t, t', name := s.Tables(), Left(s, p, names, now), names.channelName(p.kind.name);
            var named := ChannelsNamed(t, p.serverId, name);
            if named == {} then t' == t
            else
              exists c :: c in named && t'.channels == t.channels - {c}
                && t'.messages.Keys == (set m | m in t.messages && t.messages[m].channelId != c)
                && (forall m :: m in t'.messages ==> t'.messages[m] == t.messages[m])
                && t' == t.(channels := t'.channels, messages := t'.messages)
  {
    var t, t', name := s.Tables(), Left(s, p, names, now), names.channelName(p.kind.name);
    var named := ChannelsNamed(t, p.serverId, name);
    if named != {} {
      var c := Picked(names, named);
      assert c in named && t' == TablesAfter(t, RemoveChannel(c));
    }
  }

  /** A rule is added under a new id; removing takes the rule named, of whichever server it is, and no other. */
  lemma RuleIsMadeOrGone(s: Site, p: Proposal, names: Names, now: Timestamp)
    requires p.kind.AddRule? || p.kind.RemoveRule?
    ensures var t, id := s.Tables(), ComposeId(s.ids.node, s.ids.rules + 1);
            Left(s, p, names, now)
            == if p.kind.AddRule? then t.(rules := t.rules[id := Rule(id, p.serverId, p.kind.text, now)])
               else t.(rules := t.rules - {p.kind.rule})
  {
  }

  // --- roles ---------------------------------------------------------------------------------------------

  /** A role is made under its normalized name and a new id, unless the name is empty or taken. */
  lemma RoleIsMade(s: Site, p: Proposal, names: Names, now: Timestamp)
    requires p.kind.CreateRole?
    ensures var t, id, name := s.Tables(), ComposeId(s.ids.node, s.ids.roles + 1), names.roleName(p.kind.name);
            Left(s, p, names, now)
            == if name == "" || HasRoleNamed(t, p.serverId, name) then t
               else t.(roles := t.roles[id := Role(id, p.serverId, name, now)])
  {
  }

  /** A role of this server goes with its assignments; a role of another server is not touched. */
  lemma RoleIsGone(s: Site, p: Proposal, names: Names, now: Timestamp)
    requires p.kind.DeleteRole?
    ensures var t, role := s.Tables(), p.kind.role;
            Left(s, p, names, now)
            == if role in t.roles && t.roles[role].serverId == p.serverId then
                 t.(roles := t.roles - {role}, roleAssignments := WithoutRole(t.roleAssignments, role))
               else t
  {
  }

  function AssignmentsLeft(t: Tables, p: Proposal): seq<RoleAssignment>
    requires p.kind.AssignRole? || p.kind.UnassignRole?
  {
    var xs, role, user := t.roleAssignments, p.kind.role, p.kind.user;
    if role !in t.roles || t.roles[role].serverId != p.serverId then xs
    else if p.kind.UnassignRole? then WithoutAssignment(xs, role, user)
    else if HasAssignment(xs, role, user) then xs
    else xs + [RoleAssignment(p.serverId, role, user)]
  }

  lemma AssignmentCall(t: Tables, p: Proposal, names: Names, ids: Counters, now: Timestamp)
    requires p.kind.AssignRole? || p.kind.UnassignRole?
    ensures EffectCall(t, p, names, ids, now)
         == if p.kind.role !in t.roles || t.roles[p.kind.role].serverId != p.serverId then None
            else if p.kind.UnassignRole? then Some(Unassign(p.kind.role, p.kind.user))
            else Some(Assign(RoleAssignment(p.serverId, p.kind.role, p.kind.user)))
  {
  }

  lemma AssignmentCalls(s: Site, p: Proposal, names: Names, now: Timestamp)
    requires p.kind.AssignRole? || p.kind.UnassignRole?
    ensures Left(s, p, names, now) == s.Tables().(roleAssignments := AssignmentsLeft(s.Tables(), p))
  {
    LeftIs(s, p, names, now);
    AssignmentCall(s.Tables(), p, names, s.ids, now);
  }

  /** Giving and taking a role of this server: afterwards the user has it, or has it not, and every other assignment is
      as before. */
  lemma RoleIsGivenOrTaken(s: Site, p: Proposal, names: Names, now: Timestamp, role: RoleId, user: UserId)
    requires p.kind.AssignRole? || p.kind.UnassignRole?
    ensures var t, t' := s.Tables(), Left(s, p, names, now);
            && t' == t.(roleAssignments := t'.roleAssignments)
            && (HasAssignment(t'.roleAssignments, role, user) <==>
                if role == p.kind.role && user == p.kind.user && role in t.roles && t.roles[role].serverId == p.serverId
                then p.kind.AssignRole?
                else HasAssignment(t.roleAssignments, role, user))
  {
    AssignmentCalls(s, p, names, now);
    LeftHas(s.Tables(), p, role, user);
  }

  lemma LeftHas(t: Tables, p: Proposal, role: RoleId, user: UserId)
    requires p.kind.AssignRole? || p.kind.UnassignRole?
    ensures HasAssignment(AssignmentsLeft(t, p), role, user) <==>
      if role == p.kind.role && user == p.kind.user && role in t.roles && t.roles[role].serverId == p.serverId
      then p.kind.AssignRole?
      else HasAssignment(t.roleAssignments, role, user)
  {
    if p.kind.AssignRole? {
      AssignedHas(t.roleAssignments, RoleAssignment(p.serverId, p.kind.role, p.kind.user), role, user);
    } else {
      UnassignedHas(t.roleAssignments, p.kind.role, p.kind.user, role, user);
    }
  }

  lemma AssignedHas(xs: seq<RoleAssignment>, a: RoleAssignment, role: RoleId, user: UserId)
    ensures HasAssignment(xs + [a], role, user)
      <==> HasAssignment(xs, role, user) || (a.roleId == role && a.user == user)
  {
    var all := xs + [a];
    assert all[|xs|] == a;
    forall i | 0 <= i < |xs| ensures all[i] == xs[i] {}
  }

  lemma UnassignedHas(xs: seq<RoleAssignment>, r: RoleId, u: UserId, role: RoleId, user: UserId)
    ensures HasAssignment(WithoutAssignment(xs, r, u), role, user)
      <==> HasAssignment(xs, role, user) && !(r == role && u == user)
  {
    var rest := WithoutAssignment(xs, r, u);
    if HasAssignment(rest, role, user) {
      var i :| 0 <= i < |rest| && rest[i].roleId == role && rest[i].user == user;
      assert rest[i] in rest;
    }
    if HasAssignment(xs, role, user) && !(r == role && u == user) {
      var i :| 0 <= i < |xs| && xs[i].roleId == role && xs[i].user == user;
      assert xs[i] in rest;
    }
  }

  /** A recall and the removal of content change nothing yet. */
  lemma IdleChangesNothing(s: Site, p: Proposal, names: Names, now: Timestamp)
    requires p.kind.Recall? || p.kind.RemoveContent?
    ensures Left(s, p, names, now) == s.Tables()
  {
  }
}
