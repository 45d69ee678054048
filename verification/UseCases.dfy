/** The use-cases performed on the store, one port call at a time, each proved to leave the tables, the outbox and the
    counters its specification says. Accounts and servers are looked up by id. */
module UseCases {
  import opened Domain
  import opened Replica
  import opened Calls
  import opened Store
  import opened Services
  import opened Governance
  import opened Voting
  import Contribution
  import Franchise

  datatype EnfranchiseOutcome = Admitted | StillUnmet(unmet: seq<Franchise.Unmet>) | Capped(admitted: nat)
                              | Refused(error: ServiceError)

  /** Adjusting the score after a reaction call is the second of the two port calls. */
  lemma ReactionFirst(s: StoreState, c: Call, moves: bool, author: UserId, server: ServerId, delta: int)
    requires c.AddReaction? || c.RemoveReaction?
    ensures var s' := Exec(s, c);
            s'.tables.memberships == s.tables.memberships && s'.tables.reactions == ReactionsAfter(s.tables, c)
            && ExecAll(s, [c] + if moves then Contribution.Adjust(s.tables, author, server, delta) else [])
            == (if moves then ExecAll(s', Contribution.Adjust(s'.tables, author, server, delta)) else s')
  {
    var adjust := if moves then Contribution.Adjust(s.tables, author, server, delta) else [];
    ExecMore(s, [c], adjust);
    ExecOne(s, c);
    Contribution.AdjustAfter(s.tables, Exec(s, c).tables, author, server, delta);
  }

  class Platform {
    const store: MemoryStore
    /** History: the effects executed so far. */
    ghost var effects: seq<Executed>

    constructor (store: MemoryStore)
      ensures this.store == store && effects == []
    {
      this.store := store;
      effects := [];
    }

    ghost function Site(): Site
      reads `effects, store`tables, store`outbox, store`nextOutbox, store`counters
    {
      Governance.Site.Site(store.State(), store.counters, effects)
    }

    // --- membership ------------------------------------------------------------------------------------

    method FoundServerWithVisibility(user: UserId, slug: string, name: string, isPrivate: bool, now: Timestamp)
      returns (r: Option<ServiceError>)
      modifies store`tables, store`outbox, store`nextOutbox, store`counters
      ensures var ids := old(store.counters).(servers := old(store.counters).servers + 1);
              var d := FoundServer(old(store.tables), user, slug, name, isPrivate, ids.Server(), now);
              && store.State() == ExecAll(old(store.State()), CallsOf(d))
              && store.counters == (if d.Do? then ids else old(store.counters))
              && r == (if d.Refuse? then Some(d.error) else None)
    {
      if user !in store.tables.users {
        return Some(NoSuchUser);
      }
      var founder := store.tables.users[user];
      if founder.isFranchiseBarred {
        return Some(FounderBarred);
      }
      if slug == "" {
        return Some(EmptyName);
      }
      if HasSlug(store.tables, slug) {
        return Some(SlugTaken);
      }
      ghost var s := store.State();
      var id := store.NextServerId();
      var server := NewServer(id, slug, name, user, isPrivate, now);
      store.PutServer(server);
      var m := Joined(user, id, now);
      m := m.(tier := Citizen);
      m := m.(enfranchisedAt := Some(now));
      store.PutMembership(m);
      ExecTwo(s, PutServer(server), PutMembership(m));
      return None;
    }

    method Join(user: UserId, server: ServerId, now: Timestamp) returns (r: Option<ServiceError>)
      modifies store`tables, store`outbox, store`nextOutbox
      ensures var d := JoinServer(old(store.tables), user, server, now);
              && store.State() == ExecAll(old(store.State()), CallsOf(d))
              && r == (if d.Refuse? then Some(d.error) else None)
    {
      if user !in store.tables.users {
        return Some(NoSuchUser);
      }
      if server !in store.tables.servers {
        return Some(NoSuchServer);
      }
      if (user, server) in store.tables.memberships {
        return Some(AlreadyMember);
      }
      ExecOne(store.State(), PutMembership(Joined(user, server, now)));
      store.PutMembership(Joined(user, server, now));
      return None;
    }

    method Accept(user: UserId, codeHash: string, now: Timestamp) returns (r: Option<ServiceError>)
      modifies store`tables, store`outbox, store`nextOutbox
      ensures var d := AcceptInvite(old(store.tables), user, codeHash, now);
              && store.State() == ExecAll(old(store.State()), CallsOf(d))
              && r == (if d.Refuse? then Some(d.error) else None)
    {
      if user !in store.tables.users {
        return Some(NoSuchUser);
      }
      if codeHash !in store.tables.invites || store.tables.invites[codeHash].isRevoked {
        return Some(InvalidCode);
      }
      var sid := store.tables.invites[codeHash].serverId;
      if sid !in store.tables.servers {
        return Some(InvalidCode);
      }
      var server := store.tables.servers[sid];
      if !server.invitesOpen {
        return Some(InvitesClosed);
      }
      if (user, sid) in store.tables.memberships {
        return Some(AlreadyMember);
      }
      ExecOne(store.State(), PutMembership(Joined(user, sid, now)));
      store.PutMembership(Joined(user, sid, now));
      return None;
    }

    /** Layer 1, then layer 2, then admit; there is no override. */
    method Enfranchise(user: UserId, server: ServerId, now: Timestamp) returns (r: EnfranchiseOutcome)
      modifies store`tables, store`outbox, store`nextOutbox
      ensures var d := TryEnfranchise(old(store.tables), user, server, now);
              && store.State() == ExecAll(old(store.State()), CallsOf(d))
              && (r.Admitted? <==> d.Do?)
              && (r.StillUnmet? ==> d == Refuse(NotEligible) && r.unmet != [])
              && (r.Capped? ==> d == Refuse(RateCapped(r.admitted)))
              && (r.Refused? ==> d == Refuse(r.error))
    {
      if user !in store.tables.users {
        return Refused(NoSuchUser);
      }
      if server !in store.tables.servers {
        return Refused(NoSuchServer);
      }
      if (user, server) !in store.tables.memberships {
        return Refused(NotAMember);
      }
      var membership := store.tables.memberships[(user, server)];
      if membership.IsCitizen() {
        return Refused(AlreadyCitizen);
      }
      var unmet := Franchise.EvaluateEligibility(store.tables.users[user], membership,
                                                 store.tables.servers[server].criteria, now);
      if unmet != [] {
        return StillUnmet(unmet);
      }
      var citizens := Franchise.CitizenCount(store.tables.memberships, server);
      var windowStart := PlusDays(now, -Franchise.RATE_CAP_WINDOW_DAYS);
      var admitted := Franchise.AdmittedSince(store.tables.memberships, server, windowStart);
      if Franchise.EnfranchisementSlots(citizens, admitted) == 0 {
        return Capped(admitted);
      }
      membership := membership.(tier := Citizen);
      membership := membership.(enfranchisedAt := Some(now));
      ExecOne(store.State(), PutMembership(membership));
      store.PutMembership(membership);
      return Admitted;
    }

    // --- contribution ---------------------------------------------------------------------------------------

    /** The author's score moved and held at zero. */
    method AdjustContribution(author: UserId, server: ServerId, delta: int)
      modifies store`tables, store`outbox, store`nextOutbox
      ensures store.State()
           == ExecAll(old(store.State()), Contribution.Adjust(old(store.tables), author, server, delta))
    {
      if (author, server) in store.tables.memberships {
        var m := store.tables.memberships[(author, server)];
        m := m.(contribution := if m.contribution + delta > 0 then m.contribution + delta else 0);
        ExecOne(store.State(), PutMembership(m));
        store.PutMembership(m);
      }
    }

    method ReactTo(user: UserId, message: MessageId, emoji: string) returns (r: Option<Contribution.ReactionError>)
      modifies store`tables, store`outbox, store`nextOutbox
      ensures var o := Contribution.React(old(store.tables), user, message, emoji);
              && store.State() == (if o.Made? then ExecAll(old(store.State()), o.calls) else old(store.State()))
              && r == (if o.Rejected? then Some(o.error) else None)
    {
      if emoji == "" {
        return Some(Contribution.EmptyEmoji);
      }
      if user !in store.tables.users {
        return Some(Contribution.UnknownUser);
      }
      if message !in store.tables.messages {
        return Some(Contribution.UnknownMessage);
      }
      var m := store.tables.messages[message];
      if (user, m.serverId) !in store.tables.memberships {
        return Some(Contribution.NotMember);
      }
      var reactor := store.tables.memberships[(user, m.serverId)];
      var firstReaction := !Contribution.UserHasAny(store.tables.reactions, m.id, user);
      var endorses := firstReaction && reactor.IsFranchised() && user != m.author;
      ghost var s := store.State();
      ghost var c := AddReaction(Reaction(m.id, user, emoji));
      var added := store.AddReaction(Reaction(m.id, user, emoji));
      ReactionFirst(s, c, added && endorses, m.author, m.serverId, 1);
      if added && endorses {
        AdjustContribution(m.author, m.serverId, 1);
      }
      return None;
    }

    method UnreactTo(user: UserId, message: MessageId, emoji: string) returns (r: Option<Contribution.ReactionError>)
      modifies store`tables, store`outbox, store`nextOutbox
      ensures var o := Contribution.Unreact(old(store.tables), user, message, emoji);
              && store.State() == (if o.Made? then ExecAll(old(store.State()), o.calls) else old(store.State()))
              && r == (if o.Rejected? then Some(o.error) else None)
    {
      if user !in store.tables.users {
        return Some(Contribution.UnknownUser);
      }
      if message !in store.tables.messages {
        return Some(Contribution.UnknownMessage);
      }
      var m := store.tables.messages[message];
      ghost var s := store.State();
      ghost var c := RemoveReaction(m.id, user, emoji);
      var removed := store.RemoveReaction(m.id, user, emoji);
      var stillReacting := Contribution.UserHasAny(store.tables.reactions, m.id, user);
      var withdraws := false;
      if removed && (user, m.serverId) in store.tables.memberships {
        var reactor := store.tables.memberships[(user, m.serverId)];
        withdraws := !stillReacting && reactor.IsFranchised() && user != m.author;
      }
      ReactionFirst(s, c, withdraws, m.author, m.serverId, -1);
      if withdraws {
        AdjustContribution(m.author, m.serverId, -1);
      }
      return None;
    }

    // --- ballots -----------------------------------------------------------------------------------------

    method Propose(user: UserId, server: ServerId, kind: ProposalKind, now: Timestamp)
      returns (r: Option<ProposeError>)
      modifies store`tables, store`outbox, store`nextOutbox, store`counters
      ensures var ids := old(store.counters).(proposals := old(store.counters).proposals + 1);
              var d := OpenProposal(old(store.tables), user, server, kind, ids.Proposal(), now);
              && store.State() == (if d.Granted? then Exec(old(store.State()), d.call) else old(store.State()))
              && store.counters == (if d.Granted? then ids else old(store.counters))
              && r == (if d.Declined? then Some(d.error) else None)
    {
      if user !in store.tables.users {
        return Some(NoSuchProposer);
      }
      if server !in store.tables.servers {
        return Some(ServerUnknown);
      }
      if (user, server) !in store.tables.memberships || !store.tables.memberships[(user, server)].IsFranchised() {
        return Some(ProposerNotFranchised);
      }
      if BallotKindOf(kind) !in store.tables.servers[server].enabledBallots {
        return Some(NotGoverned);
      }
      var citizens := Franchise.CitizenCount(store.tables.memberships, server);
      var phase := Franchise.PhaseOf(citizens);
      if ThresholdFor(DecisionClassOf(kind), phase).None? {
        return Some(NotAllowedInPhase);
      }
      var id := store.NextProposalId();
      store.PutProposal(Proposal(id, server, user, kind, now, PlusDays(now, VOTING_WINDOW_DAYS), Open, false));
      return None;
    }

    method CastVoteAs(voter: UserId, proposal: ProposalId, isAye: bool) returns (r: Option<VoteError>)
      modifies store`tables, store`outbox, store`nextOutbox
      ensures var d := CastVote(old(store.tables), voter, proposal, isAye);
              && store.State() == (if d.Granted? then Exec(old(store.State()), d.call) else old(store.State()))
              && r == (if d.Declined? then Some(d.error) else None)
    {
      if voter !in store.tables.users {
        return Some(NoSuchVoter);
      }
      if proposal !in store.tables.proposals {
        return Some(NoSuchProposal);
      }
      var p := store.tables.proposals[proposal];
      if !p.status.Open? {
        return Some(BallotClosed);
      }
      if (voter, p.serverId) !in store.tables.memberships
          || !store.tables.memberships[(voter, p.serverId)].IsFranchised() {
        return Some(VoterNotFranchised);
      }
      store.UpsertVote(Vote(proposal, voter, isAye));
      return None;
    }

    /** Ayes and nays in units of weight; a voter no longer franchised is left out of the count. */
    method CountBallots(server: Server, p: Proposal, now: Timestamp) returns (tally: Tally)
      ensures tally == WeightedTally(store.tables, server, p, now)
    {
      var weighted := server.weightingScope.AppliesToBallots();
      var votes := VotesOn(store.tables, p.id);
      ghost var weigh := WeightIn(store.tables, server, now);
      tally := Tally(0, 0);
      for i := 0 to |votes|
        invariant tally == TallyOf(votes[..i], weigh)
      {
        var v := votes[i];
        assert votes[..i + 1][..i] == votes[..i];
        var weight := 0;
        if (v.voter, server.id) in store.tables.memberships {
          var m := store.tables.memberships[(v.voter, server.id)];
          if m.IsFranchised() {
            weight := if weighted then WeightOf(server.voteWeighting, m, now) else 1;
          }
        }
        assert weight == weigh(v.voter);
        if v.isAye {
          tally := tally.(aye := tally.aye + weight);
        } else {
          tally := tally.(nay := tally.nay + weight);
        }
      }
      assert votes[..|votes|] == votes;
    }

    /** The arms that rewrite a member's row. */
    method ApplyToMember(p: Proposal)
      requires IsMemberKind(p.kind)
      modifies store`tables, store`outbox, store`nextOutbox
      ensures store.State() == ExecSome(old(store.State()), MemberEffect(old(store.tables), p))
    {
      var sid := p.serverId;
      if (p.kind.user, sid) in store.tables.memberships {
        var m := store.tables.memberships[(p.kind.user, sid)];
        if p.kind.GrantVoteWeight? {
          m := m.(grantedWeight := p.kind.weight);
        } else {
          m := m.(isSanctioned := true);
        }
        store.PutMembership(m);
      }
    }

    /** The arms that rewrite the server's row. */
    method ApplyToServer(p: Proposal)
      requires !IsMemberKind(p.kind) && !IsPlaceKind(p.kind) && !IsRoleKind(p.kind) && !IsIdleKind(p.kind)
      modifies store`tables, store`outbox, store`nextOutbox
      ensures store.State() == ExecSome(old(store.State()), ServerEffect(old(store.tables), p))
    {
      var sid := p.serverId;
      if sid in store.tables.servers {
        var s := store.tables.servers[sid];
        match p.kind {
          case SetGovernanceSurface(enabled) => s := s.(enabledBallots := enabled + ALWAYS_ON);
          case AmendCriteria(proposed) => s := s.(criteria := proposed);
          case SetJurySizing(sizing) => s := s.(jurySizing := sizing);
          case SetVoteWeighting(scheme) => s := s.(voteWeighting := scheme);
          case SetWeightingScope(scope) => s := s.(weightingScope := scope);
          case SetRehomingPolicy(isDisabled) => s := s.(isRehomingDisabled := isDisabled);
          case SetInvitePolicy(isOpen) => s := s.(invitesOpen := isOpen);
        }
        assert s == Rewritten(store.tables.servers[sid], p.kind);
        store.PutServer(s);
      }
    }

    /** Channels and rules: created under a free name and a new id, removed when found. */
    method ApplyToPlaces(p: Proposal, names: Names, now: Timestamp)
      requires IsPlaceKind(p.kind)
      modifies store`tables, store`outbox, store`nextOutbox, store`counters
      ensures var c := PlaceEffect(old(store.tables), p, names, NextIds(old(store.counters)), now);
              store.State() == ExecSome(old(store.State()), c) && store.counters == Minted(old(store.counters), c)
    {
      var sid := p.serverId;
      match p.kind
      case CreateChannel(raw, topic) =>
        var name := names.channelName(raw);
        if name != "" && ChannelsNamed(store.tables, sid, name) == {} {
          var id := store.NextChannelId();
          store.PutChannel(Channel(id, sid, name, topic, now, false));
        }
      case DeleteChannel(raw) =>
        var found := ChannelsNamed(store.tables, sid, names.channelName(raw));
        if found != {} {
          var _ := store.RemoveChannel(Picked(names, found));
        }
      case AddRule(text) =>
        var id := store.NextRuleId();
        store.PutRule(Rule(id, sid, text, now));
      case RemoveRule(rule) => var _ := store.RemoveRule(rule);
    }

    /** Roles: created under a free name and a new id; deleted, given and taken only when they are this server's. */
    method ApplyToRoles(p: Proposal, names: Names, now: Timestamp)
      requires IsRoleKind(p.kind)
      modifies store`tables, store`outbox, store`nextOutbox, store`counters
      ensures var c := RoleEffect(old(store.tables), p, names, NextIds(old(store.counters)), now);
              store.State() == ExecSome(old(store.State()), c) && store.counters == Minted(old(store.counters), c)
    {
      if p.kind.CreateRole? {
        var name := names.roleName(p.kind.name);
        if name != "" && !HasRoleNamed(store.tables, p.serverId, name) {
          var id := store.NextRoleId();
          store.PutRole(Role(id, p.serverId, name, now));
        }
      } else if IsRoleOf(store.tables, p.kind.role, p.serverId) {
        ApplyToStoredRole(p);
      }
    }

    method ApplyToStoredRole(p: Proposal)
      requires p.kind.DeleteRole? || p.kind.AssignRole? || p.kind.UnassignRole?
      modifies store`tables, store`outbox, store`nextOutbox
      ensures store.State() == Exec(old(store.State()),
                match p.kind
                case DeleteRole(role) => Call.RemoveRole(role)
                case AssignRole(user, role) => Call.Assign(RoleAssignment(p.serverId, role, user))
                case UnassignRole(user, role) => Call.Unassign(role, user))
    {
      match p.kind
      case DeleteRole(role) => var _ := store.RemoveRole(role);
      case AssignRole(user, role) => var _ := store.Assign(RoleAssignment(p.serverId, role, user));
      case UnassignRole(user, role) => var _ := store.Unassign(role, user);
    }

    /** The concrete meaning of a passed ballot. */
    method ApplyEffect(p: Proposal, names: Names, now: Timestamp)
      modifies store`tables, store`outbox, store`nextOutbox, store`counters, `effects
      ensures Site() == WithEffect(old(Site()), p, names, now)
    {
      effects := effects + [Executed(p.id, p.kind, now)];
      if IsMemberKind(p.kind) {
        ApplyToMember(p);
      } else if IsPlaceKind(p.kind) {
        ApplyToPlaces(p, names, now);
      } else if IsRoleKind(p.kind) {
        ApplyToRoles(p, names, now);
      } else if !IsIdleKind(p.kind) {
        ApplyToServer(p);
      }
    }

    /** One proposal of the loop: closed when its window is over, applied once when passed and matured. */
    method ResolveProposal(snapshot: Proposal, ses: Session, names: Names)
      modifies store`tables, store`outbox, store`nextOutbox, store`counters, `effects
      ensures Site() == ResolveOne(old(Site()), ses, names, snapshot)
    {
      var p := snapshot;
      if p.status.Open? && ses.now >= p.closesAt {
        var tally := CountBallots(ses.server, p, ses.now);
        p := Closed(p, tally, ses.citizens, ses.phase, ses.now);
        store.PutProposal(p);
      }
      if p.status.Passed? && !p.isApplied && ses.now >= p.status.effectiveAt {
        ApplyEffect(p, names, ses.now);
        p := p.(isApplied := true);
        store.PutProposal(p);
      }
    }

    /** Close every ballot whose window is over, apply every passed and matured effect, once. */
    method Resolve(sid: ServerId, names: Names, now: Timestamp)
      modifies store`tables, store`outbox, store`nextOutbox, store`counters, `effects
      ensures Site() == ResolveDue(old(Site()), sid, names, now)
    {
      if sid !in store.tables.servers {
        return;
      }
      var t := store.tables;
      ghost var start := Site();
      var citizens := Franchise.CitizenCount(t.memberships, sid);
      var ses := Session(t.servers[sid], citizens, Franchise.PhaseOf(citizens), now);
      var ps := Snapshot(t, sid);
      for i := 0 to |ps|
        invariant Site() == ResolveList(start, ses, names, ps[..i])
      {
        assert ps[..i + 1][..i] == ps[..i];
        ResolveProposal(ps[i], ses, names);
      }
      assert ps[..|ps|] == ps;
    }
  }
}
