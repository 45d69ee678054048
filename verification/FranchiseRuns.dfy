/** Every run of the services is a run of the roll, so the growth bound and the earned franchise hold of the platform
    itself. */
module FranchiseRuns {
  import opened Domain
  import opened Replica
  import opened Calls
  import opened Services
  import opened ServiceRuns
  import opened Ids
  import Contribution
  import Franchise
  import Governance

  function MintServer(s: Governance.Site): ServerId {
    s.ids.(servers := s.ids.servers + 1).Server()
  }

  /** What an act does to the roll. */
  function ChangeOf(s: Governance.Site, a: Act, now: Timestamp): Franchise.RollChange {
    var t := s.Tables();
    match a
    case Found(u, slug, name, isPrivate) =>
      if FoundServer(t, u, slug, name, isPrivate, MintServer(s), now).Do? then Franchise.Found((u, MintServer(s)))
      else Franchise.Kept
    case Join(u, server) => if JoinServer(t, u, server, now).Do? then Franchise.Join((u, server)) else Franchise.Kept
    case Accept(u, h) =>
      if AcceptInvite(t, u, h, now).Do? then Franchise.Join((u, t.invites[h].serverId)) else Franchise.Kept
    case Enfranchise(u, server) =>
      if TryEnfranchise(t, u, server, now).Do? then Franchise.Admit((u, server), t.users[u], t.servers[server].criteria)
      else Franchise.Kept
    case _ => Franchise.Kept
  }

  /** Rows at their own key, members only of stored servers, and no stored server under an id still to be minted. */
  ghost predicate SiteOk(s: Governance.Site, now: Timestamp) {
    && Governance.RowsOk(s.Tables(), now)
    && (forall k :: k in s.Tables().memberships ==> k.1 in s.Tables().servers)
    && (forall id :: id in s.Tables().servers ==> id <= s.ids.Server())
  }

  /** A step of the roll, and the site well again. */
  ghost predicate IsStep(s: Governance.Site, change: Franchise.RollChange, s': Governance.Site, now: Timestamp) {
    Franchise.Changes(s.Tables().memberships, change, now, s'.Tables().memberships) && SiteOk(s', now)
  }

  lemma NextTables(s: Governance.Site, a: Act, now: Timestamp)
    requires !a.Resolve?
    ensures Next(s, a, now).Tables() == Perform(s.Tables(), PlanOf(s.Tables(), s.ids, a, now).calls)
  {
    ExecLeaves(s.store, PlanOf(s.Tables(), s.ids, a, now).calls);
  }

  lemma FreshServer(s: Governance.Site, now: Timestamp)
    requires SiteOk(s, now) && s.ids.servers + 1 < SEQUENCE_SPAN
    ensures MintServer(s) !in s.Tables().servers && IsUnused(s.Tables(), MintServer(s))
    ensures s.ids.Server() < MintServer(s)
  {
    MintedIdsGrow(s.ids.node, s.ids.servers, s.ids.servers + 1);
  }

  lemma TwoPuts(t: Tables, server: Server, m: Membership)
    ensures var t' := Perform(t, [PutServer(server), PutMembership(m)]);
            && t'.servers == t.servers[server.id := server]
            && t'.memberships == t.memberships[(m.userId, m.serverId) := m]
            && t'.proposals == t.proposals
  {
    PerformTwo(t, PutServer(server), PutMembership(m));
  }

  lemma FoundedOk(s: Governance.Site, s': Governance.Site, server: Server, m: Membership, now: Timestamp)
    requires SiteOk(s, now) && s.ids.Server() < s'.ids.Server() == server.id == m.serverId
    requires s'.Tables().servers == s.Tables().servers[server.id := server]
    requires s'.Tables().memberships == s.Tables().memberships[(m.userId, m.serverId) := m]
    requires s'.Tables().proposals == s.Tables().proposals
    requires Franchise.RollOk(s'.Tables().memberships, now)
    ensures SiteOk(s', now)
  {
  }

  /** Whatever keeps the roll's franchise, its keys and the stored servers keeps the site well. */
  lemma KeptStep(s: Governance.Site, s': Governance.Site, now: Timestamp)
    requires SiteOk(s, now) && s.ids.Server() <= s'.ids.Server()
    requires Franchise.Changes(s.Tables().memberships, Franchise.Kept, now, s'.Tables().memberships)
    requires s'.Tables().servers.Keys == s.Tables().servers.Keys
    requires forall id :: id in s'.Tables().servers ==> s'.Tables().servers[id].id == id
    requires forall id :: id in s'.Tables().proposals ==> s'.Tables().proposals[id].id == id
    ensures IsStep(s, Franchise.Kept, s', now)
  {
    Franchise.ChangeKeepsOk(s.Tables().memberships, Franchise.Kept, now, s'.Tables().memberships);
  }

  lemma SameRollKept(roll: Franchise.Roll, now: Timestamp)
    ensures Franchise.Changes(roll, Franchise.Kept, now, roll)
  {
  }

  lemma NothingPlanned(s: Governance.Site, a: Act, now: Timestamp)
    requires !a.Resolve? && PlanOf(s.Tables(), s.ids, a, now) == Plan([], s.ids)
    ensures Next(s, a, now) == s
  {
  }

  /** A use-case that refuses. */
  lemma NothingStep(s: Governance.Site, a: Act, now: Timestamp)
    requires SiteOk(s, now) && !a.Resolve? && PlanOf(s.Tables(), s.ids, a, now) == Plan([], s.ids)
    ensures IsStep(s, Franchise.Kept, Next(s, a, now), now)
  {
    NothingPlanned(s, a, now);
    SameRollKept(s.Tables().memberships, now);
  }

  function FoundingOf(s: Governance.Site, a: Act, now: Timestamp): Decision
    requires a.Found?
  {
    FoundServer(s.Tables(), a.user, a.slug, a.name, a.isPrivate, MintServer(s), now)
  }

  lemma FoundRoll(s: Governance.Site, a: Act, now: Timestamp)
    requires a.Found? && FoundingOf(s, a, now).Do? && SiteOk(s, now) && s.ids.servers + 1 < SEQUENCE_SPAN
    ensures Franchise.Changes(s.Tables().memberships, Franchise.Found((a.user, MintServer(s))), now,
                              Perform(s.Tables(), FoundingOf(s, a, now).calls).memberships)
  {
    FreshServer(s, now);
    FoundChangesRoll(s.Tables(), a.user, a.slug, a.name, a.isPrivate, MintServer(s), now);
  }

  lemma FoundTables(s: Governance.Site, a: Act, now: Timestamp) returns (server: Server, m: Membership)
    requires a.Found? && FoundingOf(s, a, now).Do?
    ensures server.id == MintServer(s) == m.serverId
    ensures var t, t' := s.Tables(), Perform(s.Tables(), FoundingOf(s, a, now).calls);
            && t'.servers == t.servers[server.id := server]
            && t'.memberships == t.memberships[(m.userId, m.serverId) := m]
            && t'.proposals == t.proposals
  {
    var calls := FoundingOf(s, a, now).calls;
    server, m := calls[0].server, calls[1].membership;
    TwoPuts(s.Tables(), server, m);
  }

  /** A founding, from what it does to the tables. */
  lemma FoundedStep(s: Governance.Site, s': Governance.Site, server: Server, m: Membership,
                    change: Franchise.RollChange, now: Timestamp)
    requires SiteOk(s, now) && s.ids.Server() < s'.ids.Server() == server.id == m.serverId
    requires s'.Tables().servers == s.Tables().servers[server.id := server]
    requires s'.Tables().memberships == s.Tables().memberships[(m.userId, m.serverId) := m]
    requires s'.Tables().proposals == s.Tables().proposals
    requires Franchise.Changes(s.Tables().memberships, change, now, s'.Tables().memberships)
    ensures IsStep(s, change, s', now)
  {
    Franchise.ChangeKeepsOk(s.Tables().memberships, change, now, s'.Tables().memberships);
    FoundedOk(s, s', server, m, now);
  }

  lemma Founded(s: Governance.Site, a: Act, s': Governance.Site, now: Timestamp)
    requires a.Found? && FoundingOf(s, a, now).Do? && SiteOk(s, now)
    requires s'.ids == s.ids.(servers := s.ids.servers + 1) && s'.ids.Fit()
    requires s'.Tables() == Perform(s.Tables(), FoundingOf(s, a, now).calls)
    ensures IsStep(s, Franchise.Found((a.user, MintServer(s))), s', now)
  {
    var server, m := FoundTables(s, a, now);
    FreshServer(s, now);
    FoundRoll(s, a, now);
    FoundedStep(s, s', server, m, Franchise.Found((a.user, MintServer(s))), now);
  }

  lemma FoundPlanned(s: Governance.Site, a: Act, now: Timestamp)
    requires a.Found?
    ensures var p := PlanOf(s.Tables(), s.ids, a, now);
            && (FoundingOf(s, a, now).Do? ==>
                  p == Plan(FoundingOf(s, a, now).calls, s.ids.(servers := s.ids.servers + 1))
                  && ChangeOf(s, a, now) == Franchise.Found((a.user, MintServer(s))))
            && (FoundingOf(s, a, now).Refuse? ==> p == Plan([], s.ids) && ChangeOf(s, a, now) == Franchise.Kept)
  {
  }

  lemma FoundNext(s: Governance.Site, a: Act, now: Timestamp)
    requires a.Found? && FoundingOf(s, a, now).Do?
    ensures Next(s, a, now).Tables() == Perform(s.Tables(), FoundingOf(s, a, now).calls)
    ensures Next(s, a, now).ids == s.ids.(servers := s.ids.servers + 1)
    ensures ChangeOf(s, a, now) == Franchise.Found((a.user, MintServer(s)))
  {
    FoundPlanned(s, a, now);
    NextTables(s, a, now);
  }

  lemma FoundStep(s: Governance.Site, a: Act, now: Timestamp)
    requires a.Found? && SiteOk(s, now) && Next(s, a, now).ids.Fit()
    ensures IsStep(s, ChangeOf(s, a, now), Next(s, a, now), now)
  {
    if FoundingOf(s, a, now).Do? {
      FoundNext(s, a, now);
      Founded(s, a, Next(s, a, now), now);
    } else {
      FoundPlanned(s, a, now);
      NothingStep(s, a, now);
    }
  }

  lemma PutMembershipKeepsRest(t: Tables, m: Membership)
    ensures var t' := TablesAfter(t, PutMembership(m)); t'.servers == t.servers && t'.proposals == t.proposals
  {
  }

  /** A change of the roll that writes one membership of a stored server. */
  lemma MemberWritten(s: Governance.Site, s': Governance.Site, change: Franchise.RollChange, m: Membership,
                      now: Timestamp)
    requires SiteOk(s, now) && s'.ids == s.ids && m.serverId in s.Tables().servers
    requires s'.Tables() == TablesAfter(s.Tables(), PutMembership(m))
    requires Franchise.Changes(s.Tables().memberships, change, now, s'.Tables().memberships)
    ensures IsStep(s, change, s', now)
  {
    Franchise.ChangeKeepsOk(s.Tables().memberships, change, now, s'.Tables().memberships);
    PutMembershipKeepsRest(s.Tables(), m);
  }

  predicate IsMembershipAct(a: Act) { a.Join? || a.Accept? || a.Enfranchise? || a.ShareHistory? || a.Score? }

  /** An act that does nothing, or makes one change of the roll that writes one membership of a stored server. */
  ghost predicate WritesOneMember(s: Governance.Site, a: Act, now: Timestamp)
    requires !a.Resolve?
  {
    var t, p := s.Tables(), PlanOf(s.Tables(), s.ids, a, now);
    (p == Plan([], s.ids) && ChangeOf(s, a, now) == Franchise.Kept)
    || (p.ids == s.ids && |p.calls| == 1 && p.calls[0].PutMembership?
        && p.calls[0].membership.serverId in t.servers
        && Franchise.Changes(t.memberships, ChangeOf(s, a, now), now, Perform(t, p.calls).memberships))
  }

  lemma SharingWrites(s: Governance.Site, a: Act, now: Timestamp)
    requires a.ShareHistory? && SiteOk(s, now)
    ensures WritesOneMember(s, a, now)
  {
    SettingsKeepRoll(s.Tables(), a.user, a.server, a.shares, 0, now);
    var d := SetHistorySharing(s.Tables(), a.user, a.server, a.shares);
    assert PlanOf(s.Tables(), s.ids, a, now) == Plan(CallsOf(d), s.ids);
  }

  lemma ScoreWrites(s: Governance.Site, a: Act, now: Timestamp)
    requires a.Score? && SiteOk(s, now)
    ensures WritesOneMember(s, a, now)
  {
    SettingsKeepRoll(s.Tables(), a.user, a.server, false, a.contribution, now);
    var d := SetContribution(s.Tables(), a.user, a.server, a.contribution);
    assert PlanOf(s.Tables(), s.ids, a, now) == Plan(CallsOf(d), s.ids);
  }

  /** So with joining by link or by invite, admission, and a member's settings. */
  lemma MemberWrites(s: Governance.Site, a: Act, now: Timestamp)
    requires IsMembershipAct(a) && SiteOk(s, now)
    ensures WritesOneMember(s, a, now)
  {
    var t := s.Tables();
    match a {
      case Join(u, server) => if JoinServer(t, u, server, now).Do? { JoinChangesRoll(t, u, server, now); }
      case Accept(u, h) => if AcceptInvite(t, u, h, now).Do? { InviteChangesRoll(t, u, h, now); }
      case Enfranchise(u, server) => EnfranchiseChangesRoll(t, u, server, now);
      case ShareHistory(_, _, _) => SharingWrites(s, a, now);
      case Score(_, _, _) => ScoreWrites(s, a, now);
    }
  }

  lemma MemberStep(s: Governance.Site, a: Act, now: Timestamp)
    requires IsMembershipAct(a) && SiteOk(s, now)
    ensures IsStep(s, ChangeOf(s, a, now), Next(s, a, now), now)
  {
    MemberWrites(s, a, now);
    var p := PlanOf(s.Tables(), s.ids, a, now);
    if p == Plan([], s.ids) {
      NothingStep(s, a, now);
    } else {
      NextTables(s, a, now);
      PerformOne(s.Tables(), p.calls[0]);
      MemberWritten(s, Next(s, a, now), ChangeOf(s, a, now), p.calls[0].membership, now);
    }
  }

  lemma {:induction false} ReactionCallsKeepRest(t: Tables, calls: seq<Call>)
    requires forall i :: 0 <= i < |calls| ==>
        calls[i].AddReaction? || calls[i].RemoveReaction? || calls[i].PutMembership?
    ensures Perform(t, calls).servers == t.servers && Perform(t, calls).proposals == t.proposals
    decreases |calls|
  {
    if calls != [] {
      assert calls[|calls| - 1].AddReaction? || calls[|calls| - 1].RemoveReaction? || calls[|calls| - 1].PutMembership?;
      ReactionCallsKeepRest(t, calls[..|calls| - 1]);
    }
  }

  lemma ReactChanges(t: Tables, user: UserId, message: MessageId, emoji: string, now: Timestamp)
    requires Governance.RowsOk(t, now) && Contribution.React(t, user, message, emoji).Made?
    ensures Franchise.Changes(t.memberships, Franchise.Kept, now,
              Perform(t, Contribution.React(t, user, message, emoji).calls).memberships)
  {
    Contribution.ReactGivesScene(t, user, message, emoji);
    Contribution.ReactionsKeepRoll(Contribution.SceneOf(t), user, t.messages[message], emoji, now);
  }

  lemma UnreactChanges(t: Tables, user: UserId, message: MessageId, emoji: string, now: Timestamp)
    requires Governance.RowsOk(t, now) && Contribution.Unreact(t, user, message, emoji).Made?
    ensures Franchise.Changes(t.memberships, Franchise.Kept, now,
              Perform(t, Contribution.Unreact(t, user, message, emoji).calls).memberships)
  {
    Contribution.UnreactGivesScene(t, user, message, emoji);
    Contribution.ReactionsKeepRoll(Contribution.SceneOf(t), user, t.messages[message], emoji, now);
  }

  lemma ReactionChanges(t: Tables, ids: Counters, a: Act, now: Timestamp)
    requires (a.React? || a.Unreact?) && Governance.RowsOk(t, now)
    ensures var t' := Perform(t, PlanOf(t, ids, a, now).calls);
            && Franchise.Changes(t.memberships, Franchise.Kept, now, t'.memberships)
            && t'.servers == t.servers && t'.proposals == t.proposals
  {
    var calls := PlanOf(t, ids, a, now).calls;
    if calls != [] {
      if a.React? { ReactChanges(t, a.user, a.message, a.emoji, now); }
      else { UnreactChanges(t, a.user, a.message, a.emoji, now); }
      ReactionCallsKeepRest(t, calls);
    } else {
      SameRollKept(t.memberships, now);
    }
  }

  lemma ReactionStep(s: Governance.Site, a: Act, now: Timestamp)
    requires (a.React? || a.Unreact?) && SiteOk(s, now)
    ensures IsStep(s, ChangeOf(s, a, now), Next(s, a, now), now)
  {
    NextTables(s, a, now);
    ReactionChanges(s.Tables(), s.ids, a, now);
    KeptStep(s, Next(s, a, now), now);
  }

  lemma ResolveStep(s: Governance.Site, a: Act, now: Timestamp)
    requires a.Resolve? && SiteOk(s, now) && Next(s, a, now).ids.Fit()
    ensures IsStep(s, ChangeOf(s, a, now), Next(s, a, now), now)
  {
    Governance.ResolveOutcome(s, a.server, a.names, now);
    IdsGrow(s, a, now);
    LastIdsGrow(s.ids, Next(s, a, now).ids);
    KeptStep(s, Next(s, a, now), now);
  }

  /** A call that writes neither a membership nor a server. */
  lemma PlainWritten(s: Governance.Site, s': Governance.Site, c: Call, now: Timestamp)
    requires SiteOk(s, now) && s.ids.Server() <= s'.ids.Server() && !c.PutMembership? && !c.PutServer?
    requires s'.Tables() == TablesAfter(s.Tables(), c)
    ensures IsStep(s, Franchise.Kept, s', now)
  {
    SameRollKept(s.Tables().memberships, now);
    assert s'.Tables().proposals == ProposalsAfter(s.Tables(), c);
    KeptStep(s, s', now);
  }

  predicate IsPlain(a: Act) { a.OpenChannel? || a.Write? || a.Command? || a.Propose? || a.Other? }

  lemma PlainCalls(s: Governance.Site, a: Act, now: Timestamp)
    requires IsPlain(a) && IsActAt(s, a)
    ensures var calls := PlanOf(s.Tables(), s.ids, a, now).calls;
            |calls| <= 1 && (calls != [] ==> !calls[0].PutMembership? && !calls[0].PutServer?)
  {
  }

  lemma NothingWritten(s: Governance.Site, s': Governance.Site, now: Timestamp)
    requires SiteOk(s, now) && s.ids.Server() <= s'.ids.Server() && s'.Tables() == s.Tables()
    ensures IsStep(s, Franchise.Kept, s', now)
  {
    SameRollKept(s.Tables().memberships, now);
    KeptStep(s, s', now);
  }

  lemma PlainChange(s: Governance.Site, a: Act, now: Timestamp)
    requires IsPlain(a)
    ensures ChangeOf(s, a, now) == Franchise.Kept && !a.Resolve?
  {
  }

  lemma PlainStep(s: Governance.Site, a: Act, now: Timestamp)
    requires IsPlain(a) && IsActAt(s, a) && SiteOk(s, now) && Next(s, a, now).ids.Fit()
    ensures IsStep(s, ChangeOf(s, a, now), Next(s, a, now), now)
  {
    var calls := PlanOf(s.Tables(), s.ids, a, now).calls;
    PlainChange(s, a, now);
    NextTables(s, a, now);
    PlainCalls(s, a, now);
    IdsGrow(s, a, now);
    LastIdsGrow(s.ids, Next(s, a, now).ids);
    if calls != [] {
      PerformOne(s.Tables(), calls[0]);
      PlainWritten(s, Next(s, a, now), calls[0], now);
    } else {
      NothingWritten(s, Next(s, a, now), now);
    }
  }

  /** Every act changes the roll in one of its few ways and keeps the site well. */
  lemma {:induction false} ActStep(s: Governance.Site, a: Act, now: Timestamp)
    requires IsActAt(s, a) && SiteOk(s, now) && Next(s, a, now).ids.Fit()
    ensures IsStep(s, ChangeOf(s, a, now), Next(s, a, now), now)
  {
    if IsPlain(a) { PlainStep(s, a, now); }
    else if a.Found? { FoundStep(s, a, now); }
    else if a.Resolve? { ResolveStep(s, a, now); }
    else if IsMembershipAct(a) { MemberStep(s, a, now); }
    else { ReactionStep(s, a, now); }
  }

  // --- runs ---------------------------------------------------------------------------------------------

  /** The run of the roll that a run of the services is. */
  function Moments(node: NodeNumber, acts: seq<Timed>): (r: seq<Franchise.Moment>)
    ensures |r| == |acts| && forall i :: 0 <= i < |acts| ==> r[i].now == acts[i].now
    decreases |acts|
  {
    if acts == [] then []
    else Moments(node, acts[..|acts| - 1]) + [LastMoment(node, acts)]
  }

  function LastMoment(node: NodeNumber, acts: seq<Timed>): Franchise.Moment
    requires acts != []
  {
    var last := acts[|acts| - 1];
    Franchise.Moment(last.now, ChangeOf(RunActs(node, acts[..|acts| - 1]), last.act, last.now),
                     RunActs(node, acts).Tables().memberships)
  }

  lemma MomentsRoll(node: NodeNumber, acts: seq<Timed>)
    ensures Franchise.RollAfter(Moments(node, acts), |acts|) == RunActs(node, acts).Tables().memberships
  {
  }

  lemma OkLater(s: Governance.Site, now: Timestamp, later: Timestamp)
    requires SiteOk(s, now) && now <= later
    ensures SiteOk(s, later)
  {
  }

  lemma ExtendRun(run: seq<Franchise.Moment>, m: Franchise.Moment)
    requires Franchise.IsRun(run)
    requires Franchise.Changes(Franchise.RollAfter(run, |run|), m.change, m.now, m.after)
    requires run != [] ==> run[|run| - 1].now <= m.now
    ensures Franchise.IsRun(run + [m])
  {
    var all := run + [m];
    forall i | 0 <= i < |all| ensures Franchise.Follows(all, i) {
      if i < |run| { assert Franchise.Follows(run, i); }
      assert Franchise.RollAfter(all, i) == Franchise.RollAfter(run, i);
    }
    forall i | 0 < i < |all| ensures Franchise.ClockMovesOn(all, i) {
      if i < |run| { assert Franchise.ClockMovesOn(run, i); }
    }
  }

  /** The site just before the last act of a run, at that act's instant. */
  lemma OkBeforeLast(node: NodeNumber, acts: seq<Timed>)
    requires acts != [] && IsServiceRun(node, acts)
    requires |acts| > 1 ==> SiteOk(RunActs(node, acts[..|acts| - 1]), acts[|acts| - 2].now)
    ensures SiteOk(RunActs(node, acts[..|acts| - 1]), acts[|acts| - 1].now)
  {
    if |acts| > 1 { OkLater(RunActs(node, acts[..|acts| - 1]), acts[|acts| - 2].now, acts[|acts| - 1].now); }
  }

  /** A run of the services is a run of the roll. */
  lemma {:induction false} ServiceRunIsRollRun(node: NodeNumber, acts: seq<Timed>)
    requires IsServiceRun(node, acts)
    ensures Franchise.IsRun(Moments(node, acts))
    ensures acts != [] ==> SiteOk(RunActs(node, acts), acts[|acts| - 1].now)
    decreases |acts|
  {
    if acts != [] {
      var n := |acts| - 1;
      RunFront(node, acts);
      ServiceRunIsRollRun(node, acts[..n]);
      OkBeforeLast(node, acts);
      ActStep(RunActs(node, acts[..n]), acts[n].act, acts[n].now);
      MomentsRoll(node, acts[..n]);
      ExtendRun(Moments(node, acts[..n]), LastMoment(node, acts));
    }
  }

  /** The growth bound of the platform: however the services are used, whoever qualifies, no 30 days from `w` see
      more than max(5, ⌈n/9⌉) citizens made in a server that had `n` before `w`. */
  lemma {:induction false} PlatformGrowthBound(node: NodeNumber, acts: seq<Timed>, s: ServerId, w: Timestamp)
    requires IsServiceRun(node, acts) && acts != []
    requires acts[|acts| - 1].now <= w + 30 * 86_400
    ensures var roll := RunActs(node, acts).Tables().memberships;
            var before, admitted := |Franchise.AdmittedBefore(roll, s, w)|, |Franchise.AdmittedFrom(roll, s, w)|;
            admitted <= 5 || admitted <= (before + 8) / 9
  {
    ServiceRunIsRollRun(node, acts);
    MomentsRoll(node, acts);
    Franchise.GrowthBound(Moments(node, acts), |acts| - 1, s, w);
  }

  /** The franchise of the platform is only earned: every citizen founded their server or was admitted by
      `try_enfranchise` with every criterion met and a slot open, at the time their row records. */
  lemma {:induction false} PlatformFranchiseIsEarned(node: NodeNumber, acts: seq<Timed>, k: Franchise.Key)
    returns (i: nat)
    requires IsServiceRun(node, acts) && acts != []
    requires k in RunActs(node, acts).Tables().memberships && RunActs(node, acts).Tables().memberships[k].IsCitizen()
    ensures i < |acts|
    ensures RunActs(node, acts).Tables().memberships[k].enfranchisedAt == Some(acts[i].now)
    ensures var roll := Franchise.RollAfter(Moments(node, acts), i);
            match Moments(node, acts)[i].change
            case Found(founded) => founded == k && forall other :: other in roll ==> roll[other].serverId != k.1
            case Admit(admitted, user, criteria) =>
              admitted == k && k in roll && !roll[k].IsCitizen()
              && Franchise.IsEligible(user, roll[k], criteria, acts[i].now)
              && Franchise.SlotOpen(roll, k.1, acts[i].now)
            case _ => false
  {
    ServiceRunIsRollRun(node, acts);
    MomentsRoll(node, acts);
    i := Franchise.EveryCitizenHasAnOrigin(Moments(node, acts), |acts| - 1, k);
    assert Franchise.Follows(Moments(node, acts), i);
  }
}
