/** A ban, and a timeout with it, is for good: from the call that executes it on, over every run of the services. */
module SanctionRuns {
  import opened Domain
  import opened Replica
  import opened Calls
  import opened Governance
  import opened Ids
  import opened ServiceRuns
  import opened ScoreRuns
  import Closing
  import Effects
  import Franchise
  import FranchiseRuns
  import Voting

  /** The site before the `k`-th proposal of a resolving call has its turn. */
  function SiteAtTurn(s: Site, ses: Session, names: Names, ps: seq<Proposal>, k: nat): Site
    requires k <= |ps|
  {
    ResolveList(s, ses, names, ps[..k])
  }

  /** The proposal is executed at its turn, and bans or times out a member. */
  predicate IsBannedAt(s: Site, ses: Session, names: Names, ps: seq<Proposal>, k: nat, user: UserId) {
    && k < |ps| && IsMature(CloseDue(SiteAtTurn(s, ses, names, ps, k).Tables(), ses, ps[k]), ses.now)
    && (ps[k].kind == Ban(user) || (ps[k].kind.Timeout? && ps[k].kind.user == user))
    && (user, ps[k].serverId) in SiteAtTurn(s, ses, names, ps, k).Tables().memberships
  }

  lemma ExecutedBan(s: Site, names: Names, p: Proposal, user: UserId, now: Timestamp)
    requires RowsOk(s.Tables(), now) && IsMature(p, now) && (user, p.serverId) in s.Tables().memberships
    requires p.kind == Ban(user) || (p.kind.Timeout? && p.kind.user == user)
    ensures Effects.IsSanctionedIn(ApplyIfMature(s, names, p, now).Tables(), user, p.serverId)
  {
    Effects.BanSanctions(s, p, user, names, now);
    Effects.AppliedLeaves(s, names, p, now);
  }

  lemma BannedAtTurn(s: Site, ses: Session, names: Names, p: Proposal, user: UserId)
    requires RowsOk(s.Tables(), ses.now) && IsMature(CloseDue(s.Tables(), ses, p), ses.now)
    requires p.kind == Ban(user) || (p.kind.Timeout? && p.kind.user == user)
    requires (user, p.serverId) in s.Tables().memberships
    ensures Effects.IsSanctionedIn(ResolveOne(s, ses, names, p).Tables(), user, p.serverId)
  {
    var closed := CloseDue(s.Tables(), ses, p);
    PutMoves(s, closed, ses.now);
    ExecutedBan(if IsDue(p, ses.now) then Put(s, closed) else s, names, closed, user, ses.now);
  }

  lemma SanctionStands(s: Site, s': Site, user: UserId, server: ServerId)
    requires RollStays(SceneAt(s), SceneAt(s')) && Effects.IsSanctionedIn(s.Tables(), user, server)
    ensures Effects.IsSanctionedIn(s'.Tables(), user, server)
  {
    assert (user, server) in SceneAt(s).roll;
  }

  lemma {:induction false} BannedInList(s: Site, ses: Session, names: Names, ps: seq<Proposal>, k: nat, user: UserId)
    requires RowsOk(s.Tables(), ses.now) && IsSnapshot(s.Tables(), ps) && IsBannedAt(s, ses, names, ps, k, user)
    ensures Effects.IsSanctionedIn(ResolveList(s, ses, names, ps).Tables(), user, ps[k].serverId)
    decreases |ps|
  {
    var front, last := ps[..|ps| - 1], ps[|ps| - 1];
    var mid := ResolveList(s, ses, names, front);
    SnapshotFront(s.Tables(), ps);
    ResolveListOutcome(s, ses, names, front);
    if k == |front| {
      BannedAtTurn(mid, ses, names, last, user);
    } else {
      assert front[..k] == ps[..k];
      BannedInList(s, ses, names, front, k, user);
      OneStands(mid, ses, names, last);
      SanctionStands(mid, ResolveOne(mid, ses, names, last), user, ps[k].serverId);
    }
  }

  // --- over runs -----------------------------------------------------------------------------------------

  lemma LastKeepsSanction(node: NodeNumber, acts: seq<Timed>, user: UserId, server: ServerId)
    requires IsServiceRun(node, acts) && acts != []
    requires Effects.IsSanctionedIn(RunActs(node, acts[..|acts| - 1]).Tables(), user, server)
    ensures Effects.IsSanctionedIn(RunActs(node, acts).Tables(), user, server)
  {
    var n := |acts| - 1;
    FitsBeforeLast(node, acts);
    RunKeepsReactions(node, acts[..n]);
    MembersStay(RunActs(node, acts[..n]), acts[n].act, acts[n].now);
    SanctionStands(RunActs(node, acts[..n]), RunActs(node, acts), user, server);
  }

  /** No service ever lifts a sanction. */
  lemma {:induction false} SanctionsLast(node: NodeNumber, acts: seq<Timed>, i: nat, user: UserId, server: ServerId)
    requires IsServiceRun(node, acts) && i <= |acts|
    requires Effects.IsSanctionedIn(SiteAt(node, acts, i).Tables(), user, server)
    ensures Effects.IsSanctionedIn(RunActs(node, acts).Tables(), user, server)
    decreases |acts|
  {
    if i == |acts| {
      assert acts[..i] == acts;
    } else {
      var front := acts[..|acts| - 1];
      RunFront(node, acts);
      assert front[..i] == acts[..i];
      SanctionsLast(node, front, i, user, server);
      LastKeepsSanction(node, acts, user, server);
    }
  }

  /** A ballot that bans a member, executed by the last act of a run. */
  predicate BansLast(node: NodeNumber, acts: seq<Timed>, k: nat, user: UserId) {
    && acts != []
    && var s, last := RunActs(node, acts[..|acts| - 1]), acts[|acts| - 1];
       && last.act.Resolve? && last.act.server in s.Tables().servers
       && IsBannedAt(s, Capture(s.Tables(), last.act.server, last.now), last.act.names,
                     Snapshot(s.Tables(), last.act.server), k, user)
  }

  lemma LastBans(node: NodeNumber, acts: seq<Timed>, k: nat, user: UserId)
    requires IsServiceRun(node, acts) && BansLast(node, acts, k, user)
    ensures Effects.IsSanctionedIn(RunActs(node, acts).Tables(), user, acts[|acts| - 1].act.server)
  {
    var s, last := RunActs(node, acts[..|acts| - 1]), acts[|acts| - 1];
    FitsBeforeLast(node, acts);
    SnapshotIsOne(s.Tables(), last.act.server, last.now);
    var ps := Snapshot(s.Tables(), last.act.server);
    assert ps[k].id in IdsOf(ps);
    BannedInList(s, Capture(s.Tables(), last.act.server, last.now), last.act.names, ps, k, user);
  }

  /** A member whose ban or timeout is executed at some point of a run is, at every later point of it, not franchised in
      that server, weighs nothing there, and neither posts, replies, votes nor proposes: a timeout's end changes
      nothing. */
  lemma BannedForGood(node: NodeNumber, acts: seq<Timed>, i: nat, k: nat, user: UserId, server: Server,
                      a: Effects.Try, id: nat, now: Timestamp)
    requires IsServiceRun(node, acts) && i <= |acts|
    requires BansLast(node, acts[..i], k, user) && server.id == acts[i - 1].act.server
    ensures var t := RunActs(node, acts).Tables();
            Effects.IsSanctionedIn(t, user, server.id) && !Effects.Succeeds(t, user, server.id, a, id, now)
            && Voting.BallotWeight(t.memberships, server, user, now) == 0
  {
    RunPart(node, acts, i);
    LastBans(node, acts[..i], k, user);
    SanctionsLast(node, acts, i, user, server.id);
    Effects.SanctionSilences(RunActs(node, acts).Tables(), user, server, a, id, now);
  }
}
