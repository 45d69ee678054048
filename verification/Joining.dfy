/** Who gets into a server and into its franchise: exactly when each request is accepted, and what it writes. */
module Joining {
  import opened Domain
  import opened Replica
  import opened Calls
  import opened Services
  import Franchise

  /** The tables with one membership written. */
  function WithMember(t: Tables, m: Membership): Tables {
    t.(memberships := t.memberships[(m.userId, m.serverId) := m])
  }

  /** A server is founded exactly by a known account that is not barred, under a name of its own. */
  lemma FoundedIff(t: Tables, user: UserId, slug: string, name: string, isPrivate: bool, id: ServerId, now: Timestamp)
    ensures FoundServer(t, user, slug, name, isPrivate, id, now).Do? <==>
      && user in t.users && !t.users[user].isFranchiseBarred
      && slug != "" && forall s :: s in t.servers ==> t.servers[s].slug != slug
  {
  }

  /** A server starts under the platform's rules: 30 days of account, 14 of membership, a contribution of 5; open to
      invites, votes unweighted, every ballot but the three on vote weights switched on. */
  predicate IsNewServer(server: Server, id: ServerId, slug: string, name: string, founder: UserId, isPrivate: bool,
                        now: Timestamp)
  {
    && server.id == id && server.slug == slug && server.name == name && server.founderId == founder
    && server.createdAt == now && server.isPrivate == isPrivate && server.invitesOpen && !server.isRehomingDisabled
    && server.criteria == FranchiseCriteria(30, 14, 5) && server.voteWeighting == Equal
    && forall b :: b in server.enabledBallots <==>
         !b.BkSetVoteWeighting? && !b.BkSetWeightingScope? && !b.BkGrantVoteWeight?
  }

  lemma NewServerIs(id: ServerId, slug: string, name: string, founder: UserId, isPrivate: bool, now: Timestamp)
    ensures IsNewServer(NewServer(id, slug, name, founder, isPrivate, now), id, slug, name, founder, isPrivate, now)
  {
  }

  /** Founding writes such a server and makes its founder its citizen from that moment. */
  lemma FoundedIs(t: Tables, user: UserId, slug: string, name: string, isPrivate: bool, id: ServerId, now: Timestamp)
    requires FoundServer(t, user, slug, name, isPrivate, id, now).Do?
    ensures var t' := Perform(t, FoundServer(t, user, slug, name, isPrivate, id, now).calls);
            && id in t'.servers && IsNewServer(t'.servers[id], id, slug, name, user, isPrivate, now)
            && t' == WithMember(t.(servers := t.servers[id := t'.servers[id]]),
                                Membership(user, id, now, Citizen, false, 0, Some(now), 1, true))
  {
    var server := NewServer(id, slug, name, user, isPrivate, now);
    var m := Franchise.Enfranchised(Joined(user, id, now), now);
    NewServerIs(id, slug, name, user, isPrivate, now);
    assert FoundServer(t, user, slug, name, isPrivate, id, now).calls == [PutServer(server), PutMembership(m)];
    BothPuts(t, server, m);
  }

  lemma BothPuts(t: Tables, server: Server, m: Membership)
    ensures Perform(t, [PutServer(server), PutMembership(m)])
         == WithMember(t.(servers := t.servers[server.id := server]), m)
  {
    PerformTwo(t, PutServer(server), PutMembership(m));
  }

  /** A link lets in exactly a known account into a known server it is not a member of; as an ordinary member. */
  lemma JoinedIff(t: Tables, user: UserId, server: ServerId, now: Timestamp)
    ensures JoinServer(t, user, server, now).Do? <==>
      user in t.users && server in t.servers && (user, server) !in t.memberships
    ensures JoinServer(t, user, server, now).Do? ==>
      Perform(t, JoinServer(t, user, server, now).calls)
      == WithMember(t, Membership(user, server, now, Member, false, 0, None, 1, true))
  {
    if JoinServer(t, user, server, now).Do? { PerformOne(t, JoinServer(t, user, server, now).calls[0]); }
  }

  /** An invite lets in exactly where it is known, not revoked, and the server's invites are open. */
  lemma AcceptedIff(t: Tables, user: UserId, code: string, now: Timestamp)
    ensures AcceptInvite(t, user, code, now).Do? <==>
      && user in t.users && code in t.invites && !t.invites[code].isRevoked
      && var server := t.invites[code].serverId;
         server in t.servers && t.servers[server].invitesOpen && (user, server) !in t.memberships
    ensures AcceptInvite(t, user, code, now).Do? ==>
      Perform(t, AcceptInvite(t, user, code, now).calls)
      == WithMember(t, Membership(user, t.invites[code].serverId, now, Member, false, 0, None, 1, true))
  {
    if AcceptInvite(t, user, code, now).Do? { PerformOne(t, AcceptInvite(t, user, code, now).calls[0]); }
  }

  /** A revoked invite lets nobody in. */
  lemma RevokedAdmitsNobody(t: Tables, user: UserId, code: string, now: Timestamp)
    requires code in t.invites && t.invites[code].codeHash == code
    ensures AcceptInvite(TablesAfter(t, RevokeInvite(code)), user, code, now).Refuse?
  {
    AcceptedIff(TablesAfter(t, RevokeInvite(code)), user, code, now);
  }

  /** Fewer admitted since 30 days ago than a tenth of the citizens, rounded up, or than five. */
  predicate IsUnderCap(t: Tables, server: ServerId, now: Timestamp) {
    var citizens :=
      |set k | k in t.memberships && t.memberships[k].serverId == server && t.memberships[k].tier.Citizen?|;
    var admitted := |Franchise.AdmittedFrom(t.memberships, server, now - 30 * 86_400)|;
    admitted < 5 || admitted < Franchise.Saturated(Franchise.Saturated(citizens * 10) + 99) / 100
  }

  lemma UnderCapIff(t: Tables, server: ServerId, now: Timestamp)
    ensures Franchise.SlotOpen(t.memberships, server, now) <==> IsUnderCap(t, server, now)
  {
    var citizens := set k | k in t.memberships && t.memberships[k].serverId == server && t.memberships[k].tier.Citizen?;
    assert citizens == Franchise.Citizens(t.memberships, server);
  }

  /** A member becomes a citizen exactly when they are not one, not barred, long enough here, of enough standing, not
      under a sanction, and the cap leaves room. */
  lemma AdmittedIff(t: Tables, user: UserId, server: ServerId, now: Timestamp)
    ensures TryEnfranchise(t, user, server, now).Do? <==>
      && user in t.users && server in t.servers && (user, server) in t.memberships
      && var u, m, c := t.users[user], t.memberships[(user, server)], t.servers[server].criteria;
         && !m.tier.Citizen? && !u.isFranchiseBarred && !m.isSanctioned && m.contribution >= c.minContribution
         && (now - u.createdAt) / 86_400 >= c.minAccountAgeDays && (now - m.joinedAt) / 86_400 >= c.minMembershipDays
         && IsUnderCap(t, server, now)
    ensures TryEnfranchise(t, user, server, now).Do? ==>
      Perform(t, TryEnfranchise(t, user, server, now).calls)
      == WithMember(t, t.memberships[(user, server)].(tier := Citizen, enfranchisedAt := Some(now)))
  {
    UnderCapIff(t, server, now);
    if TryEnfranchise(t, user, server, now).Do? { PerformOne(t, TryEnfranchise(t, user, server, now).calls[0]); }
  }

  /** A member's two settings, whether they pass on history and, for demonstrations, their contribution, are written for
      exactly the known members, on their row alone. */
  lemma SettingsIff(t: Tables, user: UserId, server: ServerId, shares: bool, contribution: int)
    ensures var isMember := user in t.users && server in t.servers && (user, server) in t.memberships;
            var history := SetHistorySharing(t, user, server, shares);
            var score := SetContribution(t, user, server, contribution);
            && (history.Do? <==> isMember) && (score.Do? <==> isMember)
            && (isMember ==>
                  var m := t.memberships[(user, server)];
                  && Perform(t, history.calls) == WithMember(t, m.(sharesHistory := shares))
                  && Perform(t, score.calls) == WithMember(t, m.(contribution := contribution)))
  {
    if SetHistorySharing(t, user, server, shares).Do? {
      PerformOne(t, SetHistorySharing(t, user, server, shares).calls[0]);
      PerformOne(t, SetContribution(t, user, server, contribution).calls[0]);
    }
  }
}
