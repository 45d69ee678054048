/** The membership use-cases as functions of the tables: what each refuses, and the port calls it makes. The
    class at the end performs them on the store. */
module Services {
  import opened Domain
  import opened Replica
  import opened Calls
  import opened Store
  import Franchise

  datatype ServiceError =
    | NoSuchUser | NoSuchServer | FounderBarred | EmptyName | SlugTaken | AlreadyMember | InvalidCode | InvitesClosed
    | NotAMember | AlreadyCitizen | NotEligible | RateCapped(admitted: nat)

  /** A use-case's decision: refuse, or make these port calls in order. */
  datatype Decision = Refuse(error: ServiceError) | Do(calls: seq<Call>)

  function CallsOf(d: Decision): seq<Call> {
    if d.Do? then d.calls else []
  }

  /** The tables after some port calls. */
  function Perform(t: Tables, calls: seq<Call>): Tables
    decreases |calls|
  {
    if calls == [] then t else TablesAfter(Perform(t, calls[..|calls| - 1]), calls[|calls| - 1])
  }

  lemma ExecOne(s: StoreState, c: Call)
    ensures ExecAll(s, [c]) == Exec(s, c)
  {
    assert [c][..0] == [];
  }

  lemma ExecTwo(s: StoreState, a: Call, b: Call)
    ensures ExecAll(s, [a, b]) == Exec(Exec(s, a), b)
  {
    assert [a, b][..1] == [a];
    ExecOne(s, a);
  }

  lemma {:induction false} ExecMore(s: StoreState, a: seq<Call>, b: seq<Call>)
    ensures ExecAll(s, a + b) == ExecAll(ExecAll(s, a), b)
    decreases |b|
  {
    if b == [] {
      assert a + b == a;
    } else {
      assert (a + b)[..|a + b| - 1] == a + b[..|b| - 1];
      ExecMore(s, a, b[..|b| - 1]);
    }
  }

  /** Running port calls on a store leaves the tables those calls leave. */
  lemma {:induction false} ExecLeaves(s: StoreState, calls: seq<Call>)
    ensures ExecAll(s, calls).tables == Perform(s.tables, calls)
    decreases |calls|
  {
    if calls != [] { ExecLeaves(s, calls[..|calls| - 1]); }
  }

  predicate HasSlug(t: Tables, slug: string) {
    exists id | id in t.servers :: t.servers[id].slug == slug
  }

  function NewServer(id: ServerId, slug: string, name: string, founder: UserId, isPrivate: bool, now: Timestamp)
    : Server
  {
    Server(id, slug, name, founder, now, PLATFORM_CRITERIA, DEFAULT_SURFACE, SqrtSizing(10_000, 5_000), Equal,
           BothScopes, false, isPrivate, true)
  }

  /** Found a server under a freshly minted id; the founder is its first citizen. */
  function FoundServer(t: Tables, user: UserId, slug: string, name: string, isPrivate: bool, id: ServerId,
                       now: Timestamp): Decision
  {
    if user !in t.users then Refuse(NoSuchUser)
    else if t.users[user].isFranchiseBarred then Refuse(FounderBarred)
    else if slug == "" then Refuse(EmptyName)
    else if HasSlug(t, slug) then Refuse(SlugTaken)
    else
      Do([PutServer(NewServer(id, slug, name, user, isPrivate, now)),
          PutMembership(Franchise.Enfranchised(Joined(user, id, now), now))])
  }

  function JoinServer(t: Tables, user: UserId, server: ServerId, now: Timestamp): Decision {
    if user !in t.users then Refuse(NoSuchUser)
    else if server !in t.servers then Refuse(NoSuchServer)
    else if (user, server) in t.memberships then Refuse(AlreadyMember)
    else Do([PutMembership(Joined(user, server, now))])
  }

  function AcceptInvite(t: Tables, user: UserId, codeHash: string, now: Timestamp): Decision {
    if user !in t.users then Refuse(NoSuchUser)
    else if codeHash !in t.invites || t.invites[codeHash].isRevoked then Refuse(InvalidCode)
    else
      var server := t.invites[codeHash].serverId;
      if server !in t.servers then Refuse(InvalidCode)
      else if !t.servers[server].invitesOpen then Refuse(InvitesClosed)
      else if (user, server) in t.memberships then Refuse(AlreadyMember)
      else Do([PutMembership(Joined(user, server, now))])
  }

  /** The only path by which a non-founder becomes a citizen: every criterion met, then an open slot. */
  function TryEnfranchise(t: Tables, user: UserId, server: ServerId, now: Timestamp): Decision {
    if user !in t.users then Refuse(NoSuchUser)
    else if server !in t.servers then Refuse(NoSuchServer)
    else if (user, server) !in t.memberships then Refuse(NotAMember)
    else
      var m := t.memberships[(user, server)];
      if m.IsCitizen() then Refuse(AlreadyCitizen)
      else if !Franchise.IsEligible(t.users[user], m, t.servers[server].criteria, now) then Refuse(NotEligible)
      else if !Franchise.SlotOpen(t.memberships, server, now) then
        Refuse(RateCapped(Franchise.AdmittedSince(t.memberships, server,
                                                  PlusDays(now, -Franchise.RATE_CAP_WINDOW_DAYS))))
      else Do([PutMembership(Franchise.Enfranchised(m, now))])
  }

  function SetHistorySharing(t: Tables, user: UserId, server: ServerId, shares: bool): Decision {
    if user !in t.users then Refuse(NoSuchUser)
    else if server !in t.servers then Refuse(NoSuchServer)
    else if (user, server) !in t.memberships then Refuse(NotAMember)
    else Do([PutMembership(t.memberships[(user, server)].(sharesHistory := shares))])
  }

  /** The testing helper that writes the contribution directly: an input to the criteria, never a tier. */
  function SetContribution(t: Tables, user: UserId, server: ServerId, contribution: int): Decision {
    if user !in t.users then Refuse(NoSuchUser)
    else if server !in t.servers then Refuse(NoSuchServer)
    else if (user, server) !in t.memberships then Refuse(NotAMember)
    else Do([PutMembership(t.memberships[(user, server)].(contribution := contribution))])
  }

  // --- what each does to the roll -------------------------------------------------------------------

  lemma PerformOne(t: Tables, c: Call)
    ensures Perform(t, [c]) == TablesAfter(t, c)
  {
  }

  lemma PerformTwo(t: Tables, a: Call, b: Call)
    ensures Perform(t, [a, b]) == TablesAfter(TablesAfter(t, a), b)
  {
    assert [a, b][..1] == [a];
    PerformOne(t, a);
  }

  /** No membership names a server not founded yet. */
  predicate IsUnused(t: Tables, id: ServerId) {
    forall k :: k in t.memberships ==> t.memberships[k].serverId != id
  }

  lemma FoundChangesRoll(t: Tables, user: UserId, slug: string, name: string, isPrivate: bool, id: ServerId,
                         now: Timestamp)
    requires FoundServer(t, user, slug, name, isPrivate, id, now).Do? && IsUnused(t, id)
    ensures Franchise.Changes(t.memberships, Franchise.Found((user, id)), now,
              Perform(t, FoundServer(t, user, slug, name, isPrivate, id, now).calls).memberships)
  {
    var calls := FoundServer(t, user, slug, name, isPrivate, id, now).calls;
    PerformTwo(t, calls[0], calls[1]);
  }

  lemma JoinChangesRoll(t: Tables, user: UserId, server: ServerId, now: Timestamp)
    requires JoinServer(t, user, server, now).Do?
    ensures Franchise.Changes(t.memberships, Franchise.Join((user, server)), now,
              Perform(t, JoinServer(t, user, server, now).calls).memberships)
  {
  }

  lemma InviteChangesRoll(t: Tables, user: UserId, codeHash: string, now: Timestamp)
    requires AcceptInvite(t, user, codeHash, now).Do?
    ensures Franchise.Changes(t.memberships, Franchise.Join((user, t.invites[codeHash].serverId)), now,
              Perform(t, AcceptInvite(t, user, codeHash, now).calls).memberships)
  {
    PerformOne(t, AcceptInvite(t, user, codeHash, now).calls[0]);
  }

  /** Admission happens exactly when nothing stands in the way, and then it is an earned one. */
  lemma EnfranchiseChangesRoll(t: Tables, user: UserId, server: ServerId, now: Timestamp)
    requires Franchise.RollOk(t.memberships, now)
    ensures TryEnfranchise(t, user, server, now).Do? ==>
      Franchise.Changes(t.memberships,
        Franchise.Admit((user, server), t.users[user], t.servers[server].criteria), now,
        Perform(t, TryEnfranchise(t, user, server, now).calls).memberships)
  {
    if TryEnfranchise(t, user, server, now).Do? {
      PerformOne(t, TryEnfranchise(t, user, server, now).calls[0]);
    }
  }

  /** Rewriting a stored row with its franchise fields as they are changes nobody's franchise. */
  lemma KeptRow(t: Tables, k: Franchise.Key, m: Membership, now: Timestamp)
    requires k in t.memberships && (m.userId, m.serverId) == k && Franchise.FranchiseKept(t.memberships[k], m)
    ensures Franchise.Changes(t.memberships, Franchise.Kept, now, TablesAfter(t, PutMembership(m)).memberships)
  {
  }

  lemma SettingsKeepRoll(t: Tables, user: UserId, server: ServerId, shares: bool, contribution: int, now: Timestamp)
    requires Franchise.RollOk(t.memberships, now)
    ensures Franchise.Changes(t.memberships, Franchise.Kept, now,
              Perform(t, CallsOf(SetHistorySharing(t, user, server, shares))).memberships)
    ensures Franchise.Changes(t.memberships, Franchise.Kept, now,
              Perform(t, CallsOf(SetContribution(t, user, server, contribution))).memberships)
  {
    if SetHistorySharing(t, user, server, shares).Do? {
      var a := SetHistorySharing(t, user, server, shares).calls[0];
      var b := SetContribution(t, user, server, contribution).calls[0];
      PerformOne(t, a);
      PerformOne(t, b);
      KeptRow(t, (user, server), a.membership, now);
      KeptRow(t, (user, server), b.membership, now);
    }
  }
}
