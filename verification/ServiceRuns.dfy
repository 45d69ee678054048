/** All the services of one node, run one call at a time: what each may write, and in what order ids are handed out.
    Every service is here, those that only read excepted. */
module ServiceRuns {
  import opened Domain
  import opened Replica
  import opened Calls
  import opened Services
  import opened Governance
  import opened Ids
  import Chat
  import Commands
  import Contribution

  datatype Act =
    | Found(user: UserId, slug: string, name: string, isPrivate: bool)
    | Join(user: UserId, server: ServerId)
    | Accept(user: UserId, codeHash: string)
    | Enfranchise(user: UserId, server: ServerId)
    | ShareHistory(user: UserId, server: ServerId, shares: bool)
    | Score(user: UserId, server: ServerId, contribution: int)
    | React(user: UserId, message: MessageId, emoji: string)
    | Unreact(user: UserId, message: MessageId, emoji: string)
    | OpenChannel(user: UserId, server: ServerId, name: string, topic: string)
    | Write(chat: Chat.ChatAct)
    | Command(cmd: Commands.Command)      // voting, direct messages, blocks, friendship
    | Propose(user: UserId, server: ServerId, kind: ProposalKind)
    | Resolve(server: ServerId, names: Names)
    | Other(call: Call)                   // any other write; see `IsOther`

  /** What the services not spelled out may write: accounts, emoji, invites, keys and grants, and anything about a
      channel already stored. */
  predicate IsOther(t: Tables, c: Call) {
    match c
    case PutChannel(x) => x.id in t.channels
    case PutServer(_) => false
    case PutMembership(_) => false
    case PutMessage(_) => false
    case AddReaction(_) => false
    case RemoveReaction(_, _, _) => false
    case PutProposal(_) => false
    case UpsertVote(_) => false
    case PutRule(_) => false
    case PutRole(_) => false
    case InsertDm(_) => false
    case _ => true
  }

  predicate IsActAt(s: Site, a: Act) { a.Other? ==> IsOther(s.Tables(), a.call) }

  /** The port calls of one use-case, and the counters it leaves. */
  datatype Plan = Plan(calls: seq<Call>, ids: Counters)

  function Decided(d: Decision, ids: Counters, ids': Counters): Plan {
    if d.Do? then Plan(d.calls, ids') else Plan([], ids)
  }

  function Reacted(o: Contribution.Outcome, ids: Counters): Plan {
    Plan(if o.Made? then o.calls else [], ids)
  }

  function PlanOf(t: Tables, ids: Counters, a: Act, now: Timestamp): Plan
    requires !a.Resolve?
  {
    match a
    case Found(u, slug, name, isPrivate) =>
      var ids' := ids.(servers := ids.servers + 1);
      Decided(FoundServer(t, u, slug, name, isPrivate, ids'.Server(), now), ids, ids')
    case Join(u, s) => Decided(JoinServer(t, u, s, now), ids, ids)
    case Accept(u, h) => Decided(AcceptInvite(t, u, h, now), ids, ids)
    case Enfranchise(u, s) => Decided(TryEnfranchise(t, u, s, now), ids, ids)
    case ShareHistory(u, s, shares) => Decided(SetHistorySharing(t, u, s, shares), ids, ids)
    case Score(u, s, c) => Decided(SetContribution(t, u, s, c), ids, ids)
    case React(u, m, e) => Reacted(Contribution.React(t, u, m, e), ids)
    case Unreact(u, m, e) => Reacted(Contribution.Unreact(t, u, m, e), ids)
    case OpenChannel(u, s, name, topic) =>
      var ids' := ids.(channels := ids.channels + 1);
      var o := Chat.OpenChannel(t, u, s, name, topic, ids'.Channel(), now);
      if o.Opened? then Plan([PutChannel(o.channel)], ids') else Plan([], ids)
    case Write(c) =>
      var p := Chat.PostingOf(t, ids, c, now);
      if p.Posted? then Plan([PutMessage(p.message)], if Chat.Mints(c) then Chat.NextIds(ids) else ids)
      else Plan([], ids)
    case Command(cmd) =>
      var c := Commands.UseCase(t, cmd, now, Commands.NextDm(ids).Dm());
      if c.Some? then Plan([c.value], if c.value.InsertDm? then Commands.NextDm(ids) else ids) else Plan([], ids)
    case Propose(u, s, kind) =>
      var ids' := ids.(proposals := ids.proposals + 1);
      var d := OpenProposal(t, u, s, kind, ids'.Proposal(), now);
      if d.Granted? then Plan([d.call], ids') else Plan([], ids)
    case Other(c) => Plan([c], ids)
  }

  function Next(s: Site, a: Act, now: Timestamp): Site {
    if a.Resolve? then ResolveDue(s, a.server, a.names, now)
    else
      var p := PlanOf(s.Tables(), s.ids, a, now);
      Site(ExecAll(s.store, p.calls), p.ids, s.effects)
  }

  // --- runs ---------------------------------------------------------------------------------------------

  datatype Timed = Timed(now: Timestamp, act: Act)

  const EMPTY_STORE := StoreState(EMPTY_TABLES, [], 0)

  function RunActs(node: NodeNumber, acts: seq<Timed>): Site
    decreases |acts|
  {
    if acts == [] then Site(EMPTY_STORE, Fresh(node), [])
    else Next(RunActs(node, acts[..|acts| - 1]), acts[|acts| - 1].act, acts[|acts| - 1].now)
  }

  /** The node before the `i`-th act. */
  function SiteAt(node: NodeNumber, acts: seq<Timed>, i: nat): Site
    requires i <= |acts|
  {
    RunActs(node, acts[..i])
  }

  /** A run of the services under a clock that does not go back, until a counter has used up its 48 bits. */
  ghost predicate IsServiceRun(node: NodeNumber, acts: seq<Timed>) {
    && (forall i :: 0 <= i < |acts| ==> IsActAt(SiteAt(node, acts, i), acts[i].act))
    && (forall i :: 0 < i < |acts| ==> acts[i - 1].now <= acts[i].now)
    && RunActs(node, acts).ids.Fit()
  }

  // --- counters only grow --------------------------------------------------------------------------------

  lemma MintedGrows(ids: Counters, c: Option<Call>)
    ensures ids.UpTo(Minted(ids, c))
  {
  }

  lemma ApplyIdsGrow(s: Site, names: Names, p: Proposal, now: Timestamp)
    ensures s.ids.UpTo(ApplyIfMature(s, names, p, now).ids)
  {
    MintedGrows(s.ids, EffectCall(s.Tables(), p, names, s.ids, now));
  }

  lemma OneIdsGrow(s: Site, ses: Session, names: Names, p: Proposal)
    ensures s.ids.UpTo(ResolveOne(s, ses, names, p).ids)
  {
    var closed := CloseDue(s.Tables(), ses, p);
    ApplyIdsGrow(if IsDue(p, ses.now) then Put(s, closed) else s, names, closed, ses.now);
  }

  lemma {:induction false} ListIdsGrow(s: Site, ses: Session, names: Names, ps: seq<Proposal>)
    ensures s.ids.UpTo(ResolveList(s, ses, names, ps).ids)
    decreases |ps|
  {
    if ps != [] {
      var front := ps[..|ps| - 1];
      ListIdsGrow(s, ses, names, front);
      OneIdsGrow(ResolveList(s, ses, names, front), ses, names, ps[|ps| - 1]);
    }
  }

  lemma IdsGrow(s: Site, a: Act, now: Timestamp)
    ensures s.ids.UpTo(Next(s, a, now).ids)
  {
    if a.Resolve? && a.server in s.Tables().servers {
      ListIdsGrow(s, Capture(s.Tables(), a.server, now), a.names, Snapshot(s.Tables(), a.server));
    }
  }

  /** A shorter run is a run, and has handed out fewer ids. */
  lemma RunFront(node: NodeNumber, acts: seq<Timed>)
    requires acts != [] && IsServiceRun(node, acts)
    ensures var n := |acts| - 1;
            && IsServiceRun(node, acts[..n]) && IsActAt(RunActs(node, acts[..n]), acts[n].act)
            && RunActs(node, acts) == Next(RunActs(node, acts[..n]), acts[n].act, acts[n].now)
            && (n > 0 ==> acts[n - 1].now <= acts[n].now)
  {
    var n := |acts| - 1;
    IdsGrow(RunActs(node, acts[..n]), acts[n].act, acts[n].now);
    forall i | 0 <= i < n ensures IsActAt(SiteAt(node, acts[..n], i), acts[i].act) {
      assert acts[..n][..i] == acts[..i];
      assert IsActAt(SiteAt(node, acts, i), acts[i].act);
    }
    assert IsActAt(SiteAt(node, acts, n), acts[n].act);
  }

  lemma LastIdGrows(node: NodeNumber, x: nat, y: nat)
    requires x <= y < SEQUENCE_SPAN
    ensures ComposeId(node, x) <= ComposeId(node, y)
  {
    if x < y { MintedIdsGrow(node, x, y); }
  }

  /** Within 48 bits, a later counter's last id is no smaller. */
  lemma LastIdsGrow(ids: Counters, ids': Counters)
    requires ids.UpTo(ids') && ids'.Fit()
    ensures ids.Fit() && ids.Server() <= ids'.Server() && ids.Channel() <= ids'.Channel()
    ensures ids.Message() <= ids'.Message() && ids.Proposal() <= ids'.Proposal() && ids.Rule() <= ids'.Rule()
    ensures ids.Dm() <= ids'.Dm() && ids.Role() <= ids'.Role()
  {
    LastIdGrows(ids.node, ids.servers, ids'.servers);
    LastIdGrows(ids.node, ids.channels, ids'.channels);
    LastIdGrows(ids.node, ids.messages, ids'.messages);
    LastIdGrows(ids.node, ids.proposals, ids'.proposals);
    LastIdGrows(ids.node, ids.rules, ids'.rules);
    LastIdGrows(ids.node, ids.dms, ids'.dms);
    LastIdGrows(ids.node, ids.roles, ids'.roles);
  }
}
