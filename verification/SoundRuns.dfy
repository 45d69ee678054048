/** What every run of the services keeps: no row stands under an id still to be handed out, replies hang where they
    belong, and every port call is made in the discipline a replica relies on. */
module SoundRuns {
  import opened Domain
  import opened Replica
  import opened Calls
  import opened Services
  import opened Governance
  import opened Ids
  import opened ServiceRuns
  import opened Discipline
  import Chat
  import Commands
  import Contribution
  import FranchiseRuns
  import RedoLog

  /** No row under an id its counter has not handed out yet. */
  ghost predicate IdsOk(t: Tables, ids: Counters) {
    && (forall id :: id in t.servers ==> id <= ids.Server())
    && (forall id :: id in t.channels ==> id <= ids.Channel())
    && (forall id :: id in t.proposals ==> id <= ids.Proposal())
    && (forall id :: id in t.rules ==> id <= ids.Rule())
    && (forall id :: id in t.roles ==> id <= ids.Role())
    && (forall i :: 0 <= i < |t.dms| ==> t.dms[i].id <= ids.Dm())
  }

  ghost predicate IsOrderly(s: Site) {
    IdsOk(s.Tables(), s.ids) && Chat.ThreadsOk(s.Tables(), s.ids)
  }

  /** The last ids handed out are no smaller. */
  predicate LastIdsUpTo(ids: Counters, ids': Counters) {
    && ids.Server() <= ids'.Server() && ids.Channel() <= ids'.Channel() && ids.Message() <= ids'.Message()
    && ids.Proposal() <= ids'.Proposal() && ids.Rule() <= ids'.Rule() && ids.Dm() <= ids'.Dm()
    && ids.Role() <= ids'.Role()
  }

  /** A call that fits the tables it is made on, with the counters before and after it: rows go under ids handed out by
      then, new messages under ids handed out just now, stored ones stay in their place, children have parents. */
  predicate Fits(t: Tables, ids: Counters, c: Call, ids': Counters) {
    match c
    case PutServer(x) => x.id <= ids'.Server()
    case PutChannel(x) => x.id <= ids'.Channel()
    case PutMessage(m) =>
      && m.id <= ids'.Message() && Chat.AnswersNearby(t.messages, m)
      && (if m.id in t.messages then m.IsBeside(t.messages[m.id]) else ids.Message() < m.id)
    case AddReaction(r) => r.messageId in t.messages
    case RemoveReaction(m, _, _) => m in t.messages
    case PutProposal(p) =>
      p.id <= ids'.Proposal() && (p.id in t.proposals ==> p.serverId == t.proposals[p.id].serverId)
    case UpsertVote(v) => v.proposalId in t.proposals
    case PutRule(x) => x.id <= ids'.Rule()
    case PutRole(x) => x.id <= ids'.Role()
    case InsertDm(d) => ids.Dm() < d.id <= ids'.Dm()
    case _ => true
  }

  lemma FitKeepsIds(t: Tables, ids: Counters, c: Call, ids': Counters)
    requires IdsOk(t, ids) && LastIdsUpTo(ids, ids') && Fits(t, ids, c, ids')
    ensures IdsOk(TablesAfter(t, c), ids')
  {
  }

  lemma FitKeepsOrder(s: Site, c: Call, s': Site)
    requires IsOrderly(s) && LastIdsUpTo(s.ids, s'.ids) && Fits(s.Tables(), s.ids, c, s'.ids)
    requires s'.store == Exec(s.store, c)
    ensures IsOrderly(s')
  {
    RedoLog.ExecTables(s.store, c);
    FitKeepsIds(s.Tables(), s.ids, c, s'.ids);
    if c.PutMessage? { Chat.WritingKeepsThreads(s.Tables(), s.ids, s'.ids, c.message); }
    else { Chat.OthersKeepThreads(s.Tables(), s.ids, s'.ids, c); }
  }

  // --- the calls made so far ------------------------------------------------------------------------------

  /** A message some time before the last of the calls. */
  ghost predicate WasStored(cs: seq<Call>, id: MessageId) {
    EverStored(EMPTY_STORE, cs, |cs|, id)
  }

  /** The calls a node has made since it started empty: they leave its store, were made in discipline, and no message
      was ever stored under an id still to be handed out. */
  ghost predicate IsTrace(cs: seq<Call>, s: Site) {
    && s.store == ExecAll(EMPTY_STORE, cs) && IsDisciplined(EMPTY_STORE, cs)
    && forall id: MessageId :: WasStored(cs, id) ==> id <= s.ids.Message()
  }

  lemma FitIsDisciplined(s: Site, c: Call, ids': Counters)
    requires IsOrderly(s) && Fits(s.Tables(), s.ids, c, ids')
    ensures KeepsPlaces(s.Tables(), c) && HasParent(s.Tables(), c) && RedoLog.IsFreshDm(s.Tables(), c)
  {
  }

  lemma WasStoredOn(cs: seq<Call>, c: Call, id: MessageId)
    requires WasStored(cs + [c], id)
    ensures WasStored(cs, id) || id in ExecAll(EMPTY_STORE, cs).tables.messages
  {
    var all := cs + [c];
    var j :| 0 <= j < |cs| + 1 && id in After(EMPTY_STORE, all, j).messages;
    assert all[..|cs|] == cs && cs[..|cs|] == cs;
    SameBefore(EMPTY_STORE, all, |cs|, j);
  }

  lemma TraceOn(cs: seq<Call>, s: Site, c: Call, s': Site)
    requires IsTrace(cs, s) && IsOrderly(s) && LastIdsUpTo(s.ids, s'.ids) && Fits(s.Tables(), s.ids, c, s'.ids)
    requires s'.store == Exec(s.store, c)
    ensures IsTrace(cs + [c], s')
  {
    FitIsDisciplined(s, c, s'.ids);
    assert c.PutMessage? && c.message.id !in s.Tables().messages ==> !WasStored(cs, c.message.id);
    DisciplinedOn(EMPTY_STORE, cs, c);
    assert (cs + [c])[..|cs|] == cs;
    forall id: MessageId | WasStored(cs + [c], id) ensures id <= s'.ids.Message() {
      WasStoredOn(cs, c, id);
      if id in s.Tables().messages { assert Chat.MessageOk(s.Tables(), s.ids, id); }
    }
  }

  /** Orderly, and reached by calls made in discipline. */
  ghost predicate IsSound(cs: seq<Call>, s: Site) {
    IsTrace(cs, s) && IsOrderly(s)
  }

  lemma SoundOn(cs: seq<Call>, s: Site, c: Call, s': Site)
    requires IsSound(cs, s) && s.ids.UpTo(s'.ids) && s'.ids.Fit() && Fits(s.Tables(), s.ids, c, s'.ids)
    requires s'.store == Exec(s.store, c)
    ensures IsSound(cs + [c], s')
  {
    LastIdsGrow(s.ids, s'.ids);
    TraceOn(cs, s, c, s');
    FitKeepsOrder(s, c, s');
  }

  // --- every use-case fits ----------------------------------------------------------------------------------

  /** At most two calls: the first fits, a second one writes a membership. */
  ghost predicate PlanFits(s: Site, p: Plan) {
    && |p.calls| <= 2
    && (p.calls == [] ==> p.ids == s.ids)
    && (p.calls != [] ==> Fits(s.Tables(), s.ids, p.calls[0], p.ids))
    && (|p.calls| == 2 ==> p.calls[1].PutMembership?)
  }

  lemma ReactionFits(s: Site, a: Act, now: Timestamp)
    requires (a.React? || a.Unreact?) && IsOrderly(s)
    ensures PlanFits(s, PlanOf(s.Tables(), s.ids, a, now))
  {
    if a.message in s.Tables().messages { assert Chat.MessageOk(s.Tables(), s.ids, a.message); }
  }

  lemma MemberFits(s: Site, a: Act, now: Timestamp)
    requires FranchiseRuns.IsMembershipAct(a) || a.Found?
    ensures PlanFits(s, PlanOf(s.Tables(), s.ids, a, now))
  {
  }

  lemma WriteFits(s: Site, a: Act, now: Timestamp)
    requires a.Write? && IsOrderly(s) && PlanOf(s.Tables(), s.ids, a, now).ids.Fit()
    ensures PlanFits(s, PlanOf(s.Tables(), s.ids, a, now))
  {
    var p := Chat.PostingOf(s.Tables(), s.ids, a.chat, now);
    if p.Posted? {
      Chat.PostingFits(s.Tables(), s.ids, a.chat, now);
      if p.message.id in s.Tables().messages { assert Chat.MessageOk(s.Tables(), s.ids, p.message.id); }
    }
  }

  lemma CommandFits(s: Site, a: Act, now: Timestamp)
    requires a.Command? && PlanOf(s.Tables(), s.ids, a, now).ids.Fit()
    ensures PlanFits(s, PlanOf(s.Tables(), s.ids, a, now))
  {
    if s.ids.dms + 1 < SEQUENCE_SPAN { MintedIdsGrow(s.ids.node, s.ids.dms, s.ids.dms + 1); }
  }

  lemma ProposeFits(s: Site, a: Act, now: Timestamp)
    requires a.Propose? && IsOrderly(s) && PlanOf(s.Tables(), s.ids, a, now).ids.Fit()
    ensures PlanFits(s, PlanOf(s.Tables(), s.ids, a, now))
  {
    if s.ids.proposals + 1 < SEQUENCE_SPAN { MintedIdsGrow(s.ids.node, s.ids.proposals, s.ids.proposals + 1); }
  }

  lemma OtherFits(s: Site, a: Act, now: Timestamp)
    requires (a.Other? || a.OpenChannel?) && IsActAt(s, a) && IsOrderly(s)
    ensures PlanFits(s, PlanOf(s.Tables(), s.ids, a, now))
  {
  }

  lemma {:induction false} ActFits(s: Site, a: Act, now: Timestamp)
    requires !a.Resolve? && IsActAt(s, a) && IsOrderly(s) && PlanOf(s.Tables(), s.ids, a, now).ids.Fit()
    ensures PlanFits(s, PlanOf(s.Tables(), s.ids, a, now))
  {
    if a.React? || a.Unreact? { ReactionFits(s, a, now); }
    else if FranchiseRuns.IsMembershipAct(a) || a.Found? { MemberFits(s, a, now); }
    else if a.Write? { WriteFits(s, a, now); }
    else if a.Command? { CommandFits(s, a, now); }
    else if a.Propose? { ProposeFits(s, a, now); }
    else { OtherFits(s, a, now); }
  }

  // --- acts -------------------------------------------------------------------------------------------------

  lemma OneCall(s: StoreState, calls: seq<Call>)
    requires |calls| == 1
    ensures ExecAll(s, calls) == Exec(s, calls[0])
  {
    ExecOne(s, calls[0]);
    assert calls == [calls[0]];
  }

  lemma TwoCalls(s: StoreState, calls: seq<Call>)
    requires |calls| == 2
    ensures ExecAll(s, calls) == Exec(Exec(s, calls[0]), calls[1])
  {
    ExecTwo(s, calls[0], calls[1]);
    assert calls == [calls[0], calls[1]];
  }

  /** The calls of one plan, each made in discipline. */
  lemma PlanIsSound(cs: seq<Call>, s: Site, p: Plan) returns (cs': seq<Call>)
    requires IsSound(cs, s) && PlanFits(s, p) && s.ids.UpTo(p.ids) && p.ids.Fit()
    ensures IsSound(cs', Site(ExecAll(s.store, p.calls), p.ids, s.effects))
  {
    var s' := Site(ExecAll(s.store, p.calls), p.ids, s.effects);
    if p.calls == [] {
      cs' := cs;
    } else if |p.calls| == 1 {
      OneCall(s.store, p.calls);
      SoundOn(cs, s, p.calls[0], s');
      cs' := cs + [p.calls[0]];
    } else {
      TwoCalls(s.store, p.calls);
      var mid := Site(Exec(s.store, p.calls[0]), p.ids, s.effects);
      SoundOn(cs, s, p.calls[0], mid);
      SoundOn(cs + [p.calls[0]], mid, p.calls[1], s');
      cs' := cs + [p.calls[0]] + [p.calls[1]];
    }
  }

  // --- resolving ---------------------------------------------------------------------------------------------

  /** The effect of a passed ballot fits, and takes a new id when it makes a row. */
  lemma EffectFits(s: Site, p: Proposal, names: Names, now: Timestamp)
    requires IsOrderly(s) && RowsOk(s.Tables(), now) && EffectCall(s.Tables(), p, names, s.ids, now).Some?
    ensures var c := EffectCall(s.Tables(), p, names, s.ids, now);
            Fits(s.Tables(), s.ids, c.value, Minted(s.ids, c))
  {
  }

  lemma PutFits(s: Site, p: Proposal)
    requires IsOrderly(s) && p.id in s.Tables().proposals && p.serverId == s.Tables().proposals[p.id].serverId
    ensures Fits(s.Tables(), s.ids, PutProposal(p), s.ids)
  {
  }

  lemma PutIsSound(cs: seq<Call>, s: Site, p: Proposal)
    requires IsSound(cs, s) && s.ids.Fit()
    requires p.id in s.Tables().proposals && p.serverId == s.Tables().proposals[p.id].serverId
    ensures IsSound(cs + [PutProposal(p)], Put(s, p))
  {
    PutFits(s, p);
    SoundOn(cs, s, PutProposal(p), Put(s, p));
  }

  lemma EffectIsSound(cs: seq<Call>, s: Site, p: Proposal, names: Names, now: Timestamp) returns (cs': seq<Call>)
    requires IsSound(cs, s) && RowsOk(s.Tables(), now) && WithEffect(s, p, names, now).ids.Fit()
    ensures IsSound(cs', WithEffect(s, p, names, now))
  {
    var c := EffectCall(s.Tables(), p, names, s.ids, now);
    cs' := cs;
    if c.Some? {
      EffectFits(s, p, names, now);
      MintedGrows(s.ids, c);
      SoundOn(cs, s, c.value, WithEffect(s, p, names, now));
      cs' := cs + [c.value];
    }
  }

  lemma ApplyIsSound(cs: seq<Call>, s: Site, names: Names, p: Proposal, now: Timestamp) returns (cs': seq<Call>)
    requires IsSound(cs, s) && RowsOk(s.Tables(), now) && ApplyIfMature(s, names, p, now).ids.Fit()
    requires p.id in s.Tables().proposals && p.serverId == s.Tables().proposals[p.id].serverId
    ensures IsSound(cs', ApplyIfMature(s, names, p, now))
  {
    cs' := cs;
    if IsMature(p, now) {
      var mid := WithEffect(s, p, names, now);
      cs' := EffectIsSound(cs, s, p, names, now);
      EffectMoves(s, p, names, now);
      PutIsSound(cs', mid, p.(isApplied := true));
      cs' := cs' + [PutProposal(p.(isApplied := true))];
    }
  }

  lemma ResolveOneIsSound(cs: seq<Call>, s: Site, ses: Session, names: Names, p: Proposal) returns (cs': seq<Call>)
    requires IsSound(cs, s) && RowsOk(s.Tables(), ses.now) && ResolveOne(s, ses, names, p).ids.Fit() && s.ids.Fit()
    requires p.id in s.Tables().proposals && p.serverId == s.Tables().proposals[p.id].serverId
    ensures IsSound(cs', ResolveOne(s, ses, names, p))
  {
    var closed := CloseDue(s.Tables(), ses, p);
    cs' := cs;
    if IsDue(p, ses.now) {
      PutIsSound(cs, s, closed);
      PutMoves(s, closed, ses.now);
      cs' := ApplyIsSound(cs + [PutProposal(closed)], Put(s, closed), names, closed, ses.now);
    } else {
      cs' := ApplyIsSound(cs, s, names, closed, ses.now);
    }
  }

  lemma {:induction false} ResolveListIsSound(cs: seq<Call>, s: Site, ses: Session, names: Names, ps: seq<Proposal>)
    returns (cs': seq<Call>)
    requires IsSound(cs, s) && RowsOk(s.Tables(), ses.now) && IsSnapshot(s.Tables(), ps)
    requires ResolveList(s, ses, names, ps).ids.Fit()
    ensures IsSound(cs', ResolveList(s, ses, names, ps))
    decreases |ps|
  {
    if ps == [] {
      cs' := cs;
    } else {
      var front, p := ps[..|ps| - 1], ps[|ps| - 1];
      var mid := ResolveList(s, ses, names, front);
      SnapshotFront(s.Tables(), ps);
      OneIdsGrow(mid, ses, names, p);
      var before := ResolveListIsSound(cs, s, ses, names, front);
      ResolveListOutcome(s, ses, names, front);
      cs' := ResolveOneIsSound(before, mid, ses, names, p);
    }
  }

  lemma {:induction false} ActIsSound(cs: seq<Call>, s: Site, a: Act, now: Timestamp) returns (cs': seq<Call>)
    requires IsSound(cs, s) && IsActAt(s, a) && RowsOk(s.Tables(), now) && Next(s, a, now).ids.Fit()
    ensures IsSound(cs', Next(s, a, now))
  {
    IdsGrow(s, a, now);
    if !a.Resolve? {
      ActFits(s, a, now);
      cs' := PlanIsSound(cs, s, PlanOf(s.Tables(), s.ids, a, now));
    } else if a.server !in s.Tables().servers {
      cs' := cs;
    } else {
      SnapshotIsOne(s.Tables(), a.server, now);
      cs' := ResolveListIsSound(cs, s, Capture(s.Tables(), a.server, now), a.names, Snapshot(s.Tables(), a.server));
    }
  }

  // --- runs ------------------------------------------------------------------------------------------------

  lemma StartIsSound(node: NodeNumber)
    ensures IsSound([], RunActs(node, []))
  {
  }

  /** Every run of the services is a run of port calls made in discipline, and leaves its rows in order. */
  lemma {:induction false} ServiceRunIsSound(node: NodeNumber, acts: seq<Timed>) returns (cs: seq<Call>)
    requires IsServiceRun(node, acts)
    ensures IsSound(cs, RunActs(node, acts))
    decreases |acts|
  {
    if acts == [] {
      StartIsSound(node);
      cs := [];
    } else {
      var n := |acts| - 1;
      RunFront(node, acts);
      var before := ServiceRunIsSound(node, acts[..n]);
      FranchiseRuns.ServiceRunIsRollRun(node, acts[..n]);
      FranchiseRuns.OkBeforeLast(node, acts);
      cs := ActIsSound(before, RunActs(node, acts[..n]), acts[n].act, acts[n].now);
    }
  }
}
