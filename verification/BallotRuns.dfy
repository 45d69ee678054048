/** Ballots over every run of the services: each proposal is decided once, and what it passed is executed once. */
module BallotRuns {
  import opened Domain
  import opened Replica
  import opened Calls
  import opened Voting
  import opened Governance
  import opened Ids
  import opened BallotLife
  import opened ServiceRuns
  import opened SoundRuns
  import Commands
  import FranchiseRuns
  import Services

  // --- what an act does to the proposals --------------------------------------------------------------------

  lemma {:induction false} CallsKeepProposals(t: Tables, calls: seq<Call>)
    requires forall i :: 0 <= i < |calls| ==> !calls[i].PutProposal?
    ensures Services.Perform(t, calls).proposals == t.proposals
    decreases |calls|
  {
    if calls != [] {
      assert !calls[|calls| - 1].PutProposal?;
      CallsKeepProposals(t, calls[..|calls| - 1]);
    }
  }

  lemma CommandsPutNoProposal(t: Tables, cmd: Commands.Command, now: Timestamp, dmId: DmId)
    requires Commands.UseCase(t, cmd, now, dmId).Some?
    ensures !Commands.UseCase(t, cmd, now, dmId).value.PutProposal?
  {
  }

  lemma PlansPutNoProposal(s: Site, a: Act, now: Timestamp)
    requires !a.Resolve? && !a.Propose? && IsActAt(s, a)
    ensures forall c :: c in PlanOf(s.Tables(), s.ids, a, now).calls ==> !c.PutProposal?
  {
    if a.Command? {
      var dmId := Commands.NextDm(s.ids).Dm();
      if Commands.UseCase(s.Tables(), a.cmd, now, dmId).Some? { CommandsPutNoProposal(s.Tables(), a.cmd, now, dmId); }
    }
  }

  lemma OthersKeepProposals(s: Site, a: Act, now: Timestamp)
    requires !a.Resolve? && !a.Propose? && IsActAt(s, a)
    ensures Next(s, a, now).Tables().proposals == s.Tables().proposals
  {
    var calls := PlanOf(s.Tables(), s.ids, a, now).calls;
    PlansPutNoProposal(s, a, now);
    forall i | 0 <= i < |calls| ensures !calls[i].PutProposal? { assert calls[i] in calls; }
    FranchiseRuns.NextTables(s, a, now);
    CallsKeepProposals(s.Tables(), calls);
  }

  function OpeningOf(s: Site, a: Act, now: Timestamp): Ruling<ProposeError>
    requires a.Propose?
  {
    OpenProposal(s.Tables(), a.user, a.server, a.kind, s.ids.(proposals := s.ids.proposals + 1).Proposal(), now)
  }

  lemma OpenedPlan(s: Site, a: Act, now: Timestamp)
    requires a.Propose?
    ensures PlanOf(s.Tables(), s.ids, a, now) ==
      if OpeningOf(s, a, now).Granted? then
        Plan([OpeningOf(s, a, now).call], s.ids.(proposals := s.ids.proposals + 1))
      else Plan([], s.ids)
  {
  }

  lemma OpenedNext(s: Site, a: Act, now: Timestamp)
    requires a.Propose?
    ensures OpeningOf(s, a, now).Granted? ==>
      Next(s, a, now) == Site(Exec(s.store, OpeningOf(s, a, now).call),
                              s.ids.(proposals := s.ids.proposals + 1), s.effects)
    ensures OpeningOf(s, a, now).Declined? ==> Next(s, a, now) == s
  {
    OpenedPlan(s, a, now);
    if OpeningOf(s, a, now).Granted? { Services.ExecOne(s.store, OpeningOf(s, a, now).call); }
  }

  /** The id a new proposal takes is one no stored proposal has. */
  lemma NewProposalIsNew(s: Site)
    requires IdsOk(s.Tables(), s.ids) && s.ids.proposals + 1 < SEQUENCE_SPAN
    ensures s.ids.(proposals := s.ids.proposals + 1).Proposal() !in s.Tables().proposals
  {
    MintedIdsGrow(s.ids.node, s.ids.proposals, s.ids.proposals + 1);
  }

  lemma OpenedCall(s: Site, a: Act, now: Timestamp)
    requires a.Propose? && OpeningOf(s, a, now).Granted?
    ensures var id := s.ids.(proposals := s.ids.proposals + 1).Proposal();
            OpeningOf(s, a, now).call == PutProposal(NewProposal(id, a.server, a.user, a.kind, now))
  {
  }

  /** A proposal opened under a new id. */
  lemma OpenedStep(s: Site, s': Site, p: Proposal, now: Timestamp)
    requires p == NewProposal(p.id, p.serverId, p.proposer, p.kind, now) && p.id !in s.Tables().proposals
    requires LogOk(s) && s'.store == Exec(s.store, PutProposal(p)) && s'.effects == s.effects
    ensures BallotStep(s.Tables().proposals, s'.Tables().proposals, now) && LogOk(s')
  {
    PutKeepsLog(s, p);
    SameProposalsKeepLog(Put(s, p), s');
  }

  lemma ProposeStep(s: Site, a: Act, now: Timestamp)
    requires a.Propose? && IdsOk(s.Tables(), s.ids) && Next(s, a, now).ids.Fit() && LogOk(s)
    ensures BallotStep(s.Tables().proposals, Next(s, a, now).Tables().proposals, now) && LogOk(Next(s, a, now))
  {
    OpenedNext(s, a, now);
    if OpeningOf(s, a, now).Granted? {
      NewProposalIsNew(s);
      OpenedCall(s, a, now);
      OpenedStep(s, Next(s, a, now), OpeningOf(s, a, now).call.proposal, now);
    }
  }

  /** Every act is a step of a ballot run, and keeps the log of effects right. */
  lemma {:induction false} ActIsBallotStep(s: Site, a: Act, now: Timestamp)
    requires IsActAt(s, a) && RowsOk(s.Tables(), now) && IdsOk(s.Tables(), s.ids) && LogOk(s)
    requires Next(s, a, now).ids.Fit()
    ensures BallotStep(s.Tables().proposals, Next(s, a, now).Tables().proposals, now) && LogOk(Next(s, a, now))
  {
    if a.Resolve? {
      ResolvingIsAStep(s, a.server, a.names, now);
      ResolveKeepsLog(s, a.server, a.names, now);
    } else if a.Propose? {
      ProposeStep(s, a, now);
    } else {
      OthersKeepProposals(s, a, now);
      SameProposalsKeepLog(s, Next(s, a, now));
    }
  }

  // --- runs -------------------------------------------------------------------------------------------------

  /** The ballot run that a run of the services is. */
  function Instants(node: NodeNumber, acts: seq<Timed>): (r: seq<Instant>)
    ensures |r| == |acts| && forall i :: 0 <= i < |acts| ==> r[i].now == acts[i].now
    decreases |acts|
  {
    if acts == [] then []
    else Instants(node, acts[..|acts| - 1]) + [Instant(acts[|acts| - 1].now, RunActs(node, acts).Tables().proposals)]
  }

  lemma InstantsEnd(node: NodeNumber, acts: seq<Timed>)
    ensures At(Instants(node, acts), |acts|) == RunActs(node, acts).Tables().proposals
  {
  }

  lemma ExtendBallots(run: seq<Instant>, m: Instant)
    requires IsBallotRun(run) && BallotStep(At(run, |run|), m.after, m.now)
    ensures IsBallotRun(run + [m])
  {
    var all := run + [m];
    forall i | 0 <= i < |all| ensures Steps(all, i) {
      if i < |run| { assert Steps(run, i); }
      assert At(all, i) == At(run, i);
    }
  }

  /** Every run of the services is a ballot run, with every effect logged once. */
  lemma {:induction false} ServiceRunIsBallotRun(node: NodeNumber, acts: seq<Timed>)
    requires IsServiceRun(node, acts)
    ensures IsBallotRun(Instants(node, acts)) && LogOk(RunActs(node, acts))
    decreases |acts|
  {
    if acts != [] {
      var n := |acts| - 1;
      var s := RunActs(node, acts[..n]);
      RunFront(node, acts);
      ServiceRunIsBallotRun(node, acts[..n]);
      FranchiseRuns.ServiceRunIsRollRun(node, acts[..n]);
      FranchiseRuns.OkBeforeLast(node, acts);
      var _ := ServiceRunIsSound(node, acts[..n]);
      ActIsBallotStep(s, acts[n].act, acts[n].now);
      InstantsEnd(node, acts[..n]);
      ExtendBallots(Instants(node, acts[..n]), Instant(acts[n].now, RunActs(node, acts).Tables().proposals));
    }
  }

  /** A ballot's effect was executed once its time had come: after it passed, and for constitutional change no sooner
      than ten days after it was opened. */
  predicate IsTimelyEffect(ballots: Ballots, e: Executed) {
    e.proposal in ballots &&
    var p := ballots[e.proposal];
    && p.isApplied && p.status.Passed? && p.kind == e.kind && e.at >= p.status.effectiveAt >= p.closesAt
    && (DecisionClassOf(p.kind).Constitutional? ==> e.at >= p.openedAt + 10 * 86_400)
  }

  /** Over any run of the services, no proposal's effect is executed twice, none before it has passed and matured, and
      those executed are exactly those marked applied. */
  lemma {:induction false} EffectsHappenOnce(node: NodeNumber, acts: seq<Timed>)
    requires IsServiceRun(node, acts)
    ensures var effects, ballots := RunActs(node, acts).effects, RunActs(node, acts).Tables().proposals;
            && (forall i, j :: 0 <= i < j < |effects| ==> effects[i].proposal != effects[j].proposal)
            && (forall i :: 0 <= i < |effects| ==> IsTimelyEffect(ballots, effects[i]))
            && (forall id :: id in ballots && ballots[id].isApplied ==> IsLogged(effects, id))
  {
    var s := RunActs(node, acts);
    ServiceRunIsBallotRun(node, acts);
    InstantsEnd(node, acts);
    forall i | 0 <= i < |s.effects| ensures IsTimelyEffect(s.Tables().proposals, s.effects[i]) {
      assert IsMatureEffect(s, s.effects[i]);
      EveryoneIsOk(Instants(node, acts), |acts|, s.effects[i].proposal);
    }
  }

  // --- each passed rule is made once -------------------------------------------------------------------------

  function AddedRules(effects: seq<Executed>): nat {
    if effects == [] then 0
    else AddedRules(effects[..|effects| - 1]) + if effects[|effects| - 1].kind.AddRule? then 1 else 0
  }

  /** One rule id handed out for every executed ballot that adds a rule. */
  predicate RulesMatch(s: Site) { s.ids.rules == AddedRules(s.effects) }

  lemma EffectMatches(s: Site, p: Proposal, names: Names, now: Timestamp)
    requires RulesMatch(s)
    ensures RulesMatch(WithEffect(s, p, names, now))
  {
    var s' := WithEffect(s, p, names, now);
    assert s'.effects[..|s.effects|] == s.effects;
  }

  lemma OneMatches(s: Site, ses: Session, names: Names, p: Proposal)
    requires RulesMatch(s)
    ensures RulesMatch(ResolveOne(s, ses, names, p))
  {
    var closed := CloseDue(s.Tables(), ses, p);
    EffectMatches(if IsDue(p, ses.now) then Put(s, closed) else s, closed, names, ses.now);
  }

  lemma {:induction false} ListMatches(s: Site, ses: Session, names: Names, ps: seq<Proposal>)
    requires RulesMatch(s)
    ensures RulesMatch(ResolveList(s, ses, names, ps))
    decreases |ps|
  {
    if ps != [] {
      var front := ps[..|ps| - 1];
      ListMatches(s, ses, names, front);
      OneMatches(ResolveList(s, ses, names, front), ses, names, ps[|ps| - 1]);
    }
  }

  lemma ActMatches(s: Site, a: Act, now: Timestamp)
    requires RulesMatch(s)
    ensures RulesMatch(Next(s, a, now))
  {
    if a.Resolve? && a.server in s.Tables().servers {
      ListMatches(s, Capture(s.Tables(), a.server, now), a.names, Snapshot(s.Tables(), a.server));
    }
  }

  /** Over any run of the services, exactly one rule id is handed out for each passed rule: its ballot is executed once,
      and executing it makes one rule. */
  lemma {:induction false} RulesAreMadeOnce(node: NodeNumber, acts: seq<Timed>)
    ensures RulesMatch(RunActs(node, acts))
    decreases |acts|
  {
    if acts != [] {
      RulesAreMadeOnce(node, acts[..|acts| - 1]);
      ActMatches(RunActs(node, acts[..|acts| - 1]), acts[|acts| - 1].act, acts[|acts| - 1].now);
    }
  }

  // --- new rows under new ids --------------------------------------------------------------------------------

  /** Nothing stored is overwritten by what an effect creates. */
  predicate IsNewRow(t: Tables, c: Call) {
    && (c.PutChannel? ==> c.channel.id !in t.channels)
    && (c.PutRule? ==> c.rule.id !in t.rules)
    && (c.PutRole? ==> c.role.id !in t.roles)
  }

  lemma EffectIsNew(s: Site, p: Proposal, names: Names, now: Timestamp)
    requires IdsOk(s.Tables(), s.ids) && EffectCall(s.Tables(), p, names, s.ids, now).Some?
    requires Minted(s.ids, EffectCall(s.Tables(), p, names, s.ids, now)).Fit()
    ensures IsNewRow(s.Tables(), EffectCall(s.Tables(), p, names, s.ids, now).value)
  {
    var c := EffectCall(s.Tables(), p, names, s.ids, now).value;
    if c.PutChannel? { MintedIdsGrow(s.ids.node, s.ids.channels, s.ids.channels + 1); }
    else if c.PutRule? { MintedIdsGrow(s.ids.node, s.ids.rules, s.ids.rules + 1); }
    else if c.PutRole? { MintedIdsGrow(s.ids.node, s.ids.roles, s.ids.roles + 1); }
  }

  /** The node as the loop finds it when it comes to execute the effect of the `k`-th proposal of its snapshot. */
  function BeforeEffect(s: Site, ses: Session, names: Names, ps: seq<Proposal>, k: nat): (Site, Proposal)
    requires k < |ps|
  {
    var mid := ResolveList(s, ses, names, ps[..k]);
    var closed := CloseDue(mid.Tables(), ses, ps[k]);
    (if IsDue(ps[k], ses.now) then Put(mid, closed) else mid, closed)
  }

  lemma {:induction false} LaterIdsGrow(s: Site, ses: Session, names: Names, ps: seq<Proposal>, k: nat)
    requires k <= |ps|
    ensures ResolveList(s, ses, names, ps[..k]).ids.UpTo(ResolveList(s, ses, names, ps).ids)
    decreases |ps|
  {
    if k == |ps| {
      assert ps[..k] == ps;
    } else {
      var front := ps[..|ps| - 1];
      assert front[..k] == ps[..k];
      LaterIdsGrow(s, ses, names, front, k);
      OneIdsGrow(ResolveList(s, ses, names, front), ses, names, ps[|ps| - 1]);
    }
  }

  lemma SnapshotPrefix(t: Tables, ps: seq<Proposal>, k: nat)
    requires IsSnapshot(t, ps) && k < |ps|
    ensures IsSnapshot(t, ps[..k]) && ps[k].id in t.proposals && t.proposals[ps[k].id] == ps[k]
    ensures ps[k].id !in IdsOf(ps[..k])
  {
  }

  lemma BeforeEffectIsSound(cs: seq<Call>, s: Site, ses: Session, names: Names, ps: seq<Proposal>, k: nat)
    returns (cs': seq<Call>)
    requires IsSound(cs, s) && RowsOk(s.Tables(), ses.now) && IsSnapshot(s.Tables(), ps) && k < |ps|
    requires ResolveList(s, ses, names, ps).ids.Fit()
    ensures IsSound(cs', BeforeEffect(s, ses, names, ps, k).0)
  {
    var mid := ResolveList(s, ses, names, ps[..k]);
    SnapshotPrefix(s.Tables(), ps, k);
    LaterIdsGrow(s, ses, names, ps, k);
    cs' := ResolveListIsSound(cs, s, ses, names, ps[..k]);
    ResolveListOutcome(s, ses, names, ps[..k]);
    if IsDue(ps[k], ses.now) {
      var closed := CloseDue(mid.Tables(), ses, ps[k]);
      PutIsSound(cs', mid, closed);
      cs' := cs' + [PutProposal(closed)];
    }
  }

  lemma NextResolved(s: Site, ses: Session, names: Names, ps: seq<Proposal>, k: nat)
    requires k < |ps|
    ensures var (site, p) := BeforeEffect(s, ses, names, ps, k);
            IsMature(p, ses.now) ==> ResolveList(s, ses, names, ps[..k + 1]).ids
                                     == Minted(site.ids, EffectCall(site.Tables(), p, names, site.ids, ses.now))
  {
    assert ps[..k + 1][..k] == ps[..k];
  }

  /** In any run of the services, a passed ballot that adds a rule, a role or a channel adds it under an id no stored
      one has: a second such ballot never overwrites what a first one added. */
  lemma {:induction false} EffectsNeverOverwrite(node: NodeNumber, acts: seq<Timed>, server: ServerId, names: Names,
                                                 now: Timestamp, k: nat)
    requires IsServiceRun(node, acts + [Timed(now, Resolve(server, names))])
    requires var t := RunActs(node, acts).Tables(); server in t.servers && k < |Snapshot(t, server)|
    ensures var s := RunActs(node, acts); var ses := Capture(s.Tables(), server, now);
            var (site, p) := BeforeEffect(s, ses, names, Snapshot(s.Tables(), server), k);
            var c := EffectCall(site.Tables(), p, names, site.ids, now);
            IsMature(p, now) && c.Some? ==> IsNewRow(site.Tables(), c.value)
  {
    var all, s := acts + [Timed(now, Resolve(server, names))], RunActs(node, acts);
    var ses, ps := Capture(s.Tables(), server, now), Snapshot(s.Tables(), server);
    assert all[..|acts|] == acts;
    RunFront(node, all);
    FranchiseRuns.ServiceRunIsRollRun(node, acts);
    FranchiseRuns.OkBeforeLast(node, all);
    SnapshotIsOne(s.Tables(), server, now);
    var cs := ServiceRunIsSound(node, acts);
    var _ := BeforeEffectIsSound(cs, s, ses, names, ps, k);
    var (site, p) := BeforeEffect(s, ses, names, ps, k);
    NextResolved(s, ses, names, ps, k);
    LaterIdsGrow(s, ses, names, ps, k + 1);
    if IsMature(p, now) && EffectCall(site.Tables(), p, names, site.ids, now).Some? {
      EffectIsNew(site, p, names, now);
    }
  }
}
