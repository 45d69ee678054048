/** Fencing: what an accepted event proves about who owned its scope, when both the producer's and the consumer's
    owner lookups are two reads with anything in between. */
module Fencing {
  import opened Domain
  import opened Replica
  import opened Feed
  import opened ControlPlane

  /** Every owner this view reports was answered by a lookup that had finished in this world. */
  ghost predicate IsAnswered(w: World, view: RegistryView) {
    forall s: Scope :: view.ownerOf(s).Answer? ==> IsAnsweredFor(w, view, s)
  }

  ghost predicate IsAnsweredFor(w: World, view: RegistryView, s: Scope)
    requires view.ownerOf(s).Answer?
  {
    exists id :: id in w.processes && w.processes[id].Looked? && w.processes[id].scope == s
              && w.processes[id].answer == view.ownerOf(s).value
  }

  /** The consumer derives the scope the producer derived, when it derives one. */
  ghost predicate DeriveAlike(t: Tables, producer: Tables, records: seq<ChangeRecord>) {
    forall i :: 0 <= i < |records| ==> DerivesAlike(t, producer, records[i])
  }

  predicate DerivesAlike(t: Tables, producer: Tables, rec: ChangeRecord) {
    ScopeOf(t, rec).Some? && ScopeOf(producer, rec).Some? ==> ScopeOf(t, rec) == ScopeOf(producer, rec)
  }

  /** Rows that name their own scope always do. */
  lemma OwnScopedDeriveAlike(t: Tables, producer: Tables, rec: ChangeRecord)
    requires Classify(rec.entity, rec.payload).Owned?
    ensures DerivesAlike(t, producer, rec)
  {
  }

  /** An epoch stamped by a batch signed before `w` is one of the claims made before `w`. */
  lemma StampIsPast(w: World, views: seq<RegistryView>, node: NodeId, scopes: seq<Option<Scope>>,
                    records: seq<ChangeRecord>, i: nat, ev: ChangeEvent)
    requires Inv(w) && i < |records| == |scopes| <= |views|
    requires forall j :: 0 <= j < |views| ==> IsAnswered(w, views[j])
    requires GoesOutAs(views, node, scopes, records, i, ev)
    ensures ev.body.value.epoch <= |Claims(w, scopes[i].value)|
  {
    var s, view := scopes[i].value, views[FirstUse(scopes, i)];
    assert IsAnswered(w, view);
    assert IsAnsweredFor(w, view, s);
    var id :| id in w.processes && w.processes[id].Looked? && w.processes[id].scope == s
           && w.processes[id].answer == view.ownerOf(s).value;
    assert ProcessOk(w, id, w.processes[id]);
  }

  /** Fencing survives torn reads. A producer signs a batch, each scope looked up once at some earlier time. A
      consumer then looks up the scope an event's payload derives: its holder read happens in the world after
      `before`, its epoch read somewhere in `between`. In every interleaving of claims, releases, expiries and
      lookups, an event the consumer authorizes was signed by the node that held that scope at the instant of the
      holder read, at exactly the event's epoch, an epoch that node's own claim minted. */
  lemma {:induction false} FencingHolds(before: seq<Step>, between: seq<Step>, lookup: ProcessId,
                                        views: seq<RegistryView>, node: NodeId, producer: Tables,
                                        records: seq<ChangeRecord>, ev: ChangeEvent, view: RegistryView, t: Tables)
    requires |views| >= |records| && forall j :: 0 <= j < |views| ==> IsAnswered(RunAll(START, before), views[j])
    requires ev in SignBatch(views, node, ScopesOf(producer, records), records, |records|)
    requires DeriveAlike(t, producer, records)
    requires var w := RunAll(START, before); lookup in w.processes && w.processes[lookup].LookHolder?
    requires var w := RunAll(START, before); var done := RunAll(Next(w, Advance(lookup)), between).processes;
             lookup in done && done[lookup].Looked?
             && view.ownerOf(w.processes[lookup].scope) == Answer(done[lookup].answer)
    requires ev.body.Some? &&
             Resolve(t, Classify(ev.body.value.entity, ev.body.value.payload))
             == Some(RunAll(START, before).processes[lookup].scope)
    requires Authorize(view, ev, t).Authorized?
    ensures var w := RunAll(START, before); var s := w.processes[lookup].scope; var part := ev.body.value;
            && s in w.holders && w.holders[s].node == part.node == node
            && part.epoch == EpochOf(w, s) && Minted(w, s, part.epoch, part.node)
  {
    var w := RunAll(START, before);
    var s := w.processes[lookup].scope;
    var scopes := ScopesOf(producer, records);
    RunOk(before);
    AuthorizedIff(view, ev, t);
    LookupIsReal(w, between, lookup);
    SignedExactly(views, node, scopes, records, |records|, ev);
    var i :| 0 <= i < |records| && GoesOutAs(views, node, scopes, records, i, ev);
    assert DerivesAlike(t, producer, records[i]);
    StampIsPast(w, views, node, scopes, records, i, ev);
    assert ScopeOk(w, s);
  }
}
