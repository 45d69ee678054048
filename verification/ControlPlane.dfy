/** The etcd control plane as an interleaved protocol. Shared keys, revisions and leases; every client a small
    program whose steps may be interleaved with anyone's, with lease expiry and with releases. `Fencing` says what the
    federation may rely on.

    A process remembers, in fields named `began` and `seen`, how many claims of its scope had succeeded when it
    began and when it read the holder key. They are history: no step's effect depends on them. */
module ControlPlane {
  import opened Domain
  import opened Feed

  type LeaseId = nat
  type ProcessId = nat

  const MAX_ATTEMPTS: nat := 8

  datatype Holder = Holder(node: NodeId, lease: LeaseId)

  datatype EpochKey = EpochKey(value: nat, modRev: nat)

  datatype Claimant = Claimant(node: NodeId, process: ProcessId)

  datatype Process =
    // claim: read the holder; when present, read the epoch and report; when absent, read the epoch, then commit
    | ClaimHolder(scope: Scope, node: NodeId, lease: LeaseId, attempt: nat, began: nat)
    | ClaimHeld(scope: Scope, holder: NodeId, seen: nat)
    | ClaimEpoch(scope: Scope, node: NodeId, lease: LeaseId, attempt: nat, began: nat, seen: nat)
    | ClaimTxn(scope: Scope, node: NodeId, lease: LeaseId, attempt: nat, began: nat, seen: nat, epoch: nat,
        epochRev: nat)
    | Claimed(scope: Scope, node: NodeId, epoch: nat)
    | Held(scope: Scope, holder: NodeId, epoch: nat, seen: nat)
    | Contended(scope: Scope, began: nat)
    | LeaseGone
    // an owner lookup: read the holder, then the epoch, then answer
    | LookHolder(scope: Scope)
    | LookEpoch(scope: Scope, holder: NodeId, seen: nat)
    | Looked(scope: Scope, answer: Option<Ownership>, seen: nat)

  datatype World = World(
    rev: nat,
    holders: map<Scope, Holder>,
    epochs: map<Scope, EpochKey>,
    live: set<LeaseId>,
    claims: map<Scope, seq<Claimant>>,      // history: who claimed, in order
    processes: map<ProcessId, Process>)

  const START := World(0, map[], map[], {}, map[], map[])

  function Claims(w: World, s: Scope): seq<Claimant> {
    if s in w.claims then w.claims[s] else []
  }

  function EpochOf(w: World, s: Scope): nat {
    if s in w.epochs then w.epochs[s].value else 0
  }

  /** etcd reports revision 0 for an absent key. */
  function ModRev(w: World, s: Scope): nat {
    if s in w.epochs then w.epochs[s].modRev else 0
  }

  datatype Step =
    | Begin(process: ProcessId, start: Process)
    | Advance(process: ProcessId)
    | Release(scope: Scope, node: NodeId)
    | Grant(lease: LeaseId)
    | Expire(lease: LeaseId)

  /** How an operation starts. */
  predicate IsStart(w: World, p: Process) {
    match p
    case ClaimHolder(s, _, _, attempt, began) => attempt == 0 && began == |Claims(w, s)|
    case LookHolder(_) => true
    case _ => false
  }

  predicate CanCommit(w: World, s: Scope, epochRev: nat) {
    s !in w.holders && ModRev(w, s) == epochRev
  }

  /** The guarded transaction's effect: holder under the lease, epoch one up. */
  function Commit(w: World, s: Scope, node: NodeId, lease: LeaseId, epoch: nat, id: ProcessId): World {
    w.(rev := w.rev + 1,
       holders := w.holders[s := Holder(node, lease)],
       epochs := w.epochs[s := EpochKey(epoch + 1, w.rev + 1)],
       claims := w.claims[s := Claims(w, s) + [Claimant(node, id)]])
  }

  function SetProcess(w: World, id: ProcessId, p: Process): World {
    w.(processes := w.processes[id := p])
  }

  /** One round trip of one process. */
  function Advanced(w: World, id: ProcessId, p: Process): World {
    match p
    case ClaimHolder(s, node, lease, attempt, began) =>
      SetProcess(w, id, if s in w.holders then ClaimHeld(s, w.holders[s].node, |Claims(w, s)|)
                        else ClaimEpoch(s, node, lease, attempt, began, |Claims(w, s)|))
    case ClaimHeld(s, holder, seen) => SetProcess(w, id, Held(s, holder, EpochOf(w, s), seen))
    case ClaimEpoch(s, node, lease, attempt, began, seen) =>
      SetProcess(w, id, ClaimTxn(s, node, lease, attempt, began, seen, EpochOf(w, s), ModRev(w, s)))
    case ClaimTxn(s, node, lease, attempt, began, seen, epoch, epochRev) =>
      if CanCommit(w, s, epochRev) then
        if lease in w.live then SetProcess(Commit(w, s, node, lease, epoch, id), id, Claimed(s, node, epoch + 1))
        else SetProcess(w, id, LeaseGone)
      else
        SetProcess(w, id, if attempt + 1 < MAX_ATTEMPTS then ClaimHolder(s, node, lease, attempt + 1, began)
                          else Contended(s, began))
    case LookHolder(s) =>
      SetProcess(w, id, if s in w.holders then LookEpoch(s, w.holders[s].node, |Claims(w, s)|)
                        else Looked(s, None, |Claims(w, s)|))
    case LookEpoch(s, holder, seen) => SetProcess(w, id, Looked(s, Some(Ownership(holder, EpochOf(w, s))), seen))
    case _ => w
  }

  /** Any step anyone may take; one that is not possible changes nothing. */
  function Next(w: World, step: Step): World {
    match step
    case Begin(id, p) => if id !in w.processes && IsStart(w, p) then SetProcess(w, id, p) else w
    case Advance(id) => if id in w.processes then Advanced(w, id, w.processes[id]) else w
    case Release(s, node) =>
      if s in w.holders && w.holders[s].node == node then w.(rev := w.rev + 1, holders := w.holders - {s}) else w
    case Grant(lease) => w.(live := w.live + {lease})
    case Expire(lease) =>
      w.(rev := w.rev + 1, live := w.live - {lease},
         holders := map s | s in w.holders && w.holders[s].lease != lease :: w.holders[s])
  }

  function RunAll(w: World, steps: seq<Step>): World
    decreases |steps|
  {
    if steps == [] then w else Next(RunAll(w, steps[..|steps| - 1]), steps[|steps| - 1])
  }

  // --- what every interleaving keeps ---------------------------------------------------------------

  /** The epoch counts the claims, and a present holder is the claimant of the current epoch. */
  ghost predicate ScopeOk(w: World, s: Scope) {
    var log := Claims(w, s);
    && EpochOf(w, s) == |log|
    && ModRev(w, s) <= w.rev
    && (ModRev(w, s) == 0 <==> log == [])
    && (s in w.holders ==> log != [] && w.holders[s].node == log[|log| - 1].node)
  }

  /** Epoch `e` of the scope was minted by a claim of `node`. */
  predicate Minted(w: World, s: Scope, e: nat, node: NodeId) {
    1 <= e <= |Claims(w, s)| && Claims(w, s)[e - 1].node == node
  }

  ghost predicate ProcessOk(w: World, id: ProcessId, p: Process) {
    match p
    case ClaimHolder(s, _, _, attempt, began) => attempt < MAX_ATTEMPTS && began + attempt <= |Claims(w, s)|
    case ClaimHeld(s, holder, seen) => Minted(w, s, seen, holder)
    case ClaimEpoch(s, _, _, attempt, began, seen) =>
      attempt < MAX_ATTEMPTS && began + attempt <= seen <= |Claims(w, s)|
      && (|Claims(w, s)| == seen ==> s !in w.holders)
    case ClaimTxn(s, _, _, attempt, began, seen, epoch, epochRev) =>
      attempt < MAX_ATTEMPTS && began + attempt <= seen <= |Claims(w, s)|
      && (|Claims(w, s)| == seen ==> s !in w.holders && ModRev(w, s) == epochRev)
      && epochRev <= w.rev && (ModRev(w, s) == epochRev ==> epoch == |Claims(w, s)|)
    case Claimed(s, node, epoch) =>
      1 <= epoch <= |Claims(w, s)| && Claims(w, s)[epoch - 1] == Claimant(node, id)
    case Held(s, holder, epoch, seen) => Minted(w, s, seen, holder) && seen <= epoch <= |Claims(w, s)|
    case Contended(s, began) => began + MAX_ATTEMPTS <= |Claims(w, s)|
    case LeaseGone => true
    case LookHolder(_) => true
    case LookEpoch(s, holder, seen) => Minted(w, s, seen, holder)
    case Looked(s, answer, seen) =>
      seen <= |Claims(w, s)|
      && (answer.Some? ==> Minted(w, s, seen, answer.value.owner) && seen <= answer.value.epoch <= |Claims(w, s)|)
  }

  ghost predicate Inv(w: World) {
    && (forall s: Scope :: ScopeOk(w, s))
    && (forall id :: id in w.processes ==> ProcessOk(w, id, w.processes[id]))
  }

  /** How one scope's keys may change under any step: nothing, a holder gone, or one more claim. */
  ghost predicate ScopeGrows(w: World, w': World, s: Scope) {
    && Claims(w, s) <= Claims(w', s)
    && (|Claims(w', s)| == |Claims(w, s)| ==> ModRev(w', s) == ModRev(w, s) && (s in w'.holders ==> s in w.holders))
    && (|Claims(w', s)| > |Claims(w, s)| ==> ModRev(w', s) > w.rev)
  }

  ghost predicate Grows(w: World, w': World) {
    && w.rev <= w'.rev
    && forall s: Scope :: ScopeGrows(w, w', s)
  }

  /** Only a committed claim, a release and a lease expiry touch the keys. */
  predicate SameKeys(w: World, w': World) {
    w'.rev == w.rev && w'.holders == w.holders && w'.epochs == w.epochs && w'.claims == w.claims
  }

  predicate Commits(w: World, p: Process) {
    p.ClaimTxn? && CanCommit(w, p.scope, p.epochRev) && p.lease in w.live
  }

  lemma OtherAdvances(w: World, id: ProcessId, p: Process)
    requires !Commits(w, p)
    ensures SameKeys(w, Advanced(w, id, p))
  {
  }

  lemma SameKeysGrow(w: World, w': World)
    requires SameKeys(w, w')
    ensures Grows(w, w')
  {
  }

  lemma CommitGrows(w: World, s: Scope, node: NodeId, lease: LeaseId, epoch: nat, id: ProcessId)
    requires Inv(w)
    ensures Grows(w, Commit(w, s, node, lease, epoch, id))
  {
  }

  lemma AdvanceGrows(w: World, id: ProcessId, p: Process)
    requires Inv(w)
    ensures Grows(w, Advanced(w, id, p))
  {
    if Commits(w, p) {
      var c := Commit(w, p.scope, p.node, p.lease, p.epoch, id);
      CommitGrows(w, p.scope, p.node, p.lease, p.epoch, id);
      assert Advanced(w, id, p) == SetProcess(c, id, Claimed(p.scope, p.node, p.epoch + 1));
      SameKeysGrow(c, Advanced(w, id, p));
      forall x: Scope ensures ScopeGrows(w, Advanced(w, id, p), x) { assert ScopeGrows(w, c, x); }
    } else {
      OtherAdvances(w, id, p);
      SameKeysGrow(w, Advanced(w, id, p));
    }
  }

  lemma NextGrows(w: World, step: Step)
    requires Inv(w)
    ensures Grows(w, Next(w, step))
  {
    match step
    case Advance(id) =>
      if id in w.processes { AdvanceGrows(w, id, w.processes[id]); } else { SameKeysGrow(w, w); }
    case Begin(_, _) => SameKeysGrow(w, Next(w, step));
    case Grant(_) => SameKeysGrow(w, Next(w, step));
    case Release(s, _) =>
    case Expire(_) =>
  }

  /** What a process knows stays true while others move. */
  lemma KnowledgeIsStable(w: World, w': World, id: ProcessId, p: Process)
    requires ProcessOk(w, id, p) && Grows(w, w')
    ensures ProcessOk(w', id, p)
  {
    match p
    case ClaimHolder(s, _, _, _, _) => assert ScopeGrows(w, w', s);
    case ClaimHeld(s, _, _) => assert ScopeGrows(w, w', s);
    case ClaimEpoch(s, _, _, _, _, _) => assert ScopeGrows(w, w', s);
    case ClaimTxn(s, _, _, _, _, _, _, _) => assert ScopeGrows(w, w', s);
    case Claimed(s, _, _) => assert ScopeGrows(w, w', s);
    case Held(s, _, _, _) => assert ScopeGrows(w, w', s);
    case Contended(s, _) => assert ScopeGrows(w, w', s);
    case LookEpoch(s, _, _) => assert ScopeGrows(w, w', s);
    case Looked(s, _, _) => assert ScopeGrows(w, w', s);
    case _ =>
  }

  lemma KeysStayOk(w: World, w': World)
    requires Inv(w) && SameKeys(w, w')
    ensures forall s: Scope :: ScopeOk(w', s)
  {
    forall s: Scope ensures ScopeOk(w', s) { assert ScopeOk(w, s); }
  }

  lemma CommitOk(w: World, id: ProcessId, p: Process)
    requires Inv(w) && Commits(w, p) && ProcessOk(w, id, p)
    ensures forall s: Scope :: ScopeOk(Commit(w, p.scope, p.node, p.lease, p.epoch, id), s)
  {
    var w' := Commit(w, p.scope, p.node, p.lease, p.epoch, id);
    forall s: Scope ensures ScopeOk(w', s) { assert ScopeOk(w, s); }
  }

  predicate IsClaim(p: Process) {
    p.ClaimHolder? || p.ClaimHeld? || p.ClaimEpoch? || p.ClaimTxn?
  }

  /** The process that moved knows what its new state says it knows. */
  lemma ClaimKnows(w: World, id: ProcessId)
    requires Inv(w) && id in w.processes && IsClaim(w.processes[id])
    ensures var w' := Advanced(w, id, w.processes[id]); id in w'.processes && ProcessOk(w', id, w'.processes[id])
  {
    assert ScopeOk(w, w.processes[id].scope);
  }

  lemma LookupKnows(w: World, id: ProcessId)
    requires Inv(w) && id in w.processes && !IsClaim(w.processes[id])
    ensures var w' := Advanced(w, id, w.processes[id]); id in w'.processes && ProcessOk(w', id, w'.processes[id])
  {
    match w.processes[id]
    case LookHolder(s) => assert ScopeOk(w, s);
    case LookEpoch(s, _, _) => assert ScopeOk(w, s);
    case _ =>
  }

  lemma OthersUntouched(w: World, id: ProcessId, p: Process)
    requires id in w.processes
    ensures var w' := Advanced(w, id, p);
            w'.processes.Keys == w.processes.Keys
            && forall other :: other in w.processes && other != id ==> w'.processes[other] == w.processes[other]
  {
  }

  lemma AdvanceOk(w: World, id: ProcessId)
    requires Inv(w) && id in w.processes
    ensures Inv(Advanced(w, id, w.processes[id]))
  {
    var p := w.processes[id];
    var w' := Advanced(w, id, p);
    AdvanceGrows(w, id, p);
    OthersUntouched(w, id, p);
    if IsClaim(p) { ClaimKnows(w, id); } else { LookupKnows(w, id); }
    forall other | other in w'.processes ensures ProcessOk(w', other, w'.processes[other]) {
      if other != id { KnowledgeIsStable(w, w', other, w.processes[other]); }
    }
    KeysAfterAdvance(w, id);
  }

  lemma KeysAfterAdvance(w: World, id: ProcessId)
    requires Inv(w) && id in w.processes
    ensures forall s: Scope :: ScopeOk(Advanced(w, id, w.processes[id]), s)
  {
    var p := w.processes[id];
    if Commits(w, p) {
      var c := Commit(w, p.scope, p.node, p.lease, p.epoch, id);
      CommitOk(w, id, p);
      forall s: Scope ensures ScopeOk(Advanced(w, id, p), s) { assert ScopeOk(c, s); }
    } else {
      OtherAdvances(w, id, p);
      KeysStayOk(w, Advanced(w, id, p));
    }
  }

  lemma {:induction false} NextOk(w: World, step: Step)
    requires Inv(w)
    ensures Inv(Next(w, step))
  {
    var w' := Next(w, step);
    match step
    case Advance(id) => if id in w.processes { AdvanceOk(w, id); }
    case _ =>
      NextGrows(w, step);
      forall s: Scope ensures ScopeOk(w', s) { assert ScopeOk(w, s) && ScopeGrows(w, w', s); }
      forall id | id in w'.processes ensures ProcessOk(w', id, w'.processes[id]) {
        if id in w.processes && w'.processes[id] == w.processes[id] {
          KnowledgeIsStable(w, w', id, w.processes[id]);
        }
      }
  }

  /** Under every interleaving of claims, lookups, releases, grants and expiries. */
  lemma {:induction false} RunOk(steps: seq<Step>)
    ensures Inv(RunAll(START, steps))
    decreases |steps|
  {
    if steps != [] {
      RunOk(steps[..|steps| - 1]);
      NextOk(RunAll(START, steps[..|steps| - 1]), steps[|steps| - 1]);
    }
  }

  lemma {:induction false} RunGrows(w: World, steps: seq<Step>)
    requires Inv(w)
    ensures Inv(RunAll(w, steps)) && Grows(w, RunAll(w, steps))
    decreases |steps|
  {
    if steps != [] {
      var front, last := steps[..|steps| - 1], steps[|steps| - 1];
      RunGrows(w, front);
      var mid := RunAll(w, front);
      NextOk(mid, last);
      NextGrows(mid, last);
      forall s: Scope ensures ScopeGrows(w, Next(mid, last), s) {
        assert ScopeGrows(w, mid, s) && ScopeGrows(mid, Next(mid, last), s);
      }
    }
  }

  // --- the theorems ----------------------------------------------------------------------------------

  /** Claims are linearised: in any run the epoch counts the successful claims, a present holder is the
      claimant of the current epoch, and a claim that succeeded returned its own place in the order. */
  lemma {:induction false} ClaimsAreLinearised(steps: seq<Step>, s: Scope)
    ensures var w := RunAll(START, steps);
            && EpochOf(w, s) == |Claims(w, s)|
            && (s in w.holders ==> Minted(w, s, EpochOf(w, s), w.holders[s].node))
            && forall id :: id in w.processes && w.processes[id].Claimed? && w.processes[id].scope == s ==>
                 var p := w.processes[id];
                 1 <= p.epoch <= |Claims(w, s)| && Claims(w, s)[p.epoch - 1] == Claimant(p.node, id)
  {
    RunOk(steps);
    var w := RunAll(START, steps);
    assert ScopeOk(w, s);
    forall id | id in w.processes && w.processes[id].Claimed? && w.processes[id].scope == s
      ensures var p := w.processes[id];
              1 <= p.epoch <= |Claims(w, s)| && Claims(w, s)[p.epoch - 1] == Claimant(p.node, id)
    {
      assert ProcessOk(w, id, w.processes[id]);
    }
  }

  predicate HasClaimed(w: World, id: ProcessId, s: Scope) {
    id in w.processes && w.processes[id].Claimed? && w.processes[id].scope == s
  }

  lemma ClaimsDiffer(w: World, s: Scope, a: ProcessId, b: ProcessId)
    requires Inv(w) && HasClaimed(w, a, s) && HasClaimed(w, b, s) && a != b
    ensures w.processes[a].epoch != w.processes[b].epoch
  {
  }

  /** No two claims of a scope ever return the same epoch. */
  lemma {:induction false} EpochsNeverRepeat(steps: seq<Step>, s: Scope, a: ProcessId, b: ProcessId)
    requires HasClaimed(RunAll(START, steps), a, s) && HasClaimed(RunAll(START, steps), b, s) && a != b
    ensures RunAll(START, steps).processes[a].epoch != RunAll(START, steps).processes[b].epoch
  {
    RunOk(steps);
    ClaimsDiffer(RunAll(START, steps), s, a, b);
  }

  /** Claims are lock-free: a transaction is lost only to another claim of the same scope that succeeded after
      the loser read the holder; so a claim that gives up after its eight attempts lost to eight of them. */
  lemma {:induction false} LostOnlyToAClaim(steps: seq<Step>, id: ProcessId)
    ensures var w := RunAll(START, steps);
            id in w.processes ==> match w.processes[id]
              case ClaimTxn(s, _, _, _, _, seen, _, epochRev) =>
                !CanCommit(w, s, epochRev) ==> |Claims(w, s)| > seen
              case Contended(s, began) => |Claims(w, s)| >= began + 8
              case _ => true
  {
    RunOk(steps);
    var w := RunAll(START, steps);
    if id in w.processes { assert ProcessOk(w, id, w.processes[id]); }
  }

  /** What a claim that finds the scope held reports: a node that did claim it, and an epoch no older than that
      claim's. The two reads are not atomic, so the epoch may be a later holder's. */
  lemma {:induction false} HeldReportIsReal(steps: seq<Step>, id: ProcessId)
    ensures var w := RunAll(START, steps);
            id in w.processes && w.processes[id].Held? ==>
              var p := w.processes[id];
              Minted(w, p.scope, p.seen, p.holder) && p.seen <= p.epoch <= EpochOf(w, p.scope)
  {
    RunOk(steps);
    var w := RunAll(START, steps);
    if id in w.processes && w.processes[id].Held? {
      assert ProcessOk(w, id, w.processes[id]) && ScopeOk(w, w.processes[id].scope);
    }
  }

  /** Where a lookup can be, after its holder read. */
  predicate IsSameLookup(p: Process, p': Process) {
    match p
    case LookEpoch(s, holder, seen) =>
      p' == p || (p'.Looked? && p'.scope == s && p'.seen == seen && p'.answer.Some? && p'.answer.value.owner == holder)
    case Looked(_, _, _) => p' == p
    case _ => true
  }

  lemma {:induction false} FollowsOn(w: World, steps: seq<Step>, id: ProcessId)
    requires id in w.processes
    ensures id in RunAll(w, steps).processes && IsSameLookup(w.processes[id], RunAll(w, steps).processes[id])
    decreases |steps|
  {
    if steps != [] {
      FollowsOn(w, steps[..|steps| - 1], id);
      var mid, last := RunAll(w, steps[..|steps| - 1]), steps[|steps| - 1];
      if last.Advance? && last.process in mid.processes {
        OthersUntouched(mid, last.process, mid.processes[last.process]);
      }
    }
  }

  /** What an owner lookup answers, whatever happens between its two reads: nobody exactly when there was no holder at
      the instant of its holder read, else that holder, who had claimed the epoch of that instant, under an epoch no
      older than that. */
  lemma {:induction false} LookupIsReal(w: World, between: seq<Step>, id: ProcessId)
    requires Inv(w) && id in w.processes && w.processes[id].LookHolder?
    requires var p := RunAll(Next(w, Advance(id)), between).processes; id in p && p[id].Looked?
    ensures var s := w.processes[id].scope; var p := RunAll(Next(w, Advance(id)), between).processes[id];
            && p.scope == s && (p.answer.Some? <==> s in w.holders)
            && (p.answer.Some? ==> p.answer.value.owner == w.holders[s].node
                                   && p.answer.value.epoch >= EpochOf(w, s)
                                   && Minted(w, s, EpochOf(w, s), p.answer.value.owner))
  {
    var s, read := w.processes[id].scope, Next(w, Advance(id));
    assert ScopeOk(w, s);
    NextOk(w, Advance(id));
    RunGrows(read, between);
    FollowsOn(read, between, id);
    assert ProcessOk(RunAll(read, between), id, RunAll(read, between).processes[id]);
  }

  // --- who holds, and for how long --------------------------------------------------------------------

  /** A transaction is decided by the lease alone when nobody has claimed the scope since its holder read: it commits
      under the next epoch, or finds the lease gone. */
  lemma TxnDecides(w: World, id: ProcessId)
    requires Inv(w) && id in w.processes && w.processes[id].ClaimTxn?
    requires |Claims(w, w.processes[id].scope)| == w.processes[id].seen
    ensures var p := w.processes[id]; var w' := Next(w, Advance(id));
            if p.lease in w.live then
              w'.processes[id] == Claimed(p.scope, p.node, p.seen + 1)
              && p.scope in w'.holders && w'.holders[p.scope] == Holder(p.node, p.lease)
            else w'.processes[id] == LeaseGone && w'.holders == w.holders
  {
    assert ProcessOk(w, id, w.processes[id]);
  }

  lemma GoneBy(w: World, id: ProcessId, p: Process)
    requires id in w.processes && w.processes[id] == p && !p.LeaseGone? && Advanced(w, id, p).processes[id].LeaseGone?
    ensures p.ClaimTxn? && p.lease !in w.live && p.scope !in w.holders
  {
  }

  /** A claim comes to nothing for its lease only at a moment that lease is not live and the scope is free. */
  lemma GoneOnlyWhenExpired(w: World, step: Step, id: ProcessId)
    requires id in Next(w, step).processes && Next(w, step).processes[id].LeaseGone?
    requires id in w.processes ==> !w.processes[id].LeaseGone?
    ensures step == Advance(id) && id in w.processes && w.processes[id].ClaimTxn?
    ensures w.processes[id].lease !in w.live && w.processes[id].scope !in w.holders
  {
    if step.Advance? && step.process in w.processes {
      OthersUntouched(w, step.process, w.processes[step.process]);
      if step.process == id { GoneBy(w, id, w.processes[id]); }
    }
  }

  lemma StepReads(w: World, id: ProcessId)
    requires id in w.processes && w.processes[id].ClaimHolder? && w.processes[id].scope !in w.holders
    ensures var p := w.processes[id]; var s := p.scope;
            RunAll(w, [Advance(id), Advance(id)]) == SetProcess(SetProcess(w, id,
              ClaimEpoch(s, p.node, p.lease, p.attempt, p.began, |Claims(w, s)|)), id,
              ClaimTxn(s, p.node, p.lease, p.attempt, p.began, |Claims(w, s)|, EpochOf(w, s), ModRev(w, s)))
  {
    var two := [Advance(id), Advance(id)];
    assert two[..1] == [Advance(id)] && two[..1][..0] == [];
    assert RunAll(w, two[..1]) == Next(w, Advance(id));
  }

  /** A claim of a free scope under a live lease that runs alone wins, in three round trips. */
  lemma SoloWins(w: World, id: ProcessId)
    requires Inv(w) && id in w.processes && w.processes[id].ClaimHolder?
    requires w.processes[id].scope !in w.holders && w.processes[id].lease in w.live
    ensures var p := w.processes[id]; var w' := RunAll(w, [Advance(id), Advance(id), Advance(id)]);
            && id in w'.processes && w'.processes[id] == Claimed(p.scope, p.node, |Claims(w, p.scope)| + 1)
            && p.scope in w'.holders && w'.holders[p.scope] == Holder(p.node, p.lease)
  {
    var three := [Advance(id), Advance(id), Advance(id)];
    assert three[..2] == [Advance(id), Advance(id)];
    StepReads(w, id);
    RunGrows(w, three[..2]);
    TxnDecides(RunAll(w, three[..2]), id);
  }

  /** A holder goes exactly by its own release or with its own lease, and no step puts another in its place. */
  lemma HolderGoesOnlyBy(w: World, step: Step, s: Scope)
    requires s in w.holders
    ensures s !in Next(w, step).holders
      <==> step == Release(s, w.holders[s].node) || step == Expire(w.holders[s].lease)
    ensures s in Next(w, step).holders ==> Next(w, step).holders[s] == w.holders[s]
  {
  }

  /** A holder comes only by a process whose transaction committed, for itself and under its own live lease. */
  lemma HolderComesOnlyBy(w: World, step: Step, s: Scope)
    requires s !in w.holders && s in Next(w, step).holders
    ensures step.Advance? && step.process in w.processes && w.processes[step.process].ClaimTxn?
    ensures var p := w.processes[step.process];
            p.scope == s && Next(w, step).holders[s] == Holder(p.node, p.lease) && p.lease in w.live
  {
  }

  /** A holder key exists only while its holder's lease is alive. */
  ghost predicate HoldersLive(w: World) {
    forall s :: s in w.holders ==> w.holders[s].lease in w.live
  }

  lemma HoldersStayLive(w: World, step: Step)
    requires HoldersLive(w)
    ensures HoldersLive(Next(w, step))
  {
    forall s | s in Next(w, step).holders ensures Next(w, step).holders[s].lease in Next(w, step).live {
      if s in w.holders { HolderGoesOnlyBy(w, step, s); } else { HolderComesOnlyBy(w, step, s); }
    }
  }

  lemma {:induction false} HoldersAreLive(steps: seq<Step>)
    ensures HoldersLive(RunAll(START, steps))
    decreases |steps|
  {
    if steps != [] {
      HoldersAreLive(steps[..|steps| - 1]);
      HoldersStayLive(RunAll(START, steps[..|steps| - 1]), steps[|steps| - 1]);
    }
  }

  // --- the claim loop itself ----------------------------------------------------------------------------

  datatype Claiming = Claiming(scope: Scope, node: NodeId, lease: LeaseId, id: ProcessId)

  datatype ClaimOutcome = Won(epoch: nat) | Taken(holder: NodeId, epoch: nat) | GaveUp | LeaseExpired {
    /** What an outcome says of the keys, from the world the claim began in to the one it ended in. */
    ghost predicate IsEnd(w: World, w': World, c: Claiming) {
      match this
      case Won(epoch) =>
        && c.scope in w'.holders && w'.holders[c.scope] == Holder(c.node, c.lease) && c.lease in w'.live
        && epoch == EpochOf(w', c.scope) == |Claims(w', c.scope)| > |Claims(w, c.scope)|
        && Claims(w', c.scope)[epoch - 1] == Claimant(c.node, c.id)
      case Taken(holder, epoch) =>
        epoch <= |Claims(w', c.scope)|
        && exists seen: nat :: Minted(w', c.scope, seen, holder) && |Claims(w, c.scope)| <= seen <= epoch
      case GaveUp => |Claims(w', c.scope)| >= |Claims(w, c.scope)| + 8
      case LeaseExpired => c.lease !in w'.live && c.scope !in w'.holders
    }
  }

  /** A claim that nobody disturbs: taken when there is a holder, lost without a live lease, else won. */
  function Undisturbed(w: World, c: Claiming): (ClaimOutcome, World) {
    if c.scope in w.holders then (Taken(w.holders[c.scope].node, EpochOf(w, c.scope)), w)
    else if c.lease !in w.live then (LeaseExpired, w)
    else
      var n := |Claims(w, c.scope)|;
      (Won(n + 1), Commit(w, c.scope, c.node, c.lease, n, c.id))
  }

  /** An outcome of an attempt is one of the claim it belongs to. */
  lemma LaterStart(w: World, w0: World, w': World, c: Claiming, r: ClaimOutcome)
    requires Grows(w, w0) && r.IsEnd(w0, w', c) && !r.GaveUp?
    ensures r.IsEnd(w, w', c)
  {
    assert ScopeGrows(w, w0, c.scope);
  }

  datatype TxnOutcome = Succeeded | GuardFailed | NoLease

  /** Three round trips of a client that writes nothing: the others alone have moved. */
  function Passed(w: World, schedule: nat -> seq<Step>, a: nat): World {
    RunAll(RunAll(RunAll(w, schedule(3 * a)), schedule(3 * a + 1)), schedule(3 * a + 2))
  }

  /** The keys after `a` attempts that came to nothing. */
  function WorldAt(w: World, schedule: nat -> seq<Step>, a: nat): World {
    if a == 0 then w else Passed(WorldAt(w, schedule, a - 1), schedule, a - 1)
  }

  /** An attempt from `w` ends the claim with this outcome: the holder is read after `a`, the epoch after `b`, and the
      transaction sent after `c`. Nothing but a commit is ever written. */
  predicate Ends(w: World, a: seq<Step>, b: seq<Step>, c: seq<Step>, claim: Claiming, r: ClaimOutcome, w': World) {
    var s, read := claim.scope, RunAll(w, a);
    var mid := RunAll(read, b);
    var last := RunAll(mid, c);
    match r
    case Taken(holder, epoch) =>
      s in read.holders && holder == read.holders[s].node && w' == mid && epoch == EpochOf(mid, s)
    case Won(epoch) =>
      s !in read.holders && s !in last.holders && claim.lease in last.live && epoch == EpochOf(last, s) + 1
      && w' == Commit(last, s, claim.node, claim.lease, epoch - 1, claim.id)
    case LeaseExpired => s !in read.holders && s !in last.holders && claim.lease !in last.live && w' == last
    case GaveUp => false
  }

  predicate EndsAt(w: World, schedule: nat -> seq<Step>, a: nat, claim: Claiming, r: ClaimOutcome, w': World) {
    Ends(WorldAt(w, schedule, a), schedule(3 * a), schedule(3 * a + 1), schedule(3 * a + 2), claim, r, w')
  }

  ghost predicate IsQuiet(schedule: nat -> seq<Step>) {
    forall i :: schedule(i) == []
  }

  lemma {:induction false} AloneStands(w: World, schedule: nat -> seq<Step>, k: nat)
    ensures IsQuiet(schedule) ==> WorldAt(w, schedule, k) == w
  {
    if k > 0 { AloneStands(w, schedule, k - 1); }
  }

  lemma AloneEndsAt(w: World, schedule: nat -> seq<Step>, a: nat, c: Claiming, r: ClaimOutcome, w': World)
    requires Inv(w) && EndsAt(w, schedule, a, c, r, w')
    ensures IsQuiet(schedule) ==> (r, w') == Undisturbed(w, c)
  {
    AloneStands(w, schedule, a);
    if IsQuiet(schedule) { AloneEnds(w, c, r, w'); }
  }

  lemma AloneEnds(w: World, c: Claiming, r: ClaimOutcome, w': World)
    requires Inv(w) && Ends(w, [], [], [], c, r, w')
    ensures (r, w') == Undisturbed(w, c)
  {
    assert ScopeOk(w, c.scope);
  }

  /** Some attempts on, each lost to a claim of another: only the others have moved. */
  ghost predicate IsUnderway(w: World, w': World, schedule: nat -> seq<Step>, attempt: nat, s: Scope) {
    && Inv(w') && Grows(w, w') && |Claims(w', s)| >= |Claims(w, s)| + attempt
    && w' == WorldAt(w, schedule, attempt)
  }

  lemma NextAttempt(w: World, w0: World, w': World, schedule: nat -> seq<Step>, a: nat, s: Scope)
    requires IsUnderway(w, w0, schedule, a, s) && Inv(w') && Grows(w0, w') && |Claims(w', s)| > |Claims(w0, s)|
    requires w' == Passed(w0, schedule, a)
    ensures IsUnderway(w, w', schedule, a + 1, s)
  {
    GrowsTwice(w, w0, w');
  }

  /** What an attempt's end means for the claim it belongs to. */
  lemma ClaimEnds(w: World, schedule: nat -> seq<Step>, a: nat, c: Claiming, r: ClaimOutcome, w0: World, w': World)
    requires Inv(w) && IsUnderway(w, w0, schedule, a, c.scope) && Grows(w0, w')
    requires Ends(w0, schedule(3 * a), schedule(3 * a + 1), schedule(3 * a + 2), c, r, w') && r.IsEnd(w0, w', c)
    ensures Grows(w, w') && r.IsEnd(w, w', c) && !r.GaveUp? && EndsAt(w, schedule, a, c, r, w')
    ensures IsQuiet(schedule) ==> (r, w') == Undisturbed(w, c)
  {
    GrowsTwice(w, w0, w');
    LaterStart(w, w0, w', c, r);
    AloneEndsAt(w, schedule, a, c, r, w');
  }

  lemma GivingUp(w: World, w': World, schedule: nat -> seq<Step>, c: Claiming)
    requires IsUnderway(w, w', schedule, MAX_ATTEMPTS, c.scope)
    ensures GaveUp.IsEnd(w, w', c) && !IsQuiet(schedule)
  {
    AloneStands(w, schedule, MAX_ATTEMPTS);
  }

  lemma TakenEnds(read: World, w': World, c: Claiming)
    requires Inv(read) && Inv(w') && Grows(read, w') && c.scope in read.holders
    ensures Taken(read.holders[c.scope].node, EpochOf(w', c.scope)).IsEnd(read, w', c)
  {
    assert ScopeOk(read, c.scope) && ScopeGrows(read, w', c.scope) && ScopeOk(w', c.scope);
    assert Minted(w', c.scope, |Claims(read, c.scope)|, read.holders[c.scope].node);
  }

  /** The two guards together: the scope is free and nobody has claimed it since it was found free. */
  lemma GuardMeans(read: World, w2: World, w3: World, s: Scope)
    requires Inv(read) && Inv(w2) && Inv(w3) && Grows(read, w2) && Grows(w2, w3) && s !in read.holders
    ensures CanCommit(w3, s, ModRev(w2, s)) ==> EpochOf(w2, s) == EpochOf(w3, s) == |Claims(w3, s)|
    ensures !CanCommit(w3, s, ModRev(w2, s)) ==> |Claims(w3, s)| > |Claims(read, s)|
  {
    assert ScopeGrows(read, w2, s) && ScopeGrows(w2, w3, s) && ScopeOk(w2, s) && ScopeOk(w3, s);
  }

  lemma LostFor(w0: World, read: World, w3: World, s: Scope)
    requires Grows(w0, read) && |Claims(w3, s)| > |Claims(read, s)|
    ensures |Claims(w3, s)| > |Claims(w0, s)|
  {
    assert ScopeGrows(w0, read, s);
  }

  lemma WonEnds(w: World, c: Claiming, epoch: nat)
    requires Inv(w) && c.scope !in w.holders && epoch == |Claims(w, c.scope)| && c.lease in w.live
    ensures var w' := Commit(w, c.scope, c.node, c.lease, epoch, c.id);
            Inv(w') && Grows(w, w') && Won(epoch + 1).IsEnd(w, w', c)
  {
    CommitStaysOk(w, c.scope, c.node, c.lease, epoch, c.id);
    CommitGrows(w, c.scope, c.node, c.lease, epoch, c.id);
  }

  class EtcdRegistry {
    var world: World
    const lease: LeaseId

    constructor (world: World, lease: LeaseId)
      ensures this.world == world && this.lease == lease
    {
      this.world, this.lease := world, lease;
    }

    /** Whatever the other clients and the lease clock do between two round trips. */
    method Others(steps: seq<Step>)
      requires Inv(world)
      modifies `world
      ensures world == RunAll(old(world), steps) && Inv(world) && Grows(old(world), world)
    {
      RunGrows(world, steps);
      world := RunAll(world, steps);
    }

    /** The guarded transaction: holder still absent and the epoch unchanged since it was read, or nothing. */
    method Txn(s: Scope, node: NodeId, epoch: nat, epochRev: nat, id: ProcessId) returns (r: TxnOutcome)
      modifies `world
      ensures r == if !CanCommit(old(world), s, epochRev) then GuardFailed
                   else if lease !in old(world).live then NoLease else Succeeded
      ensures world == if r.Succeeded? then Commit(old(world), s, node, lease, epoch, id) else old(world)
    {
      if s in world.holders || ModRev(world, s) != epochRev {
        return GuardFailed;
      }
      if lease !in world.live {
        return NoLease;
      }
      world := world.(rev := world.rev + 1,
                      holders := world.holders[s := Holder(node, lease)],
                      epochs := world.epochs[s := EpochKey(epoch + 1, world.rev + 1)],
                      claims := world.claims[s := Claims(world, s) + [Claimant(node, id)]]);
      return Succeeded;
    }

    /** One attempt of the loop: read the holder, read the epoch, commit under both guards, the others running before
        each round trip. `None` means the race was lost, to another claim. */
    method Attempt(s: Scope, node: NodeId, id: ProcessId, a: seq<Step>, b: seq<Step>, c: seq<Step>)
      returns (r: Option<ClaimOutcome>)
      requires Inv(world)
      modifies `world
      ensures Inv(world) && Grows(old(world), world)
      ensures r == None ==> world == RunAll(RunAll(RunAll(old(world), a), b), c)
                            && |Claims(world, s)| > |Claims(old(world), s)|
      ensures r != None ==> r.value.IsEnd(old(world), world, Claiming(s, node, lease, id))
                            && Ends(old(world), a, b, c, Claiming(s, node, lease, id), r.value, world)
    {
      ghost var w0, claim := world, Claiming(s, node, lease, id);
      Others(a);
      ghost var read := world;
      var found := if s in world.holders then Some(world.holders[s].node) else None;
      Others(b);
      GrowsTwice(w0, read, world);
      if found != None {
        TakenEnds(read, world, claim);
        LaterStart(w0, read, world, claim, Taken(found.value, EpochOf(world, s)));
        return Some(Taken(found.value, EpochOf(world, s)));
      }
      var epoch, epochRev := EpochOf(world, s), ModRev(world, s);
      ghost var w2 := world;
      Others(c);
      ghost var w3 := world;
      GrowsTwice(w0, w2, w3);
      GuardMeans(read, w2, w3, s);
      var txn := Txn(s, node, epoch, epochRev, id);
      if txn.GuardFailed? {
        LostFor(w0, read, w3, s);
        return None;
      }
      if txn.NoLease? {
        return Some(LeaseExpired);
      }
      WonEnds(w3, claim, epoch);
      GrowsTwice(w0, w3, world);
      LaterStart(w0, w3, world, claim, Won(epoch + 1));
      return Some(Won(epoch + 1));
    }

    /** The bounded optimistic loop. A claim that wins is the holder, under its live lease, as it is told so; one that
        fails for its lease has lost that lease and found the scope free; and one that nobody disturbs is decided by the
        keys it starts from. */
    method Claim(s: Scope, node: NodeId, id: ProcessId, schedule: nat -> seq<Step>) returns (r: ClaimOutcome)
      requires Inv(world)
      modifies `world
      ensures Inv(world) && Grows(old(world), world)
      ensures r.IsEnd(old(world), world, Claiming(s, node, lease, id))
      ensures if r.GaveUp? then world == WorldAt(old(world), schedule, MAX_ATTEMPTS)
              else exists a :: 0 <= a < MAX_ATTEMPTS
                            && EndsAt(old(world), schedule, a, Claiming(s, node, lease, id), r, world)
      ensures IsQuiet(schedule) ==> (r, world) == Undisturbed(old(world), Claiming(s, node, lease, id))
    {
      ghost var began, claim := world, Claiming(s, node, lease, id);
      for attempt := 0 to MAX_ATTEMPTS
        invariant IsUnderway(began, world, schedule, attempt, s)
      {
        ghost var w0 := world;
        var end := Attempt(s, node, id, schedule(3 * attempt), schedule(3 * attempt + 1), schedule(3 * attempt + 2));
        if end != None {
          ClaimEnds(began, schedule, attempt, claim, end.value, w0, world);
          return end.value;
        }
        NextAttempt(began, w0, world, schedule, attempt, s);
      }
      GivingUp(began, world, schedule, claim);
      return GaveUp;
    }
  }

  lemma GrowsTwice(a: World, b: World, c: World)
    requires Grows(a, b) && Grows(b, c)
    ensures Grows(a, c)
  {
    forall s: Scope ensures ScopeGrows(a, c, s) { assert ScopeGrows(a, b, s) && ScopeGrows(b, c, s); }
  }

  lemma CommitStaysOk(w: World, s: Scope, node: NodeId, lease: LeaseId, epoch: nat, id: ProcessId)
    requires Inv(w) && s !in w.holders && epoch == |Claims(w, s)|
    ensures Inv(Commit(w, s, node, lease, epoch, id))
  {
    var w' := Commit(w, s, node, lease, epoch, id);
    CommitGrows(w, s, node, lease, epoch, id);
    forall x: Scope ensures ScopeOk(w', x) { assert ScopeOk(w, x); }
    forall other | other in w'.processes ensures ProcessOk(w', other, w'.processes[other]) {
      KnowledgeIsStable(w, w', other, w.processes[other]);
    }
  }
}
