/** Producer run to replica: what the outbox recorded, paged and signed and pulled, gives the consumer the
    producer's rows, all but the reactions to messages that went with their channel; and what a restart on either
    side does to that. */
module EndToEnd {
  import opened Domain
  import opened Replica
  import opened Keyed
  import opened Calls
  import opened Feed
  import opened Pulling
  import opened Convergence
  import opened Discipline
  import RedoLog
  import Replay

  /** A store's own rows are all in scopes the node owns, as far as they resolve. */
  ghost predicate OwnsItsRows(v: RegistryView, node: NodeId, t: Tables, outbox: seq<ChangeRecord>) {
    forall i :: 0 <= i < |outbox| ==>
      var s := ScopeOf(t, outbox[i]); s.Some? ==> MyEpoch(v, node, s.value).Some?
  }

  /** A node that started with an empty outbox, kept to the discipline, and owns what it wrote. */
  ghost predicate IsFeed(s: StoreState, cs: seq<Call>, v: RegistryView, node: NodeId) {
    && s.outbox == [] && s.nextOutbox == 0 && RedoLog.IsWellFormed(s.tables) && IsDisciplined(s, cs)
    && v.hasKey(node) == Answer(Some(node))
    && OwnsItsRows(v, node, ExecAll(s, cs).tables, ExecAll(s, cs).outbox)
  }

  function PeerAfter(s: StoreState, cs: seq<Call>, node: NodeId): Peer {
    Peer(node, ExecAll(s, cs).tables, ExecAll(s, cs).outbox)
  }

  lemma LogIsNumbered(s: StoreState, cs: seq<Call>)
    requires s.outbox == [] && s.nextOutbox == 0
    ensures IsNumbered(ExecAll(s, cs).outbox)
  {
    RedoLog.OutboxGrows(s, cs);
    assert RedoLog.Appended(s, ExecAll(s, cs)) == ExecAll(s, cs).outbox;
  }

  lemma FreshDms(s: StoreState, cs: seq<Call>)
    requires IsDisciplined(s, cs)
    ensures RedoLog.InsertsFreshDms(s, cs)
  {
    forall i | 0 <= i < |cs| ensures RedoLog.IsFreshDm(ExecAll(s, cs[..i]).tables, cs[i]) {
      assert IsDisciplinedAt(s, cs, i);
    }
  }

  /** The first `i` rows of the log give the rows the producer had at some call; where the next row was made. */
  lemma FoldIsPast(s: StoreState, cs: seq<Call>, i: nat) returns (j: nat)
    requires s.outbox == [] && RedoLog.IsWellFormed(s.tables) && IsDisciplined(s, cs)
    requires i <= |ExecAll(s, cs).outbox|
    ensures j <= |cs| && Replay.SameRows(ApplyAll(s.tables, ExecAll(s, cs).outbox[..i]), After(s, cs, j))
    ensures i < |ExecAll(s, cs).outbox| ==>
      IsOwnRecord(ExecAll(s, cs).outbox[i]) && ScopeOf(After(s, cs, j), ExecAll(s, cs).outbox[i]).Some?
  {
    var outbox := ExecAll(s, cs).outbox;
    j := |cs|;
    if i < |outbox| { j := RecordedBy(s, cs, i); } else { assert cs[..j] == cs && outbox[..i] == outbox; }
    DisciplinedBefore(s, cs, j);
    FreshDms(s, cs[..j]);
    RedoLog.OutboxIsRedoLog(s, cs[..j]);
    assert RedoLog.Appended(s, ExecAll(s, cs[..j])) == ExecAll(s, cs[..j]).outbox;
  }

  // --- which rows are left off ---------------------------------------------------------------------------

  /** A reaction, made or withdrawn, to a given message. */
  predicate IsReactionTo(rec: ChangeRecord, id: MessageId) {
    rec.entity.Reactions? && FMessageId in rec.payload.numbers && rec.payload.numbers[FMessageId] == id
  }

  predicate IsOrphan(t: Tables, rec: ChangeRecord) {
    rec.entity.Reactions? && FMessageId in rec.payload.numbers && rec.payload.numbers[FMessageId] !in t.messages
  }

  ghost predicate ProposalFollows(a: Tables, b: Tables, id: ProposalId) {
    id in a.proposals ==> id in b.proposals && b.proposals[id].serverId == a.proposals[id].serverId
  }

  ghost predicate MessageFollows(a: Tables, b: Tables, id: MessageId) {
    id in a.messages ==> id in b.messages && b.messages[id].IsBeside(a.messages[id])
  }

  lemma SameScope(t: Tables, t': Tables, rec: ChangeRecord)
    requires ScopeOf(t, rec).Some?
    requires match Classify(rec.entity, rec.payload)
             case ViaProposal(id) => ProposalFollows(t, t', id)
             case ViaMessage(id) => MessageFollows(t, t', id)
             case _ => true
    ensures ScopeOf(t', rec) == ScopeOf(t, rec)
  {
  }

  lemma NamedMessage(end: Tables, rec: ChangeRecord)
    requires !IsOrphan(end, rec) && Classify(rec.entity, rec.payload).ViaMessage?
    ensures Classify(rec.entity, rec.payload).message in end.messages
  {
  }

  lemma OrphanUnresolved(t: Tables, rec: ChangeRecord)
    requires IsOrphan(t, rec)
    ensures ScopeOf(t, rec) == None
  {
  }

  lemma ParentLasts(s: StoreState, cs: seq<Call>, j: nat, rec: ChangeRecord)
    requires IsDisciplined(s, cs) && j <= |cs| && !IsOrphan(ExecAll(s, cs).tables, rec)
    ensures match Classify(rec.entity, rec.payload)
            case ViaProposal(id) => ProposalFollows(After(s, cs, j), ExecAll(s, cs).tables, id)
            case ViaMessage(id) => MessageFollows(After(s, cs, j), ExecAll(s, cs).tables, id)
            case _ => true
  {
    assert After(s, cs, |cs|) == ExecAll(s, cs).tables by { assert cs[..|cs|] == cs; }
    match Classify(rec.entity, rec.payload)
    case ViaProposal(id) => if id in After(s, cs, j).proposals { ProposalsLast(s, cs, j, |cs|, id); }
    case ViaMessage(id) =>
      NamedMessage(ExecAll(s, cs).tables, rec);
      if id in After(s, cs, j).messages { MessagesLast(s, cs, j, |cs|, id); }
    case _ =>
  }

  lemma ResolvesLater(s: StoreState, cs: seq<Call>, j: nat, rec: ChangeRecord)
    requires IsDisciplined(s, cs) && j <= |cs| && ScopeOf(After(s, cs, j), rec).Some?
    ensures ScopeOf(ExecAll(s, cs).tables, rec).Some? <==> !IsOrphan(ExecAll(s, cs).tables, rec)
    ensures !IsOrphan(ExecAll(s, cs).tables, rec) ==>
      ScopeOf(ExecAll(s, cs).tables, rec) == ScopeOf(After(s, cs, j), rec)
  {
    if IsOrphan(ExecAll(s, cs).tables, rec) {
      OrphanUnresolved(ExecAll(s, cs).tables, rec);
    } else {
      ParentLasts(s, cs, j, rec);
      SameScope(After(s, cs, j), ExecAll(s, cs).tables, rec);
    }
  }

  /** The rows a node cannot sign any more are exactly the reactions to messages that are gone. */
  lemma LeftOffIff(s: StoreState, cs: seq<Call>, v: RegistryView, node: NodeId, i: nat)
    requires IsFeed(s, cs, v, node) && i < |ExecAll(s, cs).outbox|
    ensures IsSignable(PeerAfter(s, cs, node), v, ExecAll(s, cs).outbox[i])
      <==> !IsOrphan(ExecAll(s, cs).tables, ExecAll(s, cs).outbox[i])
  {
    var j := FoldIsPast(s, cs, i);
    ResolvesLater(s, cs, j, ExecAll(s, cs).outbox[i]);
  }

  /** Leaving them off leaves every table but the reactions as the whole log does. */
  lemma LeftOffApart(s: StoreState, cs: seq<Call>, v: RegistryView, node: NodeId, i: nat)
    requires IsFeed(s, cs, v, node) && i <= |ExecAll(s, cs).outbox|
    ensures var p := PeerAfter(s, cs, node);
            Replay.SameButReactions(ApplyAll(s.tables, SignableRows(p, v, p.outbox[..i])),
                                    ApplyAll(s.tables, p.outbox[..i]))
  {
    var p := PeerAfter(s, cs, node);
    forall k | 0 <= k < i && !SignableBy(p, v)(p.outbox[k]) ensures p.outbox[k].entity.Reactions? {
      LeftOffIff(s, cs, v, node, k);
    }
    Replay.WithoutReactions(s.tables, p.outbox[..i], SignableBy(p, v));
  }

  /** The signed ones of the first `i` rows give the parents the producer had at some call; where the next row was
      made. */
  lemma ParentsArePast(s: StoreState, cs: seq<Call>, v: RegistryView, node: NodeId, i: nat) returns (j: nat)
    requires IsFeed(s, cs, v, node) && i <= |ExecAll(s, cs).outbox|
    ensures var p := PeerAfter(s, cs, node); var t := ApplyAll(s.tables, SignableRows(p, v, p.outbox[..i]));
            j <= |cs| && t.proposals == After(s, cs, j).proposals && t.messages == After(s, cs, j).messages
    ensures i < |ExecAll(s, cs).outbox| ==> ScopeOf(After(s, cs, j), ExecAll(s, cs).outbox[i]).Some?
  {
    j := FoldIsPast(s, cs, i);
    LeftOffApart(s, cs, v, node, i);
  }

  // --- parents on the replica ------------------------------------------------------------------------------

  /** A replica a pull may start from: it has the parents the producer started with and still has. */
  ghost predicate IsBase(start: Tables, base: Tables, end: Tables) {
    && (forall id :: id in start.proposals ==>
          id in base.proposals && base.proposals[id].serverId == start.proposals[id].serverId)
    && (forall id :: id in start.messages && id in end.messages ==>
          id in base.messages && base.messages[id].IsBeside(start.messages[id]))
  }

  lemma ProposalFollowsStep(a: Tables, b: Tables, rec: ChangeRecord, id: ProposalId)
    requires ProposalFollows(a, b, id)
    ensures ProposalFollows(ApplyRecord(a, rec), ApplyRecord(b, rec), id)
  {
  }

  lemma MessageFollowsStep(a: Tables, b: Tables, rec: ChangeRecord, id: MessageId)
    requires MessageFollows(a, b, id)
    ensures MessageFollows(ApplyRecord(a, rec), ApplyRecord(b, rec), id)
  {
  }

  /** A log puts a parent wherever it puts it on another replica that had no more of it to begin with. */
  lemma {:induction false} ProposalFollowsAll(a: Tables, b: Tables, log: seq<ChangeRecord>, id: ProposalId)
    requires ProposalFollows(a, b, id)
    ensures ProposalFollows(ApplyAll(a, log), ApplyAll(b, log), id)
    decreases |log|
  {
    if log != [] {
      var front := log[..|log| - 1];
      ProposalFollowsAll(a, b, front, id);
      ProposalFollowsStep(ApplyAll(a, front), ApplyAll(b, front), log[|log| - 1], id);
    }
  }

  lemma {:induction false} MessageFollowsAll(a: Tables, b: Tables, log: seq<ChangeRecord>, id: MessageId)
    requires MessageFollows(a, b, id)
    ensures MessageFollows(ApplyAll(a, log), ApplyAll(b, log), id)
    decreases |log|
  {
    if log != [] {
      var front := log[..|log| - 1];
      MessageFollowsAll(a, b, front, id);
      MessageFollowsStep(ApplyAll(a, front), ApplyAll(b, front), log[|log| - 1], id);
    }
  }

  lemma PastIsBase(s: StoreState, cs: seq<Call>, j: nat)
    requires IsDisciplined(s, cs) && j <= |cs|
    ensures IsBase(s.tables, After(s, cs, j), ExecAll(s, cs).tables)
  {
    var t := After(s, cs, j);
    assert After(s, cs, 0) == s.tables && cs[..|cs|] == cs;
    forall id | id in s.tables.proposals ensures ProposalFollows(s.tables, t, id) { ProposalsLast(s, cs, 0, j, id); }
    forall id | id in s.tables.messages && id in ExecAll(s, cs).tables.messages
      ensures MessageFollows(s.tables, t, id)
    {
      MessagesLast(s, cs, 0, j, id);
    }
  }

  /** Having applied a beginning of the feed leaves a replica one may pull it into again. */
  lemma PrefixIsBase(s: StoreState, cs: seq<Call>, v: RegistryView, node: NodeId, k: nat)
    requires IsFeed(s, cs, v, node) && k <= |ExecAll(s, cs).outbox|
    ensures var p := PeerAfter(s, cs, node);
            IsBase(s.tables, ApplyAll(s.tables, SignableRows(p, v, p.outbox[..k])), p.tables)
  {
    var j := ParentsArePast(s, cs, v, node, k);
    PastIsBase(s, cs, j);
  }

  lemma SameParents(a: Tables, b: Tables, rec: ChangeRecord)
    requires a.proposals == b.proposals && a.messages == b.messages
    ensures ScopeOf(a, rec) == ScopeOf(b, rec)
  {
  }

  /** A row that resolves on the one replica resolves alike on the other. */
  lemma FollowsOnBase(start: Tables, base: Tables, end: Tables, rows: seq<ChangeRecord>, rec: ChangeRecord)
    requires IsBase(start, base, end) && !IsOrphan(end, rec) && ScopeOf(ApplyAll(start, rows), rec).Some?
    ensures ScopeOf(ApplyAll(base, rows), rec) == ScopeOf(ApplyAll(start, rows), rec)
  {
    match Classify(rec.entity, rec.payload) {
      case ViaProposal(id) => ProposalFollowsAll(start, base, rows, id);
      case ViaMessage(id) =>
        NamedMessage(end, rec);
        MessageFollowsAll(start, base, rows, id);
      case _ =>
    }
    SameScope(ApplyAll(start, rows), ApplyAll(base, rows), rec);
  }

  /** A row that is signed finds its parent on a replica that has applied the signed rows before it. */
  lemma RowResolves(s: StoreState, cs: seq<Call>, v: RegistryView, node: NodeId, base: Tables, i: nat)
    requires IsFeed(s, cs, v, node) && i < |ExecAll(s, cs).outbox|
    requires IsBase(s.tables, base, ExecAll(s, cs).tables)
    requires !IsOrphan(ExecAll(s, cs).tables, ExecAll(s, cs).outbox[i])
    ensures var p := PeerAfter(s, cs, node);
            ScopeOf(ApplyAll(base, SignableRows(p, v, p.outbox[..i])), p.outbox[i]) == ScopeOf(p.tables, p.outbox[i])
  {
    var p := PeerAfter(s, cs, node);
    var rec, rows := p.outbox[i], SignableRows(p, v, p.outbox[..i]);
    var j := ParentsArePast(s, cs, v, node, i);
    SameParents(ApplyAll(s.tables, rows), After(s, cs, j), rec);
    ResolvesLater(s, cs, j, rec);
    FollowsOnBase(s.tables, base, p.tables, rows, rec);
  }

  /** So the whole feed is deliverable to such a replica. */
  lemma {:induction false} WholeFeedDeliverable(s: StoreState, cs: seq<Call>, v: RegistryView, node: NodeId,
                                                base: Tables)
    requires IsFeed(s, cs, v, node) && IsBase(s.tables, base, ExecAll(s, cs).tables)
    ensures IsDeliverableFrom(PeerAfter(s, cs, node), v, Pull(base, 0))
  {
    var p := PeerAfter(s, cs, node);
    assert p.outbox[0..|p.outbox|] == p.outbox;
    var rows := SignableRows(p, v, p.outbox);
    forall n | 0 <= n < |rows| ensures IsDeliverableAt(p, v, base, rows, n) {
      var i := RetainAt(p.outbox, SignableBy(p, v), n);
      LeftOffIff(s, cs, v, node, i);
      RowResolves(s, cs, v, node, base, i);
    }
  }

  // --- reactions -------------------------------------------------------------------------------------------

  lemma OtherReactions(xs: seq<Reaction>, rec: ChangeRecord, x: Reaction)
    requires IsOwnRecord(rec) && !IsReactionTo(rec, x.messageId)
    ensures x in VecStep(xs, ReactionKey, ReactionOp(rec)) <==> x in xs
  {
    Replay.ReactionStep(xs, rec, x);
  }

  lemma ReactionOnBoth(a: seq<Reaction>, b: seq<Reaction>, rec: ChangeRecord, x: Reaction)
    requires x in a <==> x in b
    ensures x in VecStep(a, ReactionKey, ReactionOp(rec)) <==> x in VecStep(b, ReactionKey, ReactionOp(rec))
  {
    Replay.ReactionStep(a, rec, x);
    Replay.ReactionStep(b, rec, x);
  }

  ghost predicate AreOwn(log: seq<ChangeRecord>) {
    forall i :: 0 <= i < |log| ==> IsOwnRecord(log[i])
  }

  /** A reaction none of whose records are left out stands as after the whole log. */
  lemma {:induction false} ReactionKept(t: Tables, log: seq<ChangeRecord>, keep: ChangeRecord -> bool, x: Reaction)
    requires AreOwn(log)
    requires forall i :: 0 <= i < |log| && IsReactionTo(log[i], x.messageId) ==> keep(log[i])
    ensures x in ApplyAll(t, Retain(log, keep)).reactions <==> x in ApplyAll(t, log).reactions
    decreases |log|
  {
    if log != [] {
      var front, last := log[..|log| - 1], log[|log| - 1];
      assert forall i :: 0 <= i < |front| ==> front[i] == log[i];
      ReactionKept(t, front, keep, x);
      assert log == front + [last];
      RetainOneMore(front, last, keep);
      var part, whole := ApplyAll(t, Retain(front, keep)), ApplyAll(t, front);
      if keep(last) {
        ApplyLast(t, Retain(front, keep), last);
        ReactionOnBoth(part.reactions, whole.reactions, last, x);
      } else {
        assert Retain(log, keep) == Retain(front, keep);
        OtherReactions(whole.reactions, last, x);
      }
    }
  }

  /** One all of whose records are left out stands as at the start. */
  lemma {:induction false} ReactionLeft(t: Tables, log: seq<ChangeRecord>, keep: ChangeRecord -> bool, x: Reaction)
    requires AreOwn(log)
    requires forall i :: 0 <= i < |log| && IsReactionTo(log[i], x.messageId) ==> !keep(log[i])
    ensures x in ApplyAll(t, Retain(log, keep)).reactions <==> x in t.reactions
    decreases |log|
  {
    if log != [] {
      var front, last := log[..|log| - 1], log[|log| - 1];
      assert forall i :: 0 <= i < |front| ==> front[i] == log[i];
      ReactionLeft(t, front, keep, x);
      assert log == front + [last];
      RetainOneMore(front, last, keep);
      if keep(last) {
        ApplyLast(t, Retain(front, keep), last);
        OtherReactions(ApplyAll(t, Retain(front, keep)).reactions, last, x);
      } else {
        assert Retain(log, keep) == Retain(front, keep);
      }
    }
  }

  lemma LogIsOwn(s: StoreState, cs: seq<Call>)
    requires s.outbox == [] && RedoLog.IsWellFormed(s.tables) && IsDisciplined(s, cs)
    ensures AreOwn(ExecAll(s, cs).outbox)
  {
    forall i | 0 <= i < |ExecAll(s, cs).outbox| ensures IsOwnRecord(ExecAll(s, cs).outbox[i]) {
      var _ := FoldIsPast(s, cs, i);
    }
  }

  /** What a replica holds of the reactions after any beginning of the feed to messages that are gone: what it
      started with. */
  lemma OrphanLeft(s: StoreState, cs: seq<Call>, v: RegistryView, node: NodeId, k: nat, x: Reaction)
    requires IsFeed(s, cs, v, node) && k <= |ExecAll(s, cs).outbox| && x.messageId !in ExecAll(s, cs).tables.messages
    ensures var p := PeerAfter(s, cs, node);
            x in ApplyAll(s.tables, SignableRows(p, v, p.outbox[..k])).reactions <==> x in s.tables.reactions
  {
    var p := PeerAfter(s, cs, node);
    LogIsOwn(s, cs);
    forall i | 0 <= i < k && IsReactionTo(p.outbox[i], x.messageId) ensures !SignableBy(p, v)(p.outbox[i]) {
      LeftOffIff(s, cs, v, node, i);
    }
    ReactionLeft(s.tables, p.outbox[..k], SignableBy(p, v), x);
  }

  lemma OthersArrive(s: StoreState, cs: seq<Call>, v: RegistryView, node: NodeId, x: Reaction)
    requires IsFeed(s, cs, v, node) && x.messageId in ExecAll(s, cs).tables.messages
    ensures var p := PeerAfter(s, cs, node);
            x in ApplyAll(s.tables, SignableRows(p, v, p.outbox)).reactions
            <==> x in ApplyAll(s.tables, p.outbox).reactions
  {
    var p := PeerAfter(s, cs, node);
    LogIsOwn(s, cs);
    forall i | 0 <= i < |p.outbox| && IsReactionTo(p.outbox[i], x.messageId) ensures SignableBy(p, v)(p.outbox[i]) {
      LeftOffIff(s, cs, v, node, i);
    }
    ReactionKept(s.tables, p.outbox, SignableBy(p, v), x);
  }

  // --- end to end --------------------------------------------------------------------------------------------

  /** The producer's rows, except that the reactions to messages the producer no longer has are those the replica
      started with. */
  ghost predicate IsCaughtUp(start: Tables, replica: Tables, end: Tables) {
    && Replay.SameRows(replica.(reactions := []), end.(reactions := []))
    && forall x: Reaction :: x in replica.reactions <==>
                             if x.messageId in end.messages then x in end.reactions else x in start.reactions
  }

  /** So the replica holds exactly the producer's rows if and only if no reaction to a message that is gone was made
      or withdrawn since the start. */
  lemma CaughtUpIff(start: Tables, replica: Tables, end: Tables)
    requires IsCaughtUp(start, replica, end)
    ensures Replay.SameRows(replica, end) <==>
            forall x: Reaction :: x.messageId !in end.messages ==> (x in start.reactions <==> x in end.reactions)
  {
  }

  lemma LogGivesRows(s: StoreState, cs: seq<Call>)
    requires s.outbox == [] && RedoLog.IsWellFormed(s.tables) && IsDisciplined(s, cs)
    ensures Replay.SameRows(ApplyAll(s.tables, ExecAll(s, cs).outbox), ExecAll(s, cs).tables)
  {
    FreshDms(s, cs);
    RedoLog.OutboxIsRedoLog(s, cs);
    assert RedoLog.Appended(s, ExecAll(s, cs)) == ExecAll(s, cs).outbox;
  }

  lemma SignedGiveRows(s: StoreState, cs: seq<Call>, v: RegistryView, node: NodeId)
    requires IsFeed(s, cs, v, node)
    ensures var p := PeerAfter(s, cs, node);
            IsCaughtUp(s.tables, ApplyAll(s.tables, SignableRows(p, v, p.outbox)), p.tables)
  {
    var p := PeerAfter(s, cs, node);
    var n := |p.outbox|;
    assert p.outbox[..n] == p.outbox;
    LogGivesRows(s, cs);
    LeftOffApart(s, cs, v, node, n);
    forall x: Reaction ensures x in ApplyAll(s.tables, SignableRows(p, v, p.outbox)).reactions <==>
                               if x.messageId in p.tables.messages then x in p.tables.reactions
                               else x in s.tables.reactions
    {
      if x.messageId in p.tables.messages { OthersArrive(s, cs, v, node, x); }
      else { OrphanLeft(s, cs, v, node, n, x); }
    }
  }

  lemma SameRowsCaughtUp(start: Tables, a: Tables, b: Tables, end: Tables)
    requires IsCaughtUp(start, a, end) && Replay.SameRows(b, a)
    ensures IsCaughtUp(start, b, end)
  {
  }

  /** End to end: whatever port calls a producer runs in discipline, channel removals included, a consumer that starts
      from the same rows and polls often enough receives every row that can be signed exactly when no gap stalls it,
      and then it has caught up. */
  lemma {:induction false} ReplicaCatchesUp(s: StoreState, cs: seq<Call>, v: RegistryView, node: NodeId, limit: nat,
                                            times: nat)
    requires IsFeed(s, cs, v, node) && times >= |ExecAll(s, cs).outbox|
    ensures var p, start := PeerAfter(s, cs, node), Pull(s.tables, 0);
            PollTimes(p, v, limit, start, times) == AllIn(p, v, start) <==> !HasGap(p, v, limit, 0)
    ensures var p := PeerAfter(s, cs, node);
            !HasGap(p, v, limit, 0) ==>
              IsCaughtUp(s.tables, PollTimes(p, v, limit, Pull(s.tables, 0), times).tables, p.tables)
  {
    var p := PeerAfter(s, cs, node);
    LogIsNumbered(s, cs);
    assert IsBase(s.tables, s.tables, p.tables);
    WholeFeedDeliverable(s, cs, v, node, s.tables);
    PullConvergesIff(p, v, limit, Pull(s.tables, 0), times);
    assert p.outbox[0..|p.outbox|] == p.outbox;
    SignedGiveRows(s, cs, v, node);
  }

  /** However often it polls, a replica never learns of a reaction, made or withdrawn, to a message that is gone. */
  lemma {:induction false} OrphansStay(s: StoreState, cs: seq<Call>, v: RegistryView, node: NodeId, limit: nat,
                                       times: nat, x: Reaction)
    requires IsFeed(s, cs, v, node) && x.messageId !in ExecAll(s, cs).tables.messages
    ensures var p := PeerAfter(s, cs, node);
            x in PollTimes(p, v, limit, Pull(s.tables, 0), times).tables.reactions <==> x in s.tables.reactions
  {
    var p := PeerAfter(s, cs, node);
    LogIsNumbered(s, cs);
    assert IsBase(s.tables, s.tables, p.tables);
    WholeFeedDeliverable(s, cs, v, node, s.tables);
    var c := PollsReach(p, v, limit, Pull(s.tables, 0), times);
    assert p.outbox[0..c] == p.outbox[..c];
    OrphanLeft(s, cs, v, node, c, x);
  }

  // --- restarts ---------------------------------------------------------------------------------------

  /** All the signable rows, applied to a replica that has applied those of the first `k` before. */
  lemma {:induction false} AllAgain(s: StoreState, cs: seq<Call>, v: RegistryView, node: NodeId, k: nat)
    requires IsFeed(s, cs, v, node) && k <= |ExecAll(s, cs).outbox|
    ensures var p := PeerAfter(s, cs, node); var all := SignableRows(p, v, p.outbox);
            IsCaughtUp(s.tables, ApplyAll(ApplyAll(s.tables, SignableRows(p, v, p.outbox[..k])), all), p.tables)
  {
    var p := PeerAfter(s, cs, node);
    var kept, rest := SignableRows(p, v, p.outbox[..k]), SignableRows(p, v, p.outbox[k..]);
    assert p.outbox == p.outbox[..k] + p.outbox[k..];
    RetainConcat(p.outbox[..k], p.outbox[k..], SignableBy(p, v));
    Replay.PrefixThenAll(s.tables, kept, rest);
    SignedGiveRows(s, cs, v, node);
    var once, again := ApplyAll(s.tables, kept + rest), ApplyAll(ApplyAll(s.tables, kept), kept + rest);
    SameRowsCaughtUp(s.tables, once, again, p.tables);
  }

  /** A consumer restarts from its snapshot: it keeps the rows that reached it of the first `k` and forgets its
      cursor. Pulling the feed again from 0, it catches up as if nothing had happened. */
  lemma {:induction false} ConsumerRestart(s: StoreState, cs: seq<Call>, v: RegistryView, node: NodeId, limit: nat,
                                           k: nat, times: nat)
    requires IsFeed(s, cs, v, node) && k <= |ExecAll(s, cs).outbox| && times >= |ExecAll(s, cs).outbox|
    requires !HasGap(PeerAfter(s, cs, node), v, limit, 0)
    ensures var p := PeerAfter(s, cs, node);
            var snapshot := Pull(ApplyAll(s.tables, SignableRows(p, v, p.outbox[..k])), 0);
            && PollTimes(p, v, limit, snapshot, times) == AllIn(p, v, snapshot)
            && IsCaughtUp(s.tables, AllIn(p, v, snapshot).tables, p.tables)
  {
    var p := PeerAfter(s, cs, node);
    var base := ApplyAll(s.tables, SignableRows(p, v, p.outbox[..k]));
    LogIsNumbered(s, cs);
    PrefixIsBase(s, cs, v, node, k);
    WholeFeedDeliverable(s, cs, v, node, base);
    PullConvergesIff(p, v, limit, Pull(base, 0), times);
    assert p.outbox[0..|p.outbox|] == p.outbox;
    AllAgain(s, cs, v, node, k);
  }

  /** A producer restarts from its snapshot, which keeps neither the outbox nor its numbering: until it has
      recorded more changes than a peer's cursor counts, that peer receives none of them, however often it
      polls. */
  lemma ProducerRestart(p: Peer, v: RegistryView, limit: nat, r: Pull, times: nat)
    requires IsNumbered(p.outbox) && r.cursor >= |p.outbox|
    ensures PollTimes(p, v, limit, r, times) == r
  {
    LaterThan(p.outbox, r.cursor, 1);
    StalledPull(p, v, limit, r, times);
  }
}
