/** What the services keep to in the port calls they make, so that a row's parent can be found wherever the row is
    applied; and what follows over whole runs. */
module Discipline {
  import opened Domain
  import opened Replica
  import opened Calls
  import opened Feed
  import RedoLog
  import Scopes

  /** The tables after the first `i` calls. */
  function After(s: StoreState, cs: seq<Call>, i: nat): Tables
    requires i <= |cs|
  {
    ExecAll(s, cs[..i]).tables
  }

  /** A stored proposal keeps its server, a stored message its server and channel. */
  predicate KeepsPlaces(t: Tables, c: Call) {
    && (c.PutProposal? && c.proposal.id in t.proposals ==> c.proposal.serverId == t.proposals[c.proposal.id].serverId)
    && (c.PutMessage? && c.message.id in t.messages ==> c.message.IsBeside(t.messages[c.message.id]))
  }

  /** A vote is cast on a stored proposal, a reaction made or withdrawn on a stored message. */
  predicate HasParent(t: Tables, c: Call) {
    && (c.UpsertVote? ==> c.vote.proposalId in t.proposals)
    && (c.AddReaction? ==> c.reaction.messageId in t.messages)
    && (c.RemoveReaction? ==> c.messageId in t.messages)
  }

  ghost predicate EverStored(s: StoreState, cs: seq<Call>, i: nat, id: MessageId)
    requires i <= |cs|
  {
    exists j :: 0 <= j < i && id in After(s, cs, j).messages
  }

  /** No message is stored under the id of one that went with its channel. */
  ghost predicate RevivesNothing(s: StoreState, cs: seq<Call>, i: nat)
    requires i < |cs|
  {
    cs[i].PutMessage? && cs[i].message.id !in After(s, cs, i).messages ==> !EverStored(s, cs, i, cs[i].message.id)
  }

  ghost predicate IsDisciplinedAt(s: StoreState, cs: seq<Call>, i: nat)
    requires i < |cs|
  {
    var t := After(s, cs, i);
    KeepsPlaces(t, cs[i]) && HasParent(t, cs[i]) && RedoLog.IsFreshDm(t, cs[i]) && RevivesNothing(s, cs, i)
  }

  ghost predicate IsDisciplined(s: StoreState, cs: seq<Call>) {
    forall i :: 0 <= i < |cs| ==> IsDisciplinedAt(s, cs, i)
  }

  lemma SameBefore(s: StoreState, cs: seq<Call>, k: nat, i: nat)
    requires i <= k <= |cs|
    ensures After(s, cs[..k], i) == After(s, cs, i)
  {
    assert cs[..k][..i] == cs[..i];
  }

  lemma SameEver(s: StoreState, cs: seq<Call>, k: nat, i: nat, id: MessageId)
    requires i <= k <= |cs|
    ensures EverStored(s, cs[..k], i, id) == EverStored(s, cs, i, id)
  {
    forall j | 0 <= j < i ensures After(s, cs[..k], j) == After(s, cs, j) { SameBefore(s, cs, k, j); }
  }

  lemma SameAt(s: StoreState, cs: seq<Call>, k: nat, i: nat)
    requires i < k <= |cs|
    ensures IsDisciplinedAt(s, cs[..k], i) == IsDisciplinedAt(s, cs, i)
  {
    SameBefore(s, cs, k, i);
    if cs[i].PutMessage? { SameEver(s, cs, k, i, cs[i].message.id); }
  }

  lemma DisciplinedBefore(s: StoreState, cs: seq<Call>, k: nat)
    requires k <= |cs| && IsDisciplined(s, cs)
    ensures IsDisciplined(s, cs[..k])
  {
    forall i | 0 <= i < k ensures IsDisciplinedAt(s, cs[..k], i) { SameAt(s, cs, k, i); }
  }

  lemma AfterNext(s: StoreState, cs: seq<Call>, i: nat)
    requires i < |cs|
    ensures After(s, cs, i + 1) == TablesAfter(After(s, cs, i), cs[i])
    ensures After(s, cs, i + 1).messages == MessagesAfter(After(s, cs, i), cs[i])
    ensures After(s, cs, i + 1).proposals == ProposalsAfter(After(s, cs, i), cs[i])
  {
    assert cs[..i + 1][..i] == cs[..i];
    RedoLog.ExecTables(ExecAll(s, cs[..i]), cs[i]);
  }

  // --- parents over a run -----------------------------------------------------------------------------

  lemma ProposalKept(t: Tables, c: Call, id: ProposalId)
    requires KeepsPlaces(t, c) && id in t.proposals
    ensures id in ProposalsAfter(t, c) && ProposalsAfter(t, c)[id].serverId == t.proposals[id].serverId
  {
  }

  /** Proposals are never removed, and stay in their server. */
  lemma {:induction false} ProposalsLast(s: StoreState, cs: seq<Call>, i: nat, j: nat, id: ProposalId)
    requires IsDisciplined(s, cs) && i <= j <= |cs| && id in After(s, cs, i).proposals
    ensures id in After(s, cs, j).proposals
    ensures After(s, cs, j).proposals[id].serverId == After(s, cs, i).proposals[id].serverId
    decreases j
  {
    if i < j {
      ProposalsLast(s, cs, i, j - 1, id);
      AfterNext(s, cs, j - 1);
      assert IsDisciplinedAt(s, cs, j - 1);
      ProposalKept(After(s, cs, j - 1), cs[j - 1], id);
    }
  }

  lemma MessageAdded(t: Tables, c: Call, id: MessageId)
    requires id !in t.messages && id in MessagesAfter(t, c)
    ensures c.PutMessage? && c.message.id == id
  {
  }

  lemma MessageKept(t: Tables, c: Call, id: MessageId)
    requires KeepsPlaces(t, c) && id in t.messages && id in MessagesAfter(t, c)
    ensures MessagesAfter(t, c)[id].IsBeside(t.messages[id])
  {
  }

  lemma GoneNext(s: StoreState, cs: seq<Call>, i: nat, k: nat, id: MessageId)
    requires IsDisciplined(s, cs) && i < k < |cs|
    requires id in After(s, cs, i).messages && id !in After(s, cs, k).messages
    ensures id !in After(s, cs, k + 1).messages
  {
    AfterNext(s, cs, k);
    if id in MessagesAfter(After(s, cs, k), cs[k]) {
      MessageAdded(After(s, cs, k), cs[k], id);
      assert IsDisciplinedAt(s, cs, k);
      assert EverStored(s, cs, k, id);
    }
  }

  /** A message once gone is gone for good. */
  lemma {:induction false} GoneStaysGone(s: StoreState, cs: seq<Call>, i: nat, j: nat, k: nat, id: MessageId)
    requires IsDisciplined(s, cs) && i <= j <= k <= |cs|
    requires id in After(s, cs, i).messages && id !in After(s, cs, j).messages
    ensures id !in After(s, cs, k).messages
    decreases k
  {
    if j < k {
      GoneStaysGone(s, cs, i, j, k - 1, id);
      GoneNext(s, cs, i, k - 1, id);
    }
  }

  lemma KeptNext(s: StoreState, cs: seq<Call>, j: nat, id: MessageId)
    requires IsDisciplined(s, cs) && j < |cs|
    requires id in After(s, cs, j).messages && id in After(s, cs, j + 1).messages
    ensures After(s, cs, j + 1).messages[id].IsBeside(After(s, cs, j).messages[id])
  {
    AfterNext(s, cs, j);
    assert IsDisciplinedAt(s, cs, j);
    MessageKept(After(s, cs, j), cs[j], id);
  }

  /** A message still there at the end was there all along, in one place. */
  lemma {:induction false} MessagesLast(s: StoreState, cs: seq<Call>, i: nat, j: nat, id: MessageId)
    requires IsDisciplined(s, cs) && i <= j <= |cs|
    requires id in After(s, cs, i).messages && id in After(s, cs, |cs|).messages
    ensures id in After(s, cs, j).messages
    ensures After(s, cs, j).messages[id].IsBeside(After(s, cs, i).messages[id])
    decreases j
  {
    if i < j {
      MessagesLast(s, cs, i, j - 1, id);
      if id !in After(s, cs, j).messages { GoneStaysGone(s, cs, i, j, |cs|, id); }
      KeptNext(s, cs, j - 1, id);
    }
  }

  // --- records ---------------------------------------------------------------------------------------

  /** A record as the store writes it: the payload is its row, serialized. */
  predicate IsOwnRecord(rec: ChangeRecord) {
    rec.payload.row.Some? && rec == RecordFor(rec.seqNo, rec.op, rec.payload.row.value)
  }

  /** Rows that name their scope in their own payload: all but votes and reactions. It is the scope the row belongs to,
      whichever node looks. */
  lemma RowNamesScope(row: Row)
    requires !row.VoteRow? && !row.ReactionRow?
    ensures var d := Classify(EntityOf(row), ToPayload(row)); d.Owned? && forall t :: Scopes.BelongsTo(t, row, d.scope)
  {
    var d := Classify(EntityOf(row), ToPayload(row));
    forall t ensures d.Owned? && Scopes.BelongsTo(t, row, d.scope) {
      Scopes.ScopelessIff(t, 0, Upsert, row);
      var s := ScopeOf(t, RecordFor(0, Upsert, row)).value;
      Scopes.RowScopeIff(t, 0, Upsert, row, s);
    }
  }

  /** The calls whose records name a parent. */
  predicate IsParented(c: Call) { c.UpsertVote? || c.AddReaction? || c.RemoveReaction? }

  lemma OtherRows(t: Tables, c: Call)
    requires LoggedBy(t, c).Recorded? && !IsParented(c)
    ensures !LoggedBy(t, c).row.VoteRow? && !LoggedBy(t, c).row.ReactionRow?
  {
  }

  /** A record resolves where it was made. */
  lemma RecordResolves(t: Tables, c: Call, n: nat)
    requires LoggedBy(t, c).Recorded? && HasParent(t, c)
    ensures var rec := RedoLog.RecordOf(t, c, n); IsOwnRecord(rec) && ScopeOf(t, rec).Some?
  {
    if !IsParented(c) {
      OtherRows(t, c);
      RowNamesScope(LoggedBy(t, c).row);
    }
  }

  /** Every row of the outbox was made at some call, where it resolved. */
  lemma {:induction false} RecordedBy(s: StoreState, cs: seq<Call>, i: nat) returns (j: nat)
    requires IsDisciplined(s, cs) && |s.outbox| <= i < |ExecAll(s, cs).outbox|
    ensures j <= |cs| && ExecAll(s, cs[..j]).outbox == ExecAll(s, cs).outbox[..i]
    ensures var rec := ExecAll(s, cs).outbox[i]; IsOwnRecord(rec) && ScopeOf(After(s, cs, j), rec).Some?
    decreases |cs|
  {
    var n := |cs| - 1;
    var mid := ExecAll(s, cs[..n]);
    DisciplinedBefore(s, cs, n);
    RedoLog.ExecTables(mid, cs[n]);
    if i < |mid.outbox| {
      j := RecordedBy(s, cs[..n], i);
      assert mid.outbox[..i] == ExecAll(s, cs).outbox[..i];
      assert cs[..n][..j] == cs[..j];
    } else {
      j := n;
      assert IsDisciplinedAt(s, cs, n);
      RecordResolves(mid.tables, cs[n], mid.nextOutbox + 1);
    }
  }

  /** One more call, made in discipline. */
  lemma DisciplinedOn(s: StoreState, cs: seq<Call>, c: Call)
    requires IsDisciplined(s, cs)
    requires var t := ExecAll(s, cs).tables; KeepsPlaces(t, c) && HasParent(t, c) && RedoLog.IsFreshDm(t, c)
    requires c.PutMessage? && c.message.id !in ExecAll(s, cs).tables.messages ==>
      !EverStored(s, cs, |cs|, c.message.id)
    ensures IsDisciplined(s, cs + [c])
  {
    var all := cs + [c];
    assert all[..|cs|] == cs && cs[..|cs|] == cs;
    forall i | 0 <= i < |cs| ensures IsDisciplinedAt(s, all, i) { SameAt(s, all, |cs|, i); }
    SameBefore(s, all, |cs|, |cs|);
    if c.PutMessage? { SameEver(s, all, |cs|, |cs|, c.message.id); }
    assert IsDisciplinedAt(s, all, |cs|);
  }
}
