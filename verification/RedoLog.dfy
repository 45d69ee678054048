/** The outbox is a faithful redo log: folding what a run of port calls recorded over the tables it started
    from gives the tables it ended with. */
module RedoLog {
  import opened Domain
  import opened Replica
  import opened Keyed
  import opened Calls
  import opened Replay

  ghost predicate OneFriendshipPerPair(xs: seq<Friendship>) {
    DistinctBy(xs, FriendKey)
  }

  /** Rows sit at their own key, and a pair of users has at most one friendship record. */
  ghost predicate IsWellFormed(t: Tables) {
    && (forall id :: id in t.channels ==> t.channels[id].id == id)
    && (forall id :: id in t.rules ==> t.rules[id].id == id)
    && (forall id :: id in t.roles ==> t.roles[id].id == id)
    && OneFriendshipPerPair(t.friends)
  }

  /** A direct message is inserted under an id no other stored message has; the store does not check. */
  predicate IsFreshDm(t: Tables, c: Call) {
    c.InsertDm? ==> !HasDm(t.dms, c.dm.id) || c.dm in t.dms
  }

  /** What a consumer receives for a call. */
  function RecordOf(t: Tables, c: Call, n: nat): ChangeRecord
    requires LoggedBy(t, c).Recorded?
  {
    RecordFor(n, LoggedBy(t, c).op, LoggedBy(t, c).row)
  }

  // --- vectors: the store's own loops against the replica's steps ---------------------------

  lemma VecReplace<K(!new), V(!new)>(xs: seq<V>, keyOf: V -> K, v: V, keep: V -> bool)
    requires forall x :: x in xs ==> keep(x) == (keyOf(x) != keyOf(v))
    ensures VecStep(xs, keyOf, Replace(keyOf(v), v)) == Retain(xs, keep) + [v]
  {
    var k := keyOf(v);
    SameRetain(xs, (x: V) => keyOf(x) != k, keep);
  }

  lemma VecDrop<K(!new), V(!new)>(xs: seq<V>, keyOf: V -> K, op: Op<K, V>, keep: V -> bool)
    requires op.DropKeys?
    requires forall x :: x in xs ==> keep(x) == !op.isDeadKey(keyOf(x))
    ensures VecStep(xs, keyOf, op) == Retain(xs, keep)
  {
  }

  lemma MapDrop<K(!new), V(!new)>(m: map<K, V>, k: K, op: Op<K, V>)
    requires op.DropKeys? && forall key :: op.isDeadKey(key) <==> key == k
    ensures MapStep(m, op) == m - {k}
  {
  }

  lemma ChannelCascade(ms: map<MessageId, Message>, id: ChannelId, op: Op<MessageId, Message>)
    requires op.DropValues? && forall m :: op.isDeadValue(m) <==> m.channelId == id
    ensures MapStep(ms, op) == WithoutChannel(ms, id)
  {
  }

  lemma FriendReplaced(xs: seq<Friendship>, f: Friendship)
    ensures VecStep(xs, FriendKey, Replace(FriendKey(f), f)) == WithoutFriend(xs, f.requester, f.addressee) + [f]
  {
    var a, b := f.requester, f.addressee;
    VecReplace(xs, FriendKey, f, (x: Friendship) => !x.IsBetween(a, b));
  }

  lemma FriendStep(xs: seq<Friendship>, f: Friendship)
    requires !HasFriend(xs, f.requester, f.addressee)
    ensures VecStep(xs, FriendKey, Replace(FriendKey(f), f)) == xs + [f]
  {
    VecReplace(xs, FriendKey, f, (x: Friendship) => FriendKey(x) != FriendKey(f));
    RetainAll(xs, (x: Friendship) => FriendKey(x) != FriendKey(f));
  }

  /** `insert_dm` always appends, the replica appends under a new id only. */
  lemma DmStep(xs: seq<DmMessage>, d: DmMessage)
    ensures SameElements(VecStep(xs, DmKey, AddNew(DmKey(d), d)), xs + [d]) <==> !HasDm(xs, d.id) || d in xs
  {
  }

  lemma VoteStep(xs: seq<Vote>, v: Vote)
    ensures VecStep(xs, VoteKey, Replace(VoteKey(v), v)) == WithoutVote(xs, v.proposalId, v.voter) + [v]
  {
    var p, u := v.proposalId, v.voter;
    VecReplace(xs, VoteKey, v, (x: Vote) => !(x.proposalId == p && x.voter == u));
  }

  lemma EmojiVoteStep(xs: seq<EmojiVote>, v: EmojiVote)
    ensures VecStep(xs, EmojiVoteKey, Replace(EmojiVoteKey(v), v)) == WithoutEmojiVote(xs, v.emojiId, v.voter) + [v]
  {
    var e, u := v.emojiId, v.voter;
    VecReplace(xs, EmojiVoteKey, v, (x: EmojiVote) => !(x.emojiId == e && x.voter == u));
  }

  lemma ReactionDrop(xs: seq<Reaction>, r: Reaction, op: Op<(MessageId, UserId, string), Reaction>)
    requires op.DropKeys? && forall k :: op.isDeadKey(k) <==> k == ReactionKey(r)
    ensures VecStep(xs, ReactionKey, op) == WithoutReaction(xs, r.messageId, r.user, r.emoji)
  {
    var m, u, e := r.messageId, r.user, r.emoji;
    VecDrop(xs, ReactionKey, op, (x: Reaction) => !(x.messageId == m && x.user == u && x.emoji == e));
  }

  lemma AssignmentDrop(xs: seq<RoleAssignment>, role: RoleId, user: UserId,
                       op: Op<(RoleId, UserId), RoleAssignment>)
    requires op.DropKeys? && forall k :: op.isDeadKey(k) <==> k == (role, user)
    ensures VecStep(xs, AssignmentKey, op) == WithoutAssignment(xs, role, user)
  {
    VecDrop(xs, AssignmentKey, op, (x: RoleAssignment) => !(x.roleId == role && x.user == user));
  }

  lemma RoleDrop(xs: seq<RoleAssignment>, role: RoleId, op: Op<(RoleId, UserId), RoleAssignment>)
    requires op.DropKeys? && forall k :: op.isDeadKey(k) <==> k.0 == role
    ensures VecStep(xs, AssignmentKey, op) == WithoutRole(xs, role)
  {
    VecDrop(xs, AssignmentKey, op, (x: RoleAssignment) => x.roleId != role);
  }

  /** `update` replaces a friendship where it stands, the replica removes and appends: the same set. */
  lemma {:induction false} FriendUpdated(xs: seq<Friendship>, f: Friendship)
    requires OneFriendshipPerPair(xs) && HasFriend(xs, f.requester, f.addressee)
    ensures OneFriendshipPerPair(ReplaceFriend(xs, f))
    ensures forall x :: x in ReplaceFriend(xs, f) <==> x == f || (x in xs && FriendKey(x) != FriendKey(f))
    ensures SameElements(ReplaceFriend(xs, f), VecStep(xs, FriendKey, Replace(FriendKey(f), f)))
  {
    var rest := xs[1..];
    assert xs == [xs[0]] + rest;
    if xs[0].IsBetween(f.requester, f.addressee) {
      assert forall x | x in rest :: FriendKey(x) != FriendKey(f);
    } else {
      FriendUpdated(rest, f);
      assert forall x | x in rest :: FriendKey(x) != FriendKey(xs[0]);
      var rest' := ReplaceFriend(rest, f);
      assert forall i | 0 <= i < |rest'| :: rest'[i] in rest';
    }
  }

  // --- one call, one record ----------------------------------------------------------------

  lemma UserPutRedone(t: Tables, c: Call, n: nat)
    requires c.PutUser? || c.PutServer? || c.PutMembership?
    requires IsWellFormed(t) && LoggedBy(t, c).Recorded?
    ensures ApplyRecord(t, RecordOf(t, c, n)) == TablesAfter(t, c)
  {
  }

  lemma ChatPutRedone(t: Tables, c: Call, n: nat)
    requires c.PutChannel? || c.PutMessage? || c.PutProposal?
    requires IsWellFormed(t) && LoggedBy(t, c).Recorded?
    ensures ApplyRecord(t, RecordOf(t, c, n)) == TablesAfter(t, c)
  {
  }

  lemma EntryPutRedone(t: Tables, c: Call, n: nat)
    requires c.PutEmoji? || c.PutRule? || c.PutKeys?
    requires IsWellFormed(t) && LoggedBy(t, c).Recorded?
    ensures ApplyRecord(t, RecordOf(t, c, n)) == TablesAfter(t, c)
  {
  }

  lemma GrantPutRedone(t: Tables, c: Call, n: nat)
    requires c.PutGrant? || c.PutInvite? || c.PutRole?
    requires IsWellFormed(t) && LoggedBy(t, c).Recorded?
    ensures ApplyRecord(t, RecordOf(t, c, n)) == TablesAfter(t, c)
  {
  }

  lemma RuleRemovalRedone(t: Tables, c: Call, n: nat)
    requires c.RemoveRule?
    requires IsWellFormed(t) && LoggedBy(t, c).Recorded?
    ensures ApplyRecord(t, RecordOf(t, c, n)) == TablesAfter(t, c)
  {
    MapDrop(t.rules, c.ruleId, RuleOp(RecordOf(t, c, n)));
  }

  lemma InviteRevocationRedone(t: Tables, c: Call, n: nat)
    requires c.RevokeInvite?
    requires IsWellFormed(t) && LoggedBy(t, c).Recorded?
    ensures ApplyRecord(t, RecordOf(t, c, n)) == TablesAfter(t, c)
  {
  }

  /** The channel cascade is redone by the one record that carries the removed channel. */
  lemma ChannelRemovalRedone(t: Tables, c: Call, n: nat)
    requires c.RemoveChannel?
    requires IsWellFormed(t) && LoggedBy(t, c).Recorded?
    ensures ApplyRecord(t, RecordOf(t, c, n)) == TablesAfter(t, c)
  {
    var rec := RecordOf(t, c, n);
    MapDrop(t.channels, c.channelId, ChannelOp(rec));
    ChannelCascade(t.messages, c.channelId, MessageOp(rec));
  }

  /** So is the role cascade. */
  lemma RoleRemovalRedone(t: Tables, c: Call, n: nat)
    requires c.RemoveRole?
    requires IsWellFormed(t) && LoggedBy(t, c).Recorded?
    ensures ApplyRecord(t, RecordOf(t, c, n)) == TablesAfter(t, c)
  {
    var rec := RecordOf(t, c, n);
    MapDrop(t.roles, c.roleId, RoleOp(rec));
    RoleDrop(t.roleAssignments, c.roleId, AssignmentOp(rec));
  }

  lemma ReactionAddRedone(t: Tables, c: Call, n: nat)
    requires c.AddReaction?
    requires IsWellFormed(t) && LoggedBy(t, c).Recorded?
    ensures ApplyRecord(t, RecordOf(t, c, n)) == TablesAfter(t, c)
  {
  }

  lemma ReactionRemovalRedone(t: Tables, c: Call, n: nat)
    requires c.RemoveReaction?
    requires IsWellFormed(t) && LoggedBy(t, c).Recorded?
    ensures ApplyRecord(t, RecordOf(t, c, n)) == TablesAfter(t, c)
  {
    ReactionDrop(t.reactions, Reaction(c.messageId, c.user, c.emoji), ReactionOp(RecordOf(t, c, n)));
  }

  lemma VoteRedone(t: Tables, c: Call, n: nat)
    requires c.UpsertVote?
    requires IsWellFormed(t) && LoggedBy(t, c).Recorded?
    ensures ApplyRecord(t, RecordOf(t, c, n)) == TablesAfter(t, c)
  {
    VoteStep(t.votes, c.vote);
  }

  lemma EmojiVoteRedone(t: Tables, c: Call, n: nat)
    requires c.UpsertEmojiVote?
    requires IsWellFormed(t) && LoggedBy(t, c).Recorded?
    ensures ApplyRecord(t, RecordOf(t, c, n)) == TablesAfter(t, c)
  {
    EmojiVoteStep(t.emojiVotes, c.emojiVote);
  }

  lemma BlockRedone(t: Tables, c: Call, n: nat)
    requires c.AddBlock?
    requires IsWellFormed(t) && LoggedBy(t, c).Recorded?
    ensures ApplyRecord(t, RecordOf(t, c, n)) == TablesAfter(t, c)
  {
  }

  lemma FriendAddRedone(t: Tables, c: Call, n: nat)
    requires c.AddFriend?
    requires IsWellFormed(t) && LoggedBy(t, c).Recorded?
    ensures ApplyRecord(t, RecordOf(t, c, n)) == TablesAfter(t, c)
  {
    FriendStep(t.friends, c.friendship);
  }

  lemma AssignRedone(t: Tables, c: Call, n: nat)
    requires c.Assign?
    requires IsWellFormed(t) && LoggedBy(t, c).Recorded?
    ensures ApplyRecord(t, RecordOf(t, c, n)) == TablesAfter(t, c)
  {
  }

  lemma UnassignRedone(t: Tables, c: Call, n: nat)
    requires c.Unassign?
    requires IsWellFormed(t) && LoggedBy(t, c).Recorded?
    ensures ApplyRecord(t, RecordOf(t, c, n)) == TablesAfter(t, c)
  {
    AssignmentDrop(t.roleAssignments, c.roleId, c.user, AssignmentOp(RecordOf(t, c, n)));
  }

  lemma FriendUpdateRedone(t: Tables, c: Call, n: nat)
    requires c.UpdateFriend?
    requires IsWellFormed(t) && LoggedBy(t, c).Recorded?
    ensures SameRows(ApplyRecord(t, RecordOf(t, c, n)), TablesAfter(t, c))
  {
    FriendUpdated(t.friends, c.friendship);
  }

  lemma DmRedone(t: Tables, c: Call, n: nat)
    requires c.InsertDm?
    ensures SameRows(ApplyRecord(t, RecordOf(t, c, n)), TablesAfter(t, c)) <==> IsFreshDm(t, c)
  {
    DmStep(t.dms, c.dm);
  }

  lemma PutRedone(t: Tables, c: Call, n: nat)
    requires c.PutUser? || c.PutServer? || c.PutMembership? || c.PutChannel? || c.PutMessage? || c.PutProposal?
          || c.PutEmoji? || c.PutRule? || c.PutKeys? || c.PutGrant? || c.PutInvite? || c.PutRole?
    requires IsWellFormed(t) && LoggedBy(t, c).Recorded?
    ensures ApplyRecord(t, RecordOf(t, c, n)) == TablesAfter(t, c)
  {
    if c.PutUser? || c.PutServer? || c.PutMembership? { UserPutRedone(t, c, n); }
    else if c.PutChannel? || c.PutMessage? || c.PutProposal? { ChatPutRedone(t, c, n); }
    else if c.PutEmoji? || c.PutRule? || c.PutKeys? { EntryPutRedone(t, c, n); }
    else { GrantPutRedone(t, c, n); }
  }

  lemma RemovalRedone(t: Tables, c: Call, n: nat)
    requires c.RemoveRule? || c.RevokeInvite? || c.RemoveChannel? || c.RemoveRole? || c.RemoveReaction? || c.Unassign?
    requires IsWellFormed(t) && LoggedBy(t, c).Recorded?
    ensures ApplyRecord(t, RecordOf(t, c, n)) == TablesAfter(t, c)
  {
    match c
    case RemoveRule(_) => RuleRemovalRedone(t, c, n);
    case RevokeInvite(_) => InviteRevocationRedone(t, c, n);
    case RemoveChannel(_) => ChannelRemovalRedone(t, c, n);
    case RemoveRole(_) => RoleRemovalRedone(t, c, n);
    case RemoveReaction(_, _, _) => ReactionRemovalRedone(t, c, n);
    case Unassign(_, _) => UnassignRedone(t, c, n);
  }

  lemma AddRedone(t: Tables, c: Call, n: nat)
    requires c.AddReaction? || c.UpsertVote? || c.UpsertEmojiVote? || c.AddBlock? || c.AddFriend? || c.Assign?
    requires IsWellFormed(t) && LoggedBy(t, c).Recorded?
    ensures ApplyRecord(t, RecordOf(t, c, n)) == TablesAfter(t, c)
  {
    match c
    case AddReaction(_) => ReactionAddRedone(t, c, n);
    case UpsertVote(_) => VoteRedone(t, c, n);
    case UpsertEmojiVote(_) => EmojiVoteRedone(t, c, n);
    case AddBlock(_) => BlockRedone(t, c, n);
    case AddFriend(_) => FriendAddRedone(t, c, n);
    case Assign(_) => AssignRedone(t, c, n);
  }

  /** Redoing one call's record on the tables it ran on gives the tables it left, exactly when it does not
      insert a direct message under the id of a different one. */
  lemma CallRedone(t: Tables, c: Call, n: nat)
    requires IsWellFormed(t) && LoggedBy(t, c).Recorded?
    ensures SameRows(ApplyRecord(t, RecordOf(t, c, n)), TablesAfter(t, c)) <==> IsFreshDm(t, c)
  {
    if c.InsertDm? { DmRedone(t, c, n); }
    else { NoDmRedone(t, c, n); }
  }

  lemma NoDmRedone(t: Tables, c: Call, n: nat)
    requires IsWellFormed(t) && LoggedBy(t, c).Recorded? && !c.InsertDm?
    ensures SameRows(ApplyRecord(t, RecordOf(t, c, n)), TablesAfter(t, c))
  {
    if c.UpdateFriend? { FriendUpdateRedone(t, c, n); }
    else if c.AddReaction? || c.UpsertVote? || c.UpsertEmojiVote? || c.AddBlock? || c.AddFriend? || c.Assign? {
      AddRedone(t, c, n);
    } else if c.RemoveRule? || c.RevokeInvite? || c.RemoveChannel? || c.RemoveRole? || c.RemoveReaction?
           || c.Unassign? {
      RemovalRedone(t, c, n);
    } else {
      PutRedone(t, c, n);
    }
  }

  lemma SilentRemoval(t: Tables, c: Call)
    requires c.RemoveRule? || c.RemoveChannel? || c.RemoveRole? || c.RemoveReaction? || c.Unassign?
    requires LoggedBy(t, c).Silent?
    ensures TablesAfter(t, c) == t
  {
    match c
    case RemoveReaction(m, u, e) =>
      RetainAll(t.reactions, (r: Reaction) => !(r.messageId == m && r.user == u && r.emoji == e));
    case RemoveRule(id) => assert t.rules - {id} == t.rules;
    case RemoveChannel(id) => assert t.channels - {id} == t.channels;
    case RemoveRole(id) => assert t.roles - {id} == t.roles;
    case Unassign(r, u) => RetainAll(t.roleAssignments, (a: RoleAssignment) => !(a.roleId == r && a.user == u));
  }

  lemma SilentAddition(t: Tables, c: Call)
    requires c.AddReaction? || c.AddBlock? || c.AddFriend? || c.UpdateFriend? || c.RevokeInvite? || c.Assign?
    requires LoggedBy(t, c).Silent?
    ensures TablesAfter(t, c) == t
  {
    if c.UpdateFriend? { NothingReplaced(t.friends, c.friendship); }
  }

  /** A call that records nothing changes nothing. */
  lemma SilentCall(t: Tables, c: Call)
    requires LoggedBy(t, c).Silent?
    ensures TablesAfter(t, c) == t
  {
    if c.RemoveRule? || c.RemoveChannel? || c.RemoveRole? || c.RemoveReaction? || c.Unassign? { SilentRemoval(t, c); }
    else { SilentAddition(t, c); }
  }

  lemma {:induction false} NothingReplaced(xs: seq<Friendship>, f: Friendship)
    requires !HasFriend(xs, f.requester, f.addressee)
    ensures ReplaceFriend(xs, f) == xs
  {
    if xs != [] {
      assert forall i | 0 <= i < |xs[1..]| :: xs[1..][i] == xs[i + 1];
      NothingReplaced(xs[1..], f);
    }
  }

  lemma FriendsStay(t: Tables, c: Call)
    requires OneFriendshipPerPair(t.friends)
    ensures OneFriendshipPerPair(FriendsAfter(t, c))
  {
    match c
    case UpdateFriend(f) =>
      if HasFriend(t.friends, f.requester, f.addressee) { FriendUpdated(t.friends, f); }
      else { NothingReplaced(t.friends, f); }
    case AddFriend(f) => assert forall i | 0 <= i < |t.friends| :: t.friends[i].IsBetween(f.requester, f.addressee)
                                   <==> FriendKey(t.friends[i]) == FriendKey(f);
    case _ =>
  }

  lemma StaysWellFormed(t: Tables, c: Call)
    requires IsWellFormed(t)
    ensures IsWellFormed(TablesAfter(t, c))
  {
    FriendsStay(t, c);
  }

  // --- whole runs ----------------------------------------------------------------------------

  /** Every direct message a run inserts is fresh when it is inserted. */
  ghost predicate InsertsFreshDms(s: StoreState, cs: seq<Call>) {
    forall i :: 0 <= i < |cs| ==> IsFreshDm(ExecAll(s, cs[..i]).tables, cs[i])
  }

  /** What a run added to the outbox. */
  function Appended(s: StoreState, s': StoreState): seq<ChangeRecord>
    requires |s.outbox| <= |s'.outbox|
  {
    s'.outbox[|s.outbox|..]
  }

  /** The outbox only grows, and numbers what it appends consecutively. */
  lemma {:induction false} OutboxGrows(s: StoreState, cs: seq<Call>)
    ensures s.outbox <= ExecAll(s, cs).outbox
    ensures var added := Appended(s, ExecAll(s, cs));
            && ExecAll(s, cs).nextOutbox == s.nextOutbox + |added|
            && forall i :: 0 <= i < |added| ==> added[i].seqNo == s.nextOutbox + 1 + i
    decreases |cs|
  {
    if cs != [] { OutboxGrows(s, cs[..|cs| - 1]); }
  }

  lemma {:induction false} RunStaysWellFormed(s: StoreState, cs: seq<Call>)
    requires IsWellFormed(s.tables)
    ensures IsWellFormed(ExecAll(s, cs).tables)
    decreases |cs|
  {
    if cs != [] {
      var front := cs[..|cs| - 1];
      RunStaysWellFormed(s, front);
      StaysWellFormed(ExecAll(s, front).tables, cs[|cs| - 1]);
    }
  }

  lemma ExecTables(s: StoreState, c: Call)
    ensures Exec(s, c).tables == TablesAfter(s.tables, c)
    ensures Exec(s, c).outbox == s.outbox +
      if LoggedBy(s.tables, c).Silent? then [] else [RecordOf(s.tables, c, s.nextOutbox + 1)]
  {
  }

  /** One call on the producer and its record on a replica holding the same rows. */
  lemma InStep(replica: Tables, t: Tables, c: Call, n: nat)
    requires SameRows(replica, t) && IsWellFormed(t) && IsFreshDm(t, c)
    ensures LoggedBy(t, c).Silent? ==> SameRows(replica, TablesAfter(t, c))
    ensures LoggedBy(t, c).Recorded? ==> SameRows(ApplyRecord(replica, RecordOf(t, c, n)), TablesAfter(t, c))
  {
    if LoggedBy(t, c).Silent? {
      SilentCall(t, c);
    } else {
      var rec := RecordOf(t, c, n);
      SameRowsStep(replica, t, rec);
      CallRedone(t, c, n);
      SameRowsTransitive(ApplyRecord(replica, rec), ApplyRecord(t, rec), TablesAfter(t, c));
    }
  }

  /** What the call adds to the log, and the replica after it. */
  lemma LogStep(base: Tables, s: StoreState, mid: StoreState, c: Call)
    requires s.outbox <= mid.outbox && IsWellFormed(mid.tables) && IsFreshDm(mid.tables, c)
    requires SameRows(ApplyAll(base, Appended(s, mid)), mid.tables)
    ensures s.outbox <= Exec(mid, c).outbox
    ensures SameRows(ApplyAll(base, Appended(s, Exec(mid, c))), Exec(mid, c).tables)
  {
    var log := Appended(s, mid);
    ExecTables(mid, c);
    InStep(ApplyAll(base, log), mid.tables, c, mid.nextOutbox + 1);
    if LoggedBy(mid.tables, c).Silent? {
      assert Appended(s, Exec(mid, c)) == log;
    } else {
      var rec := RecordOf(mid.tables, c, mid.nextOutbox + 1);
      assert Appended(s, Exec(mid, c)) == log + [rec];
      ApplyLast(base, log, rec);
    }
  }

  /** The outbox is a faithful redo log: from any well-formed tables and after any run of port calls with
      fresh direct messages, folding the new records over the starting tables gives the current rows. */
  lemma {:induction false} OutboxIsRedoLog(s: StoreState, cs: seq<Call>)
    requires IsWellFormed(s.tables) && InsertsFreshDms(s, cs)
    ensures s.outbox <= ExecAll(s, cs).outbox
    ensures SameRows(ApplyAll(s.tables, Appended(s, ExecAll(s, cs))), ExecAll(s, cs).tables)
    decreases |cs|
  {
    if cs != [] {
      var front, c := cs[..|cs| - 1], cs[|cs| - 1];
      assert forall i | 0 <= i < |front| :: front[..i] == cs[..i];
      OutboxIsRedoLog(s, front);
      RunStaysWellFormed(s, front);
      LogStep(s.tables, s, ExecAll(s, front), c);
    }
  }
}
