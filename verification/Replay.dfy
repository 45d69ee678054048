/** Replaying a log a replica has already applied changes nothing: what makes pulling a peer's feed again
    from the start harmless, which is what happens after a restart, because the snapshot keeps the replica's
    rows but not its cursors. */
module Replay {
  import opened Domain
  import opened Replica
  import opened Keyed

  ghost predicate SameElements<T(!new)>(xs: seq<T>, ys: seq<T>) {
    forall x :: x in xs <==> x in ys
  }

  /** Two replicas hold the same rows: the same maps, and the same vectors compared as sets. */
  ghost predicate SameRows(a: Tables, b: Tables) {
    && a.users == b.users
    && a.servers == b.servers
    && a.memberships == b.memberships
    && a.channels == b.channels
    && a.messages == b.messages
    && SameElements(a.reactions, b.reactions)
    && a.proposals == b.proposals
    && SameElements(a.votes, b.votes)
    && a.emojis == b.emojis
    && SameElements(a.emojiVotes, b.emojiVotes)
    && a.rules == b.rules
    && SameElements(a.dms, b.dms)
    && SameElements(a.blocks, b.blocks)
    && SameElements(a.friends, b.friends)
    && a.roles == b.roles
    && SameElements(a.roleAssignments, b.roleAssignments)
    && a.invites == b.invites
    && a.userKeys == b.userKeys
    && a.channelGrants == b.channelGrants
  }

  // --- one table under a whole log -------------------------------------------------------

  function MapRun<K(!new), V(!new)>(m: map<K, V>, log: seq<ChangeRecord>, opOf: ChangeRecord -> Op<K, V>): map<K, V>
    decreases |log|
  {
    if log == [] then m else MapStep(MapRun(m, log[..|log| - 1], opOf), opOf(log[|log| - 1]))
  }

  function VecRun<K(!new, ==), V(!new)>(xs: seq<V>, log: seq<ChangeRecord>, keyOf: V -> K,
                                        opOf: ChangeRecord -> Op<K, V>): seq<V>
    decreases |log|
  {
    if log == [] then xs else VecStep(VecRun(xs, log[..|log| - 1], keyOf, opOf), keyOf, opOf(log[|log| - 1]))
  }

  function OpsOf<K, V>(log: seq<ChangeRecord>, opOf: ChangeRecord -> Op<K, V>): seq<Op<K, V>> {
    seq(|log|, i requires 0 <= i < |log| => opOf(log[i]))
  }

  lemma {:induction false} MapRunRel<K(!new), V(!new)>(m: map<K, V>, log: seq<ChangeRecord>,
                                                       opOf: ChangeRecord -> Op<K, V>)
    ensures MapRel(MapRun(m, log, opOf)) == Run(MapRel(m), OpsOf(log, opOf))
    decreases |log|
  {
    if log != [] {
      var front, last := log[..|log| - 1], log[|log| - 1];
      MapRunRel(m, front, opOf);
      assert OpsOf(log, opOf)[..|log| - 1] == OpsOf(front, opOf);
      MapStepRel(MapRun(m, front, opOf), opOf(last));
    }
  }

  lemma {:induction false} VecRunRel<K(!new), V(!new)>(xs: seq<V>, log: seq<ChangeRecord>, keyOf: V -> K,
                                                       opOf: ChangeRecord -> Op<K, V>)
    requires forall rec :: opOf(rec).Replace? || opOf(rec).AddNew? ==> keyOf(opOf(rec).value) == opOf(rec).key
    ensures VecRel(VecRun(xs, log, keyOf, opOf), keyOf) == Run(VecRel(xs, keyOf), OpsOf(log, opOf))
    decreases |log|
  {
    if log != [] {
      var front, last := log[..|log| - 1], log[|log| - 1];
      VecRunRel(xs, front, keyOf, opOf);
      assert OpsOf(log, opOf)[..|log| - 1] == OpsOf(front, opOf);
      VecStepRel(VecRun(xs, front, keyOf, opOf), keyOf, opOf(last));
    }
  }

  /** A hash map replayed: last writers and removals only. */
  lemma MapReplay<K(!new), V(!new)>(m: map<K, V>, log: seq<ChangeRecord>, opOf: ChangeRecord -> Op<K, V>)
    requires forall rec :: !opOf(rec).AddNew?
    ensures MapRun(MapRun(m, log, opOf), log, opOf) == MapRun(m, log, opOf)
  {
    MapRunRel(m, log, opOf);
    MapRunRel(MapRun(m, log, opOf), log, opOf);
    RunTwice(MapRel(m), OpsOf(log, opOf));
    MapRelDetermines(MapRun(MapRun(m, log, opOf), log, opOf), MapRun(m, log, opOf));
  }

  /** A vector replayed: last or first writers, and removals by key. */
  lemma VecReplay<K(!new), V(!new)>(xs: seq<V>, log: seq<ChangeRecord>, keyOf: V -> K,
                                    opOf: ChangeRecord -> Op<K, V>)
    requires forall rec :: opOf(rec).Replace? || opOf(rec).AddNew? ==> keyOf(opOf(rec).value) == opOf(rec).key
    requires forall rec :: !opOf(rec).DropValues?
    ensures SameElements(VecRun(VecRun(xs, log, keyOf, opOf), log, keyOf, opOf), VecRun(xs, log, keyOf, opOf))
  {
    var once := VecRun(xs, log, keyOf, opOf);
    var twice := VecRun(once, log, keyOf, opOf);
    VecRunRel(xs, log, keyOf, opOf);
    VecRunRel(once, log, keyOf, opOf);
    RunTwice(VecRel(xs, keyOf), OpsOf(log, opOf));
    forall x ensures x in once <==> x in twice {
      assert x in once <==> (keyOf(x), x) in VecRel(once, keyOf);
      assert x in twice <==> (keyOf(x), x) in VecRel(twice, keyOf);
    }
  }

  // --- all nineteen tables -----------------------------------------------------------------

  /** A log acts on every table separately. */
  lemma {:induction false} TableByTable(t: Tables, log: seq<ChangeRecord>)
    ensures ApplyAll(t, log) == Tables(
      MapRun(t.users, log, UserOp),
      MapRun(t.servers, log, ServerOp),
      MapRun(t.memberships, log, MembershipOp),
      MapRun(t.channels, log, ChannelOp),
      MapRun(t.messages, log, MessageOp),
      VecRun(t.reactions, log, ReactionKey, ReactionOp),
      MapRun(t.proposals, log, ProposalOp),
      VecRun(t.votes, log, VoteKey, VoteOp),
      MapRun(t.emojis, log, EmojiOp),
      VecRun(t.emojiVotes, log, EmojiVoteKey, EmojiVoteOp),
      MapRun(t.rules, log, RuleOp),
      VecRun(t.dms, log, DmKey, DmOp),
      VecRun(t.blocks, log, BlockKey, BlockOp),
      VecRun(t.friends, log, FriendKey, FriendOp),
      MapRun(t.roles, log, RoleOp),
      VecRun(t.roleAssignments, log, AssignmentKey, AssignmentOp),
      MapRun(t.invites, log, InviteOp),
      MapRun(t.userKeys, log, KeysOp),
      MapRun(t.channelGrants, log, GrantOp))
    decreases |log|
  {
    if log != [] { TableByTable(t, log[..|log| - 1]); }
  }

  /** The user-global tables. */
  lemma SocialReplay(t: Tables, log: seq<ChangeRecord>)
    ensures var m := MapRun(t.users, log, UserOp); MapRun(m, log, UserOp) == m
    ensures var m := MapRun(t.userKeys, log, KeysOp); MapRun(m, log, KeysOp) == m
    ensures var v := VecRun(t.dms, log, DmKey, DmOp);
            SameElements(VecRun(v, log, DmKey, DmOp), v)
    ensures var v := VecRun(t.blocks, log, BlockKey, BlockOp);
            SameElements(VecRun(v, log, BlockKey, BlockOp), v)
    ensures var v := VecRun(t.friends, log, FriendKey, FriendOp);
            SameElements(VecRun(v, log, FriendKey, FriendOp), v)
  {
    MapReplay(t.users, log, UserOp);
    MapReplay(t.userKeys, log, KeysOp);
    VecReplay(t.dms, log, DmKey, DmOp);
    VecReplay(t.blocks, log, BlockKey, BlockOp);
    VecReplay(t.friends, log, FriendKey, FriendOp);
  }

  /** Server rosters and rulebooks, with the role cascade. */
  lemma CommunityReplay(t: Tables, log: seq<ChangeRecord>)
    ensures var m := MapRun(t.servers, log, ServerOp); MapRun(m, log, ServerOp) == m
    ensures var m := MapRun(t.memberships, log, MembershipOp); MapRun(m, log, MembershipOp) == m
    ensures var m := MapRun(t.invites, log, InviteOp); MapRun(m, log, InviteOp) == m
    ensures var m := MapRun(t.rules, log, RuleOp); MapRun(m, log, RuleOp) == m
    ensures var m := MapRun(t.roles, log, RoleOp); MapRun(m, log, RoleOp) == m
    ensures var v := VecRun(t.roleAssignments, log, AssignmentKey, AssignmentOp);
            SameElements(VecRun(v, log, AssignmentKey, AssignmentOp), v)
  {
    MapReplay(t.servers, log, ServerOp);
    MapReplay(t.memberships, log, MembershipOp);
    MapReplay(t.invites, log, InviteOp);
    MapReplay(t.rules, log, RuleOp);
    MapReplay(t.roles, log, RoleOp);
    VecReplay(t.roleAssignments, log, AssignmentKey, AssignmentOp);
  }

  /** Chat, with the channel cascade. */
  lemma ChatReplay(t: Tables, log: seq<ChangeRecord>)
    ensures var m := MapRun(t.channels, log, ChannelOp); MapRun(m, log, ChannelOp) == m
    ensures var m := MapRun(t.messages, log, MessageOp); MapRun(m, log, MessageOp) == m
    ensures var v := VecRun(t.reactions, log, ReactionKey, ReactionOp);
            SameElements(VecRun(v, log, ReactionKey, ReactionOp), v)
    ensures var m := MapRun(t.channelGrants, log, GrantOp); MapRun(m, log, GrantOp) == m
  {
    MapReplay(t.channels, log, ChannelOp);
    MapReplay(t.messages, log, MessageOp);
    VecReplay(t.reactions, log, ReactionKey, ReactionOp);
    MapReplay(t.channelGrants, log, GrantOp);
  }

  /** Ballots and emoji. */
  lemma BallotReplay(t: Tables, log: seq<ChangeRecord>)
    ensures var m := MapRun(t.proposals, log, ProposalOp); MapRun(m, log, ProposalOp) == m
    ensures var v := VecRun(t.votes, log, VoteKey, VoteOp);
            SameElements(VecRun(v, log, VoteKey, VoteOp), v)
    ensures var m := MapRun(t.emojis, log, EmojiOp); MapRun(m, log, EmojiOp) == m
    ensures var v := VecRun(t.emojiVotes, log, EmojiVoteKey, EmojiVoteOp);
            SameElements(VecRun(v, log, EmojiVoteKey, EmojiVoteOp), v)
  {
    MapReplay(t.proposals, log, ProposalOp);
    VecReplay(t.votes, log, VoteKey, VoteOp);
    MapReplay(t.emojis, log, EmojiOp);
    VecReplay(t.emojiVotes, log, EmojiVoteKey, EmojiVoteOp);
  }

  /** For any replica and any log, applying the log twice leaves the rows applying it once leaves:
      last-writer tables, first-writer tables, both cascades and malformed rows together. */
  lemma ReplayIsIdempotent(t: Tables, log: seq<ChangeRecord>)
    ensures SameRows(ApplyAll(ApplyAll(t, log), log), ApplyAll(t, log))
  {
    TableByTable(t, log);
    TableByTable(ApplyAll(t, log), log);
    SocialReplay(t, log);
    CommunityReplay(t, log);
    ChatReplay(t, log);
    BallotReplay(t, log);
  }

  // --- the same rows stay the same rows ----------------------------------------------------------

  lemma VecCongruent<K(!new), V(!new)>(xs: seq<V>, ys: seq<V>, keyOf: V -> K, op: Op<K, V>)
    requires SameElements(xs, ys)
    requires op.Replace? || op.AddNew? ==> keyOf(op.value) == op.key
    ensures SameElements(VecStep(xs, keyOf, op), VecStep(ys, keyOf, op))
  {
    VecStepRel(xs, keyOf, op);
    VecStepRel(ys, keyOf, op);
    assert VecRel(xs, keyOf) == VecRel(ys, keyOf);
    forall x ensures x in VecStep(xs, keyOf, op) <==> x in VecStep(ys, keyOf, op) {
      assert x in VecStep(xs, keyOf, op) <==> (keyOf(x), x) in VecRel(VecStep(xs, keyOf, op), keyOf);
      assert x in VecStep(ys, keyOf, op) <==> (keyOf(x), x) in VecRel(VecStep(ys, keyOf, op), keyOf);
    }
  }

  lemma SameRowsTransitive(a: Tables, b: Tables, c: Tables)
    requires SameRows(a, b) && SameRows(b, c)
    ensures SameRows(a, c)
  {
  }

  lemma BallotsCongruent(a: Tables, b: Tables, rec: ChangeRecord)
    requires SameRows(a, b)
    ensures SameElements(VecStep(a.reactions, ReactionKey, ReactionOp(rec)),
                         VecStep(b.reactions, ReactionKey, ReactionOp(rec)))
    ensures SameElements(VecStep(a.votes, VoteKey, VoteOp(rec)), VecStep(b.votes, VoteKey, VoteOp(rec)))
    ensures SameElements(VecStep(a.emojiVotes, EmojiVoteKey, EmojiVoteOp(rec)),
                         VecStep(b.emojiVotes, EmojiVoteKey, EmojiVoteOp(rec)))
    ensures SameElements(VecStep(a.roleAssignments, AssignmentKey, AssignmentOp(rec)),
                         VecStep(b.roleAssignments, AssignmentKey, AssignmentOp(rec)))
  {
    VecCongruent(a.reactions, b.reactions, ReactionKey, ReactionOp(rec));
    VecCongruent(a.votes, b.votes, VoteKey, VoteOp(rec));
    VecCongruent(a.emojiVotes, b.emojiVotes, EmojiVoteKey, EmojiVoteOp(rec));
    VecCongruent(a.roleAssignments, b.roleAssignments, AssignmentKey, AssignmentOp(rec));
  }

  lemma SocialCongruent(a: Tables, b: Tables, rec: ChangeRecord)
    requires SameRows(a, b)
    ensures SameElements(VecStep(a.dms, DmKey, DmOp(rec)), VecStep(b.dms, DmKey, DmOp(rec)))
    ensures SameElements(VecStep(a.blocks, BlockKey, BlockOp(rec)), VecStep(b.blocks, BlockKey, BlockOp(rec)))
    ensures SameElements(VecStep(a.friends, FriendKey, FriendOp(rec)), VecStep(b.friends, FriendKey, FriendOp(rec)))
  {
    VecCongruent(a.dms, b.dms, DmKey, DmOp(rec));
    VecCongruent(a.blocks, b.blocks, BlockKey, BlockOp(rec));
    VecCongruent(a.friends, b.friends, FriendKey, FriendOp(rec));
  }

  lemma SameRowsStep(a: Tables, b: Tables, rec: ChangeRecord)
    requires SameRows(a, b)
    ensures SameRows(ApplyRecord(a, rec), ApplyRecord(b, rec))
  {
    BallotsCongruent(a, b, rec);
    SocialCongruent(a, b, rec);
  }

  lemma {:induction false} SameRowsRun(a: Tables, b: Tables, log: seq<ChangeRecord>)
    requires SameRows(a, b)
    ensures SameRows(ApplyAll(a, log), ApplyAll(b, log))
    decreases |log|
  {
    if log != [] {
      var front := log[..|log| - 1];
      SameRowsRun(a, b, front);
      SameRowsStep(ApplyAll(a, front), ApplyAll(b, front), log[|log| - 1]);
    }
  }

  /** Having applied the beginning of a feed changes nothing about applying it from the start. */
  lemma {:induction false} PrefixThenAll(t: Tables, kept: seq<ChangeRecord>, rest: seq<ChangeRecord>)
    ensures SameRows(ApplyAll(ApplyAll(t, kept), kept + rest), ApplyAll(t, kept + rest))
  {
    var once := ApplyAll(t, kept);
    ApplyAllConcat(once, kept, rest);
    ApplyAllConcat(t, kept, rest);
    ReplayIsIdempotent(t, kept);
    SameRowsRun(ApplyAll(once, kept), once, rest);
  }

  /** A replica that has applied a prefix of a feed, loses its cursor, and pulls the whole feed from an
      earlier position ends where one uninterrupted pull ends. */
  lemma {:induction false} RepullIsHarmless(t: Tables, done: seq<ChangeRecord>, again: seq<ChangeRecord>,
                                            rest: seq<ChangeRecord>)
    ensures SameRows(ApplyAll(ApplyAll(t, done + again), again + rest), ApplyAll(t, done + again + rest))
  {
    var mid := ApplyAll(t, done);
    assert ApplyAll(t, done + again) == ApplyAll(mid, again) by { ApplyAllConcat(t, done, again); }
    assert ApplyAll(t, done + again + rest) == ApplyAll(mid, again + rest) by {
      assert done + again + rest == done + (again + rest);
      ApplyAllConcat(t, done, again + rest);
    }
    PrefixThenAll(mid, again, rest);
  }

  // --- a log with some reactions left out ------------------------------------------------------------

  ghost predicate SameButReactions(a: Tables, b: Tables) {
    a == b.(reactions := a.reactions)
  }

  lemma ReactionsApart(t: Tables, rec: ChangeRecord)
    requires rec.entity.Reactions?
    ensures SameButReactions(ApplyRecord(t, rec), t)
  {
  }

  lemma ApartStep(a: Tables, b: Tables, rec: ChangeRecord)
    requires SameButReactions(a, b)
    ensures SameButReactions(ApplyRecord(a, rec), ApplyRecord(b, rec))
  {
  }

  lemma LeftOutStep(a: Tables, b: Tables, rec: ChangeRecord)
    requires SameButReactions(a, b) && rec.entity.Reactions?
    ensures SameButReactions(a, ApplyRecord(b, rec))
  {
    ReactionsApart(b, rec);
  }

  /** Leaving reaction records out of a log leaves every other table as the whole log does. */
  lemma {:induction false} WithoutReactions(t: Tables, log: seq<ChangeRecord>, keep: ChangeRecord -> bool)
    requires forall i :: 0 <= i < |log| && !keep(log[i]) ==> log[i].entity.Reactions?
    ensures SameButReactions(ApplyAll(t, Retain(log, keep)), ApplyAll(t, log))
    decreases |log|
  {
    if log != [] {
      var front, last := log[..|log| - 1], log[|log| - 1];
      assert forall i :: 0 <= i < |front| ==> front[i] == log[i];
      WithoutReactions(t, front, keep);
      assert log == front + [last];
      RetainOneMore(front, last, keep);
      if keep(last) {
        ApplyLast(t, Retain(front, keep), last);
        ApartStep(ApplyAll(t, Retain(front, keep)), ApplyAll(t, front), last);
      } else {
        assert Retain(log, keep) == Retain(front, keep);
        LeftOutStep(ApplyAll(t, Retain(front, keep)), ApplyAll(t, front), last);
      }
    }
  }

  /** Whether a reaction stands after a step depends on that reaction alone. */
  lemma ReactionStep(xs: seq<Reaction>, rec: ChangeRecord, x: Reaction)
    ensures var op := ReactionOp(rec);
            x in VecStep(xs, ReactionKey, op) <==>
              if op.AddNew? then x in xs || x == op.value
              else x in xs && !(op.DropKeys? && op.isDeadKey(ReactionKey(x)))
  {
  }
}
