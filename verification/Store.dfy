/** The in-memory store: nineteen tables changed in place, each local change appended to the outbox before
    or after the write it describes, and the replica side that writes without recording. */
module Store {
  import opened Domain
  import opened Replica
  import opened Keyed
  import opened Calls
  import opened Ids
  import RedoLog
  import ReplayGuard

  class MemoryStore {
    /** The struct of tables behind the store's lock. */
    var tables: Tables
    var outbox: seq<ChangeRecord>
    var nextOutbox: nat
    /** The node's id and how many ids of each kind it has handed out. */
    var counters: Counters
    var cursors: map<NodeId, nat>
    var nonces: map<(NodeId, string), Timestamp>

    constructor (node: NodeNumber)
      ensures State() == StoreState(EMPTY_TABLES, [], 0) && counters == Fresh(node)
      ensures cursors == map[] && nonces == map[]
    {
      tables, counters := EMPTY_TABLES, Fresh(node);
      outbox, nextOutbox, cursors, nonces := [], 0, map[], map[];
    }

    function State(): StoreState
      reads `tables, `outbox, `nextOutbox
    {
      StoreState(tables, outbox, nextOutbox)
    }

    /** Append one change to the outbox, numbered after the last. */
    method Record(op: ChangeOp, row: Row)
      modifies `outbox, `nextOutbox
      ensures nextOutbox == old(nextOutbox) + 1
      ensures outbox == old(outbox) + [RecordFor(nextOutbox, op, row)]
    {
      nextOutbox := nextOutbox + 1;
      outbox := outbox + [ChangeRecord(nextOutbox, EntityOf(row), op, ToPayload(row))];
    }

    // --- minting ids -------------------------------------------------------------------------

    method NextServerId() returns (id: ServerId)
      modifies `counters
      ensures counters == old(counters).(servers := old(counters).servers + 1) && id == counters.Server()
    {
      counters := counters.(servers := counters.servers + 1);
      id := ComposeId(counters.node, counters.servers);
    }

    method NextChannelId() returns (id: ChannelId)
      modifies `counters
      ensures counters == old(counters).(channels := old(counters).channels + 1) && id == counters.Channel()
    {
      counters := counters.(channels := counters.channels + 1);
      id := ComposeId(counters.node, counters.channels);
    }

    method NextMessageId() returns (id: MessageId)
      modifies `counters
      ensures counters == old(counters).(messages := old(counters).messages + 1) && id == counters.Message()
    {
      counters := counters.(messages := counters.messages + 1);
      id := ComposeId(counters.node, counters.messages);
    }

    method NextProposalId() returns (id: ProposalId)
      modifies `counters
      ensures counters == old(counters).(proposals := old(counters).proposals + 1) && id == counters.Proposal()
    {
      counters := counters.(proposals := counters.proposals + 1);
      id := ComposeId(counters.node, counters.proposals);
    }

    method NextRuleId() returns (id: RuleId)
      modifies `counters
      ensures counters == old(counters).(rules := old(counters).rules + 1) && id == counters.Rule()
    {
      counters := counters.(rules := counters.rules + 1);
      id := ComposeId(counters.node, counters.rules);
    }

    method NextDmId() returns (id: DmId)
      modifies `counters
      ensures counters == old(counters).(dms := old(counters).dms + 1) && id == counters.Dm()
    {
      counters := counters.(dms := counters.dms + 1);
      id := ComposeId(counters.node, counters.dms);
    }

    method NextRoleId() returns (id: RoleId)
      modifies `counters
      ensures counters == old(counters).(roles := old(counters).roles + 1) && id == counters.Role()
    {
      counters := counters.(roles := counters.roles + 1);
      id := ComposeId(counters.node, counters.roles);
    }

    // --- local writes ------------------------------------------------------------------------

    method PutUser(user: User)
      modifies `tables, `outbox, `nextOutbox
      ensures State() == Exec(old(State()), Call.PutUser(user))
    {
      Record(Upsert, UserRow(user));
      tables := tables.(users := tables.users[user.id := user]);
    }

    method PutServer(server: Server)
      modifies `tables, `outbox, `nextOutbox
      ensures State() == Exec(old(State()), Call.PutServer(server))
    {
      Record(Upsert, ServerRow(server));
      tables := tables.(servers := tables.servers[server.id := server]);
    }

    method PutMembership(membership: Membership)
      modifies `tables, `outbox, `nextOutbox
      ensures State() == Exec(old(State()), Call.PutMembership(membership))
    {
      Record(Upsert, MembershipRow(membership));
      tables := tables.(memberships := tables.memberships[(membership.userId, membership.serverId) := membership]);
    }

    method PutChannel(channel: Channel)
      modifies `tables, `outbox, `nextOutbox
      ensures State() == Exec(old(State()), Call.PutChannel(channel))
    {
      Record(Upsert, ChannelRow(channel));
      tables := tables.(channels := tables.channels[channel.id := channel]);
    }

    method RemoveChannel(id: ChannelId) returns (found: bool)
      modifies `tables, `outbox, `nextOutbox
      ensures State() == Exec(old(State()), Call.RemoveChannel(id))
      ensures found <==> id in old(tables).channels
    {
      if id !in tables.channels { return false; }
      var removed := tables.channels[id];
      tables := tables.(channels := tables.channels - {id});
      Record(Delete, ChannelRow(removed));
      tables := tables.(messages := WithoutChannel(tables.messages, id));
      return true;
    }

    method PutMessage(message: Message)
      modifies `tables, `outbox, `nextOutbox
      ensures State() == Exec(old(State()), Call.PutMessage(message))
    {
      Record(Upsert, MessageRow(message));
      tables := tables.(messages := tables.messages[message.id := message]);
    }

    method AddReaction(reaction: Reaction) returns (added: bool)
      modifies `tables, `outbox, `nextOutbox
      ensures State() == Exec(old(State()), Call.AddReaction(reaction))
      ensures added <==> !HasReaction(old(tables).reactions, reaction)
    {
      if HasReaction(tables.reactions, reaction) { return false; }
      Record(Upsert, ReactionRow(reaction));
      tables := tables.(reactions := tables.reactions + [reaction]);
      return true;
    }

    method RemoveReaction(message: MessageId, user: UserId, emoji: string) returns (removed: bool)
      modifies `tables, `outbox, `nextOutbox
      ensures State() == Exec(old(State()), Call.RemoveReaction(message, user, emoji))
      ensures removed <==> HasReaction(old(tables).reactions, Reaction(message, user, emoji))
    {
      var before := |tables.reactions|;
      ShorterIffPresent(tables.reactions, Reaction(message, user, emoji));
      tables := tables.(reactions := WithoutReaction(tables.reactions, message, user, emoji));
      removed := |tables.reactions| != before;
      if removed {
        Record(Delete, ReactionRow(Reaction(message, user, emoji)));
      }
    }

    method PutProposal(proposal: Proposal)
      modifies `tables, `outbox, `nextOutbox
      ensures State() == Exec(old(State()), Call.PutProposal(proposal))
    {
      Record(Upsert, ProposalRow(proposal));
      tables := tables.(proposals := tables.proposals[proposal.id := proposal]);
    }

    method UpsertVote(vote: Vote)
      modifies `tables, `outbox, `nextOutbox
      ensures State() == Exec(old(State()), Call.UpsertVote(vote))
    {
      tables := tables.(votes := WithoutVote(tables.votes, vote.proposalId, vote.voter));
      Record(Upsert, VoteRow(vote));
      tables := tables.(votes := tables.votes + [vote]);
    }

    method PutEmoji(emoji: Emoji)
      modifies `tables, `outbox, `nextOutbox
      ensures State() == Exec(old(State()), Call.PutEmoji(emoji))
    {
      Record(Upsert, EmojiRow(emoji));
      tables := tables.(emojis := tables.emojis[emoji.id := emoji]);
    }

    method UpsertEmojiVote(vote: EmojiVote)
      modifies `tables, `outbox, `nextOutbox
      ensures State() == Exec(old(State()), Call.UpsertEmojiVote(vote))
    {
      tables := tables.(emojiVotes := WithoutEmojiVote(tables.emojiVotes, vote.emojiId, vote.voter));
      Record(Upsert, EmojiVoteRow(vote));
      tables := tables.(emojiVotes := tables.emojiVotes + [vote]);
    }

    method PutRule(rule: Rule)
      modifies `tables, `outbox, `nextOutbox
      ensures State() == Exec(old(State()), Call.PutRule(rule))
    {
      Record(Upsert, RuleRow(rule));
      tables := tables.(rules := tables.rules[rule.id := rule]);
    }

    method RemoveRule(id: RuleId) returns (found: bool)
      modifies `tables, `outbox, `nextOutbox
      ensures State() == Exec(old(State()), Call.RemoveRule(id))
      ensures found <==> id in old(tables).rules
    {
      if id !in tables.rules {
        assert tables.rules - {id} == tables.rules;
        return false;
      }
      var removed := tables.rules[id];
      tables := tables.(rules := tables.rules - {id});
      Record(Delete, RuleRow(removed));
      return true;
    }

    method PutKeys(keys: UserKeys)
      modifies `tables, `outbox, `nextOutbox
      ensures State() == Exec(old(State()), Call.PutKeys(keys))
    {
      Record(Upsert, KeysRow(keys));
      tables := tables.(userKeys := tables.userKeys[keys.userId := keys]);
    }

    method PutGrant(grant: ChannelKeyGrant)
      modifies `tables, `outbox, `nextOutbox
      ensures State() == Exec(old(State()), Call.PutGrant(grant))
    {
      Record(Upsert, GrantRow(grant));
      tables := tables.(channelGrants := tables.channelGrants[(grant.channelId, grant.epoch, grant.member) := grant]);
    }

    method InsertDm(dm: DmMessage)
      modifies `tables, `outbox, `nextOutbox
      ensures State() == Exec(old(State()), Call.InsertDm(dm))
    {
      Record(Upsert, DmRow(dm));
      tables := tables.(dms := tables.dms + [dm]);
    }

    method AddBlock(block: Block) returns (added: bool)
      modifies `tables, `outbox, `nextOutbox
      ensures State() == Exec(old(State()), Call.AddBlock(block))
      ensures added <==> !HasBlock(old(tables).blocks, block.blocker, block.blocked)
    {
      if HasBlock(tables.blocks, block.blocker, block.blocked) { return false; }
      Record(Upsert, BlockRow(block));
      tables := tables.(blocks := tables.blocks + [block]);
      return true;
    }

    method PutInvite(invite: Invite)
      modifies `tables, `outbox, `nextOutbox
      ensures State() == Exec(old(State()), Call.PutInvite(invite))
    {
      Record(Upsert, InviteRow(invite));
      tables := tables.(invites := tables.invites[invite.codeHash := invite]);
    }

    method RevokeInvite(codeHash: string)
      modifies `tables, `outbox, `nextOutbox
      ensures State() == Exec(old(State()), Call.RevokeInvite(codeHash))
    {
      if codeHash in tables.invites {
        var invite := tables.invites[codeHash].(isRevoked := true);
        Record(Upsert, InviteRow(invite));
        tables := tables.(invites := tables.invites[invite.codeHash := invite]);
      }
    }

    method AddFriend(friendship: Friendship) returns (added: bool)
      modifies `tables, `outbox, `nextOutbox
      ensures State() == Exec(old(State()), Call.AddFriend(friendship))
      ensures added <==> !HasFriend(old(tables).friends, friendship.requester, friendship.addressee)
    {
      if HasFriend(tables.friends, friendship.requester, friendship.addressee) { return false; }
      Record(Upsert, FriendRow(friendship));
      tables := tables.(friends := tables.friends + [friendship]);
      return true;
    }

    method UpdateFriend(friendship: Friendship)
      modifies `tables, `outbox, `nextOutbox
      ensures State() == Exec(old(State()), Call.UpdateFriend(friendship))
    {
      var i := 0;
      while i < |tables.friends| && !tables.friends[i].IsBetween(friendship.requester, friendship.addressee)
        invariant 0 <= i <= |tables.friends|
        invariant forall j :: 0 <= j < i ==> !tables.friends[j].IsBetween(friendship.requester, friendship.addressee)
      {
        i := i + 1;
      }
      if i < |tables.friends| {
        FirstReplaced(tables.friends, friendship, i);
        tables := tables.(friends := tables.friends[i := friendship]);
        Record(Upsert, FriendRow(friendship));
      } else {
        RedoLog.NothingReplaced(tables.friends, friendship);
      }
    }

    method PutRole(role: Role)
      modifies `tables, `outbox, `nextOutbox
      ensures State() == Exec(old(State()), Call.PutRole(role))
    {
      Record(Upsert, RoleRow(role));
      tables := tables.(roles := tables.roles[role.id := role]);
    }

    method RemoveRole(id: RoleId) returns (found: bool)
      modifies `tables, `outbox, `nextOutbox
      ensures State() == Exec(old(State()), Call.RemoveRole(id))
      ensures found <==> id in old(tables).roles
    {
      if id !in tables.roles { return false; }
      var removed := tables.roles[id];
      tables := tables.(roles := tables.roles - {id});
      Record(Delete, RoleRow(removed));
      tables := tables.(roleAssignments := WithoutRole(tables.roleAssignments, id));
      return true;
    }

    method Assign(assignment: RoleAssignment) returns (added: bool)
      modifies `tables, `outbox, `nextOutbox
      ensures State() == Exec(old(State()), Call.Assign(assignment))
      ensures added <==> !HasAssignment(old(tables).roleAssignments, assignment.roleId, assignment.user)
    {
      if HasAssignment(tables.roleAssignments, assignment.roleId, assignment.user) { return false; }
      Record(Upsert, AssignmentRow(assignment));
      tables := tables.(roleAssignments := tables.roleAssignments + [assignment]);
      return true;
    }

    method Unassign(role: RoleId, user: UserId) returns (found: bool)
      modifies `tables, `outbox, `nextOutbox
      ensures State() == Exec(old(State()), Call.Unassign(role, user))
      ensures found <==> HasAssignment(old(tables).roleAssignments, role, user)
    {
      if !HasAssignment(tables.roleAssignments, role, user) {
        RetainAll(tables.roleAssignments, (a: RoleAssignment) => !(a.roleId == role && a.user == user));
        return false;
      }
      var assignment := FindAssignment(tables.roleAssignments, role, user);
      tables := tables.(roleAssignments := WithoutAssignment(tables.roleAssignments, role, user));
      Record(Delete, AssignmentRow(assignment));
      return true;
    }

    // --- the replica side --------------------------------------------------------------------

    /** Accounts and the social graph. */
    method ApplyAccount(rec: ChangeRecord) returns (ok: bool)
      requires rec.entity.Users? || rec.entity.UserKeysEntity? || rec.entity.Dms? || rec.entity.Blocks?
            || rec.entity.Friendships?
      modifies `tables
      ensures ok <==> !IsMalformed(rec)
      ensures tables == ApplyRecord(old(tables), rec)
    {
      ok := true;
      match (rec.entity, rec.op, Parsed(rec))
      case (Users, Upsert, Some(UserRow(user))) => tables := tables.(users := tables.users[user.id := user]);
      case (Users, Delete, Some(UserRow(user))) => tables := tables.(users := tables.users - {user.id});
      case (UserKeysEntity, Upsert, Some(KeysRow(keys))) =>
        tables := tables.(userKeys := tables.userKeys[keys.userId := keys]);
      case (Dms, Upsert, Some(DmRow(dm))) =>
        if !HasDm(tables.dms, dm.id) { tables := tables.(dms := tables.dms + [dm]); }
      case (Blocks, Upsert, Some(BlockRow(block))) =>
        if !HasBlock(tables.blocks, block.blocker, block.blocked) {
          tables := tables.(blocks := tables.blocks + [block]);
        }
      case (Friendships, Upsert, Some(FriendRow(friendship))) =>
        RedoLog.FriendReplaced(tables.friends, friendship);
        tables := tables.(friends :=
          WithoutFriend(tables.friends, friendship.requester, friendship.addressee) + [friendship]);
      case _ => ok := false;
    }

    /** Servers, rosters and invites. */
    method ApplyCommunity(rec: ChangeRecord) returns (ok: bool)
      requires rec.entity.Servers? || rec.entity.Memberships? || rec.entity.Invites?
      modifies `tables
      ensures ok <==> !IsMalformed(rec)
      ensures tables == ApplyRecord(old(tables), rec)
    {
      ok := true;
      match (rec.entity, rec.op, Parsed(rec))
      case (Servers, Upsert, Some(ServerRow(server))) =>
        tables := tables.(servers := tables.servers[server.id := server]);
      case (Servers, Delete, Some(ServerRow(server))) => tables := tables.(servers := tables.servers - {server.id});
      case (Memberships, Upsert, Some(MembershipRow(membership))) =>
        tables := tables.(memberships := tables.memberships[(membership.userId, membership.serverId) := membership]);
      case (Memberships, Delete, Some(MembershipRow(membership))) =>
        tables := tables.(memberships := tables.memberships - {(membership.userId, membership.serverId)});
      case (Invites, Upsert, Some(InviteRow(invite))) =>
        tables := tables.(invites := tables.invites[invite.codeHash := invite]);
      case _ => ok := false;
    }

    /** Rules and roles, with the cascade to their assignments. */
    method ApplyRole(rec: ChangeRecord) returns (ok: bool)
      requires rec.entity.Rules? || rec.entity.Roles? || rec.entity.RoleAssignments?
      modifies `tables
      ensures ok <==> !IsMalformed(rec)
      ensures tables == ApplyRecord(old(tables), rec)
    {
      ok := true;
      match (rec.entity, rec.op, Parsed(rec))
      case (Rules, Upsert, Some(RuleRow(rule))) => tables := tables.(rules := tables.rules[rule.id := rule]);
      case (Rules, Delete, Some(RuleRow(rule))) => tables := tables.(rules := tables.rules - {rule.id});
      case (Roles, Upsert, Some(RoleRow(role))) => tables := tables.(roles := tables.roles[role.id := role]);
      case (Roles, Delete, Some(RoleRow(role))) =>
        tables := tables.(roles := tables.roles - {role.id});
        RedoLog.RoleDrop(tables.roleAssignments, role.id, AssignmentOp(rec));
        tables := tables.(roleAssignments := WithoutRole(tables.roleAssignments, role.id));
      case (RoleAssignments, Upsert, Some(AssignmentRow(a))) =>
        if !HasAssignment(tables.roleAssignments, a.roleId, a.user) {
          tables := tables.(roleAssignments := tables.roleAssignments + [a]);
        }
      case (RoleAssignments, Delete, Some(AssignmentRow(a))) =>
        RedoLog.AssignmentDrop(tables.roleAssignments, a.roleId, a.user, AssignmentOp(rec));
        tables := tables.(roleAssignments := WithoutAssignment(tables.roleAssignments, a.roleId, a.user));
      case _ => ok := false;
    }

    /** Channels, with the cascade to their messages, and their key grants. */
    method ApplyChat(rec: ChangeRecord) returns (ok: bool)
      requires rec.entity.Channels? || rec.entity.ChannelGrants?
      modifies `tables
      ensures ok <==> !IsMalformed(rec)
      ensures tables == ApplyRecord(old(tables), rec)
    {
      ok := true;
      match (rec.entity, rec.op, Parsed(rec))
      case (Channels, Upsert, Some(ChannelRow(channel))) =>
        tables := tables.(channels := tables.channels[channel.id := channel]);
      case (Channels, Delete, Some(ChannelRow(channel))) =>
        tables := tables.(channels := tables.channels - {channel.id});
        tables := tables.(messages :=
          map id | id in tables.messages && tables.messages[id].channelId != channel.id :: tables.messages[id]);
      case (ChannelGrants, Upsert, Some(GrantRow(grant))) =>
        tables := tables.(channelGrants := tables.channelGrants[(grant.channelId, grant.epoch, grant.member) := grant]);
      case _ => ok := false;
    }

    /** Messages and reactions. A reaction delete is read field by field, so a missing field matches no reaction and
        nothing fails. */
    method ApplyMessage(rec: ChangeRecord) returns (ok: bool)
      requires rec.entity.Messages? || rec.entity.Reactions?
      modifies `tables
      ensures ok <==> !IsMalformed(rec)
      ensures tables == ApplyRecord(old(tables), rec)
    {
      ok := true;
      match (rec.entity, rec.op, Parsed(rec))
      case (Messages, Upsert, Some(MessageRow(message))) =>
        tables := tables.(messages := tables.messages[message.id := message]);
      case (Messages, Delete, Some(MessageRow(message))) =>
        tables := tables.(messages := tables.messages - {message.id});
      case (Reactions, Upsert, Some(ReactionRow(r))) =>
        if !HasReaction(tables.reactions, r) { tables := tables.(reactions := tables.reactions + [r]); }
      case (Reactions, Delete, _) =>
        var p := rec.payload;
        NamedDrop(tables.reactions, rec);
        tables := tables.(reactions := WithoutNamed(tables.reactions, p));
      case _ => ok := false;
    }

    /** Ballots and emoji. */
    method ApplyBallot(rec: ChangeRecord) returns (ok: bool)
      requires rec.entity.Proposals? || rec.entity.Votes? || rec.entity.Emojis? || rec.entity.EmojiVotes?
      modifies `tables
      ensures ok <==> !IsMalformed(rec)
      ensures tables == ApplyRecord(old(tables), rec)
    {
      ok := true;
      match (rec.entity, rec.op, Parsed(rec))
      case (Proposals, Upsert, Some(ProposalRow(proposal))) =>
        tables := tables.(proposals := tables.proposals[proposal.id := proposal]);
      case (Proposals, Delete, Some(ProposalRow(proposal))) =>
        tables := tables.(proposals := tables.proposals - {proposal.id});
      case (Votes, Upsert, Some(VoteRow(v))) =>
        RedoLog.VoteStep(tables.votes, v);
        tables := tables.(votes := WithoutVote(tables.votes, v.proposalId, v.voter) + [v]);
      case (Emojis, Upsert, Some(EmojiRow(emoji))) => tables := tables.(emojis := tables.emojis[emoji.id := emoji]);
      case (EmojiVotes, Upsert, Some(EmojiVoteRow(v))) =>
        RedoLog.EmojiVoteStep(tables.emojiVotes, v);
        tables := tables.(emojiVotes := WithoutEmojiVote(tables.emojiVotes, v.emojiId, v.voter) + [v]);
      case _ => ok := false;
    }

    /** Apply one authorized peer change without echoing it into the outbox. A payload that does not
        deserialize, or an unknown entity, changes nothing and is reported. */
    method ApplyIncoming(rec: ChangeRecord) returns (ok: bool)
      modifies `tables
      ensures ok <==> !IsMalformed(rec)
      ensures tables == ApplyRecord(old(tables), rec)
    {
      match rec.entity
      case Users => ok := ApplyAccount(rec);
      case UserKeysEntity => ok := ApplyAccount(rec);
      case Dms => ok := ApplyAccount(rec);
      case Blocks => ok := ApplyAccount(rec);
      case Friendships => ok := ApplyAccount(rec);
      case Servers => ok := ApplyCommunity(rec);
      case Memberships => ok := ApplyCommunity(rec);
      case Invites => ok := ApplyCommunity(rec);
      case Rules => ok := ApplyRole(rec);
      case Roles => ok := ApplyRole(rec);
      case RoleAssignments => ok := ApplyRole(rec);
      case Channels => ok := ApplyChat(rec);
      case Messages => ok := ApplyMessage(rec);
      case Reactions => ok := ApplyMessage(rec);
      case ChannelGrants => ok := ApplyChat(rec);
      case Proposals => ok := ApplyBallot(rec);
      case Votes => ok := ApplyBallot(rec);
      case Emojis => ok := ApplyBallot(rec);
      case EmojiVotes => ok := ApplyBallot(rec);
      case Other(_) => ok := false;
    }

    // --- cursors, the feed's source and the durable nonce log ----------------------------------

    function Cursor(peer: NodeId): nat
      reads `cursors
    {
      if peer in cursors then cursors[peer] else 0
    }

    /** A lower sequence number never moves the cursor back. */
    method AdvanceCursor(peer: NodeId, seqNo: nat)
      modifies `cursors
      ensures Cursor(peer) == if seqNo > old(Cursor(peer)) then seqNo else old(Cursor(peer))
      ensures forall other :: other != peer ==> Cursor(other) == old(Cursor(other))
    {
      var slot := Cursor(peer);
      cursors := cursors[peer := if slot >= seqNo then slot else seqNo];
    }

    /** The page of the outbox after a cursor: it holds only later records, in outbox order, at most `limit` of them,
        and is only cut short of a later record by the limit. */
    method ChangesSince(afterSeq: nat, limit: nat) returns (page: seq<ChangeRecord>)
      ensures page == Page(outbox, afterSeq, limit)
      ensures |page| <= limit && forall r :: r in page ==> r in outbox && r.seqNo > afterSeq
      ensures |page| < limit ==> forall r :: r in outbox && r.seqNo > afterSeq ==> r in page
      ensures page <= LaterIn(outbox, afterSeq)
    {
      var records := outbox;
      page := [];
      var i := 0;
      while i < |records| && |page| < limit
        invariant 0 <= i <= |records| && |page| <= limit
        invariant page == LaterIn(records[..i], afterSeq)
      {
        OneMoreLater(records, i, afterSeq);
        if records[i].seqNo > afterSeq {
          page := page + [records[i]];
        }
        i := i + 1;
      }
      PageIsFront(records, afterSeq, limit, page, i);
    }

    /** Prune what has expired, then record; true when the pair was not standing. */
    method RememberNonce(node: NodeId, nonce: string, now: Timestamp, expiryAt: Timestamp) returns (isNew: bool)
      modifies `nonces
      ensures isNew <==> (node, nonce) !in ReplayGuard.Live(old(nonces), now)
      ensures nonces == ReplayGuard.Live(old(nonces), now)[(node, nonce) := expiryAt]
    {
      nonces := map k | k in nonces && nonces[k] > now :: nonces[k];
      isNew := (node, nonce) !in nonces;
      nonces := nonces[(node, nonce) := expiryAt];
    }
  }

  predicate NamesReaction(p: Payload, r: Reaction) {
    && FMessageId in p.numbers && r.messageId == p.numbers[FMessageId]
    && FUser in p.numbers && r.user == p.numbers[FUser]
    && Some(r.emoji) == p.emoji
  }

  function WithoutNamed(xs: seq<Reaction>, p: Payload): seq<Reaction> {
    Retain(xs, (r: Reaction) => !NamesReaction(p, r))
  }

  lemma NamedDrop(xs: seq<Reaction>, rec: ChangeRecord)
    requires rec.entity.Reactions? && rec.op.Delete?
    ensures VecStep(xs, ReactionKey, ReactionOp(rec)) == WithoutNamed(xs, rec.payload)
  {
    var p := rec.payload;
    if HasReactionFields(p) {
      RedoLog.VecDrop(xs, ReactionKey, ReactionOp(rec), (r: Reaction) => !NamesReaction(p, r));
    } else {
      RetainAll(xs, (r: Reaction) => !NamesReaction(p, r));
    }
  }

  function LaterIn(records: seq<ChangeRecord>, afterSeq: nat): seq<ChangeRecord> {
    Retain(records, (r: ChangeRecord) => r.seqNo > afterSeq)
  }

  /** Filter then take. */
  function Page(outbox: seq<ChangeRecord>, afterSeq: nat, limit: nat): seq<ChangeRecord> {
    var later := LaterIn(outbox, afterSeq);
    if |later| <= limit then later else later[..limit]
  }

  lemma OneMoreLater(records: seq<ChangeRecord>, i: nat, afterSeq: nat)
    requires i < |records|
    ensures LaterIn(records[..i + 1], afterSeq)
         == LaterIn(records[..i], afterSeq) + if records[i].seqNo > afterSeq then [records[i]] else []
  {
    assert records[..i + 1] == records[..i] + [records[i]];
    RetainOneMore(records[..i], records[i], (r: ChangeRecord) => r.seqNo > afterSeq);
  }

  lemma PageIsFront(outbox: seq<ChangeRecord>, afterSeq: nat, limit: nat, page: seq<ChangeRecord>, i: nat)
    requires i <= |outbox| && |page| <= limit && (i == |outbox| || |page| == limit)
    requires page == LaterIn(outbox[..i], afterSeq)
    ensures page == Page(outbox, afterSeq, limit) && page <= LaterIn(outbox, afterSeq)
    ensures |page| < limit ==> page == LaterIn(outbox, afterSeq)
  {
    assert outbox == outbox[..i] + outbox[i..];
    RetainConcat(outbox[..i], outbox[i..], (r: ChangeRecord) => r.seqNo > afterSeq);
    if i == |outbox| { assert outbox[i..] == []; }
  }

  /** `remove` reads off the lengths whether anything went. */
  lemma {:induction false} ShorterIffPresent(xs: seq<Reaction>, r: Reaction)
    ensures |WithoutReaction(xs, r.messageId, r.user, r.emoji)| <= |xs|
    ensures |WithoutReaction(xs, r.messageId, r.user, r.emoji)| != |xs| <==> HasReaction(xs, r)
  {
    if xs != [] {
      var rest := xs[1..];
      ShorterIffPresent(rest, r);
      assert forall i | 0 <= i < |rest| :: rest[i] == xs[i + 1];
      if HasReaction(rest, r) {
        var i :| 0 <= i < |rest| && rest[i].messageId == r.messageId && rest[i].user == r.user
            && rest[i].emoji == r.emoji;
        assert xs[i + 1] == rest[i];
      }
    }
  }

  lemma {:induction false} FirstReplaced(xs: seq<Friendship>, f: Friendship, i: nat)
    requires i < |xs| && xs[i].IsBetween(f.requester, f.addressee)
    requires forall j :: 0 <= j < i ==> !xs[j].IsBetween(f.requester, f.addressee)
    ensures ReplaceFriend(xs, f) == xs[i := f]
  {
    if i > 0 {
      assert forall j | 0 <= j < |xs[1..]| :: xs[1..][j] == xs[j + 1];
      FirstReplaced(xs[1..], f, i - 1);
      assert xs[i := f] == [xs[0]] + xs[1..][i - 1 := f];
    }
  }
}
