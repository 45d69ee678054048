/** The replicated tables of one node, the change records its outbox holds, and what one change does to
    every table. Keyed tables are hash maps in the program, the others vectors. The program's one large
    match over entity and operation is `Store.MemoryStore.ApplyIncoming`; here the same changes are read
    table by table, and that method is proved to agree. */
module Replica {
  import opened Domain
  import opened Keyed

  datatype Tables = Tables(
    users: map<UserId, User>,
    servers: map<ServerId, Server>,
    memberships: map<(UserId, ServerId), Membership>,
    channels: map<ChannelId, Channel>,
    messages: map<MessageId, Message>,
    reactions: seq<Reaction>,
    proposals: map<ProposalId, Proposal>,
    votes: seq<Vote>,
    emojis: map<EmojiId, Emoji>,
    emojiVotes: seq<EmojiVote>,
    rules: map<RuleId, Rule>,
    dms: seq<DmMessage>,
    blocks: seq<Block>,
    friends: seq<Friendship>,
    roles: map<RoleId, Role>,
    roleAssignments: seq<RoleAssignment>,
    invites: map<string, Invite>,
    userKeys: map<UserId, UserKeys>,
    channelGrants: map<(ChannelId, nat, UserId), ChannelKeyGrant>)

  const EMPTY_TABLES := Tables(map[], map[], map[], map[], map[], [], map[], [], map[], [],
                               map[], [], [], [], map[], [], map[], map[], map[])

  /** One row of any replicated table. */
  datatype Row =
    | UserRow(user: User)
    | ServerRow(server: Server)
    | MembershipRow(membership: Membership)
    | ChannelRow(channel: Channel)
    | MessageRow(message: Message)
    | ReactionRow(reaction: Reaction)
    | ProposalRow(proposal: Proposal)
    | VoteRow(vote: Vote)
    | EmojiRow(emoji: Emoji)
    | EmojiVoteRow(emojiVote: EmojiVote)
    | RuleRow(rule: Rule)
    | DmRow(dm: DmMessage)
    | BlockRow(block: Block)
    | FriendRow(friendship: Friendship)
    | RoleRow(role: Role)
    | AssignmentRow(assignment: RoleAssignment)
    | InviteRow(invite: Invite)
    | KeysRow(keys: UserKeys)
    | GrantRow(grant: ChannelKeyGrant)

  /** The entity string of a change; `Other` stands for every string the replica does not know. */
  datatype Entity =
    | Users | Servers | Memberships | Channels | Messages | Reactions | Proposals | Votes | Emojis | EmojiVotes
    | Rules | Dms | Blocks | Friendships | Roles | RoleAssignments | Invites | UserKeysEntity | ChannelGrants
    | Other(name: string)

  datatype ChangeOp = Upsert | Delete

  /** The scalar fields of a JSON payload that classification and the reaction delete read by name. */
  datatype Field = FId | FServerId | FProposalId | FMessageId | FUserId | FUser | FSender | FRequester | FBlocker

  /** A JSON payload, as far as anything downstream can tell: the row it deserializes to under its
      entity's type (`None` when it is malformed), and the fields a by-name lookup finds. */
  datatype Payload = Payload(row: Option<Row>, numbers: map<Field, nat>, emoji: Option<string>)

  datatype ChangeRecord = ChangeRecord(seqNo: nat, entity: Entity, op: ChangeOp, payload: Payload)

  function EntityOf(r: Row): Entity {
    match r
    case UserRow(_) => Users
    case ServerRow(_) => Servers
    case MembershipRow(_) => Memberships
    case ChannelRow(_) => Channels
    case MessageRow(_) => Messages
    case ReactionRow(_) => Reactions
    case ProposalRow(_) => Proposals
    case VoteRow(_) => Votes
    case EmojiRow(_) => Emojis
    case EmojiVoteRow(_) => EmojiVotes
    case RuleRow(_) => Rules
    case DmRow(_) => Dms
    case BlockRow(_) => Blocks
    case FriendRow(_) => Friendships
    case RoleRow(_) => Roles
    case AssignmentRow(_) => RoleAssignments
    case InviteRow(_) => Invites
    case KeysRow(_) => UserKeysEntity
    case GrantRow(_) => ChannelGrants
  }

  /** The named fields serialization writes, restricted to those read back by name. */
  function FieldsOf(r: Row): map<Field, nat> {
    match r
    case UserRow(u) => map[FId := u.id]
    case ServerRow(s) => map[FId := s.id]
    case MembershipRow(m) => map[FUserId := m.userId, FServerId := m.serverId]
    case ChannelRow(c) => map[FId := c.id, FServerId := c.serverId]
    case MessageRow(m) => map[FId := m.id, FServerId := m.serverId]
    case ReactionRow(x) => map[FMessageId := x.messageId, FUser := x.user]
    case ProposalRow(p) => map[FId := p.id, FServerId := p.serverId]
    case VoteRow(v) => map[FProposalId := v.proposalId]
    case EmojiRow(e) => map[FId := e.id, FServerId := e.serverId]
    case EmojiVoteRow(v) => map[FServerId := v.serverId]
    case RuleRow(x) => map[FId := x.id, FServerId := x.serverId]
    case DmRow(d) => map[FId := d.id, FSender := d.sender]
    case BlockRow(b) => map[FBlocker := b.blocker]
    case FriendRow(f) => map[FRequester := f.requester]
    case RoleRow(x) => map[FId := x.id, FServerId := x.serverId]
    case AssignmentRow(a) => map[FServerId := a.serverId, FUser := a.user]
    case InviteRow(i) => map[FServerId := i.serverId]
    case KeysRow(k) => map[FUserId := k.userId]
    case GrantRow(g) => map[FServerId := g.serverId]
  }

  /** `to_payload`: serialization of a row. The three-field object a reaction delete carries
      is the serialization of that reaction. */
  function ToPayload(r: Row): Payload {
    Payload(Some(r), FieldsOf(r), if r.ReactionRow? then Some(r.reaction.emoji) else None)
  }

  // --- what a change means to each table ---------------------------------------------------

  /** The row a change carries, when it deserializes under its entity's type. */
  function Parsed(rec: ChangeRecord): Option<Row> {
    if rec.payload.row.Some? && EntityOf(rec.payload.row.value) == rec.entity then rec.payload.row else None
  }

  predicate IsDeletable(e: Entity) {
    e.Users? || e.Servers? || e.Memberships? || e.Channels? || e.Messages? || e.Proposals? || e.Rules? || e.Roles?
    || e.RoleAssignments?
  }

  predicate HasReactionFields(p: Payload) {
    FMessageId in p.numbers && FUser in p.numbers && p.emoji.Some?
  }

  /** Whether applying a change reports an error: a payload that does not deserialize, or an entity and
      operation outside the replication set. A reaction delete is read by field name and never fails. */
  predicate IsMalformed(rec: ChangeRecord) {
    !(rec.entity.Reactions? && rec.op.Delete?)
    && (Parsed(rec).None? || (rec.op.Delete? && !IsDeletable(rec.entity)))
  }

  function PutOrDrop<K(==), V>(op: ChangeOp, k: K, v: V): Op<K, V> {
    if op.Upsert? then Replace(k, v) else DropKeys((x: K) => x == k)
  }

  function PutOnly<K, V>(op: ChangeOp, k: K, v: V): Op<K, V> {
    if op.Upsert? then Replace(k, v) else Skip
  }

  function AddOnly<K, V>(op: ChangeOp, k: K, v: V): Op<K, V> {
    if op.Upsert? then AddNew(k, v) else Skip
  }

  function UserOp(rec: ChangeRecord): Op<UserId, User> {
    match Parsed(rec)
    case Some(UserRow(u)) => PutOrDrop(rec.op, u.id, u)
    case _ => Skip
  }

  function ServerOp(rec: ChangeRecord): Op<ServerId, Server> {
    match Parsed(rec)
    case Some(ServerRow(s)) => PutOrDrop(rec.op, s.id, s)
    case _ => Skip
  }

  function MembershipOp(rec: ChangeRecord): Op<(UserId, ServerId), Membership> {
    match Parsed(rec)
    case Some(MembershipRow(m)) => PutOrDrop(rec.op, (m.userId, m.serverId), m)
    case _ => Skip
  }

  function ChannelOp(rec: ChangeRecord): Op<ChannelId, Channel> {
    match Parsed(rec)
    case Some(ChannelRow(c)) => PutOrDrop(rec.op, c.id, c)
    case _ => Skip
  }

  function MessageOp(rec: ChangeRecord): Op<MessageId, Message> {
    match Parsed(rec)
    case Some(MessageRow(m)) => PutOrDrop(rec.op, m.id, m)
    case Some(ChannelRow(c)) =>
      if rec.op.Delete? then DropValues((m: Message) => m.channelId == c.id) else Skip   // the cascade
    case _ => Skip
  }

  function ProposalOp(rec: ChangeRecord): Op<ProposalId, Proposal> {
    match Parsed(rec)
    case Some(ProposalRow(p)) => PutOrDrop(rec.op, p.id, p)
    case _ => Skip
  }

  function EmojiOp(rec: ChangeRecord): Op<EmojiId, Emoji> {
    match Parsed(rec)
    case Some(EmojiRow(e)) => PutOnly(rec.op, e.id, e)
    case _ => Skip
  }

  function RuleOp(rec: ChangeRecord): Op<RuleId, Rule> {
    match Parsed(rec)
    case Some(RuleRow(x)) => PutOrDrop(rec.op, x.id, x)
    case _ => Skip
  }

  function RoleOp(rec: ChangeRecord): Op<RoleId, Role> {
    match Parsed(rec)
    case Some(RoleRow(x)) => PutOrDrop(rec.op, x.id, x)
    case _ => Skip
  }

  function InviteOp(rec: ChangeRecord): Op<string, Invite> {
    match Parsed(rec)
    case Some(InviteRow(i)) => PutOnly(rec.op, i.codeHash, i)
    case _ => Skip
  }

  function KeysOp(rec: ChangeRecord): Op<UserId, UserKeys> {
    match Parsed(rec)
    case Some(KeysRow(x)) => PutOnly(rec.op, x.userId, x)
    case _ => Skip
  }

  function GrantOp(rec: ChangeRecord): Op<(ChannelId, nat, UserId), ChannelKeyGrant> {
    match Parsed(rec)
    case Some(GrantRow(g)) => PutOnly(rec.op, (g.channelId, g.epoch, g.member), g)
    case _ => Skip
  }

  /** A friendship is keyed by its unordered pair. */
  function PairOf(a: UserId, b: UserId): (UserId, UserId) {
    if a <= b then (a, b) else (b, a)
  }

  function ReactionKey(x: Reaction): (MessageId, UserId, string) { (x.messageId, x.user, x.emoji) }

  function ReactionOp(rec: ChangeRecord): Op<(MessageId, UserId, string), Reaction> {
    if rec.entity.Reactions? && rec.op.Delete? then
      if HasReactionFields(rec.payload) then
        var p := rec.payload;
        DropKeys((k: (MessageId, UserId, string)) => k == (p.numbers[FMessageId], p.numbers[FUser], p.emoji.value))
      else
        Skip
    else
      match Parsed(rec)
      case Some(ReactionRow(x)) => AddOnly(rec.op, ReactionKey(x), x)
      case _ => Skip
  }

  function VoteKey(x: Vote): (ProposalId, UserId) { (x.proposalId, x.voter) }

  function VoteOp(rec: ChangeRecord): Op<(ProposalId, UserId), Vote> {
    match Parsed(rec)
    case Some(VoteRow(x)) => PutOnly(rec.op, VoteKey(x), x)
    case _ => Skip
  }

  function EmojiVoteKey(x: EmojiVote): (EmojiId, UserId) { (x.emojiId, x.voter) }

  function EmojiVoteOp(rec: ChangeRecord): Op<(EmojiId, UserId), EmojiVote> {
    match Parsed(rec)
    case Some(EmojiVoteRow(x)) => PutOnly(rec.op, EmojiVoteKey(x), x)
    case _ => Skip
  }

  function DmKey(x: DmMessage): DmId { x.id }

  function DmOp(rec: ChangeRecord): Op<DmId, DmMessage> {
    match Parsed(rec)
    case Some(DmRow(x)) => AddOnly(rec.op, DmKey(x), x)
    case _ => Skip
  }

  function BlockKey(x: Block): (UserId, UserId) { (x.blocker, x.blocked) }

  function BlockOp(rec: ChangeRecord): Op<(UserId, UserId), Block> {
    match Parsed(rec)
    case Some(BlockRow(x)) => AddOnly(rec.op, BlockKey(x), x)
    case _ => Skip
  }

  function FriendKey(x: Friendship): (UserId, UserId) { PairOf(x.requester, x.addressee) }

  function FriendOp(rec: ChangeRecord): Op<(UserId, UserId), Friendship> {
    match Parsed(rec)
    case Some(FriendRow(x)) => PutOnly(rec.op, FriendKey(x), x)
    case _ => Skip
  }

  function AssignmentKey(x: RoleAssignment): (RoleId, UserId) { (x.roleId, x.user) }

  function AssignmentOp(rec: ChangeRecord): Op<(RoleId, UserId), RoleAssignment> {
    match Parsed(rec)
    case Some(AssignmentRow(x)) =>
      if rec.op.Upsert? then AddNew(AssignmentKey(x), x) else DropKeys((k: (RoleId, UserId)) => k == AssignmentKey(x))
    case Some(RoleRow(r)) =>
      if rec.op.Delete? then DropKeys((k: (RoleId, UserId)) => k.0 == r.id) else Skip   // the cascade
    case _ => Skip
  }

  /** The tables after offering one change; a malformed one is skipped past. */
  function ApplyRecord(t: Tables, rec: ChangeRecord): Tables {
    Tables(
      MapStep(t.users, UserOp(rec)),
      MapStep(t.servers, ServerOp(rec)),
      MapStep(t.memberships, MembershipOp(rec)),
      MapStep(t.channels, ChannelOp(rec)),
      MapStep(t.messages, MessageOp(rec)),
      VecStep(t.reactions, ReactionKey, ReactionOp(rec)),
      MapStep(t.proposals, ProposalOp(rec)),
      VecStep(t.votes, VoteKey, VoteOp(rec)),
      MapStep(t.emojis, EmojiOp(rec)),
      VecStep(t.emojiVotes, EmojiVoteKey, EmojiVoteOp(rec)),
      MapStep(t.rules, RuleOp(rec)),
      VecStep(t.dms, DmKey, DmOp(rec)),
      VecStep(t.blocks, BlockKey, BlockOp(rec)),
      VecStep(t.friends, FriendKey, FriendOp(rec)),
      MapStep(t.roles, RoleOp(rec)),
      VecStep(t.roleAssignments, AssignmentKey, AssignmentOp(rec)),
      MapStep(t.invites, InviteOp(rec)),
      MapStep(t.userKeys, KeysOp(rec)),
      MapStep(t.channelGrants, GrantOp(rec)))
  }

  /** Folding a log over a replica, oldest record first. */
  function ApplyAll(t: Tables, log: seq<ChangeRecord>): Tables
    decreases |log|
  {
    if log == [] then t else ApplyRecord(ApplyAll(t, log[..|log| - 1]), log[|log| - 1])
  }

  lemma {:induction false} ApplyAllConcat(t: Tables, a: seq<ChangeRecord>, b: seq<ChangeRecord>)
    ensures ApplyAll(t, a + b) == ApplyAll(ApplyAll(t, a), b)
    decreases |b|
  {
    if b == [] {
      assert a + b == a;
    } else {
      var b' := b[..|b| - 1];
      assert (a + b)[..|a + b| - 1] == a + b';
      ApplyAllConcat(t, a, b');
    }
  }

  lemma ApplyLast(t: Tables, log: seq<ChangeRecord>, rec: ChangeRecord)
    ensures ApplyAll(t, log + [rec]) == ApplyRecord(ApplyAll(t, log), rec)
  {
  }
}
