/** The mutating calls of the storage ports, as functions of the tables: what each writes and what it
    appends to the outbox. `Store.MemoryStore` performs them in place. */
module Calls {
  import opened Domain
  import opened Replica
  import opened Keyed

  datatype Call =
    | PutUser(account: User)                  // insert_user, update_user
    | PutServer(server: Server)              // insert_server, update_server
    | PutMembership(membership: Membership)
    | PutChannel(channel: Channel)
    | RemoveChannel(channelId: ChannelId)
    | PutMessage(message: Message)           // insert_message, update_message
    | AddReaction(reaction: Reaction)
    | RemoveReaction(messageId: MessageId, user: UserId, emoji: string)
    | PutProposal(proposal: Proposal)        // insert_proposal, update_proposal
    | UpsertVote(vote: Vote)
    | PutEmoji(entry: Emoji)
    | UpsertEmojiVote(emojiVote: EmojiVote)
    | PutRule(rule: Rule)
    | RemoveRule(ruleId: RuleId)
    | PutKeys(keys: UserKeys)
    | PutGrant(grant: ChannelKeyGrant)
    | InsertDm(dm: DmMessage)
    | AddBlock(block: Block)
    | PutInvite(invite: Invite)
    | RevokeInvite(codeHash: string)
    | AddFriend(friendship: Friendship)
    | UpdateFriend(friendship: Friendship)
    | PutRole(role: Role)
    | RemoveRole(roleId: RoleId)
    | Assign(assignment: RoleAssignment)
    | Unassign(roleId: RoleId, user: UserId)

  predicate HasReaction(xs: seq<Reaction>, r: Reaction) {
    exists i | 0 <= i < |xs| :: xs[i].messageId == r.messageId && xs[i].user == r.user && xs[i].emoji == r.emoji
  }

  predicate HasBlock(xs: seq<Block>, blocker: UserId, blocked: UserId) {
    exists i | 0 <= i < |xs| :: xs[i].blocker == blocker && xs[i].blocked == blocked
  }

  predicate HasDm(xs: seq<DmMessage>, id: DmId) {
    exists i | 0 <= i < |xs| :: xs[i].id == id
  }

  predicate HasFriend(xs: seq<Friendship>, a: UserId, b: UserId) {
    exists i | 0 <= i < |xs| :: xs[i].IsBetween(a, b)
  }

  predicate HasAssignment(xs: seq<RoleAssignment>, role: RoleId, user: UserId) {
    exists i | 0 <= i < |xs| :: xs[i].roleId == role && xs[i].user == user
  }

  ghost predicate IsFirstAssignment(xs: seq<RoleAssignment>, role: RoleId, user: UserId, i: nat)
    requires i < |xs|
  {
    && xs[i].roleId == role && xs[i].user == user
    && forall j :: 0 <= j < i ==> !(xs[j].roleId == role && xs[j].user == user)
  }

  /** The first assignment of the pair, which is what an unassign records. */
  function FindAssignment(xs: seq<RoleAssignment>, role: RoleId, user: UserId): (r: RoleAssignment)
    requires HasAssignment(xs, role, user)
    ensures exists i :: 0 <= i < |xs| && xs[i] == r && IsFirstAssignment(xs, role, user, i)
  {
    if xs[0].roleId == role && xs[0].user == user then
      assert IsFirstAssignment(xs, role, user, 0);
      xs[0]
    else
      assert forall i | 0 <= i < |xs[1..]| :: xs[1..][i] == xs[i + 1];
      var r := FindAssignment(xs[1..], role, user);
      FirstOfRest(xs, role, user, r);
      r
  }

  lemma FirstOfRest(xs: seq<RoleAssignment>, role: RoleId, user: UserId, r: RoleAssignment)
    requires xs != [] && !(xs[0].roleId == role && xs[0].user == user)
    requires exists i :: 0 <= i < |xs[1..]| && xs[1..][i] == r && IsFirstAssignment(xs[1..], role, user, i)
    ensures exists i :: 0 <= i < |xs| && xs[i] == r && IsFirstAssignment(xs, role, user, i)
  {
    var i :| 0 <= i < |xs[1..]| && xs[1..][i] == r && IsFirstAssignment(xs[1..], role, user, i);
    assert forall j | 0 < j < |xs| :: xs[j] == xs[1..][j - 1];
    assert xs[i + 1] == r && IsFirstAssignment(xs, role, user, i + 1);
  }

  /** `update` overwrites the first friendship of the pair where it stands. */
  function ReplaceFriend(xs: seq<Friendship>, f: Friendship): (r: seq<Friendship>)
    ensures |r| == |xs|
  {
    if xs == [] then []
    else if xs[0].IsBetween(f.requester, f.addressee) then [f] + xs[1..]
    else [xs[0]] + ReplaceFriend(xs[1..], f)
  }

  function WithoutReaction(xs: seq<Reaction>, message: MessageId, user: UserId, emoji: string): seq<Reaction> {
    Retain(xs, (r: Reaction) => !(r.messageId == message && r.user == user && r.emoji == emoji))
  }

  function WithoutFriend(xs: seq<Friendship>, a: UserId, b: UserId): seq<Friendship> {
    Retain(xs, (f: Friendship) => !f.IsBetween(a, b))
  }

  function WithoutVote(xs: seq<Vote>, proposal: ProposalId, voter: UserId): seq<Vote> {
    Retain(xs, (v: Vote) => !(v.proposalId == proposal && v.voter == voter))
  }

  function WithoutEmojiVote(xs: seq<EmojiVote>, emoji: EmojiId, voter: UserId): seq<EmojiVote> {
    Retain(xs, (v: EmojiVote) => !(v.emojiId == emoji && v.voter == voter))
  }

  function WithoutAssignment(xs: seq<RoleAssignment>, role: RoleId, user: UserId): seq<RoleAssignment> {
    Retain(xs, (a: RoleAssignment) => !(a.roleId == role && a.user == user))
  }

  function WithoutRole(xs: seq<RoleAssignment>, role: RoleId): seq<RoleAssignment> {
    Retain(xs, (a: RoleAssignment) => a.roleId != role)
  }

  function WithoutChannel(ms: map<MessageId, Message>, channel: ChannelId): map<MessageId, Message> {
    map id | id in ms && ms[id].channelId != channel :: ms[id]
  }

  // --- each table after a call ----------------------------------------------------------------

  function UsersAfter(t: Tables, c: Call): map<UserId, User> {
    match c
    case PutUser(u) => t.users[u.id := u]
    case _ => t.users
  }

  function ServersAfter(t: Tables, c: Call): map<ServerId, Server> {
    match c
    case PutServer(s) => t.servers[s.id := s]
    case _ => t.servers
  }

  function MembershipsAfter(t: Tables, c: Call): map<(UserId, ServerId), Membership> {
    match c
    case PutMembership(m) => t.memberships[(m.userId, m.serverId) := m]
    case _ => t.memberships
  }

  function ChannelsAfter(t: Tables, c: Call): map<ChannelId, Channel> {
    match c
    case PutChannel(x) => t.channels[x.id := x]
    case RemoveChannel(id) => t.channels - {id}
    case _ => t.channels
  }

  function MessagesAfter(t: Tables, c: Call): map<MessageId, Message> {
    match c
    case PutMessage(m) => t.messages[m.id := m]
    case RemoveChannel(id) => if id in t.channels then WithoutChannel(t.messages, id) else t.messages   // the cascade
    case _ => t.messages
  }

  function ReactionsAfter(t: Tables, c: Call): seq<Reaction> {
    match c
    case AddReaction(r) => if HasReaction(t.reactions, r) then t.reactions else t.reactions + [r]
    case RemoveReaction(m, u, e) => WithoutReaction(t.reactions, m, u, e)
    case _ => t.reactions
  }

  function ProposalsAfter(t: Tables, c: Call): map<ProposalId, Proposal> {
    match c
    case PutProposal(p) => t.proposals[p.id := p]
    case _ => t.proposals
  }

  function VotesAfter(t: Tables, c: Call): seq<Vote> {
    match c
    case UpsertVote(v) => WithoutVote(t.votes, v.proposalId, v.voter) + [v]
    case _ => t.votes
  }

  function EmojisAfter(t: Tables, c: Call): map<EmojiId, Emoji> {
    match c
    case PutEmoji(e) => t.emojis[e.id := e]
    case _ => t.emojis
  }

  function EmojiVotesAfter(t: Tables, c: Call): seq<EmojiVote> {
    match c
    case UpsertEmojiVote(v) => WithoutEmojiVote(t.emojiVotes, v.emojiId, v.voter) + [v]
    case _ => t.emojiVotes
  }

  function RulesAfter(t: Tables, c: Call): map<RuleId, Rule> {
    match c
    case PutRule(r) => t.rules[r.id := r]
    case RemoveRule(id) => t.rules - {id}
    case _ => t.rules
  }

  function DmsAfter(t: Tables, c: Call): seq<DmMessage> {
    match c
    case InsertDm(d) => t.dms + [d]
    case _ => t.dms
  }

  function BlocksAfter(t: Tables, c: Call): seq<Block> {
    match c
    case AddBlock(b) => if HasBlock(t.blocks, b.blocker, b.blocked) then t.blocks else t.blocks + [b]
    case _ => t.blocks
  }

  function FriendsAfter(t: Tables, c: Call): seq<Friendship> {
    match c
    case AddFriend(f) => if HasFriend(t.friends, f.requester, f.addressee) then t.friends else t.friends + [f]
    case UpdateFriend(f) => ReplaceFriend(t.friends, f)
    case _ => t.friends
  }

  function RolesAfter(t: Tables, c: Call): map<RoleId, Role> {
    match c
    case PutRole(r) => t.roles[r.id := r]
    case RemoveRole(id) => t.roles - {id}
    case _ => t.roles
  }

  function AssignmentsAfter(t: Tables, c: Call): seq<RoleAssignment> {
    match c
    case Assign(a) =>
      if HasAssignment(t.roleAssignments, a.roleId, a.user) then t.roleAssignments else t.roleAssignments + [a]
    case Unassign(r, u) => WithoutAssignment(t.roleAssignments, r, u)
    case RemoveRole(id) =>   // the cascade
      if id in t.roles then WithoutRole(t.roleAssignments, id) else t.roleAssignments
    case _ => t.roleAssignments
  }

  function InvitesAfter(t: Tables, c: Call): map<string, Invite> {
    match c
    case PutInvite(i) => t.invites[i.codeHash := i]
    case RevokeInvite(h) =>
      if h in t.invites then t.invites[t.invites[h].codeHash := t.invites[h].(isRevoked := true)] else t.invites
    case _ => t.invites
  }

  function KeysAfter(t: Tables, c: Call): map<UserId, UserKeys> {
    match c
    case PutKeys(k) => t.userKeys[k.userId := k]
    case _ => t.userKeys
  }

  function GrantsAfter(t: Tables, c: Call): map<(ChannelId, nat, UserId), ChannelKeyGrant> {
    match c
    case PutGrant(g) => t.channelGrants[(g.channelId, g.epoch, g.member) := g]
    case _ => t.channelGrants
  }

  /** The tables after a call. */
  function TablesAfter(t: Tables, c: Call): Tables {
    Tables(UsersAfter(t, c), ServersAfter(t, c), MembershipsAfter(t, c), ChannelsAfter(t, c),
           MessagesAfter(t, c), ReactionsAfter(t, c), ProposalsAfter(t, c), VotesAfter(t, c),
           EmojisAfter(t, c), EmojiVotesAfter(t, c), RulesAfter(t, c), DmsAfter(t, c), BlocksAfter(t, c),
           FriendsAfter(t, c), RolesAfter(t, c), AssignmentsAfter(t, c), InvitesAfter(t, c),
           KeysAfter(t, c), GrantsAfter(t, c))
  }

  datatype Logged = Silent | Recorded(op: ChangeOp, row: Row)

  /** What a call appends to the outbox; a call that changes nothing is silent. */
  function LoggedBy(t: Tables, c: Call): Logged {
    match c
    case PutUser(u) => Recorded(Upsert, UserRow(u))
    case PutServer(s) => Recorded(Upsert, ServerRow(s))
    case PutMembership(m) => Recorded(Upsert, MembershipRow(m))
    case PutChannel(x) => Recorded(Upsert, ChannelRow(x))
    case RemoveChannel(id) => if id in t.channels then Recorded(Delete, ChannelRow(t.channels[id])) else Silent
    case PutMessage(m) => Recorded(Upsert, MessageRow(m))
    case AddReaction(r) => if HasReaction(t.reactions, r) then Silent else Recorded(Upsert, ReactionRow(r))
    case RemoveReaction(m, u, e) =>
      if HasReaction(t.reactions, Reaction(m, u, e)) then Recorded(Delete, ReactionRow(Reaction(m, u, e))) else Silent
    case PutProposal(p) => Recorded(Upsert, ProposalRow(p))
    case UpsertVote(v) => Recorded(Upsert, VoteRow(v))
    case PutEmoji(e) => Recorded(Upsert, EmojiRow(e))
    case UpsertEmojiVote(v) => Recorded(Upsert, EmojiVoteRow(v))
    case PutRule(r) => Recorded(Upsert, RuleRow(r))
    case RemoveRule(id) => if id in t.rules then Recorded(Delete, RuleRow(t.rules[id])) else Silent
    case PutKeys(k) => Recorded(Upsert, KeysRow(k))
    case PutGrant(g) => Recorded(Upsert, GrantRow(g))
    case InsertDm(d) => Recorded(Upsert, DmRow(d))
    case AddBlock(b) => if HasBlock(t.blocks, b.blocker, b.blocked) then Silent else Recorded(Upsert, BlockRow(b))
    case PutInvite(i) => Recorded(Upsert, InviteRow(i))
    case RevokeInvite(h) =>
      if h in t.invites then Recorded(Upsert, InviteRow(t.invites[h].(isRevoked := true))) else Silent
    case AddFriend(f) =>
      if HasFriend(t.friends, f.requester, f.addressee) then Silent else Recorded(Upsert, FriendRow(f))
    case UpdateFriend(f) =>
      if HasFriend(t.friends, f.requester, f.addressee) then Recorded(Upsert, FriendRow(f)) else Silent
    case PutRole(r) => Recorded(Upsert, RoleRow(r))
    case RemoveRole(id) => if id in t.roles then Recorded(Delete, RoleRow(t.roles[id])) else Silent
    case Assign(a) =>
      if HasAssignment(t.roleAssignments, a.roleId, a.user) then Silent else Recorded(Upsert, AssignmentRow(a))
    case Unassign(r, u) =>
      if HasAssignment(t.roleAssignments, r, u)
      then Recorded(Delete, AssignmentRow(FindAssignment(t.roleAssignments, r, u))) else Silent
  }

  /** The tables and the outbox, with the sequence number last handed out. */
  datatype StoreState = StoreState(tables: Tables, outbox: seq<ChangeRecord>, nextOutbox: nat)

  function RecordFor(seqNo: nat, op: ChangeOp, row: Row): ChangeRecord {
    ChangeRecord(seqNo, EntityOf(row), op, ToPayload(row))
  }

  /** `Inner::record`. */
  function Record(s: StoreState, op: ChangeOp, row: Row): StoreState {
    s.(nextOutbox := s.nextOutbox + 1, outbox := s.outbox + [RecordFor(s.nextOutbox + 1, op, row)])
  }

  function Exec(s: StoreState, c: Call): StoreState {
    var s' := s.(tables := TablesAfter(s.tables, c));
    match LoggedBy(s.tables, c)
    case Silent => s'
    case Recorded(op, row) => Record(s', op, row)
  }

  function ExecAll(s: StoreState, cs: seq<Call>): StoreState
    decreases |cs|
  {
    if cs == [] then s else Exec(ExecAll(s, cs[..|cs| - 1]), cs[|cs| - 1])
  }
}
