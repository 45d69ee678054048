/** The rows the platform stores, and the small predicates the rules are written in.
    Identifiers are `u64` newtypes in the program; they are only ever compared or looked up,
    so they are natural numbers here. Timestamps are whole Unix seconds. */
module Domain {
  datatype Option<+T> = None | Some(value: T)

  type UserId = nat
  type ServerId = nat
  type ChannelId = nat
  type MessageId = nat
  type ProposalId = nat
  type RuleId = nat
  type RoleId = nat
  type EmojiId = nat
  type DmId = nat
  type NodeId = nat
  type Timestamp = int

  const SECONDS_PER_DAY: int := 86_400

  /** Whole days from `earlier` to `later`, floored: the divisor is positive, so Dafny's
      Euclidean division is the program's `div_euclid`. */
  function DaysSince(later: Timestamp, earlier: Timestamp): int {
    (later - earlier) / SECONDS_PER_DAY
  }

  function PlusDays(t: Timestamp, days: int): Timestamp {
    t + days * SECONDS_PER_DAY
  }

  // --- accounts and the social graph -----------------------------------------

  datatype DmPolicy = Everyone | FriendsOnly

  datatype User = User(id: UserId, handle: string, createdAt: Timestamp, isFranchiseBarred: bool,
                       dmPolicy: DmPolicy, credentials: string)

  datatype DmMessage = DmMessage(id: DmId, sender: UserId, recipient: UserId,
                                 sealedForRecipient: string, sealedForSender: string, createdAt: Timestamp)

  datatype Block = Block(blocker: UserId, blocked: UserId, createdAt: Timestamp) {
    predicate IsBetween(a: UserId, b: UserId) {
      (blocker == a && blocked == b) || (blocker == b && blocked == a)
    }
  }

  datatype FriendStatus = Pending | Accepted

  datatype Friendship = Friendship(requester: UserId, addressee: UserId, status: FriendStatus, createdAt: Timestamp) {
    predicate AreFriends() { status.Accepted? }

    predicate IsBetween(a: UserId, b: UserId) {
      (requester == a && addressee == b) || (requester == b && addressee == a)
    }
  }

  datatype UserKeys = UserKeys(userId: UserId, publicKey: string, wrappedSecret: string)

  // --- servers and the franchise ----------------------------------------------

  datatype FranchiseCriteria = FranchiseCriteria(minAccountAgeDays: int, minMembershipDays: int, minContribution: int)

  const PLATFORM_CRITERIA := FranchiseCriteria(30, 14, 5)

  datatype BallotKind =
    | BkRemoveContent | BkBan | BkTimeout | BkRecall | BkCreateChannel | BkDeleteChannel | BkAddRule
    | BkRemoveRule | BkAmendCriteria | BkSetJurySizing | BkSetVoteWeighting | BkSetWeightingScope
    | BkGrantVoteWeight | BkSetGovernanceSurface | BkManageRoles | BkSetRehomingPolicy | BkSetInvitePolicy

  const ALWAYS_ON: set<BallotKind> := {BkAmendCriteria, BkSetGovernanceSurface}

  const DEFAULT_SURFACE: set<BallotKind> :=
    {BkRemoveContent, BkBan, BkTimeout, BkRecall, BkCreateChannel, BkDeleteChannel, BkAddRule, BkRemoveRule,
     BkSetJurySizing, BkManageRoles, BkSetRehomingPolicy, BkSetInvitePolicy} + ALWAYS_ON

  datatype VoteWeighting = Equal | ByContribution | ByTenure | ByRole

  datatype WeightingScope = BothScopes | JuriesOnly | BallotsOnly | NoScope {
    predicate AppliesToBallots() { BothScopes? || BallotsOnly? }
  }

  datatype JurySizing =
    | SqrtSizing(postFactorBp: nat, commentFactorBp: nat)
    | Proportion(postBp: nat, commentBp: nat)
    | Fixed(post: nat, comment: nat)

  datatype Server = Server(id: ServerId, slug: string, name: string, founderId: UserId, createdAt: Timestamp,
                           criteria: FranchiseCriteria, enabledBallots: set<BallotKind>, jurySizing: JurySizing,
                           voteWeighting: VoteWeighting, weightingScope: WeightingScope,
                           isRehomingDisabled: bool, isPrivate: bool, invitesOpen: bool)

  datatype Tier = Guest | Member | Citizen

  datatype Membership = Membership(userId: UserId, serverId: ServerId, joinedAt: Timestamp, tier: Tier,
                                   isSanctioned: bool, contribution: int, enfranchisedAt: Option<Timestamp>,
                                   grantedWeight: nat, sharesHistory: bool) {
    predicate IsCitizen() { tier.Citizen? }

    predicate IsFranchised() { IsCitizen() && !isSanctioned }
  }

  function Joined(user: UserId, server: ServerId, now: Timestamp): Membership {
    Membership(user, server, now, Member, false, 0, None, 1, true)
  }

  datatype Invite = Invite(codeHash: string, serverId: ServerId, createdBy: UserId, createdAt: Timestamp,
                           isRevoked: bool)

  // --- governance ---------------------------------------------------------------

  datatype ProposalKind =
    | RemoveContent(target: string)
    | Ban(user: UserId)
    | Timeout(user: UserId, until: Timestamp)
    | Recall(leader: UserId)
    | CreateChannel(name: string, topic: string)
    | DeleteChannel(name: string)
    | AddRule(text: string)
    | RemoveRule(rule: RuleId)
    | AmendCriteria(proposed: FranchiseCriteria)
    | SetJurySizing(sizing: JurySizing)
    | SetVoteWeighting(scheme: VoteWeighting)
    | SetWeightingScope(scope: WeightingScope)
    | GrantVoteWeight(user: UserId, weight: nat)
    | SetGovernanceSurface(enabled: set<BallotKind>)
    | CreateRole(name: string)
    | DeleteRole(role: RoleId)
    | AssignRole(user: UserId, role: RoleId)
    | UnassignRole(user: UserId, role: RoleId)
    | SetRehomingPolicy(isDisabled: bool)
    | SetInvitePolicy(isOpen: bool)

  datatype ProposalStatus = Open | Passed(effectiveAt: Timestamp) | Failed

  datatype Proposal = Proposal(id: ProposalId, serverId: ServerId, proposer: UserId, kind: ProposalKind,
                               openedAt: Timestamp, closesAt: Timestamp, status: ProposalStatus, isApplied: bool)

  datatype Vote = Vote(proposalId: ProposalId, voter: UserId, isAye: bool)

  datatype Rule = Rule(id: RuleId, serverId: ServerId, text: string, addedAt: Timestamp)

  datatype Role = Role(id: RoleId, serverId: ServerId, name: string, createdAt: Timestamp)

  datatype RoleAssignment = RoleAssignment(serverId: ServerId, roleId: RoleId, user: UserId)

  datatype Emoji = Emoji(id: EmojiId, serverId: ServerId, name: string, url: string, addedBy: UserId,
                         addedAt: Timestamp)

  datatype EmojiVote = EmojiVote(serverId: ServerId, emojiId: EmojiId, voter: UserId, isUp: bool)

  // --- chat -----------------------------------------------------------------------

  datatype Channel = Channel(id: ChannelId, serverId: ServerId, name: string, topic: string,
                             createdAt: Timestamp, isEncrypted: bool)

  datatype Message = Message(id: MessageId, channelId: ChannelId, serverId: ServerId, author: UserId, body: string,
                             keyEpoch: Option<nat>, parent: Option<MessageId>, createdAt: Timestamp,
                             editedAt: Option<Timestamp>, isDeleted: bool, attachments: seq<string>)
  {
    /** In the same channel of the same server. */
    predicate IsBeside(other: Message) { channelId == other.channelId && serverId == other.serverId }
  }

  datatype Reaction = Reaction(messageId: MessageId, user: UserId, emoji: string)

  datatype ChannelKeyGrant = ChannelKeyGrant(serverId: ServerId, channelId: ChannelId, epoch: nat,
                                             member: UserId, sealedKey: string)
}
