# Democrachat: a verified model

Democrachat is a federation of nodes. Each node keeps its rows in an in-memory store, records every change in a
numbered outbox, and offers that outbox to its peers as a signed feed. An etcd control plane says which node owns
which server and which user's home, under an epoch that grows with every claim. On top of that run the communities:
a franchise that is earned and rate-capped, ballots with a quorum, an approval bar and a timelock, contribution
scores, threaded chat, ranked emoji, and a per-address rate limiter.

This project models those parts in Dafny and proves what the program relies on. State that the program changes in
place is a class here (`MemoryStore`, `Replicator`, `EtcdRegistry`, `InMemoryNonceLog`, `Guard`, `Owner`,
`WriteRouter`, `Platform`, `ChatService`, `EmojiService`, `RateLimiter`), with methods that keep the program's
branches and loops; each method is proved equal to a specification function, and the theorems are about those
functions, over every input and every run.

`dafny verify dfyconfig.toml` checks all of it.

## How it is laid out

- `Domain`, `Ids`, `Keyed`, `Ordered`, `Sorting`, `Finite`: the rows; identifiers; the algebra of keyed tables; going
  through a log with a step that may halt; a stable sort; set sizes.
- `Replica`, `Calls`, `Store`: nineteen tables, what one change record does to each, the 26 mutating port calls and
  what each records, and the class that does both in place.
- `Replay`, `RedoLog`: replaying a log twice is replaying it once; the outbox is a faithful redo log.
- `Feed`, `Scopes`, `Cursors`, `Pulling`, `Convergence`, `Visits`, `LostRow`: scope derivation, signing, authorization,
  whose row each row is, ordered ingest, the cursor over all runs, what a poll brings, when paged pulling converges, and
  which rows arrive and which are lost while the registry changes.
- `Discipline`, `EndToEnd`, `Orphans`: what port calls keep to so that parents are found, and what a replica therefore
  has in the end, restarts included.
- `ControlPlane`, `Fencing`: etcd as shared keys, revisions and leases with every client a small-step program;
  linearised claims, lock-freedom, and what an authorized event proves about who owned its scope.
- `ReplayGuard`, `Turns`, `Commands`, `Forwarding`, `Messaging`, `Blocking`: the replay guard, a submission that goes
  from owner to owner while everyone goes on, the owner's pipeline, the router, when each runs and what a failure
  leaves, the social graph, and what an accepted block guarantees.
- `Franchise`, `Services`, `Joining`: eligibility, the rate cap, the growth bound, who gets in, and what the membership
  use-cases do to the roll.
- `ServiceRuns`, `FranchiseRuns`, `SoundRuns`, `BallotRuns`, `PlatformRuns`: all the services of one node as one machine,
  and what every run of it keeps.
- `Voting`, `Governance`, `BallotLife`, `Casting`, `Closing`, `Effects`, `SanctionRuns`: what passing means, resolving
  what is due, the life of a ballot, who votes and how it counts, which ballots pass, and what each does once executed.
- `Contribution`, `ScoreRuns`: reactions, the conservation of scores, and what sets a score apart over all runs.
- `UseCases`: all of these use-cases on the store.
- `Forest`, `MessageTree`, `Chat`, `Posting`: the message forest, why a channel never loses a message, and who may write.
- `EmojiRanking`, `EmojiBoard`, `RateLimit`: the two emoji sorts, what a vote does to the list, and the limiter.

## Where the code and its comments differ

The model follows the code; each difference is a theorem.

- `crates/federation/src/sign_feed.rs:63-69` says a row left off the wire is offered on a later pull. It is, only
  until a later row has been settled: `Visits.ArrivesIff` gives the exact condition over runs of polls,
  `Pulling.LeftOffSurvives` for one, `Pulling.PassedIsLost` says it never comes back, and `LostRow.FirstServerIsLost`
  is the smallest such run.
- `crates/adapter-federation/src/replicator.rs:42-43` and `:63` say a row refused for now is retried by a later pull. It
  is, unless a pull that no longer offers it settles a later row, as when the producer loses the scope in between: the
  cursor covers what was delivered if and only if no batch skips a row like that (`Cursors.CursorSafety`, for each row
  `Cursors.RowIsLostIff`, for polls of a real outbox `Visits.LostIff`), and `LostRow.RefusedThenLost` is the smallest
  run in which one is lost for good.
- A whole page of rows the producer cannot sign stops a pull for good (`Pulling.StalledPull`), so pulling converges
  exactly when there is none before a row that can be signed (`Convergence.PullConvergesIff`).
- Removing a channel (`crates/adapter-store-memory/src/lib.rs:707-719`, which a ballot does) leaves the reactions to its
  messages stored, and no feed can sign them any more (`EndToEnd.LeftOffIff`). A replica never hears of those made or
  withdrawn before the removal; it holds the node's rows exactly when there are none (`EndToEnd.CaughtUpIff`,
  `Orphans.ReactionNeverArrives`), and a page full of them is a gap (`Orphans.RemovalNeverArrives`).
- `crates/domain/src/franchise/enfranchisement_slots.rs:5-12` promises growth of at most 10% in 30 days. The cap is
  recomputed on the growing roll, so the bound is a ninth: a server of 100 admits 12 (`Franchise.TwelveOfAHundred`,
  `Franchise.GrowthBound`).
- `crates/adapter-federation/src/command/write_router.rs:52-55` calls the block and direct-message use-cases
  idempotent. Blocks are (`Blocking.RedrivingEndsWithOneRecord`); a direct message sent again is stored again
  (`Commands.ResentDmIsStoredTwice`), and accepting a friendship again is refused (`Commands.AcceptingTwiceIsRefused`).
- A command issued exactly 120 seconds ahead of the owner's clock can be admitted twice, at one instant only, if nobody
  retried it in between (`ReplayGuard.AdmittedAgainIff`); in every other case the pruned nonce log decides as an
  unbounded one would, for each command on its own (`ReplayGuard.PrunedLogDecidesAlike`).
- The quorum compares weight cast with heads on the roll, so one citizen can amend a server alone:
  `Voting.LoneAmendmentIff` says for which rolls and weights, `Voting.HeadCountIff` when the cast is a head count.
- An endorsement taken back after the reactor's standing changed does not restore the author's score
  (`Contribution.RoundTripIff` gives the exact condition for one, `ScoreRuns.ScoreIsCount` the balance over any run).
- `crates/domain/src/governance/proposal_kind.rs:25-26` says a timeout lasts until a given instant. Its effect is a
  sanction like a ban's, which no service ever lifts (`SanctionRuns.BannedForGood`).
- A ballot that removes a rule takes the rule it names even when it is another server's (`Effects.RuleIsMadeOrGone`),
  while one on a role leaves other servers' roles alone (`Effects.RoleIsGone`).
- Which ballots of one call are counted without a member banned by another of them depends on the order they are
  resolved in: each is tallied at its turn (`Closing.ResolvedIff`, `Closing.ResolvedByHeads`).
- Waiting as long as the limiter answers may not be enough, by less than a second (`RateLimit.RetryIff`).
- A producer that restarts loses its outbox numbering, and peers ahead of it receive nothing until it catches up
  (`EndToEnd.ProducerRestart`).

## Model

| member | source | states |
|---|---|---|
| Store.MemoryStore.Record | crates/adapter-store-memory/src/lib.rs:123-135 | A change is appended to the outbox under the next sequence number; nothing else moves. |
| Store.MemoryStore.NextServerId | crates/adapter-store-memory/src/lib.rs:596-600 | The server counter moves on by one and the id is composed from it and the node; nothing else moves. |
| Store.MemoryStore.NextChannelId | crates/adapter-store-memory/src/lib.rs:672-676 | The same for channels. |
| Store.MemoryStore.NextMessageId | crates/adapter-store-memory/src/lib.rs:722-726 | The same for messages. |
| Store.MemoryStore.NextProposalId | crates/adapter-store-memory/src/lib.rs:806-810 | The same for proposals. |
| Store.MemoryStore.NextRuleId | crates/adapter-store-memory/src/lib.rs:938-942 | The same for rules. |
| Store.MemoryStore.NextDmId | crates/adapter-store-memory/src/lib.rs:1006-1010 | The same for direct messages. |
| Store.MemoryStore.NextRoleId | crates/adapter-store-memory/src/lib.rs:1187-1191 | The same for roles. |
| Store.MemoryStore.PutUser | crates/adapter-store-memory/src/lib.rs:568-577 | Inserting or updating an account leaves the tables, outbox and numbering its call specifies. |
| Store.MemoryStore.PutServer | crates/adapter-store-memory/src/lib.rs:601-622 | The same for a server row. |
| Store.MemoryStore.PutMembership | crates/adapter-store-memory/src/lib.rs:631-637 | The same for a membership, keyed by user and server. |
| Store.MemoryStore.PutChannel | crates/adapter-store-memory/src/lib.rs:677-681 | The same for a channel. |
| Store.MemoryStore.RemoveChannel | crates/adapter-store-memory/src/lib.rs:707-719 | Removing a channel removes its messages with it under one record, or changes nothing and says so. |
| Store.MemoryStore.PutMessage | crates/adapter-store-memory/src/lib.rs:727-739 | Inserting or updating a message leaves the state its call specifies. |
| Store.MemoryStore.AddReaction | crates/adapter-store-memory/src/lib.rs:756-767 | A reaction already there is neither added nor recorded, and the answer says which. |
| Store.MemoryStore.RemoveReaction | crates/adapter-store-memory/src/lib.rs:768-784 | Records a delete exactly when something was removed. |
| Store.ShorterIffPresent | crates/adapter-store-memory/src/lib.rs:768-784 | Comparing lengths before and after the removal tells exactly whether the reaction was there. |
| Store.MemoryStore.PutProposal | crates/adapter-store-memory/src/lib.rs:811-823 | Inserting or updating a proposal leaves the state its call specifies. |
| Store.MemoryStore.UpsertVote | crates/adapter-store-memory/src/lib.rs:840-847 | A second vote on a proposal replaces the first. |
| Store.MemoryStore.PutEmoji | crates/adapter-store-memory/src/lib.rs:875-879 | Inserting an emoji leaves the state its call specifies. |
| Store.MemoryStore.UpsertEmojiVote | crates/adapter-store-memory/src/lib.rs:908-915 | A second vote on an emoji replaces the first. |
| Store.MemoryStore.PutRule | crates/adapter-store-memory/src/lib.rs:943-947 | Inserting a rule leaves the state its call specifies. |
| Store.MemoryStore.RemoveRule | crates/adapter-store-memory/src/lib.rs:948-957 | Removes and records, or changes nothing and says so. |
| Store.MemoryStore.PutKeys | crates/adapter-store-memory/src/lib.rs:974-978 | The latest keys of a user win. |
| Store.MemoryStore.PutGrant | crates/adapter-store-memory/src/lib.rs:985-989 | One grant per channel, epoch and member. |
| Store.MemoryStore.InsertDm | crates/adapter-store-memory/src/lib.rs:1011-1015 | A direct message is appended without looking for its id. |
| Store.MemoryStore.AddBlock | crates/adapter-store-memory/src/lib.rs:1052-1064 | One block per ordered pair; a repeated one is silent. |
| Store.MemoryStore.PutInvite | crates/adapter-store-memory/src/lib.rs:1105-1109 | Inserting an invite leaves the state its call specifies. |
| Store.MemoryStore.RevokeInvite | crates/adapter-store-memory/src/lib.rs:1123-1131 | A known invite is marked and recorded; an unknown one changes nothing. |
| Store.MemoryStore.AddFriend | crates/adapter-store-memory/src/lib.rs:1134-1146 | One friendship per unordered pair; a repeated one is silent. |
| Store.MemoryStore.UpdateFriend | crates/adapter-store-memory/src/lib.rs:1147-1164 | Overwrites the pair's first record where it stands, found by a scan. |
| Store.FirstReplaced | crates/adapter-store-memory/src/lib.rs:1147-1164 | The scan's first match is the record the specification replaces. |
| Store.MemoryStore.PutRole | crates/adapter-store-memory/src/lib.rs:1192-1196 | Inserting a role leaves the state its call specifies. |
| Store.MemoryStore.RemoveRole | crates/adapter-store-memory/src/lib.rs:1209-1220 | Removing a role removes its assignments with it under one record. |
| Store.MemoryStore.Assign | crates/adapter-store-memory/src/lib.rs:1234-1246 | One assignment per role and user. |
| Store.MemoryStore.Unassign | crates/adapter-store-memory/src/lib.rs:1247-1264 | Removes every assignment of the pair and records the first, or says there was none. |
| Calls.FindAssignment | crates/adapter-store-memory/src/lib.rs:1247-1264 | The recorded assignment is the first of the pair's own. |
| Store.MemoryStore.ApplyAccount | crates/adapter-store-memory/src/lib.rs:151-309 | Account, key, direct-message, block and friendship changes leave each table as the record says; malformed ones change nothing. |
| Store.MemoryStore.ApplyCommunity | crates/adapter-store-memory/src/lib.rs:151-309 | The same for servers, memberships and invites. |
| Store.MemoryStore.ApplyRole | crates/adapter-store-memory/src/lib.rs:151-309 | The same for rules, roles with their cascade, and assignments. |
| Store.MemoryStore.ApplyChat | crates/adapter-store-memory/src/lib.rs:151-309 | The same for channels with their cascade, and key grants. |
| Store.MemoryStore.ApplyMessage | crates/adapter-store-memory/src/lib.rs:151-309 | The same for messages and reactions; a reaction delete that lacks a field removes nothing and does not fail. |
| Store.MemoryStore.ApplyBallot | crates/adapter-store-memory/src/lib.rs:151-309 | The same for proposals, votes, emoji and emoji votes. |
| Store.MemoryStore.ApplyIncoming | crates/adapter-store-memory/src/lib.rs:1295-1297 | A peer's change is applied to every table without an outbox record; it fails exactly when malformed. |
| Store.NamedDrop | crates/adapter-store-memory/src/lib.rs:151-309 | Deleting a reaction by field names removes exactly the reaction with those fields. |
| Store.MemoryStore.AdvanceCursor | crates/adapter-store-memory/src/lib.rs:1286-1290 | A peer's cursor takes the larger of old and new; no other peer's moves. |
| Store.MemoryStore.ChangesSince | crates/adapter-store-memory/src/lib.rs:1309-1321 | The page holds only records after the cursor, in outbox order, at most the limit, and leaves a later record out only when it is full. |
| Store.MemoryStore.RememberNonce | crates/adapter-store-memory/src/lib.rs:477-481 | Expired nonces go, this one is recorded, and it is new exactly when it was not standing. |
| Keyed.MapStepRel | crates/adapter-store-memory/src/lib.rs:151-309 | What a change does to a hash map is the keyed step on its relation. |
| Keyed.VecStepRel | crates/adapter-store-memory/src/lib.rs:151-309 | The same for a vector, read as a set. |
| Keyed.RunAt | crates/adapter-store-memory/src/lib.rs:151-309 | At one key a whole log is a constant, a filter or a default, whatever stood there. |
| Keyed.RunTwice | crates/adapter-store-memory/src/lib.rs:151-309 | Last-writer, first-writer and delete steps over one table are idempotent as a whole. |
| Replay.MapReplay | crates/adapter-store-memory/src/lib.rs:151-309 | A hash map replayed with the same log does not change. |
| Replay.VecReplay | crates/adapter-store-memory/src/lib.rs:151-309 | Nor does a vector, as a set. |
| Replay.TableByTable | crates/adapter-store-memory/src/lib.rs:151-309 | A log acts on the nineteen tables separately, cascades included. |
| Replay.ReplayIsIdempotent | crates/adapter-store-memory/src/lib.rs:151-309 | For any replica and any log, applying the log twice leaves the rows applying it once leaves. |
| Replay.SameRowsRun | crates/adapter-store-memory/src/lib.rs:151-309 | Replicas with the same rows have the same rows after any log. |
| Replay.PrefixThenAll | crates/adapter-store-memory/src/lib.rs:502-560 | Having applied the beginning of a feed changes nothing about applying it from the start. |
| Replay.RepullIsHarmless | crates/adapter-store-memory/src/lib.rs:502-560 | A replica that lost its cursor and pulls again from an earlier position ends where one uninterrupted pull ends. |
| Replay.WithoutReactions | crates/adapter-store-memory/src/lib.rs:151-309 | Leaving reaction records out of a log leaves every other table as the whole log does. |
| RedoLog.FriendUpdated | crates/adapter-store-memory/src/lib.rs:1147-1164 | Updating a friendship in place and removing then appending it give the same set, and keep one record per pair. |
| RedoLog.ChannelRemovalRedone | crates/adapter-store-memory/src/lib.rs:707-719 | The one record of a removed channel redoes the cascade to its messages. |
| RedoLog.RoleRemovalRedone | crates/adapter-store-memory/src/lib.rs:1209-1220 | The one record of a removed role redoes the cascade to its assignments. |
| RedoLog.ReactionRemovalRedone | crates/adapter-store-memory/src/lib.rs:768-784 | The record of a withdrawn reaction removes it, and only it, from a replica. |
| RedoLog.UnassignRedone | crates/adapter-store-memory/src/lib.rs:1247-1264 | The record of one assignment removes every copy the store removed. |
| RedoLog.VoteRedone | crates/adapter-store-memory/src/lib.rs:840-847 | A replaced vote is replaced on the replica too. |
| RedoLog.FriendAddRedone | crates/adapter-store-memory/src/lib.rs:1134-1146 | A new friendship arrives as it was added. |
| RedoLog.DmRedone | crates/adapter-store-memory/src/lib.rs:1011-1015 | A direct message is redone exactly when its id is fresh or the very message is already stored. |
| RedoLog.CallRedone | crates/adapter-store-memory/src/lib.rs:562-1275 | For all 26 mutating calls: redoing the call's record gives the tables the call left, if and only if it inserts no direct message under another's id. |
| RedoLog.SilentCall | crates/adapter-store-memory/src/lib.rs:562-1275 | A call that records nothing changes nothing. |
| RedoLog.StaysWellFormed | crates/adapter-store-memory/src/lib.rs:562-1275 | Every call keeps rows at their own key and one friendship per pair. |
| RedoLog.OutboxGrows | crates/adapter-store-memory/src/lib.rs:123-135 | Over any run the outbox only grows, numbered consecutively. |
| RedoLog.OutboxIsRedoLog | crates/adapter-store-memory/src/lib.rs:562-1275 | From any well-formed tables, after any run of calls with fresh direct messages, folding the new records over the start gives the current rows. |
| Feed.SignFeed | crates/federation/src/sign_feed.rs:24-89 | The loop with its epoch cache signs each row at the answer its scope's first lookup got in this batch. |
| Feed.CacheHit | crates/federation/src/sign_feed.rs:34-83 | A cached epoch is the one found at the scope's first row. |
| Feed.CacheMiss | crates/federation/src/sign_feed.rs:34-83 | A scope is looked up once, at its first row. |
| Feed.SignedExactly | crates/federation/src/sign_feed.rs:51-86 | A batch holds exactly the rows whose scope resolves to one this node owns, each at the epoch of that ownership. |
| Feed.Authorize | crates/federation/src/authorize.rs:27-72 | What is authorized is the body that was signed, by the node it names. |
| Feed.AuthorizedIff | crates/federation/src/authorize.rs:27-72 | An event is accepted exactly when its own signer, known, owns the scope the payload derives at an epoch no newer than the stamped one; the envelope's scope plays no part. |
| Scopes.RowScopeIff | crates/federation/src/classify.rs:23-60 | For every row, in terms of its own fields: the scope its serialization resolves to is the one it belongs to. A membership belongs to its server, whoever the member; a server to itself; a vote or a reaction to its parent's server; the social graph to the home of the user who acts. |
| Scopes.ScopelessIff | crates/federation/src/classify.rs:23-60 | A row resolves to no scope exactly when it is a vote or a reaction whose parent is not stored here. |
| Scopes.UnknownBelongsNowhere | crates/federation/src/classify.rs:23-60 | A payload that names no scope, and an entity outside the replication set, resolve to none. |
| Scopes.SignedRowIff | crates/federation/src/sign_feed.rs:51-86 | A producer signs a row exactly when it owns the scope the row belongs to. |
| Scopes.RowAuthorizedIff | crates/federation/src/authorize.rs:27-72 | An event that carries a row is accepted exactly when its own known signer owns the scope the row belongs to, under an epoch no newer than the stamped one. |
| Scopes.MembershipsAreTheServers | crates/federation/src/authorize.rs:27-72 | So nobody but a server's owner writes its memberships, whoever the member's home node is. |
| Scopes.RetriedIff | crates/adapter-federation/src/is_transient.rs:18-23 | A row is refused for now exactly when the registry does not answer, does not know the node or has no owner for its scope, or its parent is not here yet. |
| Scopes.RefusedForGoodIff | crates/adapter-federation/src/is_transient.rs:18-23 | And for good exactly when it is not genuine, not its signer's to write, or stamped with a past epoch. |
| Feed.Replicator.Offer | crates/adapter-federation/src/replicator.rs:47-76 | One event is applied, counted, skipped or stopped at as the specification says. |
| Feed.Replicator.Ingest | crates/adapter-federation/src/replicator.rs:47-76 | A batch is handled in order up to the first transient refusal, and the peer's cursor records how far; no other peer's moves. |
| Cursors.HandleOutcome | crates/adapter-federation/src/is_transient.rs:18-23 | One event moves the cursor to itself exactly when applied, malformed or refused for good. |
| Cursors.BatchOutcome | crates/adapter-federation/src/replicator.rs:47-76 | A batch settles a prefix; the refused event stays above the cursor and nothing after it leaves a trace. |
| Cursors.DoneIsFold | crates/adapter-federation/src/replicator.rs:47-76 | A batch leaves the tables with its authorized events up to the first transient refusal applied in order, and nothing else. |
| Cursors.AcceptedAre | crates/adapter-federation/src/replicator.rs:47-76 | Those are the records of the events authorized at their turn with everything before them applied or refused for good. |
| Cursors.BatchKeepsCover | crates/adapter-federation/src/replicator.rs:47-76 | Everything delivered at or below the cursor stays settled if and only if the batch does not lack a pending row while an event after it gets through. |
| Cursors.RowIsLostIff | crates/adapter-federation/src/replicator.rs:39-76 | Over any run of ascending batches, under any registry changes, a delivered row is passed by the cursor unsettled if and only if some batch lacked it, still pending, and an event after it got through. |
| Cursors.CursorBelowIff | crates/adapter-federation/src/replicator.rs:47-76 | The cursor never goes back, and is below a row exactly while neither it nor a later one has got through. |
| Cursors.CursorSafety | crates/adapter-federation/src/replicator.rs:39-76 | Over such a run the cursor covers everything delivered below it if and only if no batch skipped a pending row. |
| Pulling.Clamp | crates/adapter-federation/src/http/feed_router.rs:20-41 | A limit from 1 to 5000 is kept, a smaller one becomes 1 and a larger one 5000. |
| Pulling.PollPeer | crates/adapter-federation/src/http/poll_peer.rs:10-24 | One poll applies the signed page after the cursor and moves only that cursor; a transport error changes nothing. |
| Pulling.PageIsSlice | crates/adapter-store-memory/src/lib.rs:1309-1321 | On a numbered outbox a page is the slice after the cursor. |
| Pulling.HonestRowPasses | crates/federation/src/authorize.rs:27-72 | A row the producer owns and the consumer resolves alike is accepted, unchanged. |
| Pulling.PollOutcome | crates/adapter-federation/src/http/poll_peer.rs:10-24 | A poll whose signable rows are deliverable applies exactly those, in order, refuses nothing and leaves the cursor on the last of them. |
| Convergence.PollsReach | crates/adapter-federation/src/http/poll_peer.rs:10-24 | After any number of polls the replica is the fold of the signable rows up to a position that many rows on, or at a page with nothing to sign, and never beyond a gap. |
| Convergence.PullConvergesIff | crates/adapter-federation/src/http/poll_peer.rs:10-24 | With any page limit, enough polls bring every signable row if and only if no whole page of rows the producer cannot sign lies before one it can. |
| Convergence.PullConverges | crates/adapter-federation/src/http/poll_peer.rs:10-24 | In particular, when all rows can be signed, the cursor reaches the last sequence number and the replica is the fold of the log. |
| Pulling.PassedIsLost | crates/federation/src/sign_feed.rs:63-86 | No feed asked from a cursor contains a row at or below it, under any registry. |
| Pulling.LeftOffSurvives | crates/federation/src/sign_feed.rs:63-86 | A row left off a page stays above the cursor if and only if no later row of that page can be signed. |
| Visits.OneViewPerBatch | crates/federation/src/sign_feed.rs:34-83 | However the registry changes while a batch is signed, the batch is as if each scope's first answer had stood. |
| Visits.EveryPollIsAVisit | crates/adapter-federation/src/http/poll_peer.rs:10-24 | So any poll, with any answers to the producer and to the consumer event by event, delivers and leaves what some visit does. |
| Visits.SteadyVisit | crates/adapter-federation/src/http/poll_peer.rs:10-24 | A visit under one registry is a poll under it. |
| Visits.WireHolds | crates/federation/src/sign_feed.rs:51-86 | A poll carries a row exactly when it lies after the cursor within the page and the producer can sign it then. |
| Visits.HandledIff | crates/adapter-federation/src/replicator.rs:47-76 | Over polls of a changing producer, with the registry changing between and during them and answering both sides differently, a row is applied or refused for good if and only if at some poll it can be sent, nothing up to it is refused for now, and neither it nor a later row was settled before. |
| Visits.LostIff | crates/adapter-federation/src/replicator.rs:39-76 | A row that was sent is passed without ever having had that chance if and only if some poll skipped it: it could not be sent then, and a later row got through. |
| Visits.SeenIsAccepted | crates/adapter-federation/src/http/poll_peer.rs:10-24 | The replica is what it was with the accepted records applied in order. |
| Visits.ArrivesIff | crates/federation/src/sign_feed.rs:63-86 | A record is among them if and only if it is the producer's row of its number at a poll where that row has its chance and is authorized. |
| Pulling.StalledPull | crates/federation/src/sign_feed.rs:63-86 | A page of rows the producer cannot sign stops the pull, however often repeated. |
| LostRow.FirstServerIsLost | crates/federation/src/sign_feed.rs:63-69 | A founder who claimed only the second of two servers loses the first at every peer, whoever owns it later and however often they pull. |
| LostRow.RefusedThenLost | crates/adapter-federation/src/replicator.rs:39-76 | A row delivered and refused as unowned is never retried once the producer has lost its scope and the next row got through: its server is missing after any further polls under any registry. |
| Discipline.RowNamesScope | crates/federation/src/classify.rs:23-60 | Every recorded row but votes and reactions resolves, whatever is stored, to the scope it belongs to, named by the fields of its own payload. |
| Discipline.RecordResolves | crates/adapter-federation/src/store_resolver.rs:19-27 | A row recorded in discipline resolves where it was recorded. |
| Discipline.RecordedBy | crates/adapter-store-memory/src/lib.rs:123-135 | Every row of the outbox was recorded at some call of the run, and resolved there. |
| Discipline.ProposalsLast | crates/adapter-federation/src/store_resolver.rs:19-27 | Over a run in discipline a stored proposal stays, in its server. |
| Discipline.GoneStaysGone | crates/adapter-store-memory/src/lib.rs:707-719 | A message that went with its channel never comes back. |
| Discipline.MessagesLast | crates/adapter-federation/src/store_resolver.rs:19-27 | A message still there at the end was there all along, in one channel of one server. |
| EndToEnd.LeftOffIff | crates/federation/src/sign_feed.rs:51-86 | The rows a producer cannot sign are exactly the reactions, made or withdrawn, to messages that are gone. |
| EndToEnd.RowResolves | crates/federation/src/authorize.rs:41-71 | A row that is signed finds its parent on a replica that has applied the signed rows before it, after a restart too. |
| EndToEnd.WholeFeedDeliverable | crates/federation/src/authorize.rs:41-71 | So a consumer that applies the signed rows in order meets no transient refusal. |
| EndToEnd.CaughtUpIff | crates/adapter-store-memory/src/lib.rs:707-719 | A replica that has caught up holds exactly the producer's rows if and only if no reaction to a message that is gone was made or withdrawn since the start. |
| EndToEnd.ReplicaCatchesUp | crates/adapter-federation/src/http/poll_peer.rs:10-24 | Whatever a producer runs in discipline, channel removals included, a consumer that polls often enough receives every signable row if and only if no gap stalls it, and has then caught up: the producer's rows, except that reactions to messages that are gone are those it started with. |
| EndToEnd.OrphansStay | crates/federation/src/sign_feed.rs:51-65 | However often it polls, a replica never learns of a reaction, made or withdrawn, to a message that is gone. |
| Orphans.ReactionNeverArrives | crates/adapter-store-memory/src/lib.rs:707-719 | Post, react, remove the channel: the producer keeps the reaction and no replica ever has it. |
| Orphans.RemovalNeverArrives | crates/federation/src/sign_feed.rs:51-65 | With pages of one row that reaction is a gap, and the removal of the channel never arrives either. |
| EndToEnd.ConsumerRestart | crates/adapter-store-memory/src/lib.rs:502-560 | A consumer that kept its rows and lost its cursor pulls from 0 and catches up as if it had never stopped. |
| EndToEnd.ProducerRestart | crates/adapter-store-memory/src/lib.rs:502-560 | A peer ahead of a restarted producer's numbering receives nothing until it is passed. |
| ControlPlane.NextOk | crates/adapter-control-etcd/src/lib.rs:227-304 | Every step of every client, release and lease expiry keeps the protocol's invariant. |
| ControlPlane.KnowledgeIsStable | crates/adapter-control-etcd/src/lib.rs:227-304 | What a client learned between two round trips stays true while others move. |
| ControlPlane.ClaimsAreLinearised | crates/adapter-control-etcd/src/lib.rs:244-304 | The epoch counts the successful claims, a present holder is the claimant of the current epoch, and a claim returned its own place in the order. |
| ControlPlane.EpochsNeverRepeat | crates/adapter-control-etcd/src/lib.rs:244-289 | No two claims of a scope return the same epoch. |
| ControlPlane.LostOnlyToAClaim | crates/adapter-control-etcd/src/lib.rs:244-289 | A lost transaction means another claim succeeded after the loser's holder read; giving up means eight did. |
| ControlPlane.HeldReportIsReal | crates/adapter-control-etcd/src/lib.rs:244-289 | A claim that finds the scope held reports a node that did claim it and an epoch no older than that claim. |
| ControlPlane.LookupIsReal | crates/adapter-control-etcd/src/lib.rs:227-242 | Whatever happens between its two reads, an owner lookup answers nobody exactly when there was no holder at the instant of its holder read, else that holder, who had claimed the epoch of that instant, under an epoch no older. |
| ControlPlane.TxnDecides | crates/adapter-control-etcd/src/lib.rs:267-285 | When nobody has claimed since its holder read, a transaction under a live lease commits under the next epoch; without one nothing is written. |
| ControlPlane.GoneOnlyWhenExpired | crates/adapter-control-etcd/src/lib.rs:244-289 | In the small-step protocol a claim comes to nothing for its lease only at a moment that lease is not live and the scope is free. |
| ControlPlane.SoloWins | crates/adapter-control-etcd/src/lib.rs:244-289 | A claim of a free scope under a live lease that runs alone wins the next epoch in three round trips. |
| ControlPlane.HolderGoesOnlyBy | crates/adapter-control-etcd/src/lib.rs:244-304 | A holder goes exactly by its own release or with its own lease, and no step replaces it. |
| ControlPlane.HolderComesOnlyBy | crates/adapter-control-etcd/src/lib.rs:244-289 | A holder comes only by a process whose transaction committed, for itself and under its own live lease. |
| ControlPlane.HoldersAreLive | crates/adapter-control-etcd/src/lib.rs:227-242 | In every reachable state a holder's lease is live. |
| Fencing.StampIsPast | crates/federation/src/sign_feed.rs:70-83 | An epoch stamped by a batch is one of the claims made before it was signed. |
| Fencing.FencingHolds | crates/federation/src/authorize.rs:41-71 | In every interleaving, an event of a signed batch that the consumer authorizes on a torn owner lookup was signed by the node that held the derived scope at the instant of the consumer's holder read, at exactly the event's epoch, which its own claim minted. |
| Fencing.OwnScopedDeriveAlike | crates/federation/src/classify.rs:23-60 | Rows that name their own scope are derived alike by producer and consumer. |
| ControlPlane.EtcdRegistry.Others | crates/adapter-control-etcd/src/lib.rs:227-304 | Between two round trips others may take any steps, which keep the invariant and only grow the claim log. |
| ControlPlane.EtcdRegistry.Txn | crates/adapter-control-etcd/src/lib.rs:267-285 | The guarded transaction commits holder and epoch together, or nothing, and says why. |
| ControlPlane.EtcdRegistry.Attempt | crates/adapter-control-etcd/src/lib.rs:244-289 | One attempt reads the holder, then the epoch, then commits, others moving before each; it ends the claim as one of its kind ends, or was overtaken by another claim. |
| ControlPlane.EtcdRegistry.Claim | crates/adapter-control-etcd/src/lib.rs:244-289 | Under any schedule a won claim minted the epoch it returns, later than all before it, and holds the scope under its live lease; a taken one names a real holder; giving up lost to eight others; nothing comes of it for its lease only when that lease is not live and the scope is free. It ends so at one of its attempts, each on what the others had made of the keys; undisturbed it is taken when there is a holder, won when the lease is live, lost otherwise. |
| ReplayGuard.InMemoryNonceLog.Remember | crates/adapter-federation/src/command/in_memory_nonce_log.rs:20-31 | Expired nonces go, this one is recorded, and it is new exactly when not standing. |
| ReplayGuard.Guard.Admit | crates/adapter-federation/src/command/replay_guard.rs:31-51 | Outside the window nothing is recorded; inside, the nonce is recorded and a standing one refused. |
| ReplayGuard.DecidedByLastFresh | crates/adapter-federation/src/command/replay_guard.rs:31-51 | Each attempt is decided by the last fresh attempt of the same nonce before it, and by nothing else. |
| ReplayGuard.PrunedLogDecidesAlike | crates/adapter-federation/src/command/replay_guard.rs:31-51 | For each nonce on its own, whatever others are in the run, the pruned log decides as one that never forgets, except exactly when all its fresh attempts so far were 120 s ahead and it comes back 120 s behind. |
| ReplayGuard.AdmittedAtMostOnce | crates/adapter-federation/src/command/replay_guard.rs:31-51 | A command first seen less than 120 s ahead is admitted at most once, whatever other commands are in the run. |
| ReplayGuard.AdmittedAgainIff | crates/adapter-federation/src/command/replay_guard.rs:31-51 | Over any run, an admitted command is admitted again if and only if all its fresh attempts so far were exactly 120 s ahead and it comes back at the instant its nonce expires. |
| ReplayGuard.ReplayedAtExpiry | crates/adapter-federation/src/command/replay_guard.rs:31-51 | That does happen, and a retry in between closes it. |
| Commands.Owner.Run | crates/adapter-federation/src/command/execute.rs:28-60 | The owner authenticates, checks ownership, admits once and only then runs; an accepted command makes its one call on tables and outbox, and each refusal leaves what the specification says. |
| Commands.Owner.Apply | crates/democrachat/src/command_executor.rs:30-66 | The use-case's port call is made, once, on tables and outbox. |
| Commands.OwnersAreDistinct | crates/adapter-federation/src/command/write_router.rs:65-76 | Resolving yields every scope's owner, each once, and fails exactly when some scope has none. |
| Commands.WriteRouter.Commit | crates/adapter-federation/src/command/write_router.rs:81-91 | One owner's share runs here or there; a lost request or answer is reported as unreachable. |
| Commands.WriteRouter.CommitAll | crates/adapter-federation/src/command/write_router.rs:81-91 | The owners are committed one by one up to the first failure, every node going on with anything else before each. |
| Commands.WriteRouter.Submit | crates/adapter-federation/src/command/write_router.rs:56-92 | The submission resolves its scopes' owners and commits on them, interleaved with whatever every node does meanwhile. |
| Forwarding.ExecutedIff | crates/adapter-federation/src/command/execute.rs:28-60 | An owner runs a command exactly when it is signed as it stands by a known node, every scope can be looked up and one is its own, it is within 120 s, its nonce is not spent, and the use-case accepts it; then it leaves what that use-case writes, else the tables as they were. |
| Forwarding.NonceIsSpentIff | crates/adapter-federation/src/command/execute.rs:28-60 | A command that is not verified, belongs elsewhere or is not timely spends nothing; any other spends its nonce for 240 s, even when the use-case refuses it. |
| Forwarding.SecondCopyDoesNothing | crates/adapter-federation/src/command/execute.rs:28-60 | So within 240 s of reaching its owner a command does nothing a second time, whatever has become of the tables and whatever the registry says then. |
| Forwarding.HeardIff | crates/adapter-federation/src/command/write_router.rs:81-91 | The router hears of no failure exactly when the use-case accepted here, or the owner ran the command and its answer came back. |
| Forwarding.ShareLeaves | crates/adapter-federation/src/command/write_router.rs:81-91 | What an owner has done does not depend on whether its answer came back, and what never arrived did nothing. |
| Forwarding.RoutedIff | crates/adapter-federation/src/command/write_router.rs:65-76 | Owners are resolved exactly when every scope has one, and are the owners of the scopes and no others. |
| Forwarding.FailsAtOneTurn | crates/adapter-federation/src/command/write_router.rs:81-91 | A routed submission that fails answers the failure of one turn: those before it ran exactly once each, that owner did what its share did, nobody after it was asked. |
| Forwarding.UnroutedReachesNobody | crates/adapter-federation/src/command/write_router.rs:56-76 | A command with no scope, or with one that has no owner, fails and reaches nobody. |
| Commands.AcceptingTwiceIsRefused | crates/app/src/social_service.rs:314-323 | Accepting a friendship a second time is refused. |
| Commands.ResentDmIsStoredTwice | crates/app/src/social_service.rs:65-96 | A direct message sent again under a fresh nonce is stored again under another id. |
| Messaging.DmAcceptedIff | crates/domain/src/social/can_dm.rs:15-36 | A message goes through exactly between two different known users, sealed for both, with no block in either direction and, to a recipient who takes them from friends only, under an accepted friendship. |
| Messaging.DmIsStored | crates/app/src/social_service.rs:65-96 | And is stored as sent, each side with the copy sealed for them. |
| Messaging.BlockAcceptedIff | crates/app/src/social_service.rs:190-197 | Blocking takes two different known users, and afterwards they are blocked. |
| Messaging.RequestAcceptedIff | crates/app/src/social_service.rs:267-279 | So does asking for friendship; a new request is pending, one between two who have a record changes nothing. |
| Messaging.AcceptedIff | crates/app/src/social_service.rs:314-323 | A request is accepted exactly by the one it was addressed to, while it is pending. |
| Messaging.AcceptedAreFriends | crates/app/src/social_service.rs:314-323 | And makes them friends. |
| Messaging.TargetIff | crates/adapter-federation/src/command/target_scope.rs:13-37 | Which scopes a command goes to: both homes for the two-user records, the sender's for a message, the server of the proposal for a vote. |
| Messaging.CommandsReachTheirOwner | crates/adapter-federation/src/command/target_scope.rs:13-37 | Whatever a command writes belongs to one of the scopes it goes to. |
| Blocking.SubmittedOnce | crates/adapter-federation/src/command/write_router.rs:56-92 | A submission that succeeds has run its share exactly once on every distinct owner, each on what it had become by then, and everything else that happened to any node is its own doing. |
| Blocking.BlocksStay | crates/adapter-store-memory/src/lib.rs:1051-1064 | Nothing a node does or pulls ever removes a block. |
| Blocking.BlockSilences | crates/domain/src/social/can_dm.rs:15-36 | A block in either direction refuses direct messages in both. |
| Blocking.BlockIsPermanent | crates/adapter-federation/src/command/execute.rs:28-60 | From an owner's own commit on, whether or not the other home's succeeds, and whatever all nodes do before, between and after, it has executed the block once and refuses every later direct message between the two, both ways. |
| Blocking.AcceptedBlockRanEverywhere | crates/adapter-federation/src/command/write_router.rs:56-92 | When the submission succeeds, every owner's commit did. |
| Blocking.EveryHomeHasATurn | crates/adapter-federation/src/command/write_router.rs:65-76 | Each of the two homes has a commit on its owner. |
| Blocking.SubmissionKeepsOneRecord | crates/adapter-store-memory/src/lib.rs:1052-1064 | However a submission ends, no node holds a block twice. |
| Blocking.RedrivingEndsWithOneRecord | crates/adapter-federation/src/command/write_router.rs:52-55 | After any failed tries, with the nodes going on before, during and after each, one that succeeds leaves exactly one record on every owner of the two homes, for good. |
| Franchise.EvaluateEligibility | crates/domain/src/franchise/evaluate_eligibility.rs:10-54 | The list of what stands in the way is empty exactly when every criterion is met, and names exactly the failing ones; a bar is the only reason of a barred account. |
| Franchise.SlotOpenIff | crates/domain/src/franchise/enfranchisement_slots.rs:13-19 | With n before the window and a admitted in it, a slot is open exactly while a is below max(5, ceil(n/9)). |
| Franchise.SlotKeepsBound | crates/domain/src/franchise/enfranchisement_slots.rs:13-19 | An open slot never takes a window past that bound, saturating arithmetic included. |
| Franchise.TwelveOfAHundred | crates/domain/src/franchise/enfranchisement_slots.rs:5-19 | A server of 100 admits twelve before the cap of ten closes. |
| Franchise.OnlyEarned | crates/app/src/services.rs:504-549 | A change makes a citizen only by founding or by an earned admission, and never unmakes one. |
| Franchise.GrowthBound | crates/app/src/services.rs:504-549 | In every run, no state up to 30 days after an instant has more than max(5, ceil(n/9)) citizens enfranchised from it on, n before it. |
| Franchise.EveryCitizenHasAnOrigin | crates/app/src/services.rs:336-549 | Every citizen was made by one earlier step, at the time their row records. |
| Franchise.PhaseNeverFalls | crates/domain/src/server/phase.rs:25-33 | The citizen count never shrinks and the phase never goes back. |
| UseCases.Platform.FoundServerWithVisibility | crates/app/src/services.rs:336-370 | Founding refuses in the program's order or mints an id and writes the server and its founding citizen, on tables and outbox. |
| UseCases.Platform.Join | crates/app/src/services.rs:483-498 | Joining writes one ordinary membership, on tables and outbox, or refuses. |
| UseCases.Platform.Accept | crates/app/src/services.rs:401-425 | So does accepting an invite that stands, in a server that takes invites. |
| UseCases.Platform.Enfranchise | crates/app/src/services.rs:504-549 | Admits exactly when nothing is unmet and a slot is open; else reports the unmet criteria or the admitted count. |
| Services.FoundChangesRoll | crates/app/src/services.rs:336-370 | Founding adds one citizen to a server nobody belonged to. |
| Services.JoinChangesRoll | crates/app/src/services.rs:483-498 | Joining adds one ordinary member. |
| Services.InviteChangesRoll | crates/app/src/services.rs:401-425 | So does an invite. |
| Services.EnfranchiseChangesRoll | crates/app/src/services.rs:504-549 | An admission is an earned one: eligible, under an open slot, everything else as it was. |
| Services.SettingsKeepRoll | crates/app/src/services.rs:651-672 | Writing a contribution or a sharing setting changes nobody's franchise. |
| Joining.FoundedIff | crates/app/src/services.rs:336-370 | A server is founded exactly by a known account that is not barred, under a name nobody has. |
| Joining.NewServerIs | crates/domain/src/server/server.rs:88-112 | A server starts with criteria of 30 days, 14 days and 5, invites open, votes unweighted and every ballot kind but the three on vote weights switched on. |
| Joining.FoundedIs | crates/app/src/services.rs:336-370 | Founding writes such a server and its founder as its citizen from that moment, and nothing else. |
| Joining.JoinedIff | crates/app/src/services.rs:483-498 | A link lets in exactly a known account into a known server it is not a member of, as an ordinary member. |
| Joining.AcceptedIff | crates/app/src/services.rs:401-425 | An invite lets in exactly where it is known and not revoked and the server takes invites. |
| Joining.RevokedAdmitsNobody | crates/app/src/services.rs:401-425 | A revoked invite lets nobody in. |
| Joining.UnderCapIff | crates/domain/src/franchise/enfranchisement_slots.rs:13-19 | A slot is open exactly while fewer were admitted in 30 days than max(5, a tenth of the citizens rounded up). |
| Joining.AdmittedIff | crates/app/src/services.rs:504-549 | A member becomes a citizen exactly when not one yet, not barred, old enough in account and membership, of enough contribution, not sanctioned, and under an open slot; and is otherwise as before. |
| Joining.SettingsIff | crates/app/src/services.rs:651-672 | A member's contribution, written directly, and their choice to pass on history are set for exactly the known members, on their row alone. |
| FranchiseRuns.ActStep | crates/app/src/services.rs:336-549 | Every act of the services changes the roll in one of those ways and keeps rows at their keys and new server ids unused. |
| FranchiseRuns.ServiceRunIsRollRun | crates/app/src/services.rs:336-549 | Any run of the services under a clock that does not go back is a run of the roll. |
| FranchiseRuns.PlatformGrowthBound | crates/app/src/services.rs:504-549 | However the services are used, within 30 days from any instant no more than max(5, ceil(n/9)) become citizens of a server that had n before. |
| FranchiseRuns.PlatformFranchiseIsEarned | crates/app/src/services.rs:336-549 | Every citizen of every reachable state founded their server or was admitted with every criterion met and a slot open. |
| Voting.Isqrt | crates/domain/src/weighting/vote_weighting.rs:40-52 | The integer square root. |
| Voting.WeightOf | crates/domain/src/weighting/vote_weighting.rs:40-52 | Every weight lies between 1 and 16. |
| Casting.WeightIs | crates/domain/src/weighting/vote_weighting.rs:40-52 | Under each scheme: one; one more than the square root of the contribution; one more than the full years of 365 days since enfranchisement; or the granted weight; held in 1 to 16. |
| Casting.BallotWeightIs | crates/app/src/governance_service.rs:145-167 | A ballot weighs what the scheme gives where the scope covers ballots, one where it does not, and nothing unless its voter is a citizen not under a sanction. |
| Voting.TallyIgnoresOrder | crates/app/src/governance_service.rs:145-167 | The tally does not depend on the order votes were cast or stored in. |
| Voting.ExtraAyeHelps | crates/domain/src/governance/decide.rs:9-25 | A further aye of any weight never un-passes a ballot. |
| Voting.ChangingMyVoteToAye | crates/app/src/governance_service.rs:145-167 | Nor does a voter changing nay to aye, under any weights. |
| Voting.PassingNeedsAyes | crates/domain/src/governance/decide.rs:9-25 | A passed ballot has ayes above the approval share of the quorum share of the whole roll. |
| Voting.AmendmentShare | crates/domain/src/governance/threshold_for.rs:10-38 | A constitutional change needs more than 45% of a Chartering roll, more than 33.33% of a Sovereign one. |
| BallotLife.AmendedByTheRoll | crates/domain/src/governance/threshold_for.rs:10-38 | An unweighted constitutional change passed only if the franchised members who voted aye, each counted once, are more than 45% of a Chartering roll or 33.33% of a Sovereign one. |
| Voting.HeadCountIff | crates/app/src/governance_service.rs:145-167 | The weight cast is never below the number of franchised voters, and equals it if and only if none of them weighs more than one. |
| Voting.UnweightedIsHeadCount | crates/app/src/governance_service.rs:145-167 | Unweighted, the count is the number of franchised voters. |
| Voting.AyesAreHeads | crates/app/src/governance_service.rs:145-167 | And its ayes are the franchised members who voted aye. |
| Voting.TurnoutIsReal | crates/app/src/governance_service.rs:145-167 | And never exceeds the roll it is measured against. |
| Voting.LoneAyePassesIff | crates/domain/src/governance/decide.rs:9-25 | One aye alone passes a ballot if and only if there is a roll, the bar is short of unanimity, and its weight meets the quorum of the whole roll. |
| Voting.LoneAmendmentIff | crates/domain/src/governance/threshold_for.rs:10-38 | One aye of weight w amends the constitution alone if and only if the roll has at least ten and at most 5w/3 citizens while Chartering, at most 2w once Sovereign. |
| UseCases.Platform.Propose | crates/app/src/governance_service.rs:24-70 | Opens a proposal under a minted id for a franchised citizen where the kind is governed and the phase allows it, or refuses. |
| Casting.SwitchIs | crates/domain/src/governance/proposal_kind.rs:79-102 | Which switch of the governance surface each kind is opened under. |
| Casting.InReachIff | crates/domain/src/governance/threshold_for.rs:10-38 | Only an amendment is ever out of reach, exactly below ten citizens. |
| Casting.OpenedIff | crates/app/src/governance_service.rs:24-70 | A proposal is opened exactly by a citizen not under a sanction, in a known server whose switch for the kind is on, an amendment only from ten citizens on. |
| Casting.OpenedIs | crates/app/src/governance_service.rs:24-70 | It is stored open under its id, by its proposer, with three days to vote and no effect; nothing else changes. |
| UseCases.Platform.CastVoteAs | crates/app/src/governance_service.rs:96-112 | Records the vote on tables and outbox or refuses, as specified; what that is, say the next four. |
| Casting.VoteAcceptedIff | crates/app/src/governance_service.rs:96-112 | A vote is accepted exactly when its proposal is known and open and its voter is a known citizen of that server not under a sanction. |
| Casting.ForwardedVote | crates/democrachat/src/command_executor.rs:30-66 | A vote that comes as a forwarded command is the same vote. |
| Casting.VoteIsStored | crates/app/src/governance_service.rs:110 | Afterwards the store holds exactly one ballot of that voter on that proposal, on the side asked for; every other ballot is as before and nothing else changed. |
| Casting.VoteIsCounted | crates/app/src/governance_service.rs:145-167 | The weighted tally is then that of the other voters and the voter's own weight on the side they chose. |
| UseCases.Platform.CountBallots | crates/app/src/governance_service.rs:145-167 | The loop's tally is the specified one; votes of the no longer franchised weigh nothing. |
| UseCases.Platform.ApplyToMember | crates/app/src/governance_service.rs:171-296 | Sanctions and granted weights rewrite one stored membership, never its tier; `Effects.BanSilences` and `Effects.GrantWeighs` say to what effect. |
| UseCases.Platform.ApplyToServer | crates/app/src/governance_service.rs:171-296 | Settings rewrite the server's row; always-on ballot kinds stay on. |
| UseCases.Platform.ApplyToPlaces | crates/app/src/governance_service.rs:171-296 | Channels and rules are created under a free name and a minted id or removed when found; of several channels of one name, whichever the table's hash order gives first. |
| UseCases.Platform.ApplyToRoles | crates/app/src/governance_service.rs:171-296 | Roles are created under a minted id, removed, given and taken within their own server. |
| UseCases.Platform.ApplyEffect | crates/app/src/governance_service.rs:171-296 | A passed ballot's effect is the port call its kind specifies, or none, made once. |
| Effects.BanSanctions | crates/app/src/governance_service.rs:199-213 | A ban or a timeout sanctions that member, and does nothing to anybody or anything else. |
| Effects.SanctionSilences | crates/app/src/chat_service.rs:436-462 | Somebody under a sanction is not franchised, weighs nothing, and has every post, sealed post, reply, vote and proposal in that server refused. |
| Effects.BanSilences | crates/app/src/governance_service.rs:199-213 | So has a member after an executed ban or timeout. |
| SanctionRuns.SanctionsLast | crates/app/src/governance_service.rs:199-213 | No service ever lifts a sanction: over any run it stays. |
| SanctionRuns.BannedForGood | crates/app/src/governance_service.rs:199-213 | From the call that executes it on, over any run, a banned or timed-out member stays silent; when a timeout was to end plays no part. |
| Effects.GrantIsWritten | crates/app/src/governance_service.rs:244-251 | A granted weight is written on that member's row, and on nothing else. |
| Effects.GrantWeighs | crates/app/src/governance_service.rs:244-251 | Where ballots weigh by role, a citizen's then weighs what was granted, held in 1 to 16; nobody is enfranchised by a grant. |
| Effects.SettingIsSet | crates/app/src/governance_service.rs:214-291 | After each settings ballot the server has that setting and every other field as before, and nothing else changed; the two always-on kinds stay on. |
| Effects.ClosedInvitesAdmitNobody | crates/app/src/governance_service.rs:285-291 | After invites were closed nobody gets in by one. |
| Effects.SwitchedOffIsNotOpened | crates/app/src/governance_service.rs:214-219 | A kind switched off is not opened any more. |
| Effects.NewCriteriaAdmit | crates/app/src/governance_service.rs:220-225 | New criteria are those the next citizen is admitted under. |
| Effects.ChannelIsOpened | crates/app/src/governance_service.rs:174-185 | A channel is opened under its normalized name and a new id, unless that name is empty or taken. |
| Effects.ChannelIsClosed | crates/app/src/governance_service.rs:186-191 | One channel of that name goes, with exactly its messages; without one nothing does. |
| Effects.RuleIsMadeOrGone | crates/app/src/governance_service.rs:192-197 | A rule is added under a new id; a removal takes the rule named, of whichever server, and no other. |
| Effects.RoleIsMade | crates/app/src/governance_service.rs:252-258 | A role is made under its normalized name and a new id, unless that name is empty or taken. |
| Effects.RoleIsGone | crates/app/src/governance_service.rs:259-264 | A role of this server goes with its assignments; one of another server stays. |
| Effects.RoleIsGivenOrTaken | crates/app/src/governance_service.rs:265-274 | Afterwards the user has the role, or has it not, and every other assignment is as before; a role of another server is neither given nor taken. |
| Effects.IdleChangesNothing | crates/app/src/governance_service.rs:292-294 | A recall and the removal of content change nothing. |
| Effects.AppliedLeaves | crates/app/src/governance_service.rs:117-141 | Marking the proposal applied is all that resolving adds to an effect. |
| UseCases.Platform.ResolveProposal | crates/app/src/governance_service.rs:117-141 | One pass of the loop closes when due and applies when matured; which ballots pass, `Closing.ResolvedIff` says. |
| UseCases.Platform.Resolve | crates/app/src/governance_service.rs:117-141 | The loop over the snapshot leaves the specified tables, outbox and counters, and has executed the specified effects. |
| Governance.EffectSparesBallots | crates/app/src/governance_service.rs:171-296 | No effect touches a proposal, a vote, a tier or an enfranchisement time. |
| Governance.SettleOutcome | crates/domain/src/governance/proposal.rs:56-81 | A proposal only leaves Open when due, only becomes applied when passed and matured, and is then quiet. |
| Closing.ClosedIff | crates/domain/src/governance/proposal.rs:56-81 | A ballot passes exactly when it meets the bar of its kind in numbers: 10% of the roll and over 50% aye to remove content; 60% and over 75%, or 50% and over 66.66%, to amend from ten and from 25 citizens, never below; 30% and over 60% for the rest. Passed amendments take effect seven days later, others at once. |
| Closing.SettledAtTurn | crates/app/src/governance_service.rs:117-141 | Each proposal of a resolving call ends as it is settled at its turn, on the tables its predecessors left. |
| Closing.ResolvedIff | crates/app/src/governance_service.rs:117-141 | Every due proposal of the server ends passed exactly when the ballots on it, weighed at its turn, meet that bar; no other changes its status. |
| Closing.AppliedIff | crates/app/src/governance_service.rs:117-141 | Afterwards every proposal of the server that has passed and whose time has come is marked applied, no other is, and nothing but status and mark has changed. |
| Closing.ResolvedByHeads | crates/app/src/governance_service.rs:117-167 | Unweighted, by heads: the franchised voters and those of them who voted aye at that turn. |
| Governance.ResolveOutcome | crates/app/src/governance_service.rs:117-141 | Resolving a server settles each of its proposals and touches no other proposal, vote or franchise. |
| Governance.CapturedPhaseStaysValid | crates/app/src/governance_service.rs:117-141 | The citizen count and phase read before the loop stay those of the roll all through it. |
| Governance.ResolveTwiceIsOnce | crates/app/src/governance_service.rs:117-141 | Resolving again at the same instant changes nothing: not the tables, not the outbox, and no effect is executed again. |
| Governance.ResolveKeepsLog | crates/app/src/governance_service.rs:117-141 | Resolving executes no effect a second time, only effects of passed and matured ballots, and marks exactly those applied. |
| BallotLife.DecidedOnce | crates/domain/src/governance/proposal.rs:56-81 | Over any run a decided proposal keeps its status and one marked applied stays so marked. |
| BallotLife.AppliedOnlyWhenMature | crates/domain/src/governance/proposal.rs:56-81 | A ballot is marked applied only when passed and its time has come; a constitutional one no sooner than ten days after opening. |
| BallotLife.NothingAppliedOnOpening | crates/app/src/governance_service.rs:24-70 | A new proposal is open and unapplied. |
| BallotLife.ResolvingIsAStep | crates/app/src/governance_service.rs:117-141 | Resolving is a step of such a run. |
| BallotLife.OpeningIsAStep | crates/app/src/governance_service.rs:24-70 | So is opening under a fresh id. |
| BallotLife.VotingIsAStep | crates/app/src/governance_service.rs:96-112 | So is voting. |
| BallotRuns.NewProposalIsNew | crates/adapter-store-memory/src/lib.rs:806-815 | The id a new proposal takes is one no stored proposal has. |
| BallotRuns.ServiceRunIsBallotRun | crates/app/src/governance_service.rs:24-141 | Every run of the services is such a run. |
| BallotRuns.EffectsHappenOnce | crates/app/src/governance_service.rs:117-141 | Over any run of the services, no proposal's effect is executed twice, none before it passed and matured, constitutional ones no sooner than ten days after opening, and those executed are exactly those marked applied. |
| BallotRuns.RulesAreMadeOnce | crates/app/src/governance_service.rs:192-195 | Exactly one rule id is handed out for every executed ballot that adds a rule. |
| BallotRuns.EffectsNeverOverwrite | crates/app/src/governance_service.rs:171-296 | In any run, a ballot that adds a rule, a role or a channel adds it under an id no stored one has. |
| BallotLife.StoreKeepsOneBallotEach | crates/adapter-store-memory/src/lib.rs:840-847 | After any port call the store holds one vote per proposal and voter. |
| BallotLife.CountedOnce | crates/app/src/governance_service.rs:145-167 | So a tally counts each voter once. |
| UseCases.Platform.AdjustContribution | crates/app/src/chat_service.rs:512-517 | A member's score moves by the delta and is held at zero. |
| UseCases.Platform.ReactTo | crates/app/src/chat_service.rs:369-402 | A franchised citizen's first reaction to someone else's message adds one to the author's score, any other none. |
| UseCases.Platform.UnreactTo | crates/app/src/chat_service.rs:406-432 | Withdrawing the last such reaction takes it back. |
| Contribution.ReactedIff | crates/app/src/chat_service.rs:369-402 | A reaction is accepted exactly with an emoji, from a known member of the message's server, and is then stored once. |
| Contribution.UnreactedIff | crates/app/src/chat_service.rs:406-432 | It is taken back for any known user and message, member or not; then it is gone and every other is there. |
| Contribution.EndorsementsAfterReact | crates/app/src/chat_service.rs:369-402 | A reaction adds at most its own endorsing pair. |
| Contribution.EndorsementsAfterUnreact | crates/app/src/chat_service.rs:406-432 | A withdrawal removes that pair exactly when no other reaction of the user stays. |
| Contribution.UnreactConserves | crates/app/src/chat_service.rs:406-432 | Scores keep counting endorsements, and the clamp at zero never takes effect. |
| Contribution.ContributionIsConserved | crates/app/src/chat_service.rs:369-432 | Over any run of reacting and unreacting every contribution stays the number of endorsing pairs. |
| Contribution.NoReactionsMatch | crates/app/src/chat_service.rs:369-432 | It starts so, with no reactions and zero scores. |
| Contribution.RoundTripIff | crates/app/src/chat_service.rs:406-432 | Reacting and taking it back restores the score if and only if the reactor's standing is the same both times, or there was neither endorsement nor score. |
| ScoreRuns.ScoreIsCount | crates/app/src/chat_service.rs:369-432 | Over any run of all the services, every member's contribution is the number of their endorsements plus what each act slipped: what the floor at zero held back of a reaction, what the testing helper wrote, and the endorsements any other act made or undid. |
| ScoreRuns.OtherSlips | crates/app/src/chat_service.rs:369-432 | An act other than reacting makes or undoes an endorsement only by changing the reactor's standing or removing the message with its channel. |
| ScoreRuns.ReactionCredits | crates/app/src/chat_service.rs:369-432 | Reacting and taking back move the author's score by the endorsement made or undone, held at zero, and by nothing when there is none. |
| ScoreRuns.ReactionsConserve | crates/app/src/chat_service.rs:369-432 | From any moment at which a member's score is that number it stays so, whatever the services do, until an act other than a reaction slips. |
| Ids.ComposeId | crates/domain/src/node/compose_id.rs:15-17 | Node and masked sequence are read back from the id. |
| Ids.MintedIdsAreDistinct | crates/domain/src/node/compose_id.rs:15-17 | Two ids are equal exactly when node and masked sequence are. |
| Ids.MintedIdsGrow | crates/domain/src/node/compose_id.rs:15-17 | Within 48 bits a node's ids grow as minted. |
| Forest.BuildLevel | crates/domain/src/chat/build_message_tree.rs:34-47 | The recursion terminates on any parents, and a level lists its bucket in order. |
| Forest.NoLoops | crates/domain/src/chat/build_message_tree.rs:34-47 | No way down from the roots comes past the same message twice. |
| MessageTree.SortBuckets | crates/domain/src/chat/build_message_tree.rs:14-31 | Every bucket is sorted where it stands. |
| MessageTree.GroupByParent | crates/domain/src/chat/build_message_tree.rs:14-31 | Each message is filed under its parent, or among the roots when the parent is missing. |
| MessageTree.BuildMessageTree | crates/domain/src/chat/build_message_tree.rs:14-31 | Grouping, sorting and building give the specified forest. |
| MessageTree.ForestHoldsTheAnchored | crates/domain/src/chat/build_message_tree.rs:14-47 | The forest holds exactly once each message whose parent chain reaches a root or a missing parent, and nothing else. |
| MessageTree.ForestHangsRight | crates/domain/src/chat/build_message_tree.rs:14-47 | Every node hangs under the message it answers, at the top when there is none. |
| MessageTree.ForestIsInOrder | crates/domain/src/chat/build_message_tree.rs:14-47 | Siblings come in increasing id at every level. |
| MessageTree.NothingIsLost | crates/domain/src/chat/build_message_tree.rs:14-47 | When replies take larger ids the forest holds the whole list. |
| MessageTree.CyclesAreDropped | crates/domain/src/chat/build_message_tree.rs:14-47 | Two messages that answer each other are in no forest. |
| Chat.ChatService.CreateChannel | crates/app/src/chat_service.rs:19-60 | While a server is a seed its founder opens a channel under a free name and a minted id; all else is refused. |
| Chat.ChatService.InsertMessage | crates/app/src/chat_service.rs:464-495 | A plaintext message is refused in an encrypted channel or without content, else stored under the next id. |
| Chat.ChatService.Post | crates/app/src/chat_service.rs:95-125 | Posting checks the poster in the program's order. |
| Chat.ChatService.PostSealed | crates/app/src/chat_service.rs:160-203 | A sealed message needs an encrypted channel and a parent, if any, in that channel. |
| Chat.ChatService.Reply | crates/app/src/chat_service.rs:206-235 | A reply goes into its parent's channel. |
| Chat.ChatService.AuthoredMessage | crates/app/src/chat_service.rs:497-510 | Answers the stored message exactly when the user is known and is its author; otherwise the error says which is missing. |
| Chat.ChatService.Edit | crates/app/src/chat_service.rs:238-252 | The author's edit changes body and time, nothing else. |
| Chat.ChatService.Delete | crates/app/src/chat_service.rs:255-265 | Deleting removes the blobs of the message's attachments, and no others, and blanks it in place; a refusal removes nothing. |
| Posting.PostedIff | crates/app/src/chat_service.rs:95-125 | A message is accepted exactly from a known member not under a sanction, into a plaintext channel of that server, with text or files; stored by that author as written. |
| Posting.SealedIff | crates/app/src/chat_service.rs:160-203 | A sealed one, exactly into an encrypted channel, answering only a message of that channel. |
| Posting.RepliedIff | crates/app/src/chat_service.rs:206-235 | A reply, exactly from one who may speak in the server of the message it answers, where its channel still is and is plaintext. |
| Posting.EditedIff | crates/app/src/chat_service.rs:238-252 | An edit, exactly by the author and to some text; only text and edit time change. |
| Posting.DeletedIff | crates/app/src/chat_service.rs:255-265 | A deletion, exactly by the author; place, author and answers stay, text and attachments go. |
| Posting.AcceptedIsStored | crates/app/src/chat_service.rs:95-265 | What is accepted is stored under its id and nothing else changes. |
| Posting.ChannelOpenedIff | crates/app/src/chat_service.rs:19-60 | A channel is opened by hand exactly by the founder, below ten citizens, under a non-empty name free in that server. |
| Chat.PostingFits | crates/app/src/chat_service.rs:160-235 | A new message takes an id above all so far and answers a stored one of its own channel; an edited one keeps its place. |
| Chat.WritingKeepsThreads | crates/app/src/chat_service.rs:95-265 | A message written so keeps every thread. |
| PlatformRuns.RunKeepsThreads | crates/app/src/chat_service.rs:95-265 | In every reachable single-node store every reply's message is stored, in the same channel, under a smaller id. |
| Chat.ListForChannel | crates/adapter-store-memory/src/lib.rs:740-752 | A channel's list holds exactly its stored messages. |
| PlatformRuns.EveryChannelIsWhole | crates/domain/src/chat/build_message_tree.rs:14-47 | For every channel of every such store, threading loses nothing, repeats nothing, and each reply hangs under the message it answers. |
| SoundRuns.ActFits | crates/app/src/chat_service.rs:19-517 | Every use-case writes rows under ids handed out by then, new messages under ids handed out just now, stored ones in their place, and children of stored parents. |
| SoundRuns.ServiceRunIsSound | crates/app/src/governance_service.rs:117-296 | Every run of the services is a run of port calls made in discipline, channel removals by ballot included, and leaves no row under an id still to be handed out. |
| PlatformRuns.PlatformReplicates | crates/adapter-federation/src/http/poll_peer.rs:10-24 | After any run of a node's services, a peer that starts with nothing and polls often enough has every signable row if and only if no gap stalls it, and then exactly the node's rows if and only if no reaction is left over from a removed channel. |
| PlatformRuns.PlatformReplicatesAgain | crates/adapter-store-memory/src/lib.rs:502-560 | And so it is when it lost its cursor on the way and pulled everything again. |
| EmojiRanking.RankEmojis | crates/domain/src/emoji_ranking/rank_emojis.rs:14-31 | Each emoji's standing is that of the number of emoji ahead of it. |
| EmojiRanking.PositionIsRank | crates/domain/src/emoji_ranking/rank_emojis.rs:14-31 | The index the stable sort puts at position r has exactly r ahead of it. |
| EmojiRanking.RaisingHelps | crates/domain/src/emoji_ranking/rank_emojis.rs:14-31 | A higher score never worsens a rank. |
| EmojiRanking.OlderWinsTies | crates/domain/src/emoji_ranking/rank_emojis.rs:14-31 | A newer emoji never displaces an equal older one. |
| EmojiRanking.RankedEmojis | crates/app/src/emoji_service.rs:103-133 | Entry k of the list is the emoji of rank k. |
| EmojiRanking.SortsAgree | crates/app/src/emoji_service.rs:115-133 | Sorting the listed rows by score and id gives the ranking's own order. |
| EmojiRanking.ListIsTheTiers | crates/app/src/emoji_service.rs:115-133 | Entries below 128 are the active ones, the next 128 the considered, and the length is min(n, 256). |
| EmojiBoard.EmojiService.Vote | crates/app/src/emoji_service.rs:58-86 | A citizen's vote on an emoji of the same server replaces the one they had; all else is refused. |
| EmojiBoard.VoteTakenIff | crates/app/src/emoji_service.rs:58-86 | A vote is taken exactly from a known citizen not under a sanction on an emoji of that server, and stored as asked for. |
| EmojiBoard.RecastHolds | crates/adapter-store-memory/src/lib.rs:908-915 | It replaces the one they had on that emoji, and every other is as before. |
| EmojiBoard.VoteMovesScore | crates/app/src/emoji_service.rs:58-133 | It sets that emoji's score to that of the other voters, one up or one down as asked, and leaves every other. |
| EmojiBoard.ScoreIsHeads | crates/app/src/emoji_service.rs:103-114 | A score is the number of citizens whose vote is up less the number of those whose vote is down. |
| EmojiBoard.BoardCounts | crates/app/src/emoji_service.rs:91-114 | A server's list is of its own emoji and no others, each at the score its franchised voters of now give it. |
| EmojiBoard.EmojiService.Board | crates/app/src/emoji_service.rs:91-133 | A server's list is its emoji by rank, on the votes of those franchised now. |
| EmojiBoard.StoreKeepsOneEmojiVote | crates/adapter-store-memory/src/lib.rs:908-915 | After any port call there is one vote per emoji and voter. |
| EmojiBoard.UpvoteRaisesOnly | crates/app/src/emoji_service.rs:58-86 | An upvote, new or changed, never lowers that emoji's score and leaves every other. |
| EmojiBoard.UpvoteNeverHurts | crates/app/src/emoji_service.rs:58-133 | So it never worsens the emoji's place. |
| RateLimit.RateLimiter.Check | crates/adapter-web/src/middleware/rate_limit.rs:59-76 | A hit prunes, opens or reuses the key's window, and is admitted or refused with the wait. |
| RateLimit.AdmittedIff | crates/adapter-web/src/middleware/rate_limit.rs:20-76 | A request is admitted exactly when its key's last window opened a minute ago or has admitted fewer than 10 sign-ins or 120 writes; it then counts in that window or opens one. |
| RateLimit.WaitIs | crates/adapter-web/src/middleware/rate_limit.rs:59-76 | A refused one is told the whole seconds left of the window, from 1 to 60. |
| RateLimit.RetryIff | crates/adapter-web/src/middleware/rate_limit.rs:59-76 | Coming back after just that long is enough if and only if a whole number of seconds, or less than one, was left; a second more always is. |
| RateLimit.PruningIsInvisible | crates/adapter-web/src/middleware/rate_limit.rs:59-76 | With time not going back, every answer is the one a table that never prunes gives. |
| RateLimit.WindowIsBounded | crates/adapter-web/src/middleware/rate_limit.rs:59-76 | One window admits at most its limit. |
| RateLimit.AnyMinuteIsBounded | crates/adapter-web/src/middleware/rate_limit.rs:59-76 | Any half-open minute admits at most twice the limit per address and bucket. |

## Left out

- Cryptography: a verified event or command is one its named node really minted.
- HTTP, WebSocket, SMTP, storing and serving media, TLS and environment options: a request arrives, is lost, or its
  answer is.
- JSON: a payload is the row it deserializes to, or malformed, with the fields read back by name.
- Handles, slugs, tokens and name normalization: users and servers are looked up by id, normalization is a parameter.
- Registration, e-mail verification, passwords, juries, image checks, the browser client: nothing proved here needs them.
- Standbys, rehoming, node keys and load reports in etcd, and the timing of lease renewal: a lease may end at any step.
- Row-key conflicts between peers: keys of different peers are taken as disjoint.
- Interleaving inside a service call: services run one call at a time; the control plane, both owner lookups of a
  fenced event, the commits of a command and its retries, and polls are interleaved with everything else.
- Changes pulled from peers during a run of one node's services: the runs of `ServiceRuns` are of a node on its own.
- Emoji ids and the minting of anything the services not spelled out write.
- Closing time when voting: `cast_vote_as` looks only at the Open status, so nothing bounds when a vote is cast.
- A queue of those waiting for a slot, which a comment mentions and the code does not have.
- Fencing.FencingHolds: is about events of batches signed with answers the registry gave; a node that stamps an epoch
  from the future passes, because only older epochs are refused. It asks that consumer and producer derive one scope.
- Blocking.BlockIsPermanent: is about the nodes that owned the two homes when the block was submitted.
- FranchiseRuns.ServiceRunIsRollRun: asks for a clock that does not go back and counters that fit their 48 bits.
- Store.MemoryStore.ApplyIncoming: the program's one match over entity and operation is split by group into methods,
  and the tables are one struct field replaced as a whole, so aliasing between tables is not at stake.
