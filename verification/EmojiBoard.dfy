/** Voting on emoji and the list a server shows, on the store: an upvote never worsens an emoji's place. */
module EmojiBoard {
  import opened Domain
  import opened Replica
  import opened Keyed
  import opened Calls
  import opened Store
  import opened EmojiRanking
  import Ids

  datatype EmojiError = ServerMissing | UserMissing | NotACitizen | EmojiMissing

  datatype Ballot = Turned(error: EmojiError) | Taken(vote: EmojiVote)

  predicate IsCitizenOf(t: Tables, user: UserId, server: ServerId) {
    (user, server) in t.memberships && t.memberships[(user, server)].IsFranchised()
  }

  /** A citizen's vote on an emoji of the same server, which replaces the one they had. */
  function VoteEmoji(t: Tables, user: UserId, server: ServerId, emoji: EmojiId, isUp: bool): Ballot {
    if server !in t.servers then Turned(ServerMissing)
    else if user !in t.users then Turned(UserMissing)
    else if !IsCitizenOf(t, user, server) then Turned(NotACitizen)
    else if emoji !in t.emojis || t.emojis[emoji].serverId != server then Turned(EmojiMissing)
    else Taken(EmojiVote(server, emoji, user, isUp))
  }

  function CitizensOf(t: Tables, server: ServerId): set<UserId> {
    set k | k in t.memberships && k.1 == server && t.memberships[k].IsFranchised() :: k.0
  }

  ghost predicate EmojisKeyed(t: Tables) {
    forall id :: id in t.emojis ==> t.emojis[id].id == id
  }

  function EmojiIds(t: Tables, server: ServerId): set<EmojiId> {
    set id | id in t.emojis && t.emojis[id].serverId == server
  }

  /** A server's emoji, oldest first. */
  function EmojisOf(t: Tables, server: ServerId): (r: seq<Emoji>)
    ensures |r| == |Ids.Sorted(EmojiIds(t, server))|
  {
    var ids := Ids.Sorted(EmojiIds(t, server));
    seq(|ids|, i requires 0 <= i < |ids| => assert ids[i] in ids; t.emojis[ids[i]])
  }

  lemma EmojisAreOldestFirst(t: Tables, server: ServerId)
    requires EmojisKeyed(t)
    ensures OldestFirst(EmojisOf(t, server))
  {
    var ids := Ids.Sorted(EmojiIds(t, server));
    forall i | 0 <= i < |ids| ensures EmojisOf(t, server)[i].id == ids[i] { assert ids[i] in ids; }
  }

  function VotesIn(t: Tables, server: ServerId): seq<EmojiVote> {
    Retain(t.emojiVotes, (v: EmojiVote) => v.serverId == server)
  }

  function BoardScores(t: Tables, server: ServerId): (r: seq<int>)
    ensures |r| == |EmojisOf(t, server)|
  {
    ScoresOf(EmojisOf(t, server), VotesIn(t, server), CitizensOf(t, server))
  }

  class EmojiService {
    const store: MemoryStore

    constructor (store: MemoryStore)
      ensures this.store == store
    {
      this.store := store;
    }

    method Vote(user: UserId, server: ServerId, emoji: EmojiId, isUp: bool) returns (r: Option<EmojiError>)
      modifies store`tables, store`outbox, store`nextOutbox
      ensures var b := VoteEmoji(old(store.tables), user, server, emoji, isUp);
              && store.State() == (if b.Taken? then Exec(old(store.State()), UpsertEmojiVote(b.vote))
                                   else old(store.State()))
              && r == (if b.Turned? then Some(b.error) else None)
    {
      if server !in store.tables.servers {
        return Some(ServerMissing);
      }
      if user !in store.tables.users {
        return Some(UserMissing);
      }
      if (user, server) !in store.tables.memberships || !store.tables.memberships[(user, server)].IsFranchised() {
        return Some(NotACitizen);
      }
      if emoji !in store.tables.emojis || store.tables.emojis[emoji].serverId != server {
        return Some(EmojiMissing);
      }
      store.UpsertEmojiVote(EmojiVote(server, emoji, user, isUp));
      return None;
    }

    /** The vote list of a server: the emoji of rank 0, 1, 2, … on the votes of those who are citizens now. */
    method Board(server: ServerId) returns (items: seq<Shown>)
      requires EmojisKeyed(store.tables)
      ensures server !in store.tables.servers ==> items == []
      ensures server in store.tables.servers ==>
        items == ByRank(EmojisOf(store.tables, server), BoardScores(store.tables, server))
    {
      if server !in store.tables.servers {
        return [];
      }
      var t := store.tables;
      EmojisAreOldestFirst(t, server);
      items := RankedEmojis(EmojisOf(t, server), VotesIn(t, server), CitizensOf(t, server));
    }
  }

  // --- what a vote does to the list ---------------------------------------------------------------------------

  ghost predicate OneEmojiVoteEach(votes: seq<EmojiVote>) {
    DistinctBy(votes, EmojiVoteKey)
  }

  /** The store keeps one emoji vote per voter and emoji. */
  lemma StoreKeepsOneEmojiVote(t: Tables, c: Call)
    requires OneEmojiVoteEach(t.emojiVotes)
    ensures OneEmojiVoteEach(TablesAfter(t, c).emojiVotes)
  {
    if c.UpsertEmojiVote? {
      var v := c.emojiVote;
      var rest := WithoutEmojiVote(t.emojiVotes, v.emojiId, v.voter);
      assert OneEmojiVoteEach(rest) by {
        var e, u := v.emojiId, v.voter;
        RetainDistinct(t.emojiVotes, EmojiVoteKey, (x: EmojiVote) => !(x.emojiId == e && x.voter == u));
      }
      forall i | 0 <= i < |rest| ensures EmojiVoteKey(rest[i]) != EmojiVoteKey(v) { assert rest[i] in rest; }
    }
  }

  predicate IsBy(v: EmojiVote, e: EmojiId, u: UserId) { v.emojiId == e && v.voter == u }

  lemma WithoutOneMore(votes: seq<EmojiVote>, x: EmojiVote, e: EmojiId, u: UserId)
    ensures WithoutEmojiVote(votes + [x], e, u) == WithoutEmojiVote(votes, e, u) + if IsBy(x, e, u) then [] else [x]
  {
    RetainOneMore(votes, x, (v: EmojiVote) => !(v.emojiId == e && v.voter == u));
  }

  lemma NobodyLeft(votes: seq<EmojiVote>, x: EmojiVote, e: EmojiId, u: UserId)
    requires OneEmojiVoteEach(votes + [x]) && IsBy(x, e, u)
    ensures WithoutEmojiVote(votes, e, u) == votes
  {
    var all := votes + [x];
    forall v | v in votes ensures !IsBy(v, e, u) {
      var i :| 0 <= i < |votes| && votes[i] == v;
      assert EmojiVoteKey(all[i]) != EmojiVoteKey(all[|votes|]);
    }
    RetainAll(votes, (v: EmojiVote) => !(v.emojiId == e && v.voter == u));
  }

  lemma ScoreOneMore(votes: seq<EmojiVote>, x: EmojiVote, citizens: set<UserId>, id: EmojiId)
    ensures NetScore(votes + [x], citizens, id) == NetScore(votes, citizens, id) +
      if x.emojiId == id && x.voter in citizens then (if x.isUp then 1 else -1) else 0
  {
  }

  /** Taking one voter's vote off an emoji moves that emoji's score by at most one, and no other's. */
  lemma {:induction false} ScoreWithout(votes: seq<EmojiVote>, citizens: set<UserId>, e: EmojiId, u: UserId,
                                        id: EmojiId)
    requires OneEmojiVoteEach(votes)
    ensures var score := NetScore(WithoutEmojiVote(votes, e, u), citizens, id);
            if id == e && u in citizens then score >= NetScore(votes, citizens, id) - 1
            else score == NetScore(votes, citizens, id)
    decreases |votes|
  {
    if votes != [] {
      var front, x := votes[..|votes| - 1], votes[|votes| - 1];
      assert votes == front + [x];
      WithoutOneMore(front, x, e, u);
      ScoreOneMore(front, x, citizens, id);
      if IsBy(x, e, u) {
        NobodyLeft(front, x, e, u);
        assert front + [] == front;
      } else {
        ScoreWithout(front, citizens, e, u, id);
        ScoreOneMore(WithoutEmojiVote(front, e, u), x, citizens, id);
      }
    }
  }

  function Recast(votes: seq<EmojiVote>, v: EmojiVote): seq<EmojiVote> {
    WithoutEmojiVote(votes, v.emojiId, v.voter) + [v]
  }

  /** A citizen's upvote, new or changed, never lowers the emoji's score and touches no other. */
  lemma UpvoteRaisesOnly(emojis: seq<Emoji>, votes: seq<EmojiVote>, citizens: set<UserId>, v: EmojiVote, i: nat)
    requires OneEmojiVoteEach(votes) && OldestFirst(emojis) && v.isUp
    requires i < |emojis| && emojis[i].id == v.emojiId
    ensures var before, after := ScoresOf(emojis, votes, citizens), ScoresOf(emojis, Recast(votes, v), citizens);
            after[i] >= before[i] && after == before[i := after[i]]
  {
    var before, after := ScoresOf(emojis, votes, citizens), ScoresOf(emojis, Recast(votes, v), citizens);
    var rest := WithoutEmojiVote(votes, v.emojiId, v.voter);
    assert Recast(votes, v)[..|rest|] == rest;
    forall j | 0 <= j < |emojis| ensures if j == i then after[j] >= before[j] else after[j] == before[j] {
      ScoreWithout(votes, citizens, v.emojiId, v.voter, emojis[j].id);
    }
  }

  /** An upvote never worsens an emoji's place in the list. */
  lemma UpvoteNeverHurts(emojis: seq<Emoji>, votes: seq<EmojiVote>, citizens: set<UserId>, v: EmojiVote, i: nat)
    requires OneEmojiVoteEach(votes) && OldestFirst(emojis) && v.isUp
    requires i < |emojis| && emojis[i].id == v.emojiId
    ensures Rank(ScoresOf(emojis, Recast(votes, v), citizens), i) <= Rank(ScoresOf(emojis, votes, citizens), i)
  {
    UpvoteRaisesOnly(emojis, votes, citizens, v, i);
    RaisingHelps(ScoresOf(emojis, votes, citizens), i, ScoresOf(emojis, Recast(votes, v), citizens)[i]);
  }
  // --- the vote asked for is the vote counted ------------------------------------------------------------------

  /** A vote is taken exactly from a known citizen of a known server, not under a sanction, on an emoji of that server;
      and it is stored as it was asked for, in place of the one they had, with every other as before. */
  lemma VoteTakenIff(t: Tables, user: UserId, server: ServerId, emoji: EmojiId, isUp: bool)
    ensures var b := VoteEmoji(t, user, server, emoji, isUp);
            && (b.Taken? <==>
                  && server in t.servers && user in t.users && (user, server) in t.memberships
                  && t.memberships[(user, server)].tier.Citizen? && !t.memberships[(user, server)].isSanctioned
                  && emoji in t.emojis && t.emojis[emoji].serverId == server)
            && (b.Taken? ==>
                  TablesAfter(t, UpsertEmojiVote(b.vote))
                  == t.(emojiVotes := Recast(t.emojiVotes, EmojiVote(server, emoji, user, isUp))))
  {
  }

  lemma RecastHolds(votes: seq<EmojiVote>, v: EmojiVote, other: EmojiVote)
    ensures v in Recast(votes, v)
    ensures IsBy(other, v.emojiId, v.voter) && other in Recast(votes, v) ==> other == v
    ensures !IsBy(other, v.emojiId, v.voter) ==> (other in Recast(votes, v) <==> other in votes)
  {
    var rest := WithoutEmojiVote(votes, v.emojiId, v.voter);
    assert Recast(votes, v)[|rest|] == v;
  }

  /** A citizen's vote sets its emoji's score to that of the other voters, one up or one down as asked, and leaves every
      other score; so changing an upvote into a downvote lowers it by two. */
  lemma VoteMovesScore(emojis: seq<Emoji>, votes: seq<EmojiVote>, citizens: set<UserId>, v: EmojiVote, i: nat)
    requires OneEmojiVoteEach(votes) && OldestFirst(emojis) && v.voter in citizens
    requires i < |emojis| && emojis[i].id == v.emojiId
    ensures var before, after := ScoresOf(emojis, votes, citizens), ScoresOf(emojis, Recast(votes, v), citizens);
            var others := NetScore(WithoutEmojiVote(votes, v.emojiId, v.voter), citizens, v.emojiId);
            && after == before[i := others + if v.isUp then 1 else -1]
            && before[i] == others + PartOf(votes, v.emojiId, v.voter)
  {
    var before, after := ScoresOf(emojis, votes, citizens), ScoresOf(emojis, Recast(votes, v), citizens);
    var rest := WithoutEmojiVote(votes, v.emojiId, v.voter);
    assert Recast(votes, v)[..|rest|] == rest;
    ScoreWithoutIs(votes, citizens, v.emojiId, v.voter);
    forall j | 0 <= j < |emojis| && j != i ensures after[j] == before[j] {
      ScoreWithout(votes, citizens, v.emojiId, v.voter, emojis[j].id);
    }
  }

  /** What one voter's vote contributes to an emoji's score. */
  function PartOf(votes: seq<EmojiVote>, e: EmojiId, u: UserId): int {
    if HasVoted(votes, e, u, true) then 1 else if HasVoted(votes, e, u, false) then -1 else 0
  }

  predicate HasVoted(votes: seq<EmojiVote>, e: EmojiId, u: UserId, isUp: bool) {
    exists x | x in votes :: IsBy(x, e, u) && x.isUp == isUp
  }

  lemma {:induction false} ScoreWithoutIs(votes: seq<EmojiVote>, citizens: set<UserId>, e: EmojiId, u: UserId)
    requires OneEmojiVoteEach(votes) && u in citizens
    ensures NetScore(votes, citizens, e) == NetScore(WithoutEmojiVote(votes, e, u), citizens, e) + PartOf(votes, e, u)
    decreases |votes|
  {
    if votes != [] {
      var front, x := votes[..|votes| - 1], votes[|votes| - 1];
      assert votes == front + [x];
      WithoutOneMore(front, x, e, u);
      ScoreOneMore(front, x, citizens, e);
      if IsBy(x, e, u) {
        NobodyLeft(front, x, e, u);
        assert front + [] == front;
      } else {
        ScoreWithoutIs(front, citizens, e, u);
        ScoreOneMore(WithoutEmojiVote(front, e, u), x, citizens, e);
      }
    }
  }

  // --- what a score is ------------------------------------------------------------------------------------------

  function VotersFor(votes: seq<EmojiVote>, citizens: set<UserId>, e: EmojiId, isUp: bool): set<UserId> {
    set v | v in votes && v.emojiId == e && v.isUp == isUp && v.voter in citizens :: v.voter
  }

  lemma VotersOneMore(votes: seq<EmojiVote>, x: EmojiVote, citizens: set<UserId>, e: EmojiId, isUp: bool)
    requires OneEmojiVoteEach(votes + [x])
    ensures OneEmojiVoteEach(votes)
    ensures var before := VotersFor(votes, citizens, e, isUp);
            var counts := x.emojiId == e && x.isUp == isUp && x.voter in citizens;
            && VotersFor(votes + [x], citizens, e, isUp) == before + (if counts then {x.voter} else {})
            && (counts ==> x.voter !in before)
  {
    var all := votes + [x];
    assert all[|votes|] == x;
    forall i, j | 0 <= i < j < |votes| ensures EmojiVoteKey(votes[i]) != EmojiVoteKey(votes[j]) {
      assert all[i] == votes[i] && all[j] == votes[j];
    }
    forall i | 0 <= i < |votes| ensures EmojiVoteKey(votes[i]) != EmojiVoteKey(x) { assert all[i] == votes[i]; }
  }

  /** A score is by heads: the citizens whose vote is up, less those whose vote is down. */
  lemma {:induction false} ScoreIsHeads(votes: seq<EmojiVote>, citizens: set<UserId>, e: EmojiId)
    requires OneEmojiVoteEach(votes)
    ensures NetScore(votes, citizens, e)
         == |VotersFor(votes, citizens, e, true)| - |VotersFor(votes, citizens, e, false)|
    decreases |votes|
  {
    if votes != [] {
      var front, x := votes[..|votes| - 1], votes[|votes| - 1];
      assert votes == front + [x];
      VotersOneMore(front, x, citizens, e, true);
      VotersOneMore(front, x, citizens, e, false);
      ScoreIsHeads(front, citizens, e);
      ScoreOneMore(front, x, citizens, e);
    }
  }

  /** Those who are citizens of a server now, not under a sanction, and whose vote on an emoji is so. */
  function Backers(t: Tables, server: ServerId, e: EmojiId, isUp: bool): set<UserId> {
    set v | v in t.emojiVotes && v.serverId == server && v.emojiId == e && v.isUp == isUp
            && (v.voter, server) in t.memberships && t.memberships[(v.voter, server)].tier.Citizen?
            && !t.memberships[(v.voter, server)].isSanctioned :: v.voter
  }

  /** The list is of the server's own emoji, each at the score its backers give it. */
  lemma BoardCounts(t: Tables, server: ServerId, e: EmojiId)
    requires OneEmojiVoteEach(t.emojiVotes) && EmojisKeyed(t)
    ensures (exists i :: 0 <= i < |EmojisOf(t, server)| && EmojisOf(t, server)[i].id == e)
      <==> e in t.emojis && t.emojis[e].serverId == server
    ensures forall i :: 0 <= i < |EmojisOf(t, server)| && EmojisOf(t, server)[i].id == e ==>
      BoardScores(t, server)[i] == |Backers(t, server, e, true)| - |Backers(t, server, e, false)|
  {
    var ids := Ids.Sorted(EmojiIds(t, server));
    forall i | 0 <= i < |ids| ensures EmojisOf(t, server)[i].id == ids[i] { assert ids[i] in ids; }
    if e in EmojiIds(t, server) {
      var i :| 0 <= i < |ids| && ids[i] == e;
      assert EmojisOf(t, server)[i].id == e;
    }
    RetainDistinct(t.emojiVotes, EmojiVoteKey, (v: EmojiVote) => v.serverId == server);
    ScoreIsHeads(VotesIn(t, server), CitizensOf(t, server), e);
    BackersVote(t, server, e, true);
    BackersVote(t, server, e, false);
  }

  lemma BackersVote(t: Tables, server: ServerId, e: EmojiId, isUp: bool)
    ensures VotersFor(VotesIn(t, server), CitizensOf(t, server), e, isUp) == Backers(t, server, e, isUp)
  {
    var votes := VotesIn(t, server);
    forall v: EmojiVote ensures v in votes <==> v in t.emojiVotes && v.serverId == server {}
    forall u: UserId ensures u in CitizensOf(t, server) <==> IsCitizenOf(t, u, server) {
      if IsCitizenOf(t, u, server) { assert (u, server) in t.memberships; }
    }
  }
}
