/** Emoji standings from net scores, and the list a server shows: two sorts that have to agree. */
module EmojiRanking {
  import opened Domain
  import opened Finite
  import opened Sorting

  const ACTIVE_SLOTS: nat := 128
  const CONSIDERED_SLOTS: nat := 128
  const LISTED_SLOTS: nat := ACTIVE_SLOTS + CONSIDERED_SLOTS

  datatype Standing = Active | Considered | Archived

  function Tier(rank: nat): Standing {
    if rank < ACTIVE_SLOTS then Active else if rank < LISTED_SLOTS then Considered else Archived
  }

  // --- ranks -------------------------------------------------------------------------------------------------

  /** Higher score first, equal scores by age. */
  predicate Precedes(scores: seq<int>, a: nat, b: nat) {
    a < |scores| && b < |scores| && (scores[a] > scores[b] || (scores[a] == scores[b] && a < b))
  }

  function Ahead(scores: seq<int>, i: nat): set<nat> {
    set j: nat | j < |scores| && Precedes(scores, j, i)
  }

  /** How many come before it. */
  function Rank(scores: seq<int>, i: nat): nat {
    |Ahead(scores, i)|
  }

  function Indices(n: nat): (r: seq<nat>)
    ensures |r| == n && forall i :: 0 <= i < n ==> r[i] == i
  {
    seq(n, i => i)
  }

  function ByScore(scores: seq<int>): (nat, nat) -> bool {
    (a: nat, b: nat) => a < |scores| && b < |scores| && scores[a] > scores[b]
  }

  function PrecedesIn(scores: seq<int>): (nat, nat) -> bool {
    (a: nat, b: nat) => Precedes(scores, a, b)
  }

  /** The indices, best first. */
  function Ranked(scores: seq<int>): (r: seq<nat>)
    ensures |r| == |scores|
  {
    StableSort(Indices(|scores|), ByScore(scores))
  }

  function SortedUpTo(scores: seq<int>, n: nat): (r: seq<nat>)
    ensures |r| == n
  {
    StableSort(Indices(n), ByScore(scores))
  }

  lemma HoldsEachIndex(scores: seq<int>, n: nat)
    ensures forall x: nat :: x in SortedUpTo(scores, n) <==> x < n
  {
    var all, s := Indices(n), SortedUpTo(scores, n);
    forall x: nat ensures x in s <==> x < n {
      assert x in s <==> x in multiset(s);
      assert multiset(s) == multiset(all);
      assert x in all <==> x in multiset(all);
      if x < n { assert all[x] == x; }
    }
  }

  /** Sorting by score alone, stably, orders ties by age. */
  lemma {:induction false} StableMeansByAge(scores: seq<int>, n: nat)
    requires n <= |scores|
    ensures IsSorted(SortedUpTo(scores, n), PrecedesIn(scores))
  {
    if n > 0 {
      assert Indices(n)[..n - 1] == Indices(n - 1);
      StableMeansByAge(scores, n - 1);
      HoldsEachIndex(scores, n - 1);
      var last: nat := n - 1;
      var s := SortedUpTo(scores, last);
      assert IsTransitive<nat>(PrecedesIn(scores));
      assert Agrees<nat>(s, last, ByScore(scores), PrecedesIn(scores));
      InsertSorted<nat>(s, last, ByScore(scores), PrecedesIn(scores));
    }
  }

  function Elements(s: seq<nat>): set<nat> {
    set i | 0 <= i < |s| :: s[i]
  }

  lemma {:induction false} CountDistinct(s: seq<nat>)
    requires forall i, j :: 0 <= i < j < |s| ==> s[i] != s[j]
    ensures |Elements(s)| == |s|
    decreases |s|
  {
    if s != [] {
      var n := |s| - 1;
      CountDistinct(s[..n]);
      assert Elements(s) == Elements(s[..n]) + {s[n]};
    }
  }

  /** Position and rank are the same thing: the index at position `r` has exactly `r` ahead of it. */
  lemma PositionIsRank(scores: seq<int>, r: nat)
    requires r < |scores|
    ensures Ranked(scores)[r] < |scores| && Rank(scores, Ranked(scores)[r]) == r
    ensures forall q :: 0 <= q < |scores| && q != r ==> Ranked(scores)[q] != Ranked(scores)[r]
  {
    var s := Ranked(scores);
    assert s == SortedUpTo(scores, |scores|);
    StableMeansByAge(scores, |scores|);
    HoldsEachIndex(scores, |scores|);
    assert s[r] in s;
    forall i, j | 0 <= i < j < |s| ensures Precedes(scores, s[i], s[j]) && s[i] != s[j] {
      assert PrecedesIn(scores)(s[i], s[j]);
    }
    CountDistinct(s[..r]);
    AheadIsPrefix(scores, s, r);
  }

  lemma AheadIsPrefix(scores: seq<int>, s: seq<nat>, r: nat)
    requires r < |s| && forall x: nat :: x in s <==> x < |scores|
    requires forall i, j :: 0 <= i < j < |s| ==> Precedes(scores, s[i], s[j])
    ensures Ahead(scores, s[r]) == Elements(s[..r])
  {
    forall x: nat | x in Ahead(scores, s[r]) ensures x in Elements(s[..r]) {
      assert x in s;
      var i :| 0 <= i < |s| && s[i] == x;
      assert i < r;
      assert s[..r][i] == x;
    }
    forall x | x in Elements(s[..r]) ensures x in Ahead(scores, s[r]) {
      var i :| 0 <= i < |s[..r]| && s[..r][i] == x;
      assert Precedes(scores, s[i], s[r]);
    }
  }

  lemma EveryIndexIsRanked(scores: seq<int>, i: nat) returns (r: nat)
    requires i < |scores|
    ensures r < |scores| && Ranked(scores)[r] == i && Rank(scores, i) == r
  {
    HoldsEachIndex(scores, |scores|);
    assert Ranked(scores) == SortedUpTo(scores, |scores|);
    var s := Ranked(scores);
    assert i in s;
    r :| 0 <= r < |s| && s[r] == i;
    PositionIsRank(scores, r);
  }

  /** Standings parallel to the scores: each emoji's is its rank's. */
  method RankEmojis(scores: seq<int>) returns (standings: seq<Standing>)
    ensures |standings| == |scores|
    ensures forall i :: 0 <= i < |scores| ==> standings[i] == Tier(Rank(scores, i))
  {
    var ranked := Ranked(scores);
    var table := new Standing[|scores|](_ => Archived);
    for rank := 0 to |ranked|
      invariant forall r :: 0 <= r < rank ==> ranked[r] < |scores| && table[ranked[r]] == Tier(r)
    {
      PositionIsRank(scores, rank);
      if rank < ACTIVE_SLOTS {
        table[ranked[rank]] := Active;
      } else if rank < ACTIVE_SLOTS + CONSIDERED_SLOTS {
        table[ranked[rank]] := Considered;
      } else {
        table[ranked[rank]] := Archived;
      }
    }
    standings := table[..];
    forall i | 0 <= i < |scores| ensures standings[i] == Tier(Rank(scores, i)) {
      var r := EveryIndexIsRanked(scores, i);
    }
  }

  /** More votes never worsen an emoji's rank. */
  lemma RaisingHelps(scores: seq<int>, i: nat, score: int)
    requires i < |scores| && score >= scores[i]
    ensures Rank(scores[i := score], i) <= Rank(scores, i)
  {
    SubsetSize(Ahead(scores[i := score], i), Ahead(scores, i));
  }

  /** A newer emoji never displaces an equal older one. */
  lemma OlderWinsTies(scores: seq<int>, older: nat, newer: nat)
    requires older < newer < |scores| && scores[older] >= scores[newer]
    ensures Rank(scores, older) < Rank(scores, newer)
  {
    assert Ahead(scores, older) + {older} <= Ahead(scores, newer);
    SubsetSize(Ahead(scores, older) + {older}, Ahead(scores, newer));
  }

  // --- the list shown ----------------------------------------------------------------------------------------

  /** An emoji's net score: its counted upvotes less its counted downvotes. */
  function NetScore(votes: seq<EmojiVote>, citizens: set<UserId>, id: EmojiId): int {
    if votes == [] then 0
    else
      var n := |votes| - 1;
      NetScore(votes[..n], citizens, id) +
      if votes[n].emojiId == id && votes[n].voter in citizens then (if votes[n].isUp then 1 else -1) else 0
  }

  function ScoresOf(emojis: seq<Emoji>, votes: seq<EmojiVote>, citizens: set<UserId>): (r: seq<int>)
    ensures |r| == |emojis|
  {
    seq(|emojis|, i requires 0 <= i < |emojis| => NetScore(votes, citizens, emojis[i].id))
  }

  datatype Shown = Shown(id: EmojiId, score: int, standing: Standing)

  /** Highest score first, ties by age. */
  predicate ShownBefore(a: Shown, b: Shown) {
    a.score > b.score || (a.score == b.score && a.id < b.id)
  }

  predicate OldestFirst(emojis: seq<Emoji>) {
    forall i, j :: 0 <= i < j < |emojis| ==> emojis[i].id < emojis[j].id
  }

  function RowOf(emojis: seq<Emoji>, scores: seq<int>, i: nat): Shown
    requires i < |emojis| == |scores|
  {
    Shown(emojis[i].id, scores[i], Tier(Rank(scores, i)))
  }

  function Listed(n: nat): nat { if n < LISTED_SLOTS then n else LISTED_SLOTS }

  /** What the list should be: the emoji of rank 0, of rank 1, … as far as the slots go. */
  function ByRank(emojis: seq<Emoji>, scores: seq<int>): (r: seq<Shown>)
    requires |emojis| == |scores|
    ensures |r| == Listed(|emojis|)
  {
    seq(Listed(|emojis|), k requires 0 <= k < Listed(|emojis|) =>
      PositionIsRank(scores, k);
      RowOf(emojis, scores, Ranked(scores)[k]))
  }

  lemma ByRankIsSorted(emojis: seq<Emoji>, scores: seq<int>)
    requires |emojis| == |scores| && OldestFirst(emojis)
    ensures IsSorted(ByRank(emojis, scores), ShownBefore)
  {
    var r, s := ByRank(emojis, scores), Ranked(scores);
    assert s == SortedUpTo(scores, |scores|);
    StableMeansByAge(scores, |scores|);
    forall i, j | 0 <= i < j < |r| ensures ShownBefore(r[i], r[j]) {
      PositionIsRank(scores, i);
      PositionIsRank(scores, j);
      assert PrecedesIn(scores)(s[i], s[j]);
    }
  }

  /** The rows whose emoji are listed, oldest first. */
  ghost predicate IsListedRows(emojis: seq<Emoji>, scores: seq<int>, items: seq<Shown>)
    requires |emojis| == |scores|
  {
    && (forall i, j :: 0 <= i < j < |items| ==> items[i].id != items[j].id)
    && (forall x :: x in items <==>
          exists i :: 0 <= i < |emojis| && Rank(scores, i) < LISTED_SLOTS && x == RowOf(emojis, scores, i))
  }

  lemma ListedRowsAreByRank(emojis: seq<Emoji>, scores: seq<int>, items: seq<Shown>)
    requires |emojis| == |scores| && IsListedRows(emojis, scores, items)
    ensures forall x :: x in items <==> x in ByRank(emojis, scores)
  {
    var r := ByRank(emojis, scores);
    forall x | x in items ensures x in r {
      var i :| 0 <= i < |emojis| && Rank(scores, i) < LISTED_SLOTS && x == RowOf(emojis, scores, i);
      var k := EveryIndexIsRanked(scores, i);
      assert r[k] == x;
    }
    forall x | x in r ensures x in items {
      var k :| 0 <= k < |r| && r[k] == x;
      PositionIsRank(scores, k);
      assert x == RowOf(emojis, scores, Ranked(scores)[k]);
    }
  }

  /** The two sorts agree: sorting the listed rows by score and id gives the emoji of rank 0, 1, 2, … */
  lemma SortsAgree(emojis: seq<Emoji>, scores: seq<int>, items: seq<Shown>)
    requires |emojis| == |scores| && OldestFirst(emojis) && IsListedRows(emojis, scores, items)
    ensures StableSort(items, ShownBefore) == ByRank(emojis, scores)
  {
    assert IsTransitive(ShownBefore);
    SortSorts(items, ShownBefore);
    ByRankIsSorted(emojis, scores);
    ListedRowsAreByRank(emojis, scores, items);
    var sorted := StableSort(items, ShownBefore);
    forall x ensures x in sorted <==> x in items {
      assert x in sorted <==> x in multiset(sorted);
      assert x in items <==> x in multiset(items);
    }
    SortedIsUnique(sorted, ByRank(emojis, scores), ShownBefore);
  }

  /** A server's vote list: active and considered emoji, highest net score first, counting only franchised
      voters. Entry `k` is the emoji of rank `k`. */
  method RankedEmojis(emojis: seq<Emoji>, votes: seq<EmojiVote>, citizens: set<UserId>) returns (items: seq<Shown>)
    requires OldestFirst(emojis)
    ensures items == ByRank(emojis, ScoresOf(emojis, votes, citizens))
  {
    var score: map<EmojiId, int> := map[];
    for i := 0 to |votes|
      invariant forall id :: (if id in score then score[id] else 0) == NetScore(votes[..i], citizens, id)
    {
      var v := votes[i];
      assert votes[..i + 1][..i] == votes[..i];
      if v.voter in citizens {
        var standing := if v.emojiId in score then score[v.emojiId] else 0;
        score := score[v.emojiId := standing + if v.isUp then 1 else -1];
      }
    }
    assert votes[..|votes|] == votes;
    var scores := seq(|emojis|, i requires 0 <= i < |emojis| =>
      if emojis[i].id in score then score[emojis[i].id] else 0);
    assert scores == ScoresOf(emojis, votes, citizens);
    var standings := RankEmojis(scores);
    items := [];
    for i := 0 to |emojis|
      invariant forall x :: x in items <==>
        exists j :: 0 <= j < i && Rank(scores, j) < LISTED_SLOTS && x == RowOf(emojis, scores, j)
      invariant forall a, b :: 0 <= a < b < |items| ==> items[a].id != items[b].id
    {
      if !standings[i].Archived? {
        var row := Shown(emojis[i].id, scores[i], standings[i]);
        assert row == RowOf(emojis, scores, i);
        forall x | x in items ensures x.id != row.id {
          var j :| 0 <= j < i && x == RowOf(emojis, scores, j);
        }
        items := items + [row];
      }
    }
    SortsAgree(emojis, scores, items);
    items := StableSort(items, ShownBefore);
  }

  /** So the entries below 128 are exactly the active ones, the next 128 exactly the considered ones, and the list
      is as long as there are emoji, up to 256. */
  lemma ListIsTheTiers(emojis: seq<Emoji>, scores: seq<int>, k: nat)
    requires |emojis| == |scores| && k < |ByRank(emojis, scores)|
    ensures |ByRank(emojis, scores)| == if |emojis| < 256 then |emojis| else 256
    ensures ByRank(emojis, scores)[k].standing == if k < 128 then Active else Considered
  {
    PositionIsRank(scores, k);
  }
}
