/** `build_message_tree`: group, sort each group, build from the roots; and what the forest holds. */
module MessageTree {
  import opened Domain
  import opened Forest
  import opened Keyed
  import opened Sorting

  predicate ById(a: Message, b: Message) { a.id < b.id }

  function KeyIn(ms: seq<Message>): Message -> Option<MessageId> {
    (m: Message) => KeyOf(ms, m)
  }

  function Files(keyOf: Message -> Option<MessageId>, key: Option<MessageId>): Message -> bool {
    (m: Message) => keyOf(m) == key
  }

  /** The messages filed under one parent, in the order they come. */
  function Filing(xs: seq<Message>, keyOf: Message -> Option<MessageId>, key: Option<MessageId>): seq<Message> {
    Retain(xs, Files(keyOf, key))
  }

  function KeysOf(ms: seq<Message>): set<Option<MessageId>> {
    set i | 0 <= i < |ms| :: KeyOf(ms, ms[i])
  }

  /** The messages filed under each parent, oldest first. */
  function Grouping(ms: seq<Message>): Buckets {
    map key | key in KeysOf(ms) :: StableSort(Filing(ms, KeyIn(ms), key), ById)
  }

  lemma SortHolds(xs: seq<Message>, m: Message)
    ensures m in StableSort(xs, ById) <==> m in xs
  {
    assert m in StableSort(xs, ById) <==> m in multiset(StableSort(xs, ById));
    assert m in xs <==> m in multiset(xs);
  }

  lemma FiledUnder(ms: seq<Message>, key: Option<MessageId>, m: Message)
    ensures m in BucketOf(Grouping(ms), key) <==> m in ms && KeyOf(ms, m) == key
  {
    SortHolds(Filing(ms, KeyIn(ms), key), m);
    if m in ms && KeyOf(ms, m) == key {
      var i :| 0 <= i < |ms| && ms[i] == m;
      assert key in KeysOf(ms);
    }
  }

  lemma SeatIs(ms: seq<Message>, id: MessageId, key: Option<MessageId>) returns (m: Message)
    requires SitsUnder(Grouping(ms), id, key)
    ensures m in ms && m.id == id && KeyOf(ms, m) == key
  {
    var i :| 0 <= i < |BucketOf(Grouping(ms), key)| && BucketOf(Grouping(ms), key)[i].id == id;
    m := BucketOf(Grouping(ms), key)[i];
    FiledUnder(ms, key, m);
  }

  lemma HasSeat(ms: seq<Message>, m: Message)
    requires m in ms
    ensures SitsUnder(Grouping(ms), m.id, KeyOf(ms, m))
  {
    FiledUnder(ms, KeyOf(ms, m), m);
    var i :| 0 <= i < |BucketOf(Grouping(ms), KeyOf(ms, m))| && BucketOf(Grouping(ms), KeyOf(ms, m))[i] == m;
  }

  lemma IdsDetermine(ms: seq<Message>, a: Message, b: Message)
    requires DistinctIds(ms) && a in ms && b in ms && a.id == b.id
    ensures a == b
  {
  }

  lemma GroupingSorts(ms: seq<Message>)
    requires DistinctIds(ms)
    ensures IsSorting(Grouping(ms))
  {
    var g := Grouping(ms);
    forall id, a, b | SitsUnder(g, id, a) && SitsUnder(g, id, b) ensures a == b {
      var m := SeatIs(ms, id, a);
      var n := SeatIs(ms, id, b);
      IdsDetermine(ms, m, n);
    }
  }

  /** Each bucket in increasing id. */
  ghost predicate Increasing(ms: seq<Message>) {
    IsSorted(ms, ById)
  }

  lemma BucketsIncrease(ms: seq<Message>, key: Option<MessageId>)
    requires DistinctIds(ms) && key in Grouping(ms)
    ensures Increasing(Grouping(ms)[key]) && DistinctIds(Grouping(ms)[key])
  {
    var filed := Filing(ms, KeyIn(ms), key);
    RetainDistinct(ms, (m: Message) => m.id, Files(KeyIn(ms), key));
    assert IsTransitive(ById);
    SortSorts(filed, ById);
    var s := Grouping(ms)[key];
    forall i, j | 0 <= i < j < |s| ensures s[i].id != s[j].id { assert ById(s[i], s[j]); }
  }

  /** The forest of a channel's messages. */
  function Tree(ms: seq<Message>): seq<MessageNode>
    requires DistinctIds(ms)
  {
    GroupingSorts(ms);
    FromRoots(Grouping(ms))
  }

  /** The forest that hangs from the roots' bucket. */
  function FromRoots(children: Buckets): seq<MessageNode>
    requires IsSorting(children)
  {
    OwnBucketIsUnder(children, None);
    BuildLevel(BucketOf(children, None), children, [])
  }

  // --- the algorithm ------------------------------------------------------------------------------------------

  /** Messages filed, unsorted. */
  ghost predicate IsFiled(children: Buckets, xs: seq<Message>, keyOf: Message -> Option<MessageId>) {
    && (forall key :: key in children <==> Filing(xs, keyOf, key) != [])
    && (forall key :: key in children ==> children[key] == Filing(xs, keyOf, key))
  }

  lemma FilingOneMore(xs: seq<Message>, x: Message, keyOf: Message -> Option<MessageId>, key: Option<MessageId>)
    ensures Filing(xs + [x], keyOf, key) == Filing(xs, keyOf, key) + if keyOf(x) == key then [x] else []
  {
    RetainOneMore(xs, x, Files(keyOf, key));
  }

  lemma FileOneMore(children: Buckets, xs: seq<Message>, x: Message, keyOf: Message -> Option<MessageId>)
    requires IsFiled(children, xs, keyOf)
    ensures IsFiled(children[keyOf(x) := BucketOf(children, keyOf(x)) + [x]], xs + [x], keyOf)
  {
    var after := children[keyOf(x) := BucketOf(children, keyOf(x)) + [x]];
    forall key
      ensures key in after <==> Filing(xs + [x], keyOf, key) != []
      ensures key in after ==> after[key] == Filing(xs + [x], keyOf, key)
    {
      FilingOneMore(xs, x, keyOf, key);
    }
  }

  /** The same buckets, each sorted. */
  ghost predicate IsSortedForm(filed: Buckets, sorted: Buckets) {
    sorted.Keys == filed.Keys && forall key :: key in filed ==> sorted[key] == StableSort(filed[key], ById)
  }

  lemma SortedFormIsUnique(filed: Buckets, a: Buckets, b: Buckets)
    requires IsSortedForm(filed, a) && IsSortedForm(filed, b)
    ensures a == b
  {
  }

  lemma SameKeys(ms: seq<Message>, key: Option<MessageId>)
    ensures Filing(ms, KeyIn(ms), key) != [] <==> key in KeysOf(ms)
  {
    var filed := Filing(ms, KeyIn(ms), key);
    if filed != [] {
      assert filed[0] in filed;
      var i :| 0 <= i < |ms| && ms[i] == filed[0];
      assert KeyOf(ms, ms[i]) == key;
    }
    if key in KeysOf(ms) {
      var i :| 0 <= i < |ms| && KeyOf(ms, ms[i]) == key;
      assert ms[i] in filed;
    }
  }

  lemma FiledIsGrouped(children: Buckets, ms: seq<Message>)
    requires IsFiled(children, ms, KeyIn(ms))
    ensures IsSortedForm(children, Grouping(ms))
  {
    forall key ensures key in children <==> key in Grouping(ms) { SameKeys(ms, key); }
  }

  /** Sort every bucket where it stands. */
  method SortBuckets(filed: Buckets) returns (children: Buckets)
    ensures IsSortedForm(filed, children)
  {
    children := filed;
    var todo := filed.Keys;
    while todo != {}
      invariant todo <= filed.Keys && children.Keys == filed.Keys
      invariant forall key :: key in filed ==>
        children[key] == if key in todo then filed[key] else StableSort(filed[key], ById)
      decreases |todo|
    {
      var key :| key in todo;
      children := children[key := StableSort(children[key], ById)];
      todo := todo - {key};
    }
  }

  function PresentIds(ms: seq<Message>): set<MessageId> {
    set i | 0 <= i < |ms| :: ms[i].id
  }

  lemma KeyFromPresent(ms: seq<Message>, m: Message)
    ensures KeyIn(ms)(m) == if m.parent.Some? && m.parent.value in PresentIds(ms) then m.parent else None
  {
  }

  /** File every message under its parent, a reply to a missing parent among the roots. */
  method GroupByParent(ms: seq<Message>) returns (children: Buckets)
    ensures IsFiled(children, ms, KeyIn(ms))
  {
    children := map[];
    var present := PresentIds(ms);
    ghost var keyOf := KeyIn(ms);
    for n := 0 to |ms|
      invariant IsFiled(children, ms[..n], keyOf)
    {
      var m := ms[n];
      var key := if m.parent.Some? && m.parent.value in present then m.parent else None;
      KeyFromPresent(ms, m);
      FileOneMore(children, ms[..n], m, keyOf);
      assert ms[..n + 1] == ms[..n] + [m];
      children := children[key := BucketOf(children, key) + [m]];
    }
    assert ms[..|ms|] == ms;
  }

  /** Group by parent, sort every group, build from the roots. */
  method BuildMessageTree(ms: seq<Message>) returns (forest: seq<MessageNode>)
    requires DistinctIds(ms)
    ensures forest == Tree(ms)
  {
    var filed := GroupByParent(ms);
    var children := SortBuckets(filed);
    FiledIsGrouped(filed, ms);
    SortedFormIsUnique(filed, children, Grouping(ms));
    GroupingSorts(ms);
    forest := FromRoots(children);
  }

  // --- what the forest holds ----------------------------------------------------------------------------------

  /** A chain of replies from a root, or from a reply to a missing parent, down to a message. */
  ghost predicate IsChain(ms: seq<Message>, path: seq<MessageId>) {
    forall i :: 0 <= i < |path| ==> IsLink(ms, path, i)
  }

  ghost predicate IsLink(ms: seq<Message>, path: seq<MessageId>, i: nat)
    requires i < |path|
  {
    exists m :: m in ms && m.id == path[i] && KeyOf(ms, m) == LastOf(path[..i])
  }

  /** The message's parent chain ends, at a root or a missing parent. */
  ghost predicate IsAnchored(ms: seq<Message>, id: MessageId) {
    exists path :: IsChain(ms, path) && LastOf(path) == Some(id)
  }

  lemma ChainIsPath(ms: seq<Message>, path: seq<MessageId>)
    ensures IsChain(ms, path) <==> IsPath(Grouping(ms), path)
  {
    var g := Grouping(ms);
    forall i | 0 <= i < |path| ensures IsLink(ms, path, i) <==> IsStep(g, path, i) {
      if IsLink(ms, path, i) {
        var m :| m in ms && m.id == path[i] && KeyOf(ms, m) == LastOf(path[..i]);
        HasSeat(ms, m);
      }
      if IsStep(g, path, i) {
        var m := SeatIs(ms, path[i], LastOf(path[..i]));
      }
    }
  }

  /** Everything in a level comes from the buckets. */
  lemma {:induction false} FlattenFromBuckets(bucket: seq<Message>, children: Buckets, path: seq<MessageId>, m: Message)
    requires IsSorting(children) && IsPath(children, path) && IsUnder(children, bucket, LastOf(path))
    requires m in Flatten(BuildLevel(bucket, children, path))
    ensures m in bucket || exists key :: key in children && m in children[key]
    decreases AllIds(children) - Visited(path), |bucket|
  {
    var nodes := BuildLevel(bucket, children, path);
    LevelBelow(bucket, children, path);
    if m in Flatten(nodes[0].replies) {
      FlattenFromBuckets(BucketOf(children, Some(bucket[0].id)), children, path + [bucket[0].id], m);
    } else if m in Flatten(nodes[1..]) {
      FlattenFromBuckets(bucket[1..], children, path, m);
    } else {
      assert m == nodes[0].message;
    }
  }

  lemma TreeHolds(ms: seq<Message>, id: MessageId)
    requires DistinctIds(ms)
    ensures Holds(Flatten(Tree(ms)), id) <==> IsAnchored(ms, id)
  {
    var g := Grouping(ms);
    var roots := BucketOf(g, None);
    GroupingSorts(ms);
    OwnBucketIsUnder(g, None);
    if Holds(Flatten(Tree(ms)), id) {
      var q := HeldIsReachable(roots, g, [], id);
      ChainIsPath(ms, q);
    }
    if IsAnchored(ms, id) {
      var path :| IsChain(ms, path) && LastOf(path) == Some(id);
      ChainIsPath(ms, path);
      assert IsStep(g, path, 0);
      assert path[..0] == [];
      ReachableIsHeld(roots, g, [], id, path);
    }
  }

  /** The forest holds each message whose parent chain ends, exactly once, and nothing else: for any list with
      distinct ids, cyclic parents included. */
  lemma ForestHoldsTheAnchored(ms: seq<Message>)
    requires DistinctIds(ms)
    ensures DistinctIds(Flatten(Tree(ms)))
    ensures forall m :: m in Flatten(Tree(ms)) <==> m in ms && IsAnchored(ms, m.id)
  {
    var g := Grouping(ms);
    GroupingSorts(ms);
    OwnBucketIsUnder(g, None);
    forall key | key in g ensures DistinctIds(g[key]) { BucketsIncrease(ms, key); }
    NoneTwice(BucketOf(g, None), g, []);
    var flat := Flatten(Tree(ms));
    forall m ensures m in flat <==> m in ms && IsAnchored(ms, m.id) {
      TreeHolds(ms, m.id);
      if m in flat {
        var i :| 0 <= i < |flat| && flat[i] == m;
        assert Holds(flat, m.id);
        FromTheList(ms, m);
      }
      if m in ms && IsAnchored(ms, m.id) {
        var i :| 0 <= i < |flat| && flat[i].id == m.id;
        assert flat[i] in flat;
        FromTheList(ms, flat[i]);
        IdsDetermine(ms, m, flat[i]);
      }
    }
  }

  lemma FromTheList(ms: seq<Message>, m: Message)
    requires DistinctIds(ms) && m in Flatten(Tree(ms))
    ensures m in ms
  {
    var g := Grouping(ms);
    GroupingSorts(ms);
    OwnBucketIsUnder(g, None);
    FlattenFromBuckets(BucketOf(g, None), g, [], m);
    if m in BucketOf(g, None) {
      FiledUnder(ms, None, m);
    } else {
      var key :| key in g && m in g[key];
      FiledUnder(ms, key, m);
    }
  }

  /** Siblings by increasing id, at every level. */
  ghost predicate SiblingsIncrease(nodes: seq<MessageNode>) {
    && (forall i, j :: 0 <= i < j < |nodes| ==> nodes[i].message.id < nodes[j].message.id)
    && forall i :: 0 <= i < |nodes| ==> SiblingsIncrease(nodes[i].replies)
  }

  lemma {:induction false} LevelIncreases(bucket: seq<Message>, nodes: seq<MessageNode>)
    requires Increasing(bucket) && bucket != [] && |nodes| == |bucket|
    requires forall i :: 0 <= i < |nodes| ==> nodes[i].message == bucket[i]
    requires SiblingsIncrease(nodes[0].replies) && SiblingsIncrease(nodes[1..])
    ensures SiblingsIncrease(nodes)
  {
  }

  lemma {:induction false} LevelsIncrease(bucket: seq<Message>, children: Buckets, path: seq<MessageId>)
    requires IsSorting(children) && IsPath(children, path) && IsUnder(children, bucket, LastOf(path))
    requires Increasing(bucket) && forall key :: key in children ==> Increasing(children[key])
    ensures SiblingsIncrease(BuildLevel(bucket, children, path))
    decreases AllIds(children) - Visited(path), |bucket|
  {
    if bucket != [] {
      LevelBelow(bucket, children, path);
      LevelsIncrease(BucketOf(children, Some(bucket[0].id)), children, path + [bucket[0].id]);
      LevelsIncrease(bucket[1..], children, path);
      LevelIncreases(bucket, BuildLevel(bucket, children, path));
    }
  }

  /** Every node hangs where its message was filed: a reply under the message it answers, a message that answers
      nothing, or something missing, at the top. */
  ghost predicate HangsRight(ms: seq<Message>, nodes: seq<MessageNode>, key: Option<MessageId>) {
    forall i :: 0 <= i < |nodes| ==>
      KeyOf(ms, nodes[i].message) == key && HangsRight(ms, nodes[i].replies, Some(nodes[i].message.id))
  }

  lemma {:induction false} RestHangsRight(ms: seq<Message>, nodes: seq<MessageNode>, key: Option<MessageId>)
    requires nodes != [] && KeyOf(ms, nodes[0].message) == key
    requires HangsRight(ms, nodes[0].replies, Some(nodes[0].message.id)) && HangsRight(ms, nodes[1..], key)
    ensures HangsRight(ms, nodes, key)
  {
  }

  lemma {:induction false} LevelHangsRight(ms: seq<Message>, bucket: seq<Message>, path: seq<MessageId>)
    requires IsSorting(Grouping(ms)) && IsPath(Grouping(ms), path) && IsUnder(Grouping(ms), bucket, LastOf(path))
    requires forall m :: m in bucket ==> KeyOf(ms, m) == LastOf(path)
    ensures HangsRight(ms, BuildLevel(bucket, Grouping(ms), path), LastOf(path))
    decreases AllIds(Grouping(ms)) - Visited(path), |bucket|
  {
    if bucket != [] {
      var g, b := Grouping(ms), bucket[0].id;
      var nodes := BuildLevel(bucket, g, path);
      LevelBelow(bucket, g, path);
      forall m | m in BucketOf(g, Some(b)) ensures KeyOf(ms, m) == Some(b) { FiledUnder(ms, Some(b), m); }
      LevelHangsRight(ms, BucketOf(g, Some(b)), path + [b]);
      LevelHangsRight(ms, bucket[1..], path);
      RestHangsRight(ms, nodes, LastOf(path));
    }
  }

  /** The forest threads by parent. */
  lemma ForestHangsRight(ms: seq<Message>)
    requires DistinctIds(ms)
    ensures HangsRight(ms, Tree(ms), None)
  {
    var g := Grouping(ms);
    GroupingSorts(ms);
    OwnBucketIsUnder(g, None);
    forall m | m in BucketOf(g, None) ensures KeyOf(ms, m) == None { FiledUnder(ms, None, m); }
    LevelHangsRight(ms, BucketOf(g, None), []);
  }

  lemma ForestIsInOrder(ms: seq<Message>)
    requires DistinctIds(ms)
    ensures SiblingsIncrease(Tree(ms))
  {
    var g := Grouping(ms);
    GroupingSorts(ms);
    OwnBucketIsUnder(g, None);
    forall key | key in g ensures Increasing(g[key]) { BucketsIncrease(ms, key); }
    LevelsIncrease(BucketOf(g, None), g, []);
  }

  /** Replies come after what they answer. */
  ghost predicate RepliesFollow(ms: seq<Message>) {
    forall m :: m in ms && m.parent.Some? ==> m.parent.value < m.id
  }

  lemma {:induction false} AllAnchored(ms: seq<Message>, m: Message) returns (path: seq<MessageId>)
    requires RepliesFollow(ms) && m in ms
    ensures IsChain(ms, path) && LastOf(path) == Some(m.id)
    decreases m.id
  {
    match KeyOf(ms, m)
    case None =>
      path := [m.id];
      assert path[..0] == [];
      assert IsLink(ms, path, 0);
    case Some(p) =>
      var i :| 0 <= i < |ms| && ms[i].id == p;
      var up := AllAnchored(ms, ms[i]);
      path := up + [m.id];
      forall k | 0 <= k < |path| ensures IsLink(ms, path, k) {
        if k < |up| {
          assert IsLink(ms, up, k);
          assert path[..k] == up[..k];
        } else {
          assert path[..k] == up;
        }
      }
  }

  /** When every reply has a larger id than what it answers, nothing is lost: the forest is the list, threaded. */
  lemma {:induction false} NothingIsLost(ms: seq<Message>)
    requires DistinctIds(ms) && RepliesFollow(ms)
    ensures DistinctIds(Flatten(Tree(ms))) && forall m :: m in Flatten(Tree(ms)) <==> m in ms
  {
    ForestHoldsTheAnchored(ms);
    forall m | m in ms ensures IsAnchored(ms, m.id) { var path := AllAnchored(ms, m); }
  }

  /** A cycle of parents hangs from nothing: its messages are in no forest. */
  lemma {:induction false} CyclesAreDropped(ms: seq<Message>, a: Message, b: Message)
    requires DistinctIds(ms) && a in ms && b in ms && a != b && a.parent == Some(b.id) && b.parent == Some(a.id)
    ensures a !in Flatten(Tree(ms)) && b !in Flatten(Tree(ms))
  {
    ForestHoldsTheAnchored(ms);
    if IsAnchored(ms, a.id) {
      var path :| IsChain(ms, path) && LastOf(path) == Some(a.id);
      CycleHasNoChain(ms, a, b, path);
    }
    if IsAnchored(ms, b.id) {
      var path :| IsChain(ms, path) && LastOf(path) == Some(b.id);
      CycleHasNoChain(ms, b, a, path);
    }
  }

  lemma {:induction false} CycleHasNoChain(ms: seq<Message>, a: Message, b: Message, path: seq<MessageId>)
    requires DistinctIds(ms) && a in ms && b in ms && a.parent == Some(b.id) && b.parent == Some(a.id)
    requires IsChain(ms, path)
    ensures LastOf(path) != Some(a.id)
    decreases |path|
  {
    if LastOf(path) == Some(a.id) {
      var n := |path| - 1;
      assert IsLink(ms, path, n);
      var m :| m in ms && m.id == path[n] && KeyOf(ms, m) == LastOf(path[..n]);
      IdsDetermine(ms, m, a);
      var j :| 0 <= j < |ms| && ms[j] == b;
      assert IsPresent(ms, b.id);
      forall i | 0 <= i < n ensures IsLink(ms, path[..n], i) {
        assert IsLink(ms, path, i);
        assert path[..n][..i] == path[..i];
      }
      CycleHasNoChain(ms, b, a, path[..n]);
    }
  }
}
