/** Threading a flat list of messages into a forest: it terminates on any parents, cyclic ones included, and holds
    each message whose parent chain ends exactly once. */
module Forest {
  import opened Domain

  datatype MessageNode = MessageNode(message: Message, replies: seq<MessageNode>)

  type Buckets = map<Option<MessageId>, seq<Message>>

  ghost predicate DistinctIds(ms: seq<Message>) {
    forall i, j :: 0 <= i < j < |ms| ==> ms[i].id != ms[j].id
  }

  predicate IsPresent(ms: seq<Message>, id: MessageId) {
    exists i | 0 <= i < |ms| :: ms[i].id == id
  }

  /** The bucket a message goes into: its parent's when that is present, else the roots'. */
  function KeyOf(ms: seq<Message>, m: Message): Option<MessageId> {
    match m.parent
    case Some(p) => if IsPresent(ms, p) then m.parent else None
    case None => None
  }

  function BucketOf(children: Buckets, key: Option<MessageId>): seq<Message> {
    if key in children then children[key] else []
  }

  // --- buckets, abstractly -----------------------------------------------------------------------------------

  ghost predicate SitsUnder(children: Buckets, id: MessageId, key: Option<MessageId>) {
    exists i :: 0 <= i < |BucketOf(children, key)| && BucketOf(children, key)[i].id == id
  }

  /** A message sits in one bucket only. */
  ghost predicate IsSorting(children: Buckets) {
    forall id, a, b :: SitsUnder(children, id, a) && SitsUnder(children, id, b) ==> a == b
  }

  function LastOf(path: seq<MessageId>): Option<MessageId> {
    if path == [] then None else Some(path[|path| - 1])
  }

  /** A way down from the roots: each message sits in the bucket of the one before. */
  ghost predicate IsPath(children: Buckets, path: seq<MessageId>) {
    forall i :: 0 <= i < |path| ==> IsStep(children, path, i)
  }

  ghost predicate IsStep(children: Buckets, path: seq<MessageId>, i: nat)
    requires i < |path|
  {
    SitsUnder(children, path[i], LastOf(path[..i]))
  }

  /** All of a bucket sits under one parent. */
  ghost predicate IsUnder(children: Buckets, bucket: seq<Message>, key: Option<MessageId>) {
    forall i :: 0 <= i < |bucket| ==> IsSeated(children, bucket, i, key)
  }

  ghost predicate IsSeated(children: Buckets, bucket: seq<Message>, i: nat, key: Option<MessageId>)
    requires i < |bucket|
  {
    SitsUnder(children, bucket[i].id, key)
  }

  lemma OwnBucketIsUnder(children: Buckets, key: Option<MessageId>)
    ensures IsUnder(children, BucketOf(children, key), key)
  {
  }

  lemma RestIsUnder(children: Buckets, bucket: seq<Message>, key: Option<MessageId>)
    requires bucket != [] && IsUnder(children, bucket, key)
    ensures SitsUnder(children, bucket[0].id, key) && IsUnder(children, bucket[1..], key)
  {
    assert IsSeated(children, bucket, 0, key);
    forall i | 0 <= i < |bucket[1..]| ensures IsSeated(children, bucket[1..], i, key) {
      assert IsSeated(children, bucket, i + 1, key);
    }
  }

  /** There is only one way down to a message. */
  lemma {:induction false} OnePath(children: Buckets, p: seq<MessageId>, q: seq<MessageId>)
    requires IsSorting(children) && IsPath(children, p) && IsPath(children, q)
    requires p != [] && q != [] && LastOf(p) == LastOf(q)
    ensures p == q
    decreases |p|
  {
    var m, n := |p| - 1, |q| - 1;
    assert IsStep(children, p, m) && IsStep(children, q, n);
    assert LastOf(p[..m]) == LastOf(q[..n]);
    if m > 0 {
      PathPrefix(children, p, m);
      PathPrefix(children, q, n);
      OnePath(children, p[..m], q[..n]);
    }
    assert p == p[..m] + [p[m]] && q == q[..n] + [q[n]];
  }

  lemma PathPrefix(children: Buckets, p: seq<MessageId>, k: nat)
    requires IsPath(children, p) && k <= |p|
    ensures IsPath(children, p[..k])
  {
    forall i | 0 <= i < k ensures IsStep(children, p[..k], i) {
      assert p[..k][..i] == p[..i];
      assert IsStep(children, p, i);
    }
  }

  lemma PathExtends(children: Buckets, p: seq<MessageId>, id: MessageId)
    requires IsPath(children, p) && SitsUnder(children, id, LastOf(p))
    ensures IsPath(children, p + [id])
  {
    var q := p + [id];
    forall i | 0 <= i < |q| ensures IsStep(children, q, i) {
      if i < |p| {
        assert q[..i] == p[..i];
        assert IsStep(children, p, i);
      } else {
        assert q[..i] == p;
      }
    }
  }

  /** No way down comes past the same message twice, so the recursion has fewer messages left at each step. */
  lemma NoLoops(children: Buckets, p: seq<MessageId>, id: MessageId)
    requires IsSorting(children) && IsPath(children, p) && SitsUnder(children, id, LastOf(p))
    ensures id !in p
  {
    if id in p {
      var i :| 0 <= i < |p| && p[i] == id;
      PathExtends(children, p, id);
      PathPrefix(children, p, i + 1);
      OnePath(children, p + [id], p[..i + 1]);
    }
  }

  function AllIds(children: Buckets): set<MessageId> {
    set key, i | key in children && 0 <= i < |children[key]| :: children[key][i].id
  }

  function Visited(path: seq<MessageId>): set<MessageId> {
    set i | 0 <= i < |path| :: path[i]
  }

  lemma VisitedOneMore(path: seq<MessageId>, id: MessageId)
    ensures Visited(path + [id]) == Visited(path) + {id}
  {
    var q := path + [id];
    forall x | x in Visited(path) + {id} ensures x in Visited(q) {
      if x in Visited(path) {
        var i :| 0 <= i < |path| && path[i] == x;
        assert q[i] == x;
      } else {
        assert q[|path|] == x;
      }
    }
  }

  lemma StepsDown(children: Buckets, path: seq<MessageId>, id: MessageId)
    requires IsSorting(children) && IsPath(children, path) && SitsUnder(children, id, LastOf(path))
    ensures IsPath(children, path + [id])
    ensures AllIds(children) - Visited(path + [id]) < AllIds(children) - Visited(path)
  {
    PathExtends(children, path, id);
    NoLoops(children, path, id);
    var i :| 0 <= i < |BucketOf(children, LastOf(path))| && BucketOf(children, LastOf(path))[i].id == id;
    assert id in AllIds(children);
    VisitedOneMore(path, id);
  }

  /** One level: each message of the bucket with the level below it. `path` only witnesses termination. */
  function BuildLevel(bucket: seq<Message>, children: Buckets, ghost path: seq<MessageId>): (r: seq<MessageNode>)
    requires IsSorting(children) && IsPath(children, path)
    requires IsUnder(children, bucket, LastOf(path))
    ensures |r| == |bucket| && forall i :: 0 <= i < |r| ==> r[i].message == bucket[i]
    decreases AllIds(children) - Visited(path), |bucket|
  {
    if bucket == [] then []
    else
      RestIsUnder(children, bucket, LastOf(path));
      StepsDown(children, path, bucket[0].id);
      var below := BucketOf(children, Some(bucket[0].id));
      OwnBucketIsUnder(children, Some(bucket[0].id));
      [MessageNode(bucket[0], BuildLevel(below, children, path + [bucket[0].id]))]
      + BuildLevel(bucket[1..], children, path)
  }

  /** The calls one level makes. */
  lemma LevelBelow(bucket: seq<Message>, children: Buckets, path: seq<MessageId>)
    requires IsSorting(children) && IsPath(children, path) && bucket != [] && IsUnder(children, bucket, LastOf(path))
    ensures var b := bucket[0].id;
            && IsUnder(children, bucket[1..], LastOf(path))
            && IsPath(children, path + [b])
            && AllIds(children) - Visited(path + [b]) < AllIds(children) - Visited(path)
            && IsUnder(children, BucketOf(children, Some(b)), LastOf(path + [b]))
            && BuildLevel(bucket, children, path)[0].replies
               == BuildLevel(BucketOf(children, Some(b)), children, path + [b])
            && BuildLevel(bucket, children, path)[1..] == BuildLevel(bucket[1..], children, path)
  {
    RestIsUnder(children, bucket, LastOf(path));
    StepsDown(children, path, bucket[0].id);
    OwnBucketIsUnder(children, Some(bucket[0].id));
  }

  // --- reading the forest back -------------------------------------------------------------------------------

  /** Every message of a forest, parents before their replies. */
  function Flatten(nodes: seq<MessageNode>): seq<Message> {
    if nodes == [] then [] else [nodes[0].message] + Flatten(nodes[0].replies) + Flatten(nodes[1..])
  }

  ghost predicate Holds(ms: seq<Message>, id: MessageId) {
    exists i :: 0 <= i < |ms| && ms[i].id == id
  }

  /** A way down to `id` that goes on from `path` through the bucket. */
  ghost predicate LeadsTo(children: Buckets, path: seq<MessageId>, bucket: seq<Message>, q: seq<MessageId>,
                          id: MessageId)
  {
    && IsPath(children, q) && |q| > |path| && q[..|path|] == path
    && Holds(bucket, q[|path|]) && LastOf(q) == Some(id)
  }

  lemma HoldsConcat(a: seq<Message>, b: seq<Message>, id: MessageId)
    ensures Holds(a + b, id) <==> Holds(a, id) || Holds(b, id)
  {
    var c := a + b;
    if Holds(a, id) {
      var i :| 0 <= i < |a| && a[i].id == id;
      assert c[i].id == id;
    }
    if Holds(b, id) {
      var i :| 0 <= i < |b| && b[i].id == id;
      assert c[|a| + i].id == id;
    }
    if Holds(c, id) {
      var i :| 0 <= i < |c| && c[i].id == id;
      if i < |a| { assert a[i].id == id; } else { assert b[i - |a|].id == id; }
    }
  }

  lemma FlattenSplits(bucket: seq<Message>, children: Buckets, path: seq<MessageId>, id: MessageId)
    requires IsSorting(children) && IsPath(children, path) && bucket != [] && IsUnder(children, bucket, LastOf(path))
    ensures var nodes := BuildLevel(bucket, children, path);
            Holds(Flatten(nodes), id) <==>
              id == bucket[0].id || Holds(Flatten(nodes[0].replies), id) || Holds(Flatten(nodes[1..]), id)
  {
    var nodes := BuildLevel(bucket, children, path);
    HoldsConcat([nodes[0].message] + Flatten(nodes[0].replies), Flatten(nodes[1..]), id);
    HoldsConcat([nodes[0].message], Flatten(nodes[0].replies), id);
    assert [nodes[0].message][0] == bucket[0];
  }

  lemma LeadsThroughRest(children: Buckets, path: seq<MessageId>, bucket: seq<Message>, q: seq<MessageId>,
                         id: MessageId)
    requires bucket != [] && LeadsTo(children, path, bucket[1..], q, id)
    ensures LeadsTo(children, path, bucket, q, id)
  {
  }

  lemma LeadsThroughReplies(children: Buckets, path: seq<MessageId>, bucket: seq<Message>, below: seq<Message>,
                            q: seq<MessageId>, id: MessageId)
    requires bucket != [] && LeadsTo(children, path + [bucket[0].id], below, q, id)
    ensures LeadsTo(children, path, bucket, q, id) && LeadsTo(children, path, [bucket[0]], q, id)
  {
    var n := |path|;
    assert q[..n] == q[..n + 1][..n] == path;
    assert q[n] == q[..n + 1][n] == bucket[0].id;
    assert [bucket[0]][0].id == q[n];
  }

  lemma LeadsToItself(children: Buckets, path: seq<MessageId>, bucket: seq<Message>)
    requires bucket != [] && IsPath(children, path + [bucket[0].id])
    ensures LeadsTo(children, path, bucket, path + [bucket[0].id], bucket[0].id)
    ensures LeadsTo(children, path, [bucket[0]], path + [bucket[0].id], bucket[0].id)
  {
    var q := path + [bucket[0].id];
    assert q[..|path|] == path;
    assert [bucket[0]][0].id == q[|path|];
  }

  /** What a level holds is reachable through its bucket. */
  lemma {:induction false} HeldIsReachable(bucket: seq<Message>, children: Buckets, path: seq<MessageId>, id: MessageId)
    returns (q: seq<MessageId>)
    requires IsSorting(children) && IsPath(children, path) && IsUnder(children, bucket, LastOf(path))
    requires Holds(Flatten(BuildLevel(bucket, children, path)), id)
    ensures LeadsTo(children, path, bucket, q, id)
    decreases AllIds(children) - Visited(path), |bucket|
  {
    var nodes := BuildLevel(bucket, children, path);
    var b := bucket[0].id;
    LevelBelow(bucket, children, path);
    FlattenSplits(bucket, children, path, id);
    if Holds(Flatten(nodes[1..]), id) {
      q := HeldIsReachable(bucket[1..], children, path, id);
      LeadsThroughRest(children, path, bucket, q, id);
    } else if Holds(Flatten(nodes[0].replies), id) {
      q := HeldIsReachable(BucketOf(children, Some(b)), children, path + [b], id);
      LeadsThroughReplies(children, path, bucket, BucketOf(children, Some(b)), q, id);
    } else {
      q := path + [b];
      LeadsToItself(children, path, bucket);
    }
  }

  lemma NextStep(children: Buckets, path: seq<MessageId>, bucket: seq<Message>, q: seq<MessageId>, id: MessageId)
    requires bucket != [] && LeadsTo(children, path, bucket, q, id)
    ensures q[|path|] == bucket[0].id && |q| == |path| + 1 ==> id == bucket[0].id
    ensures q[|path|] == bucket[0].id && |q| > |path| + 1 ==>
              LeadsTo(children, path + [bucket[0].id], BucketOf(children, Some(bucket[0].id)), q, id)
    ensures q[|path|] != bucket[0].id ==> LeadsTo(children, path, bucket[1..], q, id)
  {
    var n := |path|;
    if q[n] == bucket[0].id && |q| > n + 1 {
      assert q[..n + 1] == path + [bucket[0].id];
      assert IsStep(children, q, n + 1);
    }
    if q[n] != bucket[0].id {
      var i :| 0 <= i < |bucket| && bucket[i].id == q[n];
      assert bucket[1..][i - 1].id == q[n];
    }
  }

  /** And what is reachable through its bucket a level holds. */
  lemma {:induction false} ReachableIsHeld(bucket: seq<Message>, children: Buckets, path: seq<MessageId>,
                                           id: MessageId, q: seq<MessageId>)
    requires IsSorting(children) && IsPath(children, path) && IsUnder(children, bucket, LastOf(path))
    requires LeadsTo(children, path, bucket, q, id)
    ensures Holds(Flatten(BuildLevel(bucket, children, path)), id)
    decreases AllIds(children) - Visited(path), |bucket|
  {
    var b := bucket[0].id;
    LevelBelow(bucket, children, path);
    FlattenSplits(bucket, children, path, id);
    NextStep(children, path, bucket, q, id);
    if q[|path|] != b {
      ReachableIsHeld(bucket[1..], children, path, id, q);
    } else if |q| > |path| + 1 {
      ReachableIsHeld(BucketOf(children, Some(b)), children, path + [b], id, q);
    }
  }

  lemma DistinctConcat(a: seq<Message>, b: seq<Message>)
    requires DistinctIds(a) && DistinctIds(b) && forall id :: !(Holds(a, id) && Holds(b, id))
    ensures DistinctIds(a + b)
  {
    var c := a + b;
    forall i, j | 0 <= i < j < |c| ensures c[i].id != c[j].id {
      if i < |a| && j >= |a| {
        assert Holds(a, a[i].id);
        assert Holds(b, b[j - |a|].id);
      }
    }
  }

  /** Two disjoint buckets of a level never lead to the same message. */
  lemma OnlyOneLeads(children: Buckets, path: seq<MessageId>, a: seq<Message>, b: seq<Message>,
                     q: seq<MessageId>, r: seq<MessageId>, id: MessageId)
    requires IsSorting(children) && LeadsTo(children, path, a, q, id)
    requires forall x :: !(Holds(a, x) && Holds(b, x))
    ensures !LeadsTo(children, path, b, r, id)
  {
    if LeadsTo(children, path, b, r, id) { OnePath(children, q, r); }
  }

  /** A message and its replies are none of them under the next siblings. */
  lemma SiblingsApart(bucket: seq<Message>, children: Buckets, path: seq<MessageId>, id: MessageId)
    requires IsSorting(children) && IsPath(children, path) && bucket != [] && IsUnder(children, bucket, LastOf(path))
    requires DistinctIds(bucket)
    requires id == bucket[0].id || Holds(Flatten(BuildLevel(bucket, children, path)[0].replies), id)
    ensures !Holds(Flatten(BuildLevel(bucket, children, path)[1..]), id)
  {
    LevelBelow(bucket, children, path);
    var q := ThroughFirst(bucket, children, path, id);
    forall x ensures !(Holds([bucket[0]], x) && Holds(bucket[1..], x)) {
      if Holds(bucket[1..], x) {
        var i :| 0 <= i < |bucket[1..]| && bucket[1..][i].id == x;
        assert bucket[i + 1].id == x;
      }
    }
    if Holds(Flatten(BuildLevel(bucket, children, path)[1..]), id) {
      var r := HeldIsReachable(bucket[1..], children, path, id);
      OnlyOneLeads(children, path, [bucket[0]], bucket[1..], q, r, id);
    }
  }

  /** A message is not among its own replies. */
  lemma NotItsOwnReply(bucket: seq<Message>, children: Buckets, path: seq<MessageId>)
    requires IsSorting(children) && IsPath(children, path) && bucket != [] && IsUnder(children, bucket, LastOf(path))
    ensures !Holds(Flatten(BuildLevel(bucket, children, path)[0].replies), bucket[0].id)
  {
    var b := bucket[0].id;
    LevelBelow(bucket, children, path);
    if Holds(Flatten(BuildLevel(bucket, children, path)[0].replies), b) {
      var q := HeldIsReachable(BucketOf(children, Some(b)), children, path + [b], b);
      OnePath(children, q, path + [b]);
    }
  }

  lemma ThroughFirst(bucket: seq<Message>, children: Buckets, path: seq<MessageId>, id: MessageId)
    returns (q: seq<MessageId>)
    requires IsSorting(children) && IsPath(children, path) && bucket != [] && IsUnder(children, bucket, LastOf(path))
    requires id == bucket[0].id || Holds(Flatten(BuildLevel(bucket, children, path)[0].replies), id)
    ensures LeadsTo(children, path, [bucket[0]], q, id)
  {
    var b := bucket[0].id;
    LevelBelow(bucket, children, path);
    if id == b {
      q := path + [b];
      LeadsToItself(children, path, bucket);
    } else {
      q := HeldIsReachable(BucketOf(children, Some(b)), children, path + [b], id);
      LeadsThroughReplies(children, path, bucket, BucketOf(children, Some(b)), q, id);
    }
  }

  lemma DistinctPieces(first: Message, deeper: seq<Message>, later: seq<Message>)
    requires DistinctIds(deeper) && DistinctIds(later) && !Holds(deeper, first.id)
    requires forall id :: id == first.id || Holds(deeper, id) ==> !Holds(later, id)
    ensures DistinctIds([first] + deeper + later)
  {
    DistinctConcat([first], deeper);
    forall id ensures !(Holds([first] + deeper, id) && Holds(later, id)) { HoldsConcat([first], deeper, id); }
    DistinctConcat([first] + deeper, later);
  }

  /** What the pieces of a level hold, apart. */
  lemma PiecesApart(bucket: seq<Message>, children: Buckets, path: seq<MessageId>)
    requires IsSorting(children) && IsPath(children, path) && bucket != [] && IsUnder(children, bucket, LastOf(path))
    requires DistinctIds(bucket)
    requires DistinctIds(Flatten(BuildLevel(bucket, children, path)[0].replies))
    requires DistinctIds(Flatten(BuildLevel(bucket, children, path)[1..]))
    ensures DistinctIds(Flatten(BuildLevel(bucket, children, path)))
  {
    var nodes := BuildLevel(bucket, children, path);
    var deeper, later := Flatten(nodes[0].replies), Flatten(nodes[1..]);
    NotItsOwnReply(bucket, children, path);
    forall id | id == bucket[0].id || Holds(deeper, id) ensures !Holds(later, id) {
      SiblingsApart(bucket, children, path, id);
    }
    DistinctPieces(bucket[0], deeper, later);
  }

  /** No message twice. */
  lemma {:induction false} NoneTwice(bucket: seq<Message>, children: Buckets, path: seq<MessageId>)
    requires IsSorting(children) && IsPath(children, path) && IsUnder(children, bucket, LastOf(path))
    requires DistinctIds(bucket) && forall key :: key in children ==> DistinctIds(children[key])
    ensures DistinctIds(Flatten(BuildLevel(bucket, children, path)))
    decreases AllIds(children) - Visited(path), |bucket|
  {
    if bucket != [] {
      LevelBelow(bucket, children, path);
      NoneTwice(BucketOf(children, Some(bucket[0].id)), children, path + [bucket[0].id]);
      NoneTwice(bucket[1..], children, path);
      PiecesApart(bucket, children, path);
    }
  }
}
