/** Taking turns: committing on one owner after the other while every node goes on with its own doings in between.
    States, doings and errors are whatever the user makes them. */
module Turns {
  import opened Domain
  import Ordered

  /** A state after some doings. */
  function Later<S(!new), H(!new)>(go: (S, H) -> S, s: S, hs: seq<H>): S
    decreases |hs|
  {
    if hs == [] then s else go(Later(go, s, hs[..|hs| - 1]), hs[|hs| - 1])
  }

  lemma {:induction false} LaterConcat<S(!new), H(!new)>(go: (S, H) -> S, s: S, a: seq<H>, b: seq<H>)
    ensures Later(go, Later(go, s, a), b) == Later(go, s, a + b)
    decreases |b|
  {
    if b == [] {
      assert a + b == a;
    } else {
      assert (a + b)[..|a + b| - 1] == a + b[..|b| - 1];
      LaterConcat(go, s, a, b[..|b| - 1]);
    }
  }

  /** What a step keeps, any number of them keep. */
  lemma {:induction false} LaterKeeps<S(!new), H(!new)>(go: (S, H) -> S, s: S, hs: seq<H>, inv: S -> bool)
    requires inv(s) && forall x, h :: inv(x) ==> inv(go(x, h))
    ensures inv(Later(go, s, hs))
    decreases |hs|
  {
    if hs != [] { LaterKeeps(go, s, hs[..|hs| - 1], inv); }
  }

  /** One owner, and what all nodes do before its turn. */
  datatype Stop<!H> = Stop(owner: NodeId, meanwhile: NodeId -> seq<H>)

  type Share<!S, E> = (NodeId, S) -> (S, Option<E>)

  function Elapse<S(!new), H(!new)>(go: (S, H) -> S, c: map<NodeId, S>, m: NodeId -> seq<H>): map<NodeId, S> {
    map n | n in c :: Later(go, c[n], m(n))
  }

  /** The nodes after one owner's share, and what comes back; `lost` when there is no such node. */
  function Committed<S(!new), E(!new)>(share: Share<S, E>, lost: E, c: map<NodeId, S>, owner: NodeId)
    : (map<NodeId, S>, Option<E>)
  {
    if owner !in c then (c, Some(lost))
    else
      var (s, e) := share(owner, c[owner]);
      (c[owner := s], e)
  }

  function Turn<S(!new), H(!new), E(!new)>(go: (S, H) -> S, share: Share<S, E>, lost: E)
    : ((map<NodeId, S>, Option<E>), Stop<H>) -> ((map<NodeId, S>, Option<E>), bool)
  {
    (acc: (map<NodeId, S>, Option<E>), stop: Stop<H>) =>
      var after := Committed(share, lost, Elapse(go, acc.0, stop.meanwhile), stop.owner);
      (after, after.1.None?)
  }

  /** The owners one by one until one fails. */
  function Taken<S(!new), H(!new), E(!new)>(go: (S, H) -> S, share: Share<S, E>, lost: E, c: map<NodeId, S>,
                                            stops: seq<Stop<H>>): (map<NodeId, S>, Option<E>)
  {
    Ordered.Run((c, None), stops, Turn(go, share, lost)).0
  }

  /** How many turns succeed. */
  function Succeeded<S(!new), H(!new), E(!new)>(go: (S, H) -> S, share: Share<S, E>, lost: E, c: map<NodeId, S>,
                                                stops: seq<Stop<H>>): (k: nat)
    ensures k <= |stops|
  {
    Ordered.Run((c, None), stops, Turn(go, share, lost)).1
  }

  // --- what every node has been through --------------------------------------------------------------------

  /** What one node does during the turns from `lo` up to `hi`. */
  function Passed<H>(stops: seq<Stop<H>>, n: NodeId, lo: nat, hi: nat): seq<H>
    requires hi <= |stops|
    decreases hi
  {
    if hi <= lo then [] else Passed(stops, n, lo, hi - 1) + stops[hi - 1].meanwhile(n)
  }

  function OwnersUpTo<H>(stops: seq<Stop<H>>, k: nat): set<NodeId>
    requires k <= |stops|
  {
    set i | 0 <= i < k :: stops[i].owner
  }

  ghost predicate IsDistinct<H(!new)>(stops: seq<Stop<H>>) {
    forall i, j :: 0 <= i < j < |stops| ==> stops[i].owner != stops[j].owner
  }

  /** The owner of turn `i` ran its share once, without fault, on what the turns before had made of it; everything
      after is its own doing. */
  ghost predicate RanOnce<S(!new), H(!new), E(!new)>(go: (S, H) -> S, share: Share<S, E>, c: map<NodeId, S>,
                                                     c': map<NodeId, S>, stops: seq<Stop<H>>, i: nat, k: nat)
    requires i < k <= |stops| && c'.Keys == c.Keys
  {
    var o := stops[i].owner;
    o in c &&
    var ran := share(o, Later(go, c[o], Passed(stops, o, 0, i + 1)));
    ran.1 == None && c'[o] == Later(go, ran.0, Passed(stops, o, i + 1, k))
  }

  ghost predicate AllRanOnce<S(!new), H(!new), E(!new)>(go: (S, H) -> S, share: Share<S, E>, c: map<NodeId, S>,
                                                        c': map<NodeId, S>, stops: seq<Stop<H>>, m: nat, k: nat)
    requires m <= k <= |stops| && c'.Keys == c.Keys
  {
    forall i :: 0 <= i < m ==> RanOnce(go, share, c, c', stops, i, k)
  }

  /** After `k` turns: each owner so far has run its share exactly once, and nobody else has been touched. */
  ghost predicate CommittedOn<S(!new), H(!new), E(!new)>(go: (S, H) -> S, share: Share<S, E>, c: map<NodeId, S>,
                                                         c': map<NodeId, S>, stops: seq<Stop<H>>, k: nat)
    requires k <= |stops|
  {
    && c'.Keys == c.Keys
    && AllRanOnce(go, share, c, c', stops, k, k)
    && (forall n :: n in c && n !in OwnersUpTo(stops, k) ==> c'[n] == Later(go, c[n], Passed(stops, n, 0, k)))
  }

  lemma PassedOneMore<S(!new), H(!new)>(go: (S, H) -> S, s: S, stops: seq<Stop<H>>, n: NodeId, lo: nat, k: nat)
    requires lo <= k < |stops|
    ensures Later(go, s, Passed(stops, n, lo, k + 1))
         == Later(go, Later(go, s, Passed(stops, n, lo, k)), stops[k].meanwhile(n))
  {
    LaterConcat(go, s, Passed(stops, n, lo, k), stops[k].meanwhile(n));
  }

  lemma NotAnOwnerYet<H(!new)>(stops: seq<Stop<H>>, k: nat)
    requires IsDistinct(stops) && k < |stops|
    ensures stops[k].owner !in OwnersUpTo(stops, k)
    ensures OwnersUpTo(stops, k + 1) == OwnersUpTo(stops, k) + {stops[k].owner}
  {
  }

  /** What one successful turn does to every node. */
  ghost predicate TurnMoves<S(!new), H(!new), E(!new)>(go: (S, H) -> S, share: Share<S, E>, mid: map<NodeId, S>,
                                                       c': map<NodeId, S>, stop: Stop<H>)
  {
    var o := stop.owner;
    && c'.Keys == mid.Keys && o in mid
    && share(o, Later(go, mid[o], stop.meanwhile(o))) == (c'[o], None)
    && forall n :: n in mid && n != o ==> c'[n] == Later(go, mid[n], stop.meanwhile(n))
  }

  lemma SuccessfulTurn<S(!new), H(!new), E(!new)>(go: (S, H) -> S, share: Share<S, E>, lost: E, mid: map<NodeId, S>,
                                                  stop: Stop<H>)
    requires Turn(go, share, lost)((mid, None), stop).1
    ensures Turn(go, share, lost)((mid, None), stop).0.1 == None
    ensures TurnMoves(go, share, mid, Turn(go, share, lost)((mid, None), stop).0.0, stop)
  {
  }

  lemma OthersGoOn<S(!new), H(!new), E(!new)>(go: (S, H) -> S, share: Share<S, E>, c: map<NodeId, S>,
                                              mid: map<NodeId, S>, c': map<NodeId, S>, stops: seq<Stop<H>>, k: nat)
    requires IsDistinct(stops) && k < |stops| && CommittedOn(go, share, c, mid, stops, k)
    requires TurnMoves(go, share, mid, c', stops[k])
    ensures AllRanOnce(go, share, c, c', stops, k, k + 1)
    ensures forall n :: n in c && n !in OwnersUpTo(stops, k + 1) ==>
      c'[n] == Later(go, c[n], Passed(stops, n, 0, k + 1))
  {
    NotAnOwnerYet(stops, k);
    var next := k + 1;
    forall i | 0 <= i < k ensures RanOnce(go, share, c, c', stops, i, next) {
      var o := stops[i].owner;
      assert RanOnce(go, share, c, mid, stops, i, k);
      PassedOneMore(go, share(o, Later(go, c[o], Passed(stops, o, 0, i + 1))).0, stops, o, i + 1, k);
    }
    forall n | n in c && n !in OwnersUpTo(stops, k + 1)
      ensures c'[n] == Later(go, c[n], Passed(stops, n, 0, k + 1))
    {
      PassedOneMore(go, c[n], stops, n, 0, k);
    }
  }

  lemma OneMoreCommitted<S(!new), H(!new), E(!new)>(go: (S, H) -> S, share: Share<S, E>, c: map<NodeId, S>,
                                                    mid: map<NodeId, S>, c': map<NodeId, S>, stops: seq<Stop<H>>,
                                                    k: nat)
    requires IsDistinct(stops) && k < |stops| && CommittedOn(go, share, c, mid, stops, k)
    requires TurnMoves(go, share, mid, c', stops[k])
    ensures CommittedOn(go, share, c, c', stops, k + 1)
  {
    var o := stops[k].owner;
    OthersGoOn(go, share, c, mid, c', stops, k);
    NotAnOwnerYet(stops, k);
    PassedOneMore(go, c[o], stops, o, 0, k);
    assert Passed(stops, o, k + 1, k + 1) == [];
    assert RanOnce(go, share, c, c', stops, k, k + 1);
  }

  /** The nodes after the first `k` turns. */
  function AfterTurns<S(!new), H(!new), E(!new)>(go: (S, H) -> S, share: Share<S, E>, lost: E, c: map<NodeId, S>,
                                                 stops: seq<Stop<H>>, k: nat): map<NodeId, S>
    requires k <= |stops|
  {
    Taken(go, share, lost, c, stops[..k]).0
  }

  /** One more of the turns that succeed. */
  lemma NextTurn<S(!new), H(!new), E(!new)>(go: (S, H) -> S, share: Share<S, E>, lost: E, c: map<NodeId, S>,
                                            stops: seq<Stop<H>>, k: nat)
    requires k < Succeeded(go, share, lost, c, stops) && Taken(go, share, lost, c, stops[..k]).1 == None
    ensures var mid := AfterTurns(go, share, lost, c, stops, k);
            && Turn(go, share, lost)((mid, None), stops[k]).1
            && Taken(go, share, lost, c, stops[..k + 1]) == Turn(go, share, lost)((mid, None), stops[k]).0
  {
    var turn := Turn(go, share, lost);
    Ordered.RunPrefix((c, None), stops, turn, k);
    Ordered.RunNext((c, None), stops, turn, k);
    Ordered.WentOn((c, None), stops, turn, k);
  }

  /** After as many turns as succeed, each owner so far has run its share exactly once, on what it had become by then;
      nothing else but the nodes' own doings has happened to anyone. */
  lemma {:induction false} TurnsCommit<S(!new), H(!new), E(!new)>(go: (S, H) -> S, share: Share<S, E>, lost: E,
                                                                  c: map<NodeId, S>, stops: seq<Stop<H>>, k: nat)
    requires IsDistinct(stops) && k <= Succeeded(go, share, lost, c, stops)
    ensures Taken(go, share, lost, c, stops[..k]).1 == None
    ensures CommittedOn(go, share, c, AfterTurns(go, share, lost, c, stops, k), stops, k)
  {
    if k > 0 {
      TurnsCommit(go, share, lost, c, stops, k - 1);
      NextTurn(go, share, lost, c, stops, k - 1);
      var mid := AfterTurns(go, share, lost, c, stops, k - 1);
      SuccessfulTurn(go, share, lost, mid, stops[k - 1]);
      OneMoreCommitted(go, share, c, mid, AfterTurns(go, share, lost, c, stops, k), stops, k - 1);
    }
  }

  /** When the last answer is no error, every turn succeeded. */
  lemma AllTaken<S(!new), H(!new), E(!new)>(go: (S, H) -> S, share: Share<S, E>, lost: E, c: map<NodeId, S>,
                                            stops: seq<Stop<H>>)
    requires Taken(go, share, lost, c, stops).1 == None
    ensures Succeeded(go, share, lost, c, stops) == |stops|
    ensures Taken(go, share, lost, c, stops).0 == AfterTurns(go, share, lost, c, stops, |stops|)
  {
    var turn := Turn(go, share, lost);
    var k := Succeeded(go, share, lost, c, stops);
    if k < |stops| { Ordered.HaltedAt((c, None), stops, turn, k); }
    assert stops[..|stops|] == stops;
  }

  /** Otherwise the one after the turns that succeeded failed, and is the last one taken. */
  lemma FirstFailure<S(!new), H(!new), E(!new)>(go: (S, H) -> S, share: Share<S, E>, lost: E, c: map<NodeId, S>,
                                                stops: seq<Stop<H>>)
    requires IsDistinct(stops) && Taken(go, share, lost, c, stops).1.Some?
    ensures var k := Succeeded(go, share, lost, c, stops);
            && k < |stops|
            && var mid := AfterTurns(go, share, lost, c, stops, k);
            && CommittedOn(go, share, c, mid, stops, k)
            && Taken(go, share, lost, c, stops)
            == Committed(share, lost, Elapse(go, mid, stops[k].meanwhile), stops[k].owner)
  {
    var turn := Turn(go, share, lost);
    var k := Succeeded(go, share, lost, c, stops);
    TurnsCommit(go, share, lost, c, stops, k);
    assert stops[..|stops|] == stops;
    Ordered.HaltedAt((c, None), stops, turn, k);
  }

  /** What every doing and every share keeps, a submission keeps, however it ends. */
  lemma {:induction false} TurnsKeep<S(!new), H(!new), E(!new)>(go: (S, H) -> S, share: Share<S, E>, lost: E,
                                                                c: map<NodeId, S>, stops: seq<Stop<H>>, inv: S -> bool)
    requires forall n :: n in c ==> inv(c[n])
    requires forall x, h :: inv(x) ==> inv(go(x, h))
    requires forall o: NodeId, x :: inv(x) ==> inv(share(o, x).0)
    ensures forall n :: n in Taken(go, share, lost, c, stops).0 ==> inv(Taken(go, share, lost, c, stops).0[n])
    decreases |stops|
  {
    if stops != [] {
      var front, stop := stops[..|stops| - 1], stops[|stops| - 1];
      TurnsKeep(go, share, lost, c, front, inv);
      var mid := Taken(go, share, lost, c, front).0;
      forall n | n in mid ensures inv(Later(go, mid[n], stop.meanwhile(n))) {
        LaterKeeps(go, mid[n], stop.meanwhile(n), inv);
      }
    }
  }
}
