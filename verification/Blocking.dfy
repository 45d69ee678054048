/** What an accepted block guarantees: committed once on every distinct owner of the two homes, never undone, and
    every later direct message between the pair refused there, in both directions, from that owner's own commit on,
    whatever any node does before, between and after the commits. */
module Blocking {
  import opened Domain
  import opened Replica
  import opened Keyed
  import opened Calls
  import opened Feed
  import opened Commands
  import opened ReplayGuard
  import Turns

  // --- committed on every owner, once ----------------------------------------------------------------------

  ghost predicate CommittedOn(net: Network, cmd: Command, signed: SignedCommand, c: Cluster, c': Cluster,
                              stops: seq<Stop>, k: nat)
    requires k <= |stops|
  {
    Turns.CommittedOn(Then, ShareOf(net, cmd, signed), c, c', stops, k)
  }

  lemma StopsAreDistinct(net: Network, scopes: seq<Scope>)
    requires OwnersOf(net.view, scopes).Routed?
    ensures Turns.IsDistinct(StopsOf(net, OwnersOf(net.view, scopes).owners))
  {
    OwnersAreDistinct(net.view, scopes);
  }

  /** A submission that succeeds has committed on every distinct owner exactly once, on what each had become by its
      turn, and touched nobody else, whatever all of them were doing meanwhile. */
  lemma SubmittedOnce(c: Cluster, net: Network, cmd: Command, signed: SignedCommand)
    requires Submitted(c, net, cmd, signed).1 == None
    ensures net.self in c
    ensures var routing := OwnersOf(net.view, TargetScopes(cmd, c[net.self].tables));
            routing.Routed? &&
            var stops := StopsOf(net, routing.owners);
            CommittedOn(net, cmd, signed, c, Submitted(c, net, cmd, signed).0, stops, |stops|)
  {
    var scopes := TargetScopes(cmd, c[net.self].tables);
    var owners := OwnersOf(net.view, scopes).owners;
    StopsAreDistinct(net, scopes);
    Turns.AllTaken(Then, ShareOf(net, cmd, signed), OwnerUnreachable, c, StopsOf(net, owners));
    Turns.TurnsCommit(Then, ShareOf(net, cmd, signed), OwnerUnreachable, c, StopsOf(net, owners), |owners|);
  }

  // --- a block, once accepted ---------------------------------------------------------------------------------

  lemma BlockRecorded(s: NodeState, a: UserId, b: UserId, now: Timestamp, dmId: DmId)
    requires RunUseCase(s, BlockUser(a, b), now, dmId).1 == None
    ensures HasBlock(RunUseCase(s, BlockUser(a, b), now, dmId).0.tables.blocks, a, b)
    ensures RunUseCase(s, BlockUser(a, b), now, dmId).0.tables.users == s.tables.users
  {
    var blocks := s.tables.blocks;
    if !HasBlock(blocks, a, b) {
      assert (blocks + [Block(a, b, now)])[|blocks|] == Block(a, b, now);
    }
  }

  /** What a share that ran cleanly ran: the use-case, here or there. */
  lemma ShareRunsUseCase(net: Network, cmd: Command, signed: SignedCommand, owner: NodeId, s: NodeState)
    requires Share(net, cmd, signed, owner, s).1 == None && (owner != net.self ==> signed.cmd == Some(cmd))
    ensures exists nonces ::
      RunUseCase(s.(nonces := nonces), cmd, net.clock(owner), net.dmId(owner)) == Share(net, cmd, signed, owner, s)
  {
    var s' := Share(net, cmd, signed, owner, s).0;
    if owner == net.self {
      assert s.(nonces := s.nonces) == s;
      assert RunUseCase(s.(nonces := s.nonces), cmd, net.clock(owner), net.dmId(owner)) == (s', None);
    } else {
      var nonces := Decide(s.nonces, Attempt((signed.node, signed.nonce), signed.issuedAt, net.clock(owner))).0;
      assert RunUseCase(s.(nonces := nonces), cmd, net.clock(owner), net.dmId(owner)) == (s', None);
    }
  }

  lemma ShareRecordsBlock(net: Network, a: UserId, b: UserId, signed: SignedCommand, owner: NodeId, s: NodeState)
    requires Share(net, BlockUser(a, b), signed, owner, s).1 == None && signed.cmd == Some(BlockUser(a, b))
    ensures HasBlock(Share(net, BlockUser(a, b), signed, owner, s).0.tables.blocks, a, b)
    ensures Share(net, BlockUser(a, b), signed, owner, s).0.tables.users == s.tables.users
  {
    ShareRunsUseCase(net, BlockUser(a, b), signed, owner, s);
    var nonces :| RunUseCase(s.(nonces := nonces), BlockUser(a, b), net.clock(owner), net.dmId(owner))
               == Share(net, BlockUser(a, b), signed, owner, s);
    BlockRecorded(s.(nonces := nonces), a, b, net.clock(owner), net.dmId(owner));
  }

  ghost predicate UsersKeyed(t: Tables) {
    forall id :: id in t.users ==> t.users[id].id == id
  }

  ghost predicate HoldsBlock(s: NodeState, a: UserId, b: UserId) {
    UsersKeyed(s.tables) && HasBlock(s.tables.blocks, a, b)
  }

  lemma HappeningKeepsUsers(s: NodeState, h: Happening)
    requires UsersKeyed(s.tables)
    ensures UsersKeyed(Then(s, h).tables)
  {
  }

  lemma HappeningKeepsBlocks(s: NodeState, h: Happening, a: UserId, b: UserId)
    requires HasBlock(s.tables.blocks, a, b)
    ensures HasBlock(Then(s, h).tables.blocks, a, b)
  {
    var i :| 0 <= i < |s.tables.blocks| && s.tables.blocks[i].blocker == a && s.tables.blocks[i].blocked == b;
    assert i < |Then(s, h).tables.blocks| && Then(s, h).tables.blocks[i] == s.tables.blocks[i];
  }

  lemma {:induction false} UsersStayKeyed(s: NodeState, hs: seq<Happening>)
    requires UsersKeyed(s.tables)
    ensures UsersKeyed(Turns.Later(Then, s, hs).tables)
    decreases |hs|
  {
    if hs != [] {
      UsersStayKeyed(s, hs[..|hs| - 1]);
      HappeningKeepsUsers(Turns.Later(Then, s, hs[..|hs| - 1]), hs[|hs| - 1]);
    }
  }

  /** Nothing a node does or pulls ever removes a block. */
  lemma {:induction false} BlocksStay(s: NodeState, hs: seq<Happening>, a: UserId, b: UserId)
    requires HoldsBlock(s, a, b)
    ensures HoldsBlock(Turns.Later(Then, s, hs), a, b)
    decreases |hs|
  {
    if hs != [] {
      var mid := Turns.Later(Then, s, hs[..|hs| - 1]);
      BlocksStay(s, hs[..|hs| - 1], a, b);
      HappeningKeepsUsers(mid, hs[|hs| - 1]);
      HappeningKeepsBlocks(mid, hs[|hs| - 1], a, b);
    }
  }

  /** With a block in either direction, no direct message between the two is accepted in either direction. */
  lemma BlockSilences(t: Tables, a: UserId, b: UserId, from: UserId, to: UserId, x: string, y: string,
                      now: Timestamp, dmId: DmId)
    requires UsersKeyed(t) && HasBlock(t.blocks, a, b)
    requires (from == a && to == b) || (from == b && to == a)
    ensures UseCase(t, SendDm(from, to, x, y), now, dmId) == None
  {
    if from in t.users && to in t.users {
      var i :| 0 <= i < |t.blocks| && t.blocks[i].blocker == a && t.blocks[i].blocked == b;
      var block := t.blocks[i];
      var recipient := t.users[to];
      var involved := Retain(t.blocks, (x: Block) => x.blocker == recipient.id || x.blocked == recipient.id);
      assert block in t.blocks;
      assert block in involved;
      var j :| 0 <= j < |involved| && involved[j] == block;
      assert involved[j].IsBetween(t.users[from].id, recipient.id);
      assert !MayDm(t, t.users[from].id, recipient);
    }
  }

  /** The stops of a block: the distinct owners of the two homes. */
  function BlockStops(net: Network, a: UserId, b: UserId): seq<Stop> {
    match OwnersOf(net.view, [UserHome(a), UserHome(b)])
    case Routed(owners) => StopsOf(net, owners)
    case Unroutable(_) => []
  }

  function BlockShare(net: Network, a: UserId, b: UserId, signed: SignedCommand)
    : Turns.Share<NodeState, ForwardError>
  {
    ShareOf(net, BlockUser(a, b), signed)
  }

  /** The nodes after the first `k` turns of a block's submission, and how many of them succeed. */
  function AfterTurns(c: Cluster, net: Network, a: UserId, b: UserId, signed: SignedCommand, k: nat): Cluster
    requires k <= |BlockStops(net, a, b)|
  {
    Turns.AfterTurns(Then, BlockShare(net, a, b, signed), OwnerUnreachable, c, BlockStops(net, a, b), k)
  }

  function Succeeded(c: Cluster, net: Network, a: UserId, b: UserId, signed: SignedCommand): (k: nat)
    ensures k <= |BlockStops(net, a, b)|
  {
    Turns.Succeeded(Then, BlockShare(net, a, b, signed), OwnerUnreachable, c, BlockStops(net, a, b))
  }

  ghost predicate RanOnce(c: Cluster, c': Cluster, net: Network, a: UserId, b: UserId, signed: SignedCommand, i: nat,
                          k: nat)
    requires i < k <= |BlockStops(net, a, b)| && c'.Keys == c.Keys
  {
    Turns.RanOnce(Then, BlockShare(net, a, b, signed), c, c', BlockStops(net, a, b), i, k)
  }

  lemma BlockStopsAreDistinct(net: Network, a: UserId, b: UserId)
    ensures Turns.IsDistinct(BlockStops(net, a, b))
  {
    if OwnersOf(net.view, [UserHome(a), UserHome(b)]).Routed? { StopsAreDistinct(net, [UserHome(a), UserHome(b)]); }
  }

  lemma {:induction false} OwnerHoldsBlock(c: Cluster, net: Network, a: UserId, b: UserId, signed: SignedCommand,
                                           i: nat, k: nat)
    requires signed.cmd == Some(BlockUser(a, b)) && EveryoneKeyed(c)
    requires i < k <= Succeeded(c, net, a, b, signed)
    ensures var c' := AfterTurns(c, net, a, b, signed, k); var o := BlockStops(net, a, b)[i].owner;
            c'.Keys == c.Keys && RanOnce(c, c', net, a, b, signed, i, k) && HoldsBlock(c'[o], a, b)
  {
    var share, stops := BlockShare(net, a, b, signed), BlockStops(net, a, b);
    BlockStopsAreDistinct(net, a, b);
    Turns.TurnsCommit(Then, share, OwnerUnreachable, c, stops, k);
    var c', o := AfterTurns(c, net, a, b, signed, k), stops[i].owner;
    assert RanOnce(c, c', net, a, b, signed, i, k);
    var before := Turns.Later(Then, c[o], Turns.Passed(stops, o, 0, i + 1));
    UsersStayKeyed(c[o], Turns.Passed(stops, o, 0, i + 1));
    ShareRecordsBlock(net, a, b, signed, o, before);
    BlocksStay(Share(net, BlockUser(a, b), signed, o, before).0, Turns.Passed(stops, o, i + 1, k), a, b);
  }

  /** Block permanence: from an owner's own commit on, whether or not the submission goes on to succeed on the other
      home, and whatever all nodes do before, between and after, that owner has executed the block once for this
      submission and refuses every direct message between the two, in both directions. */
  lemma {:induction false} BlockIsPermanent(c: Cluster, net: Network, a: UserId, b: UserId, signed: SignedCommand,
                                            i: nat, k: nat, hs: seq<Happening>, from: UserId, to: UserId, x: string,
                                            y: string, now: Timestamp, dmId: DmId)
    requires signed.cmd == Some(BlockUser(a, b)) && EveryoneKeyed(c)
    requires i < k <= Succeeded(c, net, a, b, signed)
    requires (from == a && to == b) || (from == b && to == a)
    ensures var c' := AfterTurns(c, net, a, b, signed, k); var o := BlockStops(net, a, b)[i].owner;
            && c'.Keys == c.Keys && RanOnce(c, c', net, a, b, signed, i, k) && o in c'
            && UseCase(Turns.Later(Then, c'[o], hs).tables, SendDm(from, to, x, y), now, dmId) == None
  {
    OwnerHoldsBlock(c, net, a, b, signed, i, k);
    var s := AfterTurns(c, net, a, b, signed, k)[BlockStops(net, a, b)[i].owner];
    BlocksStay(s, hs, a, b);
    BlockSilences(Turns.Later(Then, s, hs).tables, a, b, from, to, x, y, now, dmId);
  }

  /** When the submission succeeds, every turn did. */
  lemma {:induction false} AcceptedBlockRanEverywhere(c: Cluster, net: Network, a: UserId, b: UserId,
                                                      signed: SignedCommand)
    requires Submitted(c, net, BlockUser(a, b), signed).1 == None
    ensures var n := |BlockStops(net, a, b)|;
            Succeeded(c, net, a, b, signed) == n
            && Submitted(c, net, BlockUser(a, b), signed).0 == AfterTurns(c, net, a, b, signed, n)
  {
    Turns.AllTaken(Then, BlockShare(net, a, b, signed), OwnerUnreachable, c, BlockStops(net, a, b));
  }

  /** And the turns are those of the owners of the two homes. */
  lemma EveryHomeHasATurn(net: Network, a: UserId, b: UserId, home: UserId) returns (i: nat)
    requires OwnersOf(net.view, [UserHome(a), UserHome(b)]).Routed? && (home == a || home == b)
    ensures i < |BlockStops(net, a, b)|
    ensures net.view.ownerOf(UserHome(home)).Answer? && net.view.ownerOf(UserHome(home)).value.Some?
    ensures BlockStops(net, a, b)[i].owner == net.view.ownerOf(UserHome(home)).value.value.owner
  {
    var scopes := [UserHome(a), UserHome(b)];
    OwnersAreDistinct(net.view, scopes);
    var k := if home == a then 0 else 1;
    assert scopes[k] == UserHome(home);
    var owners := OwnersOf(net.view, scopes).owners;
    i :| 0 <= i < |owners| && owners[i] == net.view.ownerOf(scopes[k]).value.value.owner;
  }

  // --- one record per home ----------------------------------------------------------------------------------------

  ghost predicate OneRecordEach(s: NodeState) {
    forall i, j :: 0 <= i < j < |s.tables.blocks| ==> BlockKey(s.tables.blocks[i]) != BlockKey(s.tables.blocks[j])
  }

  ghost function HasOneRecordEach(): NodeState -> bool {
    (s: NodeState) => OneRecordEach(s)
  }

  lemma HappeningKeepsOneRecord(s: NodeState, h: Happening)
    requires OneRecordEach(s)
    ensures OneRecordEach(Then(s, h))
  {
  }

  lemma {:induction false} OneRecordStays(s: NodeState, hs: seq<Happening>)
    requires OneRecordEach(s)
    ensures OneRecordEach(Turns.Later(Then, s, hs))
  {
    forall x, h | OneRecordEach(x) ensures OneRecordEach(Then(x, h)) { HappeningKeepsOneRecord(x, h); }
    Turns.LaterKeeps(Then, s, hs, HasOneRecordEach());
  }

  lemma UseCaseKeepsOneRecord(s: NodeState, cmd: Command, now: Timestamp, dmId: DmId)
    requires OneRecordEach(s)
    ensures OneRecordEach(RunUseCase(s, cmd, now, dmId).0)
  {
  }

  lemma ExecuteKeepsOneRecord(s: NodeState, node: NodeId, view: RegistryView, signed: SignedCommand, now: Timestamp,
                              dmId: DmId)
    requires OneRecordEach(s)
    ensures OneRecordEach(Execute(s, node, view, signed, now, dmId).0)
  {
  }

  lemma ShareKeepsOneRecord(net: Network, cmd: Command, signed: SignedCommand, owner: NodeId, s: NodeState)
    requires OneRecordEach(s)
    ensures OneRecordEach(Share(net, cmd, signed, owner, s).0)
  {
    if owner == net.self { UseCaseKeepsOneRecord(s, cmd, net.clock(owner), net.dmId(owner)); }
    else { ExecuteKeepsOneRecord(s, owner, net.ownerView(owner), signed, net.clock(owner), net.dmId(owner)); }
  }

  // --- what every doing and every share keeps -----------------------------------------------------------------------

  /** Kept by whatever a node does and by its share of any submission. */
  ghost predicate IsKept(inv: NodeState -> bool) {
    && (forall x, h :: inv(x) ==> inv(Then(x, h)))
    && (forall net, cmd, signed, o, x :: inv(x) ==> inv(Share(net, cmd, signed, o, x).0))
  }

  ghost predicate Everywhere(c: Cluster, inv: NodeState -> bool) {
    forall n :: n in c ==> inv(c[n])
  }

  lemma {:induction false} ElapseKeeps(c: Cluster, m: Meanwhile, inv: NodeState -> bool)
    requires Everywhere(c, inv) && IsKept(inv)
    ensures Everywhere(Turns.Elapse(Then, c, m), inv)
  {
    forall n | n in c ensures inv(Turns.Elapse(Then, c, m)[n]) { Turns.LaterKeeps(Then, c[n], m(n), inv); }
  }

  lemma {:induction false} CommitsKeep(c: Cluster, net: Network, cmd: Command, signed: SignedCommand,
                                       owners: seq<NodeId>, inv: NodeState -> bool)
    requires Everywhere(c, inv) && IsKept(inv)
    ensures Everywhere(CommittedAll(net, cmd, signed, c, owners).0, inv)
  {
    var share := ShareOf(net, cmd, signed);
    forall o: NodeId, x | inv(x) ensures inv(share(o, x).0) {
      assert inv(Share(net, cmd, signed, o, x).0);
    }
    Turns.TurnsKeep(Then, share, OwnerUnreachable, c, StopsOf(net, owners), inv);
  }

  lemma {:induction false} SubmissionKeeps(c: Cluster, net: Network, cmd: Command, signed: SignedCommand,
                                           inv: NodeState -> bool)
    requires Everywhere(c, inv) && IsKept(inv)
    ensures Everywhere(Submitted(c, net, cmd, signed).0, inv)
  {
    if net.self in c {
      var routing := OwnersOf(net.view, TargetScopes(cmd, c[net.self].tables));
      if routing.Routed? { CommitsKeep(c, net, cmd, signed, routing.owners, inv); }
    }
  }

  lemma {:induction false} OneRecordIsKept()
    ensures IsKept(HasOneRecordEach())
  {
    forall x, h | OneRecordEach(x) ensures OneRecordEach(Then(x, h)) { HappeningKeepsOneRecord(x, h); }
    forall net, cmd, signed, o, x | OneRecordEach(x) ensures OneRecordEach(Share(net, cmd, signed, o, x).0) {
      ShareKeepsOneRecord(net, cmd, signed, o, x);
    }
  }

  ghost function HasKeyedUsers(): NodeState -> bool {
    (s: NodeState) => UsersKeyed(s.tables)
  }

  lemma UseCaseKeepsUsers(s: NodeState, cmd: Command, now: Timestamp, dmId: DmId)
    ensures RunUseCase(s, cmd, now, dmId).0.tables.users == s.tables.users
  {
  }

  lemma ShareKeepsUsers(net: Network, cmd: Command, signed: SignedCommand, owner: NodeId, s: NodeState)
    ensures Share(net, cmd, signed, owner, s).0.tables.users == s.tables.users
  {
    UseCaseKeepsUsers(s, cmd, net.clock(owner), net.dmId(owner));
    if signed.cmd.Some? {
      var nonces := Decide(s.nonces, Attempt((signed.node, signed.nonce), signed.issuedAt, net.clock(owner))).0;
      UseCaseKeepsUsers(s.(nonces := nonces), signed.cmd.value, net.clock(owner), net.dmId(owner));
    }
  }

  lemma {:induction false} KeyedUsersAreKept()
    ensures IsKept(HasKeyedUsers())
  {
    forall x: NodeState, h | UsersKeyed(x.tables) ensures UsersKeyed(Then(x, h).tables) { HappeningKeepsUsers(x, h); }
    forall net, cmd, signed, o, x: NodeState | UsersKeyed(x.tables)
      ensures UsersKeyed(Share(net, cmd, signed, o, x).0.tables)
    {
      ShareKeepsUsers(net, cmd, signed, o, x);
    }
  }

  ghost predicate OneRecordEverywhere(c: Cluster) {
    Everywhere(c, HasOneRecordEach())
  }

  ghost predicate EveryoneKeyed(c: Cluster) {
    Everywhere(c, HasKeyedUsers())
  }

  /** However a submission ends, wherever it stopped, no node holds a block twice. */
  lemma {:induction false} SubmissionKeepsOneRecord(c: Cluster, net: Network, cmd: Command, signed: SignedCommand)
    requires OneRecordEverywhere(c)
    ensures OneRecordEverywhere(Submitted(c, net, cmd, signed).0)
  {
    OneRecordIsKept();
    SubmissionKeeps(c, net, cmd, signed, HasOneRecordEach());
  }

  /** One submission of the same command, after a pause in which the nodes go on: the network as it is then, under a
      fresh signature. */
  datatype Try = Try(pause: Meanwhile, net: Network, signed: SignedCommand)

  function AfterPause(c: Cluster, t: Try): Cluster {
    Turns.Elapse(Then, c, t.pause)
  }

  function AfterTries(c: Cluster, cmd: Command, tries: seq<Try>): Cluster
    decreases |tries|
  {
    if tries == [] then c
    else
      var last := tries[|tries| - 1];
      Submitted(AfterPause(AfterTries(c, cmd, tries[..|tries| - 1]), last), last.net, cmd, last.signed).0
  }

  lemma {:induction false} TriesKeep(c: Cluster, cmd: Command, tries: seq<Try>, inv: NodeState -> bool)
    requires Everywhere(c, inv) && IsKept(inv)
    ensures Everywhere(AfterTries(c, cmd, tries), inv)
    decreases |tries|
  {
    if tries != [] {
      var last, before := tries[|tries| - 1], AfterTries(c, cmd, tries[..|tries| - 1]);
      TriesKeep(c, cmd, tries[..|tries| - 1], inv);
      ElapseKeeps(before, last.pause, inv);
      SubmissionKeeps(AfterPause(before, last), last.net, cmd, last.signed, inv);
    }
  }

  lemma TheOneRecord(s: NodeState, a: UserId, b: UserId) returns (j: nat)
    requires OneRecordEach(s) && HasBlock(s.tables.blocks, a, b)
    ensures j < |s.tables.blocks|
    ensures forall x :: 0 <= x < |s.tables.blocks| ==> (BlockKey(s.tables.blocks[x]) == (a, b) <==> x == j)
  {
    j :| 0 <= j < |s.tables.blocks| && s.tables.blocks[j].blocker == a && s.tables.blocks[j].blocked == b;
  }

  /** Re-driving is safe: after any number of submissions that failed anywhere on their way, with the nodes going on
      before, during and after each, one that succeeds leaves exactly one record of the block on every owner of the
      two homes, and it stays the only one. */
  lemma {:induction false} RedrivingEndsWithOneRecord(c: Cluster, a: UserId, b: UserId, tries: seq<Try>, last: Try,
                                                      i: nat, hs: seq<Happening>)
    returns (j: nat)
    requires OneRecordEverywhere(c) && EveryoneKeyed(c) && last.signed.cmd == Some(BlockUser(a, b))
    requires Submitted(AfterPause(AfterTries(c, BlockUser(a, b), tries), last), last.net, BlockUser(a, b),
                       last.signed).1 == None
    requires i < |BlockStops(last.net, a, b)|
    ensures var start := AfterPause(AfterTries(c, BlockUser(a, b), tries), last);
            var end := Submitted(start, last.net, BlockUser(a, b), last.signed).0;
            var o := BlockStops(last.net, a, b)[i].owner;
            o in end &&
            var blocks := Turns.Later(Then, end[o], hs).tables.blocks;
            && j < |blocks| && forall x :: 0 <= x < |blocks| ==> (BlockKey(blocks[x]) == (a, b) <==> x == j)
  {
    var before := AfterTries(c, BlockUser(a, b), tries);
    var start, o := AfterPause(before, last), BlockStops(last.net, a, b)[i].owner;
    OneRecordIsKept();
    KeyedUsersAreKept();
    TriesKeep(c, BlockUser(a, b), tries, HasOneRecordEach());
    TriesKeep(c, BlockUser(a, b), tries, HasKeyedUsers());
    ElapseKeeps(before, last.pause, HasOneRecordEach());
    ElapseKeeps(before, last.pause, HasKeyedUsers());
    SubmissionKeepsOneRecord(start, last.net, BlockUser(a, b), last.signed);
    AcceptedBlockRanEverywhere(start, last.net, a, b, last.signed);
    OwnerHoldsBlock(start, last.net, a, b, last.signed, i, |BlockStops(last.net, a, b)|);
    var s := Submitted(start, last.net, BlockUser(a, b), last.signed).0[o];
    BlocksStay(s, hs, a, b);
    OneRecordStays(s, hs);
    j := TheOneRecord(Turns.Later(Then, s, hs), a, b);
  }
}
