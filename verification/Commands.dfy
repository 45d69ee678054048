/** Writes sent to the scopes' owners: the owner-side pipeline, the router that commits on every owner, and what
    a block that was accepted guarantees. */
module Commands {
  import opened Domain
  import opened Replica
  import opened Keyed
  import opened Calls
  import opened Store
  import opened Feed
  import opened ReplayGuard
  import opened Ids
  import Governance
  import Ordered
  import Services
  import Turns

  datatype Command =
    | CastBallot(proposal: ProposalId, voter: UserId, isAye: bool)
    | SendDm(sender: UserId, recipient: UserId, sealedForRecipient: string, sealedForSender: string)
    | BlockUser(blocker: UserId, blocked: UserId)
    | RequestFriend(requester: UserId, addressee: UserId)
    | AcceptFriend(accepter: UserId, from: UserId)

  datatype ForwardError = NoOwner | OwnerUnreachable | Rejected

  /** The scopes a command writes into; none while a ballot's proposal is not stored here. */
  function TargetScopes(cmd: Command, t: Tables): seq<Scope> {
    match cmd
    case CastBallot(p, _, _) => if p in t.proposals then [ServerScope(t.proposals[p].serverId)] else []
    case SendDm(sender, _, _, _) => [UserHome(sender)]
    case BlockUser(a, b) => [UserHome(a), UserHome(b)]
    case RequestFriend(a, b) => [UserHome(a), UserHome(b)]
    case AcceptFriend(a, b) => [UserHome(a), UserHome(b)]
  }

  // --- the use-cases behind them ---------------------------------------------------------------------------

  /** A block in either direction silences; friends-only recipients must be accepted friends. */
  predicate CanDm(sender: UserId, recipient: UserId, policy: DmPolicy, blocks: seq<Block>, friends: seq<Friendship>) {
    && !(exists i | 0 <= i < |blocks| :: blocks[i].IsBetween(sender, recipient))
    && (policy.Everyone?
        || exists i | 0 <= i < |friends| :: friends[i].AreFriends() && friends[i].IsBetween(sender, recipient))
  }

  function BlocksOf(t: Tables, user: UserId): seq<Block> {
    Retain(t.blocks, (b: Block) => b.blocker == user || b.blocked == user)
  }

  function FriendsOf(t: Tables, user: UserId): seq<Friendship> {
    Retain(t.friends, (f: Friendship) => f.requester == user || f.addressee == user)
  }

  /** The store's own blocks and friendships that involve the recipient are all the gate looks at. */
  predicate MayDm(t: Tables, sender: UserId, recipient: User) {
    CanDm(sender, recipient.id, recipient.dmPolicy, BlocksOf(t, recipient.id), FriendsOf(t, recipient.id))
  }

  function Between(xs: seq<Friendship>, a: UserId, b: UserId): Option<Friendship> {
    if xs == [] then None else if xs[0].IsBetween(a, b) then Some(xs[0]) else Between(xs[1..], a, b)
  }

  /** What running a command on a node writes there, or nothing when the use-case refuses it. */
  function UseCase(t: Tables, cmd: Command, now: Timestamp, dmId: DmId): Option<Call> {
    match cmd
    case CastBallot(p, voter, isAye) =>
      (match Governance.CastVote(t, voter, p, isAye)
       case Granted(c) => Some(c)
       case Declined(_) => None)
    case SendDm(a, b, forB, forA) =>
      if a !in t.users || b !in t.users || t.users[a].id == t.users[b].id || forA == "" || forB == "" then None
      else if !MayDm(t, t.users[a].id, t.users[b]) then None
      else Some(InsertDm(DmMessage(dmId, t.users[a].id, t.users[b].id, forB, forA, now)))
    case BlockUser(a, b) =>
      if a !in t.users || b !in t.users || a == b then None else Some(AddBlock(Block(a, b, now)))
    case RequestFriend(a, b) =>
      if a !in t.users || b !in t.users || a == b then None else Some(AddFriend(Friendship(a, b, Pending, now)))
    case AcceptFriend(me, other) =>
      if me !in t.users || other !in t.users then None
      else
        match Between(t.friends, me, other)
        case Some(f) =>
          if !f.AreFriends() && f.requester == other && f.addressee == me then
            Some(UpdateFriend(f.(status := Accepted)))
          else None
        case None => None
  }

  /** Blocking and requesting friendship may be sent again; accepting may not: the second time is refused. */
  lemma AcceptingTwiceIsRefused(t: Tables, me: UserId, other: UserId, now: Timestamp, later: Timestamp, dmId: DmId)
    requires UseCase(t, AcceptFriend(me, other), now, dmId).Some?
    ensures var t' := TablesAfter(t, UseCase(t, AcceptFriend(me, other), now, dmId).value);
            UseCase(t', AcceptFriend(me, other), later, dmId) == None
  {
    var f := Between(t.friends, me, other).value;
    ReplacedIsFound(t.friends, f.(status := Accepted), me, other);
  }

  lemma {:induction false} ReplacedIsFound(xs: seq<Friendship>, f: Friendship, a: UserId, b: UserId)
    requires Between(xs, a, b).Some? && f.IsBetween(a, b)
    requires f.requester == Between(xs, a, b).value.requester && f.addressee == Between(xs, a, b).value.addressee
    ensures Between(ReplaceFriend(xs, f), a, b) == Some(f)
  {
    if !xs[0].IsBetween(a, b) { ReplacedIsFound(xs[1..], f, a, b); }
  }

  /** Nor is sending a direct message: when the answer is lost and the command is sent again, under a fresh nonce,
      the message is stored a second time under another id. */
  lemma ResentDmIsStoredTwice(t: Tables, a: UserId, b: UserId, forB: string, forA: string, now: Timestamp,
                              later: Timestamp, id: DmId, nextId: DmId)
    requires UseCase(t, SendDm(a, b, forB, forA), now, id).Some?
    ensures var t' := TablesAfter(t, UseCase(t, SendDm(a, b, forB, forA), now, id).value);
            UseCase(t', SendDm(a, b, forB, forA), later, nextId)
              == Some(InsertDm(DmMessage(nextId, t.users[a].id, t.users[b].id, forB, forA, later)))
  {
  }

  // --- the owner ---------------------------------------------------------------------------------------------

  /** A forwarded command: who signed it, when it was issued, its nonce, and whether the signature verifies
      under that node's key. */
  datatype SignedCommand = SignedCommand(node: NodeId, cmd: Option<Command>, issuedAt: Timestamp, nonce: string,
                                         isAuthentic: bool)

  datatype NodeState = NodeState(tables: Tables, nonces: map<NonceKey, Timestamp>)

  /** What the owner's pass over the scopes finds: a lookup that failed, or whether it owns any of them. */
  function OwnsAny(view: RegistryView, node: NodeId, scopes: seq<Scope>): Option<bool> {
    if scopes == [] then Some(false)
    else
      match OwnsAny(view, node, scopes[..|scopes| - 1])
      case None => None
      case Some(owns) =>
        match view.ownerOf(scopes[|scopes| - 1])
        case Unavailable => None
        case Answer(None) => Some(owns)
        case Answer(Some(o)) => Some(owns || o.owner == node)
  }

  function RunUseCase(s: NodeState, cmd: Command, now: Timestamp, dmId: DmId): (NodeState, Option<ForwardError>) {
    match UseCase(s.tables, cmd, now, dmId)
    case None => (s, Some(Rejected))
    case Some(c) => (s.(tables := TablesAfter(s.tables, c)), None)
  }

  function NextDm(ids: Counters): Counters {
    ids.(dms := ids.dms + 1)
  }

  /** Authenticate, then own a scope, then admit once, then run. */
  function Execute(s: NodeState, node: NodeId, view: RegistryView, signed: SignedCommand, now: Timestamp, dmId: DmId)
    : (NodeState, Option<ForwardError>)
  {
    match view.hasKey(signed.node)
    case Unavailable => (s, Some(OwnerUnreachable))
    case Answer(None) => (s, Some(Rejected))
    case Answer(Some(_)) =>
      if !signed.isAuthentic || signed.cmd.None? then (s, Some(Rejected))
      else
        var scopes := TargetScopes(signed.cmd.value, s.tables);
        if scopes == [] then (s, Some(NoOwner))
        else
          match OwnsAny(view, node, scopes)
          case None => (s, Some(OwnerUnreachable))
          case Some(false) => (s, Some(Rejected))
          case Some(true) =>
            var (nonces, refusal) := Decide(s.nonces, Attempt((signed.node, signed.nonce), signed.issuedAt, now));
            if refusal.Some? then (s.(nonces := nonces), Some(Rejected))
            else RunUseCase(s.(nonces := nonces), signed.cmd.value, now, dmId)
  }

  class Owner {
    const node: NodeId
    const store: MemoryStore
    const replay: Guard

    constructor (node: NodeId, store: MemoryStore, replay: Guard)
      ensures this.node == node && this.store == store && this.replay == replay
    {
      this.node, this.store, this.replay := node, store, replay;
    }

    function State(): NodeState
      reads store`tables, replay.log`seen
    {
      NodeState(store.tables, replay.log.seen)
    }

    /** One port call on the store, whichever it is. */
    method Apply(c: Call)
      requires c.InsertDm? || c.AddBlock? || c.UpsertVote? || c.AddFriend? || c.UpdateFriend?
      modifies store`tables, store`outbox, store`nextOutbox
      ensures store.State() == Exec(old(store.State()), c)
    {
      if c.AddFriend? || c.UpdateFriend? {
        ApplyFriendship(c);
      } else {
        ApplyMessageOrVote(c);
      }
    }

    method ApplyFriendship(c: Call)
      requires c.AddFriend? || c.UpdateFriend?
      modifies store`tables, store`outbox, store`nextOutbox
      ensures store.State() == Exec(old(store.State()), c)
    {
      match c
      case AddFriend(f) => var _ := store.AddFriend(f);
      case UpdateFriend(f) => store.UpdateFriend(f);
    }

    method ApplyMessageOrVote(c: Call)
      requires c.InsertDm? || c.AddBlock? || c.UpsertVote?
      modifies store`tables, store`outbox, store`nextOutbox
      ensures store.State() == Exec(old(store.State()), c)
    {
      match c
      case InsertDm(dm) => store.InsertDm(dm);
      case AddBlock(b) => var _ := store.AddBlock(b);
      case UpsertVote(v) => store.UpsertVote(v);
    }

    method Run(signed: SignedCommand, view: RegistryView, now: Timestamp) returns (r: Option<ForwardError>)
      modifies store`tables, store`outbox, store`nextOutbox, store`counters, replay.log
      ensures (State(), r) == Execute(old(State()), node, view, signed, now, NextDm(old(store.counters)).Dm())
      ensures r.Some? ==> store.State() == old(store.State()) && store.counters == old(store.counters)
      ensures r.None? ==> signed.cmd.Some?
      ensures r.None? ==>
        var c := UseCase(old(store.tables), signed.cmd.value, now, NextDm(old(store.counters)).Dm());
        && c.Some? && store.State() == Exec(old(store.State()), c.value)
        && store.counters == (if c.value.InsertDm? then NextDm(old(store.counters)) else old(store.counters))
    {
      match view.hasKey(signed.node) {
        case Unavailable => return Some(OwnerUnreachable);
        case Answer(None) => return Some(Rejected);
        case Answer(Some(_)) =>
      }
      if !signed.isAuthentic || signed.cmd.None? {
        return Some(Rejected);
      }
      var cmd := signed.cmd.value;
      var scopes := TargetScopes(cmd, store.tables);
      if scopes == [] {
        return Some(NoOwner);
      }
      var ownsAScope := false;
      for i := 0 to |scopes|
        invariant OwnsAny(view, node, scopes[..i]) == Some(ownsAScope)
      {
        assert scopes[..i + 1][..i] == scopes[..i];
        match view.ownerOf(scopes[i]) {
          case Unavailable =>
            LookupFailed(view, node, scopes, i + 1);
            return Some(OwnerUnreachable);
          case Answer(None) =>
          case Answer(Some(o)) => if o.owner == node { ownsAScope := true; }
        }
      }
      assert scopes[..|scopes|] == scopes;
      if !ownsAScope {
        return Some(Rejected);
      }
      var refusal := replay.Admit(signed.node, signed.nonce, signed.issuedAt, now);
      if refusal.Some? {
        return Some(Rejected);
      }
      var call := UseCase(store.tables, cmd, now, NextDm(store.counters).Dm());
      if call.None? {
        return Some(Rejected);
      }
      if call.value.InsertDm? {
        var _ := store.NextDmId();
      }
      Apply(call.value);
      return None;
    }
  }

  lemma {:induction false} LookupFailed(view: RegistryView, node: NodeId, scopes: seq<Scope>, i: nat)
    requires i <= |scopes| && OwnsAny(view, node, scopes[..i]) == None
    ensures OwnsAny(view, node, scopes) == None
    decreases |scopes|
  {
    if i == |scopes| {
      assert scopes[..i] == scopes;
    } else {
      var front := scopes[..|scopes| - 1];
      assert front[..i] == scopes[..i];
      LookupFailed(view, node, front, i);
    }
  }

  // --- the router -----------------------------------------------------------------------------------------------

  type Cluster = map<NodeId, NodeState>

  /** Whatever else a node does: a port call of its own, a change pulled from a peer, a command its guard hears. */
  datatype Happening = Made(call: Call) | Pulled(rec: ChangeRecord) | Heard(attempt: Attempt)

  function Then(s: NodeState, h: Happening): NodeState {
    match h
    case Made(c) => s.(tables := TablesAfter(s.tables, c))
    case Pulled(rec) => s.(tables := ApplyRecord(s.tables, rec))
    case Heard(a) => s.(nonces := Decide(s.nonces, a).0)
  }

  /** What every node does while a submission is under way. */
  type Meanwhile = NodeId -> seq<Happening>

  /** What happens to a request on its way: no client for that node, lost before it arrives, answered, or run with
      the answer lost. */
  datatype Link = NoRoute | RequestLost | Answered | ReplyLost

  /** Everything around one submission; `meanwhile(i)` is what the nodes do before the commit on the i-th owner. */
  datatype Network = Network(self: NodeId, view: RegistryView, ownerView: NodeId -> RegistryView, link: NodeId -> Link,
                             clock: NodeId -> Timestamp, dmId: NodeId -> DmId, meanwhile: nat -> Meanwhile)

  datatype Routing = Routed(owners: seq<NodeId>) | Unroutable(error: ForwardError)

  /** Each scope's owner, each node once, in order of first appearance. */
  function OwnersOf(view: RegistryView, scopes: seq<Scope>): Routing {
    if scopes == [] then Routed([])
    else
      match OwnersOf(view, scopes[..|scopes| - 1])
      case Unroutable(e) => Unroutable(e)
      case Routed(owners) =>
        match view.ownerOf(scopes[|scopes| - 1])
        case Unavailable => Unroutable(OwnerUnreachable)
        case Answer(None) => Unroutable(NoOwner)
        case Answer(Some(o)) => Routed(if o.owner in owners then owners else owners + [o.owner])
  }

  /** One owner's share: run here without the replay guard, or forwarded signed; what it leaves and what the
      router hears. */
  function Share(net: Network, cmd: Command, signed: SignedCommand, owner: NodeId, s: NodeState)
    : (NodeState, Option<ForwardError>)
  {
    if owner == net.self then RunUseCase(s, cmd, net.clock(owner), net.dmId(owner))
    else if net.link(owner).NoRoute? || net.link(owner).RequestLost? then (s, Some(OwnerUnreachable))
    else
      var (s', e) := Execute(s, owner, net.ownerView(owner), signed, net.clock(owner), net.dmId(owner));
      (s', if net.link(owner).ReplyLost? then Some(OwnerUnreachable) else e)
  }

  /** What each owner makes of a submission. */
  function ShareOf(net: Network, cmd: Command, signed: SignedCommand): Turns.Share<NodeState, ForwardError> {
    (owner: NodeId, s: NodeState) => Share(net, cmd, signed, owner, s)
  }

  type Stop = Turns.Stop<Happening>

  function StopsOf(net: Network, owners: seq<NodeId>): (r: seq<Stop>)
    ensures |r| == |owners| && forall i :: 0 <= i < |r| ==> r[i] == Turns.Stop(owners[i], net.meanwhile(i))
  {
    seq(|owners|, i requires 0 <= i < |owners| => Turns.Stop(owners[i], net.meanwhile(i)))
  }

  /** The owners one by one until one fails, everything else going on before each. */
  function CommittedAll(net: Network, cmd: Command, signed: SignedCommand, c: Cluster, owners: seq<NodeId>)
    : (Cluster, Option<ForwardError>)
  {
    Turns.Taken(Then, ShareOf(net, cmd, signed), OwnerUnreachable, c, StopsOf(net, owners))
  }

  /** The whole submission: no scope, an unresolved owner, or the owners one by one until one fails, with everything
      that happens on any node before each. */
  function Submitted(c: Cluster, net: Network, cmd: Command, signed: SignedCommand): (Cluster, Option<ForwardError>) {
    if net.self !in c then (c, Some(OwnerUnreachable))
    else
      var scopes := TargetScopes(cmd, c[net.self].tables);
      if scopes == [] then (c, Some(NoOwner))
      else
        match OwnersOf(net.view, scopes)
        case Unroutable(e) => (c, Some(e))
        case Routed(owners) => CommittedAll(net, cmd, signed, c, owners)
  }

  lemma {:induction false} OwnersAreDistinct(view: RegistryView, scopes: seq<Scope>)
    ensures match OwnersOf(view, scopes)
            case Routed(owners) =>
              && (forall i, j :: 0 <= i < j < |owners| ==> owners[i] != owners[j])
              && (forall k :: 0 <= k < |scopes| ==>
                    view.ownerOf(scopes[k]).Answer? && view.ownerOf(scopes[k]).value.Some?
                    && view.ownerOf(scopes[k]).value.value.owner in owners)
            case Unroutable(_) =>
              exists k :: 0 <= k < |scopes|
                && (view.ownerOf(scopes[k]).Unavailable? || view.ownerOf(scopes[k]).value.None?)
    decreases |scopes|
  {
    if scopes != [] {
      var front := scopes[..|scopes| - 1];
      OwnersAreDistinct(view, front);
      assert forall k | 0 <= k < |front| :: front[k] == scopes[k];
    }
  }

  lemma {:induction false} RoutingFailed(view: RegistryView, scopes: seq<Scope>, i: nat)
    requires i <= |scopes| && OwnersOf(view, scopes[..i]).Unroutable?
    ensures OwnersOf(view, scopes) == OwnersOf(view, scopes[..i])
    decreases |scopes|
  {
    if i == |scopes| {
      assert scopes[..i] == scopes;
    } else {
      var front := scopes[..|scopes| - 1];
      assert front[..i] == scopes[..i];
      RoutingFailed(view, front, i);
    }
  }

  class WriteRouter {
    const net: Network
    /** The nodes' states, as the requests find and leave them. */
    var cluster: Cluster

    constructor (net: Network, cluster: Cluster)
      ensures this.net == net && this.cluster == cluster
    {
      this.net, this.cluster := net, cluster;
    }

    /** Whatever the nodes do before the next owner's turn. */
    method Others(m: Meanwhile)
      modifies `cluster
      ensures cluster == Turns.Elapse(Then, old(cluster), m)
    {
      cluster := map n | n in cluster :: Turns.Later(Then, cluster[n], m(n));
    }

    /** Run the command here when this node is the owner, forward it otherwise. */
    method Commit(owner: NodeId, cmd: Command, signed: SignedCommand) returns (failure: Option<ForwardError>)
      modifies `cluster
      ensures (cluster, failure)
           == Turns.Committed(ShareOf(net, cmd, signed), OwnerUnreachable, old(cluster), owner)
    {
      if owner !in cluster {
        return Some(OwnerUnreachable);
      }
      if owner == net.self {
        var (s, e) := RunUseCase(cluster[owner], cmd, net.clock(owner), net.dmId(owner));
        cluster := cluster[owner := s];
        return e;
      }
      if net.link(owner).NoRoute? || net.link(owner).RequestLost? {
        assert cluster == cluster[owner := cluster[owner]];
        return Some(OwnerUnreachable);
      }
      var (s, e) := Execute(cluster[owner], owner, net.ownerView(owner), signed, net.clock(owner), net.dmId(owner));
      cluster := cluster[owner := s];
      return if net.link(owner).ReplyLost? then Some(OwnerUnreachable) else e;
    }

    /** The next owner's turn. */
    method TakeTurn(m: Meanwhile, owner: NodeId, cmd: Command, signed: SignedCommand)
      returns (failure: Option<ForwardError>)
      modifies `cluster
      ensures ((cluster, failure), failure.None?)
           == Turns.Turn(Then, ShareOf(net, cmd, signed), OwnerUnreachable)((old(cluster), None), Turns.Stop(owner, m))
    {
      Others(m);
      failure := Commit(owner, cmd, signed);
    }

    /** Each scope's owner, duplicates collapsed. */
    method ResolveOwners(scopes: seq<Scope>) returns (r: Routing)
      ensures r == OwnersOf(net.view, scopes)
    {
      var owners: seq<NodeId> := [];
      for i := 0 to |scopes|
        invariant OwnersOf(net.view, scopes[..i]) == Routed(owners)
      {
        assert scopes[..i + 1][..i] == scopes[..i];
        match net.view.ownerOf(scopes[i]) {
          case Unavailable =>
            RoutingFailed(net.view, scopes, i + 1);
            return Unroutable(OwnerUnreachable);
          case Answer(None) =>
            RoutingFailed(net.view, scopes, i + 1);
            return Unroutable(NoOwner);
          case Answer(Some(o)) => if o.owner !in owners { owners := owners + [o.owner]; }
        }
      }
      assert scopes[..|scopes|] == scopes;
      return Routed(owners);
    }

    /** Resolve every scope's owner; then commit on each, stopping at the first failure. */
    method Submit(cmd: Command, signed: SignedCommand) returns (r: Option<ForwardError>)
      requires net.self in cluster
      modifies `cluster
      ensures (cluster, r) == Submitted(old(cluster), net, cmd, signed)
    {
      var scopes := TargetScopes(cmd, cluster[net.self].tables);
      if scopes == [] {
        return Some(NoOwner);
      }
      var routing := ResolveOwners(scopes);
      if routing.Unroutable? {
        return Some(routing.error);
      }
      r := CommitAll(routing.owners, cmd, signed);
    }

    /** One owner after the other, everything else going on in between. */
    method CommitAll(owners: seq<NodeId>, cmd: Command, signed: SignedCommand) returns (r: Option<ForwardError>)
      modifies `cluster
      ensures (cluster, r) == CommittedAll(net, cmd, signed, old(cluster), owners)
    {
      ghost var start := (cluster, None);
      ghost var step := Turns.Turn(Then, ShareOf(net, cmd, signed), OwnerUnreachable);
      ghost var stops := StopsOf(net, owners);
      var i := 0;
      while i < |owners|
        invariant 0 <= i <= |owners|
        invariant Ordered.Run(start, stops[..i], step) == ((cluster, None), i)
      {
        ghost var before := cluster;
        var failure := TakeTurn(net.meanwhile(i), owners[i], cmd, signed);
        Ordered.OneMore(start, stops, step, i, (before, None), ((cluster, failure), failure.None?));
        if failure.Some? {
          assert CommittedAll(net, cmd, signed, old(cluster), owners) == (cluster, failure);
          return failure;
        }
        assert Ordered.Run(start, stops[..i + 1], step) == ((cluster, None), i + 1);
        i := i + 1;
      }
      assert stops[..i] == stops;
      return None;
    }
  }
}
