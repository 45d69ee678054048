/** Forwarded commands: exactly when an owner runs one, that it runs it once, what the router hears, and how far a
    submission that fails has come. */
module Forwarding {
  import opened Domain
  import opened Calls
  import opened Feed
  import opened Commands
  import opened ReplayGuard
  import Blocking
  import Turns

  // --- one owner ---------------------------------------------------------------------------------------------

  /** Signed, as it stands, by a node whose key is known. */
  predicate IsVerified(view: RegistryView, signed: SignedCommand) {
    view.hasKey(signed.node).Answer? && view.hasKey(signed.node).value.Some? && signed.isAuthentic && signed.cmd.Some?
  }

  predicate IsOwnedBy(view: RegistryView, node: NodeId, s: Scope) {
    view.ownerOf(s).Answer? && view.ownerOf(s).value.Some? && view.ownerOf(s).value.value.owner == node
  }

  /** Every scope can be looked up, and this node owns one of them. */
  predicate OwnsOneOf(view: RegistryView, node: NodeId, scopes: seq<Scope>) {
    (forall s :: s in scopes ==> view.ownerOf(s).Answer?) && exists s :: s in scopes && IsOwnedBy(view, node, s)
  }

  lemma {:induction false} OwnsAnyIff(view: RegistryView, node: NodeId, scopes: seq<Scope>)
    ensures OwnsAny(view, node, scopes).Some? <==> forall s :: s in scopes ==> view.ownerOf(s).Answer?
    ensures OwnsAny(view, node, scopes) == Some(true) <==> OwnsOneOf(view, node, scopes)
    decreases |scopes|
  {
    if scopes != [] {
      var front, last := scopes[..|scopes| - 1], scopes[|scopes| - 1];
      assert scopes == front + [last];
      OwnsAnyIff(view, node, front);
    }
  }

  /** Within two minutes of the owner's clock. */
  predicate IsTimely(signed: SignedCommand, now: Timestamp) {
    signed.issuedAt - 120 <= now <= signed.issuedAt + 120
  }

  /** The nonce was recorded and has not expired. */
  predicate IsSpent(s: NodeState, signed: SignedCommand, now: Timestamp) {
    (signed.node, signed.nonce) in s.nonces && now < s.nonces[(signed.node, signed.nonce)]
  }

  /** What comes before the nonce is looked at. */
  predicate IsMine(s: NodeState, node: NodeId, view: RegistryView, signed: SignedCommand) {
    IsVerified(view, signed) && OwnsOneOf(view, node, TargetScopes(signed.cmd.value, s.tables))
  }

  /** An owner runs a command exactly when it is verified, the node owns a scope the command writes into, it is timely,
      its nonce is not spent, and the use-case accepts it; and then it leaves what that use-case writes. */
  lemma ExecutedIff(s: NodeState, node: NodeId, view: RegistryView, signed: SignedCommand, now: Timestamp, dmId: DmId)
    ensures var (s', e) := Execute(s, node, view, signed, now, dmId);
            && (e == None <==>
                  && IsMine(s, node, view, signed) && IsTimely(signed, now) && !IsSpent(s, signed, now)
                  && UseCase(s.tables, signed.cmd.value, now, dmId).Some?)
            && s'.tables
            == if e.Some? then s.tables
               else TablesAfter(s.tables, UseCase(s.tables, signed.cmd.value, now, dmId).value)
  {
    if IsVerified(view, signed) { OwnsAnyIff(view, node, TargetScopes(signed.cmd.value, s.tables)); }
  }

  /** A command that is not verified, belongs elsewhere or is not timely spends nothing; any other has its nonce spent
      for four minutes, even when the use-case refuses it. */
  lemma NonceIsSpentIff(s: NodeState, node: NodeId, view: RegistryView, signed: SignedCommand, now: Timestamp,
                        dmId: DmId)
    ensures var s' := Execute(s, node, view, signed, now, dmId).0;
            if IsMine(s, node, view, signed) && IsTimely(signed, now)
            then forall later :: now <= later ==> (IsSpent(s', signed, later) <==> later < now + 240)
            else s' == s
  {
    if IsVerified(view, signed) { OwnsAnyIff(view, node, TargetScopes(signed.cmd.value, s.tables)); }
  }

  /** So within four minutes of reaching its owner a command does nothing a second time, however it fared the first
      time, whatever has become of the tables and whatever the registry says. */
  lemma SecondCopyDoesNothing(s: NodeState, node: NodeId, view: RegistryView, signed: SignedCommand, now: Timestamp,
                              dmId: DmId, s': NodeState, view': RegistryView, later: Timestamp, dmId': DmId)
    requires IsMine(s, node, view, signed) && IsTimely(signed, now) && now <= later < now + 240
    requires s'.nonces == Execute(s, node, view, signed, now, dmId).0.nonces
    ensures var (after, e) := Execute(s', node, view', signed, later, dmId');
            e.Some? && after.tables == s'.tables
  {
    NonceIsSpentIff(s, node, view, signed, now, dmId);
    assert IsSpent(Execute(s, node, view, signed, now, dmId).0, signed, later);
    assert IsSpent(s', signed, later);
    ExecutedIff(s', node, view', signed, later, dmId');
  }

  // --- the router --------------------------------------------------------------------------------------------

  /** The router hears of no failure exactly when the use-case accepted here, or the owner ran the command and its
      answer came back. */
  lemma HeardIff(net: Network, cmd: Command, signed: SignedCommand, owner: NodeId, s: NodeState)
    ensures Share(net, cmd, signed, owner, s).1 == None <==>
      if owner == net.self then UseCase(s.tables, cmd, net.clock(owner), net.dmId(owner)).Some?
      else net.link(owner).Answered?
           && Execute(s, owner, net.ownerView(owner), signed, net.clock(owner), net.dmId(owner)).1 == None
  {
  }

  /** What the owner has done does not depend on whether its answer came back; a command that never arrived has done
      nothing; and one that ran here has spent no nonce. */
  lemma ShareLeaves(net: Network, cmd: Command, signed: SignedCommand, owner: NodeId, s: NodeState)
    ensures var s' := Share(net, cmd, signed, owner, s).0;
            if owner == net.self then
              var call := UseCase(s.tables, cmd, net.clock(owner), net.dmId(owner));
              s' == if call.Some? then s.(tables := TablesAfter(s.tables, call.value)) else s
            else if net.link(owner).Answered? || net.link(owner).ReplyLost? then
              s' == Execute(s, owner, net.ownerView(owner), signed, net.clock(owner), net.dmId(owner)).0
            else s' == s
  {
  }

  /** Owners are resolved exactly when every scope has one; the nodes committed on are the owners of the scopes and no
      others. */
  lemma {:induction false} RoutedIff(view: RegistryView, scopes: seq<Scope>)
    ensures OwnersOf(view, scopes).Routed? <==>
      forall s :: s in scopes ==> view.ownerOf(s).Answer? && view.ownerOf(s).value.Some?
    ensures OwnersOf(view, scopes).Routed? ==>
      forall n :: n in OwnersOf(view, scopes).owners <==> exists s :: s in scopes && IsOwnedBy(view, n, s)
    decreases |scopes|
  {
    if scopes != [] {
      var front, last := scopes[..|scopes| - 1], scopes[|scopes| - 1];
      assert scopes == front + [last];
      RoutedIff(view, front);
    }
  }

  // --- a submission that fails -------------------------------------------------------------------------------

  /** The failure a submission answers is that of one turn: the owners before it have run their shares once each, that
      owner has done what its share did, and nobody after it has been asked. */
  ghost predicate FailedAt(c: Cluster, net: Network, cmd: Command, signed: SignedCommand, owners: seq<NodeId>, k: nat,
                           c': Cluster, e: ForwardError)
  {
    k < |owners| &&
    var stops := StopsOf(net, owners);
    var mid := Turns.AfterTurns(Then, ShareOf(net, cmd, signed), OwnerUnreachable, c, stops, k);
    var met := Turns.Elapse(Then, mid, net.meanwhile(k));
    && Blocking.CommittedOn(net, cmd, signed, c, mid, stops, k)
    && if owners[k] in met then
         owners[k] in c' && c' == met[owners[k] := c'[owners[k]]]
         && Share(net, cmd, signed, owners[k], met[owners[k]]) == (c'[owners[k]], Some(e))
       else c' == met && e == OwnerUnreachable
  }

  /** One submission of a command whose scopes are all known and owned: it fails only so. */
  lemma FailsAtOneTurn(c: Cluster, net: Network, cmd: Command, signed: SignedCommand) returns (k: nat)
    requires net.self in c && TargetScopes(cmd, c[net.self].tables) != []
    requires OwnersOf(net.view, TargetScopes(cmd, c[net.self].tables)).Routed?
    requires Submitted(c, net, cmd, signed).1.Some?
    ensures var (c', e) := Submitted(c, net, cmd, signed);
            FailedAt(c, net, cmd, signed, OwnersOf(net.view, TargetScopes(cmd, c[net.self].tables)).owners, k, c',
                     e.value)
  {
    var scopes := TargetScopes(cmd, c[net.self].tables);
    var owners := OwnersOf(net.view, scopes).owners;
    var stops, share := StopsOf(net, owners), ShareOf(net, cmd, signed);
    k := Turns.Succeeded(Then, share, OwnerUnreachable, c, stops);
    Blocking.StopsAreDistinct(net, scopes);
    Turns.FirstFailure(Then, share, OwnerUnreachable, c, stops);
  }

  predicate LacksOwner(view: RegistryView, s: Scope) {
    view.ownerOf(s).Unavailable? || view.ownerOf(s).value.None?
  }

  /** A command without a scope, or with one that has no owner or cannot be looked up, reaches nobody. */
  lemma UnroutedReachesNobody(c: Cluster, net: Network, cmd: Command, signed: SignedCommand)
    requires net.self in c
    ensures var scopes := TargetScopes(cmd, c[net.self].tables);
            scopes == [] || (exists s :: s in scopes && LacksOwner(net.view, s)) ==>
              Submitted(c, net, cmd, signed).0 == c && Submitted(c, net, cmd, signed).1.Some?
  {
    RoutedIff(net.view, TargetScopes(cmd, c[net.self].tables));
  }
}
