/** Which scope every row belongs to, and therefore who may sign it and whose word is taken for it. */
module Scopes {
  import opened Domain
  import opened Replica
  import opened Calls
  import opened Feed
  import opened Pulling

  /** Where a row belongs: a server's own rows and whatever names its server in that server, votes and reactions where
      their parent is stored, and the social graph in the home of the user who acts. */
  predicate BelongsTo(t: Tables, row: Row, s: Scope) {
    match row
    case ServerRow(x) => s == ServerScope(x.id)
    case MembershipRow(m) => s == ServerScope(m.serverId)
    case ChannelRow(c) => s == ServerScope(c.serverId)
    case MessageRow(m) => s == ServerScope(m.serverId)
    case ProposalRow(p) => s == ServerScope(p.serverId)
    case RuleRow(x) => s == ServerScope(x.serverId)
    case RoleRow(x) => s == ServerScope(x.serverId)
    case AssignmentRow(a) => s == ServerScope(a.serverId)
    case EmojiRow(e) => s == ServerScope(e.serverId)
    case EmojiVoteRow(v) => s == ServerScope(v.serverId)
    case GrantRow(g) => s == ServerScope(g.serverId)
    case InviteRow(i) => s == ServerScope(i.serverId)
    case VoteRow(v) => v.proposalId in t.proposals && s == ServerScope(t.proposals[v.proposalId].serverId)
    case ReactionRow(r) => r.messageId in t.messages && s == ServerScope(t.messages[r.messageId].serverId)
    case UserRow(u) => s == UserHome(u.id)
    case KeysRow(k) => s == UserHome(k.userId)
    case DmRow(d) => s == UserHome(d.sender)
    case FriendRow(f) => s == UserHome(f.requester)
    case BlockRow(b) => s == UserHome(b.blocker)
  }

  /** The scope derived from a row's serialization is the one it belongs to. */
  lemma RowScopeIff(t: Tables, n: nat, op: ChangeOp, row: Row, s: Scope)
    ensures ScopeOf(t, RecordFor(n, op, row)) == Some(s) <==> BelongsTo(t, row, s)
  {
  }

  /** Only votes and reactions can have none, and only while their parent is not stored here. */
  lemma ScopelessIff(t: Tables, n: nat, op: ChangeOp, row: Row)
    ensures ScopeOf(t, RecordFor(n, op, row)) == None <==>
      (row.VoteRow? && row.vote.proposalId !in t.proposals)
      || (row.ReactionRow? && row.reaction.messageId !in t.messages)
  {
  }

  /** A payload that does not name its scope, and a row of an unknown entity, belong nowhere, whatever the envelope
      says. */
  lemma UnknownBelongsNowhere(t: Tables, rec: ChangeRecord)
    requires rec.entity.Other? || rec.payload.numbers == map[]
    ensures ScopeOf(t, rec) == None
  {
  }

  // --- signing -------------------------------------------------------------------------------------------

  /** The node owns the scope, as the registry answers it, under this epoch. */
  predicate IsOwner(view: RegistryView, node: NodeId, s: Scope, epoch: nat) {
    view.ownerOf(s) == Answer(Some(Ownership(node, epoch)))
  }

  /** A producer signs a row exactly when it owns the scope the row belongs to. */
  lemma SignedRowIff(p: Peer, v: RegistryView, n: nat, op: ChangeOp, row: Row)
    ensures IsSignable(p, v, RecordFor(n, op, row))
      <==> exists s: Scope, epoch: nat :: BelongsTo(p.tables, row, s) && IsOwner(v, p.node, s, epoch)
  {
    var rec := RecordFor(n, op, row);
    if IsSignable(p, v, rec) {
      var s := ScopeOf(p.tables, rec).value;
      RowScopeIff(p.tables, n, op, row, s);
      assert IsOwner(v, p.node, s, MyEpoch(v, p.node, s).value);
    }
    if s: Scope, epoch: nat :| BelongsTo(p.tables, row, s) && IsOwner(v, p.node, s, epoch) {
      RowScopeIff(p.tables, n, op, row, s);
    }
  }

  // --- authorizing ---------------------------------------------------------------------------------------

  /** An event whose body is the serialization of a row. */
  predicate Carries(ev: ChangeEvent, row: Row) {
    ev.body.Some? && ev.body.value.entity == EntityOf(row) && ev.body.value.payload == ToPayload(row)
  }

  predicate IsGenuine(view: RegistryView, ev: ChangeEvent) {
    && ev.body.Some? && ev.signer == Some(ev.body.value.node)
    && view.hasKey(ev.body.value.node).Answer? && view.hasKey(ev.body.value.node).value.Some?
  }

  /** A row is accepted from the node that owns the scope it belongs to, at no newer epoch than it stamped, and from
      nobody else. */
  lemma RowAuthorizedIff(view: RegistryView, ev: ChangeEvent, t: Tables, row: Row)
    requires Carries(ev, row)
    ensures Authorize(view, ev, t).Authorized? <==>
      IsGenuine(view, ev)
      && exists s: Scope, epoch: nat :: BelongsTo(t, row, s) && IsOwner(view, ev.body.value.node, s, epoch)
                            && epoch <= ev.body.value.epoch
  {
    var part := ev.body.value;
    AuthorizedIff(view, ev, t);
    var rec := RecordFor(part.seqNo, part.op, row);
    assert ScopeOf(t, rec) == Resolve(t, Classify(part.entity, part.payload));
    if Authorize(view, ev, t).Authorized? {
      var s := ScopeOf(t, rec).value;
      RowScopeIff(t, part.seqNo, part.op, row, s);
      assert IsOwner(view, part.node, s, view.ownerOf(s).value.value.epoch);
    }
    if s: Scope, epoch: nat :| BelongsTo(t, row, s) && IsOwner(view, part.node, s, epoch) && epoch <= part.epoch {
      RowScopeIff(t, part.seqNo, part.op, row, s);
    }
  }

  /** So nobody but a server's owner writes its memberships, whoever the member's home node is. */
  lemma MembershipsAreTheServers(view: RegistryView, ev: ChangeEvent, t: Tables, m: Membership)
    requires Carries(ev, MembershipRow(m)) && Authorize(view, ev, t).Authorized?
    ensures exists epoch: nat :: IsOwner(view, ev.body.value.node, ServerScope(m.serverId), epoch)
  {
    RowAuthorizedIff(view, ev, t, MembershipRow(m));
  }

  // --- what is retried -------------------------------------------------------------------------------------

  /** A row is refused for now, to be tried again, exactly when the registry does not answer, does not know the node, or
      has no owner for the row's scope, or when the row's parent is not here yet. */
  lemma RetriedIff(view: RegistryView, ev: ChangeEvent, t: Tables, row: Row)
    requires Carries(ev, row)
    ensures var v := Authorize(view, ev, t); var key := view.hasKey(ev.body.value.node);
            v.Refused? && IsTransient(v.error) <==>
              || key == Unavailable || key == Answer(None)
              || (ev.signer == Some(ev.body.value.node)
                  && ((forall s :: !BelongsTo(t, row, s))
                      || exists s :: BelongsTo(t, row, s) && (view.ownerOf(s) == Unavailable
                                                              || view.ownerOf(s) == Answer(None))))
  {
    var part := ev.body.value;
    var rec := RecordFor(part.seqNo, part.op, row);
    assert ScopeOf(t, rec) == Resolve(t, Classify(part.entity, part.payload));
    forall s ensures ScopeOf(t, rec) == Some(s) <==> BelongsTo(t, row, s) {
      RowScopeIff(t, part.seqNo, part.op, row, s);
    }
  }

  /** And refused for good exactly when it is not that node's, not its own to write, or stamped with a past epoch. */
  lemma RefusedForGoodIff(view: RegistryView, ev: ChangeEvent, t: Tables, row: Row)
    requires Carries(ev, row)
    ensures var v := Authorize(view, ev, t); var part := ev.body.value;
            v.Refused? && !IsTransient(v.error) <==>
              && view.hasKey(part.node).Answer? && view.hasKey(part.node).value.Some?
              && (ev.signer != Some(part.node)
                  || exists s, o :: BelongsTo(t, row, s) && view.ownerOf(s) == Answer(Some(o))
                                    && (o.owner != part.node || part.epoch < o.epoch))
  {
    var part := ev.body.value;
    var rec := RecordFor(part.seqNo, part.op, row);
    assert ScopeOf(t, rec) == Resolve(t, Classify(part.entity, part.payload));
    forall s ensures ScopeOf(t, rec) == Some(s) <==> BelongsTo(t, row, s) {
      RowScopeIff(t, part.seqNo, part.op, row, s);
    }
  }
}
