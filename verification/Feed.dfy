/** From outbox records to signed events and back into a replica: which scope a row belongs to, who may speak
    for it, and the producer and consumer halves of one pull. */
module Feed {
  import opened Domain
  import opened Replica
  import opened Store
  import Ordered

  datatype Scope = ServerScope(server: ServerId) | UserHome(user: UserId)

  datatype DerivedScope = Owned(scope: Scope) | ViaProposal(proposal: ProposalId) | ViaMessage(message: MessageId)
      | Indeterminate

  /** The envelope's own scope field; `None` is the global scope. Nothing authorizes by it. */
  datatype SignedPart = SignedPart(node: NodeId, epoch: nat, seqNo: nat, scope: Option<Scope>,
                                   entity: Entity, op: ChangeOp, payload: Payload)

  /** Transmitted bytes and signature: what the body parses to, and the node whose published key verifies
      the signature over those bytes, if any does. */
  datatype ChangeEvent = ChangeEvent(body: Option<SignedPart>, signer: Option<NodeId>)

  datatype Ownership = Ownership(owner: NodeId, epoch: nat)

  /** What the control plane answers to one lookup. */
  datatype Lookup<+T> = Answer(value: Option<T>) | Unavailable

  /** The registry as one event sees it. */
  datatype RegistryView = RegistryView(hasKey: NodeId -> Lookup<NodeId>, ownerOf: Scope -> Lookup<Ownership>)

  datatype AuthError = BadBody | BadSignature | UnknownNode | NotOwner | StaleEpoch | Unowned | ScopeMismatch
      | RegistryDown

  datatype Verdict = Authorized(part: SignedPart) | Refused(error: AuthError)

  // --- scope -----------------------------------------------------------------------------------

  function InServer(p: Payload, f: Field): DerivedScope {
    if f in p.numbers then Owned(ServerScope(p.numbers[f])) else Indeterminate
  }

  function InHome(p: Payload, f: Field): DerivedScope {
    if f in p.numbers then Owned(UserHome(p.numbers[f])) else Indeterminate
  }

  /** The scope a row belongs to, read off its payload and never off its envelope. */
  function Classify(entity: Entity, p: Payload): DerivedScope {
    match entity
    case Servers => InServer(p, FId)
    case Channels => InServer(p, FServerId)
    case Messages => InServer(p, FServerId)
    case Proposals => InServer(p, FServerId)
    case Memberships => InServer(p, FServerId)
    case Rules => InServer(p, FServerId)
    case Roles => InServer(p, FServerId)
    case RoleAssignments => InServer(p, FServerId)
    case Emojis => InServer(p, FServerId)
    case EmojiVotes => InServer(p, FServerId)
    case ChannelGrants => InServer(p, FServerId)
    case Invites => InServer(p, FServerId)
    case Votes => if FProposalId in p.numbers then ViaProposal(p.numbers[FProposalId]) else Indeterminate
    case Reactions => if FMessageId in p.numbers then ViaMessage(p.numbers[FMessageId]) else Indeterminate
    case Users => InHome(p, FId)
    case UserKeysEntity => InHome(p, FUserId)
    case Dms => InHome(p, FSender)
    case Friendships => InHome(p, FRequester)
    case Blocks => InHome(p, FBlocker)
    case Other(_) => Indeterminate
  }

  /** Parent-scoped rows take their parent's server, looked up in the local store. */
  function Resolve(t: Tables, d: DerivedScope): Option<Scope> {
    match d
    case Owned(s) => Some(s)
    case ViaProposal(id) => if id in t.proposals then Some(ServerScope(t.proposals[id].serverId)) else None
    case ViaMessage(id) => if id in t.messages then Some(ServerScope(t.messages[id].serverId)) else None
    case Indeterminate => None
  }

  function ScopeOf(t: Tables, rec: ChangeRecord): Option<Scope> {
    Resolve(t, Classify(rec.entity, rec.payload))
  }

  // --- the producer -----------------------------------------------------------------------------

  /** The epoch this node would stamp now: that of its own current ownership, or none. */
  function MyEpoch(view: RegistryView, node: NodeId, s: Scope): Option<nat> {
    match view.ownerOf(s)
    case Answer(Some(o)) => if o.owner == node then Some(o.epoch) else None
    case _ => None
  }

  function SignAs(node: NodeId, rec: ChangeRecord, s: Scope, epoch: nat): ChangeEvent {
    ChangeEvent(Some(SignedPart(node, epoch, rec.seqNo, Some(s), rec.entity, rec.op, rec.payload)), Some(node))
  }

  /** One row on the wire, or left off it. */
  function Stamp(view: RegistryView, node: NodeId, scope: Option<Scope>, rec: ChangeRecord): Option<ChangeEvent> {
    match scope
    case None => None
    case Some(s) =>
      match MyEpoch(view, node, s)
      case None => None
      case Some(epoch) => Some(SignAs(node, rec, s, epoch))
  }

  function ScopesOf(t: Tables, records: seq<ChangeRecord>): (r: seq<Option<Scope>>)
    ensures |r| == |records|
  {
    seq(|records|, i requires 0 <= i < |records| => ScopeOf(t, records[i]))
  }

  /** The first row of the batch in the same scope as row `i`: the one whose lookup row `i` reuses. */
  function FirstUse(scopes: seq<Option<Scope>>, i: nat): (j: nat)
    requires i < |scopes|
    ensures j <= i && scopes[j] == scopes[i]
    ensures forall k :: 0 <= k < j ==> scopes[k] != scopes[i]
  {
    FirstFrom(scopes, 0, i)
  }

  function FirstFrom(scopes: seq<Option<Scope>>, from: nat, i: nat): (j: nat)
    requires from <= i < |scopes|
    ensures from <= j <= i && scopes[j] == scopes[i]
    ensures forall k :: from <= k < j ==> scopes[k] != scopes[i]
    decreases i - from
  {
    if scopes[from] == scopes[i] then from else FirstFrom(scopes, from + 1, i)
  }

  /** The first `n` rows of a batch signed, when a lookup made at row `i` would be answered by `views[i]`. */
  function SignBatch(views: seq<RegistryView>, node: NodeId, scopes: seq<Option<Scope>>, records: seq<ChangeRecord>,
                     n: nat): seq<ChangeEvent>
    requires n <= |records| == |scopes| <= |views|
    decreases n
  {
    if n == 0 then []
    else
      var rest := SignBatch(views, node, scopes, records, n - 1);
      match Stamp(views[FirstUse(scopes, n - 1)], node, scopes[n - 1], records[n - 1])
      case None => rest
      case Some(ev) => rest + [ev]
  }

  /** Row `i` goes out as `ev`: its scope resolved, this node was the owner when the scope was first looked up, and
      the epoch of that ownership is the one stamped. */
  predicate GoesOutAs(views: seq<RegistryView>, node: NodeId, scopes: seq<Option<Scope>>, records: seq<ChangeRecord>,
                      i: nat, ev: ChangeEvent)
    requires i < |records| == |scopes| <= |views|
  {
    && scopes[i].Some?
    && var found := views[FirstUse(scopes, i)].ownerOf(scopes[i].value);
       && found.Answer? && found.value.Some? && found.value.value.owner == node
       && ev == SignAs(node, records[i], scopes[i].value, found.value.value.epoch)
  }

  /** A batch holds exactly the owned, resolvable rows: nothing is signed for a scope the node did not own, and
      nothing it owned is held back. */
  lemma {:induction false} SignedExactly(views: seq<RegistryView>, node: NodeId, scopes: seq<Option<Scope>>,
                                         records: seq<ChangeRecord>, n: nat, ev: ChangeEvent)
    requires n <= |records| == |scopes| <= |views|
    ensures ev in SignBatch(views, node, scopes, records, n)
      <==> exists i :: 0 <= i < n && GoesOutAs(views, node, scopes, records, i, ev)
  {
    if n > 0 {
      SignedExactly(views, node, scopes, records, n - 1, ev);
      assert GoesOutAs(views, node, scopes, records, n - 1, ev)
        <==> Stamp(views[FirstUse(scopes, n - 1)], node, scopes[n - 1], records[n - 1]) == Some(ev);
    }
  }

  /** What the cache holds after the first `i` rows: every scope met, with the answer its first row got. */
  ghost predicate CacheHolds(cache: map<Scope, Option<nat>>, views: seq<RegistryView>, node: NodeId,
                             scopes: seq<Option<Scope>>, i: nat)
    requires i <= |scopes| <= |views|
  {
    && (forall s :: s in cache ==> IsCached(cache, views, node, scopes, i, s))
    && (forall k :: 0 <= k < i && scopes[k].Some? ==> scopes[k].value in cache)
  }

  ghost predicate IsCached(cache: map<Scope, Option<nat>>, views: seq<RegistryView>, node: NodeId,
                           scopes: seq<Option<Scope>>, i: nat, s: Scope)
    requires i <= |scopes| <= |views| && s in cache
  {
    exists k :: 0 <= k < i && scopes[k] == Some(s) && cache[s] == MyEpoch(views[k], node, s)
             && forall j :: 0 <= j < k ==> scopes[j] != Some(s)
  }

  lemma CacheSkip(cache: map<Scope, Option<nat>>, views: seq<RegistryView>, node: NodeId,
                  scopes: seq<Option<Scope>>, i: nat)
    requires i < |scopes| <= |views| && CacheHolds(cache, views, node, scopes, i)
    requires scopes[i].Some? ==> scopes[i].value in cache
    ensures CacheHolds(cache, views, node, scopes, i + 1)
  {
  }

  lemma CacheHit(cache: map<Scope, Option<nat>>, views: seq<RegistryView>, node: NodeId,
                 scopes: seq<Option<Scope>>, i: nat, s: Scope)
    requires i < |scopes| <= |views| && CacheHolds(cache, views, node, scopes, i) && scopes[i] == Some(s)
    requires s in cache
    ensures cache[s] == MyEpoch(views[FirstUse(scopes, i)], node, s)
    ensures CacheHolds(cache, views, node, scopes, i + 1)
  {
  }

  lemma CacheMiss(cache: map<Scope, Option<nat>>, views: seq<RegistryView>, node: NodeId,
                  scopes: seq<Option<Scope>>, i: nat, s: Scope)
    requires i < |scopes| <= |views| && CacheHolds(cache, views, node, scopes, i) && scopes[i] == Some(s)
    requires s !in cache
    ensures FirstUse(scopes, i) == i
    ensures CacheHolds(cache[s := MyEpoch(views[i], node, s)], views, node, scopes, i + 1)
  {
  }

  /** The producer loop, with one registry lookup per distinct scope. */
  method SignFeed(source: MemoryStore, node: NodeId, views: seq<RegistryView>, afterSeq: nat, limit: nat)
    returns (out: seq<ChangeEvent>)
    requires |views| >= limit
    ensures var records := Page(source.outbox, afterSeq, limit);
            && |records| <= limit
            && out == SignBatch(views, node, ScopesOf(source.tables, records), records, |records|)
  {
    var records := source.ChangesSince(afterSeq, limit);
    out := [];
    var epochCache: map<Scope, Option<nat>> := map[];
    ghost var scopes := ScopesOf(source.tables, records);
    for i := 0 to |records|
      invariant CacheHolds(epochCache, views, node, scopes, i)
      invariant out == SignBatch(views, node, scopes, records, i)
    {
      var rec := records[i];
      var owned := ScopeOf(source.tables, rec);
      assert owned == scopes[i];
      if owned.None? {
        CacheSkip(epochCache, views, node, scopes, i);
        continue;
      }
      var s := owned.value;
      var epoch;
      if s in epochCache {
        CacheHit(epochCache, views, node, scopes, i, s);
        epoch := epochCache[s];
      } else {
        CacheMiss(epochCache, views, node, scopes, i, s);
        epoch := MyEpoch(views[i], node, s);
        epochCache := epochCache[s := epoch];
      }
      if epoch.None? {
        continue;
      }
      out := out + [SignAs(node, rec, s, epoch.value)];
    }
  }

  // --- the consumer -----------------------------------------------------------------------------

  /** Signature, payload-derived scope, owner and epoch, in that order. */
  function Authorize(view: RegistryView, ev: ChangeEvent, t: Tables): (v: Verdict)
    ensures v.Authorized? ==> Some(v.part) == ev.body && ev.signer == Some(v.part.node)
  {
    if ev.body.None? then Refused(BadBody)
    else
      var part := ev.body.value;
      match view.hasKey(part.node)
      case Unavailable => Refused(RegistryDown)
      case Answer(None) => Refused(UnknownNode)
      case Answer(Some(_)) =>
        if ev.signer != Some(part.node) then Refused(BadSignature)
        else
          match Classify(part.entity, part.payload)
          case Indeterminate => Refused(ScopeMismatch)
          case derived =>
            match Resolve(t, derived)
            case None => Refused(Unowned)
            case Some(s) =>
              match view.ownerOf(s)
              case Unavailable => Refused(RegistryDown)
              case Answer(None) => Refused(Unowned)
              case Answer(Some(o)) =>
                if o.owner != part.node then Refused(NotOwner)
                else if part.epoch < o.epoch then Refused(StaleEpoch)
                else Authorized(part)
  }

  /** An event is accepted exactly when its own signer, known to the registry, owns the scope its payload derives, at
      an epoch no newer than the one it was stamped with. The envelope's scope plays no part. */
  lemma AuthorizedIff(view: RegistryView, ev: ChangeEvent, t: Tables)
    ensures Authorize(view, ev, t).Authorized? <==>
      && ev.body.Some?
      && var part := ev.body.value; var s := Resolve(t, Classify(part.entity, part.payload));
         && ev.signer == Some(part.node) && view.hasKey(part.node).Answer? && view.hasKey(part.node).value.Some?
         && s.Some?
         && var o := view.ownerOf(s.value);
            o.Answer? && o.value.Some? && o.value.value.owner == part.node && part.epoch >= o.value.value.epoch
  {
  }

  /** Retry later, rather than skip. */
  predicate IsTransient(e: AuthError) {
    e.Unowned? || e.UnknownNode? || e.RegistryDown?
  }

  function RecordOfPart(part: SignedPart): ChangeRecord {
    ChangeRecord(part.seqNo, part.entity, part.op, part.payload)
  }

  /** The sequence number a body claims; 0 when it does not parse. */
  function PeekSeq(ev: ChangeEvent): nat {
    if ev.body.Some? then ev.body.value.seqNo else 0
  }

  /** One event of a batch, and the registry as the consumer sees it while authorizing that event. */
  datatype Delivery = Delivery(event: ChangeEvent, view: RegistryView)

  /** How far one batch has come. */
  datatype Progress = Progress(tables: Tables, high: nat, applied: nat, malformed: nat, rejected: seq<AuthError>)

  function Max(a: nat, b: nat): nat { if a >= b then a else b }

  /** One event: what it leaves, and whether the batch goes on. */
  function Handle(p: Progress, d: Delivery): (Progress, bool) {
    match Authorize(d.view, d.event, p.tables)
    case Authorized(part) =>
      var rec := RecordOfPart(part);
      var ok := !IsMalformed(rec);
      (Progress(ApplyRecord(p.tables, rec), Max(p.high, part.seqNo), p.applied + if ok then 1 else 0,
                p.malformed + if ok then 0 else 1, p.rejected), true)
    case Refused(e) =>
      if IsTransient(e) then (p.(rejected := p.rejected + [e]), false)
      else (p.(rejected := p.rejected + [e], high := Max(p.high, PeekSeq(d.event))), true)
  }

  /** A batch starts at the cursor already recorded. */
  function Begin(t: Tables, cursor: nat): Progress {
    Progress(t, cursor, 0, 0, [])
  }

  datatype Ingested = Ingested(applied: nat, rejected: seq<AuthError>, applyErrors: nat)

  class Replicator {
    const store: MemoryStore

    constructor (store: MemoryStore)
      ensures this.store == store
    {
      this.store := store;
    }

    /** One event: authorized and applied, or refused; and whether the batch goes on. */
    method Offer(event: ChangeEvent, view: RegistryView, counted: Ingested, high: nat)
      returns (out: Ingested, handledHigh: nat, goesOn: bool)
      modifies store`tables
      ensures (Progress(store.tables, handledHigh, out.applied, out.applyErrors, out.rejected), goesOn)
           == Handle(Progress(old(store.tables), high, counted.applied, counted.applyErrors, counted.rejected),
                     Delivery(event, view))
    {
      out, handledHigh, goesOn := counted, high, true;
      var seqNo := PeekSeq(event);
      match Authorize(view, event, store.tables)
      case Authorized(part) =>
        var ok := store.ApplyIncoming(RecordOfPart(part));
        if ok {
          out := out.(applied := out.applied + 1);
        } else {
          out := out.(applyErrors := out.applyErrors + 1);
        }
        handledHigh := Max(handledHigh, part.seqNo);
      case Refused(e) =>
        out := out.(rejected := out.rejected + [e]);
        if IsTransient(e) {
          goesOn := false;
        } else {
          handledHigh := Max(handledHigh, seqNo);
        }
    }

    /** Authorize in order, apply what passes, stop at the first transient refusal, step over the rest, and
        record how far that came. */
    method Ingest(peer: NodeId, batch: seq<Delivery>) returns (out: Ingested)
      modifies store`tables, store`cursors
      ensures var done := Ordered.Run(Begin(old(store.tables), old(store.Cursor(peer))), batch, Handle).0;
              && store.tables == done.tables
              && store.Cursor(peer) == Max(old(store.Cursor(peer)), done.high)
              && out == Ingested(done.applied, done.rejected, done.malformed)
      ensures forall other :: other != peer ==> store.Cursor(other) == old(store.Cursor(other))
    {
      out := Ingested(0, [], 0);
      var handledHigh := store.Cursor(peer);
      ghost var start := Begin(store.tables, handledHigh);
      var i := 0;
      while i < |batch|
        invariant 0 <= i <= |batch|
        invariant Ordered.Run(start, batch[..i], Handle)
               == (Progress(store.tables, handledHigh, out.applied, out.applyErrors, out.rejected), i)
        invariant store.cursors == old(store.cursors)
      {
        Ordered.RunNext(start, batch, Handle, i);
        var goesOn;
        out, handledHigh, goesOn := Offer(batch[i].event, batch[i].view, out, handledHigh);
        if !goesOn {
          Ordered.RunStopped(start, batch, Handle, i + 1);
          break;
        }
        i := i + 1;
      }
      assert i == |batch| ==> batch[..i] == batch;
      store.AdvanceCursor(peer, handledHigh);
    }
  }
}
