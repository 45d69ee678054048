/** Rows that never arrive. A row left off the wire is not "simply offered on a later pull", and a row refused for
    now is not always retried by "a later pull": once a later row gets through, the cursor has passed it. The
    smallest such runs, and why no later registry repairs them. */
module LostRow {
  import opened Domain
  import opened Replica
  import opened Keyed
  import opened Calls
  import opened Store
  import opened Feed
  import opened Cursors
  import opened Pulling
  import opened Visits
  import Ordered
  import EndToEnd

  /** The node has claimed only one server yet. */
  function OnlyOwns(node: NodeId, s: ServerId): RegistryView {
    RegistryView(n => Answer(Some(n)),
                 scope => if scope == ServerScope(s) then Answer(Some(Ownership(node, 1))) else Answer(None))
  }

  /** A node that founded two servers and has claimed the second. */
  function Founder(node: NodeId, first: Server, second: Server): Peer {
    Peer(node, EMPTY_TABLES.(servers := map[first.id := first, second.id := second]),
         [RecordFor(1, Upsert, ServerRow(first)), RecordFor(2, Upsert, ServerRow(second))])
  }

  lemma OnlySecondCarried(node: NodeId, first: Server, second: Server, limit: nat)
    requires first.id != second.id && limit >= 2
    ensures var p := Founder(node, first, second);
            Carried(p, OnlyOwns(node, second.id), limit, 0) == [p.outbox[1]]
  {
    var p, v := Founder(node, first, second), OnlyOwns(node, second.id);
    PageIsSlice(p.outbox, 0, Clamp(limit));
    assert p.outbox[0..2] == [p.outbox[0]] + [p.outbox[1]] == p.outbox;
    assert !IsSignable(p, v, p.outbox[0]) && IsSignable(p, v, p.outbox[1]);
    RetainOneMore([p.outbox[0]], p.outbox[1], SignableBy(p, v));
  }

  lemma OneServer(rec: ChangeRecord, server: Server)
    requires rec == RecordFor(2, Upsert, ServerRow(server))
    ensures ApplyAll(EMPTY_TABLES, [rec]).servers == map[server.id := server]
  {
    ApplyLast(EMPTY_TABLES, [], rec);
  }

  lemma SecondApplied(node: NodeId, first: Server, second: Server, limit: nat)
    requires first.id != second.id && limit >= 2
    ensures var p := Founder(node, first, second);
            var r := Poll(p, OnlyOwns(node, second.id), limit, Pull(EMPTY_TABLES, 0));
            r.cursor == 2 && r.tables.servers == map[second.id := second]
  {
    var p, v := Founder(node, first, second), OnlyOwns(node, second.id);
    OnlySecondCarried(node, first, second, limit);
    assert [p.outbox[1]][..0] == [];
    assert IsDeliverableAt(p, v, EMPTY_TABLES, [p.outbox[1]], 0);
    NumberedAscends(p.outbox);
    PollOutcome(p, v, limit, Pull(EMPTY_TABLES, 0));
    OneServer(p.outbox[1], second);
  }

  /** After that one poll the first server never arrives, whoever owns it later and however often the peer
      pulls. */
  lemma {:induction false} FirstServerIsLost(node: NodeId, first: Server, second: Server, limit: nat,
                                             later: RegistryView, times: nat)
    requires first.id != second.id && limit >= 2
    ensures var p := Founder(node, first, second);
            var r := Poll(p, OnlyOwns(node, second.id), limit, Pull(EMPTY_TABLES, 0));
            first.id !in PollTimes(p, later, limit, r, times).tables.servers
  {
    var p := Founder(node, first, second);
    SecondApplied(node, first, second, limit);
    EndToEnd.ProducerRestart(p, later, limit, Poll(p, OnlyOwns(node, second.id), limit, Pull(EMPTY_TABLES, 0)), times);
  }
  // --- refused for now, then passed ------------------------------------------------------------------------

  /** A registry in which nobody owns anything yet. */
  function NobodyOwns(): RegistryView {
    RegistryView(n => Answer(Some(n)), s => Answer(None))
  }

  /** The producer has claimed its first server only, and the consumer does not see the claim yet. */
  function TooEarly(node: NodeId, first: Server, second: Server, limit: nat): Visit {
    Visit(Founder(node, first, second), OnlyOwns(node, first.id), _ => NobodyOwns(), limit)
  }

  /** By the next poll it has lost that one and claimed the other, and everybody sees it. */
  function TooLate(node: NodeId, first: Server, second: Server, limit: nat): Visit {
    Visit(Founder(node, first, second), OnlyOwns(node, second.id), _ => OnlyOwns(node, second.id), limit)
  }

  lemma OnlyFirstSent(node: NodeId, first: Server, second: Server, limit: nat)
    requires first.id != second.id && limit >= 2
    ensures var v := TooEarly(node, first, second, limit);
            Sent(v, 0) == [v.peer.outbox[0]]
  {
    var v := TooEarly(node, first, second, limit);
    var outbox := v.peer.outbox;
    PageIsSlice(outbox, 0, Clamp(limit));
    assert outbox[0..2] == [outbox[0]] + [outbox[1]] == outbox;
    assert IsSignable(v.peer, v.signing, outbox[0]) && !IsSignable(v.peer, v.signing, outbox[1]);
    RetainOneMore([outbox[0]], outbox[1], SignableBy(v.peer, v.signing));
  }

  /** The event that carries row `n` is refused. */
  ghost predicate IsRefused(p: Progress, batch: seq<Delivery>, n: nat, e: AuthError) {
    exists j :: 0 <= j < |batch| && PeekSeq(batch[j].event) == n && VerdictOn(p, batch, j) == Refused(e)
  }

  lemma NobodyAuthorizes(ev: ChangeEvent, server: Server, t: Tables)
    requires ev.body.Some? && ev.signer == Some(ev.body.value.node)
    requires RecordOfPart(ev.body.value) == RecordFor(1, Upsert, ServerRow(server))
    ensures Authorize(NobodyOwns(), ev, t) == Refused(Unowned)
  {
  }

  lemma OnlyEvent(node: NodeId, first: Server, second: Server, limit: nat)
    requires first.id != second.id && limit >= 2
    ensures var v := TooEarly(node, first, second, limit);
            && |Wire(v, 0)| == 1 && PeekSeq(Wire(v, 0)[0].event) == 1
            && Authorize(Wire(v, 0)[0].view, Wire(v, 0)[0].event, EMPTY_TABLES) == Refused(Unowned)
  {
    var v := TooEarly(node, first, second, limit);
    OnlyFirstSent(node, first, second, limit);
    WireNumbers(v, 0);
    var records := Page(v.peer.outbox, 0, Clamp(limit));
    PageSigned(v.peer, v.signing, records, |records|);
    assert records[..|records|] == records;
    assert GoesOut(v.peer, v.signing, Sent(v, 0)[0], Wire(v, 0)[0].event);
    NobodyAuthorizes(Wire(v, 0)[0].event, first, EMPTY_TABLES);
  }

  /** One event, refused for now: the consumer stands where it stood. */
  lemma HaltsAtOnce(p: Progress, batch: seq<Delivery>)
    requires |batch| == 1 && !IsSettling(Authorize(batch[0].view, batch[0].event, p.tables))
    ensures Done(p, batch).tables == p.tables && Done(p, batch).high == p.high
    ensures VerdictOn(p, batch, 0) == Authorize(batch[0].view, batch[0].event, p.tables)
  {
    assert batch[..0] == [] && batch[..1] == batch;
    HandleOutcome(p, batch[0]);
    Ordered.RunNext(p, batch, Handle, 0);
  }

  /** The first server's row is delivered and refused, for now: the cursor stays before it. */
  lemma FirstRefused(node: NodeId, first: Server, second: Server, limit: nat)
    requires first.id != second.id && limit >= 2
    ensures var v, r := TooEarly(node, first, second, limit), Pull(EMPTY_TABLES, 0);
            && CanSend(v, 0, 1) && Visited(v, r) == r && IsRefused(Begin(r.tables, 0), Wire(v, 0), 1, Unowned)
  {
    OnlyEvent(node, first, second, limit);
    HaltsAtOnce(Begin(EMPTY_TABLES, 0), Wire(TooEarly(node, first, second, limit), 0));
  }

  /** The second poll brings only the second server, and the cursor passes the first. */
  lemma SecondPasses(node: NodeId, first: Server, second: Server, limit: nat)
    requires first.id != second.id && limit >= 2
    ensures var r := Visited(TooLate(node, first, second, limit), Pull(EMPTY_TABLES, 0));
            r.cursor == 2 && r.tables.servers == map[second.id := second]
  {
    SteadyVisit(Founder(node, first, second), OnlyOwns(node, second.id), limit, Pull(EMPTY_TABLES, 0));
    SecondApplied(node, first, second, limit);
  }

  function TwoPolls(node: NodeId, first: Server, second: Server, limit: nat): seq<Visit> {
    [TooEarly(node, first, second, limit), TooLate(node, first, second, limit)]
  }

  lemma AfterTwoPolls(node: NodeId, first: Server, second: Server, limit: nat)
    requires first.id != second.id && limit >= 2
    ensures var r, vs := Pull(EMPTY_TABLES, 0), TwoPolls(node, first, second, limit);
            && Seen(r, vs, 1) == r && Seen(r, vs, 2).cursor == 2
            && Seen(r, vs, 2).tables.servers == map[second.id := second]
  {
    var r, vs := Pull(EMPTY_TABLES, 0), TwoPolls(node, first, second, limit);
    FirstRefused(node, first, second, limit);
    SecondPasses(node, first, second, limit);
    assert Seen(r, vs, 1) == Visited(vs[0], r);
    assert Seen(r, vs, 2) == Visited(vs[1], Seen(r, vs, 1));
  }

  /** A row refused as unowned is not retried: the producer sent it, the consumer refused it for now, the next poll's
      row moved the cursor past it, and however often that producer is polled afterwards, under whatever registry, its
      server never arrives. */
  lemma RefusedThenLost(node: NodeId, first: Server, second: Server, limit: nat, later: seq<Visit>, k: nat)
    requires first.id != second.id && limit >= 2 && k <= |later|
    requires forall v :: v in later ==> v.peer == Founder(node, first, second)
    ensures var r, vs := Pull(EMPTY_TABLES, 0), TwoPolls(node, first, second, limit);
            && IsSentAt(r, vs, 0, 1)
            && IsRefused(StartAt(r, vs, 0), WireAt(r, vs, 0), 1, Unowned) && IsTransient(Unowned)
            && Seen(r, vs, 1) == r
            && Seen(Seen(r, vs, 2), later, k).cursor == 2
            && first.id !in Seen(Seen(r, vs, 2), later, k).tables.servers
  {
    FirstRefused(node, first, second, limit);
    AfterTwoPolls(node, first, second, limit);
    StandsStill(Seen(Pull(EMPTY_TABLES, 0), TwoPolls(node, first, second, limit), 2), later, k);
  }
}
