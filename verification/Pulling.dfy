/** Paged pulling: what one poll does, row by row; which rows repeated polls against a stable registry bring, with
    any page limit; and when a pull stalls. */
module Pulling {
  import opened Domain
  import opened Replica
  import opened Keyed
  import opened Store
  import opened Feed
  import opened Cursors
  import Ordered

  /** The feed endpoint clamps what a peer asks for. */
  function Clamp(limit: nat): (r: nat)
    ensures 1 <= r <= 5_000 && (1 <= limit <= 5_000 ==> r == limit) && (limit > 5_000 ==> r == 5_000)
  {
    if limit < 1 then 1 else if limit > 5_000 then 5_000 else limit
  }

  function Constantly(v: RegistryView, n: nat): (r: seq<RegistryView>)
    ensures |r| == n && forall i :: 0 <= i < n ==> r[i] == v
  {
    seq(n, _ => v)
  }

  function Deliver(events: seq<ChangeEvent>, views: seq<RegistryView>): (r: seq<Delivery>)
    requires |events| <= |views|
    ensures |r| == |events| && forall i :: 0 <= i < |r| ==> r[i] == Delivery(events[i], views[i])
  {
    seq(|events|, i requires 0 <= i < |events| => Delivery(events[i], views[i]))
  }

  lemma SignedAtMost(views: seq<RegistryView>, node: NodeId, scopes: seq<Option<Scope>>, records: seq<ChangeRecord>,
                     n: nat)
    requires n <= |records| == |scopes| <= |views|
    ensures |SignBatch(views, node, scopes, records, n)| <= n
  {
  }

  /** Pull one page from a peer and apply what is authorized. `None` is a transport error. */
  method PollPeer(consumer: Replicator, producer: MemoryStore, node: NodeId, isReachable: bool, limit: nat,
                  producerViews: seq<RegistryView>, consumerViews: seq<RegistryView>)
    returns (applied: Option<nat>)
    requires |producerViews| >= Clamp(limit) && |consumerViews| >= Clamp(limit)
    requires consumer.store != producer
    modifies consumer.store`tables, consumer.store`cursors
    ensures !isReachable ==> applied == None && consumer.store.tables == old(consumer.store.tables)
                             && consumer.store.cursors == old(consumer.store.cursors)
    ensures isReachable ==>
      var cursor := old(consumer.store.Cursor(node));
      var records := Page(producer.outbox, cursor, Clamp(limit));
      var events := SignBatch(producerViews, node, ScopesOf(producer.tables, records), records, |records|);
      && |events| <= |consumerViews|
      && var done := Done(Begin(old(consumer.store.tables), cursor), Deliver(events, consumerViews));
         && applied == Some(done.applied)
         && consumer.store.tables == done.tables
         && consumer.store.Cursor(node) == Max(cursor, done.high)
  {
    var since := consumer.store.Cursor(node);
    if !isReachable {
      return None;
    }
    var events := SignFeed(producer, node, producerViews, since, Clamp(limit));
    ghost var records := Page(producer.outbox, since, Clamp(limit));
    SignedAtMost(producerViews, node, ScopesOf(producer.tables, records), records, |records|);
    if |events| == 0 {
      return Some(0);
    }
    var out := consumer.Ingest(node, Deliver(events, consumerViews));
    return Some(out.applied);
  }

  // --- a stable registry ---------------------------------------------------------------------------

  /** The producer as its feed sees it. */
  datatype Peer = Peer(node: NodeId, tables: Tables, outbox: seq<ChangeRecord>)

  /** A replica and its cursor for one peer. */
  datatype Pull = Pull(tables: Tables, cursor: nat)

  function FeedFrom(p: Peer, v: RegistryView, cursor: nat, limit: nat): seq<ChangeEvent> {
    var records := Page(p.outbox, cursor, limit);
    SignBatch(Constantly(v, |records|), p.node, ScopesOf(p.tables, records), records, |records|)
  }

  function BatchFrom(p: Peer, v: RegistryView, cursor: nat, limit: nat): seq<Delivery> {
    var events := FeedFrom(p, v, cursor, limit);
    Deliver(events, Constantly(v, |events|))
  }

  function Poll(p: Peer, v: RegistryView, limit: nat, r: Pull): Pull {
    var done := Done(Begin(r.tables, r.cursor), BatchFrom(p, v, r.cursor, Clamp(limit)));
    Pull(done.tables, Max(r.cursor, done.high))
  }

  function PollStep(p: Peer, v: RegistryView, limit: nat): Pull -> Pull {
    (r: Pull) => Poll(p, v, limit, r)
  }

  function PollTimes(p: Peer, v: RegistryView, limit: nat, r: Pull, times: nat): Pull {
    Ordered.Repeat(PollStep(p, v, limit), r, times)
  }

  /** Numbered 1, 2, 3, … from the first record, as `Inner::record` numbers a store's whole outbox. */
  ghost predicate IsNumbered(outbox: seq<ChangeRecord>) {
    forall i :: 0 <= i < |outbox| ==> outbox[i].seqNo == i + 1
  }

  function Min(a: nat, b: nat): nat { if a <= b then a else b }

  lemma {:induction false} LaterThan(outbox: seq<ChangeRecord>, cursor: nat, first: nat)
    requires forall i :: 0 <= i < |outbox| ==> outbox[i].seqNo == first + i
    ensures LaterIn(outbox, cursor)
         == outbox[if cursor < first then 0 else Min(cursor - first + 1, |outbox|)..]
  {
    if outbox != [] {
      var rest := outbox[1..];
      assert forall i :: 0 <= i < |rest| ==> rest[i] == outbox[i + 1];
      LaterThan(rest, cursor, first + 1);
      if cursor < first {
        assert outbox == [outbox[0]] + rest;
      } else {
        assert rest[Min(cursor - first, |rest|)..] == outbox[Min(cursor - first, |rest|) + 1..];
      }
    }
  }

  lemma PageIsSlice(outbox: seq<ChangeRecord>, cursor: nat, limit: nat)
    requires IsNumbered(outbox) && cursor <= |outbox|
    ensures Page(outbox, cursor, limit) == outbox[cursor..Min(cursor + limit, |outbox|)]
  {
    LaterThan(outbox, cursor, 1);
  }

  /** The producer owns the row's scope and can resolve it. */
  predicate IsSignable(p: Peer, v: RegistryView, rec: ChangeRecord) {
    var s := ScopeOf(p.tables, rec);
    s.Some? && MyEpoch(v, p.node, s.value).Some?
  }

  function Signed(p: Peer, v: RegistryView, rec: ChangeRecord): ChangeEvent
    requires IsSignable(p, v, rec)
  {
    var s := ScopeOf(p.tables, rec).value;
    SignAs(p.node, rec, s, MyEpoch(v, p.node, s).value)
  }

  /** And the consumer, having applied everything before the row, resolves it to the same scope. */
  predicate IsDeliverable(p: Peer, v: RegistryView, replica: Tables, rec: ChangeRecord) {
    && v.hasKey(p.node) == Answer(Some(p.node))
    && IsSignable(p, v, rec)
    && ScopeOf(replica, rec) == ScopeOf(p.tables, rec)
  }

  function SignableBy(p: Peer, v: RegistryView): ChangeRecord -> bool {
    (rec: ChangeRecord) => IsSignable(p, v, rec)
  }

  /** The rows that go out, in order; the others are left off. */
  function SignableRows(p: Peer, v: RegistryView, records: seq<ChangeRecord>): seq<ChangeRecord> {
    Retain(records, SignableBy(p, v))
  }

  /** What a poll from a cursor carries. */
  function Carried(p: Peer, v: RegistryView, limit: nat, cursor: nat): seq<ChangeRecord> {
    SignableRows(p, v, Page(p.outbox, cursor, Clamp(limit)))
  }

  predicate GoesOut(p: Peer, v: RegistryView, rec: ChangeRecord, ev: ChangeEvent) {
    IsSignable(p, v, rec) && ev == Signed(p, v, rec)
  }

  lemma {:induction false} PageSigned(p: Peer, v: RegistryView, records: seq<ChangeRecord>, n: nat)
    requires n <= |records|
    ensures var events := SignBatch(Constantly(v, |records|), p.node, ScopesOf(p.tables, records), records, n);
            var rows := SignableRows(p, v, records[..n]);
            |events| == |rows| && forall i :: 0 <= i < |rows| ==> GoesOut(p, v, rows[i], events[i])
  {
    if n > 0 {
      PageSigned(p, v, records, n - 1);
      assert records[..n] == records[..n - 1] + [records[n - 1]];
      RetainOneMore(records[..n - 1], records[n - 1], SignableBy(p, v));
      assert ScopesOf(p.tables, records)[n - 1] == ScopeOf(p.tables, records[n - 1]);
    }
  }

  /** An honestly signed, deliverable row passes, whatever the page it travels in. */
  lemma HonestRowPasses(p: Peer, v: RegistryView, t: Tables, rec: ChangeRecord)
    requires IsDeliverable(p, v, t, rec)
    ensures var verdict := Authorize(v, Signed(p, v, rec), t);
            verdict.Authorized? && RecordOfPart(verdict.part) == rec
  {
  }

  // --- one poll ------------------------------------------------------------------------------------

  function CountMalformed(log: seq<ChangeRecord>): (n: nat)
    ensures n <= |log|
  {
    if log == [] then 0 else CountMalformed(log[..|log| - 1]) + if IsMalformed(log[|log| - 1]) then 1 else 0
  }

  /** A planned step: apply the next record, count it, move on. */
  function OneApplied(p: Progress, rec: ChangeRecord): Progress {
    Progress(ApplyRecord(p.tables, rec), Max(p.high, rec.seqNo), p.applied + if IsMalformed(rec) then 0 else 1,
             p.malformed + if IsMalformed(rec) then 1 else 0, p.rejected)
  }

  lemma RowHandled(p: Peer, v: RegistryView, before: Progress, rec: ChangeRecord)
    requires IsDeliverable(p, v, before.tables, rec)
    ensures Handle(before, Delivery(Signed(p, v, rec), v)) == (OneApplied(before, rec), true)
  {
  }

  function SeqOf(rec: ChangeRecord): nat { rec.seqNo }

  lemma NumberedAscends(outbox: seq<ChangeRecord>)
    requires IsNumbered(outbox)
    ensures AscendsBy(outbox, SeqOf)
  {
  }

  /** The sequence number a consumer is left at by some rows, from the one it was at. */
  function LastSeq(cursor: nat, rows: seq<ChangeRecord>): nat {
    if rows == [] then cursor else rows[|rows| - 1].seqNo
  }

  /** Numbered upwards, from above a cursor. */
  ghost predicate AscendsAfter(cursor: nat, rows: seq<ChangeRecord>) {
    AscendsBy(rows, SeqOf) && forall i :: 0 <= i < |rows| ==> rows[i].seqNo > cursor
  }

  /** Every row deliverable at its turn, the rows before it having been applied. */
  ghost predicate AllDeliverable(p: Peer, v: RegistryView, t: Tables, rows: seq<ChangeRecord>) {
    forall i :: 0 <= i < |rows| ==> IsDeliverableAt(p, v, t, rows, i)
  }

  predicate IsDeliverableAt(p: Peer, v: RegistryView, t: Tables, rows: seq<ChangeRecord>, i: nat)
    requires i < |rows|
  {
    IsDeliverable(p, v, ApplyAll(t, rows[..i]), rows[i])
  }

  /** A consumer that has applied some rows: none refused. */
  function Applied(t: Tables, cursor: nat, rows: seq<ChangeRecord>): Progress {
    var bad := CountMalformed(rows);
    Progress(ApplyAll(t, rows), LastSeq(cursor, rows), |rows| - bad, bad, [])
  }

  function Plan(t: Tables, cursor: nat, rows: seq<ChangeRecord>): nat -> Progress {
    (i: nat) => Applied(t, cursor, if i <= |rows| then rows[..i] else [])
  }

  lemma AppliedNext(t: Tables, cursor: nat, rows: seq<ChangeRecord>, i: nat)
    requires i < |rows| && AscendsAfter(cursor, rows)
    ensures Applied(t, cursor, rows[..i + 1]) == OneApplied(Applied(t, cursor, rows[..i]), rows[i])
  {
    assert rows[..i + 1] == rows[..i] + [rows[i]];
    ApplyLast(t, rows[..i], rows[i]);
    assert (rows[..i] + [rows[i]])[..i] == rows[..i];
    if i > 0 { assert SeqOf(rows[i - 1]) < SeqOf(rows[i]); }
  }

  lemma CarriedAscends(p: Peer, v: RegistryView, limit: nat, cursor: nat)
    requires AscendsBy(p.outbox, SeqOf)
    ensures AscendsAfter(cursor, Page(p.outbox, cursor, Clamp(limit)))
    ensures AscendsAfter(cursor, Carried(p, v, limit, cursor))
  {
    var page := Page(p.outbox, cursor, Clamp(limit));
    RetainAscends(p.outbox, SeqOf, (r: ChangeRecord) => r.seqNo > cursor);
    PageIsAfter(p.outbox, cursor, Clamp(limit));
    RetainAscends(page, SeqOf, SignableBy(p, v));
    forall i | 0 <= i < |Carried(p, v, limit, cursor)| ensures Carried(p, v, limit, cursor)[i].seqNo > cursor {
      assert Carried(p, v, limit, cursor)[i] in page;
    }
  }

  lemma BatchGoesOut(p: Peer, v: RegistryView, limit: nat, cursor: nat)
    ensures var batch, rows := BatchFrom(p, v, cursor, Clamp(limit)), Carried(p, v, limit, cursor);
            && |batch| == |rows|
            && forall i :: 0 <= i < |rows| ==>
                 GoesOut(p, v, rows[i], batch[i].event) && batch[i] == Delivery(batch[i].event, v)
  {
    var records := Page(p.outbox, cursor, Clamp(limit));
    PageSigned(p, v, records, |records|);
    assert records[..|records|] == records;
  }

  lemma BatchGoesIn(p: Peer, v: RegistryView, limit: nat, r: Pull)
    requires AscendsBy(p.outbox, SeqOf) && AllDeliverable(p, v, r.tables, Carried(p, v, limit, r.cursor))
    ensures Ordered.IsPlanned(BatchFrom(p, v, r.cursor, Clamp(limit)), Handle,
                              Plan(r.tables, r.cursor, Carried(p, v, limit, r.cursor)))
  {
    var batch, rows := BatchFrom(p, v, r.cursor, Clamp(limit)), Carried(p, v, limit, r.cursor);
    var plan := Plan(r.tables, r.cursor, rows);
    BatchGoesOut(p, v, limit, r.cursor);
    CarriedAscends(p, v, limit, r.cursor);
    forall i | 0 <= i < |batch| ensures Handle(plan(i), batch[i]) == (plan(i + 1), true) {
      assert GoesOut(p, v, rows[i], batch[i].event);
      assert IsDeliverableAt(p, v, r.tables, rows, i);
      RowHandled(p, v, plan(i), rows[i]);
      AppliedNext(r.tables, r.cursor, rows, i);
    }
  }

  lemma PlanEnds(t: Tables, cursor: nat, rows: seq<ChangeRecord>)
    ensures Plan(t, cursor, rows)(0) == Begin(t, cursor)
    ensures Plan(t, cursor, rows)(|rows|) == Applied(t, cursor, rows)
  {
    assert rows[..0] == [] && rows[..|rows|] == rows;
  }

  lemma PageApplied(p: Peer, v: RegistryView, limit: nat, r: Pull)
    requires AscendsBy(p.outbox, SeqOf) && AllDeliverable(p, v, r.tables, Carried(p, v, limit, r.cursor))
    ensures Done(Begin(r.tables, r.cursor), BatchFrom(p, v, r.cursor, Clamp(limit)))
         == Applied(r.tables, r.cursor, Carried(p, v, limit, r.cursor))
  {
    var rows := Carried(p, v, limit, r.cursor);
    BatchGoesOut(p, v, limit, r.cursor);
    BatchGoesIn(p, v, limit, r);
    PlanEnds(r.tables, r.cursor, rows);
    Ordered.AllGoOn(BatchFrom(p, v, r.cursor, Clamp(limit)), Handle, Plan(r.tables, r.cursor, rows));
  }

  lemma AppliedMoves(p: Peer, v: RegistryView, limit: nat, r: Pull, rows: seq<ChangeRecord>)
    requires AscendsAfter(r.cursor, rows)
    requires Done(Begin(r.tables, r.cursor), BatchFrom(p, v, r.cursor, Clamp(limit)))
          == Applied(r.tables, r.cursor, rows)
    ensures Poll(p, v, limit, r) == Pull(ApplyAll(r.tables, rows), LastSeq(r.cursor, rows))
  {
  }

  /** One poll whose signable rows are deliverable, each at its turn: it applies exactly them, refuses nothing, and
      leaves the cursor on the last of them. */
  lemma {:induction false} PollOutcome(p: Peer, v: RegistryView, limit: nat, r: Pull)
    requires AscendsBy(p.outbox, SeqOf) && AllDeliverable(p, v, r.tables, Carried(p, v, limit, r.cursor))
    ensures var rows := Carried(p, v, limit, r.cursor);
            && Done(Begin(r.tables, r.cursor), BatchFrom(p, v, r.cursor, Clamp(limit)))
               == Applied(r.tables, r.cursor, rows)
            && Poll(p, v, limit, r) == Pull(ApplyAll(r.tables, rows), LastSeq(r.cursor, rows))
  {
    CarriedAscends(p, v, limit, r.cursor);
    PageApplied(p, v, limit, r);
    AppliedMoves(p, v, limit, r, Carried(p, v, limit, r.cursor));
  }

  lemma SameSeqSameRow(rows: seq<ChangeRecord>, a: ChangeRecord, b: ChangeRecord)
    requires AscendsBy(rows, SeqOf) && a in rows && b in rows && a.seqNo == b.seqNo
    ensures a == b
  {
    var i :| 0 <= i < |rows| && rows[i] == a;
    var j :| 0 <= j < |rows| && rows[j] == b;
    assert SeqOf(rows[i]) == SeqOf(rows[j]);
  }

  lemma LastIsLargest(cursor: nat, rows: seq<ChangeRecord>, rec: ChangeRecord)
    requires AscendsBy(rows, SeqOf) && rec in rows
    ensures rec.seqNo <= LastSeq(cursor, rows)
  {
    var i :| 0 <= i < |rows| && rows[i] == rec;
    if i < |rows| - 1 { assert SeqOf(rows[i]) < SeqOf(rows[|rows| - 1]); }
  }

  lemma LeftOffBelow(cursor: nat, page: seq<ChangeRecord>, keep: ChangeRecord -> bool, row: ChangeRecord)
    requires AscendsAfter(cursor, page) && row in page && !keep(row)
    ensures LastSeq(cursor, Retain(page, keep)) < row.seqNo <==>
            forall later :: later in page && later.seqNo > row.seqNo ==> !keep(later)
  {
    var rows := Retain(page, keep);
    RetainAscends(page, SeqOf, keep);
    if rows != [] {
      var last := rows[|rows| - 1];
      assert last in rows;
      if last.seqNo == row.seqNo { SameSeqSameRow(page, last, row); }
    }
    forall later | later in rows ensures later.seqNo <= LastSeq(cursor, rows) { LastIsLargest(cursor, rows, later); }
  }

  /** A row left off a page stays above the cursor exactly when no later row of the page can be signed. */
  lemma LeftOffSurvives(p: Peer, v: RegistryView, limit: nat, r: Pull, row: ChangeRecord)
    requires AscendsBy(p.outbox, SeqOf) && AllDeliverable(p, v, r.tables, Carried(p, v, limit, r.cursor))
    requires row in Page(p.outbox, r.cursor, Clamp(limit)) && !IsSignable(p, v, row)
    ensures Poll(p, v, limit, r).cursor < row.seqNo <==>
            forall later :: later in Page(p.outbox, r.cursor, Clamp(limit)) && later.seqNo > row.seqNo ==>
              !IsSignable(p, v, later)
  {
    PollOutcome(p, v, limit, r);
    CarriedAscends(p, v, limit, r.cursor);
    LeftOffBelow(r.cursor, Page(p.outbox, r.cursor, Clamp(limit)), SignableBy(p, v), row);
  }

  // --- rows left off the wire -------------------------------------------------------------------------

  /** No feed offers a row at or below the cursor it is asked from. */
  lemma {:induction false} NeverReoffered(views: seq<RegistryView>, node: NodeId, scopes: seq<Option<Scope>>,
                                          records: seq<ChangeRecord>, n: nat, cursor: nat)
    requires n <= |records| == |scopes| <= |views|
    requires forall i :: 0 <= i < |records| ==> records[i].seqNo > cursor
    ensures forall ev :: ev in SignBatch(views, node, scopes, records, n) ==> PeekSeq(ev) > cursor
  {
    if n > 0 { NeverReoffered(views, node, scopes, records, n - 1, cursor); }
  }

  lemma PageIsAfter(outbox: seq<ChangeRecord>, cursor: nat, limit: nat)
    ensures forall i :: 0 <= i < |Page(outbox, cursor, limit)| ==> Page(outbox, cursor, limit)[i].seqNo > cursor
  {
    var later := LaterIn(outbox, cursor);
    forall i | 0 <= i < |Page(outbox, cursor, limit)| ensures Page(outbox, cursor, limit)[i].seqNo > cursor {
      assert later[i] in later;
    }
  }

  /** A row the producer leaves off stays on offer exactly as long as the cursor stays below it: once a batch
      settles anything later, no feed contains it again, under any registry. */
  lemma PassedIsLost(p: Peer, views: seq<RegistryView>, cursor: nat, limit: nat, lost: nat)
    requires lost <= cursor && |views| >= |Page(p.outbox, cursor, limit)|
    ensures var records := Page(p.outbox, cursor, limit);
            forall ev :: ev in SignBatch(views, p.node, ScopesOf(p.tables, records), records, |records|)
              ==> PeekSeq(ev) != lost
  {
    var records := Page(p.outbox, cursor, limit);
    PageIsAfter(p.outbox, cursor, limit);
    NeverReoffered(views, p.node, ScopesOf(p.tables, records), records, |records|, cursor);
  }

  lemma {:induction false} NothingSigned(p: Peer, v: RegistryView, records: seq<ChangeRecord>, n: nat)
    requires n <= |records| && forall i :: 0 <= i < n ==> !IsSignable(p, v, records[i])
    ensures SignBatch(Constantly(v, |records|), p.node, ScopesOf(p.tables, records), records, n) == []
  {
    if n > 0 {
      NothingSigned(p, v, records, n - 1);
      assert !IsSignable(p, v, records[n - 1]);
      assert ScopesOf(p.tables, records)[n - 1] == ScopeOf(p.tables, records[n - 1]);
    }
  }

  /** A page none of whose rows the producer can sign. */
  ghost predicate IsUnsignable(p: Peer, v: RegistryView, page: seq<ChangeRecord>) {
    forall i :: 0 <= i < |page| ==> !IsSignable(p, v, page[i])
  }

  lemma StalledOnce(p: Peer, v: RegistryView, limit: nat, r: Pull)
    requires IsUnsignable(p, v, Page(p.outbox, r.cursor, Clamp(limit)))
    ensures Poll(p, v, limit, r) == r
  {
    var records := Page(p.outbox, r.cursor, Clamp(limit));
    NothingSigned(p, v, records, |records|);
    assert BatchFrom(p, v, r.cursor, Clamp(limit)) == [];
  }

  /** A page made only of rows the producer cannot sign stalls the pull: however often it is repeated, and
      however many deliverable rows follow, nothing arrives and the cursor stays. */
  lemma StalledPull(p: Peer, v: RegistryView, limit: nat, r: Pull, times: nat)
    requires IsUnsignable(p, v, Page(p.outbox, r.cursor, Clamp(limit)))
    ensures PollTimes(p, v, limit, r, times) == r
  {
    StalledOnce(p, v, limit, r);
    assert PollStep(p, v, limit)(r) == r;
    Ordered.RepeatFixed(PollStep(p, v, limit), r, times);
  }
}
