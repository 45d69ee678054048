/** Runs of polls of a real outbox, while the producer's rows, its outbox and the registry change from one poll to the
    next and from the producer's lookups to the consumer's: which rows arrive, and which are lost. */
module Visits {
  import opened Domain
  import opened Replica
  import opened Keyed
  import opened Store
  import opened Feed
  import opened Cursors
  import opened Pulling

  /** One poll: the producer as it is then, the registry as it answers the producer's one lookup of each scope, the
      registry as the consumer sees it at each event, and the page limit asked for. */
  datatype Visit = Visit(peer: Peer, signing: RegistryView, checking: nat -> RegistryView, limit: nat)

  /** What a poll from a cursor delivers. */
  function Wire(v: Visit, cursor: nat): seq<Delivery> {
    var events := FeedFrom(v.peer, v.signing, cursor, Clamp(v.limit));
    Deliver(events, seq(|events|, v.checking))
  }

  function Visited(v: Visit, r: Pull): Pull {
    var done := Done(Begin(r.tables, r.cursor), Wire(v, r.cursor));
    Pull(done.tables, Max(r.cursor, done.high))
  }

  /** The consumer after the first `k` polls. */
  function Seen(r: Pull, vs: seq<Visit>, k: nat): Pull
    requires k <= |vs|
    decreases k
  {
    if k == 0 then r else Visited(vs[k - 1], Seen(r, vs, k - 1))
  }

  // --- a poll is such a visit ---------------------------------------------------------------------

  function FirstOf(scopes: seq<Option<Scope>>, s: Scope): (j: nat)
    ensures j < |scopes| || (j == |scopes| && Some(s) !in scopes)
    ensures j < |scopes| ==> scopes[j] == Some(s) && forall k :: 0 <= k < j ==> scopes[k] != Some(s)
  {
    if scopes == [] then 0
    else if scopes[0] == Some(s) then 0
    else
      assert scopes == [scopes[0]] + scopes[1..];
      FirstOf(scopes[1..], s) + 1
  }

  /** The one answer a batch uses for each scope: the one its first row got. */
  function EffectiveView(views: seq<RegistryView>, scopes: seq<Option<Scope>>): RegistryView
    requires |scopes| <= |views|
  {
    RegistryView(n => Unavailable,
                 s => if FirstOf(scopes, s) < |scopes| then views[FirstOf(scopes, s)].ownerOf(s) else Unavailable)
  }

  lemma ViewUsed(views: seq<RegistryView>, scopes: seq<Option<Scope>>, i: nat)
    requires i < |scopes| <= |views| && scopes[i].Some?
    ensures EffectiveView(views, scopes).ownerOf(scopes[i].value)
         == views[FirstUse(scopes, i)].ownerOf(scopes[i].value)
  {
    assert FirstOf(scopes, scopes[i].value) == FirstUse(scopes, i);
  }

  /** However the registry changes while a batch is signed, the batch is signed as if it had stood still. */
  lemma {:induction false} OneViewPerBatch(views: seq<RegistryView>, node: NodeId, scopes: seq<Option<Scope>>,
                                           records: seq<ChangeRecord>, n: nat)
    requires n <= |records| == |scopes| <= |views|
    ensures SignBatch(views, node, scopes, records, n)
         == SignBatch(Constantly(EffectiveView(views, scopes), |records|), node, scopes, records, n)
  {
    if n > 0 {
      OneViewPerBatch(views, node, scopes, records, n - 1);
      if scopes[n - 1].Some? { ViewUsed(views, scopes, n - 1); }
    }
  }

  /** What one poll of a store delivers, whatever its lookups are answered, is what some visit delivers, and it leaves
      the consumer as that visit does. */
  lemma EveryPollIsAVisit(p: Peer, producerViews: seq<RegistryView>, consumerViews: seq<RegistryView>, limit: nat,
                          r: Pull) returns (v: Visit)
    requires var records := Page(p.outbox, r.cursor, Clamp(limit));
             |records| <= |producerViews| && |records| <= |consumerViews|
    ensures v.peer == p && v.limit == limit
    ensures var records := Page(p.outbox, r.cursor, Clamp(limit));
            var events := SignBatch(producerViews, p.node, ScopesOf(p.tables, records), records, |records|);
            && |events| <= |consumerViews| && Wire(v, r.cursor) == Deliver(events, consumerViews)
            && var done := Done(Begin(r.tables, r.cursor), Deliver(events, consumerViews));
               Visited(v, r) == Pull(done.tables, Max(r.cursor, done.high))
  {
    var records := Page(p.outbox, r.cursor, Clamp(limit));
    var scopes := ScopesOf(p.tables, records);
    var signing := EffectiveView(producerViews, scopes);
    v := Visit(p, signing, (i: nat) => if i < |consumerViews| then consumerViews[i] else signing, limit);
    OneViewPerBatch(producerViews, p.node, scopes, records, |records|);
    SignedAtMost(producerViews, p.node, scopes, records, |records|);
  }

  /** When nothing changes during a poll it is the steady one. */
  lemma SteadyVisit(p: Peer, view: RegistryView, limit: nat, r: Pull)
    ensures Visited(Visit(p, view, _ => view, limit), r) == Poll(p, view, limit, r)
  {
    assert Wire(Visit(p, view, _ => view, limit), r.cursor) == BatchFrom(p, view, r.cursor, Clamp(limit));
  }

  // --- what is on the wire ------------------------------------------------------------------------

  /** The producer can sign row `n`, and the page limit reaches as far. */
  predicate CanSend(v: Visit, cursor: nat, n: nat) {
    0 < n <= |v.peer.outbox| && n <= cursor + Clamp(v.limit) && IsSignable(v.peer, v.signing, v.peer.outbox[n - 1])
  }

  lemma SliceHolds(outbox: seq<ChangeRecord>, from: nat, end: nat, n: nat)
    requires IsNumbered(outbox) && from <= end <= |outbox| && 0 < n <= |outbox|
    ensures outbox[n - 1] in outbox[from..end] <==> from < n <= end
  {
    if from < n <= end { assert outbox[from..end][n - 1 - from] == outbox[n - 1]; }
  }

  lemma PageHolds(outbox: seq<ChangeRecord>, cursor: nat, limit: nat, n: nat)
    requires IsNumbered(outbox) && 0 < n <= |outbox|
    ensures outbox[n - 1] in Page(outbox, cursor, limit) <==> cursor < n <= cursor + limit
  {
    if cursor <= |outbox| {
      PageIsSlice(outbox, cursor, limit);
      SliceHolds(outbox, cursor, Min(cursor + limit, |outbox|), n);
    } else {
      LaterThan(outbox, cursor, 1);
    }
  }

  lemma PageFromOutbox(outbox: seq<ChangeRecord>, cursor: nat, limit: nat, rec: ChangeRecord)
    requires IsNumbered(outbox) && rec in Page(outbox, cursor, limit)
    ensures 0 < rec.seqNo <= |outbox| && outbox[rec.seqNo - 1] == rec
  {
    assert rec in LaterIn(outbox, cursor);
    var i :| 0 <= i < |outbox| && outbox[i] == rec;
  }

  function Sent(v: Visit, cursor: nat): seq<ChangeRecord> {
    Carried(v.peer, v.signing, v.limit, cursor)
  }

  ghost predicate HasNumber(rows: seq<ChangeRecord>, n: nat) {
    exists i :: 0 <= i < |rows| && rows[i].seqNo == n
  }

  lemma CarriesIff(v: Visit, cursor: nat, n: nat)
    requires IsNumbered(v.peer.outbox)
    ensures HasNumber(Sent(v, cursor), n) <==> cursor < n && CanSend(v, cursor, n)
  {
    var rows, outbox := Sent(v, cursor), v.peer.outbox;
    if HasNumber(rows, n) {
      var i :| 0 <= i < |rows| && rows[i].seqNo == n;
      assert rows[i] in rows && rows[i] in Page(outbox, cursor, Clamp(v.limit));
      PageFromOutbox(outbox, cursor, Clamp(v.limit), rows[i]);
      PageHolds(outbox, cursor, Clamp(v.limit), n);
    }
    if cursor < n && CanSend(v, cursor, n) {
      PageHolds(outbox, cursor, Clamp(v.limit), n);
      assert outbox[n - 1] in rows;
      var i :| 0 <= i < |rows| && rows[i] == outbox[n - 1];
    }
  }

  /** The batch carries the signable rows of the page, under their numbers, signed. */
  lemma WireNumbers(v: Visit, cursor: nat)
    ensures var rows, wire := Sent(v, cursor), Wire(v, cursor);
            && |wire| == |rows|
            && forall i :: 0 <= i < |rows| ==>
                 && PeekSeq(wire[i].event) == rows[i].seqNo
                 && wire[i].event.body.Some? && RecordOfPart(wire[i].event.body.value) == rows[i]
  {
    var records := Page(v.peer.outbox, cursor, Clamp(v.limit));
    PageSigned(v.peer, v.signing, records, |records|);
    assert records[..|records|] == records;
    var rows, events := Sent(v, cursor), FeedFrom(v.peer, v.signing, cursor, Clamp(v.limit));
    forall i | 0 <= i < |rows|
      ensures PeekSeq(events[i]) == rows[i].seqNo
      ensures events[i].body.Some? && RecordOfPart(events[i].body.value) == rows[i]
    {
      assert GoesOut(v.peer, v.signing, rows[i], events[i]);
    }
  }

  lemma SentRow(v: Visit, cursor: nat, j: nat)
    requires IsNumbered(v.peer.outbox) && j < |Wire(v, cursor)|
    ensures var ev := Wire(v, cursor)[j].event; var n := PeekSeq(ev);
            0 < n <= |v.peer.outbox| && ev.body.Some? && RecordOfPart(ev.body.value) == v.peer.outbox[n - 1]
  {
    WireNumbers(v, cursor);
    var rec := Sent(v, cursor)[j];
    assert rec in Sent(v, cursor);
    PageFromOutbox(v.peer.outbox, cursor, Clamp(v.limit), rec);
  }

  lemma WireHolds(v: Visit, cursor: nat, n: nat)
    requires IsNumbered(v.peer.outbox)
    ensures n in SeqsOf(Wire(v, cursor)) <==> cursor < n && CanSend(v, cursor, n)
  {
    WireNumbers(v, cursor);
    CarriesIff(v, cursor, n);
    var rows, wire := Sent(v, cursor), Wire(v, cursor);
    if HasNumber(rows, n) {
      var i :| 0 <= i < |rows| && rows[i].seqNo == n;
      assert PeekSeq(wire[i].event) == n;
    }
  }

  lemma WireAscends(v: Visit, cursor: nat)
    requires IsNumbered(v.peer.outbox)
    ensures IsAscendingAfter(Wire(v, cursor), cursor)
  {
    var rows := Sent(v, cursor);
    WireNumbers(v, cursor);
    NumberedAscends(v.peer.outbox);
    CarriedAscends(v.peer, v.signing, v.limit, cursor);
    forall i, j | 0 <= i < j < |rows| ensures rows[i].seqNo < rows[j].seqNo { assert SeqOf(rows[i]) < SeqOf(rows[j]); }
  }

  /** A peer whose outbox is no longer than the cursor. */
  ghost predicate IsBehind(v: Visit, cursor: nat) {
    IsNumbered(v.peer.outbox) && |v.peer.outbox| <= cursor
  }

  lemma NothingNew(v: Visit, r: Pull)
    requires IsBehind(v, r.cursor)
    ensures Visited(v, r) == r
  {
    LaterThan(v.peer.outbox, r.cursor, 1);
    WireNumbers(v, r.cursor);
    assert Wire(v, r.cursor) == [];
  }

  lemma NextStandsStill(r: Pull, vs: seq<Visit>, k: nat)
    requires k < |vs| && IsBehind(vs[k], Seen(r, vs, k).cursor)
    ensures Seen(r, vs, k + 1) == Seen(r, vs, k)
  {
    NothingNew(vs[k], Seen(r, vs, k));
  }

  /** Such peers bring nothing, however often they are polled. */
  lemma StandsStill(r: Pull, vs: seq<Visit>, k: nat)
    requires k <= |vs| && forall v :: v in vs ==> IsBehind(v, r.cursor)
    ensures Seen(r, vs, k) == r
  {
    for i := 0 to k
      invariant Seen(r, vs, i) == r
    {
      assert IsBehind(vs[i], r.cursor);
      NextStandsStill(r, vs, i);
    }
  }

  // --- a run of polls is a run of batches --------------------------------------------------------------

  function StartAt(r: Pull, vs: seq<Visit>, i: nat): Progress
    requires i <= |vs|
  {
    Begin(Seen(r, vs, i).tables, Seen(r, vs, i).cursor)
  }

  function WireAt(r: Pull, vs: seq<Visit>, i: nat): seq<Delivery>
    requires i < |vs|
  {
    Wire(vs[i], Seen(r, vs, i).cursor)
  }

  function WiresOf(r: Pull, vs: seq<Visit>): (b: seq<seq<Delivery>>)
    ensures |b| == |vs| && forall i :: 0 <= i < |b| ==> b[i] == WireAt(r, vs, i)
  {
    seq(|vs|, i requires 0 <= i < |vs| => WireAt(r, vs, i))
  }

  /** Before the first poll nothing has been delivered. */
  function Fresh(r: Pull): History {
    History(r.tables, r.cursor, {}, {})
  }

  function HistoryAt(r: Pull, vs: seq<Visit>, k: nat): History
    requires k <= |vs|
  {
    After(Fresh(r), WiresOf(r, vs), k)
  }

  predicate AreAlike(h: History, r: Pull) {
    h.tables == r.tables && h.cursor == r.cursor
  }

  lemma ReceiveIsVisit(h: History, r: Pull, v: Visit)
    requires AreAlike(h, r)
    ensures AreAlike(Receive(h, Wire(v, r.cursor)), Visited(v, r))
  {
  }

  lemma HistoryNext(r: Pull, vs: seq<Visit>, k: nat)
    requires k < |vs|
    ensures HistoryAt(r, vs, k + 1) == Receive(HistoryAt(r, vs, k), Wire(vs[k], Seen(r, vs, k).cursor))
    ensures Seen(r, vs, k + 1) == Visited(vs[k], Seen(r, vs, k))
  {
    assert WiresOf(r, vs)[k] == WireAt(r, vs, k);
  }

  lemma NextIsAlike(r: Pull, vs: seq<Visit>, k: nat)
    requires k < |vs| && AreAlike(HistoryAt(r, vs, k), Seen(r, vs, k))
    ensures AreAlike(HistoryAt(r, vs, k + 1), Seen(r, vs, k + 1))
  {
    HistoryNext(r, vs, k);
    ReceiveIsVisit(HistoryAt(r, vs, k), Seen(r, vs, k), vs[k]);
  }

  lemma HistoryIsAlike(r: Pull, vs: seq<Visit>, k: nat)
    requires k <= |vs|
    ensures AreAlike(HistoryAt(r, vs, k), Seen(r, vs, k))
  {
    for i := 0 to k
      invariant AreAlike(HistoryAt(r, vs, i), Seen(r, vs, i))
    {
      NextIsAlike(r, vs, i);
    }
  }

  lemma SeenIsHistory(r: Pull, vs: seq<Visit>, k: nat)
    requires k <= |vs|
    ensures HistoryAt(r, vs, k).tables == Seen(r, vs, k).tables && HistoryAt(r, vs, k).cursor == Seen(r, vs, k).cursor
    ensures StartOf(HistoryAt(r, vs, k)) == StartAt(r, vs, k)
  {
    HistoryIsAlike(r, vs, k);
  }

  ghost predicate AllNumbered(vs: seq<Visit>) {
    forall i :: 0 <= i < |vs| ==> IsNumbered(vs[i].peer.outbox)
  }

  lemma WiresAscend(r: Pull, vs: seq<Visit>)
    requires AllNumbered(vs)
    ensures AllAscend(Fresh(r), WiresOf(r, vs))
  {
    forall i | 0 <= i < |vs| ensures AscendsAt(Fresh(r), WiresOf(r, vs), i) {
      SeenIsHistory(r, vs, i);
      WireAscends(vs[i], Seen(r, vs, i).cursor);
    }
  }

  // --- one row ---------------------------------------------------------------------------------------

  /** The consumer settles whatever comes up to row `n`: nothing is refused for a while before it. */
  ghost predicate IsClearTo(p: Progress, batch: seq<Delivery>, n: nat) {
    forall j :: 0 <= j < |batch| && PeekSeq(batch[j].event) <= n ==> IsSettling(VerdictOn(p, batch, j))
  }

  /** The row has its chance at the `i`-th poll: the producer can send it, the consumer is clear up to it, and no poll
      before has settled it or a later one. */
  ghost predicate IsChance(r: Pull, vs: seq<Visit>, i: nat, n: nat) {
    && i < |vs| && CanSend(vs[i], Seen(r, vs, i).cursor, n) && IsClearTo(StartAt(r, vs, i), WireAt(r, vs, i), n)
    && !IsPassed(Fresh(r), WiresOf(r, vs), i, n)
  }

  /** The row has had its chance in the first `k` polls. */
  ghost predicate HadChance(r: Pull, vs: seq<Visit>, k: nat, n: nat) {
    exists i :: 0 <= i < k && IsChance(r, vs, i, n)
  }

  lemma ClearIsThrough(h: History, batch: seq<Delivery>, n: nat)
    requires IsAscendingAfter(batch, h.cursor) && n in SeqsOf(batch)
    ensures SettlesRow(h, batch, n) <==> IsClearTo(StartOf(h), batch, n)
  {
    var m :| 0 <= m < |batch| && PeekSeq(batch[m].event) == n;
    if SettlesRow(h, batch, n) {
      var j :| 0 <= j < |batch| && PeekSeq(batch[j].event) == n && IsThrough(StartOf(h), batch, j);
    } else {
      assert !IsThrough(StartOf(h), batch, m);
    }
  }

  lemma SettledIsOffered(h: History, batch: seq<Delivery>, n: nat)
    requires SettlesRow(h, batch, n)
    ensures n in SeqsOf(batch)
  {
    var j :| 0 <= j < |batch| && PeekSeq(batch[j].event) == n && IsThrough(StartOf(h), batch, j);
  }

  lemma WireSettles(h: History, v: Visit, n: nat)
    requires IsNumbered(v.peer.outbox)
    ensures SettlesRow(h, Wire(v, h.cursor), n)
      <==> h.cursor < n && CanSend(v, h.cursor, n) && IsClearTo(StartOf(h), Wire(v, h.cursor), n)
  {
    var batch := Wire(v, h.cursor);
    WireHolds(v, h.cursor, n);
    WireAscends(v, h.cursor);
    if SettlesRow(h, batch, n) { SettledIsOffered(h, batch, n); }
    if n in SeqsOf(batch) { ClearIsThrough(h, batch, n); }
  }

  /** The cursor is below a row exactly while neither it nor a later one has been settled. */
  lemma CursorIsBelow(r: Pull, vs: seq<Visit>, k: nat, n: nat)
    requires AllNumbered(vs) && r.cursor < n && k <= |vs|
    ensures Seen(r, vs, k).cursor < n <==> !IsPassed(Fresh(r), WiresOf(r, vs), k, n)
  {
    WiresAscend(r, vs);
    CursorBelowIff(Fresh(r), WiresOf(r, vs), k, n);
    SeenIsHistory(r, vs, k);
  }

  lemma ChanceSettles(r: Pull, vs: seq<Visit>, i: nat, n: nat)
    requires AllNumbered(vs) && r.cursor < n
    ensures SettlesAt(Fresh(r), WiresOf(r, vs), i, n) <==> IsChance(r, vs, i, n)
  {
    if i < |vs| {
      CursorIsBelow(r, vs, i, n);
      SeenIsHistory(r, vs, i);
      WireSettles(HistoryAt(r, vs, i), vs[i], n);
    }
  }

  /** A row above the cursor is settled, applied or refused for good, exactly when it has its chance at some poll. */
  lemma HandledIff(r: Pull, vs: seq<Visit>, k: nat, n: nat)
    requires AllNumbered(vs) && r.cursor < n && k <= |vs|
    ensures n in HistoryAt(r, vs, k).settled <==> HadChance(r, vs, k, n)
  {
    WiresAscend(r, vs);
    SettledIff(Fresh(r), WiresOf(r, vs), k, n);
    if i: nat :| i < k && SettlesAt(Fresh(r), WiresOf(r, vs), i, n) { ChanceSettles(r, vs, i, n); }
    if i: nat :| i < k && IsChance(r, vs, i, n) { ChanceSettles(r, vs, i, n); }
  }

  /** The `i`-th poll delivers the row. */
  predicate IsSentAt(r: Pull, vs: seq<Visit>, i: nat, n: nat) {
    i < |vs| && Seen(r, vs, i).cursor < n && CanSend(vs[i], Seen(r, vs, i).cursor, n)
  }

  ghost predicate WasSent(r: Pull, vs: seq<Visit>, k: nat, n: nat) {
    exists i :: 0 <= i < k && IsSentAt(r, vs, i, n)
  }

  lemma SentIff(r: Pull, vs: seq<Visit>, k: nat, n: nat)
    requires AllNumbered(vs) && k <= |vs|
    ensures n in HistoryAt(r, vs, k).delivered <==> WasSent(r, vs, k, n)
  {
    DeliveredIff(Fresh(r), WiresOf(r, vs), k, n);
    forall i: nat | i < |vs| ensures OffersAt(WiresOf(r, vs), i, n) == IsSentAt(r, vs, i, n) {
      WireHolds(vs[i], Seen(r, vs, i).cursor, n);
    }
  }

  /** The `i`-th poll skips a row: it was sent before and never had its chance, the producer cannot send it now, and a
      later row gets through. */
  ghost predicate IsSkippedAt(r: Pull, vs: seq<Visit>, i: nat, n: nat) {
    && i < |vs| && WasSent(r, vs, i, n) && !HadChance(r, vs, i, n)
    && !CanSend(vs[i], Seen(r, vs, i).cursor, n) && SettlesLaterAt(Fresh(r), WiresOf(r, vs), i, n)
  }

  lemma SkippedAtIff(r: Pull, vs: seq<Visit>, i: nat, n: nat)
    requires AllNumbered(vs) && r.cursor < n && i < |vs|
    ensures IsSkippedAt(r, vs, i, n) ==> SkipsAt(Fresh(r), WiresOf(r, vs), i, n)
    ensures SkipsAt(Fresh(r), WiresOf(r, vs), i, n) && !IsLost(HistoryAt(r, vs, i), n) ==> IsSkippedAt(r, vs, i, n)
  {
    SeenIsHistory(r, vs, i);
    SentIff(r, vs, i, n);
    HandledIff(r, vs, i, n);
    WireHolds(vs[i], Seen(r, vs, i).cursor, n);
  }

  lemma SkippedIsLost(r: Pull, vs: seq<Visit>, k: nat, i: nat, n: nat)
    requires AllNumbered(vs) && r.cursor < n && i < k <= |vs| && IsSkippedAt(r, vs, i, n)
    ensures IsLost(HistoryAt(r, vs, k), n)
  {
    WiresAscend(r, vs);
    SkippedAtIff(r, vs, i, n);
    RowIsLostIff(Fresh(r), WiresOf(r, vs), k, n);
  }

  lemma LostIsSkipped(r: Pull, vs: seq<Visit>, k: nat, n: nat) returns (i: nat)
    requires AllNumbered(vs) && r.cursor < n && k <= |vs| && IsLost(HistoryAt(r, vs, k), n)
    ensures i < k && IsSkippedAt(r, vs, i, n)
  {
    WiresAscend(r, vs);
    i := FirstSkip(Fresh(r), WiresOf(r, vs), k, n);
    SkippedAtIff(r, vs, i, n);
  }

  lemma LostIs(r: Pull, vs: seq<Visit>, k: nat, n: nat)
    requires AllNumbered(vs) && r.cursor < n && k <= |vs|
    ensures IsLost(HistoryAt(r, vs, k), n)
      <==> WasSent(r, vs, k, n) && !HadChance(r, vs, k, n) && n <= Seen(r, vs, k).cursor
  {
    SeenIsHistory(r, vs, k);
    SentIff(r, vs, k, n);
    HandledIff(r, vs, k, n);
  }

  /** A row is lost, sent but neither applied nor refused for good and passed by the cursor, exactly when some poll so
      far has skipped it. */
  lemma LostIff(r: Pull, vs: seq<Visit>, k: nat, n: nat)
    requires AllNumbered(vs) && r.cursor < n && k <= |vs|
    ensures WasSent(r, vs, k, n) && !HadChance(r, vs, k, n) && n <= Seen(r, vs, k).cursor
      <==> exists i :: 0 <= i < k && IsSkippedAt(r, vs, i, n)
  {
    LostIs(r, vs, k, n);
    if i: nat :| i < k && IsSkippedAt(r, vs, i, n) { SkippedIsLost(r, vs, k, i, n); }
    if IsLost(HistoryAt(r, vs, k), n) { var i := LostIsSkipped(r, vs, k, n); }
  }

  // --- what the replica ends up with -----------------------------------------------------------------

  function AcceptedAt(r: Pull, vs: seq<Visit>, i: nat): seq<ChangeRecord>
    requires i < |vs|
  {
    AcceptedIn(StartAt(r, vs, i), WireAt(r, vs, i))
  }

  function Joined(parts: seq<seq<ChangeRecord>>, k: nat): seq<ChangeRecord>
    requires k <= |parts|
    decreases k
  {
    if k == 0 then [] else Joined(parts, k - 1) + parts[k - 1]
  }

  lemma {:induction false} JoinedHas(parts: seq<seq<ChangeRecord>>, k: nat, rec: ChangeRecord)
    requires k <= |parts|
    ensures rec in Joined(parts, k) <==> exists i :: 0 <= i < k && rec in parts[i]
    decreases k
  {
    if k > 0 { JoinedHas(parts, k - 1, rec); }
  }

  function PartsOf(r: Pull, vs: seq<Visit>): (parts: seq<seq<ChangeRecord>>)
    ensures |parts| == |vs| && forall i :: 0 <= i < |vs| ==> parts[i] == AcceptedAt(r, vs, i)
  {
    seq(|vs|, i requires 0 <= i < |vs| => AcceptedAt(r, vs, i))
  }

  /** The records the first `k` polls apply, in order. */
  function Accepted(r: Pull, vs: seq<Visit>, k: nat): seq<ChangeRecord>
    requires k <= |vs|
  {
    Joined(PartsOf(r, vs), k)
  }

  lemma VisitApplies(v: Visit, r: Pull)
    ensures Visited(v, r).tables == ApplyAll(r.tables, AcceptedIn(Begin(r.tables, r.cursor), Wire(v, r.cursor)))
  {
    DoneIsFold(Begin(r.tables, r.cursor), Wire(v, r.cursor));
  }

  lemma NextApplies(r: Pull, vs: seq<Visit>, k: nat)
    requires k < |vs| && Seen(r, vs, k).tables == ApplyAll(r.tables, Accepted(r, vs, k))
    ensures Seen(r, vs, k + 1).tables == ApplyAll(r.tables, Accepted(r, vs, k + 1))
  {
    VisitApplies(vs[k], Seen(r, vs, k));
    assert Seen(r, vs, k + 1) == Visited(vs[k], Seen(r, vs, k));
    assert PartsOf(r, vs)[k] == AcceptedAt(r, vs, k);
    assert Accepted(r, vs, k + 1) == Accepted(r, vs, k) + AcceptedAt(r, vs, k);
    ApplyAllConcat(r.tables, Accepted(r, vs, k), AcceptedAt(r, vs, k));
  }

  /** The replica is what it was with those records applied. */
  lemma SeenIsAccepted(r: Pull, vs: seq<Visit>, k: nat)
    requires k <= |vs|
    ensures Seen(r, vs, k).tables == ApplyAll(r.tables, Accepted(r, vs, k))
  {
    for i := 0 to k
      invariant Seen(r, vs, i).tables == ApplyAll(r.tables, Accepted(r, vs, i))
    {
      NextApplies(r, vs, i);
    }
  }

  predicate IsAppliedAt(r: Pull, vs: seq<Visit>, i: nat, rec: ChangeRecord) {
    i < |vs| && rec in AcceptedAt(r, vs, i)
  }

  lemma AcceptedIff(r: Pull, vs: seq<Visit>, k: nat, rec: ChangeRecord)
    requires k <= |vs|
    ensures rec in Accepted(r, vs, k) <==> exists i :: 0 <= i < k && IsAppliedAt(r, vs, i, rec)
  {
    var parts := PartsOf(r, vs);
    JoinedHas(parts, k, rec);
    forall i | 0 <= i < k ensures IsAppliedAt(r, vs, i, rec) == (rec in parts[i]) {}
  }

  /** The consumer authorizes the event that carries row `n`. */
  ghost predicate IsGranted(p: Progress, batch: seq<Delivery>, n: nat) {
    exists j :: 0 <= j < |batch| && PeekSeq(batch[j].event) == n && VerdictOn(p, batch, j).Authorized?
  }

  /** The record arrives at the `i`-th poll: it is the producer's own row of its number, that row has its chance, and
      the consumer authorizes it. */
  ghost predicate ArrivesAt(r: Pull, vs: seq<Visit>, i: nat, rec: ChangeRecord) {
    && IsChance(r, vs, i, rec.seqNo) && vs[i].peer.outbox[rec.seqNo - 1] == rec
    && IsGranted(StartAt(r, vs, i), WireAt(r, vs, i), rec.seqNo)
  }

  lemma ThroughIsGranted(h: History, batch: seq<Delivery>, j: nat, rec: ChangeRecord)
    requires j < |batch| && IsThrough(StartOf(h), batch, j) && Grants(StartOf(h), batch, j, rec)
    ensures SettlesRow(h, batch, rec.seqNo) && IsGranted(StartOf(h), batch, rec.seqNo)
  {
    GrantedCarries(StartOf(h), batch, j, rec);
  }

  lemma AcceptedIsGranted(h: History, v: Visit, rec: ChangeRecord)
    requires IsNumbered(v.peer.outbox) && rec in AcceptedIn(StartOf(h), Wire(v, h.cursor))
    ensures var n := rec.seqNo;
            && SettlesRow(h, Wire(v, h.cursor), n) && IsGranted(StartOf(h), Wire(v, h.cursor), n)
            && 0 < n <= |v.peer.outbox| && v.peer.outbox[n - 1] == rec
  {
    var p, batch := StartOf(h), Wire(v, h.cursor);
    WireAscends(v, h.cursor);
    AcceptedAre(p, batch, rec);
    var j :| 0 <= j < |batch| && IsThrough(p, batch, j) && Grants(p, batch, j, rec);
    GrantedCarries(p, batch, j, rec);
    SentRow(v, h.cursor, j);
    ThroughIsGranted(h, batch, j, rec);
  }

  lemma ThroughAndGranted(h: History, batch: seq<Delivery>, n: nat) returns (j: nat)
    requires IsAscendingAfter(batch, h.cursor) && SettlesRow(h, batch, n) && IsGranted(StartOf(h), batch, n)
    ensures j < |batch| && PeekSeq(batch[j].event) == n && IsThrough(StartOf(h), batch, j)
    ensures batch[j].event.body.Some? && Grants(StartOf(h), batch, j, RecordOfPart(batch[j].event.body.value))
  {
    var p := StartOf(h);
    j :| 0 <= j < |batch| && PeekSeq(batch[j].event) == n && VerdictOn(p, batch, j).Authorized?;
    var i :| 0 <= i < |batch| && PeekSeq(batch[i].event) == n && IsThrough(p, batch, i);
    assert i == j;
  }

  lemma GrantedIsAccepted(h: History, v: Visit, batch: seq<Delivery>, rec: ChangeRecord)
    requires IsNumbered(v.peer.outbox) && batch == Wire(v, h.cursor)
    requires 0 < rec.seqNo <= |v.peer.outbox| && v.peer.outbox[rec.seqNo - 1] == rec
    requires SettlesRow(h, batch, rec.seqNo) && IsGranted(StartOf(h), batch, rec.seqNo)
    ensures rec in AcceptedIn(StartOf(h), batch)
  {
    WireAscends(v, h.cursor);
    var j := ThroughAndGranted(h, batch, rec.seqNo);
    SentRow(v, h.cursor, j);
    AcceptedAre(StartOf(h), batch, rec);
  }

  lemma AppliedArrives(r: Pull, vs: seq<Visit>, i: nat, rec: ChangeRecord)
    requires AllNumbered(vs) && r.cursor < rec.seqNo && IsAppliedAt(r, vs, i, rec)
    ensures ArrivesAt(r, vs, i, rec)
  {
    SeenIsHistory(r, vs, i);
    AcceptedIsGranted(HistoryAt(r, vs, i), vs[i], rec);
    ChanceSettles(r, vs, i, rec.seqNo);
  }

  lemma ChanceIsSettled(r: Pull, vs: seq<Visit>, i: nat, n: nat)
    requires AllNumbered(vs) && r.cursor < n && IsChance(r, vs, i, n)
    ensures SettlesRow(HistoryAt(r, vs, i), WireAt(r, vs, i), n)
    ensures StartOf(HistoryAt(r, vs, i)) == StartAt(r, vs, i) && HistoryAt(r, vs, i).cursor == Seen(r, vs, i).cursor
  {
    ChanceSettles(r, vs, i, n);
    SeenIsHistory(r, vs, i);
    assert WiresOf(r, vs)[i] == WireAt(r, vs, i);
  }

  lemma ArrivedIsApplied(r: Pull, vs: seq<Visit>, i: nat, rec: ChangeRecord)
    requires AllNumbered(vs) && r.cursor < rec.seqNo && ArrivesAt(r, vs, i, rec)
    ensures IsAppliedAt(r, vs, i, rec)
  {
    ChanceIsSettled(r, vs, i, rec.seqNo);
    GrantedIsAccepted(HistoryAt(r, vs, i), vs[i], WireAt(r, vs, i), rec);
  }

  /** A row above the cursor arrives exactly when it has its chance at a poll and is authorized there. */
  lemma ArrivesIff(r: Pull, vs: seq<Visit>, k: nat, rec: ChangeRecord)
    requires AllNumbered(vs) && r.cursor < rec.seqNo && k <= |vs|
    ensures rec in Accepted(r, vs, k) <==> exists i :: 0 <= i < k && ArrivesAt(r, vs, i, rec)
  {
    AcceptedIff(r, vs, k, rec);
    if i: nat :| i < k && IsAppliedAt(r, vs, i, rec) { AppliedArrives(r, vs, i, rec); }
    if i: nat :| i < k && ArrivesAt(r, vs, i, rec) { ArrivedIsApplied(r, vs, i, rec); }
  }
}
