/** The consumer's cursor: where one batch leaves it, and what it promises over every run of batches, whatever
    the registry does meanwhile. */
module Cursors {
  import opened Domain
  import opened Replica
  import opened Feed
  import Ordered

  // --- one batch ---------------------------------------------------------------------------------

  predicate IsAscendingAfter(batch: seq<Delivery>, cursor: nat) {
    && (forall i :: 0 <= i < |batch| ==> PeekSeq(batch[i].event) > cursor)
    && (forall i, j :: 0 <= i < j < |batch| ==> PeekSeq(batch[i].event) < PeekSeq(batch[j].event))
  }

  function Settled(p: Progress, batch: seq<Delivery>): (k: nat)
    ensures k <= |batch|
  {
    Ordered.Run(p, batch, Handle).1
  }

  function Done(p: Progress, batch: seq<Delivery>): Progress {
    Ordered.Run(p, batch, Handle).0
  }

  /** The verdict on event `i`, on the tables its predecessors in the batch left. */
  function VerdictOn(p: Progress, batch: seq<Delivery>, i: nat): Verdict
    requires i < |batch|
  {
    Authorize(batch[i].view, batch[i].event, Done(p, batch[..i]).tables)
  }

  predicate IsSettling(v: Verdict) {
    v.Authorized? || !IsTransient(v.error)
  }

  /** One event moves the cursor to itself exactly when it is applied, malformed or refused for good. */
  lemma HandleOutcome(p: Progress, d: Delivery)
    ensures Handle(p, d).1 == IsSettling(Authorize(d.view, d.event, p.tables))
    ensures Handle(p, d).1 ==> Handle(p, d).0.high == Max(p.high, PeekSeq(d.event))
    ensures !Handle(p, d).1 ==> Handle(p, d).0.tables == p.tables && Handle(p, d).0.high == p.high
  {
  }

  lemma {:induction false} HighAfter(p: Progress, batch: seq<Delivery>, k: nat)
    requires IsAscendingAfter(batch, p.high) && k <= Settled(p, batch)
    ensures Done(p, batch[..k]).high == if k == 0 then p.high else PeekSeq(batch[k - 1].event)
  {
    if k > 0 {
      HighAfter(p, batch, k - 1);
      Ordered.RunPrefix(p, batch, Handle, k - 1);
      Ordered.WentOn(p, batch, Handle, k - 1);
      Ordered.RunNext(p, batch, Handle, k - 1);
      HandleOutcome(Done(p, batch[..k - 1]), batch[k - 1]);
    }
  }

  /** A batch settles a prefix, stops at the first transient refusal, and leaves the cursor on the last event
      it settled; the refused event stays above the cursor and nothing after it is applied. */
  lemma BatchOutcome(p: Progress, batch: seq<Delivery>)
    requires IsAscendingAfter(batch, p.high)
    ensures var k := Settled(p, batch);
            && (forall i :: 0 <= i < k ==> IsSettling(VerdictOn(p, batch, i)))
            && Done(p, batch).high == (if k == 0 then p.high else PeekSeq(batch[k - 1].event))
            && Done(p, batch).tables == Done(p, batch[..k]).tables
            && (k < |batch| ==> !IsSettling(VerdictOn(p, batch, k)) && PeekSeq(batch[k].event) > Done(p, batch).high)
  {
    var k := Settled(p, batch);
    forall i | 0 <= i < k ensures IsSettling(VerdictOn(p, batch, i)) {
      Ordered.WentOn(p, batch, Handle, i);
      HandleOutcome(Done(p, batch[..i]), batch[i]);
    }
    HighAfter(p, batch, k);
    if k < |batch| {
      Ordered.HaltedAt(p, batch, Handle, k);
      HandleOutcome(Done(p, batch[..k]), batch[k]);
    } else {
      assert batch[..k] == batch;
    }
  }

  /** Event `j` gets through: it settles, and so does everything before it in the batch. */
  ghost predicate IsThrough(p: Progress, batch: seq<Delivery>, j: nat)
    requires j < |batch|
  {
    forall i :: 0 <= i <= j ==> IsSettling(VerdictOn(p, batch, i))
  }

  lemma ThroughIff(p: Progress, batch: seq<Delivery>, j: nat)
    requires IsAscendingAfter(batch, p.high) && j < |batch|
    ensures IsThrough(p, batch, j) <==> j < Settled(p, batch)
  {
    BatchOutcome(p, batch);
    var k := Settled(p, batch);
    if k <= j { assert !IsSettling(VerdictOn(p, batch, k)); }
  }

  // --- what a batch applies --------------------------------------------------------------------------

  function RecordIn(v: Verdict): seq<ChangeRecord> {
    if v.Authorized? then [RecordOfPart(v.part)] else []
  }

  /** The records of the authorized ones among the first `k` events, in order. */
  function AuthorizedTo(p: Progress, batch: seq<Delivery>, k: nat): seq<ChangeRecord>
    requires k <= |batch|
    decreases k
  {
    if k == 0 then [] else AuthorizedTo(p, batch, k - 1) + RecordIn(VerdictOn(p, batch, k - 1))
  }

  /** The records a batch applies: the authorized ones among those that get through. */
  function AcceptedIn(p: Progress, batch: seq<Delivery>): seq<ChangeRecord> {
    AuthorizedTo(p, batch, Settled(p, batch))
  }

  lemma HandleApplies(p: Progress, d: Delivery)
    ensures Handle(p, d).0.tables == ApplyAll(p.tables, RecordIn(Authorize(d.view, d.event, p.tables)))
  {
    var verdict := Authorize(d.view, d.event, p.tables);
    if verdict.Authorized? { ApplyLast(p.tables, [], RecordOfPart(verdict.part)); }
  }

  lemma DoneNext(p: Progress, batch: seq<Delivery>, k: nat)
    requires k < Settled(p, batch)
    ensures Done(p, batch[..k + 1]) == Handle(Done(p, batch[..k]), batch[k]).0
  {
    Ordered.RunPrefix(p, batch, Handle, k);
    Ordered.RunNext(p, batch, Handle, k);
  }

  lemma {:induction false} DoneTo(p: Progress, batch: seq<Delivery>, k: nat)
    requires k <= Settled(p, batch)
    ensures Done(p, batch[..k]).tables == ApplyAll(p.tables, AuthorizedTo(p, batch, k))
    decreases k
  {
    if k > 0 {
      DoneTo(p, batch, k - 1);
      DoneNext(p, batch, k - 1);
      HandleApplies(Done(p, batch[..k - 1]), batch[k - 1]);
      ApplyAllConcat(p.tables, AuthorizedTo(p, batch, k - 1), RecordIn(VerdictOn(p, batch, k - 1)));
    }
  }

  lemma DoneStops(p: Progress, batch: seq<Delivery>)
    ensures Done(p, batch).tables == Done(p, batch[..Settled(p, batch)]).tables
  {
    var k := Settled(p, batch);
    if k < |batch| {
      Ordered.HaltedAt(p, batch, Handle, k);
      HandleOutcome(Done(p, batch[..k]), batch[k]);
    } else {
      assert batch[..k] == batch;
    }
  }

  /** A batch leaves the tables with exactly those records applied. */
  lemma DoneIsFold(p: Progress, batch: seq<Delivery>)
    ensures Done(p, batch).tables == ApplyAll(p.tables, AcceptedIn(p, batch))
  {
    DoneTo(p, batch, Settled(p, batch));
    DoneStops(p, batch);
  }

  /** Event `j` is authorized, and carries the record. */
  predicate Grants(p: Progress, batch: seq<Delivery>, j: nat, rec: ChangeRecord)
    requires j < |batch|
  {
    rec in RecordIn(VerdictOn(p, batch, j))
  }

  lemma {:induction false} AuthorizedAre(p: Progress, batch: seq<Delivery>, k: nat, rec: ChangeRecord)
    requires k <= |batch|
    ensures rec in AuthorizedTo(p, batch, k) <==> exists j :: 0 <= j < k && Grants(p, batch, j, rec)
    decreases k
  {
    if k > 0 {
      AuthorizedAre(p, batch, k - 1, rec);
      assert Grants(p, batch, k - 1, rec) == (rec in RecordIn(VerdictOn(p, batch, k - 1)));
    }
  }

  /** The applied records are those of the authorized events that get through. */
  lemma AcceptedAre(p: Progress, batch: seq<Delivery>, rec: ChangeRecord)
    requires IsAscendingAfter(batch, p.high)
    ensures rec in AcceptedIn(p, batch)
      <==> exists j :: 0 <= j < |batch| && IsThrough(p, batch, j) && Grants(p, batch, j, rec)
  {
    AuthorizedAre(p, batch, Settled(p, batch), rec);
    forall j | 0 <= j < |batch| ensures IsThrough(p, batch, j) <==> j < Settled(p, batch) { ThroughIff(p, batch, j); }
  }

  lemma GrantedCarries(p: Progress, batch: seq<Delivery>, j: nat, rec: ChangeRecord)
    requires j < |batch| && Grants(p, batch, j, rec)
    ensures batch[j].event.body.Some? && RecordOfPart(batch[j].event.body.value) == rec
    ensures PeekSeq(batch[j].event) == rec.seqNo
  {
  }

  // --- runs of batches ------------------------------------------------------------------------------

  /** A consumer's history with one peer: its replica and cursor, the sequence numbers ever delivered to it,
      and those it has settled. */
  datatype History = History(tables: Tables, cursor: nat, delivered: set<nat>, settled: set<nat>)

  function SeqsOf(batch: seq<Delivery>): set<nat> {
    set i | 0 <= i < |batch| :: PeekSeq(batch[i].event)
  }

  function StartOf(h: History): Progress {
    Begin(h.tables, h.cursor)
  }

  function Receive(h: History, batch: seq<Delivery>): History {
    var p := StartOf(h);
    History(Done(p, batch).tables, Max(h.cursor, Done(p, batch).high), h.delivered + SeqsOf(batch),
            h.settled + SeqsOf(batch[..Settled(p, batch)]))
  }

  /** Delivered, and neither applied nor refused for good. */
  predicate IsPending(h: History, d: nat) { d in h.delivered && d !in h.settled }

  /** Pending, and the cursor has passed it: no later pull will be offered it again. */
  predicate IsLost(h: History, d: nat) { IsPending(h, d) && d <= h.cursor }

  /** Everything delivered at or below the cursor has been applied or refused for good. */
  ghost predicate CursorCovers(h: History) {
    forall d :: d in h.delivered ==> !IsLost(h, d)
  }

  ghost predicate SettlesRow(h: History, batch: seq<Delivery>, d: nat) {
    exists j :: 0 <= j < |batch| && PeekSeq(batch[j].event) == d && IsThrough(StartOf(h), batch, j)
  }

  ghost predicate SettlesLater(h: History, batch: seq<Delivery>, d: nat) {
    exists j :: 0 <= j < |batch| && PeekSeq(batch[j].event) > d && IsThrough(StartOf(h), batch, j)
  }

  /** A batch skips a pending event: it does not offer it again, and an event after it gets through. */
  ghost predicate Skips(h: History, batch: seq<Delivery>, d: nat) {
    IsPending(h, d) && d !in SeqsOf(batch) && SettlesLater(h, batch, d)
  }

  /** What one batch settles, and how far it moves the cursor. */
  lemma ReceiveOutcome(h: History, batch: seq<Delivery>, d: nat)
    requires IsAscendingAfter(batch, h.cursor)
    ensures d in Receive(h, batch).settled <==> d in h.settled || SettlesRow(h, batch, d)
    ensures Receive(h, batch).cursor >= h.cursor
    ensures Receive(h, batch).cursor < d
      <==> h.cursor < d && !SettlesRow(h, batch, d) && !SettlesLater(h, batch, d)
  {
    var p, k := StartOf(h), Settled(StartOf(h), batch);
    var head := batch[..k];
    BatchOutcome(p, batch);
    forall j | 0 <= j < |batch| ensures IsThrough(p, batch, j) <==> j < k { ThroughIff(p, batch, j); }
    assert forall j | 0 <= j < k :: head[j] == batch[j];
    if d in SeqsOf(head) {
      var j :| 0 <= j < |head| && PeekSeq(head[j].event) == d;
      assert PeekSeq(batch[j].event) == d && IsThrough(p, batch, j);
    }
    if SettlesRow(h, batch, d) {
      var j :| 0 <= j < |batch| && PeekSeq(batch[j].event) == d && IsThrough(p, batch, j);
      assert PeekSeq(head[j].event) == d;
    }
    if k > 0 { assert IsThrough(p, batch, k - 1); }
  }

  /** A row in a batch is settled before anything after it. */
  lemma OfferedFirst(h: History, batch: seq<Delivery>, d: nat)
    requires IsAscendingAfter(batch, h.cursor) && d in SeqsOf(batch) && SettlesLater(h, batch, d)
    ensures SettlesRow(h, batch, d)
  {
    var i :| 0 <= i < |batch| && PeekSeq(batch[i].event) == d;
    var j :| 0 <= j < |batch| && PeekSeq(batch[j].event) > d && IsThrough(StartOf(h), batch, j);
    assert i < j;
    assert IsThrough(StartOf(h), batch, i);
  }

  /** A row is lost by a batch exactly when it was lost before or the batch skips it. */
  lemma LostNext(h: History, batch: seq<Delivery>, d: nat)
    requires IsAscendingAfter(batch, h.cursor)
    ensures IsLost(Receive(h, batch), d) <==> IsLost(h, d) || Skips(h, batch, d)
  {
    ReceiveOutcome(h, batch, d);
    if d in SeqsOf(batch) {
      var i :| 0 <= i < |batch| && PeekSeq(batch[i].event) == d;
      assert d > h.cursor;
      if SettlesLater(h, batch, d) { OfferedFirst(h, batch, d); }
    }
    if SettlesRow(h, batch, d) {
      var j :| 0 <= j < |batch| && PeekSeq(batch[j].event) == d && IsThrough(StartOf(h), batch, j);
      assert d in SeqsOf(batch);
    }
  }

  /** A batch keeps the cursor honest exactly when it skips no pending event; registry changes between and during
      batches do not matter. */
  lemma BatchKeepsCover(h: History, batch: seq<Delivery>)
    requires CursorCovers(h) && IsAscendingAfter(batch, h.cursor)
    ensures CursorCovers(Receive(h, batch)) <==> forall d :: d in h.delivered ==> !Skips(h, batch, d)
  {
    forall d ensures IsLost(Receive(h, batch), d) <==> IsLost(h, d) || Skips(h, batch, d) { LostNext(h, batch, d); }
    forall d | d in h.delivered && Skips(h, batch, d) ensures !CursorCovers(Receive(h, batch)) {
      assert d in Receive(h, batch).delivered && IsLost(Receive(h, batch), d);
    }
  }

  /** The history after the first `k` batches. */
  function After(h: History, batches: seq<seq<Delivery>>, k: nat): History
    requires k <= |batches|
    decreases k
  {
    if k == 0 then h else Receive(After(h, batches, k - 1), batches[k - 1])
  }

  predicate AscendsAt(h: History, batches: seq<seq<Delivery>>, i: nat)
    requires i < |batches|
  {
    IsAscendingAfter(batches[i], After(h, batches, i).cursor)
  }

  /** Each batch is numbered upwards from above the cursor it finds, as a page of the feed is. */
  ghost predicate AllAscend(h: History, batches: seq<seq<Delivery>>) {
    forall i :: 0 <= i < |batches| ==> AscendsAt(h, batches, i)
  }

  ghost predicate SkipsAt(h: History, batches: seq<seq<Delivery>>, i: nat, d: nat) {
    i < |batches| && Skips(After(h, batches, i), batches[i], d)
  }

  ghost predicate SettlesAt(h: History, batches: seq<seq<Delivery>>, i: nat, d: nat) {
    i < |batches| && SettlesRow(After(h, batches, i), batches[i], d)
  }

  ghost predicate SettlesLaterAt(h: History, batches: seq<seq<Delivery>>, i: nat, d: nat) {
    i < |batches| && SettlesLater(After(h, batches, i), batches[i], d)
  }

  predicate OffersAt(batches: seq<seq<Delivery>>, i: nat, d: nat) {
    i < |batches| && d in SeqsOf(batches[i])
  }

  ghost predicate IsSkipped(h: History, batches: seq<seq<Delivery>>, k: nat, d: nat) {
    exists i :: 0 <= i < k && SkipsAt(h, batches, i, d)
  }

  lemma SkipsSplit(h: History, batches: seq<seq<Delivery>>, k: nat, d: nat)
    requires k < |batches|
    ensures IsSkipped(h, batches, k + 1, d)
      <==> IsSkipped(h, batches, k, d) || Skips(After(h, batches, k), batches[k], d)
  {
    assert SkipsAt(h, batches, k, d) == Skips(After(h, batches, k), batches[k], d);
  }

  /** Over any run of ascending batches, under any registry changes: a row is lost exactly when, at some batch, it was
      delivered before and is still pending, the batch lacks it, and an event after it gets through. */
  lemma {:induction false} RowIsLostIff(h: History, batches: seq<seq<Delivery>>, k: nat, d: nat)
    requires AllAscend(h, batches) && k <= |batches|
    ensures IsLost(After(h, batches, k), d) <==> IsLost(h, d) || IsSkipped(h, batches, k, d)
    decreases k
  {
    if k > 0 {
      RowIsLostIff(h, batches, k - 1, d);
      assert AscendsAt(h, batches, k - 1);
      LostNext(After(h, batches, k - 1), batches[k - 1], d);
      SkipsSplit(h, batches, k - 1, d);
    }
  }

  /** A row lost over a run was skipped at some batch before which it was not lost yet. */
  lemma {:induction false} FirstSkip(h: History, batches: seq<seq<Delivery>>, k: nat, d: nat) returns (i: nat)
    requires AllAscend(h, batches) && k <= |batches| && !IsLost(h, d) && IsLost(After(h, batches, k), d)
    ensures i < k && SkipsAt(h, batches, i, d) && !IsLost(After(h, batches, i), d)
    decreases k
  {
    if IsLost(After(h, batches, k - 1), d) {
      i := FirstSkip(h, batches, k - 1, d);
    } else {
      assert AscendsAt(h, batches, k - 1);
      LostNext(After(h, batches, k - 1), batches[k - 1], d);
      i := k - 1;
    }
  }

  /** What has been delivered, from the batches. */
  lemma {:induction false} DeliveredIff(h: History, batches: seq<seq<Delivery>>, k: nat, d: nat)
    requires k <= |batches|
    ensures d in After(h, batches, k).delivered
      <==> d in h.delivered || exists i :: 0 <= i < k && OffersAt(batches, i, d)
    decreases k
  {
    if k > 0 {
      DeliveredIff(h, batches, k - 1, d);
      assert OffersAt(batches, k - 1, d) == (d in SeqsOf(batches[k - 1]));
    }
  }

  /** And what has been settled: every row that got through in one of them. */
  lemma {:induction false} SettledIff(h: History, batches: seq<seq<Delivery>>, k: nat, d: nat)
    requires AllAscend(h, batches) && k <= |batches|
    ensures d in After(h, batches, k).settled
      <==> d in h.settled || exists i :: 0 <= i < k && SettlesAt(h, batches, i, d)
    decreases k
  {
    if k > 0 {
      SettledIff(h, batches, k - 1, d);
      assert AscendsAt(h, batches, k - 1);
      ReceiveOutcome(After(h, batches, k - 1), batches[k - 1], d);
      assert SettlesAt(h, batches, k - 1, d) == SettlesRow(After(h, batches, k - 1), batches[k - 1], d);
    }
  }

  /** The row, or one after it, has got through in the first `k` batches. */
  ghost predicate IsPassed(h: History, batches: seq<seq<Delivery>>, k: nat, d: nat) {
    exists i :: 0 <= i < k && (SettlesAt(h, batches, i, d) || SettlesLaterAt(h, batches, i, d))
  }

  /** The cursor is below a row exactly while neither it nor a later one has got through, and never goes back. */
  lemma {:induction false} CursorBelowIff(h: History, batches: seq<seq<Delivery>>, k: nat, d: nat)
    requires AllAscend(h, batches) && k <= |batches|
    ensures After(h, batches, k).cursor >= h.cursor
    ensures After(h, batches, k).cursor < d <==> h.cursor < d && !IsPassed(h, batches, k, d)
    decreases k
  {
    if k > 0 {
      CursorBelowIff(h, batches, k - 1, d);
      assert AscendsAt(h, batches, k - 1);
      ReceiveOutcome(After(h, batches, k - 1), batches[k - 1], d);
      assert SettlesAt(h, batches, k - 1, d) == SettlesRow(After(h, batches, k - 1), batches[k - 1], d);
      assert SettlesLaterAt(h, batches, k - 1, d) == SettlesLater(After(h, batches, k - 1), batches[k - 1], d);
    }
  }

  /** Cursor safety: after any number of ascending batches, under any registry changes, the cursor covers everything
      delivered below it if and only if no batch so far has skipped a pending event. */
  lemma {:induction false} CursorSafety(h: History, batches: seq<seq<Delivery>>, k: nat)
    requires CursorCovers(h) && AllAscend(h, batches) && k <= |batches|
    ensures CursorCovers(After(h, batches, k)) <==> forall i, d :: 0 <= i < k ==> !SkipsAt(h, batches, i, d)
  {
    var h' := After(h, batches, k);
    forall d ensures IsLost(h', d) <==> exists i :: 0 <= i < k && SkipsAt(h, batches, i, d) {
      RowIsLostIff(h, batches, k, d);
      assert d in h.delivered ==> !IsLost(h, d);
    }
    forall i, d | 0 <= i < k && SkipsAt(h, batches, i, d) ensures !CursorCovers(h') {
      assert IsLost(h', d) && d in h'.delivered;
    }
  }
}
