/** Repeated polls against a stable registry: they bring every row the producer can sign, with any page limit,
    exactly when no page in between holds only rows it cannot. */
module Convergence {
  import opened Replica
  import opened Keyed
  import opened Store
  import opened Feed
  import opened Pulling

  // --- where a poll stops -------------------------------------------------------------------------------

  /** One past the last signable row of a stretch of the outbox, or its beginning. */
  function LastSignable(p: Peer, v: RegistryView, from: nat, end: nat): (c: nat)
    requires from <= end <= |p.outbox|
    ensures from <= c <= end && (c > from ==> IsSignable(p, v, p.outbox[c - 1]))
    ensures NoneSignable(p, v, c, end)
    decreases end
  {
    if end == from then from
    else if IsSignable(p, v, p.outbox[end - 1]) then end
    else LastSignable(p, v, from, end - 1)
  }

  predicate NoneSignable(p: Peer, v: RegistryView, from: nat, end: nat)
    requires end <= |p.outbox|
  {
    forall i :: from <= i < end ==> !IsSignable(p, v, p.outbox[i])
  }

  /** The rows between two positions that go out. */
  function Between(p: Peer, v: RegistryView, from: nat, end: nat): seq<ChangeRecord>
    requires from <= end <= |p.outbox|
  {
    SignableRows(p, v, p.outbox[from..end])
  }

  lemma BetweenSplits(p: Peer, v: RegistryView, a: nat, b: nat, c: nat)
    requires a <= b <= c <= |p.outbox|
    ensures Between(p, v, a, c) == Between(p, v, a, b) + Between(p, v, b, c)
  {
    assert p.outbox[a..c] == p.outbox[a..b] + p.outbox[b..c];
    RetainConcat(p.outbox[a..b], p.outbox[b..c], SignableBy(p, v));
  }

  lemma NothingBetween(p: Peer, v: RegistryView, from: nat, end: nat)
    requires from <= end <= |p.outbox| && NoneSignable(p, v, from, end)
    ensures Between(p, v, from, end) == []
  {
    RetainNone(p.outbox[from..end], SignableBy(p, v));
  }

  lemma EndsIn(p: Peer, v: RegistryView, from: nat, c: nat)
    requires from < c <= |p.outbox| && IsSignable(p, v, p.outbox[c - 1])
    ensures Between(p, v, from, c) == Between(p, v, from, c - 1) + [p.outbox[c - 1]]
  {
    assert p.outbox[from..c] == p.outbox[from..c - 1] + [p.outbox[c - 1]];
    RetainOneMore(p.outbox[from..c - 1], p.outbox[c - 1], SignableBy(p, v));
  }

  lemma EndsAt(p: Peer, v: RegistryView, from: nat, c: nat)
    requires IsNumbered(p.outbox) && from <= c <= |p.outbox| && (c > from ==> IsSignable(p, v, p.outbox[c - 1]))
    ensures LastSeq(from, Between(p, v, from, c)) == c
  {
    if c > from { EndsIn(p, v, from, c); } else { NothingBetween(p, v, from, c); }
  }

  /** Up to the last signable row is as far as the rows of a stretch go. */
  lemma StretchEnds(p: Peer, v: RegistryView, from: nat, end: nat)
    requires IsNumbered(p.outbox) && from <= end <= |p.outbox|
    ensures var c := LastSignable(p, v, from, end);
            Between(p, v, from, end) == Between(p, v, from, c) && LastSeq(from, Between(p, v, from, end)) == c
  {
    var c := LastSignable(p, v, from, end);
    BetweenSplits(p, v, from, c, end);
    NothingBetween(p, v, c, end);
    assert Between(p, v, from, end) == Between(p, v, from, c);
    EndsAt(p, v, from, c);
  }

  /** Where a poll from position `c` leaves the cursor. */
  function NextStop(p: Peer, v: RegistryView, limit: nat, c: nat): (r: nat)
    requires c <= |p.outbox|
    ensures c <= r <= |p.outbox|
  {
    LastSignable(p, v, c, Min(c + Clamp(limit), |p.outbox|))
  }

  // --- polls in a row ---------------------------------------------------------------------------------------

  /** Every signable row from `r`'s cursor on is deliverable at its turn. */
  ghost predicate IsDeliverableFrom(p: Peer, v: RegistryView, r: Pull) {
    r.cursor <= |p.outbox| && AllDeliverable(p, v, r.tables, Between(p, v, r.cursor, |p.outbox|))
  }

  /** The consumer at position `c`. */
  function Upto(p: Peer, v: RegistryView, r: Pull, c: nat): Pull
    requires r.cursor <= c <= |p.outbox|
  {
    Pull(ApplyAll(r.tables, Between(p, v, r.cursor, c)), c)
  }

  lemma DeliverableMiddle(p: Peer, v: RegistryView, t: Tables, a: seq<ChangeRecord>, b: seq<ChangeRecord>,
                          c: seq<ChangeRecord>)
    requires AllDeliverable(p, v, t, a + b + c)
    ensures AllDeliverable(p, v, ApplyAll(t, a), b)
  {
    var all := a + b + c;
    forall i | 0 <= i < |b| ensures IsDeliverableAt(p, v, ApplyAll(t, a), b, i) {
      assert IsDeliverableAt(p, v, t, all, |a| + i);
      assert all[..|a| + i] == a + b[..i];
      ApplyAllConcat(t, a, b[..i]);
    }
  }

  lemma CarriedIsBetween(p: Peer, v: RegistryView, limit: nat, c: nat)
    requires IsNumbered(p.outbox) && c <= |p.outbox|
    ensures Carried(p, v, limit, c) == Between(p, v, c, Min(c + Clamp(limit), |p.outbox|))
  {
    PageIsSlice(p.outbox, c, Clamp(limit));
  }

  lemma PageDeliverable(p: Peer, v: RegistryView, r: Pull, c: nat, end: nat)
    requires IsDeliverableFrom(p, v, r) && r.cursor <= c <= end <= |p.outbox|
    ensures AllDeliverable(p, v, Upto(p, v, r, c).tables, Between(p, v, c, end))
  {
    BetweenSplits(p, v, r.cursor, end, |p.outbox|);
    BetweenSplits(p, v, r.cursor, c, end);
    DeliverableMiddle(p, v, r.tables, Between(p, v, r.cursor, c), Between(p, v, c, end),
                      Between(p, v, end, |p.outbox|));
  }

  /** One poll takes the consumer from position to position. */
  lemma {:induction false} OnePoll(p: Peer, v: RegistryView, limit: nat, r: Pull, c: nat)
    requires IsNumbered(p.outbox) && IsDeliverableFrom(p, v, r) && r.cursor <= c <= |p.outbox|
    ensures Poll(p, v, limit, Upto(p, v, r, c)) == Upto(p, v, r, NextStop(p, v, limit, c))
  {
    var end, next := Min(c + Clamp(limit), |p.outbox|), NextStop(p, v, limit, c);
    NumberedAscends(p.outbox);
    CarriedIsBetween(p, v, limit, c);
    PageDeliverable(p, v, r, c, end);
    PollOutcome(p, v, limit, Upto(p, v, r, c));
    StretchEnds(p, v, c, end);
    BetweenSplits(p, v, r.cursor, c, next);
    ApplyAllConcat(r.tables, Between(p, v, r.cursor, c), Between(p, v, c, next));
  }

  /** Nothing signable in the page at `c`. */
  predicate IsStuck(p: Peer, v: RegistryView, limit: nat, c: nat) {
    c <= |p.outbox| && NoneSignable(p, v, c, Min(c + Clamp(limit), |p.outbox|))
  }

  /** A whole page of rows the producer cannot sign, with one it can sign further on. */
  ghost predicate IsGap(p: Peer, v: RegistryView, limit: nat, g: nat) {
    && g + Clamp(limit) <= |p.outbox| && NoneSignable(p, v, g, g + Clamp(limit))
    && exists j :: g + Clamp(limit) <= j < |p.outbox| && IsSignable(p, v, p.outbox[j])
  }

  ghost predicate HasGap(p: Peer, v: RegistryView, limit: nat, from: nat) {
    exists g :: from <= g && IsGap(p, v, limit, g)
  }

  lemma PollAgain(p: Peer, v: RegistryView, limit: nat, r: Pull, times: nat, mid: Pull)
    requires times > 0 && PollTimes(p, v, limit, r, times - 1) == mid
    ensures PollTimes(p, v, limit, r, times) == Poll(p, v, limit, mid)
  {
  }

  lemma StopMoves(p: Peer, v: RegistryView, limit: nat, c: nat)
    requires c <= |p.outbox|
    ensures NextStop(p, v, limit, c) > c || IsStuck(p, v, limit, c)
    ensures IsStuck(p, v, limit, c) ==> NextStop(p, v, limit, c) == c
    ensures forall g :: IsGap(p, v, limit, g) && c <= g ==> NextStop(p, v, limit, c) <= g
  {
  }

  /** Where `times` polls may have come to: further on than their number or at a page with nothing to sign, on a
      row that was signed, and never beyond a gap. */
  ghost predicate IsReached(p: Peer, v: RegistryView, limit: nat, from: nat, times: nat, c: nat) {
    && from <= c <= |p.outbox| && (IsStuck(p, v, limit, c) || c >= from + times)
    && (c > from ==> IsSignable(p, v, p.outbox[c - 1]))
    && forall g :: IsGap(p, v, limit, g) && from <= g ==> c <= g
  }

  lemma NextReached(p: Peer, v: RegistryView, limit: nat, from: nat, times: nat, c: nat)
    requires IsReached(p, v, limit, from, times, c)
    ensures IsReached(p, v, limit, from, times + 1, NextStop(p, v, limit, c))
  {
    StopMoves(p, v, limit, c);
  }

  lemma NextPoll(p: Peer, v: RegistryView, limit: nat, r: Pull, times: nat, before: nat) returns (c: nat)
    requires IsNumbered(p.outbox) && IsDeliverableFrom(p, v, r)
    requires times > 0 && IsReached(p, v, limit, r.cursor, times - 1, before)
    requires PollTimes(p, v, limit, r, times - 1) == Upto(p, v, r, before)
    ensures IsReached(p, v, limit, r.cursor, times, c)
    ensures PollTimes(p, v, limit, r, times) == Upto(p, v, r, c)
  {
    c := NextStop(p, v, limit, before);
    NextReached(p, v, limit, r.cursor, times - 1, before);
    PollAgain(p, v, limit, r, times, Upto(p, v, r, before));
    OnePoll(p, v, limit, r, before);
  }

  lemma {:induction false} PollsReach(p: Peer, v: RegistryView, limit: nat, r: Pull, times: nat) returns (c: nat)
    requires IsNumbered(p.outbox) && IsDeliverableFrom(p, v, r)
    ensures IsReached(p, v, limit, r.cursor, times, c)
    ensures PollTimes(p, v, limit, r, times) == Upto(p, v, r, c)
  {
    if times == 0 {
      c := r.cursor;
      assert p.outbox[c..c] == [];
    } else {
      var before := PollsReach(p, v, limit, r, times - 1);
      c := NextPoll(p, v, limit, r, times, before);
    }
  }

  /** What has arrived for good: every signable row from `r`'s cursor on, and the number of the last of them. */
  function AllIn(p: Peer, v: RegistryView, r: Pull): Pull
    requires r.cursor <= |p.outbox|
  {
    var rows := Between(p, v, r.cursor, |p.outbox|);
    Pull(ApplyAll(r.tables, rows), LastSeq(r.cursor, rows))
  }

  lemma GapStops(p: Peer, v: RegistryView, limit: nat, from: nat, g: nat)
    requires IsNumbered(p.outbox) && from <= g && IsGap(p, v, limit, g)
    ensures LastSeq(from, Between(p, v, from, |p.outbox|)) > g
  {
    var j :| g + Clamp(limit) <= j < |p.outbox| && IsSignable(p, v, p.outbox[j]);
    StretchEnds(p, v, from, |p.outbox|);
  }

  lemma StuckAtEnd(p: Peer, v: RegistryView, limit: nat, from: nat, c: nat)
    requires IsNumbered(p.outbox) && from <= c && IsStuck(p, v, limit, c) && !HasGap(p, v, limit, from)
    requires c > from ==> IsSignable(p, v, p.outbox[c - 1])
    ensures Between(p, v, from, |p.outbox|) == Between(p, v, from, c)
    ensures LastSeq(from, Between(p, v, from, |p.outbox|)) == c
  {
    forall j | c <= j < |p.outbox| ensures !IsSignable(p, v, p.outbox[j]) {
      if IsSignable(p, v, p.outbox[j]) { assert IsGap(p, v, limit, c); }
    }
    StretchEnds(p, v, from, |p.outbox|);
    BetweenSplits(p, v, from, c, |p.outbox|);
    NothingBetween(p, v, c, |p.outbox|);
  }

  /** Pull convergence: with the registry stable and the signable rows deliverable, as many polls as there are rows
      left bring all of them, exactly when no gap lies ahead. */
  lemma {:induction false} PullConvergesIff(p: Peer, v: RegistryView, limit: nat, r: Pull, times: nat)
    requires IsNumbered(p.outbox) && IsDeliverableFrom(p, v, r)
    requires times >= |p.outbox| - r.cursor
    ensures PollTimes(p, v, limit, r, times) == AllIn(p, v, r) <==> !HasGap(p, v, limit, r.cursor)
  {
    var c := PollsReach(p, v, limit, r, times);
    if HasGap(p, v, limit, r.cursor) {
      var g :| r.cursor <= g && IsGap(p, v, limit, g);
      GapStops(p, v, limit, r.cursor, g);
    } else {
      StuckAtEnd(p, v, limit, r.cursor, c);
    }
  }

  lemma NoGapAmongSigned(p: Peer, v: RegistryView, limit: nat, from: nat, g: nat)
    requires from <= g && forall i :: from <= i < |p.outbox| ==> IsSignable(p, v, p.outbox[i])
    ensures !IsGap(p, v, limit, g)
  {
    if g < |p.outbox| { assert IsSignable(p, v, p.outbox[g]); }
  }

  /** In particular, when every remaining row can be signed: then no gap, and the replica becomes the fold of the
      log. */
  lemma {:induction false} PullConverges(p: Peer, v: RegistryView, limit: nat, r: Pull, times: nat)
    requires IsNumbered(p.outbox) && IsDeliverableFrom(p, v, r)
    requires forall i :: r.cursor <= i < |p.outbox| ==> IsSignable(p, v, p.outbox[i])
    requires times >= |p.outbox| - r.cursor
    ensures PollTimes(p, v, limit, r, times) == Pull(ApplyAll(r.tables, p.outbox[r.cursor..]), |p.outbox|)
  {
    PullConvergesIff(p, v, limit, r, times);
    forall g | r.cursor <= g ensures !IsGap(p, v, limit, g) { NoGapAmongSigned(p, v, limit, r.cursor, g); }
    assert p.outbox[r.cursor..|p.outbox|] == p.outbox[r.cursor..];
    RetainAll(p.outbox[r.cursor..], SignableBy(p, v));
  }
}
