/** The fixed-window rate limiter: pruning changes no answer, and no minute ever sees more than twice a bucket's
    limit. Times are in nanoseconds. */
module RateLimit {
  import opened Domain
  import opened Finite
  import Ids

  type Instant = nat
  type Address = string

  const NANOS: nat := 1_000_000_000
  const WINDOW: nat := 60 * NANOS
  const PRUNE_THRESHOLD: nat := 10_000

  datatype Bucket = Auth | Write {
    function Limit(): (n: nat)
      ensures n > 0
    {
      if Auth? then 10 else 120
    }
  }

  datatype Window = Window(count: nat, resetAt: Instant)

  type Key = (Address, Bucket)
  type Windows = map<Key, Window>

  function Pruned(ws: Windows, now: Instant): Windows {
    map k | k in ws && ws[k].resetAt > now :: ws[k]
  }

  /** The key's window at `now`: the one standing, or a fresh one when there is none or its time is up. */
  function Current(ws: Windows, k: Key, now: Instant): Window {
    if k in ws && ws[k].resetAt > now then ws[k] else Window(0, now + WINDOW)
  }

  function RetryAfter(w: Window, now: Instant): nat {
    var secs := if w.resetAt > now then (w.resetAt - now) / NANOS else 0;
    if secs > 1 then secs else 1
  }

  /** One hit on a table that never forgets: over the limit it is refused, else counted. */
  function Hit(ws: Windows, k: Key, now: Instant): (Windows, Option<nat>) {
    var w := Current(ws, k, now);
    if w.count >= k.1.Limit() then (ws[k := w], Some(RetryAfter(w, now)))
    else (ws[k := w.(count := w.count + 1)], None)
  }

  class RateLimiter {
    var windows: Windows

    constructor ()
      ensures windows == map[]
    {
      windows := map[];
    }

    /** Record a hit: `None` when admitted, else the seconds after which to retry. */
    method Check(ip: Address, bucket: Bucket, now: Instant) returns (r: Option<nat>)
      modifies this
      ensures (windows, r) == Hit(PrunedFirst(old(windows), now), (ip, bucket), now)
    {
      if |windows| > PRUNE_THRESHOLD {
        windows := map k | k in windows && windows[k].resetAt > now :: windows[k];
      }
      if (ip, bucket) !in windows {
        windows := windows[(ip, bucket) := Window(0, now + WINDOW)];
      }
      var w := windows[(ip, bucket)];
      if w.resetAt <= now {
        w := w.(count := 0);
        w := w.(resetAt := now + WINDOW);
        windows := windows[(ip, bucket) := w];
      }
      ghost var pruned := if |old(windows)| > PRUNE_THRESHOLD then Pruned(old(windows), now) else old(windows);
      assert w == Current(pruned, (ip, bucket), now);
      assert windows == pruned[(ip, bucket) := w];
      if w.count >= bucket.Limit() {
        var wait := if w.resetAt >= now then (w.resetAt - now) / NANOS else 0;
        return Some(if wait > 1 then wait else 1);
      }
      w := w.(count := w.count + 1);
      windows := windows[(ip, bucket) := w];
      assert windows == pruned[(ip, bucket) := w];
      return None;
    }
  }

  // --- pruning is invisible ------------------------------------------------------------------------------

  datatype Request = Request(key: Key, now: Instant)

  function PrunedFirst(ws: Windows, now: Instant): Windows {
    if |ws| > PRUNE_THRESHOLD then Pruned(ws, now) else ws
  }

  function Kept(run: seq<Request>): Windows {
    if run == [] then map[] else
      var n := |run| - 1;
      Hit(PrunedFirst(Kept(run[..n]), run[n].now), run[n].key, run[n].now).0
  }

  function Forever(run: seq<Request>): Windows {
    if run == [] then map[] else
      var n := |run| - 1;
      Hit(Forever(run[..n]), run[n].key, run[n].now).0
  }

  function Answer(run: seq<Request>): Option<nat>
    requires run != []
  {
    var n := |run| - 1;
    Hit(PrunedFirst(Kept(run[..n]), run[n].now), run[n].key, run[n].now).1
  }

  function AnswerForever(run: seq<Request>): Option<nat>
    requires run != []
  {
    var n := |run| - 1;
    Hit(Forever(run[..n]), run[n].key, run[n].now).1
  }

  ghost predicate IsTimely(run: seq<Request>) {
    forall i :: 0 < i < |run| ==> ClockMovesOn(run, i)
  }

  predicate ClockMovesOn(run: seq<Request>, i: nat)
    requires 0 < i < |run|
  {
    run[i - 1].now <= run[i].now
  }

  lemma TimelyFront(run: seq<Request>)
    requires run != [] && IsTimely(run)
    ensures IsTimely(run[..|run| - 1])
    ensures |run| > 1 ==> run[|run| - 2].now <= run[|run| - 1].now
  {
    var front := run[..|run| - 1];
    forall i | 0 < i < |front| ensures ClockMovesOn(front, i) { assert ClockMovesOn(run, i); }
    if |run| > 1 { assert ClockMovesOn(run, |run| - 1); }
  }

  /** The pruned table has lost only windows whose time is up. */
  ghost predicate LostOnlyOld(kept: Windows, all: Windows, now: Instant) {
    && (forall k :: k in kept ==> k in all && all[k] == kept[k])
    && (forall k :: k in all && k !in kept ==> all[k].resetAt <= now)
  }

  lemma HitAgrees(kept: Windows, all: Windows, last: Instant, k: Key, now: Instant)
    requires LostOnlyOld(kept, all, last) && last <= now
    ensures Hit(PrunedFirst(kept, now), k, now).1 == Hit(all, k, now).1
    ensures LostOnlyOld(Hit(PrunedFirst(kept, now), k, now).0, Hit(all, k, now).0, now)
  {
  }

  /** Pruning changes no answer: whatever has been forgotten had run out. */
  lemma {:induction false} PruningIsInvisible(run: seq<Request>)
    requires run != [] && IsTimely(run)
    ensures Answer(run) == AnswerForever(run)
    ensures LostOnlyOld(Kept(run), Forever(run), run[|run| - 1].now)
    decreases |run|
  {
    var n := |run| - 1;
    var front := run[..n];
    TimelyFront(run);
    if front != [] {
      PruningIsInvisible(front);
      HitAgrees(Kept(front), Forever(front), front[n - 1].now, run[n].key, run[n].now);
    } else {
      HitAgrees(Kept(front), Forever(front), run[n].now, run[n].key, run[n].now);
    }
  }

  // --- the bound ---------------------------------------------------------------------------------------------

  /** One admitted request of a key: the start of the window it was counted in, and its time. */
  datatype Admission = Admission(start: int, time: Instant)

  function Admissions(run: seq<Request>, k: Key): seq<Admission> {
    if run == [] then []
    else
      var n := |run| - 1;
      var before := Admissions(run[..n], k);
      if run[n].key == k && AnswerForever(run) == None then
        before + [Admission(Current(Forever(run[..n]), k, run[n].now).resetAt - WINDOW, run[n].now)]
      else before
  }

  /** The window standing for a key, against what it has admitted so far. */
  ghost predicate WindowsApart(a: seq<Admission>, limit: nat) {
    && (forall i :: 0 <= i < |a| ==> a[i].start <= a[i].time < a[i].start + WINDOW)
    && (forall i :: 0 <= i && i + limit < |a| ==> a[i + limit].start >= a[i].start + WINDOW)
  }

  ghost predicate Accounts(w: Window, a: seq<Admission>, limit: nat) {
    && w.count <= limit && w.count <= |a| && w.resetAt >= WINDOW
    && (forall i :: |a| - w.count <= i < |a| ==> a[i].start == w.resetAt - WINDOW)
    && (forall i :: 0 <= i < |a| - w.count ==> a[i].start + WINDOW <= w.resetAt - WINDOW)
  }

  /** The table and the admissions of one key, at some time. */
  ghost predicate Tallies(all: Windows, k: Key, a: seq<Admission>, now: Instant) {
    && WindowsApart(a, k.1.Limit())
    && (k in all ==> Accounts(all[k], a, k.1.Limit()) && all[k].resetAt <= now + WINDOW)
    && (k !in all ==> a == [])
  }

  lemma HitTallies(all: Windows, k: Key, a: seq<Admission>, last: Instant, now: Instant)
    requires Tallies(all, k, a, last) && last <= now
    ensures var hit := Hit(all, k, now);
            var admitted := Admission(Current(all, k, now).resetAt - WINDOW, now);
            Tallies(hit.0, k, if hit.1.None? then a + [admitted] else a, now)
  {
  }

  lemma OtherKeyTallies(all: Windows, k: Key, a: seq<Admission>, last: Instant, other: Key, w: Window, now: Instant)
    requires Tallies(all, k, a, last) && last <= now && other != k
    ensures Tallies(all[other := w], k, a, now)
  {
  }

  lemma StartTallies(k: Key, now: Instant)
    ensures Tallies(map[], k, [], now)
  {
  }

  /** The table of one run, for one key. */
  lemma {:induction false} KeyAccounts(run: seq<Request>, k: Key)
    requires run != [] && IsTimely(run)
    ensures Tallies(Forever(run), k, Admissions(run, k), run[|run| - 1].now)
    decreases |run|
  {
    var n := |run| - 1;
    var front, now := run[..n], run[n].now;
    var all, a := Forever(front), Admissions(front, k);
    TimelyFront(run);
    var last := now;
    if front != [] {
      KeyAccounts(front, k);
      last := front[n - 1].now;
    } else {
      StartTallies(k, now);
    }
    if run[n].key == k {
      HitTallies(all, k, a, last, now);
    } else {
      OtherKeyTallies(all, k, a, last, run[n].key, Hit(all, run[n].key, now).0[run[n].key], now);
    }
  }

  ghost predicate InOrder(a: seq<Admission>, now: Instant) {
    && (forall i, j :: 0 <= i < j < |a| ==> a[i].time <= a[j].time)
    && (forall i :: 0 <= i < |a| ==> a[i].time <= now)
  }

  lemma {:induction false} AdmissionsInOrder(run: seq<Request>, k: Key)
    requires run != [] && IsTimely(run)
    ensures InOrder(Admissions(run, k), run[|run| - 1].now)
    decreases |run|
  {
    var n := |run| - 1;
    TimelyFront(run);
    if n > 0 { AdmissionsInOrder(run[..n], k); }
    assert InOrder(Admissions(run[..n], k), run[n].now);
  }

  /** Between an admission and the one twice the limit later lies more than a minute. */
  lemma TwiceTheLimitLater(run: seq<Request>, k: Key, i: nat)
    requires IsTimely(run) && i + 2 * k.1.Limit() < |Admissions(run, k)|
    ensures Admissions(run, k)[i + 2 * k.1.Limit()].time >= Admissions(run, k)[i].time + WINDOW
  {
    var a, limit := Admissions(run, k), k.1.Limit();
    assert run != [];
    KeyAccounts(run, k);
    assert a[i + limit].start >= a[i].start + WINDOW;
    assert a[i + limit + limit].start >= a[i + limit].start + WINDOW;
  }

  /** The admissions of a key that fall in the minute from `t`. */
  function InMinute(a: seq<Admission>, t: Instant): set<nat> {
    set i | 0 <= i < |a| && t <= a[i].time < t + WINDOW
  }

  function Range(lo: nat, n: nat): (r: set<nat>)
    ensures |r| == n && forall i :: i in r <==> lo <= i < lo + n
  {
    if n == 0 then {} else Range(lo, n - 1) + {lo + n - 1}
  }

  /** In any half-open minute, wherever it starts, an address gets at most twice its bucket's limit through. */
  lemma AnyMinuteIsBounded(run: seq<Request>, k: Key, t: Instant)
    requires IsTimely(run)
    ensures |InMinute(Admissions(run, k), t)| <= 2 * k.1.Limit()
  {
    var a, limit := Admissions(run, k), k.1.Limit();
    var s := InMinute(a, t);
    if s != {} {
      var first := Ids.Least(s);
      assert a != [] && run != [];
      AdmissionsInOrder(run, k);
      forall i | i in s ensures first <= i < first + 2 * limit {
        if i >= first + 2 * limit {
          TwiceTheLimitLater(run, k, first);
        }
      }
      SubsetSize(s, Range(first, 2 * limit));
    }
  }

  /** And within one window no more than the limit. */
  lemma WindowIsBounded(run: seq<Request>, k: Key, i: nat)
    requires IsTimely(run) && i + k.1.Limit() < |Admissions(run, k)|
    ensures Admissions(run, k)[i + k.1.Limit()].start != Admissions(run, k)[i].start
  {
    KeyAccounts(run, k);
    assert Admissions(run, k)[i + k.1.Limit()].start >= Admissions(run, k)[i].start + WINDOW;
  }
  // --- who is let through ----------------------------------------------------------------------------------------

  const MINUTE: nat := 60_000_000_000

  function LimitOf(k: Key): nat {
    if k.1.Auth? then 10 else 120
  }

  /** The admissions counted in the window of the last one. */
  function InLastWindow(a: seq<Admission>): set<nat> {
    set i | 0 <= i < |a| && a[i].start == a[|a| - 1].start
  }

  /** A window is open at `now` when one was opened less than a minute before. */
  predicate IsOpen(a: seq<Admission>, now: Instant) {
    a != [] && now < a[|a| - 1].start + MINUTE
  }

  /** The table's window of a key that has been seen is that of its last admission, and counts what is in it. */
  ghost predicate IsCounted(all: Windows, k: Key, a: seq<Admission>) {
    && (k in all <==> a != [])
    && (k in all ==> all[k].resetAt == a[|a| - 1].start + MINUTE && all[k].count == |InLastWindow(a)|)
  }

  lemma NewWindow(a: seq<Admission>, admitted: Admission)
    requires forall i :: 0 <= i < |a| ==> a[i].start != admitted.start
    ensures |InLastWindow(a + [admitted])| == 1
  {
    assert InLastWindow(a + [admitted]) == {|a|};
  }

  lemma SameWindow(a: seq<Admission>, admitted: Admission)
    requires a != [] && a[|a| - 1].start == admitted.start
    ensures |InLastWindow(a + [admitted])| == |InLastWindow(a)| + 1
  {
    assert InLastWindow(a + [admitted]) == InLastWindow(a) + {|a|};
  }

  lemma HitIsCounted(all: Windows, k: Key, a: seq<Admission>, last: Instant, now: Instant)
    requires Tallies(all, k, a, last) && IsCounted(all, k, a) && last <= now
    ensures var hit := Hit(all, k, now);
            var admitted := Admission(if IsOpen(a, now) then a[|a| - 1].start else now, now);
            && (hit.1.None? <==> !IsOpen(a, now) || |InLastWindow(a)| < LimitOf(k))
            && IsCounted(hit.0, k, if hit.1.None? then a + [admitted] else a)
            && Current(all, k, now).resetAt - WINDOW == admitted.start
            && (hit.1.Some? ==> hit.1.value == RetryAfter(Window(0, a[|a| - 1].start + MINUTE), now))
  {
    var admitted := Admission(if IsOpen(a, now) then a[|a| - 1].start else now, now);
    if IsOpen(a, now) {
      SameWindow(a, admitted);
    } else {
      forall i | 0 <= i < |a| ensures a[i].start != now { assert a[i].start <= a[|a| - 1].start; }
      NewWindow(a, admitted);
    }
  }
  lemma {:induction false} KeyIsCounted(run: seq<Request>, k: Key)
    requires IsTimely(run)
    ensures IsCounted(Forever(run), k, Admissions(run, k))
    decreases |run|
  {
    if run != [] {
      var n := |run| - 1;
      var front := run[..n];
      TimelyFront(run);
      KeyIsCounted(front, k);
      if run[n].key == k {
        LastTallies(run, k);
        HitIsCounted(Forever(front), k, Admissions(front, k), LastTime(run), run[n].now);
      }
    }
  }

  /** The time of the request before the last, or of the last when it is the only one. */
  function LastTime(run: seq<Request>): Instant
    requires run != []
  {
    if |run| > 1 then run[|run| - 2].now else run[0].now
  }

  lemma LastTallies(run: seq<Request>, k: Key)
    requires run != [] && IsTimely(run)
    ensures Tallies(Forever(run[..|run| - 1]), k, Admissions(run[..|run| - 1], k), LastTime(run))
    ensures LastTime(run) <= run[|run| - 1].now
  {
    TimelyFront(run);
    if |run| > 1 { KeyAccounts(run[..|run| - 1], k); } else { StartTallies(k, LastTime(run)); }
  }

  /** Exactly who is let through: a request is admitted if and only if its key's last window opened a minute ago or
      earlier, or has admitted fewer than 10 sign-ins or 120 writes; and then it counts in that window, or opens one. */
  lemma AdmittedIff(run: seq<Request>)
    requires run != [] && IsTimely(run)
    ensures var n := |run| - 1; var k, now := run[n].key, run[n].now; var a := Admissions(run[..n], k);
            && (Answer(run).None? <==> !IsOpen(a, now) || |InLastWindow(a)| < if k.1.Auth? then 10 else 120)
            && Admissions(run, k) == if Answer(run).None? then
                 a + [Admission(if IsOpen(a, now) then a[|a| - 1].start else now, now)] else a
  {
    var n := |run| - 1;
    var k := run[n].key;
    TimelyFront(run);
    KeyIsCounted(run[..n], k);
    LastTallies(run, k);
    HitIsCounted(Forever(run[..n]), k, Admissions(run[..n], k), LastTime(run), run[n].now);
    PruningIsInvisible(run);
  }

  /** What is left of the last window. */
  function TimeLeft(a: seq<Admission>, now: Instant): int {
    if a == [] then 0 else a[|a| - 1].start + MINUTE - now
  }

  /** A refused one is told the whole seconds left of the window, at least one and at most sixty. */
  lemma WaitIs(run: seq<Request>)
    requires run != [] && IsTimely(run) && Answer(run).Some?
    ensures var n := |run| - 1; var a := Admissions(run[..n], run[n].key);
            && IsOpen(a, run[n].now) && 1 <= Answer(run).value <= 60
            && var left := TimeLeft(a, run[n].now);
               Answer(run).value == if left < 2_000_000_000 then 1 else left / 1_000_000_000
  {
    var n := |run| - 1;
    var k := run[n].key;
    AdmittedIff(run);
    TimelyFront(run);
    KeyIsCounted(run[..n], k);
    LastTallies(run, k);
    HitIsCounted(Forever(run[..n]), k, Admissions(run[..n], k), LastTime(run), run[n].now);
    PruningIsInvisible(run);
  }

  lemma AgainIff(run: seq<Request>, later: Instant)
    requires run != [] && IsTimely(run) && Answer(run).Some? && later >= run[|run| - 1].now
    ensures var k := run[|run| - 1].key;
            Answer(run + [Request(k, later)]).None? <==> TimeLeft(Admissions(run[..|run| - 1], k), later) <= 0
  {
    var n := |run| - 1;
    var k := run[n].key;
    var again := run + [Request(k, later)];
    assert again[..|run|] == run;
    forall i | 0 < i < |again| ensures ClockMovesOn(again, i) { if i < |run| { assert ClockMovesOn(run, i); } }
    AdmittedIff(run);
    AdmittedIff(again);
  }

  /** Coming back after just that long is enough if and only if the window had a whole number of seconds left, or less
      than one; a second more always is. */
  lemma RetryIff(run: seq<Request>, later: Instant)
    requires run != [] && IsTimely(run) && Answer(run).Some? && later >= run[|run| - 1].now
    ensures var n := |run| - 1; var k, now := run[n].key, run[n].now;
            var left := TimeLeft(Admissions(run[..n], k), now);
            var again, wait := run + [Request(k, later)], Answer(run).value * 1_000_000_000;
            && (later == now + wait ==>
                  (Answer(again).None? <==> left % 1_000_000_000 == 0 || left < 1_000_000_000))
            && (later >= now + wait + 1_000_000_000 ==> Answer(again).None?)
  {
    AgainIff(run, later);
    WaitIs(run);
  }
}
