/** Refusing replays of a signed command: a freshness window and a nonce log that forgets what has expired. For each
    nonce on its own, the pruned log answers as one that never forgets would, except in one exact case. */
module ReplayGuard {
  import opened Domain

  const MAX_COMMAND_SKEW_SECS: int := 120

  type NonceKey = (NodeId, string)

  datatype Refusal = OutsideWindow | Duplicate

  /** One submission: the node and nonce, when the command says it was issued, and the owner's clock. The
      signature covers the node, the nonce and the time of issue. */
  datatype Attempt = Attempt(key: NonceKey, issuedAt: Timestamp, now: Timestamp)

  predicate IsFresh(a: Attempt) {
    a.now - a.issuedAt <= MAX_COMMAND_SKEW_SECS && a.issuedAt - a.now <= MAX_COMMAND_SKEW_SECS
  }

  function ExpiryOf(now: Timestamp): Timestamp { now + 2 * MAX_COMMAND_SKEW_SECS }

  function Live(seen: map<NonceKey, Timestamp>, now: Timestamp): map<NonceKey, Timestamp> {
    map k | k in seen && seen[k] > now :: seen[k]
  }

  /** The decision and the log after it: a stale command does not touch the log, any other is recorded. */
  function Decide(seen: map<NonceKey, Timestamp>, a: Attempt): (map<NonceKey, Timestamp>, Option<Refusal>) {
    if !IsFresh(a) then (seen, Some(OutsideWindow))
    else (Live(seen, a.now)[a.key := ExpiryOf(a.now)],
          if a.key in seen && seen[a.key] > a.now then Some(Duplicate) else None)
  }

  class InMemoryNonceLog {
    var seen: map<NonceKey, Timestamp>

    constructor ()
      ensures seen == map[]
    {
      seen := map[];
    }

    /** Drop what has expired, then record; true when the pair was not standing. */
    method Remember(node: NodeId, nonce: string, now: Timestamp, expiryAt: Timestamp) returns (isNew: bool)
      modifies this
      ensures seen == Live(old(seen), now)[(node, nonce) := expiryAt]
      ensures isNew <==> (node, nonce) !in Live(old(seen), now)
    {
      seen := map k | k in seen && seen[k] > now :: seen[k];
      isNew := (node, nonce) !in seen;
      seen := seen[(node, nonce) := expiryAt];
    }
  }

  class Guard {
    const log: InMemoryNonceLog

    constructor (log: InMemoryNonceLog)
      ensures this.log == log
    {
      this.log := log;
    }

    method Admit(node: NodeId, nonce: string, issuedAt: Timestamp, now: Timestamp) returns (r: Option<Refusal>)
      modifies log
      ensures (log.seen, r) == Decide(old(log.seen), Attempt((node, nonce), issuedAt, now))
    {
      var skew := if now >= issuedAt then now - issuedAt else issuedAt - now;
      if skew > MAX_COMMAND_SKEW_SECS {
        return Some(OutsideWindow);
      }
      var expiryAt := now + 2 * MAX_COMMAND_SKEW_SECS;
      var isNew := log.Remember(node, nonce, now, expiryAt);
      if isNew {
        return None;
      }
      return Some(Duplicate);
    }
  }

  // --- against a log that never forgets ---------------------------------------------------------------

  function DecideForever(used: set<NonceKey>, a: Attempt): (set<NonceKey>, Option<Refusal>) {
    if !IsFresh(a) then (used, Some(OutsideWindow))
    else (used + {a.key}, if a.key in used then Some(Duplicate) else None)
  }

  function SeenAfter(run: seq<Attempt>): map<NonceKey, Timestamp> {
    if run == [] then map[] else Decide(SeenAfter(run[..|run| - 1]), run[|run| - 1]).0
  }

  function UsedAfter(run: seq<Attempt>): set<NonceKey> {
    if run == [] then {} else DecideForever(UsedAfter(run[..|run| - 1]), run[|run| - 1]).0
  }

  /** The last decision of a run, by either log. */
  function Verdict(run: seq<Attempt>): Option<Refusal>
    requires run != []
  {
    Decide(SeenAfter(run[..|run| - 1]), run[|run| - 1]).1
  }

  function VerdictForever(run: seq<Attempt>): Option<Refusal>
    requires run != []
  {
    DecideForever(UsedAfter(run[..|run| - 1]), run[|run| - 1]).1
  }

  ghost predicate IsTimely(run: seq<Attempt>) {
    forall i :: 0 < i < |run| ==> run[i - 1].now <= run[i].now
  }

  lemma TimelyFront(run: seq<Attempt>)
    requires run != [] && IsTimely(run)
    ensures IsTimely(run[..|run| - 1])
    ensures |run| > 1 ==> run[|run| - 2].now <= run[|run| - 1].now
  {
  }

  /** When a nonce was last offered inside the window, which is when it was last recorded. */
  function LastFresh(run: seq<Attempt>, k: NonceKey): Option<Timestamp> {
    if run == [] then None
    else
      var a := run[|run| - 1];
      if a.key == k && IsFresh(a) then Some(a.now) else LastFresh(run[..|run| - 1], k)
  }

  /** What the pruned log still knows of one nonce: its last fresh attempt, until that one's expiry. */
  ghost predicate Knows(run: seq<Attempt>, k: NonceKey)
    requires run != []
  {
    match LastFresh(run, k)
    case None => k !in SeenAfter(run) && k !in UsedAfter(run)
    case Some(t) =>
      && k in UsedAfter(run) && t <= run[|run| - 1].now
      && (if k in SeenAfter(run) then SeenAfter(run)[k] == ExpiryOf(t) else ExpiryOf(t) <= run[|run| - 1].now)
  }

  lemma {:induction false} LogKnows(run: seq<Attempt>, k: NonceKey)
    requires run != [] && IsTimely(run)
    ensures Knows(run, k)
    decreases |run|
  {
    var front := run[..|run| - 1];
    TimelyFront(run);
    if front != [] { LogKnows(front, k); }
    var a := run[|run| - 1];
    assert UsedAfter(run) == if IsFresh(a) then UsedAfter(front) + {a.key} else UsedAfter(front);
    if a.key == k && IsFresh(a) {
      assert a.key in UsedAfter(run);
    }
  }

  /** With a clock that does not go back, an attempt is decided by the last fresh attempt of its own nonce alone,
      whatever else the log has seen. */
  lemma DecidedByLastFresh(run: seq<Attempt>)
    requires run != [] && IsTimely(run)
    ensures var a, last := run[|run| - 1], LastFresh(run[..|run| - 1], run[|run| - 1].key);
            var isFar := a.now > a.issuedAt + 120 || a.issuedAt > a.now + 120;
            && Verdict(run) == (if isFar then Some(OutsideWindow)
                                else if last.Some? && a.now < last.value + 240 then Some(Duplicate) else None)
            && VerdictForever(run) == (if isFar then Some(OutsideWindow)
                                       else if last.Some? then Some(Duplicate) else None)
  {
    var front := run[..|run| - 1];
    TimelyFront(run);
    if front != [] { LogKnows(front, run[|run| - 1].key); }
  }

  /** Every attempt with this nonce carries the time of issue its signature covers; other nonces are free. */
  ghost predicate IssuedOnce(run: seq<Attempt>, k: NonceKey, issued: Timestamp) {
    forall i :: 0 <= i < |run| && run[i].key == k ==> run[i].issuedAt == issued
  }

  /** Some attempt with this nonce has been inside the window. */
  ghost predicate WasOffered(run: seq<Attempt>, k: NonceKey) {
    exists i :: 0 <= i < |run| && run[i].key == k && IsFresh(run[i])
  }

  /** Every attempt with this nonce inside the window was made a full window ahead of its time of issue. */
  ghost predicate OnlyAheadByAll(run: seq<Attempt>, k: NonceKey) {
    forall i :: 0 <= i < |run| && run[i].key == k && IsFresh(run[i]) ==>
      run[i].issuedAt == run[i].now + MAX_COMMAND_SKEW_SECS
  }

  lemma {:induction false} LastFreshIs(run: seq<Attempt>, k: NonceKey, issued: Timestamp)
    requires IsTimely(run) && IssuedOnce(run, k, issued)
    ensures LastFresh(run, k).Some? <==> WasOffered(run, k)
    ensures LastFresh(run, k).Some? ==>
      && LastFresh(run, k).value <= run[|run| - 1].now
      && issued <= LastFresh(run, k).value + MAX_COMMAND_SKEW_SECS
      && (issued == LastFresh(run, k).value + MAX_COMMAND_SKEW_SECS <==> OnlyAheadByAll(run, k))
    decreases |run|
  {
    if run != [] {
      var n := |run| - 1;
      var front, a := run[..n], run[n];
      TimelyFront(run);
      LastFreshIs(front, k, issued);
      if a.key == k && IsFresh(a) {
        LastAttemptIs(run, issued);
      } else {
        SameWithout(run, k);
      }
    }
  }

  lemma SameWithout(run: seq<Attempt>, k: NonceKey)
    requires run != [] && !(run[|run| - 1].key == k && IsFresh(run[|run| - 1]))
    ensures WasOffered(run, k) <==> WasOffered(run[..|run| - 1], k)
    ensures OnlyAheadByAll(run, k) <==> OnlyAheadByAll(run[..|run| - 1], k)
  {
    var front := run[..|run| - 1];
    if WasOffered(run, k) {
      var i :| 0 <= i < |run| && run[i].key == k && IsFresh(run[i]);
      assert front[i] == run[i];
    }
    if WasOffered(front, k) {
      var i :| 0 <= i < |front| && front[i].key == k && IsFresh(front[i]);
      assert run[i] == front[i];
    }
    if OnlyAheadByAll(run, k) { assert forall i | 0 <= i < |front| :: front[i] == run[i]; }
  }

  /** The last attempt is a full window ahead only if all before it were: the clock has not gone back. */
  lemma LastAttemptIs(run: seq<Attempt>, issued: Timestamp)
    requires run != [] && IsTimely(run) && IsFresh(run[|run| - 1]) && IssuedOnce(run, run[|run| - 1].key, issued)
    ensures issued == run[|run| - 1].now + MAX_COMMAND_SKEW_SECS <==> OnlyAheadByAll(run, run[|run| - 1].key)
  {
    var n := |run| - 1;
    if issued == run[n].now + MAX_COMMAND_SKEW_SECS {
      forall i | 0 <= i < |run| && run[i].key == run[n].key && IsFresh(run[i])
        ensures run[i].issuedAt == run[i].now + MAX_COMMAND_SKEW_SECS
      {
        ClockMovedOn(run, i, n);
      }
    }
  }

  lemma {:induction false} ClockMovedOn(run: seq<Attempt>, i: nat, j: nat)
    requires IsTimely(run) && i <= j < |run|
    ensures run[i].now <= run[j].now
    decreases j
  {
    if i < j { ClockMovedOn(run, i, j - 1); }
  }

  /** The one case in which forgetting shows: every earlier fresh attempt of the nonce was a full window ahead, and
      this one comes a full window behind, so nothing came between. */
  ghost predicate ComesBackAtExpiry(run: seq<Attempt>, issued: Timestamp)
    requires run != []
  {
    var before, a := run[..|run| - 1], run[|run| - 1];
    WasOffered(before, a.key) && OnlyAheadByAll(before, a.key) && a.now == issued + MAX_COMMAND_SKEW_SECS
  }

  /** Pruning changes a decision in exactly that case, for each nonce on its own: what other nonces do, and how far
      ahead they are issued, does not matter. */
  lemma PrunedLogDecidesAlike(run: seq<Attempt>, issued: Timestamp)
    requires run != [] && IsTimely(run) && IssuedOnce(run, run[|run| - 1].key, issued)
    ensures Verdict(run) == VerdictForever(run) <==> !ComesBackAtExpiry(run, issued)
    ensures ComesBackAtExpiry(run, issued) ==> Verdict(run) == None
  {
    var k := run[|run| - 1].key;
    TimelyFront(run);
    DecidedByLastFresh(run);
    LastFreshIs(run[..|run| - 1], k, issued);
  }

  lemma PrefixFacts(run: seq<Attempt>, n: nat, k: NonceKey, issued: Timestamp)
    requires n <= |run| && IsTimely(run) && IssuedOnce(run, k, issued)
    ensures IsTimely(run[..n]) && IssuedOnce(run[..n], k, issued)
  {
  }

  /** A nonce once admitted is admitted again if and only if all its fresh attempts so far were exactly 120 seconds
      ahead and it comes back at the instant its record expires. A retry in between records it anew and closes the
      gap. */
  lemma AdmittedAgainIff(run: seq<Attempt>, issued: Timestamp, i: nat, j: nat)
    requires IsTimely(run) && i < j < |run| && run[i].key == run[j].key && IssuedOnce(run, run[i].key, issued)
    requires Verdict(run[..i + 1]) == None
    ensures Verdict(run[..j + 1]) == None <==> ComesBackAtExpiry(run[..j + 1], issued)
  {
    var k, upto := run[i].key, run[..j + 1];
    PrefixFacts(run, j + 1, k, issued);
    PrefixFacts(run, i + 1, k, issued);
    assert run[..i + 1][i] == run[i];
    DecidedByLastFresh(run[..i + 1]);
    PrunedLogDecidesAlike(upto, issued);
    DecidedByLastFresh(upto);
    assert upto[..j] == run[..j] && run[..j][i] == run[i];
    assert WasOffered(run[..j], k);
    PrefixFacts(run, j, k, issued);
    LastFreshIs(run[..j], k, issued);
  }

  /** So a command first seen less than 120 seconds ahead of the owner's clock is admitted at most once, whatever
      other commands are in the run. */
  lemma AdmittedAtMostOnce(run: seq<Attempt>, issued: Timestamp, i: nat, j: nat)
    requires IsTimely(run) && i < j < |run| && run[i].key == run[j].key && IssuedOnce(run, run[i].key, issued)
    requires issued < run[i].now + 120
    ensures !(Verdict(run[..i + 1]) == None && Verdict(run[..j + 1]) == None)
  {
    if Verdict(run[..i + 1]) == None {
      AdmittedAgainIff(run, issued, i, j);
      PrefixFacts(run, i + 1, run[i].key, issued);
      assert run[..i + 1][i] == run[i];
      DecidedByLastFresh(run[..i + 1]);
      assert run[..j + 1][..j] == run[..j] && run[..j][i] == run[i];
    }
  }

  /** The gap is real: one command, 120 seconds ahead, admitted at `t` and again 240 seconds later. A retry in
      between would have closed it. */
  lemma ReplayedAtExpiry(k: NonceKey, t: Timestamp, between: Timestamp)
    requires t < between < t + 240
    ensures var at := (now: Timestamp) => Attempt(k, t + 120, now);
            && Verdict([at(t)]) == None && Verdict([at(t), at(t + 240)]) == None
            && Verdict([at(t), at(between), at(t + 240)]) == Some(Duplicate)
  {
    var at := (now: Timestamp) => Attempt(k, t + 120, now);
    var one, two := [at(t)], [at(t), at(t + 240)];
    var mid, three := [at(t), at(between)], [at(t), at(between), at(t + 240)];
    assert one[..0] == [] && two[..1] == one && mid[..1] == one && three[..2] == mid;
    DecidedByLastFresh(one);
    DecidedByLastFresh(two);
    DecidedByLastFresh(three);
    assert LastFresh([], k) == None && LastFresh(one, k) == Some(t) && LastFresh(mid, k) == Some(between);
  }
}
