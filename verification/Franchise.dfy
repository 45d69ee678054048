/** The franchise: eligibility, the rate cap, and what any run of roll changes keeps. */
module Franchise {
  import opened Domain
  import opened Finite

  // --- layer 1: earned -----------------------------------------------------------------------------

  datatype Unmet =
    | Barred
    | AccountTooYoung(needDays: int, haveDays: int)
    | MembershipTooShort(needDays: int, haveDays: int)
    | InsufficientContribution(need: int, have: int)
    | Sanctioned

  /** Every criterion met, and not barred. */
  predicate IsEligible(user: User, m: Membership, c: FranchiseCriteria, now: Timestamp) {
    && !user.isFranchiseBarred
    && DaysSince(now, user.createdAt) >= c.minAccountAgeDays
    && DaysSince(now, m.joinedAt) >= c.minMembershipDays
    && m.contribution >= c.minContribution
    && !m.isSanctioned
  }

  /** The list of what stands in the way: empty exactly when the member qualifies. A barred account gets the
      bar as its only reason. */
  method EvaluateEligibility(user: User, m: Membership, c: FranchiseCriteria, now: Timestamp)
    returns (unmet: seq<Unmet>)
    ensures unmet == [] <==> IsEligible(user, m, c, now)
    ensures user.isFranchiseBarred ==> unmet == [Barred]
    ensures !user.isFranchiseBarred ==>
      && Barred !in unmet
      && ((exists need, have :: AccountTooYoung(need, have) in unmet)
          <==> DaysSince(now, user.createdAt) < c.minAccountAgeDays)
      && ((exists need, have :: MembershipTooShort(need, have) in unmet)
          <==> DaysSince(now, m.joinedAt) < c.minMembershipDays)
      && ((exists need, have :: InsufficientContribution(need, have) in unmet) <==> m.contribution < c.minContribution)
      && (Sanctioned in unmet <==> m.isSanctioned)
  {
    if user.isFranchiseBarred {
      return [Barred];
    }
    unmet := [];
    var accountAge := DaysSince(now, user.createdAt);
    if accountAge < c.minAccountAgeDays {
      unmet := unmet + [AccountTooYoung(c.minAccountAgeDays, accountAge)];
      assert AccountTooYoung(c.minAccountAgeDays, accountAge) in unmet;
    }
    var memberAge := DaysSince(now, m.joinedAt);
    if memberAge < c.minMembershipDays {
      unmet := unmet + [MembershipTooShort(c.minMembershipDays, memberAge)];
      assert MembershipTooShort(c.minMembershipDays, memberAge) in unmet;
    }
    if m.contribution < c.minContribution {
      unmet := unmet + [InsufficientContribution(c.minContribution, m.contribution)];
      assert InsufficientContribution(c.minContribution, m.contribution) in unmet;
    }
    if m.isSanctioned {
      unmet := unmet + [Sanctioned];
    }
  }

  // --- layer 2: the rate cap -------------------------------------------------------------------------

  const FLOOR: nat := 5
  const U64_MAX: nat := 0xFFFF_FFFF_FFFF_FFFF
  const RATE_CAP_WINDOW_DAYS: int := 30

  function Saturated(n: nat): nat { if n <= U64_MAX then n else U64_MAX }

  function Cap(citizens: nat): nat {
    var tenPercent := Saturated(Saturated(citizens * 10) + 99) / 100;
    if tenPercent >= FLOOR then tenPercent else FLOOR
  }

  function EnfranchisementSlots(citizens: nat, admittedLast30d: nat): nat {
    if Cap(citizens) >= admittedLast30d then Cap(citizens) - admittedLast30d else 0
  }

  /** ⌈n / 9⌉, or the floor: what the recomputed cap really allows in a window that opens on `n` citizens. */
  function WindowBound(n: nat): nat {
    var ninth := (n + 8) / 9;
    if ninth >= FLOOR then ninth else FLOOR
  }

  /** With `n` citizens before a window and `a` admitted in it, a slot is open exactly while `a` is below the
      bound (as long as the roll is small enough not to saturate). */
  lemma SlotOpenIff(n: nat, a: nat)
    requires (n + a) * 10 + 99 <= U64_MAX
    ensures EnfranchisementSlots(n + a, a) > 0 <==> a < WindowBound(n)
  {
  }

  /** An open slot never takes the window past the bound, saturation or not, even when the cap's own window
      counts more admissions than ours. */
  lemma SlotKeepsBound(n: nat, a: nat, admitted: nat)
    requires admitted >= a && EnfranchisementSlots(n + a, admitted) > 0
    ensures a + 1 <= WindowBound(n)
  {
  }

  /** The cap is not 10% of the roll the window opened on: it is recomputed on the growing roll, so a server of
      100 admits 12 in a window before it closes. */
  lemma TwelveOfAHundred(a: nat)
    ensures EnfranchisementSlots(100 + a, a) > 0 <==> a < 12
    ensures Cap(100) == 10
  {
  }

  // --- the roll --------------------------------------------------------------------------------------

  type Key = (UserId, ServerId)
  type Roll = map<Key, Membership>

  function Citizens(roll: Roll, s: ServerId): set<Key> {
    set k | k in roll && roll[k].serverId == s && roll[k].IsCitizen()
  }

  function CitizenCount(roll: Roll, s: ServerId): nat { |Citizens(roll, s)| }

  function AdmittedFrom(roll: Roll, s: ServerId, since: Timestamp): set<Key> {
    set k | k in roll && roll[k].serverId == s && roll[k].enfranchisedAt.Some? && roll[k].enfranchisedAt.value >= since
  }

  function AdmittedSince(roll: Roll, s: ServerId, since: Timestamp): nat { |AdmittedFrom(roll, s, since)| }

  function AdmittedBefore(roll: Roll, s: ServerId, w: Timestamp): set<Key> {
    set k | k in roll && roll[k].serverId == s && roll[k].enfranchisedAt.Some? && roll[k].enfranchisedAt.value < w
  }

  datatype Phase = Seed | Chartering | Sovereign

  function PhaseOf(citizens: nat): Phase {
    if citizens >= 25 then Sovereign else if citizens >= 10 then Chartering else Seed
  }

  function Rank(p: Phase): nat { match p case Seed => 0 case Chartering => 1 case Sovereign => 2 }

  /** A membership row whose franchise is untouched: same member, same tier, same enfranchisement time. */
  predicate FranchiseKept(m: Membership, m': Membership) {
    && m'.userId == m.userId && m'.serverId == m.serverId && m'.joinedAt == m.joinedAt
    && m'.tier == m.tier && m'.enfranchisedAt == m.enfranchisedAt
  }

  /** Every way the services change the roll. */
  datatype RollChange =
    | Kept                                          // nothing about anyone's franchise
    | Join(key: Key)                                // a new ordinary member
    | Found(key: Key)                               // the founder of a new server
    | Admit(key: Key, user: User, criteria: FranchiseCriteria)

  function Enfranchised(m: Membership, now: Timestamp): Membership {
    m.(tier := Citizen, enfranchisedAt := Some(now))
  }

  predicate SlotOpen(roll: Roll, s: ServerId, now: Timestamp) {
    EnfranchisementSlots(CitizenCount(roll, s), AdmittedSince(roll, s, PlusDays(now, -RATE_CAP_WINDOW_DAYS))) > 0
  }

  ghost predicate Changes(roll: Roll, change: RollChange, now: Timestamp, roll': Roll) {
    match change
    case Kept => roll'.Keys == roll.Keys && forall k :: k in roll ==> FranchiseKept(roll[k], roll'[k])
    case Join(k) => k !in roll && roll' == roll[k := Joined(k.0, k.1, now)]
    case Found(k) =>
      && (forall other :: other in roll ==> roll[other].serverId != k.1)
      && roll' == roll[k := Enfranchised(Joined(k.0, k.1, now), now)]
    case Admit(k, user, criteria) =>
      && k in roll && !roll[k].IsCitizen()
      && IsEligible(user, roll[k], criteria, now)
      && SlotOpen(roll, k.1, now)
      && roll' == roll[k := Enfranchised(roll[k], now)]
  }

  /** Rows sit at their own key; citizens are exactly those with an enfranchisement time, none in the future. */
  ghost predicate RollOk(roll: Roll, now: Timestamp) {
    forall k :: k in roll ==>
      && roll[k].userId == k.0 && roll[k].serverId == k.1
      && (roll[k].IsCitizen() <==> roll[k].enfranchisedAt.Some?)
      && (roll[k].IsCitizen() ==> roll[k].enfranchisedAt.value <= now)
  }

  lemma ChangeKeepsOk(roll: Roll, change: RollChange, now: Timestamp, roll': Roll)
    requires RollOk(roll, now) && Changes(roll, change, now, roll')
    ensures RollOk(roll', now)
  {
  }

  /** The franchise is only earned: a change makes a citizen only by founding a new server or by admission with
      every criterion met and a slot open, and never unmakes one. */
  lemma OnlyEarned(roll: Roll, change: RollChange, now: Timestamp, roll': Roll, k: Key)
    requires RollOk(roll, now) && Changes(roll, change, now, roll')
    ensures k in roll && roll[k].IsCitizen() ==>
              k in roll' && roll'[k].IsCitizen() && roll'[k].enfranchisedAt == roll[k].enfranchisedAt
    ensures k in roll' && roll'[k].IsCitizen() && !(k in roll && roll[k].IsCitizen()) ==>
              change == Found(k) || (change.Admit? && change.key == k)
  {
  }

  lemma CitizensGrow(roll: Roll, change: RollChange, now: Timestamp, roll': Roll, s: ServerId)
    requires RollOk(roll, now) && Changes(roll, change, now, roll')
    ensures Citizens(roll, s) <= Citizens(roll', s)
    ensures CitizenCount(roll, s) <= CitizenCount(roll', s)
    ensures Rank(PhaseOf(CitizenCount(roll, s))) <= Rank(PhaseOf(CitizenCount(roll', s)))
  {
    ChangeKeepsOk(roll, change, now, roll');
    forall k | k in Citizens(roll, s) ensures k in Citizens(roll', s) { OnlyEarned(roll, change, now, roll', k); }
    SubsetSize(Citizens(roll, s), Citizens(roll', s));
  }

  // --- the growth bound ---------------------------------------------------------------------------------

  /** No window of 30 days from `w` holds more admissions than its bound allows. */
  ghost predicate WindowOk(roll: Roll, s: ServerId, w: Timestamp) {
    |AdmittedFrom(roll, s, w)| <= WindowBound(|AdmittedBefore(roll, s, w)|)
  }

  lemma CitizensSplit(roll: Roll, s: ServerId, w: Timestamp, now: Timestamp)
    requires RollOk(roll, now)
    ensures CitizenCount(roll, s) == |AdmittedBefore(roll, s, w)| + |AdmittedFrom(roll, s, w)|
  {
    assert Citizens(roll, s) == AdmittedBefore(roll, s, w) + AdmittedFrom(roll, s, w);
    assert AdmittedBefore(roll, s, w) !! AdmittedFrom(roll, s, w);
  }

  lemma AdmissionKeepsWindow(roll: Roll, k: Key, now: Timestamp, w: Timestamp)
    requires RollOk(roll, now) && k in roll && !roll[k].IsCitizen() && SlotOpen(roll, k.1, now)
    requires w <= now <= PlusDays(w, RATE_CAP_WINDOW_DAYS)
    ensures WindowOk(roll[k := Enfranchised(roll[k], now)], k.1, w)
  {
    var s := k.1;
    var roll' := roll[k := Enfranchised(roll[k], now)];
    var start := PlusDays(now, -RATE_CAP_WINDOW_DAYS);
    CitizensSplit(roll, s, w, now);
    SubsetSize(AdmittedFrom(roll, s, w), AdmittedFrom(roll, s, start));
    SlotKeepsBound(|AdmittedBefore(roll, s, w)|, |AdmittedFrom(roll, s, w)|, |AdmittedFrom(roll, s, start)|);
    assert AdmittedFrom(roll', s, w) == AdmittedFrom(roll, s, w) + {k};
    assert AdmittedBefore(roll', s, w) == AdmittedBefore(roll, s, w);
  }

  lemma KeptWindow(roll: Roll, roll': Roll, now: Timestamp, s: ServerId, w: Timestamp)
    requires Changes(roll, Kept, now, roll') && WindowOk(roll, s, w)
    ensures WindowOk(roll', s, w)
  {
    assert AdmittedFrom(roll', s, w) == AdmittedFrom(roll, s, w);
    assert AdmittedBefore(roll', s, w) == AdmittedBefore(roll, s, w);
  }

  /** A row that is not a citizen's, or sits in another server, does not count in a server's windows. */
  lemma OtherRowWindow(roll: Roll, k: Key, m: Membership, s: ServerId, w: Timestamp)
    requires WindowOk(roll, s, w)
    requires m.serverId != s || m.enfranchisedAt.None?
    requires k in roll ==> roll[k].serverId != s || roll[k].enfranchisedAt.None?
    ensures WindowOk(roll[k := m], s, w)
  {
    var roll' := roll[k := m];
    assert AdmittedFrom(roll', s, w) == AdmittedFrom(roll, s, w);
    assert AdmittedBefore(roll', s, w) == AdmittedBefore(roll, s, w);
  }

  lemma FounderWindow(roll: Roll, k: Key, now: Timestamp, w: Timestamp)
    requires forall other :: other in roll ==> roll[other].serverId != k.1
    ensures WindowOk(roll[k := Enfranchised(Joined(k.0, k.1, now), now)], k.1, w)
  {
    var roll' := roll[k := Enfranchised(Joined(k.0, k.1, now), now)];
    assert AdmittedFrom(roll', k.1, w) <= {k};
    SubsetSize(AdmittedFrom(roll', k.1, w), {k});
  }

  lemma ChangeKeepsWindow(roll: Roll, change: RollChange, now: Timestamp, roll': Roll, s: ServerId, w: Timestamp)
    requires RollOk(roll, now) && Changes(roll, change, now, roll')
    requires now <= PlusDays(w, RATE_CAP_WINDOW_DAYS)
    requires WindowOk(roll, s, w)
    ensures WindowOk(roll', s, w)
  {
    match change
    case Kept => KeptWindow(roll, roll', now, s, w);
    case Join(k) => OtherRowWindow(roll, k, Joined(k.0, k.1, now), s, w);
    case Found(k) =>
      if k.1 == s { FounderWindow(roll, k, now, w); }
      else { OtherRowWindow(roll, k, Enfranchised(Joined(k.0, k.1, now), now), s, w); }
    case Admit(k, _, _) =>
      if k.1 != s {
        OtherRowWindow(roll, k, Enfranchised(roll[k], now), s, w);
      } else if now < w {
        ChangeKeepsOk(roll, change, now, roll');
        NoneYet(roll', s, w, now);
      } else {
        AdmissionKeepsWindow(roll, k, now, w);
      }
  }

  lemma NoneYet(roll: Roll, s: ServerId, w: Timestamp, now: Timestamp)
    requires now < w && forall k :: k in roll && roll[k].enfranchisedAt.Some? ==> roll[k].enfranchisedAt.value <= now
    ensures AdmittedFrom(roll, s, w) == {}
  {
  }

  // --- whole runs ------------------------------------------------------------------------------------------

  /** A run of the roll: each change, when it happened and what it left. */
  datatype Moment = Moment(now: Timestamp, change: RollChange, after: Roll)

  function RollAfter(run: seq<Moment>, i: nat): Roll
    requires i <= |run|
  {
    if i == 0 then map[] else run[i - 1].after
  }

  /** Changes follow one another under a clock that never goes back. */
  ghost predicate IsRun(run: seq<Moment>) {
    && (forall i :: 0 <= i < |run| ==> Follows(run, i))
    && (forall i :: 0 < i < |run| ==> ClockMovesOn(run, i))
  }

  ghost predicate Follows(run: seq<Moment>, i: nat)
    requires i < |run|
  {
    Changes(RollAfter(run, i), run[i].change, run[i].now, run[i].after)
  }

  ghost predicate ClockMovesOn(run: seq<Moment>, i: nat)
    requires 0 < i < |run|
  {
    run[i - 1].now <= run[i].now
  }

  lemma OkLater(roll: Roll, now: Timestamp, later: Timestamp)
    requires RollOk(roll, now) && now <= later
    ensures RollOk(roll, later)
  {
  }

  lemma {:induction false} RunOk(run: seq<Moment>, i: nat)
    requires IsRun(run) && i < |run|
    ensures RollOk(RollAfter(run, i), run[i].now) && RollOk(run[i].after, run[i].now)
  {
    assert Follows(run, i);
    if i > 0 {
      RunOk(run, i - 1);
      assert ClockMovesOn(run, i);
      OkLater(RollAfter(run, i), run[i - 1].now, run[i].now);
    }
    ChangeKeepsOk(RollAfter(run, i), run[i].change, run[i].now, run[i].after);
  }

  /** The growth bound: in every run, for every server and every instant `w`, no state up to 30 days after `w`
      has more citizens enfranchised from `w` on than max(5, ⌈n/9⌉), where `n` were enfranchised before `w` —
      however many members qualify. */
  lemma {:induction false} GrowthBound(run: seq<Moment>, i: nat, s: ServerId, w: Timestamp)
    requires IsRun(run) && i < |run| && run[i].now <= PlusDays(w, RATE_CAP_WINDOW_DAYS)
    ensures WindowOk(run[i].after, s, w)
  {
    assert Follows(run, i);
    if i > 0 {
      assert ClockMovesOn(run, i);
      GrowthBound(run, i - 1, s, w);
    } else {
      assert AdmittedFrom(map[], s, w) == {};
    }
    RunOk(run, i);
    ChangeKeepsWindow(RollAfter(run, i), run[i].change, run[i].now, run[i].after, s, w);
  }

  /** Every citizen of every state of every run has an origin: the step that founded their server or admitted
      them, with nothing changed about their franchise since. */
  lemma {:induction false} EveryCitizenHasAnOrigin(run: seq<Moment>, i: nat, k: Key) returns (origin: nat)
    requires IsRun(run) && i < |run| && k in run[i].after && run[i].after[k].IsCitizen()
    ensures origin <= i
    ensures run[i].after[k].enfranchisedAt == Some(run[origin].now)
    ensures run[origin].change == Found(k) || (run[origin].change.Admit? && run[origin].change.key == k)
    ensures !(k in RollAfter(run, origin) && RollAfter(run, origin)[k].IsCitizen())
  {
    var before := RollAfter(run, i);
    assert Follows(run, i);
    RunOk(run, i);
    OnlyEarned(before, run[i].change, run[i].now, run[i].after, k);
    if k in before && before[k].IsCitizen() {
      origin := EveryCitizenHasAnOrigin(run, i - 1, k);
    } else {
      origin := i;
    }
  }

  /** The roll of citizens never shrinks and the phase never goes back. */
  lemma {:induction false} PhaseNeverFalls(run: seq<Moment>, i: nat, j: nat, s: ServerId)
    requires IsRun(run) && i <= j <= |run|
    ensures CitizenCount(RollAfter(run, i), s) <= CitizenCount(RollAfter(run, j), s)
    ensures Rank(PhaseOf(CitizenCount(RollAfter(run, i), s))) <= Rank(PhaseOf(CitizenCount(RollAfter(run, j), s)))
    decreases j
  {
    if i < j {
      PhaseNeverFalls(run, i, j - 1, s);
      assert Follows(run, j - 1);
      RunOk(run, j - 1);
      CitizensGrow(RollAfter(run, j - 1), run[j - 1].change, run[j - 1].now, run[j - 1].after, s);
    }
  }
}
