/** A member's contribution over any run of all the services: what it counts, and everything that sets it apart from
    that count. */
module ScoreRuns {
  import opened Domain
  import opened Replica
  import opened Calls
  import opened Services
  import opened ServiceRuns
  import opened Governance
  import opened Ids
  import Chat
  import Contribution
  import Franchise
  import FranchiseRuns
  import PlatformRuns

  type Key = Franchise.Key
  type Scene = Contribution.Scene

  function ScoreIn(sc: Scene, k: Key): int {
    if k in sc.roll then sc.roll[k].contribution else 0
  }

  function ScoreOf(t: Tables, k: Key): int { ScoreIn(Contribution.SceneOf(t), k) }

  /** How many endorsements a member has. */
  function CountIn(sc: Scene, k: Key): nat {
    |Contribution.Endorsements(sc, k.0, k.1)|
  }

  function SceneAt(s: Site): Scene {
    Contribution.SceneOf(s.Tables())
  }

  predicate IsReaction(a: Act) { a.React? || a.Unreact? }

  // --- acts that leave scores, reactions and old messages alone --------------------------------------------------

  /** Nobody is gone from the roll, and nobody's sanction lifted. */
  ghost predicate RollStays(sc: Scene, sc': Scene) {
    forall k :: k in sc.roll ==> k in sc'.roll && (sc.roll[k].isSanctioned ==> sc'.roll[k].isSanctioned)
  }

  /** The same scores and reactions, the roll as it was or larger, and no message that was not there. */
  ghost predicate Stands(sc: Scene, sc': Scene) {
    && sc'.reactions == sc.reactions && RollStays(sc, sc')
    && (forall k :: ScoreIn(sc', k) == ScoreIn(sc, k))
    && forall id :: id in sc'.messages ==> id in sc.messages && sc'.messages[id] == sc.messages[id]
  }

  lemma StandsTwice(a: Scene, b: Scene, c: Scene)
    requires Stands(a, b) && Stands(b, c)
    ensures Stands(a, c)
  {
    forall k ensures ScoreIn(c, k) == ScoreIn(a, k) {
      assert ScoreIn(b, k) == ScoreIn(a, k);
    }
  }

  /** A call that writes no reaction, no message, and a membership only with the score it has and no sanction lifted. */
  predicate IsQuietCall(t: Tables, c: Call) {
    && !c.AddReaction? && !c.RemoveReaction? && !c.PutMessage?
    && (c.PutMembership? ==>
          var k := (c.membership.userId, c.membership.serverId);
          c.membership.contribution == ScoreOf(t, k)
          && (k in t.memberships && t.memberships[k].isSanctioned ==> c.membership.isSanctioned))
  }

  lemma QuietStands(t: Tables, c: Call)
    requires IsQuietCall(t, c)
    ensures Stands(Contribution.SceneOf(t), Contribution.SceneOf(TablesAfter(t, c)))
  {
  }

  predicate IsMemberAct(a: Act) { a.Join? || a.Accept? || a.Enfranchise? || a.ShareHistory? }

  lemma MemberPlanIsQuiet(s: Site, a: Act, now: Timestamp)
    requires IsMemberAct(a) && FranchiseRuns.SiteOk(s, now)
    ensures var calls := PlanOf(s.Tables(), s.ids, a, now).calls;
            |calls| <= 1 && (calls != [] ==> IsQuietCall(s.Tables(), calls[0]))
  {
  }

  predicate IsPlain(a: Act) { FranchiseRuns.IsPlain(a) && !a.Write? }

  lemma PlainPlanIsQuiet(s: Site, a: Act, now: Timestamp)
    requires IsPlain(a) && IsActAt(s, a)
    ensures var calls := PlanOf(s.Tables(), s.ids, a, now).calls;
            |calls| <= 1 && (calls != [] ==> IsQuietCall(s.Tables(), calls[0]))
  {
  }

  lemma SingleStands(s: Site, a: Act, now: Timestamp)
    requires (IsMemberAct(a) && FranchiseRuns.SiteOk(s, now)) || (IsPlain(a) && IsActAt(s, a))
    ensures Stands(SceneAt(s), SceneAt(Next(s, a, now)))
  {
    var calls := PlanOf(s.Tables(), s.ids, a, now).calls;
    FranchiseRuns.NextTables(s, a, now);
    if IsMemberAct(a) { MemberPlanIsQuiet(s, a, now); } else { PlainPlanIsQuiet(s, a, now); }
    if calls != [] {
      PerformOne(s.Tables(), calls[0]);
      QuietStands(s.Tables(), calls[0]);
    }
  }

  lemma NewcomerStands(sc: Scene, k: Key, m: Membership)
    requires k !in sc.roll && m.contribution == 0
    ensures Stands(sc, sc.(roll := sc.roll[k := m]))
  {
  }

  lemma FoundingStands(t: Tables, server: Server, m: Membership)
    requires (m.userId, m.serverId) !in t.memberships && m.contribution == 0
    ensures Stands(Contribution.SceneOf(t),
                   Contribution.SceneOf(Perform(t, [PutServer(server), PutMembership(m)])))
  {
    PerformTwo(t, PutServer(server), PutMembership(m));
    NewcomerStands(Contribution.SceneOf(t), (m.userId, m.serverId), m);
  }

  lemma FoundStands(s: Site, a: Act, now: Timestamp)
    requires a.Found? && FranchiseRuns.SiteOk(s, now) && Next(s, a, now).ids.Fit()
    ensures Stands(SceneAt(s), SceneAt(Next(s, a, now)))
  {
    FranchiseRuns.NextTables(s, a, now);
    if FranchiseRuns.FoundingOf(s, a, now).Do? {
      FranchiseRuns.FoundNext(s, a, now);
      FranchiseRuns.FreshServer(s, now);
      var calls := FranchiseRuns.FoundingOf(s, a, now).calls;
      FoundingStands(s.Tables(), calls[0].server, calls[1].membership);
    }
  }

  lemma EffectStands(s: Site, p: Proposal, names: Names, now: Timestamp)
    requires RowsOk(s.Tables(), now)
    ensures Stands(SceneAt(s), SceneAt(WithEffect(s, p, names, now)))
  {
    var c := EffectCall(s.Tables(), p, names, s.ids, now);
    if c.Some? {
      assert IsQuietCall(s.Tables(), c.value);
      QuietStands(s.Tables(), c.value);
    }
  }

  lemma PutStands(s: Site, p: Proposal)
    ensures Stands(SceneAt(s), SceneAt(Put(s, p)))
  {
  }

  lemma ApplyStands(s: Site, names: Names, p: Proposal, now: Timestamp)
    requires RowsOk(s.Tables(), now)
    ensures Stands(SceneAt(s), SceneAt(ApplyIfMature(s, names, p, now)))
  {
    if IsMature(p, now) {
      var mid := WithEffect(s, p, names, now);
      EffectStands(s, p, names, now);
      PutStands(mid, p.(isApplied := true));
      StandsTwice(SceneAt(s), SceneAt(mid), SceneAt(Put(mid, p.(isApplied := true))));
    }
  }

  lemma OneStands(s: Site, ses: Session, names: Names, p: Proposal)
    requires RowsOk(s.Tables(), ses.now)
    ensures Stands(SceneAt(s), SceneAt(ResolveOne(s, ses, names, p)))
  {
    var closed := CloseDue(s.Tables(), ses, p);
    var mid := if IsDue(p, ses.now) then Put(s, closed) else s;
    PutStands(s, closed);
    PutMoves(s, closed, ses.now);
    ApplyStands(mid, names, closed, ses.now);
    StandsTwice(SceneAt(s), SceneAt(mid), SceneAt(ResolveOne(s, ses, names, p)));
  }

  lemma {:induction false} ListStands(s: Site, ses: Session, names: Names, ps: seq<Proposal>)
    requires RowsOk(s.Tables(), ses.now) && IsSnapshot(s.Tables(), ps)
    ensures Stands(SceneAt(s), SceneAt(ResolveList(s, ses, names, ps)))
    decreases |ps|
  {
    if ps != [] {
      var front, p := ps[..|ps| - 1], ps[|ps| - 1];
      var mid := ResolveList(s, ses, names, front);
      SnapshotFront(s.Tables(), ps);
      ListStands(s, ses, names, front);
      ResolveListOutcome(s, ses, names, front);
      OneStands(mid, ses, names, p);
      StandsTwice(SceneAt(s), SceneAt(mid), SceneAt(ResolveOne(mid, ses, names, p)));
    }
  }

  lemma ResolveStands(s: Site, a: Act, now: Timestamp)
    requires a.Resolve? && FranchiseRuns.SiteOk(s, now)
    ensures Stands(SceneAt(s), SceneAt(Next(s, a, now)))
  {
    if a.server in s.Tables().servers {
      SnapshotIsOne(s.Tables(), a.server, now);
      ListStands(s, Capture(s.Tables(), a.server, now), a.names, Snapshot(s.Tables(), a.server));
    }
  }

  /** Everything but reacting, posting and the testing helper. */
  lemma OtherStands(s: Site, a: Act, now: Timestamp)
    requires !IsReaction(a) && !a.Write? && !a.Score?
    requires IsActAt(s, a) && FranchiseRuns.SiteOk(s, now) && Next(s, a, now).ids.Fit()
    ensures Stands(SceneAt(s), SceneAt(Next(s, a, now)))
  {
    if a.Found? { FoundStands(s, a, now); }
    else if a.Resolve? { ResolveStands(s, a, now); }
    else { SingleStands(s, a, now); }
  }
  // --- who moves an endorsement without a reaction ----------------------------------------------------------------

  /** Reactions stand, and every message they are on is still its author's, or gone. */
  ghost predicate ReactionsStand(sc: Scene, sc': Scene) {
    && sc'.reactions == sc.reactions
    && forall r :: r in sc.reactions && r.messageId in sc'.messages ==>
         && r.messageId in sc.messages
         && sc.messages[r.messageId].author == sc'.messages[r.messageId].author
         && sc.messages[r.messageId].serverId == sc'.messages[r.messageId].serverId
  }

  predicate IsCitizenIn(sc: Scene, user: UserId, server: ServerId) {
    (user, server) in sc.roll && sc.roll[(user, server)].IsFranchised()
  }

  /** Every reaction is on a message stored under an id handed out by then. */
  ghost predicate ReactionsOk(s: Site) {
    forall r :: r in s.Tables().reactions ==> r.messageId <= s.ids.Message()
  }

  /** An endorsement that comes or goes without a reaction does so by its citizen's standing, or with its message. */
  lemma PairMoves(sc: Scene, sc': Scene, k: Key, message: MessageId, user: UserId)
    requires ReactionsStand(sc, sc')
    requires ((message, user) in Contribution.Endorsements(sc, k.0, k.1))
          != ((message, user) in Contribution.Endorsements(sc', k.0, k.1))
    ensures IsCitizenIn(sc, user, k.1) != IsCitizenIn(sc', user, k.1)
            || (message in sc.messages && message !in sc'.messages)
  {
  }

  lemma WriteTables(s: Site, a: Act, now: Timestamp)
    requires a.Write?
    ensures var p, t := Chat.PostingOf(s.Tables(), s.ids, a.chat, now), s.Tables();
            Next(s, a, now).Tables() == if p.Posted? then TablesAfter(t, PutMessage(p.message)) else t
  {
    var p := Chat.PostingOf(s.Tables(), s.ids, a.chat, now);
    FranchiseRuns.NextTables(s, a, now);
    if p.Posted? { PerformOne(s.Tables(), PutMessage(p.message)); }
  }

  /** A message written over a stored one keeps its author. */
  lemma PostingKeepsAuthor(t: Tables, ids: Counters, a: Chat.ChatAct, now: Timestamp)
    requires Chat.ThreadsOk(t, ids) && Chat.PostingOf(t, ids, a, now).Posted? && !Chat.Mints(a)
    ensures var m := Chat.PostingOf(t, ids, a, now).message;
            m.id in t.messages && m.author == t.messages[m.id].author && m.serverId == t.messages[m.id].serverId
  {
  }

  lemma WriteStands(s: Site, a: Act, now: Timestamp)
    requires a.Write? && Chat.ThreadsOk(s.Tables(), s.ids) && ReactionsOk(s) && Next(s, a, now).ids.Fit()
    ensures ReactionsStand(SceneAt(s), SceneAt(Next(s, a, now)))
    ensures SceneAt(Next(s, a, now)).roll == SceneAt(s).roll
  {
    WriteTables(s, a, now);
    var p := Chat.PostingOf(s.Tables(), s.ids, a.chat, now);
    if p.Posted? {
      Chat.PostingFits(s.Tables(), s.ids, a.chat, now);
      if !Chat.Mints(a.chat) { PostingKeepsAuthor(s.Tables(), s.ids, a.chat, now); }
    }
  }

  lemma ScoreTables(s: Site, a: Act, now: Timestamp)
    requires a.Score?
    ensures var d, t := SetContribution(s.Tables(), a.user, a.server, a.contribution), s.Tables();
            Next(s, a, now).Tables() == if d.Do? then TablesAfter(t, d.calls[0]) else t
  {
    FranchiseRuns.NextTables(s, a, now);
    var d := SetContribution(s.Tables(), a.user, a.server, a.contribution);
    if d.Do? { PerformOne(s.Tables(), d.calls[0]); }
  }

  lemma ScoreStands(s: Site, a: Act, now: Timestamp)
    requires a.Score?
    ensures ReactionsStand(SceneAt(s), SceneAt(Next(s, a, now)))
  {
    ScoreTables(s, a, now);
  }

  lemma StandsReactions(sc: Scene, sc': Scene)
    requires Stands(sc, sc')
    ensures ReactionsStand(sc, sc')
  {
  }

  // --- one act ----------------------------------------------------------------------------------------------------

  /** A reaction's gain, the score held at zero; nothing for an author who is no member. */
  function Credited(sc: Scene, k: Key, gained: int): int {
    if k !in sc.roll || gained == 0 then ScoreIn(sc, k)
    else if ScoreIn(sc, k) + gained > 0 then ScoreIn(sc, k) + gained
    else 0
  }

  lemma ReactCredits(sc: Scene, user: UserId, m: Message, emoji: string, k: Key)
    requires m.id in sc.messages && sc.messages[m.id] == m
    ensures var sc' := Contribution.ReactScene(sc, user, m, emoji);
            ScoreIn(sc', k) == Credited(sc, k, CountIn(sc', k) - CountIn(sc, k))
  {
    Contribution.ReactCounts(sc, user, m, emoji, k.0, k.1);
    Contribution.NoneTaken(sc.reactions, m.id, user, emoji);
  }

  lemma UnreactCredits(sc: Scene, user: UserId, m: Message, emoji: string, k: Key)
    requires m.id in sc.messages && sc.messages[m.id] == m
    ensures var sc' := Contribution.UnreactScene(sc, user, m, emoji);
            ScoreIn(sc', k) == Credited(sc, k, CountIn(sc', k) - CountIn(sc, k))
  {
    Contribution.UnreactCounts(sc, user, m, emoji, k.0, k.1);
  }

  function Reacted(sc: Scene, a: Act, m: Message): Scene
    requires IsReaction(a)
  {
    if a.React? then Contribution.ReactScene(sc, a.user, m, a.emoji)
    else Contribution.UnreactScene(sc, a.user, m, a.emoji)
  }

  lemma ReactionScene(s: Site, a: Act, now: Timestamp)
    requires IsReaction(a) && Contribution.RollKeyed(s.Tables())
    ensures var t, p := s.Tables(), PlanOf(s.Tables(), s.ids, a, now);
            && (p.calls == [] ==> SceneAt(Next(s, a, now)) == SceneAt(s))
            && (p.calls != [] ==> a.message in t.messages)
            && (p.calls != [] ==> SceneAt(Next(s, a, now)) == Reacted(SceneAt(s), a, t.messages[a.message]))
  {
    FranchiseRuns.NextTables(s, a, now);
    var t := s.Tables();
    if PlanOf(t, s.ids, a, now).calls != [] {
      if a.React? { Contribution.ReactGivesScene(t, a.user, a.message, a.emoji); }
      else { Contribution.UnreactGivesScene(t, a.user, a.message, a.emoji); }
    }
  }

  /** The message a reaction is on sits at its own key. */
  lemma ReactionCalls(s: Site, a: Act, now: Timestamp)
    requires IsReaction(a) && Chat.ThreadsOk(s.Tables(), s.ids) && PlanOf(s.Tables(), s.ids, a, now).calls != []
    ensures var t := s.Tables(); a.message in t.messages && t.messages[a.message].id == a.message
    ensures a.message <= s.ids.Message()
  {
    if a.message in s.Tables().messages { assert Chat.MessageOk(s.Tables(), s.ids, a.message); }
  }

  lemma ReactedCredits(sc: Scene, a: Act, k: Key)
    requires IsReaction(a) && a.message in sc.messages && sc.messages[a.message].id == a.message
    ensures var sc' := Reacted(sc, a, sc.messages[a.message]);
            ScoreIn(sc', k) == Credited(sc, k, CountIn(sc', k) - CountIn(sc, k))
  {
    if a.React? { ReactCredits(sc, a.user, sc.messages[a.message], a.emoji, k); }
    else { UnreactCredits(sc, a.user, sc.messages[a.message], a.emoji, k); }
  }

  /** Reacting and taking back credit the endorsement they make or undo, above zero. */
  lemma ReactionCredits(s: Site, a: Act, now: Timestamp, k: Key)
    requires IsReaction(a) && Contribution.RollKeyed(s.Tables()) && Chat.ThreadsOk(s.Tables(), s.ids)
    ensures var sc, sc' := SceneAt(s), SceneAt(Next(s, a, now));
            ScoreIn(sc', k) == Credited(sc, k, CountIn(sc', k) - CountIn(sc, k))
  {
    ReactionScene(s, a, now);
    var sc, sc' := SceneAt(s), SceneAt(Next(s, a, now));
    if PlanOf(s.Tables(), s.ids, a, now).calls != [] {
      ReactionCalls(s, a, now);
      ReactedCredits(sc, a, k);
    } else {
      assert sc' == sc;
    }
  }

  /** What the testing helper adds to a score by writing it. */
  function Written(s: Site, a: Act, k: Key): int
    requires a.Score?
  {
    if (a.user, a.server) == k && SetContribution(s.Tables(), a.user, a.server, a.contribution).Do?
    then a.contribution - ScoreIn(SceneAt(s), k) else 0
  }

  function Gained(s: Site, a: Act, now: Timestamp, k: Key): int {
    CountIn(SceneAt(Next(s, a, now)), k) - CountIn(SceneAt(s), k)
  }

  /** How far an act moves a score from the count of endorsements: a reaction by what the floor at zero holds back, the
      helper by what it writes, anything else by the endorsements it makes or undoes without touching the score. */
  function Slip(s: Site, a: Act, now: Timestamp, k: Key): int {
    var gained := Gained(s, a, now, k);
    if IsReaction(a) then Credited(SceneAt(s), k, gained) - ScoreIn(SceneAt(s), k) - gained
    else if a.Score? then Written(s, a, k) - gained
    else -gained
  }

  /** The site is well, and its reactions are on messages it stored. */
  ghost predicate SiteFits(s: Site, now: Timestamp) {
    FranchiseRuns.SiteOk(s, now) && Chat.ThreadsOk(s.Tables(), s.ids) && ReactionsOk(s)
  }

  lemma HelperSlips(s: Site, a: Act, now: Timestamp, k: Key)
    requires a.Score? && SiteFits(s, now)
    ensures ScoreIn(SceneAt(Next(s, a, now)), k) == ScoreIn(SceneAt(s), k) + Written(s, a, k)
  {
    ScoreTables(s, a, now);
  }

  lemma SameScore(s: Site, a: Act, now: Timestamp, k: Key)
    requires SiteFits(s, now) && IsActAt(s, a) && Next(s, a, now).ids.Fit() && !IsReaction(a) && !a.Score?
    ensures ScoreIn(SceneAt(Next(s, a, now)), k) == ScoreIn(SceneAt(s), k)
  {
    if a.Write? { WriteStands(s, a, now); } else { OtherStands(s, a, now); }
  }

  lemma ActSlips(s: Site, a: Act, now: Timestamp, k: Key)
    requires SiteFits(s, now) && IsActAt(s, a) && Next(s, a, now).ids.Fit()
    ensures var sc, sc' := SceneAt(s), SceneAt(Next(s, a, now));
            ScoreIn(sc', k) - CountIn(sc', k) == ScoreIn(sc, k) - CountIn(sc, k) + Slip(s, a, now, k)
  {
    if IsReaction(a) { ReactionCredits(s, a, now, k); }
    else if a.Score? { HelperSlips(s, a, now, k); }
    else { SameScore(s, a, now, k); }
  }

  lemma ActStands(s: Site, a: Act, now: Timestamp)
    requires SiteFits(s, now) && IsActAt(s, a) && Next(s, a, now).ids.Fit() && !IsReaction(a)
    ensures ReactionsStand(SceneAt(s), SceneAt(Next(s, a, now)))
  {
    if a.Score? { ScoreStands(s, a, now); }
    else if a.Write? { WriteStands(s, a, now); }
    else {
      OtherStands(s, a, now);
      StandsReactions(SceneAt(s), SceneAt(Next(s, a, now)));
    }
  }

  lemma SizesDiffer<T>(a: set<T>, b: set<T>) returns (x: T)
    requires |a| != |b|
    ensures (x in a) != (x in b)
  {
    if a <= b {
      assert b == a + (b - a);
      assert b - a != {};
      x :| x in b - a;
    } else {
      x :| x in a && x !in b;
    }
  }

  /** An endorsement that came or went with its citizen's standing, or went with its message. */
  predicate MovedByItself(sc: Scene, sc': Scene, k: Key, message: MessageId, user: UserId) {
    && ((message, user) in Contribution.Endorsements(sc, k.0, k.1))
       != ((message, user) in Contribution.Endorsements(sc', k.0, k.1))
    && (IsCitizenIn(sc, user, k.1) != IsCitizenIn(sc', user, k.1)
        || (message in sc.messages && message !in sc'.messages))
  }

  lemma GainMoves(sc: Scene, sc': Scene, k: Key) returns (message: MessageId, user: UserId)
    requires ReactionsStand(sc, sc') && CountIn(sc, k) != CountIn(sc', k)
    ensures MovedByItself(sc, sc', k, message, user)
  {
    var pair := SizesDiffer(Contribution.Endorsements(sc, k.0, k.1), Contribution.Endorsements(sc', k.0, k.1));
    message, user := pair.0, pair.1;
    PairMoves(sc, sc', k, message, user);
  }

  lemma ReactedStays(sc: Scene, a: Act, m: Message)
    requires IsReaction(a)
    ensures RollStays(sc, Reacted(sc, a, m))
  {
  }

  lemma ReactionStays(s: Site, a: Act, now: Timestamp)
    requires IsReaction(a) && SiteFits(s, now)
    ensures RollStays(SceneAt(s), SceneAt(Next(s, a, now)))
  {
    ReactionScene(s, a, now);
    if PlanOf(s.Tables(), s.ids, a, now).calls != [] {
      ReactedStays(SceneAt(s), a, s.Tables().messages[a.message]);
    }
  }

  lemma HelperStays(s: Site, a: Act, now: Timestamp)
    requires a.Score? && SiteFits(s, now)
    ensures RollStays(SceneAt(s), SceneAt(Next(s, a, now)))
  {
    ScoreTables(s, a, now);
  }

  /** Once a member, always a member; once under a sanction, always under one. */
  lemma MembersStay(s: Site, a: Act, now: Timestamp)
    requires SiteFits(s, now) && IsActAt(s, a) && Next(s, a, now).ids.Fit()
    ensures RollStays(SceneAt(s), SceneAt(Next(s, a, now)))
  {
    if IsReaction(a) { ReactionStays(s, a, now); }
    else if a.Score? { HelperStays(s, a, now); }
    else if a.Write? { WriteStands(s, a, now); }
    else { OtherStands(s, a, now); }
  }

  /** Without a reaction and without the helper, a score slips only when an endorsement comes or goes by itself. */
  lemma OtherSlips(s: Site, a: Act, now: Timestamp, k: Key) returns (message: MessageId, user: UserId)
    requires SiteFits(s, now) && IsActAt(s, a) && Next(s, a, now).ids.Fit()
    requires !IsReaction(a) && (a.Score? ==> Written(s, a, k) == 0) && Slip(s, a, now, k) != 0
    ensures MovedByItself(SceneAt(s), SceneAt(Next(s, a, now)), k, message, user)
  {
    ActStands(s, a, now);
    message, user := GainMoves(SceneAt(s), SceneAt(Next(s, a, now)), k);
  }

  // --- runs -------------------------------------------------------------------------------------------------------

  lemma ReactedOn(sc: Scene, a: Act, m: Message)
    requires IsReaction(a)
    ensures forall r :: r in Reacted(sc, a, m).reactions ==> r in sc.reactions || r.messageId == m.id
  {
  }

  lemma ReactionFits(s: Site, a: Act, now: Timestamp)
    requires IsReaction(a) && SiteFits(s, now)
    ensures forall r :: r in SceneAt(Next(s, a, now)).reactions ==> r.messageId <= s.ids.Message()
  {
    ReactionScene(s, a, now);
    if PlanOf(s.Tables(), s.ids, a, now).calls != [] {
      ReactionCalls(s, a, now);
      ReactedOn(SceneAt(s), a, s.Tables().messages[a.message]);
    }
  }

  lemma ActKeepsReactions(s: Site, a: Act, now: Timestamp)
    requires SiteFits(s, now) && IsActAt(s, a) && Next(s, a, now).ids.Fit()
    ensures ReactionsOk(Next(s, a, now))
  {
    IdsGrow(s, a, now);
    LastIdsGrow(s.ids, Next(s, a, now).ids);
    if IsReaction(a) { ReactionFits(s, a, now); } else { ActStands(s, a, now); }
  }

  /** The site before the last act of a run. */
  lemma FitsBeforeLast(node: NodeNumber, acts: seq<Timed>)
    requires acts != [] && IsServiceRun(node, acts)
    ensures var n := |acts| - 1; var s := RunActs(node, acts[..n]);
            && FranchiseRuns.SiteOk(s, acts[n].now) && Chat.ThreadsOk(s.Tables(), s.ids)
            && IsActAt(s, acts[n].act) && Next(s, acts[n].act, acts[n].now).ids.Fit()
            && RunActs(node, acts) == Next(s, acts[n].act, acts[n].now) && IsServiceRun(node, acts[..n])
  {
    var front := acts[..|acts| - 1];
    RunFront(node, acts);
    FranchiseRuns.ServiceRunIsRollRun(node, front);
    FranchiseRuns.OkBeforeLast(node, acts);
    PlatformRuns.RunKeepsThreads(node, front);
  }

  lemma {:induction false} RunKeepsReactions(node: NodeNumber, acts: seq<Timed>)
    requires IsServiceRun(node, acts)
    ensures ReactionsOk(RunActs(node, acts))
    decreases |acts|
  {
    if acts != [] {
      var n := |acts| - 1;
      FitsBeforeLast(node, acts);
      RunKeepsReactions(node, acts[..n]);
      ActKeepsReactions(RunActs(node, acts[..n]), acts[n].act, acts[n].now);
    }
  }

  /** All the slips of a run. */
  function Slips(node: NodeNumber, acts: seq<Timed>, k: Key): int
    decreases |acts|
  {
    if acts == [] then 0
    else
      var n := |acts| - 1;
      Slips(node, acts[..n], k) + Slip(RunActs(node, acts[..n]), acts[n].act, acts[n].now, k)
  }

  /** Over any run of the services, every member's contribution is the number of their endorsements and the slips. */
  lemma {:induction false} ScoreIsCount(node: NodeNumber, acts: seq<Timed>, k: Key)
    requires IsServiceRun(node, acts)
    ensures var sc := SceneAt(RunActs(node, acts)); ScoreIn(sc, k) == CountIn(sc, k) + Slips(node, acts, k)
    decreases |acts|
  {
    if acts != [] {
      var n := |acts| - 1;
      FitsBeforeLast(node, acts);
      RunKeepsReactions(node, acts[..n]);
      ScoreIsCount(node, acts[..n], k);
      ActSlips(RunActs(node, acts[..n]), acts[n].act, acts[n].now, k);
    }
  }
  function SlipAt(node: NodeNumber, acts: seq<Timed>, i: nat, k: Key): int
    requires i < |acts|
  {
    Slip(SiteAt(node, acts, i), acts[i].act, acts[i].now, k)
  }

  predicate IsCounted(sc: Scene, k: Key) {
    k in sc.roll && ScoreIn(sc, k) == CountIn(sc, k)
  }

  /** From a member's score that is the count, a reaction is never held back. */
  lemma NextIsCounted(s: Site, a: Act, now: Timestamp, k: Key)
    requires SiteFits(s, now) && IsActAt(s, a) && Next(s, a, now).ids.Fit() && IsCounted(SceneAt(s), k)
    requires !IsReaction(a) ==> Slip(s, a, now, k) == 0
    ensures IsCounted(SceneAt(Next(s, a, now)), k)
  {
    ActSlips(s, a, now, k);
    MembersStay(s, a, now);
  }

  /** The act moves no score from the count except by reacting. */
  predicate IsEvenAt(node: NodeNumber, acts: seq<Timed>, i: nat, k: Key)
    requires i < |acts|
  {
    IsReaction(acts[i].act) || SlipAt(node, acts, i, k) == 0
  }

  lemma {:induction false} RunPart(node: NodeNumber, acts: seq<Timed>, k: nat)
    requires IsServiceRun(node, acts) && k <= |acts|
    ensures IsServiceRun(node, acts[..k])
    decreases |acts|
  {
    if k == |acts| {
      assert acts[..k] == acts;
    } else {
      RunFront(node, acts);
      RunPart(node, acts[..|acts| - 1], k);
      assert acts[..|acts| - 1][..k] == acts[..k];
    }
  }

  lemma LastIsCounted(node: NodeNumber, acts: seq<Timed>, k: Key)
    requires IsServiceRun(node, acts) && acts != [] && IsEvenAt(node, acts, |acts| - 1, k)
    requires IsCounted(SceneAt(RunActs(node, acts[..|acts| - 1])), k)
    ensures IsCounted(SceneAt(RunActs(node, acts)), k)
  {
    var n := |acts| - 1;
    FitsBeforeLast(node, acts);
    RunKeepsReactions(node, acts[..n]);
    NextIsCounted(RunActs(node, acts[..n]), acts[n].act, acts[n].now, k);
  }

  predicate IsCountedAt(node: NodeNumber, acts: seq<Timed>, i: nat, k: Key)
    requires i <= |acts|
  {
    IsCounted(SceneAt(SiteAt(node, acts, i)), k)
  }

  /** A run of the services in which, over a stretch, only reactions may move a score from the count. */
  ghost predicate IsEven(node: NodeNumber, acts: seq<Timed>, from: nat, till: nat, k: Key)
    requires till <= |acts|
  {
    IsServiceRun(node, acts) && forall i :: from <= i < till ==> IsEvenAt(node, acts, i, k)
  }

  lemma EvenStep(node: NodeNumber, acts: seq<Timed>, from: nat, till: nat, i: nat, k: Key)
    requires from <= i < till <= |acts| && IsEven(node, acts, from, till, k) && IsCountedAt(node, acts, i, k)
    ensures IsCountedAt(node, acts, i + 1, k)
  {
    var part := acts[..i + 1];
    assert part[..i] == acts[..i];
    assert IsEvenAt(node, acts, i, k);
    RunPart(node, acts, i + 1);
    LastIsCounted(node, part, k);
  }

  lemma {:induction false} EvenSteps(node: NodeNumber, acts: seq<Timed>, from: nat, till: nat, i: nat, k: Key)
    requires from <= i <= till <= |acts| && IsEven(node, acts, from, till, k) && IsCountedAt(node, acts, i, k)
    ensures IsCountedAt(node, acts, till, k)
    decreases till - i
  {
    if i < till {
      EvenStep(node, acts, from, till, i, k);
      var j := i + 1;
      assert IsCountedAt(node, acts, j, k);
      EvenSteps(node, acts, from, till, j, k);
    }
  }

  /** Conservation over the whole platform: from any moment at which a member's contribution is the number of their
      endorsements, it stays that number whatever the services do, until an act other than a reaction slips; reactions
      alone, their floor at zero included, never set the two apart. */
  lemma ReactionsConserve(node: NodeNumber, acts: seq<Timed>, from: nat, till: nat, k: Key)
    requires from <= till <= |acts| && IsEven(node, acts, from, till, k) && IsCountedAt(node, acts, from, k)
    ensures IsCountedAt(node, acts, till, k)
  {
    EvenSteps(node, acts, from, till, from, k);
  }
}
