/** Contribution: what reacting and unreacting do to an author's score, and when the score is conserved. */
module Contribution {
  import opened Domain
  import opened Replica
  import opened Keyed
  import opened Calls
  import opened Services
  import Franchise

  datatype ReactionError = EmptyEmoji | UnknownUser | UnknownMessage | NotMember

  datatype Outcome = Rejected(error: ReactionError) | Made(calls: seq<Call>)

  predicate UserHasAny(xs: seq<Reaction>, message: MessageId, user: UserId) {
    exists i | 0 <= i < |xs| :: xs[i].messageId == message && xs[i].user == user
  }

  /** The score moved by `delta` and held at zero; nothing when the author is no member any more. */
  function Adjust(t: Tables, author: UserId, server: ServerId, delta: int): seq<Call> {
    if (author, server) in t.memberships then
      var m := t.memberships[(author, server)];
      [PutMembership(m.(contribution := if m.contribution + delta > 0 then m.contribution + delta else 0))]
    else []
  }

  predicate IsFranchisedMember(t: Tables, user: UserId, server: ServerId) {
    (user, server) in t.memberships && t.memberships[(user, server)].IsFranchised()
  }

  /** A franchised citizen's first reaction to someone else's message endorses its author. */
  function React(t: Tables, user: UserId, message: MessageId, emoji: string): Outcome {
    if emoji == "" then Rejected(EmptyEmoji)
    else if user !in t.users then Rejected(UnknownUser)
    else if message !in t.messages then Rejected(UnknownMessage)
    else
      var m := t.messages[message];
      if (user, m.serverId) !in t.memberships then Rejected(NotMember)
      else
        var r := Reaction(m.id, user, emoji);
        var endorses := !UserHasAny(t.reactions, m.id, user) && IsFranchisedMember(t, user, m.serverId)
            && user != m.author;
        var added := !HasReaction(t.reactions, r);
        Made([AddReaction(r)] + if added && endorses then Adjust(t, m.author, m.serverId, 1) else [])
  }

  /** Taking back a citizen's last reaction to a message takes back the endorsement. */
  function Unreact(t: Tables, user: UserId, message: MessageId, emoji: string): Outcome {
    if user !in t.users then Rejected(UnknownUser)
    else if message !in t.messages then Rejected(UnknownMessage)
    else
      var m := t.messages[message];
      var removed := HasReaction(t.reactions, Reaction(m.id, user, emoji));
      var still := UserHasAny(WithoutReaction(t.reactions, m.id, user, emoji), m.id, user);
      Made([RemoveReaction(m.id, user, emoji)]
           + if removed && !still && IsFranchisedMember(t, user, m.serverId) && user != m.author
             then Adjust(t, m.author, m.serverId, -1) else [])
  }

  // --- the score as a count -------------------------------------------------------------------------

  /** What the score depends on. */
  datatype Scene = Scene(messages: map<MessageId, Message>, reactions: seq<Reaction>, roll: Franchise.Roll)

  function SceneOf(t: Tables): Scene {
    Scene(t.messages, t.reactions, t.memberships)
  }

  predicate Endorses(sc: Scene, message: MessageId, user: UserId, author: UserId, server: ServerId) {
    && message in sc.messages && sc.messages[message].author == author && sc.messages[message].serverId == server
    && user != author
    && (user, server) in sc.roll && sc.roll[(user, server)].IsFranchised()
  }

  /** Pairs of an own message and another franchised citizen who has at least one reaction on it. */
  function Endorsements(sc: Scene, author: UserId, server: ServerId): set<(MessageId, UserId)> {
    set r | r in sc.reactions && Endorses(sc, r.messageId, r.user, author, server) :: (r.messageId, r.user)
  }

  /** Messages and memberships sit at their own key; every member's score is the count of endorsements. */
  ghost predicate ScoresMatch(sc: Scene) {
    && (forall id :: id in sc.messages ==> sc.messages[id].id == id)
    && (forall k :: k in sc.roll ==> sc.roll[k].userId == k.0 && sc.roll[k].serverId == k.1)
    && (forall k :: k in sc.roll ==> sc.roll[k].contribution == |Endorsements(sc, k.0, k.1)|)
  }

  function Scored(roll: Franchise.Roll, k: Franchise.Key, delta: int): Franchise.Roll {
    if k in roll then
      roll[k := roll[k].(contribution := if roll[k].contribution + delta > 0 then roll[k].contribution + delta else 0)]
    else roll
  }

  function ReactScene(sc: Scene, user: UserId, m: Message, emoji: string): Scene {
    var r := Reaction(m.id, user, emoji);
    var endorses := !UserHasAny(sc.reactions, m.id, user) && user != m.author
                    && (user, m.serverId) in sc.roll && sc.roll[(user, m.serverId)].IsFranchised();
    sc.(reactions := if HasReaction(sc.reactions, r) then sc.reactions else sc.reactions + [r],
        roll := if !HasReaction(sc.reactions, r) && endorses then Scored(sc.roll, (m.author, m.serverId), 1)
                else sc.roll)
  }

  function UnreactScene(sc: Scene, user: UserId, m: Message, emoji: string): Scene {
    var rest := WithoutReaction(sc.reactions, m.id, user, emoji);
    var withdraws := HasReaction(sc.reactions, Reaction(m.id, user, emoji)) && !UserHasAny(rest, m.id, user)
                     && user != m.author && (user, m.serverId) in sc.roll && sc.roll[(user, m.serverId)].IsFranchised();
    sc.(reactions := rest, roll := if withdraws then Scored(sc.roll, (m.author, m.serverId), -1) else sc.roll)
  }

  lemma {:induction false} AdjustGivesRoll(t: Tables, author: UserId, server: ServerId, delta: int)
    requires RollKeyed(t)
    ensures SceneOf(Perform(t, Adjust(t, author, server, delta)))
         == SceneOf(t).(roll := Scored(t.memberships, (author, server), delta))
  {
  }

  lemma {:induction false} PerformFirst(t: Tables, c: Call, rest: seq<Call>)
    ensures Perform(t, [c] + rest) == Perform(TablesAfter(t, c), rest)
    decreases |rest|
  {
    if rest == [] {
      assert [c] + rest == [c];
      PerformOne(t, c);
    } else {
      var n := |rest| - 1;
      assert ([c] + rest)[..n + 1] == [c] + rest[..n];
      PerformFirst(t, c, rest[..n]);
    }
  }

  lemma AdjustAfter(t: Tables, t': Tables, author: UserId, server: ServerId, delta: int)
    requires t'.memberships == t.memberships
    ensures Adjust(t', author, server, delta) == Adjust(t, author, server, delta)
  {
  }

  lemma ReactionCallScene(t: Tables, c: Call)
    requires c.AddReaction? || c.RemoveReaction?
    ensures SceneOf(TablesAfter(t, c)) == SceneOf(t).(reactions := ReactionsAfter(t, c))
  {
  }

  ghost predicate RollKeyed(t: Tables) {
    forall k :: k in t.memberships ==> t.memberships[k].userId == k.0 && t.memberships[k].serverId == k.1
  }

  lemma CallThenAdjust(t: Tables, c: Call, moves: bool, author: UserId, server: ServerId, delta: int)
    requires (c.AddReaction? || c.RemoveReaction?) && RollKeyed(t)
    ensures SceneOf(Perform(t, [c] + if moves then Adjust(t, author, server, delta) else []))
         == SceneOf(t).(reactions := ReactionsAfter(t, c),
                        roll := if moves then Scored(t.memberships, (author, server), delta) else t.memberships)
  {
    var t' := TablesAfter(t, c);
    ReactionCallScene(t, c);
    PerformFirst(t, c, if moves then Adjust(t, author, server, delta) else []);
    AdjustAfter(t, t', author, server, delta);
    AdjustGivesRoll(t', author, server, delta);
  }

  lemma ReactGivesScene(t: Tables, user: UserId, message: MessageId, emoji: string)
    requires React(t, user, message, emoji).Made? && RollKeyed(t)
    ensures SceneOf(Perform(t, React(t, user, message, emoji).calls))
        == ReactScene(SceneOf(t), user, t.messages[message], emoji)
  {
    var m := t.messages[message];
    var r := Reaction(m.id, user, emoji);
    var endorses := !UserHasAny(t.reactions, m.id, user) && IsFranchisedMember(t, user, m.serverId) && user != m.author;
    CallThenAdjust(t, AddReaction(r), !HasReaction(t.reactions, r) && endorses, m.author, m.serverId, 1);
  }

  lemma UnreactGivesScene(t: Tables, user: UserId, message: MessageId, emoji: string)
    requires Unreact(t, user, message, emoji).Made? && RollKeyed(t)
    ensures SceneOf(Perform(t, Unreact(t, user, message, emoji).calls))
        == UnreactScene(SceneOf(t), user, t.messages[message], emoji)
  {
    var m := t.messages[message];
    var removed := HasReaction(t.reactions, Reaction(m.id, user, emoji));
    var still := UserHasAny(WithoutReaction(t.reactions, m.id, user, emoji), m.id, user);
    var moves := removed && !still && IsFranchisedMember(t, user, m.serverId) && user != m.author;
    CallThenAdjust(t, RemoveReaction(m.id, user, emoji), moves, m.author, m.serverId, -1);
  }

  /** A reaction is accepted exactly with an emoji, from a known user who is a member of the message's server; and then
      the message has it, once. */
  lemma ReactedIff(t: Tables, user: UserId, message: MessageId, emoji: string)
    requires RollKeyed(t)
    ensures var o := React(t, user, message, emoji);
            && (o.Made? <==>
                  && emoji != "" && user in t.users && message in t.messages
                  && (user, t.messages[message].serverId) in t.memberships)
            && (o.Made? ==>
                  var r := Reaction(t.messages[message].id, user, emoji);
                  Perform(t, o.calls).reactions == if r in t.reactions then t.reactions else t.reactions + [r])
  {
    if React(t, user, message, emoji).Made? {
      ReactGivesScene(t, user, message, emoji);
    }
  }

  /** It is taken back for any known user and message, member or not; and then it is gone, and every other is there. */
  lemma UnreactedIff(t: Tables, user: UserId, message: MessageId, emoji: string, r: Reaction)
    requires RollKeyed(t)
    ensures var o := Unreact(t, user, message, emoji);
            && (o.Made? <==> user in t.users && message in t.messages)
            && (o.Made? ==>
                  (r in Perform(t, o.calls).reactions <==>
                     r in t.reactions && r != Reaction(t.messages[message].id, user, emoji)))
  {
    if Unreact(t, user, message, emoji).Made? {
      UnreactGivesScene(t, user, message, emoji);
    }
  }

  /** Only scores move: the same members with the same franchise. */
  lemma ReactionsKeepRoll(sc: Scene, user: UserId, m: Message, emoji: string, now: Timestamp)
    requires forall k :: k in sc.roll ==> sc.roll[k].userId == k.0 && sc.roll[k].serverId == k.1
    ensures Franchise.Changes(sc.roll, Franchise.Kept, now, ReactScene(sc, user, m, emoji).roll)
    ensures Franchise.Changes(sc.roll, Franchise.Kept, now, UnreactScene(sc, user, m, emoji).roll)
  {
  }

  // --- conservation -----------------------------------------------------------------------------------

  /** How the endorsements change when a reaction comes: the new pair, if it is one. */
  lemma EndorsementsAfterReact(sc: Scene, user: UserId, m: Message, emoji: string, a: UserId, s: ServerId)
    ensures Endorsements(ReactScene(sc, user, m, emoji), a, s) ==
      Endorsements(sc, a, s) + if Endorses(sc, m.id, user, a, s) then {(m.id, user)} else {}
  {
  }

  lemma EndorsementsAfterUnreact(sc: Scene, user: UserId, m: Message, emoji: string, a: UserId, s: ServerId)
    ensures var rest := WithoutReaction(sc.reactions, m.id, user, emoji);
            Endorsements(UnreactScene(sc, user, m, emoji), a, s) ==
              if UserHasAny(rest, m.id, user) then Endorsements(sc, a, s) else Endorsements(sc, a, s) - {(m.id, user)}
  {
  }

  lemma PairPresent(sc: Scene, user: UserId, m: Message, a: UserId, s: ServerId)
    requires Endorses(sc, m.id, user, a, s)
    ensures (m.id, user) in Endorsements(sc, a, s) <==> UserHasAny(sc.reactions, m.id, user)
  {
  }

  /** One member's score and endorsements, before and after. */
  lemma ReactCounts(sc: Scene, user: UserId, m: Message, emoji: string, a: UserId, s: ServerId)
    ensures |Endorsements(ReactScene(sc, user, m, emoji), a, s)| == |Endorsements(sc, a, s)|
      + if Endorses(sc, m.id, user, a, s) && !UserHasAny(sc.reactions, m.id, user) then 1 else 0
  {
    EndorsementsAfterReact(sc, user, m, emoji, a, s);
    if Endorses(sc, m.id, user, a, s) {
      PairPresent(sc, user, m, a, s);
      if UserHasAny(sc.reactions, m.id, user) {
        assert Endorsements(sc, a, s) + {(m.id, user)} == Endorsements(sc, a, s);
      }
    } else {
      assert Endorsements(sc, a, s) + {} == Endorsements(sc, a, s);
    }
  }

  lemma ReactConserves(sc: Scene, user: UserId, message: MessageId, emoji: string)
    requires ScoresMatch(sc) && message in sc.messages
    ensures ScoresMatch(ReactScene(sc, user, sc.messages[message], emoji))
  {
    var m := sc.messages[message];
    var sc' := ReactScene(sc, user, m, emoji);
    assert HasReaction(sc.reactions, Reaction(m.id, user, emoji)) ==> UserHasAny(sc.reactions, m.id, user);
    forall k | k in sc'.roll ensures sc'.roll[k].contribution == |Endorsements(sc', k.0, k.1)| {
      ReactCounts(sc, user, m, emoji, k.0, k.1);
    }
  }

  predicate TakesLast(sc: Scene, user: UserId, m: Message, emoji: string) {
    HasReaction(sc.reactions, Reaction(m.id, user, emoji))
    && !UserHasAny(WithoutReaction(sc.reactions, m.id, user, emoji), m.id, user)
  }

  lemma UnreactCounts(sc: Scene, user: UserId, m: Message, emoji: string, a: UserId, s: ServerId)
    ensures |Endorsements(UnreactScene(sc, user, m, emoji), a, s)| == |Endorsements(sc, a, s)|
      - if Endorses(sc, m.id, user, a, s) && TakesLast(sc, user, m, emoji) then 1 else 0
  {
    NoneTaken(sc.reactions, m.id, user, emoji);
    EndorsementsAfterUnreact(sc, user, m, emoji, a, s);
    if Endorses(sc, m.id, user, a, s) {
      PairPresent(sc, user, m, a, s);
    } else {
      assert (m.id, user) !in Endorsements(sc, a, s);
    }
    if (m.id, user) !in Endorsements(sc, a, s) {
      assert Endorsements(sc, a, s) - {(m.id, user)} == Endorsements(sc, a, s);
    }
  }

  /** The clamp at zero has nothing to do: an endorsement taken back was counted. */
  lemma UnreactConserves(sc: Scene, user: UserId, message: MessageId, emoji: string)
    requires ScoresMatch(sc) && message in sc.messages
    ensures ScoresMatch(UnreactScene(sc, user, sc.messages[message], emoji))
    ensures var m := sc.messages[message]; var k := (m.author, m.serverId);
            k in sc.roll && UnreactScene(sc, user, m, emoji).roll[k] != sc.roll[k] ==> sc.roll[k].contribution >= 1
  {
    var m := sc.messages[message];
    var sc' := UnreactScene(sc, user, m, emoji);
    forall k | k in sc'.roll
      ensures sc'.roll[k].contribution == |Endorsements(sc', k.0, k.1)|
      ensures sc'.roll[k] != sc.roll[k] ==> sc.roll[k].contribution >= 1
    {
      UnreactCounts(sc, user, m, emoji, k.0, k.1);
    }
  }

  lemma NoneTaken(xs: seq<Reaction>, message: MessageId, user: UserId, emoji: string)
    ensures !HasReaction(xs, Reaction(message, user, emoji)) ==> WithoutReaction(xs, message, user, emoji) == xs
    ensures HasReaction(xs, Reaction(message, user, emoji)) ==> UserHasAny(xs, message, user)
  {
    if !HasReaction(xs, Reaction(message, user, emoji)) {
      RetainAll(xs, (r: Reaction) => !(r.messageId == message && r.user == user && r.emoji == emoji));
    }
  }

  // --- runs -----------------------------------------------------------------------------------------------

  datatype Act =
    | DoReact(user: UserId, message: MessageId, emoji: string)
    | DoUnreact(user: UserId, message: MessageId, emoji: string)

  function Perform1(t: Tables, a: Act): Tables {
    var o := match a case DoReact(u, m, e) => React(t, u, m, e) case DoUnreact(u, m, e) => Unreact(t, u, m, e);
    if o.Made? then Perform(t, o.calls) else t
  }

  function PerformAll(t: Tables, acts: seq<Act>): Tables
    decreases |acts|
  {
    if acts == [] then t else Perform1(PerformAll(t, acts[..|acts| - 1]), acts[|acts| - 1])
  }

  /** Conservation: over any run of reacting and unreacting, from scores that match, every member's contribution
      stays the number of endorsements they have. */
  lemma {:induction false} ContributionIsConserved(t: Tables, acts: seq<Act>)
    requires ScoresMatch(SceneOf(t))
    ensures ScoresMatch(SceneOf(PerformAll(t, acts)))
    decreases |acts|
  {
    if acts != [] {
      var mid := PerformAll(t, acts[..|acts| - 1]);
      ContributionIsConserved(t, acts[..|acts| - 1]);
      match acts[|acts| - 1]
      case DoReact(u, m, e) =>
        if React(mid, u, m, e).Made? {
          ReactGivesScene(mid, u, m, e);
          ReactConserves(SceneOf(mid), u, m, e);
        }
      case DoUnreact(u, m, e) =>
        if Unreact(mid, u, m, e).Made? {
          UnreactGivesScene(mid, u, m, e);
          UnreactConserves(SceneOf(mid), u, m, e);
        }
    }
  }

  /** It starts out matching with no reactions and zero scores. */
  lemma NoReactionsMatch(sc: Scene)
    requires sc.reactions == []
    requires forall id :: id in sc.messages ==> sc.messages[id].id == id
    requires forall k :: k in sc.roll ==>
      sc.roll[k].userId == k.0 && sc.roll[k].serverId == k.1 && sc.roll[k].contribution == 0
    ensures ScoresMatch(sc)
  {
  }

  /** When the reactor's franchise changes in between, the two ends of an endorsement disagree: reacting once and
      taking it back restores the author's score exactly when the reactor's standing is the same both times, or
      there was no endorsement and no score to take from. */
  lemma RoundTripIff(sc: Scene, user: UserId, message: MessageId, emoji: string, standing: Membership)
    requires message in sc.messages && sc.messages[message].id == message
    requires var m := sc.messages[message];
             && !UserHasAny(sc.reactions, message, user) && user != m.author
             && (user, m.serverId) in sc.roll && (m.author, m.serverId) in sc.roll
             && sc.roll[(m.author, m.serverId)].contribution >= 0
    ensures var m := sc.messages[message]; var a := (m.author, m.serverId);
            var reacted := ReactScene(sc, user, m, emoji);
            var changed := reacted.(roll := reacted.roll[(user, m.serverId) := standing]);
            (UnreactScene(changed, user, m, emoji).roll[a].contribution == sc.roll[a].contribution)
            <==> (sc.roll[(user, m.serverId)].IsFranchised() == standing.IsFranchised()
                  || (!sc.roll[(user, m.serverId)].IsFranchised() && sc.roll[a].contribution == 0))
  {
    var m := sc.messages[message];
    var r := Reaction(message, user, emoji);
    assert !HasReaction(sc.reactions, r);
    var reacted := ReactScene(sc, user, m, emoji);
    assert reacted.reactions[|sc.reactions|] == r;
    assert HasReaction(reacted.reactions, r);
    var rest := WithoutReaction(reacted.reactions, message, user, emoji);
    forall i | 0 <= i < |rest| ensures !(rest[i].messageId == message && rest[i].user == user) {
      assert rest[i] in rest;
      if rest[i] in sc.reactions {
        var j :| 0 <= j < |sc.reactions| && sc.reactions[j] == rest[i];
      }
    }
  }
}
