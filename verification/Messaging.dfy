/** The social graph: who may message whom, block, ask and accept; and that every command goes to the owner of the row
    it writes. */
module Messaging {
  import opened Domain
  import opened Replica
  import opened Keyed
  import opened Calls
  import opened Feed
  import opened Commands
  import Blocking
  import RedoLog
  import Scopes

  predicate IsBlockedBetween(t: Tables, a: UserId, b: UserId) {
    exists x | x in t.blocks :: (x.blocker == a && x.blocked == b) || (x.blocker == b && x.blocked == a)
  }

  /** An accepted friendship, whoever asked for it. */
  predicate AreFriends(t: Tables, a: UserId, b: UserId) {
    exists f | f in t.friends ::
      f.status.Accepted? && ((f.requester == a && f.addressee == b) || (f.requester == b && f.addressee == a))
  }

  lemma BlockedIff(t: Tables, a: UserId, b: UserId)
    ensures (exists i | 0 <= i < |BlocksOf(t, b)| :: BlocksOf(t, b)[i].IsBetween(a, b)) <==> IsBlockedBetween(t, a, b)
  {
    var blocks := BlocksOf(t, b);
    if i :| 0 <= i < |blocks| && blocks[i].IsBetween(a, b) { assert blocks[i] in t.blocks; }
    if IsBlockedBetween(t, a, b) {
      var x :| x in t.blocks && ((x.blocker == a && x.blocked == b) || (x.blocker == b && x.blocked == a));
      assert x in blocks;
      var i :| 0 <= i < |blocks| && blocks[i] == x;
      assert blocks[i].IsBetween(a, b);
    }
  }

  lemma FriendsIff(t: Tables, a: UserId, b: UserId)
    ensures var friends := FriendsOf(t, b);
            (exists i | 0 <= i < |friends| :: friends[i].AreFriends() && friends[i].IsBetween(a, b))
            <==> AreFriends(t, a, b)
  {
    var friends := FriendsOf(t, b);
    if i :| 0 <= i < |friends| && friends[i].AreFriends() && friends[i].IsBetween(a, b) {
      assert friends[i] in t.friends;
    }
    if AreFriends(t, a, b) {
      var f :| f in t.friends && f.status.Accepted?
               && ((f.requester == a && f.addressee == b) || (f.requester == b && f.addressee == a));
      assert f in friends;
      var i :| 0 <= i < |friends| && friends[i] == f;
      assert friends[i].AreFriends() && friends[i].IsBetween(a, b);
    }
  }

  /** A message goes through exactly between two different known users, sealed for both, with no block in either
      direction and, to a recipient who takes them from friends only, under an accepted friendship. */
  lemma DmAcceptedIff(t: Tables, a: UserId, b: UserId, forB: string, forA: string, now: Timestamp, id: DmId)
    requires Blocking.UsersKeyed(t)
    ensures UseCase(t, SendDm(a, b, forB, forA), now, id).Some? <==>
      && a in t.users && b in t.users && a != b && forA != "" && forB != ""
      && !IsBlockedBetween(t, a, b) && (t.users[b].dmPolicy.FriendsOnly? ==> AreFriends(t, a, b))
  {
    if a in t.users && b in t.users {
      BlockedIff(t, a, b);
      FriendsIff(t, a, b);
    }
  }

  /** And is stored as it was sent: from one to the other, each with the copy sealed for them. */
  lemma DmIsStored(t: Tables, a: UserId, b: UserId, forB: string, forA: string, now: Timestamp, id: DmId)
    requires Blocking.UsersKeyed(t) && UseCase(t, SendDm(a, b, forB, forA), now, id).Some?
    ensures TablesAfter(t, UseCase(t, SendDm(a, b, forB, forA), now, id).value)
         == t.(dms := t.dms + [DmMessage(id, a, b, forB, forA, now)])
  {
  }

  /** Blocking is open to everybody, against everybody else. */
  lemma BlockAcceptedIff(t: Tables, a: UserId, b: UserId, now: Timestamp, id: DmId)
    ensures UseCase(t, BlockUser(a, b), now, id).Some? <==> a in t.users && b in t.users && a != b
    ensures UseCase(t, BlockUser(a, b), now, id).Some? ==>
      IsBlockedBetween(TablesAfter(t, UseCase(t, BlockUser(a, b), now, id).value), a, b)
  {
    if a in t.users && b in t.users && a != b {
      var t' := TablesAfter(t, AddBlock(Block(a, b, now)));
      if HasBlock(t.blocks, a, b) {
        var i :| 0 <= i < |t.blocks| && t.blocks[i].blocker == a && t.blocks[i].blocked == b;
        assert t.blocks[i] in t'.blocks;
      } else {
        assert t'.blocks[|t.blocks|] == Block(a, b, now);
        assert Block(a, b, now) in t'.blocks;
      }
    }
  }

  /** So is asking for friendship; a new request is pending, and one between two who have a record changes nothing. */
  lemma RequestAcceptedIff(t: Tables, a: UserId, b: UserId, now: Timestamp, id: DmId)
    ensures UseCase(t, RequestFriend(a, b), now, id).Some? <==> a in t.users && b in t.users && a != b
    ensures UseCase(t, RequestFriend(a, b), now, id).Some? ==>
      TablesAfter(t, UseCase(t, RequestFriend(a, b), now, id).value)
      == t.(friends := if HasFriend(t.friends, a, b) then t.friends else t.friends + [Friendship(a, b, Pending, now)])
  {
  }

  lemma {:induction false} FirstBetween(xs: seq<Friendship>, a: UserId, b: UserId)
    ensures Between(xs, a, b).Some? <==> exists f :: f in xs && f.IsBetween(a, b)
    ensures Between(xs, a, b).Some? ==> Between(xs, a, b).value in xs && Between(xs, a, b).value.IsBetween(a, b)
  {
    if xs != [] {
      assert xs == [xs[0]] + xs[1..];
      FirstBetween(xs[1..], a, b);
    }
  }

  /** The store keeps one record per pair. */
  lemma OneBetween(xs: seq<Friendship>, f: Friendship, g: Friendship, a: UserId, b: UserId)
    requires RedoLog.OneFriendshipPerPair(xs) && f in xs && g in xs && f.IsBetween(a, b) && g.IsBetween(a, b)
    ensures f == g
  {
    var i :| 0 <= i < |xs| && xs[i] == f;
    var j :| 0 <= j < |xs| && xs[j] == g;
    assert FriendKey(f) == FriendKey(g);
  }

  /** A request is accepted exactly by the one it was addressed to, while it is pending. */
  lemma AcceptedIff(t: Tables, me: UserId, from: UserId, now: Timestamp, id: DmId)
    requires RedoLog.OneFriendshipPerPair(t.friends)
    ensures UseCase(t, AcceptFriend(me, from), now, id).Some? <==>
      && me in t.users && from in t.users
      && exists f :: f in t.friends && f.status.Pending? && f.requester == from && f.addressee == me
  {
    FirstBetween(t.friends, me, from);
    if f :| f in t.friends && f.status.Pending? && f.requester == from && f.addressee == me {
      assert f.IsBetween(me, from);
      OneBetween(t.friends, f, Between(t.friends, me, from).value, me, from);
    }
  }

  lemma {:induction false} ReplacedHas(xs: seq<Friendship>, f: Friendship)
    requires Between(xs, f.requester, f.addressee).Some?
    ensures f in ReplaceFriend(xs, f)
  {
    if !xs[0].IsBetween(f.requester, f.addressee) { ReplacedHas(xs[1..], f); }
  }

  /** And makes them friends, so that messages pass where friends only may send them. */
  lemma AcceptedAreFriends(t: Tables, me: UserId, from: UserId, now: Timestamp, id: DmId)
    requires RedoLog.OneFriendshipPerPair(t.friends) && UseCase(t, AcceptFriend(me, from), now, id).Some?
    ensures AreFriends(TablesAfter(t, UseCase(t, AcceptFriend(me, from), now, id).value), me, from)
  {
    var f := Between(t.friends, me, from).value;
    FirstBetween(t.friends, me, from);
    FirstBetween(t.friends, f.requester, f.addressee);
    ReplacedHas(t.friends, f.(status := Accepted));
  }

  // --- where commands go -----------------------------------------------------------------------------------

  /** Whatever a command writes belongs to one of the scopes it is sent to, so that whoever runs it for that scope owns
      the row and signs it. */
  lemma CommandsReachTheirOwner(t: Tables, cmd: Command, now: Timestamp, id: DmId)
    requires Blocking.UsersKeyed(t) && UseCase(t, cmd, now, id).Some?
    requires LoggedBy(t, UseCase(t, cmd, now, id).value).Recorded?
    ensures exists s :: s in TargetScopes(cmd, t)
                        && Scopes.BelongsTo(t, LoggedBy(t, UseCase(t, cmd, now, id).value).row, s)
  {
    var row := LoggedBy(t, UseCase(t, cmd, now, id).value).row;
    match cmd
    case CastBallot(p, _, _) => Reaches(t, cmd, row, 0, ServerScope(t.proposals[p].serverId));
    case SendDm(a, _, _, _) => Reaches(t, cmd, row, 0, UserHome(a));
    case BlockUser(a, _) => Reaches(t, cmd, row, 0, UserHome(a));
    case RequestFriend(a, _) => Reaches(t, cmd, row, 0, UserHome(a));
    case AcceptFriend(_, from) => Reaches(t, cmd, row, 1, UserHome(from));
  }

  lemma Reaches(t: Tables, cmd: Command, row: Row, i: nat, s: Scope)
    requires i < |TargetScopes(cmd, t)| && TargetScopes(cmd, t)[i] == s && Scopes.BelongsTo(t, row, s)
    ensures exists s :: s in TargetScopes(cmd, t) && Scopes.BelongsTo(t, row, s)
  {
  }

  /** Blocks and friendships go to both homes, a message to its sender's, a vote to its proposal's server; a vote on a
      proposal not known here goes nowhere. */
  lemma TargetIff(t: Tables, cmd: Command, s: Scope)
    ensures s in TargetScopes(cmd, t) <==>
      match cmd
      case CastBallot(p, _, _) => p in t.proposals && s == ServerScope(t.proposals[p].serverId)
      case SendDm(a, _, _, _) => s == UserHome(a)
      case BlockUser(a, b) => s == UserHome(a) || s == UserHome(b)
      case RequestFriend(a, b) => s == UserHome(a) || s == UserHome(b)
      case AcceptFriend(a, b) => s == UserHome(a) || s == UserHome(b)
  {
  }
}
