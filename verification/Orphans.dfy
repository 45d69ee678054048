/** A channel removal takes its messages along, on the producer and through its record on every replica, but not the
    reactions to them, and a reaction whose message is gone resolves to no server. The smallest run on which a replica
    therefore never holds the producer's rows, and on which one page limit stops the pull altogether. */
module Orphans {
  import opened Domain
  import opened Replica
  import opened Keyed
  import opened Calls
  import opened Feed
  import opened Pulling
  import opened Convergence
  import opened Discipline
  import EndToEnd
  import RedoLog
  import Services

  /** A node with one channel. */
  function OneChannel(c: Channel): StoreState {
    StoreState(EMPTY_TABLES.(channels := map[c.id := c]), [], 0)
  }

  /** A message in it, a reaction to that message, and the removal of the channel. */
  function ReactedThenRemoved(m: Message, x: Reaction): seq<Call> {
    [PutMessage(m), AddReaction(x), RemoveChannel(m.channelId)]
  }

  predicate IsScene(c: Channel, m: Message, x: Reaction) {
    m.channelId == c.id && m.serverId == c.serverId && x.messageId == m.id
  }

  lemma ExecThree(s: StoreState, a: Call, b: Call, c: Call)
    ensures ExecAll(s, [a, b, c]) == Exec(Exec(Exec(s, a), b), c)
  {
    assert [a, b, c][..2] == [a, b];
    Services.ExecTwo(s, a, b);
  }

  function BeforeRemoval(c: Channel, m: Message, x: Reaction): StoreState {
    StoreState(OneChannel(c).tables.(messages := map[m.id := m], reactions := [x]),
               [RecordFor(1, Upsert, MessageRow(m)), RecordFor(2, Upsert, ReactionRow(x))], 2)
  }

  lemma PostedAndReacted(c: Channel, m: Message, x: Reaction)
    requires IsScene(c, m, x)
    ensures Exec(Exec(OneChannel(c), PutMessage(m)), AddReaction(x)) == BeforeRemoval(c, m, x)
  {
  }

  /** What the producer is left with. */
  lemma SceneOutcome(c: Channel, m: Message, x: Reaction)
    requires IsScene(c, m, x)
    ensures var end := ExecAll(OneChannel(c), ReactedThenRemoved(m, x));
            && end.tables.channels == map[] && end.tables.messages == map[] && end.tables.reactions == [x]
            && end.outbox == [RecordFor(1, Upsert, MessageRow(m)), RecordFor(2, Upsert, ReactionRow(x)),
                              RecordFor(3, Delete, ChannelRow(c))]
  {
    ExecThree(OneChannel(c), PutMessage(m), AddReaction(x), RemoveChannel(c.id));
    PostedAndReacted(c, m, x);
    RedoLog.ExecTables(BeforeRemoval(c, m, x), RemoveChannel(c.id));
  }

  lemma SceneIsDisciplined(c: Channel, m: Message, x: Reaction)
    requires IsScene(c, m, x)
    ensures IsDisciplined(OneChannel(c), ReactedThenRemoved(m, x)) && RedoLog.IsWellFormed(OneChannel(c).tables)
  {
    var s, cs := OneChannel(c), ReactedThenRemoved(m, x);
    assert cs[..0] == [] && cs[..1] == [PutMessage(m)];
    Services.ExecOne(s, PutMessage(m));
    forall i | 0 <= i < |cs| ensures IsDisciplinedAt(s, cs, i) {}
  }

  /** The node owns the channel's server. */
  predicate IsOwner(v: RegistryView, node: NodeId, c: Channel) {
    v.hasKey(node) == Answer(Some(node)) && MyEpoch(v, node, ServerScope(c.serverId)).Some?
  }

  lemma SceneIsOwned(c: Channel, m: Message, x: Reaction, v: RegistryView, node: NodeId, t: Tables)
    requires IsScene(c, m, x) && IsOwner(v, node, c) && t.messages == map[]
    ensures EndToEnd.OwnsItsRows(v, node, t, [RecordFor(1, Upsert, MessageRow(m)), RecordFor(2, Upsert, ReactionRow(x)),
                                              RecordFor(3, Delete, ChannelRow(c))])
  {
    assert ScopeOf(t, RecordFor(1, Upsert, MessageRow(m))) == Some(ServerScope(c.serverId));
    assert ScopeOf(t, RecordFor(2, Upsert, ReactionRow(x))) == None;
    assert ScopeOf(t, RecordFor(3, Delete, ChannelRow(c))) == Some(ServerScope(c.serverId));
  }

  lemma SceneIsFeed(c: Channel, m: Message, x: Reaction, v: RegistryView, node: NodeId)
    requires IsScene(c, m, x) && IsOwner(v, node, c)
    ensures EndToEnd.IsFeed(OneChannel(c), ReactedThenRemoved(m, x), v, node)
  {
    SceneOutcome(c, m, x);
    SceneIsDisciplined(c, m, x);
    SceneIsOwned(c, m, x, v, node, ExecAll(OneChannel(c), ReactedThenRemoved(m, x)).tables);
  }

  /** The replica has the producer's rows at no time, however often it polls and with whatever page limit: the
      reaction never reaches it. */
  lemma {:induction false} ReactionNeverArrives(c: Channel, m: Message, x: Reaction, v: RegistryView, node: NodeId,
                                                limit: nat, times: nat)
    requires IsScene(c, m, x) && IsOwner(v, node, c)
    ensures var p := EndToEnd.PeerAfter(OneChannel(c), ReactedThenRemoved(m, x), node);
            && p.tables.reactions == [x]
            && x !in PollTimes(p, v, limit, Pull(OneChannel(c).tables, 0), times).tables.reactions
  {
    SceneOutcome(c, m, x);
    SceneIsFeed(c, m, x, v, node);
    EndToEnd.OrphansStay(OneChannel(c), ReactedThenRemoved(m, x), v, node, limit, times, x);
  }

  lemma ReactionIsGap(c: Channel, m: Message, x: Reaction, v: RegistryView, node: NodeId)
    requires IsScene(c, m, x) && IsOwner(v, node, c)
    ensures IsGap(EndToEnd.PeerAfter(OneChannel(c), ReactedThenRemoved(m, x), node), v, 1, 1)
  {
    var s, cs := OneChannel(c), ReactedThenRemoved(m, x);
    var p := EndToEnd.PeerAfter(s, cs, node);
    SceneOutcome(c, m, x);
    SceneIsFeed(c, m, x, v, node);
    EndToEnd.LeftOffIff(s, cs, v, node, 1);
    EndToEnd.LeftOffIff(s, cs, v, node, 2);
    assert NoneSignable(p, v, 1, 2) && IsSignable(p, v, p.outbox[2]);
  }

  /** With pages of one row the reaction is a gap, and the removal of the channel behind it never arrives either. */
  lemma {:induction false} RemovalNeverArrives(c: Channel, m: Message, x: Reaction, v: RegistryView, node: NodeId,
                                               times: nat)
    requires IsScene(c, m, x) && IsOwner(v, node, c)
    ensures var p := EndToEnd.PeerAfter(OneChannel(c), ReactedThenRemoved(m, x), node);
            && p.tables.channels == map[] && IsGap(p, v, 1, 1)
            && c.id in PollTimes(p, v, 1, Pull(OneChannel(c).tables, 0), times).tables.channels
  {
    var s, cs := OneChannel(c), ReactedThenRemoved(m, x);
    var p := EndToEnd.PeerAfter(s, cs, node);
    SceneOutcome(c, m, x);
    SceneIsFeed(c, m, x, v, node);
    EndToEnd.LogIsNumbered(s, cs);
    EndToEnd.WholeFeedDeliverable(s, cs, v, node, s.tables);
    ReactionIsGap(c, m, x, v, node);
    var k := PollsReach(p, v, 1, Pull(s.tables, 0), times);
    ChannelStays(p, v, c, m, k);
  }

  lemma ChannelStays(p: Peer, v: RegistryView, c: Channel, m: Message, k: nat)
    requires k <= 1 <= |p.outbox| && p.outbox[0] == RecordFor(1, Upsert, MessageRow(m))
    ensures c.id in ApplyAll(OneChannel(c).tables, Between(p, v, 0, k)).channels
  {
    if k == 1 {
      var rec := p.outbox[0];
      assert p.outbox[0..1] == [] + [rec];
      RetainOneMore([], rec, SignableBy(p, v));
      ApplyLast(OneChannel(c).tables, [], rec);
    }
  }
}
