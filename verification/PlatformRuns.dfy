/** The platform end to end: over every run of one node's services, its channels stay whole, and a replica that pulls
    from it catches up. */
module PlatformRuns {
  import opened Domain
  import opened Replica
  import opened Calls
  import opened Governance
  import opened Ids
  import opened ServiceRuns
  import opened SoundRuns
  import opened Feed
  import opened Pulling
  import opened Convergence
  import Chat
  import EndToEnd
  import Forest
  import MessageTree
  import RedoLog
  import Replay

  lemma {:induction false} RunKeepsThreads(node: NodeNumber, acts: seq<Timed>)
    requires IsServiceRun(node, acts)
    ensures Chat.ThreadsOk(RunActs(node, acts).Tables(), RunActs(node, acts).ids)
  {
    var _ := ServiceRunIsSound(node, acts);
  }

  /** For every channel of every reachable store of a single node, threading loses nothing, repeats nothing, and
      orphans no reply: each hangs under the very message it answers, and only what answers nothing is at the top. */
  lemma {:induction false} EveryChannelIsWhole(node: NodeNumber, acts: seq<Timed>, channel: ChannelId)
    requires IsServiceRun(node, acts)
    ensures var list := Chat.ListForChannel(RunActs(node, acts).Tables(), channel);
            && Forest.DistinctIds(list) && Forest.DistinctIds(Forest.Flatten(MessageTree.Tree(list)))
            && (forall m :: m in Forest.Flatten(MessageTree.Tree(list)) <==> m in list)
            && MessageTree.HangsRight(list, MessageTree.Tree(list), None)
            && (forall m :: m in list ==> Forest.KeyOf(list, m) == m.parent)
  {
    RunKeepsThreads(node, acts);
    Chat.ChannelIsWhole(RunActs(node, acts).Tables(), RunActs(node, acts).ids, channel);
  }

  // --- replicas -------------------------------------------------------------------------------------------------

  /** The node, as its feed sees it after a run. */
  function PeerOf(node: NodeNumber, acts: seq<Timed>): Peer {
    Peer(node, RunActs(node, acts).Tables(), RunActs(node, acts).store.outbox)
  }

  /** The registry answers for the node's key, and has it own every scope its rows are in. */
  ghost predicate Answers(v: RegistryView, p: Peer) {
    v.hasKey(p.node) == Answer(Some(p.node)) && EndToEnd.OwnsItsRows(v, p.node, p.tables, p.outbox)
  }

  lemma {:induction false} RunIsFeed(node: NodeNumber, acts: seq<Timed>, v: RegistryView) returns (cs: seq<Call>)
    requires IsServiceRun(node, acts) && Answers(v, PeerOf(node, acts))
    ensures EndToEnd.IsFeed(EMPTY_STORE, cs, v, node) && EndToEnd.PeerAfter(EMPTY_STORE, cs, node) == PeerOf(node, acts)
  {
    cs := ServiceRunIsSound(node, acts);
  }

  /** A replica of the node: the node's rows, without the reactions to messages that are gone. */
  ghost predicate IsReplica(replica: Tables, t: Tables) {
    && Replay.SameRows(replica.(reactions := []), t.(reactions := []))
    && forall x: Reaction :: x in replica.reactions <==> x in t.reactions && x.messageId in t.messages
  }

  lemma CaughtUpFromNothing(replica: Tables, t: Tables)
    requires EndToEnd.IsCaughtUp(EMPTY_TABLES, replica, t)
    ensures IsReplica(replica, t)
    ensures Replay.SameRows(replica, t) <==> forall x :: x in t.reactions ==> x.messageId in t.messages
  {
  }

  /** After any run of a node's services, a peer that starts with nothing and polls often enough, with any page limit,
      has every row that can be signed if and only if no gap stalls it; then it is a replica, with exactly the node's
      rows if and only if no reaction is left over from a removed channel. */
  lemma {:induction false} PlatformReplicates(node: NodeNumber, acts: seq<Timed>, v: RegistryView, limit: nat,
                                              times: nat)
    requires IsServiceRun(node, acts) && Answers(v, PeerOf(node, acts)) && times >= |PeerOf(node, acts).outbox|
    ensures var p := PeerOf(node, acts); var r := PollTimes(p, v, limit, Pull(EMPTY_TABLES, 0), times);
            && (r == AllIn(p, v, Pull(EMPTY_TABLES, 0)) <==> !HasGap(p, v, limit, 0))
            && (!HasGap(p, v, limit, 0) ==>
                  IsReplica(r.tables, p.tables)
                  && (Replay.SameRows(r.tables, p.tables)
                      <==> forall x :: x in p.tables.reactions ==> x.messageId in p.tables.messages))
  {
    var cs := RunIsFeed(node, acts, v);
    var p := PeerOf(node, acts);
    EndToEnd.ReplicaCatchesUp(EMPTY_STORE, cs, v, node, limit, times);
    if !HasGap(p, v, limit, 0) {
      CaughtUpFromNothing(PollTimes(p, v, limit, Pull(EMPTY_TABLES, 0), times).tables, p.tables);
    }
  }

  /** And so it is when it lost its cursor on the way and pulled everything again. */
  lemma {:induction false} PlatformReplicatesAgain(node: NodeNumber, acts: seq<Timed>, v: RegistryView, limit: nat,
                                                   k: nat, times: nat)
    requires IsServiceRun(node, acts) && Answers(v, PeerOf(node, acts)) && !HasGap(PeerOf(node, acts), v, limit, 0)
    requires k <= |PeerOf(node, acts).outbox| <= times
    ensures var p := PeerOf(node, acts);
            var snapshot := Pull(ApplyAll(EMPTY_TABLES, SignableRows(p, v, p.outbox[..k])), 0);
            IsReplica(PollTimes(p, v, limit, snapshot, times).tables, p.tables)
  {
    var cs := RunIsFeed(node, acts, v);
    var p := PeerOf(node, acts);
    EndToEnd.ConsumerRestart(EMPTY_STORE, cs, v, node, limit, k, times);
    var snapshot := Pull(ApplyAll(EMPTY_TABLES, SignableRows(p, v, p.outbox[..k])), 0);
    CaughtUpFromNothing(AllIn(p, v, snapshot).tables, p.tables);
  }
}
