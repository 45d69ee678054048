/** Channels opened by a founder; posting, replying, editing and deleting in them; and what each write keeps: replies
    take larger ids than what they answer, so a channel's forest loses nothing. */
module Chat {
  import opened Domain
  import opened Replica
  import opened Calls
  import opened Store
  import opened Forest
  import opened MessageTree
  import opened Ids
  import Franchise
  import Governance

  datatype ChannelError = UnknownFounder | UnknownServer | NotProvisionable | EmptyName | NameTaken

  datatype Opening = NotOpened(error: ChannelError) | Opened(channel: Channel)

  /** While a server is a seed, and only then, its founder opens channels by hand. */
  function OpenChannel(t: Tables, user: UserId, server: ServerId, name: string, topic: string, id: ChannelId,
                       now: Timestamp): Opening {
    if user !in t.users then NotOpened(UnknownFounder)
    else if server !in t.servers then NotOpened(UnknownServer)
    else if !Franchise.PhaseOf(Franchise.CitizenCount(t.memberships, server)).Seed?
            || t.users[user].id != t.servers[server].founderId then NotOpened(NotProvisionable)
    else if name == "" then NotOpened(EmptyName)
    else if Governance.ChannelsNamed(t, server, name) != {} then NotOpened(NameTaken)
    else Opened(Channel(id, server, name, topic, now, false))
  }

  datatype ChatError =
    | NoUser | NoServer | NotMember | Sanctioned | NoChannel | ChannelEncrypted | NotEncrypted | EmptyBody | NoMessage
    | CrossChannelReply | NotTheAuthor

  datatype Posting = Refused(error: ChatError) | Posted(message: Message)

  /** Who may post where: a known user, a member not under sanction. */
  function MembershipGate(t: Tables, user: UserId, server: ServerId): Option<ChatError> {
    if (user, server) !in t.memberships then Some(NotMember)
    else if t.memberships[(user, server)].isSanctioned then Some(Sanctioned)
    else None
  }

  function ResolvePoster(t: Tables, user: UserId, server: ServerId, channel: ChannelId): Option<ChatError> {
    if user !in t.users then Some(NoUser)
    else if server !in t.servers then Some(NoServer)
    else if MembershipGate(t, user, server).Some? then MembershipGate(t, user, server)
    else if channel !in t.channels || t.channels[channel].serverId != server then Some(NoChannel)
    else None
  }

  /** A plaintext message, or nothing: not into an encrypted channel, and not without any content. */
  function NewMessage(author: UserId, c: Channel, body: string, parent: Option<MessageId>, attachments: seq<string>,
                      id: MessageId, now: Timestamp): Posting {
    if c.isEncrypted then Refused(ChannelEncrypted)
    else if body == "" && attachments == [] then Refused(EmptyBody)
    else Posted(Message(id, c.id, c.serverId, author, body, None, parent, now, None, false, attachments))
  }

  function PostMessage(t: Tables, user: UserId, server: ServerId, channel: ChannelId, body: string,
                       attachments: seq<string>,
                       id: MessageId, now: Timestamp): Posting {
    match ResolvePoster(t, user, server, channel)
    case Some(e) => Refused(e)
    case None => NewMessage(user, t.channels[channel], body, None, attachments, id, now)
  }

  function PostSealedMessage(t: Tables, user: UserId, server: ServerId, channel: ChannelId, ciphertext: string,
                             keyEpoch: nat,
                             parent: Option<MessageId>, id: MessageId, now: Timestamp): Posting {
    match ResolvePoster(t, user, server, channel)
    case Some(e) => Refused(e)
    case None =>
      var c := t.channels[channel];
      if !c.isEncrypted then Refused(NotEncrypted)
      else if ciphertext == "" then Refused(EmptyBody)
      else if parent.Some? && parent.value !in t.messages then Refused(NoMessage)
      else if parent.Some? && t.messages[parent.value].channelId != c.id then Refused(CrossChannelReply)
      else
        Posted(Message(id, c.id, c.serverId, user, ciphertext, Some(keyEpoch),
                       if parent.Some? then Some(t.messages[parent.value].id) else None, now, None, false, []))
  }

  function ReplyMessage(t: Tables, user: UserId, parent: MessageId, body: string, id: MessageId, now: Timestamp)
    : Posting
  {
    if parent !in t.messages then Refused(NoMessage)
    else
      var p := t.messages[parent];
      if p.channelId !in t.channels then Refused(NoChannel)
      else if p.serverId !in t.servers then Refused(NoServer)
      else if user !in t.users then Refused(NoUser)
      else
        match MembershipGate(t, user, p.serverId)
        case Some(e) => Refused(e)
        case None => NewMessage(user, t.channels[p.channelId], body, Some(p.id), [], id, now)
  }

  function EditMessage(t: Tables, user: UserId, id: MessageId, body: string, now: Timestamp): Posting {
    if body == "" then Refused(EmptyBody)
    else if user !in t.users then Refused(NoUser)
    else if id !in t.messages then Refused(NoMessage)
    else if t.messages[id].author != user then Refused(NotTheAuthor)
    else Posted(t.messages[id].(body := body, editedAt := Some(now)))
  }

  /** A deleted message is blanked in place, so its replies stay threaded. */
  function DeleteMessage(t: Tables, user: UserId, id: MessageId): Posting {
    if user !in t.users then Refused(NoUser)
    else if id !in t.messages then Refused(NoMessage)
    else if t.messages[id].author != user then Refused(NotTheAuthor)
    else Posted(t.messages[id].(body := "", attachments := [], isDeleted := true))
  }

  function Stored(s: StoreState, p: Posting): StoreState {
    if p.Posted? then Exec(s, PutMessage(p.message)) else s
  }

  function ErrorOf(p: Posting): Option<ChatError> {
    if p.Refused? then Some(p.error) else None
  }

  function NextIds(ids: Counters): Counters {
    ids.(messages := ids.messages + 1)
  }

  function Numbered(ids: Counters, p: Posting): Counters {
    if p.Posted? then NextIds(ids) else ids
  }

  /** Uploaded media by key, in storage of its own; deleting an unknown key does nothing. */
  class MediaStore {
    var blobs: map<string, seq<bv8>>

    constructor ()
      ensures blobs == map[]
    {
      blobs := map[];
    }

    method Delete(key: string)
      modifies this
      ensures blobs == old(blobs) - {key}
    {
      blobs := blobs - {key};
    }
  }

  /** An attachment is known by the key of its blob. */
  function BlobsOf(attachments: seq<string>): set<string> {
    set key | key in attachments
  }

  /** A message its author asked for, or why not. */
  datatype Authored = Theirs(message: Message) | NotTheirs(error: ChatError)

  class ChatService {
    const store: MemoryStore
    const media: MediaStore

    constructor (store: MemoryStore, media: MediaStore)
      ensures this.store == store && this.media == media
    {
      this.store := store;
      this.media := media;
    }

    method CreateChannel(user: UserId, server: ServerId, name: string, topic: string, now: Timestamp)
      returns (r: Option<ChannelError>)
      modifies store`tables, store`outbox, store`nextOutbox, store`counters
      ensures var ids := old(store.counters).(channels := old(store.counters).channels + 1);
              var o := OpenChannel(old(store.tables), user, server, name, topic, ids.Channel(), now);
              && store.State() == (if o.Opened? then Exec(old(store.State()), PutChannel(o.channel))
                                   else old(store.State()))
              && store.counters == (if o.Opened? then ids else old(store.counters))
              && r == (if o.NotOpened? then Some(o.error) else None)
    {
      if user !in store.tables.users {
        return Some(UnknownFounder);
      }
      if server !in store.tables.servers {
        return Some(UnknownServer);
      }
      var citizens := Franchise.CitizenCount(store.tables.memberships, server);
      var phase := Franchise.PhaseOf(citizens);
      if !(phase.Seed? && store.tables.users[user].id == store.tables.servers[server].founderId) {
        return Some(NotProvisionable);
      }
      if name == "" {
        return Some(EmptyName);
      }
      if Governance.ChannelsNamed(store.tables, server, name) != {} {
        return Some(NameTaken);
      }
      var id := store.NextChannelId();
      store.PutChannel(Channel(id, server, name, topic, now, false));
      return None;
    }

    /** The guard every plaintext message passes, and the write. */
    method InsertMessage(author: UserId, c: Channel, body: string, parent: Option<MessageId>,
                         attachments: seq<string>, now: Timestamp)
      returns (r: Option<ChatError>)
      modifies store`tables, store`outbox, store`nextOutbox, store`counters
      ensures var p := NewMessage(author, c, body, parent, attachments, NextIds(old(store.counters)).Message(), now);
              && store.State() == Stored(old(store.State()), p) && r == ErrorOf(p)
              && store.counters == Numbered(old(store.counters), p)
    {
      if c.isEncrypted {
        return Some(ChannelEncrypted);
      }
      if body == "" && attachments == [] {
        return Some(EmptyBody);
      }
      var id := store.NextMessageId();
      var message := Message(id, c.id, c.serverId, author, body, None, parent, now, None, false, []);
      message := message.(attachments := attachments);
      store.PutMessage(message);
      return None;
    }

    method Post(user: UserId, server: ServerId, channel: ChannelId, body: string, attachments: seq<string>,
                now: Timestamp)
      returns (r: Option<ChatError>)
      modifies store`tables, store`outbox, store`nextOutbox, store`counters
      ensures var p := PostMessage(old(store.tables), user, server, channel, body, attachments,
                                   NextIds(old(store.counters)).Message(), now);
              && store.State() == Stored(old(store.State()), p) && r == ErrorOf(p)
              && store.counters == Numbered(old(store.counters), p)
    {
      var refusal := ResolvePoster(store.tables, user, server, channel);
      if refusal.Some? {
        return refusal;
      }
      r := InsertMessage(user, store.tables.channels[channel], body, None, attachments, now);
    }

    method Reply(user: UserId, parent: MessageId, body: string, now: Timestamp) returns (r: Option<ChatError>)
      modifies store`tables, store`outbox, store`nextOutbox, store`counters
      ensures var p := ReplyMessage(old(store.tables), user, parent, body, NextIds(old(store.counters)).Message(), now);
              && store.State() == Stored(old(store.State()), p) && r == ErrorOf(p)
              && store.counters == Numbered(old(store.counters), p)
    {
      if parent !in store.tables.messages {
        return Some(NoMessage);
      }
      var p := store.tables.messages[parent];
      if p.channelId !in store.tables.channels {
        return Some(NoChannel);
      }
      if p.serverId !in store.tables.servers {
        return Some(NoServer);
      }
      if user !in store.tables.users {
        return Some(NoUser);
      }
      if (user, p.serverId) !in store.tables.memberships {
        return Some(NotMember);
      }
      if store.tables.memberships[(user, p.serverId)].isSanctioned {
        return Some(Sanctioned);
      }
      r := InsertMessage(user, store.tables.channels[p.channelId], body, Some(p.id), [], now);
    }

    method PostSealed(user: UserId, server: ServerId, channel: ChannelId, ciphertext: string, keyEpoch: nat,
                      parent: Option<MessageId>, now: Timestamp) returns (r: Option<ChatError>)
      modifies store`tables, store`outbox, store`nextOutbox, store`counters
      ensures var p := PostSealedMessage(old(store.tables), user, server, channel, ciphertext, keyEpoch, parent,
                                         NextIds(old(store.counters)).Message(), now);
              && store.State() == Stored(old(store.State()), p) && r == ErrorOf(p)
              && store.counters == Numbered(old(store.counters), p)
    {
      var refusal := ResolvePoster(store.tables, user, server, channel);
      if refusal.Some? {
        return refusal;
      }
      var c := store.tables.channels[channel];
      if !c.isEncrypted {
        return Some(NotEncrypted);
      }
      if ciphertext == "" {
        return Some(EmptyBody);
      }
      var under: Option<MessageId> := None;
      if parent.Some? {
        if parent.value !in store.tables.messages {
          return Some(NoMessage);
        }
        var p := store.tables.messages[parent.value];
        if p.channelId != c.id {
          return Some(CrossChannelReply);
        }
        under := Some(p.id);
      }
      var id := store.NextMessageId();
      store.PutMessage(Message(id, c.id, c.serverId, user, ciphertext, Some(keyEpoch), under, now, None, false, []));
      return None;
    }

    /** The stored message of its author; otherwise the error says which of the three is missing. */
    method AuthoredMessage(user: UserId, id: MessageId) returns (r: Authored)
      ensures r.Theirs? <==> user in store.tables.users && id in store.tables.messages
                             && store.tables.messages[id].author == user
      ensures r.Theirs? ==> r.message == store.tables.messages[id]
      ensures r.NotTheirs? ==>
        && (r.error == NoUser <==> user !in store.tables.users)
        && (r.error == NoMessage <==> user in store.tables.users && id !in store.tables.messages)
        && (r.error == NotTheAuthor <==> user in store.tables.users && id in store.tables.messages)
    {
      if user !in store.tables.users {
        return NotTheirs(NoUser);
      }
      if id !in store.tables.messages {
        return NotTheirs(NoMessage);
      }
      var message := store.tables.messages[id];
      if message.author != user {
        return NotTheirs(NotTheAuthor);
      }
      return Theirs(message);
    }

    method Edit(user: UserId, id: MessageId, body: string, now: Timestamp) returns (r: Option<ChatError>)
      modifies store`tables, store`outbox, store`nextOutbox
      ensures var p := EditMessage(old(store.tables), user, id, body, now);
              store.State() == Stored(old(store.State()), p) && r == ErrorOf(p)
    {
      if body == "" {
        return Some(EmptyBody);
      }
      var found := AuthoredMessage(user, id);
      if found.NotTheirs? {
        return Some(found.error);
      }
      var message := found.message.(body := body);
      message := message.(editedAt := Some(now));
      store.PutMessage(message);
      return None;
    }

    /** The attachments' blobs go first, then the message is blanked. */
    method Delete(user: UserId, id: MessageId) returns (r: Option<ChatError>)
      modifies store`tables, store`outbox, store`nextOutbox, media
      ensures var p := DeleteMessage(old(store.tables), user, id);
              store.State() == Stored(old(store.State()), p) && r == ErrorOf(p)
      ensures media.blobs == if r.None? then old(media.blobs) - BlobsOf(old(store.tables).messages[id].attachments)
                             else old(media.blobs)
    {
      var found := AuthoredMessage(user, id);
      if found.NotTheirs? {
        return Some(found.error);
      }
      var keys := found.message.attachments;
      for i := 0 to |keys|
        modifies media
        invariant media.blobs == old(media.blobs) - BlobsOf(keys[..i])
      {
        media.Delete(keys[i]);
        assert BlobsOf(keys[..i + 1]) == BlobsOf(keys[..i]) + {keys[i]};
      }
      assert keys[..|keys|] == keys;
      store.PutMessage(found.message.(body := "", attachments := [], isDeleted := true));
      return None;
    }
  }

  // --- what a write keeps -------------------------------------------------------------------------------------

  datatype ChatAct =
    | Say(user: UserId, server: ServerId, channel: ChannelId, body: string, attachments: seq<string>)
    | Seal(user: UserId, server: ServerId, channel: ChannelId, ciphertext: string, keyEpoch: nat,
        parent: Option<MessageId>)
    | Answer(user: UserId, to: MessageId, body: string)
    | Edit(user: UserId, message: MessageId, body: string)
    | Tombstone(user: UserId, message: MessageId)

  function PostingOf(t: Tables, ids: Counters, a: ChatAct, now: Timestamp): Posting {
    var id := NextIds(ids).Message();
    match a
    case Say(u, s, c, body, attachments) => PostMessage(t, u, s, c, body, attachments, id, now)
    case Seal(u, s, c, text, epoch, parent) => PostSealedMessage(t, u, s, c, text, epoch, parent, id, now)
    case Answer(u, parent, body) => ReplyMessage(t, u, parent, body, id, now)
    case Edit(u, m, body) => EditMessage(t, u, m, body, now)
    case Tombstone(u, m) => DeleteMessage(t, u, m)
  }

  predicate Mints(a: ChatAct) { a.Say? || a.Seal? || a.Answer? }

  /** Channels and messages sit at their own id, messages under ids this node's counter has handed out; and the
      message a reply answers is stored, in the same channel, under a smaller id. */
  ghost predicate ThreadsOk(t: Tables, ids: Counters) {
    && (forall id :: id in t.channels ==> t.channels[id].id == id)
    && forall id :: id in t.messages ==> MessageOk(t, ids, id)
  }

  predicate MessageOk(t: Tables, ids: Counters, id: MessageId)
    requires id in t.messages
  {
    t.messages[id].id == id && id <= ids.Message() && AnswersNearby(t.messages, t.messages[id])
  }

  predicate AnswersNearby(messages: map<MessageId, Message>, m: Message) {
    m.parent.Some? ==>
      m.parent.value < m.id && m.parent.value in messages && messages[m.parent.value].channelId == m.channelId
  }

  /** What a use-case writes: a new message above every id so far, or a stored one with its place in the thread as
      it was. */
  lemma PostingFits(t: Tables, ids: Counters, a: ChatAct, now: Timestamp)
    requires ThreadsOk(t, ids) && PostingOf(t, ids, a, now).Posted? && (Mints(a) ==> NextIds(ids).Fit())
    ensures var m := PostingOf(t, ids, a, now).message;
            && AnswersNearby(t.messages, m)
            && (if Mints(a) then m.id == NextIds(ids).Message() && ids.Message() < m.id
                else m.id in t.messages && m.IsBeside(t.messages[m.id]))
  {
    if Mints(a) { MintedIdsGrow(ids.node, ids.messages, ids.messages + 1); }
  }

  /** A message written at its place, under an id handed out by now, keeps every thread. */
  lemma WritingKeepsThreads(t: Tables, ids: Counters, ids': Counters, m: Message)
    requires ThreadsOk(t, ids) && ids.Message() <= ids'.Message() && m.id <= ids'.Message()
    requires AnswersNearby(t.messages, m)
    requires m.id in t.messages ==> m.IsBeside(t.messages[m.id])
    ensures ThreadsOk(TablesAfter(t, PutMessage(m)), ids')
  {
    var t' := TablesAfter(t, PutMessage(m));
    assert t'.messages == t.messages[m.id := m] && t'.channels == t.channels;
    forall id | id in t'.messages ensures MessageOk(t', ids', id) {
      if id != m.id { assert MessageOk(t, ids, id); }
    }
  }

  /** Nothing else writes messages, and a channel goes with all of its threads. */
  lemma OthersKeepThreads(t: Tables, ids: Counters, ids': Counters, c: Call)
    requires ThreadsOk(t, ids) && ids.Message() <= ids'.Message() && !c.PutMessage?
    ensures ThreadsOk(TablesAfter(t, c), ids')
  {
    forall id | id in TablesAfter(t, c).messages ensures MessageOk(TablesAfter(t, c), ids', id) {
      assert MessageOk(t, ids, id);
    }
  }

  /** A channel's messages, oldest first. */
  function ListForChannel(t: Tables, channel: ChannelId): (r: seq<Message>)
    ensures forall m :: m in r <==> exists id :: id in t.messages && t.messages[id] == m && m.channelId == channel
  {
    var ids := set id | id in t.messages && t.messages[id].channelId == channel;
    var sorted := Sorted(ids);
    var r := seq(|sorted|, i requires 0 <= i < |sorted| => assert sorted[i] in sorted; t.messages[sorted[i]]);
    ListHolds(t, channel, sorted, r);
    r
  }

  lemma ListHolds(t: Tables, channel: ChannelId, sorted: seq<nat>, r: seq<Message>)
    requires forall x :: x in sorted <==> x in t.messages && t.messages[x].channelId == channel
    requires |r| == |sorted| && forall i :: 0 <= i < |r| ==> sorted[i] in t.messages && r[i] == t.messages[sorted[i]]
    ensures forall m :: m in r <==> exists id :: id in t.messages && t.messages[id] == m && m.channelId == channel
  {
  }

  lemma ListIsDistinct(t: Tables, ids: Counters, channel: ChannelId)
    requires ThreadsOk(t, ids)
    ensures DistinctIds(ListForChannel(t, channel)) && RepliesFollow(ListForChannel(t, channel))
  {
    var here := set id | id in t.messages && t.messages[id].channelId == channel;
    var sorted := Sorted(here);
    var r := ListForChannel(t, channel);
    forall i | 0 <= i < |r| ensures r[i].id == sorted[i] {
      assert sorted[i] in sorted;
      assert MessageOk(t, ids, sorted[i]);
    }
    forall m | m in r && m.parent.Some? ensures m.parent.value < m.id {
      var id :| id in t.messages && t.messages[id] == m && m.channelId == channel;
      assert MessageOk(t, ids, id);
    }
  }

  /** In a channel every reply finds the message it answers. */
  lemma ListKeepsParents(t: Tables, ids: Counters, channel: ChannelId)
    requires ThreadsOk(t, ids)
    ensures var list := ListForChannel(t, channel); forall m :: m in list ==> KeyOf(list, m) == m.parent
  {
  }

  /** Where threads are kept, threading a channel loses nothing, repeats nothing, and orphans no reply: each hangs
      under the very message it answers, and only what answers nothing is at the top. */
  lemma {:induction false} ChannelIsWhole(t: Tables, ids: Counters, channel: ChannelId)
    requires ThreadsOk(t, ids)
    ensures var list := ListForChannel(t, channel);
            && DistinctIds(list) && DistinctIds(Flatten(Tree(list)))
            && (forall m :: m in Flatten(Tree(list)) <==> m in list)
            && HangsRight(list, Tree(list), None) && (forall m :: m in list ==> KeyOf(list, m) == m.parent)
  {
    ListIsDistinct(t, ids, channel);
    ListKeepsParents(t, ids, channel);
    NothingIsLost(ListForChannel(t, channel));
    ForestHangsRight(ListForChannel(t, channel));
  }
}
