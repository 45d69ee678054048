/** Writing in channels: exactly when a message, a reply, an edit or a deletion is accepted, and what is stored then. */
module Posting {
  import opened Domain
  import opened Replica
  import opened Calls
  import opened Chat
  import Franchise
  import Governance

  /** A known user, a member of the server, not under a sanction. */
  predicate MaySpeakIn(t: Tables, user: UserId, server: ServerId) {
    user in t.users && (user, server) in t.memberships && !t.memberships[(user, server)].isSanctioned
  }

  predicate IsChannelOf(t: Tables, channel: ChannelId, server: ServerId) {
    channel in t.channels && t.channels[channel].serverId == server
  }

  /** A message is accepted exactly from one who may speak there, into a plaintext channel of the server, with some
      content; and is stored as written. */
  lemma PostedIff(t: Tables, user: UserId, server: ServerId, channel: ChannelId, body: string, files: seq<string>,
                  id: MessageId, now: Timestamp)
    ensures var p := PostMessage(t, user, server, channel, body, files, id, now);
            && (p.Posted? <==>
                  && server in t.servers && MaySpeakIn(t, user, server) && IsChannelOf(t, channel, server)
                  && !t.channels[channel].isEncrypted && (body != "" || files != []))
            && (p.Posted? ==>
                  p.message == Message(id, t.channels[channel].id, server, user, body, None, None, now, None, false,
                                       files))
  {
  }

  /** A sealed one, exactly into an encrypted channel, and in answer only to a message of that channel. */
  lemma SealedIff(t: Tables, user: UserId, server: ServerId, channel: ChannelId, text: string, epoch: nat,
                  parent: Option<MessageId>, id: MessageId, now: Timestamp)
    ensures var p := PostSealedMessage(t, user, server, channel, text, epoch, parent, id, now);
            && (p.Posted? <==>
                  && server in t.servers && MaySpeakIn(t, user, server) && IsChannelOf(t, channel, server)
                  && t.channels[channel].isEncrypted && text != ""
                  && (parent.Some? ==> parent.value in t.messages
                                       && t.messages[parent.value].channelId == t.channels[channel].id))
            && (p.Posted? ==>
                  var answers := if parent.Some? then Some(t.messages[parent.value].id) else None;
                  p.message == Message(id, t.channels[channel].id, server, user, text, Some(epoch), answers, now, None,
                                       false, []))
  {
  }

  /** A reply, exactly from one who may speak in the server of the message it answers, where that message's channel
      still is and is not encrypted. */
  lemma RepliedIff(t: Tables, user: UserId, to: MessageId, body: string, id: MessageId, now: Timestamp)
    ensures var p := ReplyMessage(t, user, to, body, id, now);
            && (p.Posted? <==>
                  && to in t.messages && t.messages[to].channelId in t.channels && t.messages[to].serverId in t.servers
                  && MaySpeakIn(t, user, t.messages[to].serverId)
                  && !t.channels[t.messages[to].channelId].isEncrypted && body != "")
            && (p.Posted? ==>
                  var c := t.channels[t.messages[to].channelId];
                  p.message == Message(id, c.id, c.serverId, user, body, None, Some(t.messages[to].id), now, None,
                                       false, []))
  {
  }

  /** An edit, exactly by the author and to some text: the message has that text and that time, and is otherwise as it
      was. */
  lemma EditedIff(t: Tables, user: UserId, id: MessageId, body: string, now: Timestamp)
    ensures var p := EditMessage(t, user, id, body, now);
            && (p.Posted? <==> body != "" && user in t.users && id in t.messages && t.messages[id].author == user)
            && (p.Posted? ==>
                  var m := t.messages[id];
                  p.message.body == body && p.message.editedAt == Some(now)
                  && p.message.(body := m.body, editedAt := m.editedAt) == m)
  {
  }

  /** A deletion, exactly by the author: the message keeps its place, its author and its answers, and loses its text and
      its attachments. */
  lemma DeletedIff(t: Tables, user: UserId, id: MessageId)
    ensures var p := DeleteMessage(t, user, id);
            && (p.Posted? <==> user in t.users && id in t.messages && t.messages[id].author == user)
            && (p.Posted? ==>
                  var m := t.messages[id];
                  p.message.isDeleted && p.message.body == "" && p.message.attachments == []
                  && p.message.(isDeleted := m.isDeleted, body := m.body, attachments := m.attachments) == m)
  {
  }

  /** Whatever is accepted is stored under its id, in place of what was there, and nothing else changes. */
  lemma AcceptedIsStored(s: StoreState, p: Posting)
    ensures Stored(s, p).tables
         == if p.Posted? then s.tables.(messages := s.tables.messages[p.message.id := p.message]) else s.tables
  {
  }

  /** A channel is opened by hand exactly by the founder of a server of fewer than ten citizens, under a free name. */
  lemma ChannelOpenedIff(t: Tables, user: UserId, server: ServerId, name: string, topic: string, id: ChannelId,
                         now: Timestamp)
    ensures var o := OpenChannel(t, user, server, name, topic, id, now);
            && (o.Opened? <==>
                  && user in t.users && server in t.servers && t.users[user].id == t.servers[server].founderId
                  && Franchise.CitizenCount(t.memberships, server) < 10 && name != ""
                  && forall c :: c in t.channels && t.channels[c].serverId == server ==> t.channels[c].name != name)
            && (o.Opened? ==> o.channel == Channel(id, server, name, topic, now, false))
  {
    var named := Governance.ChannelsNamed(t, server, name);
    if c :| c in t.channels && t.channels[c].serverId == server && t.channels[c].name == name { assert c in named; }
  }
}
