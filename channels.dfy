/**
 * The channel endpoints (SafeZone-Server/routers/channel.py): only a server's owner creates,
 * renames or deletes its channels, and every successful change is followed by one lobby
 * broadcast.
 */
module Channels {
  import opened Common
  import opened Store
  import opened Presence

  const ServerNotFound := "Server not found"
  const OwnerOnlyCreate := "Only server owner can create channels"
  const ChannelNotFound := "Channel not found"
  const RenameNotAllowed := "Yetkiniz yok!"
  const DeleteNotAllowed := "Yetkisiz"
  /** The text of the `TypeError` raised by `server['owner_id']` when the channel's server row is gone. */
  const NoServerRow := "'NoneType' object is not subscriptable"
  const DuplicateChannelId := "UNIQUE constraint failed: channels.id"

  // ---------------------------------------------------------------------------
  // The checks.
  // ---------------------------------------------------------------------------

  /** The checks of `create_channel`: the caller, the server, the caller owns it, and a fresh id. */
  function CreateCheck(t: Tables, token: string, serverId: string, channelId: string): Reply<()> {
    match UserByToken(t.users, Some(token))
    case None => Fail(InvalidToken)
    case Some(user) =>
      match ServerById(t.servers, serverId)
      case None => Fail(ServerNotFound)
      case Some(server) =>
        if server.ownerId != user.id then Fail(OwnerOnlyCreate)
        else if ChannelById(t.channels, channelId).Some? then Fail(DuplicateChannelId)
        else Success(())
  }

  /**
   * The checks of `rename_channel` and `delete_channel`: the caller, the channel, and the
   * owner of the channel's server; they differ only in the refusal text.
   */
  function OwnerCheck(t: Tables, token: string, channelId: string, refusal: string): Reply<Channel> {
    match UserByToken(t.users, Some(token))
    case None => Fail(InvalidToken)
    case Some(user) =>
      match ChannelById(t.channels, channelId)
      case None => Fail(ChannelNotFound)
      case Some(channel) =>
        match ServerById(t.servers, channel.serverId)
        case None => Fail(NoServerRow)
        case Some(server) => if server.ownerId != user.id then Fail(refusal) else Success(channel)
  }

  /** Only the owner of the channel's server passes. */
  lemma OwnerCheckOnlyOwner(t: Tables, token: string, channelId: string, refusal: string)
    requires OwnerCheck(t, token, channelId, refusal).Success?
    ensures var channel := OwnerCheck(t, token, channelId, refusal).body;
      && channel in t.channels && channel.id == channelId
      && ServerById(t.servers, channel.serverId).Some?
      && Some(ServerById(t.servers, channel.serverId).value.ownerId) == (match UserByToken(t.users, Some(token)) case Some(u) => Some(u.id) case None => None)
  {
  }

  // ---------------------------------------------------------------------------
  // The writes.
  // ---------------------------------------------------------------------------

  /** `INSERT INTO channels (id, server_id, name, type)`. */
  function AddChannel(t: Tables, c: Channel): Tables {
    t.(channels := t.channels + [c])
  }

  lemma AddChannelValid(t: Tables, c: Channel)
    requires ValidTables(t) && ChannelById(t.channels, c.id).None?
    ensures ValidTables(AddChannel(t, c))
  {
    AppendPairwise(t.channels, c, DistinctChannels);
  }

  /** The created channel is found under its id. */
  lemma AddChannelFound(t: Tables, c: Channel)
    requires ChannelById(t.channels, c.id).None?
    ensures ChannelById(AddChannel(t, c).channels, c.id) == Some(c)
  {
    var channels := AddChannel(t, c).channels;
    assert channels[|t.channels|] == c;
    var found := ChannelById(channels, c.id).value;
    var k :| 0 <= k < |channels| && channels[k] == found;
    assert k == |t.channels|;
  }

  /** `UPDATE channels SET name = ? WHERE id = ?`. */
  function RenameChannel(channels: seq<Channel>, id: string, name: string): (r: seq<Channel>)
    ensures |r| == |channels|
    ensures forall i :: 0 <= i < |r| ==> r[i] == if channels[i].id == id then channels[i].(name := name) else channels[i]
  {
    MapSeq(channels, (c: Channel) => if c.id == id then c.(name := name) else c)
  }

  lemma RenameValid(t: Tables, id: string, name: string)
    requires ValidTables(t)
    ensures ValidTables(t.(channels := RenameChannel(t.channels, id, name)))
  {
    var r := RenameChannel(t.channels, id, name);
    forall i, j | 0 <= i < j < |r| ensures DistinctChannels(r[i], r[j]) {
      assert DistinctChannels(t.channels[i], t.channels[j]);
    }
  }

  /** After a rename the channel carries the new name, in the same server, with the same type. */
  lemma RenameEffect(channels: seq<Channel>, id: string, name: string)
    requires ChannelById(channels, id).Some?
    ensures ChannelById(RenameChannel(channels, id, name), id) == Some(ChannelById(channels, id).value.(name := name))
  {
    var r := RenameChannel(channels, id, name);
    var c := ChannelById(channels, id).value;
    var k :| 0 <= k < |channels| && channels[k] == c && forall i :: 0 <= i < k ==> channels[i].id != id;
    assert r[k] == c.(name := name);
    var found := ChannelById(r, id).value;
    var j :| 0 <= j < |r| && r[j] == found && forall i :: 0 <= i < j ==> r[i].id != id;
    assert j == k by {
      assert r[k].id == id && r[j].id == id;
      assert !(j < k) && !(k < j);
    }
  }

  /** The two DELETEs of `delete_channel`: the channel's messages, then the channel. */
  function RemoveChannel(t: Tables, id: string): Tables {
    t.(channelMessages := Filter(t.channelMessages, (m: ChannelMessage) => m.channelId != id),
       channels := Filter(t.channels, (c: Channel) => c.id != id))
  }

  lemma RemoveChannelValid(t: Tables, id: string)
    requires ValidTables(t)
    ensures ValidTables(RemoveChannel(t, id))
  {
    FilterPairwise(t.channelMessages, (m: ChannelMessage) => m.channelId != id, DistinctChannelMessages);
    FilterPairwise(t.channels, (c: Channel) => c.id != id, DistinctChannels);
    var r := RemoveChannel(t, id);
    forall i | 0 <= i < |r.channelMessages| ensures r.channelMessages[i].id < r.nextChannelMessageId {
      assert r.channelMessages[i] in t.channelMessages;
    }
  }

  /** After a delete the channel and its messages are gone and every other row is kept. */
  lemma RemoveChannelEffect(t: Tables, id: string)
    ensures var r := RemoveChannel(t, id);
      && ChannelById(r.channels, id).None?
      && (forall c :: c in r.channels <==> c in t.channels && c.id != id)
      && (forall m :: m in r.channelMessages <==> m in t.channelMessages && m.channelId != id)
  {
    var r := RemoveChannel(t, id);
    assert forall i :: 0 <= i < |r.channels| ==> r.channels[i] in r.channels;
  }

  // ---------------------------------------------------------------------------
  // The endpoints.
  // ---------------------------------------------------------------------------

  /** `create_channel`: one channel under the given fresh id, then one lobby broadcast. */
  method CreateChannel(hub: Hub, token: string, serverId: string, name: string, kind: string, channelId: string)
    returns (r: Reply<string>)
    requires hub.Valid() && hub.db.Valid()
    modifies hub.db`channels, hub`sent, hub`lobby
    ensures hub.Valid() && hub.db.Valid()
    ensures match CreateCheck(old(hub.db.State()), token, serverId, channelId)
      case Failure(m) =>
        r == Failure(m) && hub.db.channels == old(hub.db.channels) && hub.sent == old(hub.sent) && hub.lobby == old(hub.lobby)
      case Success(_) =>
        && r == Success(channelId)
        && hub.db.State() == AddChannel(old(hub.db.State()), Channel(channelId, serverId, name, kind))
        && hub.sent == Post(old(hub.sent), LiveRegistered(old(hub.lobby), hub.dead), LobbySnapshot(old(hub.lobby), hub.rooms, hub.db.users))
        && hub.lobby == DropDead(old(hub.lobby), hub.dead)
  {
    var check := CreateCheck(hub.db.State(), token, serverId, channelId);
    if check.Failure? {
      return Failure(check.message);
    }
    InsertChannel(hub.db, Channel(channelId, serverId, name, kind));
    hub.BroadcastRoomUpdate();
    r := Success(channelId);
  }

  /** The INSERT of `create_channel`, under an id no channel has. */
  method InsertChannel(db: Db, c: Channel)
    requires db.Valid() && ChannelById(db.channels, c.id).None?
    modifies db`channels
    ensures db.Valid() && db.State() == AddChannel(old(db.State()), c)
  {
    ghost var t := db.State();
    AddChannelValid(t, c);
    db.channels := db.channels + [c];
    assert db.State() == AddChannel(t, c);
  }

  /** `rename_channel` (owner only): that channel's name, then one lobby broadcast. */
  method Rename(hub: Hub, token: string, channelId: string, name: string) returns (r: Reply<()>)
    requires hub.Valid() && hub.db.Valid()
    modifies hub.db`channels, hub`sent, hub`lobby
    ensures hub.Valid() && hub.db.Valid()
    ensures match OwnerCheck(old(hub.db.State()), token, channelId, RenameNotAllowed)
      case Failure(m) =>
        r == Failure(m) && hub.db.channels == old(hub.db.channels) && hub.sent == old(hub.sent) && hub.lobby == old(hub.lobby)
      case Success(_) =>
        && r == Success(())
        && hub.db.State() == old(hub.db.State()).(channels := RenameChannel(old(hub.db.channels), channelId, name))
        && hub.sent == Post(old(hub.sent), LiveRegistered(old(hub.lobby), hub.dead), LobbySnapshot(old(hub.lobby), hub.rooms, hub.db.users))
        && hub.lobby == DropDead(old(hub.lobby), hub.dead)
  {
    var check := OwnerCheck(hub.db.State(), token, channelId, RenameNotAllowed);
    if check.Failure? {
      return Failure(check.message);
    }
    var db := hub.db;
    ghost var t := db.State();
    RenameValid(t, channelId, name);
    db.channels := RenameChannel(db.channels, channelId, name);
    assert db.State() == t.(channels := RenameChannel(t.channels, channelId, name));
    hub.BroadcastRoomUpdate();
    r := Success(());
  }

  /** `delete_channel` (owner only): its messages and the channel, then one lobby broadcast. */
  method Delete(hub: Hub, token: string, channelId: string) returns (r: Reply<()>)
    requires hub.Valid() && hub.db.Valid()
    modifies hub.db`channels, hub.db`channelMessages, hub`sent, hub`lobby
    ensures hub.Valid() && hub.db.Valid()
    ensures match OwnerCheck(old(hub.db.State()), token, channelId, DeleteNotAllowed)
      case Failure(m) =>
        && r == Failure(m) && hub.db.State() == old(hub.db.State())
        && hub.sent == old(hub.sent) && hub.lobby == old(hub.lobby)
      case Success(_) =>
        && r == Success(())
        && hub.db.State() == RemoveChannel(old(hub.db.State()), channelId)
        && hub.sent == Post(old(hub.sent), LiveRegistered(old(hub.lobby), hub.dead), LobbySnapshot(old(hub.lobby), hub.rooms, hub.db.users))
        && hub.lobby == DropDead(old(hub.lobby), hub.dead)
  {
    var check := OwnerCheck(hub.db.State(), token, channelId, DeleteNotAllowed);
    if check.Failure? {
      return Failure(check.message);
    }
    var db := hub.db;
    ghost var t := db.State();
    RemoveChannelValid(t, channelId);
    db.channelMessages := Filter(db.channelMessages, (m: ChannelMessage) => m.channelId != channelId);
    db.channels := Filter(db.channels, (c: Channel) => c.id != channelId);
    assert db.State() == RemoveChannel(t, channelId);
    hub.BroadcastRoomUpdate();
    r := Success(());
  }
}
