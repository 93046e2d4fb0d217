/**
 * The web client's server, channel and friend data (SafeZone-Web/src/hooks/useServerData.js):
 * which server and channel are selected, how a refreshed server list updates the selection,
 * which endpoint leaving uses, and what each action does with the reply. `fetch`, `alert`,
 * `window.confirm` and `localStorage` are recorded or given as parameters.
 */
module ServerData {
  import opened Common

  /** Servers and channels are identified by the uuid text the server created them with; users by their integer row id. */
  datatype Channel = Channel(id: string, name: string, kind: string)
  datatype Server = Server(id: string, ownerId: int, channels: seq<Channel>)
  datatype Friend = Friend(id: int, username: string)
  /** A pending request as `GET /friends` lists it: its id is the text `req_` followed by the other user's name. */
  datatype PendingRequest = PendingRequest(id: string, username: string)
  datatype FriendRequests = FriendRequests(incoming: seq<PendingRequest>, outgoing: seq<PendingRequest>)

  datatype Request =
    | ServerListRequest(token: Option<string>)
    | FriendsRequest(token: Option<string>)
    | MembersRequest(token: Option<string>, serverId: string)
    | CreateServerRequest(token: Option<string>, name: string)
    | JoinServerRequest(token: Option<string>, inviteCode: string)
    | LeaveRequest(endpoint: string, token: Option<string>, serverId: string)
    | CreateChannelRequest(token: Option<string>, serverId: string, channelName: string, channelType: string)
    | AddFriendRequest(token: Option<string>, friendTag: string)
    | RemoveFriendRequest(token: Option<string>, friendId: int)
    | RespondRequest(token: Option<string>, requestId: string, action: string)
    | RespondByNameRequest(token: Option<string>, senderUsername: string, action: string)

  /** What a successful action refreshes. */
  datatype Refresh = RefreshServers | RefreshFriends

  const DeleteEndpoint := "/server/delete"
  const LeaveEndpoint := "/server/leave"
  const BlockNotice := "Engelleme \U{F6}zelli\U{11F}i yak\U{131}nda!"

  function IsText(): Channel -> bool {
    (c: Channel) => c.kind == "text"
  }

  /** `server.channels.find(c => c.type === 'text')`. */
  function FirstText(channels: seq<Channel>): (r: Option<Channel>)
    ensures r.None? <==> forall c :: c in channels ==> c.kind != "text"
    ensures r.Some? ==> r.value.kind == "text" && exists k :: 0 <= k < |channels| && channels[k] == r.value && forall i :: 0 <= i < k ==> channels[i].kind != "text"
  {
    FindFirst(channels, IsText())
  }

  function HasId(id: string): Server -> bool {
    (s: Server) => s.id == id
  }

  /** `servers.find(s => s.id === id)`. */
  function FindServer(servers: seq<Server>, id: string): (r: Option<Server>)
    ensures r.None? <==> forall s :: s in servers ==> s.id != id
    ensures r.Some? ==> r.value.id == id && exists k :: 0 <= k < |servers| && servers[k] == r.value && forall i :: 0 <= i < k ==> servers[i].id != id
  {
    FindFirst(servers, HasId(id))
  }

  /** The selection after a successful list refresh: the entry with the same id, or the old selection when there is none. */
  function Refreshed(selected: Option<Server>, servers: seq<Server>): (r: Option<Server>)
    ensures selected.None? ==> r.None?
    ensures selected.Some? && FindServer(servers, selected.value.id).Some? ==> r == FindServer(servers, selected.value.id)
    ensures selected.Some? && FindServer(servers, selected.value.id).None? ==> r == selected
  {
    if selected.None? then None
    else match FindServer(servers, selected.value.id)
      case Some(s) => Some(s)
      case None => selected
  }

  /** A refresh never changes which server is selected, only its data. */
  lemma RefreshKeepsId(selected: Option<Server>, servers: seq<Server>)
    ensures Refreshed(selected, servers).Some? <==> selected.Some?
    ensures selected.Some? ==> Refreshed(selected, servers).value.id == selected.value.id
  {
  }

  /** Refreshing with the same list twice is refreshing once. */
  lemma RefreshIdempotent(selected: Option<Server>, servers: seq<Server>)
    ensures Refreshed(Refreshed(selected, servers), servers) == Refreshed(selected, servers)
  {
    RefreshKeepsId(selected, servers);
  }

  /** `handleLeaveServer`'s choice: deleting when the user owns the first listed server with that id, leaving otherwise. */
  function LeaveChoice(servers: seq<Server>, serverId: string, userId: int): (r: string)
    ensures r == DeleteEndpoint <==> exists k :: 0 <= k < |servers| && servers[k].id == serverId && servers[k].ownerId == userId && forall i :: 0 <= i < k ==> servers[i].id != serverId
    ensures r == DeleteEndpoint || r == LeaveEndpoint
  {
    var found := FindServer(servers, serverId);
    if found.Some? && found.value.ownerId == userId then DeleteEndpoint else LeaveEndpoint
  }

  class ServerData {
    var myServers: seq<Server>
    var friends: seq<Friend>
    var friendRequests: FriendRequests
    var serverMembers: seq<Friend>
    var selectedServer: Option<Server>
    var selectedChannel: Option<Channel>
    /** `localStorage['safezone_last_server']`. */
    var lastServer: Option<string>
    var requests: seq<Request>
    var alerts: seq<string>

    constructor()
      ensures myServers == [] && friends == [] && friendRequests == FriendRequests([], []) && serverMembers == []
      ensures selectedServer == None && selectedChannel == None && lastServer == None && requests == [] && alerts == []
    {
      myServers, friends, friendRequests, serverMembers := [], [], FriendRequests([], []), [];
      selectedServer, selectedChannel, lastServer := None, None, None;
      requests, alerts := [], [];
    }

    /** `fetchFriends()`: nothing without a token. */
    method FetchFriends(token: Option<string>)
      modifies this`requests
      ensures requests == old(requests) + (if Truthy(token) then [FriendsRequest(token)] else [])
    {
      if Truthy(token) {
        requests := requests + [FriendsRequest(token)];
      }
    }

    /** `fetchServers()`: nothing without a token; otherwise the friends fetch, then the list fetch. */
    method FetchServers(token: Option<string>)
      modifies this`requests
      ensures requests == old(requests) + (if Truthy(token) then [FriendsRequest(token), ServerListRequest(token)] else [])
    {
      if !Truthy(token) {
        return;
      }
      FetchFriends(token);
      requests := requests + [ServerListRequest(token)];
    }

    /** The list reply: on success the list is replaced and the selection refreshed. */
    method ServersArrived(status: string, servers: seq<Server>)
      modifies this`myServers, this`selectedServer
      ensures status == "success" ==> myServers == servers && selectedServer == Refreshed(old(selectedServer), servers)
      ensures status != "success" ==> myServers == old(myServers) && selectedServer == old(selectedServer)
    {
      if status == "success" {
        myServers := servers;
        selectedServer := Refreshed(selectedServer, servers);
      }
    }

    /** The members reply. */
    method MembersArrived(status: string, members: seq<Friend>)
      modifies this`serverMembers
      ensures serverMembers == if status == "success" then members else old(serverMembers)
    {
      if status == "success" {
        serverMembers := members;
      }
    }

    /** The friends reply. */
    method FriendsArrived(status: string, fs: seq<Friend>, rs: FriendRequests)
      modifies this`friends, this`friendRequests
      ensures status == "success" ==> friends == fs && friendRequests == rs
      ensures status != "success" ==> friends == old(friends) && friendRequests == old(friendRequests)
    {
      if status == "success" {
        friends := fs;
        friendRequests := rs;
      }
    }

    /**
     * `selectServer(server)`: the channel is reset; a server fetches its members, is remembered
     * and gets its first text channel; no server forgets the remembered one.
     */
    method SelectServer(server: Option<Server>, token: Option<string>)
      modifies this`selectedServer, this`selectedChannel, this`lastServer, this`requests
      ensures selectedServer == server
      ensures server.None? ==> selectedChannel == None && lastServer == None && requests == old(requests)
      ensures server.Some? ==>
        && selectedChannel == FirstText(server.value.channels)
        && lastServer == Some(server.value.id)
        && requests == old(requests) + [MembersRequest(token, server.value.id)]
    {
      selectedServer := server;
      selectedChannel := None;
      if server.Some? {
        requests := requests + [MembersRequest(token, server.value.id)];
        lastServer := Some(server.value.id);
        var firstText := FirstText(server.value.channels);
        if firstText.Some? {
          selectedChannel := firstText;
        }
      } else {
        lastServer := None;
      }
    }

    method CreateServer(token: Option<string>, name: string)
      modifies this`requests
      ensures requests == old(requests) + [CreateServerRequest(token, name)]
    {
      requests := requests + [CreateServerRequest(token, name)];
    }

    method JoinServer(token: Option<string>, inviteCode: string)
      modifies this`requests
      ensures requests == old(requests) + [JoinServerRequest(token, inviteCode)]
    {
      requests := requests + [JoinServerRequest(token, inviteCode)];
    }

    method CreateChannel(token: Option<string>, serverId: string, channelName: string, channelType: string)
      modifies this`requests
      ensures requests == old(requests) + [CreateChannelRequest(token, serverId, channelName, channelType)]
    {
      requests := requests + [CreateChannelRequest(token, serverId, channelName, channelType)];
    }

    method AddFriend(token: Option<string>, friendTag: string)
      modifies this`requests
      ensures requests == old(requests) + [AddFriendRequest(token, friendTag)]
    {
      requests := requests + [AddFriendRequest(token, friendTag)];
    }

    /**
     * The reply to a create, join, create-channel or add-friend request: true only on
     * 'success', which refreshes the servers (or, for a friend, the friends); otherwise the
     * server's message is alerted.
     */
    method ActionReplied(status: string, message: string, token: Option<string>, refresh: Refresh) returns (ok: bool)
      modifies this`requests, this`alerts
      ensures ok <==> status == "success"
      ensures ok && refresh == RefreshServers ==> requests == old(requests) + (if Truthy(token) then [FriendsRequest(token), ServerListRequest(token)] else [])
      ensures ok && refresh == RefreshFriends ==> requests == old(requests) + (if Truthy(token) then [FriendsRequest(token)] else [])
      ensures ok ==> alerts == old(alerts)
      ensures !ok ==> requests == old(requests) && alerts == old(alerts) + [message]
    {
      ok := status == "success";
      if ok {
        if refresh == RefreshServers {
          FetchServers(token);
        } else {
          FetchFriends(token);
        }
      } else {
        alerts := alerts + [message];
      }
    }

    /** `handleLeaveServer(serverId)`: after the confirmation, a request to the endpoint `LeaveChoice` picks. */
    method LeaveServer(confirmed: bool, serverId: string, userId: int, token: Option<string>)
      modifies this`requests
      ensures !confirmed ==> requests == old(requests)
      ensures confirmed ==> requests == old(requests) + [LeaveRequest(LeaveChoice(myServers, serverId, userId), token, serverId)]
    {
      if !confirmed {
        return;
      }
      requests := requests + [LeaveRequest(LeaveChoice(myServers, serverId, userId), token, serverId)];
    }

    /** The leave reply: on success the selection clears and the servers refresh; otherwise the message is alerted. */
    method LeaveReplied(status: string, message: string, token: Option<string>) returns (ok: bool)
      modifies this`selectedServer, this`requests, this`alerts
      ensures ok <==> status == "success"
      ensures ok ==>
        && selectedServer == None && alerts == old(alerts)
        && requests == old(requests) + (if Truthy(token) then [FriendsRequest(token), ServerListRequest(token)] else [])
      ensures !ok ==> selectedServer == old(selectedServer) && requests == old(requests) && alerts == old(alerts) + [message]
    {
      ok := status == "success";
      if ok {
        selectedServer := None;
        FetchServers(token);
      } else {
        alerts := alerts + [message];
      }
    }

    /** `removeFriend(friendId)`: after the confirmation, the request, then the friends refresh. */
    method RemoveFriend(confirmed: bool, friendId: int, token: Option<string>)
      modifies this`requests
      ensures !confirmed ==> requests == old(requests)
      ensures confirmed ==> requests == old(requests) + [RemoveFriendRequest(token, friendId)] + (if Truthy(token) then [FriendsRequest(token)] else [])
    {
      if !confirmed {
        return;
      }
      requests := requests + [RemoveFriendRequest(token, friendId)];
      FetchFriends(token);
    }

    /** `respondFriendRequest(requestId, action)`: the request, then the friends refresh. */
    method RespondFriendRequest(requestId: string, action: string, token: Option<string>)
      modifies this`requests
      ensures requests == old(requests) + [RespondRequest(token, requestId, action)] + (if Truthy(token) then [FriendsRequest(token)] else [])
    {
      requests := requests + [RespondRequest(token, requestId, action)];
      FetchFriends(token);
    }

    /**
     * The answer the server can act on: the body names the sender by `sender_username`,
     * which the caller already holds, instead of the made-up request id.
     */
    method AnswerFriendRequest(senderUsername: string, action: string, token: Option<string>)
      modifies this`requests
      ensures requests == old(requests) + [RespondByNameRequest(token, senderUsername, action)] + (if Truthy(token) then [FriendsRequest(token)] else [])
    {
      requests := requests + [RespondByNameRequest(token, senderUsername, action)];
      FetchFriends(token);
    }

    /** `blockUser(user)`: only a notice that the feature is not there yet. */
    method BlockUser(confirmed: bool)
      modifies this`alerts
      ensures alerts == old(alerts) + (if confirmed then [BlockNotice] else [])
    {
      if confirmed {
        alerts := alerts + [BlockNotice];
      }
    }
  }
}
