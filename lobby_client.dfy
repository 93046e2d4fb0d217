/**
 * The web client's lobby connection (SafeZone-Web/src/hooks/useLobby.js): the socket it opens,
 * what each incoming lobby frame does to the presence and DM state, and the frames and
 * requests it sends. React state is modelled as fields updated when the setter runs; sockets,
 * `fetch` and sounds are recorded, not performed.
 */
module LobbyClient {
  import opened Common
  import Api

  /** An entry of `online_users`: a bare name (the legacy form) or an object. */
  datatype OnlineEntry = Legacy(name: string) | Person(username: string, status: Option<string>)

  datatype DmEntry = DmEntry(sender: string, content: string, timestamp: string)

  /** A frame the lobby socket receives, after `JSON.parse`. */
  datatype Incoming =
    | LobbyUpdate(totalOnline: int, roomDetails: Option<map<string, seq<string>>>, onlineUsers: Option<seq<OnlineEntry>>)
    | DmReceived(sender: string, content: string, timestamp: string)
    | Pong(echoed: int)
    /** Another `type`, or text that does not parse (the `catch` only logs). */
    | Other

  /** A frame the client writes on the lobby socket. */
  datatype Outgoing = StatusUpdate(status: string) | Ping(timestamp: int)

  /** A `fetch` the client issues. */
  datatype Request = DmHistoryRequest(token: string, username: string) | DmSendRequest(token: string, receiver: string, content: string)

  // ---------------------------------------------------------------------------
  // The `online_users` walk of a lobby_update.
  // ---------------------------------------------------------------------------

  /** An entry survives unless it is an object marked invisible that is not named by the client's own uuid. */
  function Kept(ownUuid: string): OnlineEntry -> bool {
    (e: OnlineEntry) => !(e.Person? && e.status == Some("invisible") && e.username != ownUuid)
  }

  function IdOf(e: OnlineEntry): string {
    if e.Legacy? then e.name else e.username
  }

  function OnlineIds(entries: seq<OnlineEntry>, ownUuid: string): seq<string> {
    MapSeq(Filter(entries, Kept(ownUuid)), IdOf)
  }

  /** Entry `i` is a kept object for `username`. */
  predicate KeptPersonAt(entries: seq<OnlineEntry>, ownUuid: string, username: string, i: int) {
    0 <= i < |entries| && entries[i].Person? && entries[i].username == username && Kept(ownUuid)(entries[i])
  }

  /** `statuses[u.username] = u.status` for each kept object, in order: the last one for a name wins. */
  function StatusesOf(entries: seq<OnlineEntry>, ownUuid: string): map<string, Option<string>>
    decreases |entries|
  {
    if entries == [] then map[]
    else
      var m := StatusesOf(entries[..|entries| - 1], ownUuid);
      var e := entries[|entries| - 1];
      if e.Person? && Kept(ownUuid)(e) then m[e.username := e.status] else m
  }

  /** The online ids: every legacy name, and the name of every object that is not invisible or carries the client's uuid as its username. */
  lemma OnlineIdsMembership(entries: seq<OnlineEntry>, ownUuid: string)
    ensures forall e :: e in entries && e.Legacy? ==> e.name in OnlineIds(entries, ownUuid)
    ensures forall e :: e in entries && e.Person? && (e.status != Some("invisible") || e.username == ownUuid) ==> e.username in OnlineIds(entries, ownUuid)
    ensures forall x :: x in OnlineIds(entries, ownUuid) ==> exists e :: e in entries && Kept(ownUuid)(e) && IdOf(e) == x
  {
    var kept := Filter(entries, Kept(ownUuid));
    var ids := OnlineIds(entries, ownUuid);
    forall e | e in entries && Kept(ownUuid)(e) ensures IdOf(e) in ids {
      var k :| 0 <= k < |kept| && kept[k] == e;
      assert ids[k] == IdOf(e);
    }
    forall x | x in ids ensures exists e :: e in entries && Kept(ownUuid)(e) && IdOf(e) == x {
      var k :| 0 <= k < |ids| && ids[k] == x;
      assert kept[k] in kept;
    }
  }

  /** A name has a status exactly when a kept object carries it, and the status is the one of its last such object. */
  lemma {:induction false} StatusesOfLast(entries: seq<OnlineEntry>, ownUuid: string, username: string)
    ensures username in StatusesOf(entries, ownUuid) <==> exists i :: KeptPersonAt(entries, ownUuid, username, i)
    ensures username in StatusesOf(entries, ownUuid) ==>
      exists i :: KeptPersonAt(entries, ownUuid, username, i) && StatusesOf(entries, ownUuid)[username] == entries[i].status
        && forall j :: i < j < |entries| ==> !KeptPersonAt(entries, ownUuid, username, j)
    decreases |entries|
  {
    if entries != [] {
      var front := entries[..|entries| - 1];
      var last := |entries| - 1;
      StatusesOfLast(front, ownUuid, username);
      var m, big := StatusesOf(front, ownUuid), StatusesOf(entries, ownUuid);
      forall i | 0 <= i < last ensures KeptPersonAt(front, ownUuid, username, i) == KeptPersonAt(entries, ownUuid, username, i) {
        assert front[i] == entries[i];
      }
      if KeptPersonAt(entries, ownUuid, username, last) {
        assert big == m[username := entries[last].status];
        assert big[username] == entries[last].status;
      } else {
        assert username in big <==> username in m;
        assert username in m ==> big[username] == m[username];
        if username in m {
          var i :| KeptPersonAt(front, ownUuid, username, i) && m[username] == front[i].status
            && forall j :: i < j < |front| ==> !KeptPersonAt(front, ownUuid, username, j);
          assert KeptPersonAt(entries, ownUuid, username, i);
        }
      }
    }
  }

  /** One more entry through the walk. */
  lemma ParseStep(entries: seq<OnlineEntry>, i: nat, ownUuid: string)
    requires i < |entries|
    ensures OnlineIds(entries[..i + 1], ownUuid) == OnlineIds(entries[..i], ownUuid) + (if Kept(ownUuid)(entries[i]) then [IdOf(entries[i])] else [])
    ensures StatusesOf(entries[..i + 1], ownUuid) ==
      var m := StatusesOf(entries[..i], ownUuid);
      if entries[i].Person? && Kept(ownUuid)(entries[i]) then m[entries[i].username := entries[i].status] else m
  {
    var u := entries[i];
    assert entries[..i + 1] == entries[..i] + [u];
    assert entries[..i + 1][..i] == entries[..i];
    FilterAppend(entries[..i], [u], Kept(ownUuid));
    MapAppend(Filter(entries[..i], Kept(ownUuid)), Filter([u], Kept(ownUuid)), IdOf);
  }

  /**
   * The `forEach` over `data.online_users` that pushes onto `ids` and fills `statuses`; the
   * walk runs only for a present, non-empty list.
   */
  method ParseOnline(users: Option<seq<OnlineEntry>>, ownUuid: string) returns (ids: seq<string>, statuses: map<string, Option<string>>)
    ensures ids == OnlineIds(users.GetOr([]), ownUuid)
    ensures statuses == StatusesOf(users.GetOr([]), ownUuid)
  {
    ids, statuses := [], map[];
    if users.None? || |users.value| == 0 {
      return;
    }
    var entries := users.value;
    var i := 0;
    while i < |entries|
      invariant 0 <= i <= |entries|
      invariant ids == OnlineIds(entries[..i], ownUuid)
      invariant statuses == StatusesOf(entries[..i], ownUuid)
    {
      var u := entries[i];
      ParseStep(entries, i, ownUuid);
      if u.Legacy? {
        ids := ids + [u.name];
      } else if u.status == Some("invisible") && u.username != ownUuid {
      } else {
        ids := ids + [u.username];
        statuses := statuses[u.username := u.status];
      }
      i := i + 1;
    }
    assert entries[..i] == entries;
  }

  lemma {:induction false} MapAppend<T, U>(s: seq<T>, t: seq<T>, f: T -> U)
    ensures MapSeq(s + t, f) == MapSeq(s, f) + MapSeq(t, f)
  {
    var a := MapSeq(s + t, f);
    var b := MapSeq(s, f) + MapSeq(t, f);
    assert |a| == |b|;
    forall i | 0 <= i < |a| ensures a[i] == b[i] {
      if i < |s| { assert (s + t)[i] == s[i]; } else { assert (s + t)[i] == t[i - |s|]; }
    }
  }

  /** `{ ...prev, ...statuses }`: the new snapshot's statuses override, every other known status stays. */
  function MergeStatuses(prev: map<string, Option<string>>, statuses: map<string, Option<string>>): (r: map<string, Option<string>>)
    ensures forall k :: k in r <==> k in prev || k in statuses
    ensures forall k :: k in statuses ==> r[k] == statuses[k]
    ensures forall k :: k in prev && k !in statuses ==> r[k] == prev[k]
  {
    prev + statuses
  }

  // ---------------------------------------------------------------------------
  // The hook's state.
  // ---------------------------------------------------------------------------

  class Lobby {
    /** `lobbyWs.current`: the URL of the current socket, if any. */
    var socket: Option<string>
    /** The socket has reached `readyState === OPEN`. */
    var open: bool
    /** URLs of the sockets `close()` was called on. */
    var closed: seq<string>
    var onlineUserIds: seq<string>
    var userStatuses: map<string, Option<string>>
    var totalUsers: int
    var roomDetails: map<string, seq<string>>
    var ping: Option<int>
    var dmHistory: seq<DmEntry>
    /** `selectedDM.username`. */
    var selectedDm: Option<string>
    var sent: seq<Outgoing>
    var requests: seq<Request>
    /** How often `fetchServers` was called. */
    var refreshes: nat
    /** How often the message sound played. */
    var sounds: nat

    constructor()
      ensures socket == None && !open && closed == [] && onlineUserIds == [] && userStatuses == map[]
      ensures totalUsers == 0 && roomDetails == map[] && ping == None && dmHistory == [] && selectedDm == None
      ensures sent == [] && requests == [] && refreshes == 0 && sounds == 0
    {
      socket, open, closed := None, false, [];
      onlineUserIds, userStatuses, totalUsers, roomDetails, ping := [], map[], 0, map[], None;
      dmHistory, selectedDm := [], None;
      sent, requests, refreshes, sounds := [], [], 0, 0;
    }

    /** `connectToLobby()`: without a token or a uuid nothing happens; otherwise the old socket is closed and a new one opened. */
    method ConnectToLobby(token: Option<string>, uuid: Option<string>, pageProtocol: string)
      modifies this`socket, this`open, this`closed
      ensures !Truthy(token) || !Truthy(uuid) ==> socket == old(socket) && open == old(open) && closed == old(closed)
      ensures Truthy(token) && Truthy(uuid) ==>
        && socket == Some(Api.GetUrl("/ws/lobby/" + uuid.value, "ws", pageProtocol))
        && !open
        && closed == old(closed) + (if old(socket).Some? then [old(socket).value] else [])
    {
      if !Truthy(token) || !Truthy(uuid) {
        return;
      }
      if socket.Some? {
        closed := closed + [socket.value];
      }
      socket := Some(Api.GetUrl("/ws/lobby/" + uuid.value, "ws", pageProtocol));
      open := false;
    }

    /** The socket's open event. */
    method Opened()
      modifies this`open
      ensures open
    {
      open := true;
    }

    /** `onmessage` for a `lobby_update`; `hasRefresh` says whether a `fetchServers` callback was passed. */
    method OnLobbyUpdate(totalOnline: int, details: Option<map<string, seq<string>>>, users: Option<seq<OnlineEntry>>, ownUuid: string, hasRefresh: bool)
      modifies this`totalUsers, this`roomDetails, this`onlineUserIds, this`userStatuses, this`refreshes
      ensures totalUsers == totalOnline
      ensures roomDetails == details.GetOr(map[])
      ensures onlineUserIds == OnlineIds(users.GetOr([]), ownUuid)
      ensures userStatuses == MergeStatuses(old(userStatuses), StatusesOf(users.GetOr([]), ownUuid))
      ensures refreshes == old(refreshes) + (if hasRefresh then 1 else 0)
    {
      totalUsers := totalOnline;
      roomDetails := details.GetOr(map[]);
      var ids, statuses := ParseOnline(users, ownUuid);
      onlineUserIds := ids;
      userStatuses := MergeStatuses(userStatuses, statuses);
      if hasRefresh {
        refreshes := refreshes + 1;
      }
    }

    /** `onmessage` for a `dm_received`: the entry joins the history only when its sender's DM is open; the sound always plays. */
    method OnDmReceived(sender: string, content: string, timestamp: string)
      modifies this`dmHistory, this`sounds
      ensures selectedDm == Some(sender) ==> dmHistory == old(dmHistory) + [DmEntry(sender, content, timestamp)]
      ensures selectedDm != Some(sender) ==> dmHistory == old(dmHistory)
      ensures sounds == old(sounds) + 1
    {
      if selectedDm.Some? && selectedDm.value == sender {
        dmHistory := dmHistory + [DmEntry(sender, content, timestamp)];
      }
      sounds := sounds + 1;
    }

    /** `onmessage` for a `pong`, received at time `now`. */
    method OnPong(timestamp: int, now: int)
      modifies this`ping
      ensures ping == Some(now - timestamp)
    {
      ping := Some(now - timestamp);
    }

    /** The whole `onmessage` handler. */
    method OnMessage(frame: Incoming, ownUuid: string, hasRefresh: bool, now: int)
      modifies this`totalUsers, this`roomDetails, this`onlineUserIds, this`userStatuses, this`refreshes
      modifies this`dmHistory, this`sounds, this`ping
      ensures frame.LobbyUpdate? ==>
        && onlineUserIds == OnlineIds(frame.onlineUsers.GetOr([]), ownUuid)
        && userStatuses == MergeStatuses(old(userStatuses), StatusesOf(frame.onlineUsers.GetOr([]), ownUuid))
        && roomDetails == frame.roomDetails.GetOr(map[]) && totalUsers == frame.totalOnline
      ensures frame.DmReceived? ==> dmHistory == old(dmHistory) + (if selectedDm == Some(frame.sender) then [DmEntry(frame.sender, frame.content, frame.timestamp)] else [])
      ensures frame.Pong? ==> ping == Some(now - frame.echoed)
      ensures frame.Other? ==> unchanged(this)
      ensures !frame.LobbyUpdate? ==> onlineUserIds == old(onlineUserIds) && userStatuses == old(userStatuses) && refreshes == old(refreshes)
      ensures !frame.DmReceived? ==> dmHistory == old(dmHistory) && sounds == old(sounds)
    {
      match frame
      case LobbyUpdate(total, details, users) => OnLobbyUpdate(total, details, users, ownUuid, hasRefresh);
      case DmReceived(sender, content, timestamp) => OnDmReceived(sender, content, timestamp);
      case Pong(echoed) => OnPong(echoed, now);
      case Other =>
    }

    /** The 5-second interval: a ping with the current time, only on an open socket. */
    method PingTick(now: int)
      modifies this`sent
      ensures sent == old(sent) + (if open then [Ping(now)] else [])
    {
      if open {
        sent := sent + [Ping(now)];
      }
    }

    /** `handleStatusChange(newStatus)`: sent only on an open socket. */
    method HandleStatusChange(status: string)
      modifies this`sent
      ensures sent == old(sent) + (if open then [StatusUpdate(status)] else [])
    {
      if open {
        sent := sent + [StatusUpdate(status)];
      }
    }

    /** `startDM(friend)`. */
    method StartDm(token: string, friend: string)
      modifies this`selectedDm, this`requests
      ensures selectedDm == Some(friend)
      ensures requests == old(requests) + [DmHistoryRequest(token, friend)]
    {
      selectedDm := Some(friend);
      requests := requests + [DmHistoryRequest(token, friend)];
    }

    /** The reply to the history request: on success it replaces the history. */
    method DmHistoryArrived(status: string, messages: seq<DmEntry>)
      modifies this`dmHistory
      ensures dmHistory == if status == "success" then messages else old(dmHistory)
    {
      if status == "success" {
        dmHistory := messages;
      }
    }

    /**
     * `sendDM(content)`: nothing without a selected DM or with blank content; otherwise one
     * optimistic entry from the user, stamped `now`, and one send request.
     */
    method SendDm(token: string, me: string, content: string, now: string)
      modifies this`dmHistory, this`requests
      ensures selectedDm.None? || IsBlank(content) ==> dmHistory == old(dmHistory) && requests == old(requests)
      ensures selectedDm.Some? && !IsBlank(content) ==>
        && dmHistory == old(dmHistory) + [DmEntry(me, content, now)]
        && requests == old(requests) + [DmSendRequest(token, selectedDm.value, content)]
    {
      if selectedDm.None? || IsBlank(content) {
        return;
      }
      dmHistory := dmHistory + [DmEntry(me, content, now)];
      requests := requests + [DmSendRequest(token, selectedDm.value, content)];
    }
  }
}
