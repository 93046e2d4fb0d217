/**
 * The real-time presence engine: the lobby registry, the voice/text rooms and their
 * member lists (SafeZone-Server/state.py), driven by the two WebSocket handlers of
 * SafeZone-Server/routers/chat.py. A connection is an abstract id; what each connection
 * has been sent is its queue in `sent`; a connection whose sends fail is in `dead`.
 * Every handler step is one atomic method.
 */
module Presence {
  import opened Common
  import opened Store

  type ConnId = nat

  /** One entry of a room's `active_connections`; a flag is `None` when the client sent `null` for it. */
  datatype RoomMember = RoomMember(conn: ConnId, userId: string, isMuted: Option<bool>, isDeafened: Option<bool>)

  datatype Room = Room(id: string, name: string, members: seq<RoomMember>)

  /** A row of `online_users` in a `lobby_update`. */
  datatype OnlineUser = OnlineUser(
    username: string, status: Option<string>, displayName: string,
    avatarUrl: Option<string>, avatarColor: Option<string>, discriminator: Option<string>)

  /** An entry of a `user_list`. */
  datatype UserEntry = UserEntry(uuid: string, isMuted: Option<bool>, isDeafened: Option<bool>)

  /** An entry of a `history` frame. */
  datatype HistoryEntry = HistoryEntry(sender: string, text: string)

  /** A room frame that parsed as a JSON object, classified by its `type` field. */
  datatype RoomMsg =
    | ChatMsg(sender: Field<string>, text: Field<string>,
              attachmentUrl: Option<string>, attachmentType: Option<string>, attachmentName: Option<string>)
    | TypingMsg(sender: Field<string>)
    | UserStateMsg(isMuted: Field<bool>, isDeafened: Field<bool>)
    | SignalMsg(kind: Option<string>)

  /** What a room connection receives: text that is not a JSON object, or an object. */
  datatype RoomInput = NotObject(raw: string) | Object(raw: string, msg: RoomMsg)

  /** What a lobby connection receives. */
  datatype LobbyInput =
    | LobbyGarbage
    | Ping(timestamp: Option<int>)
    | StatusUpdate(status: Option<string>)
    | LobbyOther

  /** Every text frame the server sends. `Echo` is `json.dumps` of a parsed object; `Raw` relays the text. */
  datatype Frame =
    | LobbyUpdate(totalOnline: nat, onlineUsers: seq<OnlineUser>, roomDetails: map<string, seq<string>>)
    | UserList(users: seq<UserEntry>)
    | PleaseOffer
    | History(messages: seq<HistoryEntry>)
    | Echo(msg: RoomMsg)
    | Raw(text: string)
    | Pong(timestamp: Option<int>)
    | FriendRequestNote(sender: string, discriminator: string)
    | DmReceived(sender: string, content: string, sentAt: string)

  /** The running `room_endpoint` coroutine of a connection. */
  datatype RoomSession = RoomSession(roomId: string, userId: string)

  // ---------------------------------------------------------------------------
  // The seed rooms.
  // ---------------------------------------------------------------------------

  /** The room names exactly as stored in state.py (emoji text with a mis-decoded byte encoding). */
  const SohbetName: string := "\U{F8FF}\U{FC}\U{ED}\U{A8} Genel Sohbet"
  const Oyun1Name: string := "\U{F8FF}\U{FC}\U{E9}\U{C6} Valorant Ekibi"
  const Oyun2Name: string := "\U{201A}\U{F5}\U{E8}\U{D4}\U{220F}\U{E8} Minecraft"
  const MuzikName: string := "\U{F8FF}\U{FC}\U{E9}\U{B5} M\U{221A}\U{BA}zik Odas\U{192}\U{B1}"
  const AfkName: string := "\U{F8FF}\U{FC}\U{ED}\U{A7} AFK"

  function SeedRooms(): (r: map<string, Room>)
    ensures r.Keys == {"sohbet-1", "oyun-1", "oyun-2", "muzik-1", "afk-1"}
    ensures forall k :: k in r ==> r[k].id == k && r[k].members == []
  {
    map["sohbet-1" := Room("sohbet-1", SohbetName, []),
        "oyun-1" := Room("oyun-1", Oyun1Name, []),
        "oyun-2" := Room("oyun-2", Oyun2Name, []),
        "muzik-1" := Room("muzik-1", MuzikName, []),
        "afk-1" := Room("afk-1", AfkName, [])]
  }

  // ---------------------------------------------------------------------------
  // The snapshot frames.
  // ---------------------------------------------------------------------------

  /** `[u['user_id'] for u in r.active_connections]`. */
  function MemberIds(members: seq<RoomMember>): (r: seq<string>)
    ensures |r| == |members|
    ensures forall i :: 0 <= i < |members| ==> r[i] == members[i].userId
  {
    MapSeq(members, (m: RoomMember) => m.userId)
  }

  function RoomDetails(rooms: map<string, Room>): map<string, seq<string>> {
    map rid | rid in rooms :: MemberIds(rooms[rid].members)
  }

  function AsOnlineUser(u: User): OnlineUser {
    OnlineUser(u.username, u.status, u.displayName, u.avatarUrl, u.avatarColor, u.discriminator)
  }

  /** `SELECT ... FROM users WHERE username IN (<registry keys>)`, in row order. */
  function OnlineRows(users: seq<User>, names: set<string>): seq<OnlineUser> {
    if users == [] then []
    else (if users[0].username in names then [AsOnlineUser(users[0])] else []) + OnlineRows(users[1..], names)
  }

  // ---------------------------------------------------------------------------
  // The lobby registry `lobby.active_connections`: a dict, so its keys keep first-insertion order.
  // ---------------------------------------------------------------------------

  datatype Binding = Binding(name: string, conn: ConnId)

  predicate NameDistinct(a: Binding, b: Binding) { a.name != b.name }

  function Names(lobby: seq<Binding>): (r: set<string>)
    ensures forall k :: k in r <==> exists i :: 0 <= i < |lobby| && lobby[i].name == k
  {
    set i | 0 <= i < |lobby| :: lobby[i].name
  }

  /** `lobby.active_connections.get(name)`. */
  function Lookup(lobby: seq<Binding>, name: string): (r: Option<ConnId>)
    ensures r.None? <==> name !in Names(lobby)
    ensures r.Some? ==> Binding(name, r.value) in lobby
  {
    match FindFirst(lobby, (b: Binding) => b.name == name)
    case None => None
    case Some(b) => Some(b.conn)
  }

  /** `lobby.active_connections[name] = c`: an existing key keeps its place, a new key goes last. */
  function Bind(lobby: seq<Binding>, name: string, c: ConnId): (r: seq<Binding>)
    ensures name in Names(lobby) ==> |r| == |lobby|
    ensures name !in Names(lobby) ==> r == lobby + [Binding(name, c)]
  {
    if name in Names(lobby) then MapSeq(lobby, (b: Binding) => if b.name == name then Binding(name, c) else b)
    else lobby + [Binding(name, c)]
  }

  /** The bindings not under `name`. */
  function KeyIsNot(name: string): Binding -> bool {
    (b: Binding) => b.name != name
  }

  /** `del lobby.active_connections[name]`. */
  function Unbind(lobby: seq<Binding>, name: string): (r: seq<Binding>)
    ensures forall b :: b in r <==> b in lobby && b.name != name
  {
    Filter(lobby, KeyIsNot(name))
  }

  /** Rebinding keeps every position's key and changes only the binding of `name`. */
  lemma BindInPlace(lobby: seq<Binding>, name: string, c: ConnId)
    requires name in Names(lobby)
    ensures forall i :: 0 <= i < |lobby| ==> Bind(lobby, name, c)[i].name == lobby[i].name
    ensures forall i :: 0 <= i < |lobby| ==> Bind(lobby, name, c)[i] == if lobby[i].name == name then Binding(name, c) else lobby[i]
  {
  }

  lemma BindPairwise(lobby: seq<Binding>, name: string, c: ConnId)
    requires Pairwise(lobby, NameDistinct)
    ensures Pairwise(Bind(lobby, name, c), NameDistinct)
  {
    var r := Bind(lobby, name, c);
    if name in Names(lobby) {
      BindInPlace(lobby, name, c);
      forall i, j | 0 <= i < j < |r| ensures NameDistinct(r[i], r[j]) {
        assert NameDistinct(lobby[i], lobby[j]);
      }
    } else {
      AppendPairwise(lobby, Binding(name, c), NameDistinct);
    }
  }

  lemma BindNames(lobby: seq<Binding>, name: string, c: ConnId)
    ensures Names(Bind(lobby, name, c)) == Names(lobby) + {name}
  {
    var r := Bind(lobby, name, c);
    if name in Names(lobby) {
      BindInPlace(lobby, name, c);
      forall k ensures k in Names(r) <==> k in Names(lobby) {
        if k in Names(r) {
          var i :| 0 <= i < |r| && r[i].name == k;
          assert lobby[i].name == k;
        }
        if k in Names(lobby) {
          var i :| 0 <= i < |lobby| && lobby[i].name == k;
          assert r[i].name == k;
        }
      }
    } else {
      forall k ensures k in Names(r) <==> k in Names(lobby) + {name} {
        if k in Names(r) {
          var i :| 0 <= i < |r| && r[i].name == k;
          if i < |lobby| { assert lobby[i].name == k; }
        }
        if k in Names(lobby) {
          var i :| 0 <= i < |lobby| && lobby[i].name == k;
          assert r[i].name == k;
        }
        if k == name { assert r[|lobby|].name == k; }
      }
    }
  }

  /** After `d[name] = c`, `name` maps to `c` and every other key maps where it did; keys stay distinct. */
  lemma BindLookup(lobby: seq<Binding>, name: string, c: ConnId)
    requires Pairwise(lobby, NameDistinct)
    ensures Pairwise(Bind(lobby, name, c), NameDistinct)
    ensures Names(Bind(lobby, name, c)) == Names(lobby) + {name}
    ensures Lookup(Bind(lobby, name, c), name) == Some(c)
    ensures forall k :: k != name ==> Lookup(Bind(lobby, name, c), k) == Lookup(lobby, k)
  {
    var r := Bind(lobby, name, c);
    BindPairwise(lobby, name, c);
    BindNames(lobby, name, c);
    forall k | k != name ensures Lookup(r, k) == Lookup(lobby, k) {
      BindOther(lobby, name, c, k);
    }
    LookupUnique(r, name);
    if name in Names(lobby) {
      BindInPlace(lobby, name, c);
      var i :| 0 <= i < |lobby| && lobby[i].name == name;
      assert r[i] == Binding(name, c);
    } else {
      assert r[|lobby|] == Binding(name, c);
    }
  }

  lemma BindOther(lobby: seq<Binding>, name: string, c: ConnId, k: string)
    requires Pairwise(lobby, NameDistinct) && k != name
    ensures Lookup(Bind(lobby, name, c), k) == Lookup(lobby, k)
  {
    var r := Bind(lobby, name, c);
    BindPairwise(lobby, name, c);
    BindNames(lobby, name, c);
    LookupUnique(r, k);
    LookupUnique(lobby, k);
    if Lookup(lobby, k).Some? {
      var i :| 0 <= i < |lobby| && lobby[i] == Binding(k, Lookup(lobby, k).value);
      if name in Names(lobby) { BindInPlace(lobby, name, c); }
      assert r[i] == lobby[i];
    }
  }

  /** With distinct keys, a lookup finds the one binding of that key. */
  lemma LookupUnique(lobby: seq<Binding>, name: string)
    requires Pairwise(lobby, NameDistinct)
    ensures forall i :: 0 <= i < |lobby| && lobby[i].name == name ==> Lookup(lobby, name) == Some(lobby[i].conn)
  {
    forall i | 0 <= i < |lobby| && lobby[i].name == name ensures Lookup(lobby, name) == Some(lobby[i].conn) {
      var j :| 0 <= j < |lobby| && lobby[j] == Binding(name, Lookup(lobby, name).value);
      NameIndexUnique(lobby, i, j);
    }
  }

  lemma NameIndexUnique(lobby: seq<Binding>, i: nat, j: nat)
    requires Pairwise(lobby, NameDistinct) && i < |lobby| && j < |lobby| && lobby[i].name == lobby[j].name
    ensures i == j
  {
  }

  /** After `del d[name]`, `name` is gone and every other key maps where it did. */
  lemma UnbindLookup(lobby: seq<Binding>, name: string)
    requires Pairwise(lobby, NameDistinct)
    ensures Pairwise(Unbind(lobby, name), NameDistinct)
    ensures Names(Unbind(lobby, name)) == Names(lobby) - {name}
    ensures Lookup(Unbind(lobby, name), name) == None
    ensures forall k :: k != name ==> Lookup(Unbind(lobby, name), k) == Lookup(lobby, k)
  {
    var r := Unbind(lobby, name);
    FilterPairwise(lobby, KeyIsNot(name), NameDistinct);
    forall k | k in Names(lobby) && k != name ensures k in Names(r) {
      var i :| 0 <= i < |lobby| && lobby[i].name == k;
      assert lobby[i] in r;
    }
    forall k | k != name ensures Lookup(r, k) == Lookup(lobby, k) {
      LookupUnique(r, k);
      LookupUnique(lobby, k);
      if Lookup(lobby, k).Some? {
        assert Binding(k, Lookup(lobby, k).value) in r;
      }
      if Lookup(r, k).Some? {
        assert Binding(k, Lookup(r, k).value) in lobby;
      }
    }
  }

  /** The connections of the registry, in key order. */
  function RegConns(lobby: seq<Binding>): (r: seq<ConnId>)
    ensures |r| == |lobby| && forall i :: 0 <= i < |lobby| ==> r[i] == lobby[i].conn
  {
    MapSeq(lobby, (b: Binding) => b.conn)
  }

  /** The registry after the failed senders are deleted. */
  function DropDead(lobby: seq<Binding>, dead: set<ConnId>): (r: seq<Binding>)
    ensures forall b :: b in r <==> b in lobby && b.conn !in dead
  {
    Filter(lobby, ConnLive(dead))
  }

  /** The bindings whose connection is not in `dead`. */
  function ConnLive(dead: set<ConnId>): Binding -> bool {
    (b: Binding) => b.conn !in dead
  }

  /** The bindings whose key is not among `keys`. */
  function KeyNotIn(keys: seq<string>): Binding -> bool {
    (b: Binding) => b.name !in keys
  }

  /** Keys whose connection is dead, in key order: the `to_remove` list. */
  function DeadNames(lobby: seq<Binding>, dead: set<ConnId>): seq<string> {
    if lobby == [] then []
    else
      var last := lobby[|lobby| - 1];
      DeadNames(lobby[..|lobby| - 1], dead) + (if last.conn in dead then [last.name] else [])
  }

  lemma {:induction false} DeadNamesMembers(lobby: seq<Binding>, dead: set<ConnId>)
    requires Pairwise(lobby, NameDistinct)
    ensures forall i :: 0 <= i < |lobby| ==> (lobby[i].name in DeadNames(lobby, dead) <==> lobby[i].conn in dead)
    ensures forall k :: k in DeadNames(lobby, dead) ==> k in Names(lobby)
  {
    if lobby != [] {
      var init := lobby[..|lobby| - 1];
      var last := lobby[|lobby| - 1];
      assert Pairwise(init, NameDistinct) by {
        forall i, j | 0 <= i < j < |init| ensures NameDistinct(init[i], init[j]) {
          assert init[i] == lobby[i] && init[j] == lobby[j];
        }
      }
      DeadNamesMembers(init, dead);
      forall i | 0 <= i < |init| ensures init[i].name != last.name {
        assert NameDistinct(lobby[i], lobby[|lobby| - 1]);
      }
      forall i | 0 <= i < |lobby| ensures lobby[i].name in DeadNames(lobby, dead) <==> lobby[i].conn in dead {
        if i < |init| { assert lobby[i] == init[i]; }
      }
      forall k | k in DeadNames(lobby, dead) ensures k in Names(lobby) {
        if k in DeadNames(init, dead) {
          var i :| 0 <= i < |init| && init[i].name == k;
          assert lobby[i].name == k;
        } else {
          assert lobby[|lobby| - 1].name == k;
        }
      }
    }
  }

  /** Dropping the keys listed in `DeadNames` is dropping the dead bindings. */
  lemma DeadNamesDrop(lobby: seq<Binding>, dead: set<ConnId>)
    requires Pairwise(lobby, NameDistinct)
    ensures Filter(lobby, KeyNotIn(DeadNames(lobby, dead))) == DropDead(lobby, dead)
  {
    DeadNamesMembers(lobby, dead);
    forall b | b in lobby ensures (b.name !in DeadNames(lobby, dead)) == (b.conn !in dead) {
      var i :| 0 <= i < |lobby| && lobby[i] == b;
    }
    FilterCongruent(lobby, KeyNotIn(DeadNames(lobby, dead)), ConnLive(dead));
  }

  lemma {:induction false} NamesCard(lobby: seq<Binding>)
    ensures |Names(lobby)| <= |lobby|
  {
    if lobby != [] {
      var init := lobby[..|lobby| - 1];
      NamesCard(init);
      assert Names(lobby) == Names(init) + {lobby[|lobby| - 1].name} by {
        forall k ensures k in Names(lobby) <==> k in Names(init) + {lobby[|lobby| - 1].name} {
          if k in Names(lobby) {
            var i :| 0 <= i < |lobby| && lobby[i].name == k;
            if i < |init| { assert init[i].name == k; }
          }
          if k in Names(init) {
            var i :| 0 <= i < |init| && init[i].name == k;
            assert lobby[i].name == k;
          }
        }
      }
    }
  }

  // ---------------------------------------------------------------------------
  // The snapshot frames.
  // ---------------------------------------------------------------------------

  /** The `lobby_update` built from the registry, the rooms and the user table. */
  function LobbySnapshot(lobby: seq<Binding>, rooms: map<string, Room>, users: seq<User>): Frame {
    LobbyUpdate(|lobby|, OnlineRows(users, Names(lobby)), RoomDetails(rooms))
  }

  /** `room_details` has one key per room, empty rooms included, listing members in order. */
  lemma RoomDetailsShape(rooms: map<string, Room>)
    ensures RoomDetails(rooms).Keys == rooms.Keys
    ensures forall rid :: rid in rooms ==>
      |RoomDetails(rooms)[rid]| == |rooms[rid].members| &&
      forall i :: 0 <= i < |rooms[rid].members| ==> RoomDetails(rooms)[rid][i] == rooms[rid].members[i].userId
  {
  }

  /** Each online row is a registered name found in the user table, and every such user appears. */
  lemma {:induction false} OnlineRowsContents(users: seq<User>, names: set<string>)
    ensures |OnlineRows(users, names)| <= |users|
    ensures forall o :: o in OnlineRows(users, names) <==> exists u :: u in users && u.username in names && o == AsOnlineUser(u)
  {
    if users != [] {
      OnlineRowsContents(users[1..], names);
      assert users == [users[0]] + users[1..];
    }
  }

  /** With unique usernames, the online rows have distinct usernames, all registered. */
  lemma {:induction false} OnlineRowsDistinct(users: seq<User>, names: set<string>)
    requires Pairwise(users, DistinctUsers)
    ensures forall i :: 0 <= i < |OnlineRows(users, names)| ==> OnlineRows(users, names)[i].username in names
    ensures forall i, j :: 0 <= i < j < |OnlineRows(users, names)| ==>
      OnlineRows(users, names)[i].username != OnlineRows(users, names)[j].username
  {
    if users != [] {
      var rest := users[1..];
      assert Pairwise(rest, DistinctUsers) by {
        forall i, j | 0 <= i < j < |rest| ensures DistinctUsers(rest[i], rest[j]) {
          assert rest[i] == users[i + 1] && rest[j] == users[j + 1];
        }
      }
      OnlineRowsDistinct(rest, names);
      var tail := OnlineRows(rest, names);
      if users[0].username in names {
        OnlineRowsContents(rest, names);
        forall j | 0 <= j < |tail| ensures tail[j].username != users[0].username {
          assert tail[j] in tail;
          var u :| u in rest && u.username in names && tail[j] == AsOnlineUser(u);
          var k :| 0 <= k < |rest| && rest[k] == u;
          assert DistinctUsers(users[0], users[k + 1]);
        }
        var rows := OnlineRows(users, names);
        assert rows == [AsOnlineUser(users[0])] + tail;
        assert forall i :: 1 <= i < |rows| ==> rows[i] == tail[i - 1];
      }
    }
  }

  /** Rows with distinct usernames drawn from a set number at most its size. */
  lemma {:induction false} DistinctWithin(rows: seq<OnlineUser>, names: set<string>)
    requires forall i :: 0 <= i < |rows| ==> rows[i].username in names
    requires forall i, j :: 0 <= i < j < |rows| ==> rows[i].username != rows[j].username
    ensures |rows| <= |names|
  {
    if rows != [] {
      var rest := rows[1..];
      assert forall i :: 0 <= i < |rest| ==> rest[i] == rows[i + 1];
      DistinctWithin(rest, names - {rows[0].username});
    }
  }

  /**
   * `total_online` counts every registry key while `online_users` lists only names found in the
   * user table; since usernames are unique, `online_users` is never longer than `total_online`.
   */
  lemma SnapshotCounts(lobby: seq<Binding>, rooms: map<string, Room>, users: seq<User>)
    requires Pairwise(users, DistinctUsers)
    ensures var f := LobbySnapshot(lobby, rooms, users);
      f.totalOnline == |lobby| && |f.onlineUsers| <= f.totalOnline &&
      forall i :: 0 <= i < |f.onlineUsers| ==> f.onlineUsers[i].username in Names(lobby)
  {
    OnlineRowsDistinct(users, Names(lobby));
    DistinctWithin(OnlineRows(users, Names(lobby)), Names(lobby));
    NamesCard(lobby);
  }

  /** A room's `user_list`: one entry per connection, in list order. */
  function UserEntries(members: seq<RoomMember>): (r: seq<UserEntry>)
    ensures |r| == |members|
    ensures forall i :: 0 <= i < |members| ==>
      r[i] == UserEntry(members[i].userId, members[i].isMuted, members[i].isDeafened)
  {
    MapSeq(members, (m: RoomMember) => UserEntry(m.userId, m.isMuted, m.isDeafened))
  }

  // ---------------------------------------------------------------------------
  // Room membership.
  // ---------------------------------------------------------------------------

  predicate HasConn(members: seq<RoomMember>, c: ConnId) {
    exists i :: 0 <= i < |members| && members[i].conn == c
  }

  ghost predicate DistinctConns(members: seq<RoomMember>) {
    forall i, j :: 0 <= i < j < |members| ==> members[i].conn != members[j].conn
  }

  /** `room.active_connections.remove(conn_info)` guarded by `in`: connection ids are unique, so this drops that one entry. */
  function RemoveConn(members: seq<RoomMember>, c: ConnId): (r: seq<RoomMember>)
    ensures forall m :: m in r <==> m in members && m.conn != c
    ensures !HasConn(r, c)
    ensures |r| <= |members|
  {
    Filter(members, (m: RoomMember) => m.conn != c)
  }

  /** Disconnecting twice is disconnecting once; the other members keep their order. */
  lemma RemoveConnIdempotent(members: seq<RoomMember>, c: ConnId)
    ensures RemoveConn(RemoveConn(members, c), c) == RemoveConn(members, c)
    ensures !HasConn(members, c) ==> RemoveConn(members, c) == members
  {
    var r := RemoveConn(members, c);
    assert forall m :: m in r ==> m.conn != c;
    FilterAll(r, (m: RoomMember) => m.conn != c);
    if !HasConn(members, c) {
      FilterAll(members, (m: RoomMember) => m.conn != c);
    }
  }

  /** `conn_info['is_muted'] = ...; conn_info['is_deafened'] = ...` on the caller's own entry. */
  function SetFlags(members: seq<RoomMember>, c: ConnId, muted: Option<bool>, deafened: Option<bool>): (r: seq<RoomMember>)
    ensures |r| == |members|
    ensures forall i :: 0 <= i < |members| ==>
      if members[i].conn == c then r[i] == members[i].(isMuted := muted, isDeafened := deafened)
      else r[i] == members[i]
  {
    MapSeq(members, (m: RoomMember) => if m.conn == c then m.(isMuted := muted, isDeafened := deafened) else m)
  }

  lemma SetFlagsKeepsConns(members: seq<RoomMember>, c: ConnId, muted: Option<bool>, deafened: Option<bool>)
    ensures forall i :: 0 <= i < |members| ==> SetFlags(members, c, muted, deafened)[i].conn == members[i].conn
    ensures forall i :: 0 <= i < |members| ==> SetFlags(members, c, muted, deafened)[i].userId == members[i].userId
  {
  }

  // ---------------------------------------------------------------------------
  // Chat history on join.
  // ---------------------------------------------------------------------------

  /** `channel_messages JOIN users ... WHERE channel_id = ? ORDER BY timestamp ASC`, without the limit. */
  function ChannelHistory(cms: seq<ChannelMessage>, users: seq<User>, channelId: string): seq<HistoryEntry> {
    if cms == [] then []
    else
      var m := cms[0];
      var u := UserById(users, m.senderId);
      (if m.channelId == channelId && u.Some? then [HistoryEntry(u.value.username, m.content)] else [])
      + ChannelHistory(cms[1..], users, channelId)
  }

  /** The `LIMIT 50` window: the earliest 50 rows, not the latest. */
  function HistoryFor(t: Tables, channelId: string): (r: seq<HistoryEntry>)
    ensures |r| <= 50 && |r| <= |ChannelHistory(t.channelMessages, t.users, channelId)|
    ensures r == ChannelHistory(t.channelMessages, t.users, channelId)[..|r|]
    ensures |ChannelHistory(t.channelMessages, t.users, channelId)| >= 50 ==> |r| == 50
    ensures |ChannelHistory(t.channelMessages, t.users, channelId)| < 50 ==> r == ChannelHistory(t.channelMessages, t.users, channelId)
  {
    FirstN(ChannelHistory(t.channelMessages, t.users, channelId), 50)
  }

  /** Every history entry comes from a message of that channel whose sender exists. */
  lemma {:induction false} ChannelHistorySound(cms: seq<ChannelMessage>, users: seq<User>, channelId: string)
    ensures forall e :: e in ChannelHistory(cms, users, channelId) ==>
      exists m, u :: m in cms && u in users && m.channelId == channelId && u.id == m.senderId && e == HistoryEntry(u.username, m.content)
  {
    if cms != [] {
      ChannelHistorySound(cms[1..], users, channelId);
      assert forall m :: m in cms[1..] ==> m in cms;
    }
  }

  // ---------------------------------------------------------------------------
  // Fan-out. Every connection has a queue of the frames it was sent.
  // ---------------------------------------------------------------------------

  /** Every connection in `targets` gets `f` appended to its queue; the others are untouched. */
  function Post(sent: map<ConnId, seq<Frame>>, targets: set<ConnId>, f: Frame): (r: map<ConnId, seq<Frame>>)
    ensures r.Keys == sent.Keys
  {
    map c | c in sent :: if c in targets then sent[c] + [f] else sent[c]
  }

  /** Sending to one more connection, not yet a target, is one more append. */
  lemma PostAdd(sent: map<ConnId, seq<Frame>>, targets: set<ConnId>, c: ConnId, f: Frame)
    requires c in sent && c !in targets
    ensures Post(sent, targets + {c}, f) == Post(sent, targets, f)[c := sent[c] + [f]]
  {
  }

  ghost predicate DistinctSeq(s: seq<ConnId>) {
    forall i, j :: 0 <= i < j < |s| ==> s[i] != s[j]
  }

  /** The connections of `conns` that are live and are not `skip`. */
  function Targets(conns: seq<ConnId>, dead: set<ConnId>, skip: Option<ConnId>): (r: set<ConnId>)
    ensures forall c :: c in r <==> c in conns && c !in dead && skip != Some(c)
  {
    set c | c in conns && c !in dead && skip != Some(c)
  }

  lemma TargetsSnoc(conns: seq<ConnId>, i: nat, dead: set<ConnId>, skip: Option<ConnId>)
    requires i < |conns|
    ensures Targets(conns[..i + 1], dead, skip) ==
      Targets(conns[..i], dead, skip) + (if conns[i] !in dead && skip != Some(conns[i]) then {conns[i]} else {})
  {
    assert conns[..i + 1] == conns[..i] + [conns[i]];
  }

  /** One connection more: appended to when it is live and not skipped, and left alone otherwise. */
  lemma SendStep(sent: map<ConnId, seq<Frame>>, dead: set<ConnId>, conns: seq<ConnId>, i: nat, f: Frame, skip: Option<ConnId>)
    requires i < |conns| && DistinctSeq(conns) && conns[i] in sent
    ensures var before := Post(sent, Targets(conns[..i], dead, skip), f);
      && before[conns[i]] == sent[conns[i]]
      && Post(sent, Targets(conns[..i + 1], dead, skip), f) ==
         if conns[i] !in dead && skip != Some(conns[i]) then before[conns[i] := before[conns[i]] + [f]] else before
  {
    var c := conns[i];
    TargetsSnoc(conns, i, dead, skip);
    assert c !in conns[..i] by {
      forall j | 0 <= j < i ensures conns[..i][j] != c {
        assert conns[j] != conns[i];
      }
    }
    if c !in dead && skip != Some(c) {
      PostAdd(sent, Targets(conns[..i], dead, skip), c, f);
    }
  }

  /** The loop of `broadcast_user_list`, `broadcast` and the relay: each connection in order, failures ignored. */
  method SendEach(sent: map<ConnId, seq<Frame>>, dead: set<ConnId>, conns: seq<ConnId>, f: Frame, skip: Option<ConnId>)
    returns (out: map<ConnId, seq<Frame>>)
    requires DistinctSeq(conns) && forall i :: 0 <= i < |conns| ==> conns[i] in sent
    ensures out == Post(sent, Targets(conns, dead, skip), f)
  {
    out := sent;
    var i := 0;
    while i < |conns|
      invariant 0 <= i <= |conns|
      invariant out == Post(sent, Targets(conns[..i], dead, skip), f)
    {
      var c := conns[i];
      SendStep(sent, dead, conns, i, f, skip);
      if c !in dead && skip != Some(c) {
        out := out[c := out[c] + [f]];
      }
      i := i + 1;
    }
    assert conns[..i] == conns;
  }

  /** The connections of a member list, in list order. */
  function MemberConns(members: seq<RoomMember>): (r: seq<ConnId>)
    ensures |r| == |members| && forall i :: 0 <= i < |members| ==> r[i] == members[i].conn
    ensures forall c :: c in r <==> HasConn(members, c)
  {
    MapSeq(members, (m: RoomMember) => m.conn)
  }

  /** The live connections of a member list. */
  function LiveConns(members: seq<RoomMember>, dead: set<ConnId>): (r: set<ConnId>)
    ensures forall c :: c in r <==> HasConn(members, c) && c !in dead
  {
    Targets(MemberConns(members), dead, None)
  }

  /** The live members other than the sender: the targets of a relayed signalling frame. */
  function LiveOthers(members: seq<RoomMember>, sender: ConnId, dead: set<ConnId>): (r: set<ConnId>)
    ensures forall c :: c in r <==> HasConn(members, c) && c !in dead && c != sender
  {
    Targets(MemberConns(members), dead, Some(sender))
  }

  /** The live connections of the registry. */
  function LiveRegistered(lobby: seq<Binding>, dead: set<ConnId>): (r: set<ConnId>)
    ensures forall c :: c in r <==> c !in dead && exists i :: 0 <= i < |lobby| && lobby[i].conn == c
  {
    Targets(RegConns(lobby), dead, None)
  }

  /** `lobby.active_connections[k]` is the live lobby handler of `k`, and keys are distinct. */
  ghost predicate RegistryOk(lobby: seq<Binding>, sessions: map<ConnId, string>) {
    && Pairwise(lobby, NameDistinct)
    && forall i :: 0 <= i < |lobby| ==> lobby[i].conn in sessions && sessions[lobby[i].conn] == lobby[i].name
  }

  /** So no connection is bound to two keys. */
  lemma RegistryConnsDistinct(lobby: seq<Binding>, sessions: map<ConnId, string>)
    requires RegistryOk(lobby, sessions)
    ensures DistinctSeq(RegConns(lobby))
  {
    forall i, j | 0 <= i < j < |lobby| ensures lobby[i].conn != lobby[j].conn {
      assert NameDistinct(lobby[i], lobby[j]);
    }
  }

  /** Deleting the failed senders keeps the registry consistent with the lobby handlers. */
  lemma RegistryOkDrop(lobby: seq<Binding>, sessions: map<ConnId, string>, dead: set<ConnId>)
    requires RegistryOk(lobby, sessions)
    ensures RegistryOk(DropDead(lobby, dead), sessions)
  {
    var r := DropDead(lobby, dead);
    FilterPairwise(lobby, ConnLive(dead), NameDistinct);
    forall i | 0 <= i < |r| ensures r[i].conn in sessions && sessions[r[i].conn] == r[i].name {
      assert r[i] in r;
      var j :| 0 <= j < |lobby| && lobby[j] == r[i];
    }
  }

  /**
   * The loop of `broadcast_room_update` that collects `to_remove`: the keys, in key order,
   * whose send raised. The sends of the same loop are `SendEach` over `RegConns`.
   */
  method CollectDead(lobby: seq<Binding>, dead: set<ConnId>) returns (failed: seq<string>)
    ensures failed == DeadNames(lobby, dead)
  {
    failed := [];
    var i := 0;
    while i < |lobby|
      invariant 0 <= i <= |lobby|
      invariant failed == DeadNames(lobby[..i], dead)
    {
      assert lobby[..i + 1][..i] == lobby[..i];
      if lobby[i].conn in dead {
        failed := failed + [lobby[i].name];
      }
      i := i + 1;
    }
    assert lobby[..i] == lobby;
  }

  /** `for user_id in to_remove: del lobby.active_connections[user_id]`. */
  method DeleteKeys(lobby: seq<Binding>, keys: seq<string>) returns (r: seq<Binding>)
    ensures r == Filter(lobby, KeyNotIn(keys))
  {
    r := lobby;
    var j := 0;
    FilterAll(lobby, KeyNotIn([]));
    assert keys[..0] == [];
    while j < |keys|
      invariant 0 <= j <= |keys|
      invariant r == Filter(lobby, KeyNotIn(keys[..j]))
    {
      DeleteStep(lobby, keys, j);
      r := Unbind(r, keys[j]);
      j := j + 1;
    }
    assert keys[..j] == keys;
  }

  lemma DeleteStep(lobby: seq<Binding>, keys: seq<string>, j: nat)
    requires j < |keys|
    ensures Unbind(Filter(lobby, KeyNotIn(keys[..j])), keys[j]) == Filter(lobby, KeyNotIn(keys[..j + 1]))
  {
    assert keys[..j + 1] == keys[..j] + [keys[j]];
    FilterFilter(lobby, KeyNotIn(keys[..j]), KeyIsNot(keys[j]), KeyNotIn(keys[..j + 1]));
  }

  /** The `SELECT ... WHERE username IN (...)` rows of `broadcast_room_update`, collected row by row. */
  method OnlineUsersOf(users: seq<User>, names: set<string>) returns (online: seq<OnlineUser>)
    ensures online == OnlineRows(users, names)
  {
    online := [];
    var i := 0;
    while i < |users|
      invariant 0 <= i <= |users|
      invariant online + OnlineRows(users[i..], names) == OnlineRows(users, names)
    {
      assert users[i..] == [users[i]] + users[i + 1..];
      if users[i].username in names {
        online := online + [AsOnlineUser(users[i])];
      }
      i := i + 1;
    }
    assert users[|users|..] == [];
  }

  /** The `room_details` loop of `broadcast_room_update`, room by room. */
  method RoomDetailsOf(rooms: map<string, Room>) returns (details: map<string, seq<string>>)
    ensures details == RoomDetails(rooms)
  {
    details := map[];
    var todo := rooms.Keys;
    while todo != {}
      invariant todo <= rooms.Keys
      invariant details.Keys == rooms.Keys - todo
      invariant forall rid :: rid in details ==> details[rid] == MemberIds(rooms[rid].members)
      decreases |todo|
    {
      var rid :| rid in todo;
      details := details[rid := MemberIds(rooms[rid].members)];
      todo := todo - {rid};
    }
  }

  /** Builds the `lobby_update` of `broadcast_room_update`. */
  method BuildLobbySnapshot(lobby: seq<Binding>, rooms: map<string, Room>, users: seq<User>) returns (f: Frame)
    ensures f == LobbySnapshot(lobby, rooms, users)
  {
    var online := OnlineUsersOf(users, Names(lobby));
    var details := RoomDetailsOf(rooms);
    f := LobbyUpdate(|lobby|, online, details);
  }

  // ---------------------------------------------------------------------------
  // The hub: the module-level `rooms` and `lobby` of state.py plus the live handlers.
  // ---------------------------------------------------------------------------

  predicate IsKnownStatus(s: Option<string>) {
    s == Some("online") || s == Some("idle") || s == Some("dnd") || s == Some("invisible")
  }

  ghost predicate RoomOk(r: Room, rid: string, next: ConnId) {
    r.id == rid && DistinctConns(r.members) && forall i :: 0 <= i < |r.members| ==> r.members[i].conn < next
  }

  /** Appending a fresh connection keeps a room well formed. */
  lemma JoinKeepsRoomOk(r: Room, rid: string, next: ConnId, m: RoomMember)
    requires RoomOk(r, rid, next) && m.conn == next
    ensures RoomOk(r.(members := r.members + [m]), rid, next + 1)
  {
    var ms := r.members + [m];
    forall i, j | 0 <= i < j < |ms| ensures ms[i].conn != ms[j].conn {
      assert ms[i] == r.members[i];
      if j < |r.members| { assert ms[j] == r.members[j]; }
    }
  }

  /** Every connection issued so far, and only those, has a queue; dead ones and sessions are issued ones. */
  ghost predicate ConnsOk(sent: map<ConnId, seq<Frame>>, dead: set<ConnId>, next: ConnId,
                          lobbySessions: map<ConnId, string>, roomSessions: map<ConnId, RoomSession>) {
    && (forall c: ConnId :: c in sent <==> c < next)
    && (forall c :: c in dead ==> c < next)
    && (forall c :: c in lobbySessions ==> c < next)
    && (forall c :: c in roomSessions ==> c < next)
  }

  /** Every room is stored under its id and holds distinct, issued connections. */
  ghost predicate RoomsOk(rooms: map<string, Room>, next: ConnId) {
    forall rid :: rid in rooms ==> RoomOk(rooms[rid], rid, next)
  }

  /** Every running room handler's room exists. */
  ghost predicate SessionsOk(roomSessions: map<ConnId, RoomSession>, rooms: map<string, Room>) {
    forall c :: c in roomSessions ==> roomSessions[c].roomId in rooms
  }

  lemma RoomsOkGrow(rooms: map<string, Room>, next: ConnId)
    requires RoomsOk(rooms, next)
    ensures RoomsOk(rooms, next + 1)
  {
    forall rid | rid in rooms ensures RoomOk(rooms[rid], rid, next + 1) {
      assert RoomOk(rooms[rid], rid, next);
    }
  }

  lemma RoomsOkUpdate(rooms: map<string, Room>, next: ConnId, rid: string, r: Room)
    requires RoomsOk(rooms, next) && RoomOk(r, rid, next)
    ensures RoomsOk(rooms[rid := r], next)
  {
    var m := rooms[rid := r];
    forall x | x in m ensures RoomOk(m[x], x, next) {
      if x != rid { assert RoomOk(rooms[x], x, next); }
    }
  }

  /** The room of a join: the in-memory one, else one made from the channel row. */
  function OpenedRoom(rooms: map<string, Room>, channels: seq<Channel>, roomId: string): Option<Room> {
    if roomId in rooms then Some(rooms[roomId])
    else match ChannelById(channels, roomId)
      case Some(ch) => Some(Room(roomId, ch.name, []))
      case None => None
  }

  /** The sends of a join to the newcomer alone (both unguarded: the connection is fresh and open). */
  function Greeted(sent: map<ConnId, seq<Frame>>, c: ConnId, size: nat, history: seq<HistoryEntry>): map<ConnId, seq<Frame>> {
    var offered := if size > 1 then Post(sent, {c}, PleaseOffer) else sent;
    if history != [] then Post(offered, {c}, History(history)) else offered
  }

  /** The newcomer's queue after a join: its `user_list`, then `please_offer` if it is not alone, then the history if any. */
  lemma NewcomerQueue(sent: map<ConnId, seq<Frame>>, lobby: seq<Binding>, dead: set<ConnId>, snapshot: Frame,
                      members: seq<RoomMember>, c: ConnId, history: seq<HistoryEntry>)
    requires c in sent && sent[c] == [] && c !in dead && HasConn(members, c)
    requires forall i :: 0 <= i < |lobby| ==> lobby[i].conn != c
    ensures Greeted(Post(Post(sent, LiveRegistered(lobby, dead), snapshot), LiveConns(members, dead), UserList(UserEntries(members))),
                    c, |members|, history)[c]
      == [UserList(UserEntries(members))] + (if |members| > 1 then [PleaseOffer] else [])
         + (if history != [] then [History(history)] else [])
  {
    var ul := UserList(UserEntries(members));
    var s1 := Post(sent, LiveRegistered(lobby, dead), snapshot);
    assert c !in LiveRegistered(lobby, dead);
    assert s1[c] == [];
    var s2 := Post(s1, LiveConns(members, dead), ul);
    assert c in LiveConns(members, dead);
    assert s2[c] == [ul];
    var offered := if |members| > 1 then Post(s2, {c}, PleaseOffer) else s2;
    assert offered[c] == [ul] + (if |members| > 1 then [PleaseOffer] else []);
  }

  /**
   * `if name in lobby.active_connections: try: send(f) except: pass`: the one lobby connection
   * bound to `name`, if any and if live, gets `f`.
   */
  function Pushed(sent: map<ConnId, seq<Frame>>, lobby: seq<Binding>, dead: set<ConnId>, name: string, f: Frame)
    : (r: map<ConnId, seq<Frame>>)
    ensures Lookup(lobby, name).None? ==> r == sent
    ensures Lookup(lobby, name).Some? ==> r == Post(sent, {Lookup(lobby, name).value} - dead, f)
  {
    match Lookup(lobby, name)
    case None => sent
    case Some(c) => Post(sent, {c} - dead, f)
  }

  /** A push reaches at most the connection bound to the name, and only when it is live. */
  lemma PushedTargets(sent: map<ConnId, seq<Frame>>, lobby: seq<Binding>, dead: set<ConnId>, name: string, f: Frame)
    ensures forall c :: c in sent ==>
      Pushed(sent, lobby, dead, name, f)[c] ==
        if Lookup(lobby, name) == Some(c) && c !in dead then sent[c] + [f] else sent[c]
  {
  }

  class Hub {
    var lobby: seq<Binding>
    var rooms: map<string, Room>
    var sent: map<ConnId, seq<Frame>>
    var dead: set<ConnId>
    var nextConn: ConnId
    var lobbySessions: map<ConnId, string>
    var roomSessions: map<ConnId, RoomSession>
    const db: Db

    ghost predicate Valid()
      reads this
    {
      && ConnsOk(sent, dead, nextConn, lobbySessions, roomSessions)
      && RegistryOk(lobby, lobbySessions)
      && RoomsOk(rooms, nextConn)
      && SessionsOk(roomSessions, rooms)
    }

    /** Server start: the five seed rooms and an empty registry. */
    constructor (db: Db)
      ensures this.db == db && Valid()
      ensures rooms == SeedRooms() && lobby == [] && sent == map[] && dead == {} && nextConn == 0
      ensures lobbySessions == map[] && roomSessions == map[]
    {
      this.db := db;
      lobby, rooms, sent, dead, nextConn := [], SeedRooms(), map[], {}, 0;
      lobbySessions, roomSessions := map[], map[];
    }

    /** `websocket.accept()`: a fresh connection with an empty queue. */
    method Accept() returns (c: ConnId)
      requires Valid()
      modifies this`sent, this`nextConn
      ensures Valid()
      ensures c == old(nextConn) && nextConn == c + 1 && c !in old(sent) && c !in dead
      ensures sent == old(sent)[c := []]
    {
      c := nextConn;
      RoomsOkGrow(rooms, c);
      sent, nextConn := sent[c := []], c + 1;
    }

    /** The transport of a connection fails or is closed: every later send to it raises. */
    method Drop(c: ConnId)
      requires Valid() && c in sent
      modifies this`dead
      ensures Valid()
      ensures dead == old(dead) + {c}
    {
      dead := dead + {c};
    }

    /** A notification pushed by an HTTP handler to the lobby connection of `name`; failures are ignored. */
    method PushTo(name: string, f: Frame)
      requires Valid()
      modifies this`sent
      ensures Valid()
      ensures sent == Pushed(old(sent), lobby, dead, name, f)
    {
      sent := Pushed(sent, lobby, dead, name, f);
    }

    /**
     * `broadcast_room_update`: every live registered connection is sent the same snapshot,
     * then the keys whose send failed are deleted from the registry; nothing else changes.
     */
    method BroadcastRoomUpdate()
      requires Valid()
      modifies this`sent, this`lobby
      ensures Valid()
      ensures sent == Post(old(sent), LiveRegistered(old(lobby), dead), LobbySnapshot(old(lobby), rooms, db.users))
      ensures lobby == DropDead(old(lobby), dead)
    {
      var f := BuildLobbySnapshot(lobby, rooms, db.users);
      RegistryConnsDistinct(lobby, lobbySessions);
      var out := SendEach(sent, dead, RegConns(lobby), f, None);
      var failed := CollectDead(lobby, dead);
      var reg := DeleteKeys(lobby, failed);
      DeadNamesDrop(lobby, dead);
      assert reg == DropDead(lobby, dead);
      RegistryOkDrop(lobby, lobbySessions, dead);
      assert out.Keys == sent.Keys;
      sent, lobby := out, reg;
    }

    /** `broadcast_user_list`: a known room's live members get its `user_list`; an unknown room id does nothing. */
    method BroadcastUserList(roomId: string)
      requires Valid()
      modifies this`sent
      ensures Valid()
      ensures roomId !in rooms ==> sent == old(sent)
      ensures roomId in rooms ==>
        sent == Post(old(sent), LiveConns(rooms[roomId].members, dead), UserList(UserEntries(rooms[roomId].members)))
    {
      if roomId in rooms {
        BroadcastToRoom(roomId, UserList(UserEntries(rooms[roomId].members)), None);
      }
    }

    /** `broadcast(room, message)` in chat.py, or with `skip` the relay loop that leaves out the sender. */
    method BroadcastToRoom(roomId: string, f: Frame, skip: Option<ConnId>)
      requires Valid() && roomId in rooms
      modifies this`sent
      ensures Valid()
      ensures sent == Post(old(sent), Targets(MemberConns(rooms[roomId].members), dead, skip), f)
    {
      assert RoomOk(rooms[roomId], roomId, nextConn);
      sent := SendEach(sent, dead, MemberConns(rooms[roomId].members), f, skip);
    }

    // -------------------------------------------------------------------------
    // The lobby handler (`/ws/lobby/{user_id}`).
    // -------------------------------------------------------------------------

    /** The registration of a new lobby handler: the previous connection under the key is closed, then replaced. */
    method Register(userId: string, c: ConnId)
      requires Valid() && c == nextConn - 1 && c !in dead && c !in lobbySessions
      modifies this`dead, this`lobby, this`lobbySessions
      ensures Valid() && c !in dead
      ensures dead == match Lookup(old(lobby), userId) case Some(o) => old(dead) + {o} case None => old(dead)
      ensures lobbySessions == old(lobbySessions)[c := userId]
      ensures lobby == Bind(old(lobby), userId, c)
    {
      ClosePrevious(userId, c);
      BindNew(userId, c);
    }

    /** The connection bound under `userId`, if any, is closed; it is an issued one and not `c`. */
    method ClosePrevious(userId: string, c: ConnId)
      requires Valid() && c !in dead && c !in lobbySessions
      modifies this`dead
      ensures Valid() && c !in dead
      ensures dead == match Lookup(lobby, userId) case Some(o) => old(dead) + {o} case None => old(dead)
    {
      var previous := Lookup(lobby, userId);
      if previous.Some? {
        var i :| 0 <= i < |lobby| && lobby[i] == Binding(userId, previous.value);
        assert lobby[i].conn in lobbySessions;
        Drop(previous.value);
      }
    }

    /** The key is bound to the new connection and the handler's session begins. */
    method BindNew(userId: string, c: ConnId)
      requires Valid() && c == nextConn - 1 && c !in lobbySessions
      modifies this`lobby, this`lobbySessions
      ensures Valid()
      ensures lobbySessions == old(lobbySessions)[c := userId]
      ensures lobby == Bind(old(lobby), userId, c)
    {
      BindKeepsRegistry(lobby, lobbySessions, userId, c);
      lobby, lobbySessions := Bind(lobby, userId, c), lobbySessions[c := userId];
    }

    /**
     * A new lobby connection for `userId`: an existing one is closed (best effort), the name
     * is bound to the new connection, and the snapshot is broadcast.
     */
    method LobbyConnect(userId: string) returns (c: ConnId)
      requires Valid()
      modifies this`sent, this`nextConn, this`dead, this`lobby, this`lobbySessions
      ensures Valid()
      ensures c == old(nextConn) && c !in old(sent) && c !in dead
      ensures dead == match Lookup(old(lobby), userId) case Some(o) => old(dead) + {o} case None => old(dead)
      ensures lobbySessions == old(lobbySessions)[c := userId]
      ensures lobby == DropDead(Bind(old(lobby), userId, c), dead)
      ensures sent == Post(old(sent)[c := []], LiveRegistered(Bind(old(lobby), userId, c), dead),
                           LobbySnapshot(Bind(old(lobby), userId, c), rooms, db.users))
    {
      c := Accept();
      Register(userId, c);
      BroadcastRoomUpdate();
    }

    /** One frame on a lobby connection: `ping` is answered, a known `status_update` is stored and broadcast. */
    method LobbyReceive(c: ConnId, input: LobbyInput)
      requires Valid() && db.Valid() && c in lobbySessions
      modifies this`sent, this`lobby, db`users
      ensures Valid() && db.Valid()
      ensures input.Ping? ==>
        && lobby == old(lobby) && db.users == old(db.users)
        && sent == Post(old(sent), {c} - dead, Pong(input.timestamp))
      ensures input.StatusUpdate? && IsKnownStatus(input.status) ==>
        var users := UpdateByName(old(db.users), lobbySessions[c], input.status);
        && db.users == users
        && lobby == DropDead(old(lobby), dead)
        && sent == Post(old(sent), LiveRegistered(old(lobby), dead), LobbySnapshot(old(lobby), rooms, users))
      ensures (input.LobbyGarbage? || input.LobbyOther? || (input.StatusUpdate? && !IsKnownStatus(input.status))) ==>
        sent == old(sent) && lobby == old(lobby) && db.users == old(db.users)
    {
      match input
      case Ping(ts) =>
        sent := Post(sent, {c} - dead, Pong(ts));
      case StatusUpdate(s) =>
        if IsKnownStatus(s) {
          SetStatus(db, lobbySessions[c], s);
          BroadcastRoomUpdate();
        }
      case _ =>
    }

    /** The lobby handler ends: the registry entry goes only if it is still this connection. */
    method LobbyDisconnect(c: ConnId)
      requires Valid() && c in lobbySessions
      modifies this`sent, this`lobby, this`lobbySessions
      ensures Valid()
      ensures lobbySessions == old(lobbySessions) - {c}
      ensures var u := old(lobbySessions)[c];
        var reg := if Lookup(old(lobby), u) == Some(c) then Unbind(old(lobby), u) else old(lobby);
        && lobby == DropDead(reg, dead)
        && sent == Post(old(sent), LiveRegistered(reg, dead), LobbySnapshot(reg, rooms, db.users))
    {
      Unregister(c);
      BroadcastRoomUpdate();
    }

    /** The key is deleted only while it is still bound to this connection, and the handler's session ends. */
    method Unregister(c: ConnId)
      requires Valid() && c in lobbySessions
      modifies this`lobby, this`lobbySessions
      ensures Valid()
      ensures lobbySessions == old(lobbySessions) - {c}
      ensures var u := old(lobbySessions)[c];
        lobby == if Lookup(old(lobby), u) == Some(c) then Unbind(old(lobby), u) else old(lobby)
    {
      var u := lobbySessions[c];
      var reg := if Lookup(lobby, u) == Some(c) then Unbind(lobby, u) else lobby;
      UnbindKeepsRegistry(lobby, lobbySessions, c);
      lobby, lobbySessions := reg, lobbySessions - {c};
    }

    // -------------------------------------------------------------------------
    // The room handler (`/ws/room/{room_id}/{user_id}`).
    // -------------------------------------------------------------------------

    /** The join itself: the opened room is stored with the caller appended, unmuted, and the handler's session begins. */
    method AddMember(room: Room, c: ConnId, userId: string)
      requires Valid() && RoomOk(room, room.id, c) && c == nextConn - 1
      modifies this`rooms, this`roomSessions
      ensures Valid()
      ensures rooms == old(rooms)[room.id := room.(members := room.members + [RoomMember(c, userId, Some(false), Some(false))])]
      ensures roomSessions == old(roomSessions)[c := RoomSession(room.id, userId)]
    {
      var joinedRoom := room.(members := room.members + [RoomMember(c, userId, Some(false), Some(false))]);
      JoinKeepsRoomOk(room, room.id, c, RoomMember(c, userId, Some(false), Some(false)));
      RoomsOkUpdate(rooms, nextConn, room.id, joinedRoom);
      rooms, roomSessions := rooms[room.id := joinedRoom], roomSessions[c := RoomSession(room.id, userId)];
    }

    /**
     * A new room connection. When the room cannot be opened the connection is closed and
     * nothing joins. A join appends one unmuted member and broadcasts both snapshots; the
     * newcomer alone is then sent `please_offer` when someone else is in the room, and the
     * earliest 50 history entries when there are any (see `NewcomerQueue`).
     */
    method RoomJoin(roomId: string, userId: string) returns (c: ConnId, joined: bool)
      requires Valid()
      modifies this`sent, this`nextConn, this`dead, this`lobby, this`rooms, this`roomSessions
      ensures Valid()
      ensures c == old(nextConn) && c !in old(sent)
      ensures joined == OpenedRoom(old(rooms), db.channels, roomId).Some?
      ensures !joined ==>
        && dead == old(dead) + {c} && rooms == old(rooms) && roomSessions == old(roomSessions)
        && lobby == old(lobby) && sent == old(sent)[c := []]
      ensures joined ==>
        var room := OpenedRoom(old(rooms), db.channels, roomId).value;
        var members := room.members + [RoomMember(c, userId, Some(false), Some(false))];
        && dead == old(dead)
        && rooms == old(rooms)[roomId := room.(members := members)]
        && roomSessions == old(roomSessions)[c := RoomSession(roomId, userId)]
        && lobby == DropDead(old(lobby), dead)
        && sent == Greeted(Post(Post(old(sent)[c := []],
                                     LiveRegistered(old(lobby), dead), LobbySnapshot(old(lobby), rooms, db.users)),
                                LiveConns(members, dead), UserList(UserEntries(members))),
                           c, |members|, HistoryFor(db.State(), roomId))
    {
      c := Accept();
      var found := OpenedRoom(rooms, db.channels, roomId);
      joined := found.Some?;
      if !joined {
        Drop(c);
        return;
      }
      var room := found.value;
      assert RoomOk(room, roomId, c) by {
        if roomId in old(rooms) { assert RoomOk(old(rooms)[roomId], roomId, c); }
      }
      JoinOpened(room, c, userId);
    }

    /** The join into an opened room: the member appended, both snapshots broadcast, the newcomer greeted. */
    method JoinOpened(room: Room, c: ConnId, userId: string)
      requires Valid() && RoomOk(room, room.id, c) && c == nextConn - 1
      modifies this`sent, this`lobby, this`rooms, this`roomSessions
      ensures Valid()
      ensures var members := room.members + [RoomMember(c, userId, Some(false), Some(false))];
        && rooms == old(rooms)[room.id := room.(members := members)]
        && roomSessions == old(roomSessions)[c := RoomSession(room.id, userId)]
        && lobby == DropDead(old(lobby), dead)
        && sent == Greeted(Post(Post(old(sent), LiveRegistered(old(lobby), dead), LobbySnapshot(old(lobby), rooms, db.users)),
                                LiveConns(members, dead), UserList(UserEntries(members))),
                           c, |members|, HistoryFor(db.State(), room.id))
    {
      AddMember(room, c, userId);
      BroadcastRoomUpdate();
      BroadcastUserList(room.id);
      Greet(c, |rooms[room.id].members|, HistoryFor(db.State(), room.id));
    }

    /** The newcomer's own frames: `please_offer` when it is not alone, then the history when there is any. */
    method Greet(c: ConnId, size: nat, history: seq<HistoryEntry>)
      requires Valid()
      modifies this`sent
      ensures Valid()
      ensures sent == Greeted(old(sent), c, size, history)
    {
      if size > 1 {
        sent := Post(sent, {c}, PleaseOffer);
      }
      if history != [] {
        sent := Post(sent, {c}, History(history));
      }
    }

    /**
     * A `chat` frame: stored when the sender name resolves to a user, then echoed to the whole
     * room. A resolved sender with a `null` text makes the NOT NULL insert raise; nothing
     * catches it, so the handler dies there, before the echo and without room cleanup.
     */
    method OnChat(c: ConnId, msg: RoomMsg, now: string) returns (ended: bool)
      requires Valid() && db.Valid() && c in roomSessions && msg.ChatMsg?
      modifies this`sent, this`roomSessions, this`dead, db`channelMessages, db`nextChannelMessageId
      ensures Valid() && db.Valid()
      ensures var s := old(roomSessions)[c];
        && ended == ChatCrashes(db.users, msg, s.userId)
        && (ended ==>
              && roomSessions == old(roomSessions) - {c} && dead == old(dead) + {c}
              && sent == old(sent) && db.channelMessages == old(db.channelMessages))
        && (!ended ==>
              && roomSessions == old(roomSessions) && dead == old(dead)
              && db.channelMessages == old(db.channelMessages)
                   + ChatRows(ChatAuthor(db.users, msg.sender, s.userId), s.roomId, msg, old(db.nextChannelMessageId), now)
              && sent == Post(old(sent), LiveConns(old(rooms)[s.roomId].members, dead), Echo(msg)))
    {
      var s := roomSessions[c];
      var author := ChatAuthor(db.users, msg.sender, s.userId);
      if author.Some? && msg.text.Null? {
        EndRoomHandler(c);
        return true;
      }
      StoreChat(db, s.roomId, author, msg, now);
      BroadcastToRoom(s.roomId, Echo(msg), None);
      ended := false;
    }

    /** A `user_state` frame: the caller's flags (a missing key gives false, a `null` is stored), then the room's `user_list`. */
    method OnUserState(c: ConnId, muted: Option<bool>, deafened: Option<bool>)
      requires Valid() && c in roomSessions
      modifies this`sent, this`rooms
      ensures Valid()
      ensures var rid := roomSessions[c].roomId;
        var updated := SetFlags(old(rooms)[rid].members, c, muted, deafened);
        && rooms == old(rooms)[rid := old(rooms)[rid].(members := updated)]
        && sent == Post(old(sent), LiveConns(updated, dead), UserList(UserEntries(updated)))
    {
      var rid := roomSessions[c].roomId;
      var room := rooms[rid];
      assert RoomOk(room, rid, nextConn);
      var updated := SetFlags(room.members, c, muted, deafened);
      SetFlagsKeepsConns(room.members, c, muted, deafened);
      RoomsOkUpdate(rooms, nextConn, rid, room.(members := updated));
      rooms := rooms[rid := room.(members := updated)];
      BroadcastUserList(rid);
    }

    /** A handler that ends on an exception: its session goes and its connection is closed. */
    method EndRoomHandler(c: ConnId)
      requires Valid() && c in roomSessions
      modifies this`roomSessions, this`dead
      ensures Valid()
      ensures roomSessions == old(roomSessions) - {c} && dead == old(dead) + {c}
    {
      roomSessions := roomSessions - {c};
      Drop(c);
    }

    /**
     * One frame on a room connection. Text that is not a JSON object ends the handler with no
     * cleanup: its socket is closed but its member entry stays in the room; so does a `chat`
     * frame that `OnChat` cannot store. Other objects go to `OnOther`.
     */
    method RoomReceive(c: ConnId, input: RoomInput, now: string) returns (ended: bool)
      requires Valid() && db.Valid() && c in roomSessions
      modifies this`sent, this`dead, this`rooms, this`roomSessions, db`channelMessages, db`nextChannelMessageId
      ensures Valid() && db.Valid()
      ensures ended == (input.NotObject? || ChatCrashes(db.users, input.msg, old(roomSessions)[c].userId))
      ensures ended ==> roomSessions == old(roomSessions) - {c} && dead == old(dead) + {c}
      ensures ended ==> rooms == old(rooms) && sent == old(sent) && db.channelMessages == old(db.channelMessages)
      ensures !ended ==> roomSessions == old(roomSessions) && dead == old(dead)
      ensures input.Object? && (input.msg.TypingMsg? || input.msg.SignalMsg?) ==>
        var members := old(rooms)[old(roomSessions)[c].roomId].members;
        && rooms == old(rooms) && db.channelMessages == old(db.channelMessages)
        && sent == if input.msg.TypingMsg? then Post(old(sent), LiveConns(members, dead), Echo(input.msg))
                   else Post(old(sent), LiveOthers(members, c, dead), Raw(input.raw))
      ensures input.Object? && input.msg.ChatMsg? && !ended ==>
        var s := old(roomSessions)[c];
        var author := ChatAuthor(db.users, input.msg.sender, s.userId);
        && rooms == old(rooms)
        && db.channelMessages == old(db.channelMessages) + ChatRows(author, s.roomId, input.msg, old(db.nextChannelMessageId), now)
        && sent == Post(old(sent), LiveConns(old(rooms)[s.roomId].members, dead), Echo(input.msg))
      ensures input.Object? && input.msg.UserStateMsg? ==>
        var rid := old(roomSessions)[c].roomId;
        var updated := SetFlags(old(rooms)[rid].members, c, input.msg.isMuted.Get(false), input.msg.isDeafened.Get(false));
        && db.channelMessages == old(db.channelMessages)
        && rooms == old(rooms)[rid := old(rooms)[rid].(members := updated)]
        && sent == Post(old(sent), LiveConns(updated, dead), UserList(UserEntries(updated)))
    {
      match input
      case NotObject(_) =>
        EndRoomHandler(c);
        ended := true;
      case Object(raw, msg) =>
        if msg.ChatMsg? {
          ended := OnChat(c, msg, now);
        } else {
          OnOther(c, raw, msg);
          ended := false;
        }
    }

    /**
     * The object frames other than `chat`, dispatched on their `type`: `typing` is echoed to the
     * room, `user_state` goes to `OnUserState`, and anything else is relayed verbatim to the
     * other members. None of them touches the database or ends the handler.
     */
    method OnOther(c: ConnId, raw: string, msg: RoomMsg)
      requires Valid() && c in roomSessions && !msg.ChatMsg?
      modifies this`sent, this`rooms
      ensures Valid()
      ensures msg.TypingMsg? || msg.SignalMsg? ==>
        var members := old(rooms)[roomSessions[c].roomId].members;
        && rooms == old(rooms)
        && sent == if msg.TypingMsg? then Post(old(sent), LiveConns(members, dead), Echo(msg))
                   else Post(old(sent), LiveOthers(members, c, dead), Raw(raw))
      ensures msg.UserStateMsg? ==>
        var rid := roomSessions[c].roomId;
        var updated := SetFlags(old(rooms)[rid].members, c, msg.isMuted.Get(false), msg.isDeafened.Get(false));
        && rooms == old(rooms)[rid := old(rooms)[rid].(members := updated)]
        && sent == Post(old(sent), LiveConns(updated, dead), UserList(UserEntries(updated)))
    {
      var s := roomSessions[c];
      match msg
      case TypingMsg(_) =>
        BroadcastToRoom(s.roomId, Echo(msg), None);
      case UserStateMsg(muted, deafened) =>
        OnUserState(c, muted.Get(false), deafened.Get(false));
      case SignalMsg(_) =>
        BroadcastToRoom(s.roomId, Raw(raw), Some(c));
    }

    /** The room handler ends on a disconnect: its entry leaves the room (if still there) and both snapshots go out. */
    method RoomDisconnect(c: ConnId)
      requires Valid() && c in roomSessions
      modifies this`sent, this`lobby, this`rooms, this`roomSessions
      ensures Valid()
      ensures var s := old(roomSessions)[c];
        var room := old(rooms)[s.roomId];
        var left := room.(members := RemoveConn(room.members, c));
        && roomSessions == old(roomSessions) - {c}
        && rooms == old(rooms)[s.roomId := left]
        && lobby == DropDead(old(lobby), dead)
        && sent == Post(Post(old(sent), LiveRegistered(old(lobby), dead), LobbySnapshot(old(lobby), rooms, db.users)),
                        LiveConns(left.members, dead), UserList(UserEntries(left.members)))
    {
      var s := roomSessions[c];
      LeaveRoom(c);
      BroadcastRoomUpdate();
      BroadcastUserList(s.roomId);
    }

    /** The caller's entry leaves its room's member list and the handler's session ends. */
    method LeaveRoom(c: ConnId)
      requires Valid() && c in roomSessions
      modifies this`rooms, this`roomSessions
      ensures Valid()
      ensures var s := old(roomSessions)[c];
        var room := old(rooms)[s.roomId];
        && roomSessions == old(roomSessions) - {c}
        && rooms == old(rooms)[s.roomId := room.(members := RemoveConn(room.members, c))]
    {
      var s := roomSessions[c];
      var room := rooms[s.roomId];
      assert RoomOk(room, s.roomId, nextConn);
      var left := room.(members := RemoveConn(room.members, c));
      FilterPairwise(room.members, (m: RoomMember) => m.conn != c, (a: RoomMember, b: RoomMember) => a.conn != b.conn);
      assert RoomOk(left, s.roomId, nextConn) by {
        assert forall i :: 0 <= i < |left.members| ==> left.members[i] in room.members;
      }
      RoomsOkUpdate(rooms, nextConn, s.roomId, left);
      rooms, roomSessions := rooms[s.roomId := left], roomSessions - {c};
    }
  }

  /** The user a `chat` frame names: `data.get('sender', user_id)` looked up by username; a `null` sender matches no row. */
  function ChatAuthor(users: seq<User>, sender: Field<string>, userId: string): Option<User> {
    match sender.Get(userId)
    case None => None
    case Some(name) => UserByName(users, name)
  }

  /** A `chat` frame whose sender resolves but whose `text` is `null`: the insert into a NOT NULL column raises. */
  predicate ChatCrashes(users: seq<User>, msg: RoomMsg, userId: string) {
    msg.ChatMsg? && ChatAuthor(users, msg.sender, userId).Some? && msg.text.Null?
  }

  /**
   * The rows a `chat` frame adds to `channel_messages`: one, with the next AUTOINCREMENT id, when
   * the sender resolves and the text is not `null` (a missing text stores ""); none otherwise.
   */
  function ChatRows(author: Option<User>, roomId: string, msg: RoomMsg, id: int, now: string): (r: seq<ChannelMessage>)
    requires msg.ChatMsg?
    ensures |r| <= 1
    ensures r != [] <==> author.Some? && !msg.text.Null?
    ensures r != [] ==>
      && r[0].id == id && r[0].channelId == roomId && r[0].senderId == author.value.id
      && r[0].content == (if msg.text.Present? then msg.text.value else "") && r[0].editedAt.None?
  {
    match msg.text.Get("")
    case Some(text) =>
      if author.Some? then [ChannelMessage(id, roomId, author.value.id, text, now, msg.attachmentUrl, msg.attachmentType, msg.attachmentName, None)]
      else []
    case None => []
  }

  /** The INSERT of `room_endpoint`'s chat branch, reached only when it cannot raise. */
  method StoreChat(db: Db, roomId: string, author: Option<User>, msg: RoomMsg, now: string)
    requires db.Valid() && msg.ChatMsg? && !(author.Some? && msg.text.Null?)
    modifies db`channelMessages, db`nextChannelMessageId
    ensures db.Valid()
    ensures db.channelMessages == old(db.channelMessages) + ChatRows(author, roomId, msg, old(db.nextChannelMessageId), now)
  {
    if author.Some? {
      var _ := InsertChannelMessage(db, roomId, author.value.id, msg.text.Get("").value, now,
                                    msg.attachmentUrl, msg.attachmentType, msg.attachmentName);
    }
  }

  /** Binding a fresh connection keeps the registry consistent with the lobby handlers. */
  lemma BindKeepsRegistry(lobby: seq<Binding>, sessions: map<ConnId, string>, name: string, c: ConnId)
    requires RegistryOk(lobby, sessions) && c !in sessions
    ensures RegistryOk(Bind(lobby, name, c), sessions[c := name])
  {
    BindLookup(lobby, name, c);
    var r := Bind(lobby, name, c);
    if name in Names(lobby) {
      forall i | 0 <= i < |r| ensures r[i].conn in sessions[c := name] && sessions[c := name][r[i].conn] == r[i].name {
        if lobby[i].name != name { assert r[i] == lobby[i]; }
      }
    } else {
      forall i | 0 <= i < |r| ensures r[i].conn in sessions[c := name] && sessions[c := name][r[i].conn] == r[i].name {
        if i < |lobby| { assert r[i] == lobby[i]; }
      }
    }
  }

  /** Ending a lobby handler, with its key unbound when it is still that handler's, keeps the registry consistent. */
  lemma UnbindKeepsRegistry(lobby: seq<Binding>, sessions: map<ConnId, string>, c: ConnId)
    requires RegistryOk(lobby, sessions) && c in sessions
    ensures var u := sessions[c];
      RegistryOk(if Lookup(lobby, u) == Some(c) then Unbind(lobby, u) else lobby, sessions - {c})
  {
    var u := sessions[c];
    forall i | 0 <= i < |lobby| && lobby[i].conn == c ensures lobby[i].name == u && Lookup(lobby, u) == Some(c) {
      LookupUnique(lobby, u);
    }
    if Lookup(lobby, u) == Some(c) {
      UnbindLookup(lobby, u);
      var r := Unbind(lobby, u);
      forall i | 0 <= i < |r| ensures r[i].conn in sessions - {c} && (sessions - {c})[r[i].conn] == r[i].name {
        assert r[i] in lobby;
      }
    }
  }

  /** `UPDATE users SET status = ? WHERE username = ?`. */
  function UpdateByName(users: seq<User>, name: string, status: Option<string>): (r: seq<User>)
    ensures |r| == |users|
    ensures forall i :: 0 <= i < |users| ==>
      r[i] == if users[i].username == name then users[i].(status := status) else users[i]
  {
    MapSeq(users, (u: User) => if u.username == name then u.(status := status) else u)
  }

  method SetStatus(db: Db, name: string, status: Option<string>)
    requires db.Valid()
    modifies db`users
    ensures db.Valid()
    ensures db.users == UpdateByName(old(db.users), name, status)
  {
    var r := UpdateByName(db.users, name, status);
    assert Pairwise(r, DistinctUsers) by {
      forall i, j | 0 <= i < j < |r| ensures DistinctUsers(r[i], r[j]) {
        assert DistinctUsers(db.users[i], db.users[j]);
      }
    }
    db.users := r;
  }

  /** `INSERT INTO channel_messages (...)` with the next AUTOINCREMENT id. */
  method InsertChannelMessage(db: Db, channelId: string, senderId: int, content: string, now: string,
                              url: Option<string>, kind: Option<string>, name: Option<string>) returns (id: int)
    requires db.Valid()
    modifies db`channelMessages, db`nextChannelMessageId
    ensures db.Valid()
    ensures id == old(db.nextChannelMessageId) && db.nextChannelMessageId == id + 1
    ensures db.channelMessages == old(db.channelMessages) + [ChannelMessage(id, channelId, senderId, content, now, url, kind, name, None)]
  {
    id := db.nextChannelMessageId;
    var m := ChannelMessage(id, channelId, senderId, content, now, url, kind, name, None);
    AppendPairwise(db.channelMessages, m, DistinctChannelMessages);
    db.channelMessages := db.channelMessages + [m];
    db.nextChannelMessageId := id + 1;
  }
}
