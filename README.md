# SafeZone, modelled in Dafny

SafeZone is a chat platform in the style of Discord. It has three parts.

- **The server** is FastAPI over SQLite. It handles accounts with `name#1234` tags, friends and direct messages, servers with channels, roles and invite codes, attachments, and system-administrator endpoints. A WebSocket hub keeps the lobby's presence and the members of each voice and text room.
- **The web client** is React in Electron. Its hooks hold the lobby connection, the channel chat, server data, unread markers and toasts. Its screens decide what is rendered: member list, friends page, message pane, role and server settings.
- **The iOS client** is represented here by its user record, whose phone number is masked.

This project models how each of these parts behaves and proves properties of that model. The model has one Dafny module per source file.

| module | models |
|---|---|
| `Common`, `Sorting` | shared option type, string and sequence helpers, and a stable sort by a total preorder (standing for `ORDER BY`, `sorted` and `Array.prototype.sort`) |
| `Store` | the database schema: tables as sequences in row order, with primary keys and UNIQUE columns kept as an invariant, and the lookups and cascading deletions the routers share |
| `Presence` | the WebSocket hub of `state.py` and the lobby and room handlers of `routers/chat.py`: registry, rooms, per-connection send queues, dead-connection pruning, snapshots and broadcasts |
| `Friends`, `Servers`, `Channels`, `Admin`, `Auth`, `Profile`, `ChatHttp` | the HTTP routers, one method per endpoint, each stating its reply and the new database state |
| `Cleanup` | the maintenance script that drops orphaned memberships and empty servers |
| `Api`, `Themes`, `ToastBus`, `Toasts`, `Unread` | the client's URL builder, themes, toast channel, toast list and unread markers |
| `LobbyClient`, `ChatClient`, `ServerData` | the client hooks, as classes whose fields are the React state; each asynchronous reply is a method of its own |
| `MemberList`, `FriendsDashboard`, `ChatArea`, `RoleSettings`, `ServerSettings` | the screens' derived data and their handlers |
| `UserModel` | the iOS user record and its phone mask |

Outside effects become recorded values or parameters:

- network sends and `fetch` calls are recorded;
- sounds, alerts and toasts are recorded;
- timers are recorded;
- bcrypt results, `secrets` tokens, `random` numbers and `uuid` text are given as parameters.

The server's database is one `Store.Db` object, which the endpoints change in place.

## Model

| member | source | states |
|---|---|---|
| Common.LowerAscii | SafeZone-Server/routers/chat.py:91-93 | lower-casing maps each ASCII capital to its small letter and keeps every other character, at the same length |
| Common.NatToStringValue | SafeZone-Server/routers/auth.py:27 | the decimal text of a number reads back as that number |
| Sorting.StrLeIsTotalPreorder | SafeZone-Server/routers/friends.py:248 | the string order used for sorting by name is total and transitive |
| Sorting.InsertKeepsTies | SafeZone-Web/src/components/MemberList.jsx:23-24 | among the elements tied with a given one, an insertion puts the new element first when it is tied too and keeps the others' order |
| Sorting.SortByStable | SafeZone-Web/src/components/MemberList.jsx:23-24 | the sort is stable: the elements with the same key come out in the order they went in, as `Array.prototype.sort` and Python's `list.sort` promise |
| Store.EmptyTables | SafeZone-Server/database.py:11-160 | a fresh database is consistent |
| Store.UserNameUnique | SafeZone-Server/database.py:14-16 | usernames and user ids identify one row each |
| Store.ServerIdUnique | SafeZone-Server/database.py:54-55 | a server id identifies one row |
| Store.ChannelMessageIdUnique | SafeZone-Server/database.py:136-137 | a channel message id identifies one row |
| Store.RoleIdUnique | SafeZone-Server/database.py:105-106 | a role id identifies one row |
| Store.UserByToken | SafeZone-Server/routers/server.py:18-19 | `SELECT ... WHERE token = ?` finds a user holding that token; NULL never matches, and no match means no user holds it |
| Store.UserByName | SafeZone-Server/routers/auth.py:62-63 | `WHERE username = ?` finds a user with that name, and fails exactly when there is none |
| Store.UserById | SafeZone-Server/routers/user.py:42-43 | `WHERE id = ?` finds the user with that id, and fails exactly when there is none |
| Store.ServerById | SafeZone-Server/routers/server.py:264-265 | `WHERE id = ?` finds the server with that id, and fails exactly when there is none |
| Store.ServerByIdAt | SafeZone-Server/database.py:54-55 | with distinct server ids, looking up the id of a row finds exactly that row |
| Store.ChannelById | SafeZone-Server/routers/channel.py:69-70 | `WHERE id = ?` finds the channel with that id, and fails exactly when there is none |
| Store.UpdateUser | SafeZone-Server/routers/auth.py:77 | `UPDATE users ... WHERE id = ?` changes that user's row only, in place |
| Store.UpdateUserValid | SafeZone-Server/routers/auth.py:77 | an update that keeps ids and usernames keeps the tables consistent |
| Store.ChannelIdsOf | SafeZone-Server/routers/server.py:320 | the sub-query `SELECT id FROM channels WHERE server_id = ?` gives exactly that server's channel ids |
| Store.DeleteChannelMessagesIn | SafeZone-Server/routers/server.py:320 | exactly the messages of those channels are deleted |
| Store.DeleteChannelsOf | SafeZone-Server/routers/server.py:321 | exactly the server's channels are deleted |
| Store.DeleteUserRolesOf | SafeZone-Server/routers/server.py:322 | exactly the server's role assignments are deleted |
| Store.DeleteRolesOf | SafeZone-Server/routers/server.py:323 | exactly the server's roles are deleted |
| Store.DeleteMembersOf | SafeZone-Server/routers/server.py:324 | exactly the server's memberships are deleted |
| Store.DeleteMembership | SafeZone-Server/routers/server.py:294 | exactly one user's membership of one server is deleted |
| Store.DeleteServerRow | SafeZone-Server/routers/server.py:325 | exactly the server row is deleted |
| Store.CascadeContents | SafeZone-Server/routers/server.py:319-325 | the cascade removes the server and its channels, channel messages, roles, role assignments and memberships, and leaves every other table and counter as it was |
| Store.CascadeValid | SafeZone-Server/routers/server.py:319-325 | the cascade keeps the tables consistent |
| Store.CascadeRemovesServer | SafeZone-Server/routers/server.py:319-325 | afterwards nothing of that server is left, and a second cascade changes nothing |
| Store.Db.constructor | SafeZone-Server/database.py:11-160 | the database starts empty and consistent |
| Store.DeleteServerCascade | SafeZone-Server/routers/server.py:319-328 | the six deletes leave the database as `Cascade` says |
| Presence.SeedRooms | SafeZone-Server/state.py:20-26 | the five seed voice rooms exist at start, each stored under its own id and empty |
| Presence.MemberIds | SafeZone-Server/state.py:53 | a room's `room_details` entry lists one user id per connection, in connection order |
| Presence.Names | SafeZone-Server/state.py:17 | the keys of the lobby registry are exactly the names bound at some position |
| Presence.Lookup | SafeZone-Server/routers/chat.py:207-209 | a registry lookup fails exactly for an unbound name, and a found connection is bound to that name |
| Presence.Bind | SafeZone-Server/routers/chat.py:214 | rebinding an existing key keeps the registry's length; a new key goes last |
| Presence.Unbind | SafeZone-Server/state.py:70 | deleting a key removes exactly the bindings of that key |
| Presence.BindInPlace | SafeZone-Server/routers/chat.py:214 | rebinding keeps every position's key and changes only the binding of that name, as a Python dict keeps insertion order |
| Presence.BindPairwise | SafeZone-Server/routers/chat.py:214 | binding keeps the registry's keys distinct |
| Presence.BindNames | SafeZone-Server/routers/chat.py:214 | after binding, the key set is the old one plus the name |
| Presence.BindLookup | SafeZone-Server/routers/chat.py:214 | after `d[name] = c` the name maps to `c`, every other key maps where it did, and keys stay distinct |
| Presence.BindOther | SafeZone-Server/routers/chat.py:214 | binding one name leaves every other name's lookup unchanged |
| Presence.LookupUnique | SafeZone-Server/state.py:17 | with distinct keys a lookup finds the single binding of that key |
| Presence.NameIndexUnique | SafeZone-Server/state.py:17 | with distinct keys two positions holding the same key are the same position |
| Presence.UnbindLookup | SafeZone-Server/routers/chat.py:249-250 | after `del d[name]` the name is gone, every other key maps where it did, and keys stay distinct |
| Presence.RegConns | SafeZone-Server/state.py:63 | the registry's connections in key order, one per key |
| Presence.DropDead | SafeZone-Server/state.py:69-70 | the registry after the failed senders are deleted holds exactly the bindings whose connection is live |
| Presence.DeadNamesMembers | SafeZone-Server/state.py:62-67 | a key is in `to_remove` exactly when its connection's send raised, and only registered keys are listed |
| Presence.DeadNamesDrop | SafeZone-Server/state.py:62-70 | deleting the keys listed in `to_remove` is the same as dropping the dead bindings |
| Presence.NamesCard | SafeZone-Server/state.py:34 | the registry has at most as many distinct keys as bindings |
| Presence.RoomDetailsShape | SafeZone-Server/state.py:51-53 | `room_details` has one key per room, empty rooms included, and lists each room's members in order |
| Presence.OnlineRowsContents | SafeZone-Server/state.py:38-47 | `online_users` holds exactly the user rows whose username is a registry key, never more rows than the table |
| Presence.OnlineRowsDistinct | SafeZone-Server/state.py:43-47 | with unique usernames the online rows have distinct usernames, all registered |
| Presence.DistinctWithin | SafeZone-Server/state.py:43-47 | rows with distinct usernames drawn from a set number at most its size |
| Presence.SnapshotCounts | SafeZone-Server/state.py:55-60 | `total_online` counts every registry key, and `online_users` is never longer and lists only registered names |
| Presence.UserEntries | SafeZone-Server/state.py:82-88 | a room's `user_list` has one entry per connection, in order, with its id and audio flags, a flag the client sent as `null` staying null |
| Presence.RemoveConn | SafeZone-Server/routers/chat.py:371-372 | disconnecting removes exactly that connection's entry and never lengthens the room |
| Presence.RemoveConnIdempotent | SafeZone-Server/routers/chat.py:371-372 | removing twice is removing once, and removing an absent connection changes nothing |
| Presence.SetFlags | SafeZone-Server/routers/chat.py:355-357 | a `user_state` frame sets the audio flags of the caller's own entry and leaves every other entry as it was |
| Presence.SetFlagsKeepsConns | SafeZone-Server/routers/chat.py:355-357 | updating flags keeps each entry's connection and user id |
| Presence.HistoryFor | SafeZone-Server/routers/chat.py:298-315 | the history sent on join is the earliest 50 messages of the channel, in order, or all of them when there are fewer |
| Presence.ChannelHistorySound | SafeZone-Server/routers/chat.py:300-314 | every history entry comes from a message of that channel whose sender is a user, with that user's name and the message's text |
| Presence.Post | SafeZone-Server/routers/chat.py:16-21 | sending to a set of connections keeps the set of queues |
| Presence.PostAdd | SafeZone-Server/routers/chat.py:16-21 | one more target is one more append to that connection's queue |
| Presence.Targets | SafeZone-Server/routers/chat.py:363-368 | the targets of a loop are exactly the listed connections that are live and are not the skipped sender |
| Presence.TargetsSnoc | SafeZone-Server/routers/chat.py:17-21 | one more loop step adds that connection exactly when it is live and not skipped |
| Presence.SendEach | SafeZone-Server/routers/chat.py:16-21 | the send loop appends the frame to every live, non-skipped connection's queue, failures ignored, and touches nothing else |
| Presence.SendStep | SafeZone-Server/routers/chat.py:16-21 | one more connection of the loop: its queue, untouched so far, gets the frame once when it is live and not skipped, and nothing otherwise |
| Presence.MemberConns | SafeZone-Server/state.py:92 | a member list's connections, in order, are exactly its members' connections |
| Presence.LiveConns | SafeZone-Server/state.py:92-96 | the live connections of a room are its members' connections whose send does not raise |
| Presence.LiveOthers | SafeZone-Server/routers/chat.py:363-364 | a relayed signalling frame goes to the room's live members other than the sender |
| Presence.LiveRegistered | SafeZone-Server/state.py:63-65 | the live connections of the registry are the bound connections whose send does not raise |
| Presence.RegistryConnsDistinct | SafeZone-Server/routers/chat.py:214 | when the registry matches the running lobby handlers, no connection is bound under two keys |
| Presence.CollectDead | SafeZone-Server/state.py:62-67 | the loop returns exactly `to_remove`: the keys, in key order, whose send raised |
| Presence.DeleteKeys | SafeZone-Server/state.py:69-70 | deleting the listed keys one by one leaves the bindings whose key is not listed |
| Presence.DeleteStep | SafeZone-Server/state.py:69-70 | one more deletion step filters one more key |
| Presence.OnlineUsersOf | SafeZone-Server/state.py:38-48 | the row loop builds exactly the `online_users` list |
| Presence.RoomDetailsOf | SafeZone-Server/state.py:51-53 | the room loop builds exactly the `room_details` map |
| Presence.BuildLobbySnapshot | SafeZone-Server/state.py:32-60 | the `lobby_update` frame is the snapshot of the registry, the rooms and the user table |
| Presence.JoinKeepsRoomOk | SafeZone-Server/routers/chat.py:278-284 | appending a fresh connection keeps a room well formed |
| Presence.RoomsOkGrow | SafeZone-Server/routers/chat.py:256 | issuing a new connection keeps every room well formed |
| Presence.RoomsOkUpdate | SafeZone-Server/routers/chat.py:269 | storing a well-formed room keeps the rooms well formed |
| Presence.NewcomerQueue | SafeZone-Server/routers/chat.py:288-321 | a newcomer receives its `user_list`, then `please_offer` when it is not alone, then the history when there is any, and nothing else |
| Presence.Pushed | SafeZone-Server/routers/friends.py:314-325 | a push by an HTTP handler changes nothing for an unbound name, else it goes to the bound connection only if live |
| Presence.PushedTargets | SafeZone-Server/routers/friends.py:68-76 | a push reaches at most the connection bound to the name, and only when that connection is live |
| Presence.Hub.constructor | SafeZone-Server/state.py:20-28 | server start: the seed rooms, an empty lobby registry and no connections |
| Presence.Hub.Accept | SafeZone-Server/routers/chat.py:204 | an accepted connection is fresh, live and has an empty queue, and the hub stays consistent |
| Presence.Hub.Drop | SafeZone-Server/state.py:64-67 | a failed transport makes every later send to that connection raise |
| Presence.Hub.PushTo | SafeZone-Server/routers/friends.py:314-325 | an HTTP handler's notification is delivered as `Pushed` says |
| Presence.Hub.BroadcastRoomUpdate | SafeZone-Server/state.py:32-70 | every live registered connection gets the same snapshot, and exactly the failed keys are deleted from the registry |
| Presence.RegistryOkDrop | SafeZone-Server/state.py:69-70 | deleting the failed keys leaves a registry whose keys are distinct and whose every entry is a live lobby handler of that key |
| Presence.Hub.BroadcastUserList | SafeZone-Server/state.py:76-96 | an unknown room id sends nothing; a known room's live members get its `user_list` |
| Presence.Hub.BroadcastToRoom | SafeZone-Server/routers/chat.py:16-21 | a room broadcast, or the relay that leaves out the sender, appends the frame to exactly the live targets |
| Presence.Hub.Register | SafeZone-Server/routers/chat.py:206-214 | the previous connection under the key is closed, the key is bound to the new connection, and a lobby session begins |
| Presence.Hub.ClosePrevious | SafeZone-Server/routers/chat.py:207-212 | a key already bound has its old connection closed, and that connection is an issued one other than the new one; an unbound key closes nothing |
| Presence.Hub.BindNew | SafeZone-Server/routers/chat.py:214 | the key is bound to the new connection, in place when it was bound and last otherwise, and the handler's session begins |
| Presence.Hub.LobbyConnect | SafeZone-Server/routers/chat.py:202-217 | a lobby connection closes the old one under that name, binds the new one, and broadcasts the snapshot of the new registry |
| Presence.Hub.LobbyReceive | SafeZone-Server/routers/chat.py:219-247 | `ping` gets a `pong` with the same timestamp; a known `status_update` stores the status under the session's name and broadcasts; anything else changes nothing |
| Presence.Hub.LobbyDisconnect | SafeZone-Server/routers/chat.py:248-251 | on disconnect the key is unbound only when it is still this connection's, and the snapshot is broadcast |
| Presence.Hub.Unregister | SafeZone-Server/routers/chat.py:249-250 | the key is unbound only when it is still bound to this connection, and the handler's session ends either way |
| Presence.Hub.AddMember | SafeZone-Server/routers/chat.py:276-284 | the join stores the room with the caller appended, unmuted and undeafened, and begins its room session |
| Presence.Hub.RoomJoin | SafeZone-Server/routers/chat.py:254-321 | a join to a room that is neither in memory nor a channel closes the socket and changes nothing else; otherwise it appends the member, broadcasts both snapshots, then greets the newcomer |
| Presence.Hub.JoinOpened | SafeZone-Server/routers/chat.py:276-321 | once the room is known, the caller is appended unmuted and undeafened and begins its session, dead lobby connections are dropped, the lobby snapshot and the room's `user_list` go out, and the newcomer is greeted |
| Presence.Hub.Greet | SafeZone-Server/routers/chat.py:291-321 | the newcomer's own frames: `please_offer` when it is not alone, then the history when there is any |
| Presence.Hub.OnChat | SafeZone-Server/routers/chat.py:330-347 | a `chat` frame whose sender resolves to a user but whose `text` is `null` ends the handler on the NOT NULL column, storing and sending nothing; otherwise the rows of `ChatRows` are stored and the frame is echoed to the whole room |
| Presence.ChatRows | SafeZone-Server/routers/chat.py:334-342 | at most one row, present exactly when the sender resolves (the path's user id for a missing `sender`, nobody for a `null` one) and the text is not `null`; it carries the next id, the room, the sender's id and the text, empty when the key is missing |
| Presence.StoreChat | SafeZone-Server/routers/chat.py:337-343 | the channel messages grow by exactly `ChatRows` and the store stays consistent |
| Presence.Hub.OnUserState | SafeZone-Server/routers/chat.py:355-360 | a `user_state` frame updates the caller's flags, a missing key meaning false and a `null` stored as null, and broadcasts the room's new `user_list` |
| Presence.Hub.OnOther | SafeZone-Server/routers/chat.py:349-368 | a `typing` frame is echoed to all, a `user_state` frame updates the caller's flags and sends the new `user_list`, and any other frame is relayed verbatim to the others |
| Presence.Hub.RoomReceive | SafeZone-Server/routers/chat.py:324-368 | the handler ends, without cleanup, exactly for text that is not a JSON object and for a `chat` frame from a known sender with a `null` text; otherwise the sessions stay, a `chat` frame stores `ChatRows` and is echoed to all, `typing` is echoed to all, `user_state` sets the caller's flags and broadcasts the new `user_list`, and any other type is relayed verbatim to the others |
| Presence.Hub.EndRoomHandler | SafeZone-Server/routers/chat.py:326-342 | a frame that does not parse as an object, or an insert the database refuses, ends the handler: its session goes and its connection is closed |
| Presence.Hub.RoomDisconnect | SafeZone-Server/routers/chat.py:370-376 | on disconnect the caller's entry leaves the room and both snapshots go out |
| Presence.Hub.LeaveRoom | SafeZone-Server/routers/chat.py:371-372 | exactly the caller's entry leaves the room's member list and the handler's session ends; the rooms stay well formed |
| Presence.BindKeepsRegistry | SafeZone-Server/routers/chat.py:214 | binding a fresh connection keeps the registry consistent with the running lobby handlers |
| Presence.UnbindKeepsRegistry | SafeZone-Server/routers/chat.py:249-250 | ending a lobby handler, unbinding its key only when it is still that handler's, keeps the registry consistent |
| Presence.UpdateByName | SafeZone-Server/routers/chat.py:239 | `UPDATE users SET status` changes the status of the rows with that username and nothing else |
| Presence.SetStatus | SafeZone-Server/routers/chat.py:236-241 | the user table becomes `UpdateByName` of the old one, and the store stays consistent |
| Presence.InsertChannelMessage | SafeZone-Server/routers/chat.py:337-342 | the insert appends one message row with the next AUTOINCREMENT id and no edit time |
| Friends.SplitTag | SafeZone-Server/routers/friends.py:23-27 | a tag splits exactly when it holds one `#`, and the two parts rejoin to the tag |
| Friends.SplitTagJoin | SafeZone-Server/routers/friends.py:23-27 | splitting `name#disc` gives back the name and the discriminator |
| Friends.UserByTag | SafeZone-Server/routers/friends.py:40-41 | the lookup finds a user with that name and discriminator, and fails exactly when there is none |
| Friends.AddFriendCheckSound | SafeZone-Server/routers/friends.py:14-61 | a request is accepted only from a valid token, for an existing other user named by the tag, when they are not yet friends and no request is pending |
| Friends.AddSelfRejected | SafeZone-Server/routers/friends.py:47-49 | adding one's own tag is refused with the self-add message |
| Friends.UserByTagAt | SafeZone-Server/routers/friends.py:40-41 | with distinct usernames, a user's own name and discriminator find that user |
| Friends.AddRequestValid | SafeZone-Server/routers/friends.py:64 | storing a new request keeps the tables consistent |
| Friends.AddFriendTwice | SafeZone-Server/routers/friends.py:57-61 | a second, identical request is refused as already sent |
| Friends.AddFriend | SafeZone-Server/routers/friends.py:14-80 | a failed check changes nothing; a passed one stores the request and pushes a `friend_request` note, with discriminator `0001` by default, to the friend's lobby connection |
| Friends.SendRequest | SafeZone-Server/routers/friends.py:63-76 | the request row is stored and the note is pushed |
| Friends.IncomingSenders | SafeZone-Server/routers/friends.py:93-103 | the incoming list holds only users who sent a request to the caller |
| Friends.FriendUsers | SafeZone-Server/routers/friends.py:243-249 | the friend list holds exactly the users the caller has a friendship row with |
| Friends.FriendsByName | SafeZone-Server/routers/friends.py:243-253 | the same friends, ordered by username (`ORDER BY u.username`) |
| Friends.NameLeIsTotalPreorder | SafeZone-Server/routers/friends.py:248 | ordering by username is a total preorder |
| Friends.FriendsStrictlyOrdered | SafeZone-Server/routers/friends.py:243-253 | since usernames are unique, no username appears twice in the friend list |
| Friends.DistinctAfterPermutation | SafeZone-Server/routers/friends.py:248 | reordering rows with distinct usernames keeps them distinct |
| Friends.CountOnceInDistinct | SafeZone-Server/routers/friends.py:248 | a row with a unique username occurs once |
| Friends.GetFriendsData | SafeZone-Server/routers/friends.py:228-279 | an invalid token is refused; otherwise the friends sorted by name, the incoming requests, and an empty outgoing list |
| Friends.AsPendingRow | SafeZone-Server/routers/friends.py:103 | a pending request row carries the sender's username and discriminator |
| Friends.GetFriendRequests | SafeZone-Server/routers/friends.py:82-108 | an invalid token gives a bare error; otherwise the senders of requests to the caller |
| Friends.IncomingIds | SafeZone-Server/routers/friends.py:263-270 | each incoming row's id is `req_` plus its username, and that user did send the caller a request |
| Friends.RespondNeedsSenderName | SafeZone-Server/routers/friends.py:126-165 | with no `sender_username` the answer is always an error, whatever the `request_id` |
| Friends.RespondFindsNamedSender | SafeZone-Server/routers/friends.py:126-165 | with a non-empty `sender_username` the check passes exactly when the caller's token and a user of that name exist, and the sender found has that name |
| Friends.DeleteRequest | SafeZone-Server/routers/friends.py:168 | deleting a request removes exactly that row |
| Friends.RespondValid | SafeZone-Server/routers/friends.py:167-178 | answering a request keeps the tables consistent |
| Friends.RespondEffect | SafeZone-Server/routers/friends.py:167-176 | the request is gone, other requests stay, acceptance adds both directions of the friendship, rejection adds none, and nothing else changes |
| Friends.RespondIdempotent | SafeZone-Server/routers/friends.py:168-173 | answering twice is answering once, thanks to `INSERT OR IGNORE` |
| Friends.FriendshipSymmetric | SafeZone-Server/routers/friends.py:172-173 | adding or removing a friendship in both directions keeps the relation symmetric |
| Friends.UnfriendUndoesBefriend | SafeZone-Server/routers/friends.py:217-218 | removing a friendship just added restores the old relation |
| Friends.AcceptBlocksRequest | SafeZone-Server/routers/friends.py:51-55 | once a request is accepted, neither side can send the other a new request |
| Friends.RespondFriend | SafeZone-Server/routers/friends.py:110-182 | a failed check changes nothing; otherwise the reply is the accept or reject message and the tables are `Respond` of the old ones |
| Friends.WriteRespond | SafeZone-Server/routers/friends.py:168-173 | the request from the sender is deleted and, on accept, both friendship directions are inserted, keeping the tables consistent |
| Friends.FriendIdFirst | SafeZone-Server/routers/friends.py:204-210 | a truthy `friend_id` decides the friend, whatever `friend_username` says |
| Friends.RemoveFriend | SafeZone-Server/routers/friends.py:184-226 | a failed check changes nothing; otherwise both directions of the friendship are deleted |
| Friends.StoreDmValid | SafeZone-Server/routers/friends.py:309-310 | storing a DM keeps the tables consistent |
| Friends.SendDmAppendsToHistory | SafeZone-Server/routers/friends.py:288-313 | a sent DM becomes the newest entry of that conversation's history |
| Friends.SendDm | SafeZone-Server/routers/friends.py:288-330 | an invalid token or unknown receiver changes nothing; otherwise the DM is stored and a `dm_received` frame is pushed to the receiver's lobby connection |
| Friends.DeliverDm | SafeZone-Server/routers/friends.py:308-325 | the message row is stored and the push is made |
| Friends.Conversation | SafeZone-Server/routers/friends.py:352-372 | the conversation holds at most the stored messages, and with a `before_id` only older ids |
| Friends.HistoryLimit | SafeZone-Server/routers/friends.py:338 | the limit is capped at 100 and is 50 when the key is missing; an explicit `null` gives no limit, because `min` cannot compare it |
| Friends.Limit | SafeZone-Server/routers/friends.py:361 | a non-negative `LIMIT` keeps the first rows; a negative one keeps all, as SQLite does |
| Friends.GetDmHistory | SafeZone-Server/routers/friends.py:332-390 | a `null` limit is the comparison's error before any lookup; an unknown caller or partner is an error; otherwise the newest rows of the conversation up to the limit, in chronological order |
| Friends.HistoryIsNewest | SafeZone-Server/routers/friends.py:370-385 | taking the first rows of the reversed list and reversing back is taking the last rows |
| Friends.SentIsLast | SafeZone-Server/routers/friends.py:309-310 | a stored message is the last row of its conversation |
| Friends.MessageById | SafeZone-Server/routers/friends.py:409-410 | the lookup finds the message with that id, and fails exactly when there is none |
| Friends.OwnDmCheck | SafeZone-Server/routers/friends.py:403-413 | an edit or delete is allowed exactly for a valid token whose user sent the message |
| Friends.EditMessage | SafeZone-Server/routers/friends.py:415-416 | the edit changes the content and edit time of that message only |
| Friends.DeleteMessage | SafeZone-Server/routers/friends.py:446 | the delete removes exactly the messages with that id |
| Friends.EditMessageValid | SafeZone-Server/routers/friends.py:415-416 | an edit keeps the tables consistent |
| Friends.DeleteMessageValid | SafeZone-Server/routers/friends.py:446 | a delete keeps the tables consistent |
| Friends.DeleteTwiceUnauthorized | SafeZone-Server/routers/friends.py:440-444 | a message deleted once cannot be edited or deleted again |
| Friends.EditDm | SafeZone-Server/routers/friends.py:392-422 | a failed check changes nothing; a null content fails the NOT NULL column; otherwise that message is edited |
| Friends.DeleteDm | SafeZone-Server/routers/friends.py:424-452 | a failed check changes nothing; otherwise that message is deleted |
| Servers.InviteCode | SafeZone-Server/routers/server.py:26 | the invite code of three random bytes is six uppercase hex digits |
| Servers.HexValue | SafeZone-Server/routers/server.py:26 | every uppercase hex digit has a value below 16 that maps back to it |
| Servers.HexDigitValue | SafeZone-Server/routers/server.py:26 | reading a digit back gives its value |
| Servers.InviteCodeDecodes | SafeZone-Server/routers/server.py:26 | each pair of code digits decodes to the random byte it came from, so no information is lost |
| Servers.ServerByInvite | SafeZone-Server/routers/server.py:97-98 | the lookup finds a server with that invite code, and fails exactly when there is none |
| Servers.CreateServerValid | SafeZone-Server/routers/server.py:28-41 | creating a server keeps the tables consistent |
| Servers.CreatedServerIsOwned | SafeZone-Server/routers/server.py:28-29 | the created server exists with the given name, the caller as owner, the invite code and no deletion time |
| Servers.CreatedServerChannels | SafeZone-Server/routers/server.py:31-35 | exactly two channels are added to the new server |
| Servers.CreatorCannotJoin | SafeZone-Server/routers/server.py:38-39 | the creator is already a member, so joining with the new code is refused |
| Servers.InviteOfAppended | SafeZone-Server/routers/server.py:97-98 | after a server with an unused invite code is inserted, that code finds the new server |
| Servers.CreateServer | SafeZone-Server/routers/server.py:11-48 | an invalid token or an id collision changes nothing; otherwise the server, its two channels and the owner's membership are stored and the id and invite code are returned |
| Servers.InsertServer | SafeZone-Server/routers/server.py:28-41 | the inserts of a successful create, against `CreateServerWrite` |
| Servers.AddMemberValid | SafeZone-Server/routers/server.py:110-111 | adding a new membership keeps the tables consistent and makes the user a member |
| Servers.JoinTwice | SafeZone-Server/routers/server.py:103-107 | after a join the user is a member, and joining again is refused |
| Servers.JoinServer | SafeZone-Server/routers/server.py:83-118 | an invalid token, unknown code or existing membership changes nothing; otherwise one `member` row is added and the server's id is returned |
| Servers.MemberRows | SafeZone-Server/routers/server.py:135-141 | the member rows are the server's members, at most one per membership |
| Servers.RoleIdsOf | SafeZone-Server/routers/server.py:152-157 | a user's role ids are exactly the roles assigned to that user |
| Servers.GroupRoleIds | SafeZone-Server/routers/server.py:152-157 | the grouping loop maps every user to exactly their assigned role ids, absent users to none |
| Servers.ServerRoles | SafeZone-Server/routers/server.py:144-145 | the server's roles are exactly the roles of that server |
| Servers.RoleWithId | SafeZone-Server/routers/server.py:169 | the lookup finds the role with that id, and fails exactly when there is none |
| Servers.MyRoles | SafeZone-Server/routers/server.py:169 | a member's roles are server roles among the assigned ids; ids of other servers are ignored |
| Servers.MyRolesComplete | SafeZone-Server/routers/server.py:169 | every server role assigned to the member is among them |
| Servers.PositionGeIsTotalPreorder | SafeZone-Server/routers/server.py:173 | ordering by descending position is a total preorder |
| Servers.ByPositionDesc | SafeZone-Server/routers/server.py:173 | sorting keeps the roles, as a permutation, and orders them by descending position |
| Servers.EnrichAll | SafeZone-Server/routers/server.py:159-182 | the enrichment loop gives each member row its role ids and highest role |
| Servers.HighestRoleIsGreatest | SafeZone-Server/routers/server.py:164-181 | a member's role ids are exactly its server roles; with none the badge is Owner or Member by legacy role, colour `#99AAB5`, position 0; otherwise the badge is one of its roles with the greatest position |
| Servers.BadgeIsTop | SafeZone-Server/routers/server.py:170-181 | the badge of roles sorted by descending position is the first one, which no listed role outranks, and the legacy fallback when there are none |
| Servers.RoleIdsListed | SafeZone-Server/routers/server.py:176 | the listed role ids are exactly the ids of the member's roles |
| Servers.GetServerMembers | SafeZone-Server/routers/server.py:122-187 | an invalid token is refused; otherwise every member of the server, enriched |
| Servers.MaxPosition | SafeZone-Server/routers/server.py:222-223 | `MAX(position)` is absent exactly when the server has no role, else it is the greatest position of its roles |
| Servers.AddRoleValid | SafeZone-Server/routers/server.py:226-228 | adding the new role keeps the tables consistent |
| Servers.NewRoleOnTop | SafeZone-Server/routers/server.py:221-227 | the new role's position is above every existing role of the server, is 1 for the first role, and becomes the new maximum |
| Servers.CreateRole | SafeZone-Server/routers/server.py:201-246 | an invalid token or a caller who is not the owner changes nothing; otherwise the new role is stored and returned |
| Servers.NextOwner | SafeZone-Server/routers/server.py:269-270 | the next owner is another member of the server, and none exists exactly when the owner is alone |
| Servers.ServerOf | SafeZone-Server/routers/server.py:264-265 | the looked-up server has the given id and is stored |
| Servers.SetOwner | SafeZone-Server/routers/server.py:275 | the owner changes for that server only |
| Servers.SetRole | SafeZone-Server/routers/server.py:276 | the role changes for that membership only |
| Servers.HandOverValid | SafeZone-Server/routers/server.py:274-294 | handing over ownership keeps the tables consistent |
| Servers.DropMembershipValid | SafeZone-Server/routers/server.py:294 | dropping a membership keeps the tables consistent |
| Servers.LeaveValid | SafeZone-Server/routers/server.py:248-297 | every leave keeps the tables consistent |
| Servers.SetOwnerFound | SafeZone-Server/routers/server.py:275 | after the update the server is still found, with the new owner |
| Servers.HandOverEffect | SafeZone-Server/routers/server.py:267-294 | an owner who leaves a shared server hands it to another member, whose role becomes owner, and loses their own membership; users, channels and roles stay |
| Servers.SoleOwnerLeaveDeletes | SafeZone-Server/routers/server.py:280-291 | a sole owner leaving deletes the server and all its channels through the cascade |
| Servers.MemberLeaveDropsOwnRow | SafeZone-Server/routers/server.py:293-297 | a non-owner leaving loses exactly their own membership of that server |
| Servers.LeaveServer | SafeZone-Server/routers/server.py:248-299 | an invalid token changes nothing; otherwise the leave plan is applied and the sole-owner case reports the deletion |
| Servers.ApplyLeave | SafeZone-Server/routers/server.py:263-297 | the writes of a leave, against `Leave` |
| Servers.DeleteOnlyByOwner | SafeZone-Server/routers/server.py:308-317 | the delete is allowed exactly for the owner of an existing server, and it removes that server |
| Servers.DeleteServer | SafeZone-Server/routers/server.py:301-331 | a non-owner changes nothing; the owner's delete cascades over the server's tables |
| Servers.OwnerCannotLeaveAsWritten | SafeZone-Server/routers/server.py:269 | as written, every owner's leave fails on the missing `joined_at` column and changes nothing, while the corrected leave never treats the owner as a plain member |
| Channels.OwnerCheckOnlyOwner | SafeZone-Server/routers/channel.py:61-82 | a rename or delete is allowed only for an existing channel whose server exists and is owned by the token's user |
| Channels.AddChannelValid | SafeZone-Server/routers/channel.py:36-38 | inserting a channel under a fresh id keeps the tables consistent |
| Channels.AddChannelFound | SafeZone-Server/routers/channel.py:36-38 | the inserted channel is found under its id |
| Channels.RenameChannel | SafeZone-Server/routers/channel.py:84 | a rename changes that channel's name only |
| Channels.RenameValid | SafeZone-Server/routers/channel.py:84 | a rename keeps the tables consistent |
| Channels.RenameEffect | SafeZone-Server/routers/channel.py:84 | the renamed channel is found with the new name and otherwise unchanged |
| Channels.RemoveChannelValid | SafeZone-Server/routers/channel.py:112-113 | deleting a channel and its messages keeps the tables consistent |
| Channels.RemoveChannelEffect | SafeZone-Server/routers/channel.py:112-113 | the channel is gone, the other channels stay, and exactly the messages of that channel are removed |
| Channels.CreateChannel | SafeZone-Server/routers/channel.py:11-53 | an invalid token, missing server or non-owner changes nothing and sends nothing; otherwise one channel is inserted under the fresh id and one presence broadcast goes out |
| Channels.InsertChannel | SafeZone-Server/routers/channel.py:37-41 | the insert of a create, against `AddChannel` |
| Channels.Rename | SafeZone-Server/routers/channel.py:55-91 | a failed check changes nothing; otherwise the channel is renamed and one presence broadcast goes out |
| Channels.Delete | SafeZone-Server/routers/channel.py:93-120 | a failed check changes nothing; otherwise the channel and its messages are deleted and one presence broadcast goes out |
| Admin.RemoveAll | SafeZone-Server/routers/admin.py:12 | `str.replace(pat, "")` never lengthens the header |
| Admin.RemoveAllIdentity | SafeZone-Server/routers/admin.py:12 | removal leaves the text unchanged exactly when the pattern does not occur in it |
| Admin.BearerRoundTrip | SafeZone-Server/routers/admin.py:12 | stripping `Bearer ` from `Bearer <token>` gives back the token (the bearer scheme of section 2.1 of RFC 6750) |
| Admin.GuardOutcomes | SafeZone-Server/routers/admin.py:9-18 | a missing header raises 401 Missing Token; the guard passes exactly for a sysadmin holding the stripped token; every refusal is 401 or 403 |
| Admin.GuardAcceptsBearer | SafeZone-Server/routers/admin.py:9-18 | a sysadmin's `Bearer <token>` header is accepted and yields that user |
| Admin.CountActive | SafeZone-Server/routers/admin.py:27-28 | the active count is at most the number of servers |
| Admin.CountActiveAll | SafeZone-Server/routers/admin.py:27-31 | every server counts as active exactly when none has a deletion time |
| Admin.CountActiveAppend | SafeZone-Server/routers/admin.py:27-28 | one more server adds one to the active count exactly when it is not deleted |
| Admin.GetStats | SafeZone-Server/routers/admin.py:20-34 | the stats are returned exactly when the guard passes, else its error; users and total servers are row counts, and active servers never exceed the total |
| Admin.AdminJoin | SafeZone-Server/routers/admin.py:65-86 | a guard failure or unknown server changes nothing; an existing member gets `Already a member`; otherwise the administrator is added as a member |
| Admin.AdminJoinTwice | SafeZone-Server/routers/admin.py:76-80 | after the join the administrator is a member, and a second join passes the same checks |
| Admin.Toggled | SafeZone-Server/routers/admin.py:100-107 | the new deletion time is set exactly when the old one was not |
| Admin.SetDeletedAt | SafeZone-Server/routers/admin.py:102-106 | the update changes that server's deletion time only |
| Admin.SetDeletedAtValid | SafeZone-Server/routers/admin.py:102-106 | the update keeps the tables consistent |
| Admin.ToggleFlips | SafeZone-Server/routers/admin.py:94-107 | after the toggle the server is found with the new deletion time |
| Admin.ToggleServer | SafeZone-Server/routers/admin.py:88-111 | a guard failure or unknown id, raised as 404, changes nothing; otherwise the deletion time is toggled and the message says which way |
| Auth.Zeros | SafeZone-Server/routers/auth.py:27 | a run of `n` zero characters |
| Auth.ZFill | SafeZone-Server/routers/auth.py:27 | Python's `zfill` pads to the width and never shortens |
| Auth.NatToStringShort | SafeZone-Server/routers/auth.py:27 | a number below `10^k` has at most `k` decimal digits |
| Auth.LeadingZerosValue | SafeZone-Server/routers/auth.py:27 | leading zeros do not change a digit string's value |
| Auth.ZerosValue | SafeZone-Server/routers/auth.py:27 | a run of zeros has value 0 |
| Auth.ZerosSnoc | SafeZone-Server/routers/auth.py:27 | a run of zeros is one shorter run plus a zero |
| Auth.Pad4 | SafeZone-Server/routers/auth.py:27 | a discriminator candidate is four decimal digits |
| Auth.Pad4Value | SafeZone-Server/routers/auth.py:27 | the four digits read back as the drawn number |
| Auth.Pad4Injective | SafeZone-Server/routers/auth.py:27 | distinct draws give distinct candidates |
| Auth.DiscriminatorsOf | SafeZone-Server/routers/auth.py:21-22 | the existing set holds exactly the discriminators stored for that username |
| Auth.FirstFree | SafeZone-Server/routers/auth.py:25-30 | the chosen discriminator is a drawn candidate not already taken, and there is none exactly when every candidate collides |
| Auth.ChooseDiscriminator | SafeZone-Server/routers/auth.py:25-30 | the 100-attempt loop picks the first free candidate |
| Auth.AddUserValid | SafeZone-Server/routers/auth.py:43-45 | inserting a user with a fresh id and name keeps the tables consistent |
| Auth.RegisterPicksFree | SafeZone-Server/routers/auth.py:19-34 | a successful registration's discriminator is four characters, one of the draws, and not held by any user of that name |
| Auth.RegisterAllCollide | SafeZone-Server/routers/auth.py:32-34 | registration fails with the "too popular" message exactly when every candidate is taken |
| Auth.RegisterTakenName | SafeZone-Server/routers/auth.py:43-44 | a name already in use is refused, because the username column is UNIQUE |
| Auth.RegisterThenLogin | SafeZone-Server/routers/auth.py:56-73 | a newly registered user can log in exactly with a password the hash accepts |
| Auth.Register | SafeZone-Server/routers/auth.py:12-54 | a failed check inserts no user; otherwise one user is inserted with the chosen discriminator and the token is returned |
| Auth.LoginSameError | SafeZone-Server/routers/auth.py:65-73 | an unknown name and a wrong password give the same error; login succeeds exactly for a known name whose hash accepts the password |
| Auth.Login | SafeZone-Server/routers/auth.py:56-85 | a failed login changes nothing; a successful one stores the new token, returns it and reports a missing discriminator as `0001` |
| Auth.Verify | SafeZone-Server/routers/auth.py:87-108 | a missing token gives `No token`; otherwise verification succeeds exactly when some user holds the token, and returns that user's names |
| Auth.LoginThenVerify | SafeZone-Server/routers/auth.py:76-81 | after a login the new token verifies as that user |
| Auth.RegisterThenVerify | SafeZone-Server/routers/auth.py:41-44 | the token issued at registration verifies as the new user |
| Auth.ResetNeedsPin | SafeZone-Server/routers/auth.py:116-126 | a reset is allowed exactly for a known user with the matching recovery PIN, and each refusal has its own message |
| Auth.Reset | SafeZone-Server/routers/auth.py:110-140 | a refused reset leaves the hash unchanged; otherwise only that user's hash changes |
| Auth.ResetThenLogin | SafeZone-Server/routers/auth.py:128-131 | after a reset, login succeeds exactly with a password the new hash accepts |
| Auth.NewHashFound | SafeZone-Server/routers/auth.py:129-130 | after the update, the user's name finds the same row with only the hash replaced |
| Profile.View | SafeZone-Server/routers/user.py:46-54 | the returned profile carries the user's names and avatar URL, with the avatar colour falling back to `#5865F2` when it is null or empty |
| Profile.EditFrame | SafeZone-Server/routers/user.py:32-37 | an update changes only the display name and avatar colour, each only when a non-empty value is given, and nothing when neither is |
| Profile.EditsCompose | SafeZone-Server/routers/user.py:33-37 | the two conditional updates in sequence are one combined update of that user |
| Profile.RefetchEdited | SafeZone-Server/routers/user.py:41-43 | re-reading the user after an update gives the updated row |
| Profile.UpdateProfile | SafeZone-Server/routers/user.py:12-56 | a missing or invalid token changes nothing; otherwise the conditional edits are applied and the edited profile is returned |
| Profile.ApplyEdits | SafeZone-Server/routers/user.py:33-39 | the writes of an update, against `Edit` |
| Profile.AvatarUrlShape | SafeZone-Server/routers/user.py:72-80 | the avatar URL is `/uploads/<id>_` followed by the eight hex characters, and its extension is the upload's text after the last dot |
| Profile.UploadAvatar | SafeZone-Server/routers/user.py:58-91 | an invalid token changes nothing; otherwise only that user's avatar URL changes and the stored URL is returned |
| Profile.StoreAvatarUrl | SafeZone-Server/routers/user.py:79-88 | the update stores the URL and the re-read returns it |
| ChatHttp.Joined | SafeZone-Server/routers/chat.py:39-46 | each joined row is a message of that channel whose sender exists, paired with the sender's username |
| ChatHttp.JoinedComplete | SafeZone-Server/routers/chat.py:39-46 | every message of the channel whose sender exists appears in the join |
| ChatHttp.GetChannelMessages | SafeZone-Server/routers/chat.py:25-64 | an invalid token is refused; otherwise the first 1000 joined rows of the channel, never more |
| ChatHttp.FileKind | SafeZone-Server/routers/chat.py:89-94 | the upload type is `image` or `video` exactly for those extensions, ignoring case, and `file` for any other |
| ChatHttp.LowerAsciiIdempotent | SafeZone-Server/routers/chat.py:91 | lowering twice is lowering once |
| ChatHttp.FileKindIgnoresCase | SafeZone-Server/routers/chat.py:91-93 | the type does not depend on the extension's case |
| ChatHttp.ChatUrlShape | SafeZone-Server/routers/chat.py:80-87 | the chat upload URL is `/uploads/chat_<id>_...` and keeps the upload's extension, hence its type |
| ChatHttp.MessageById | SafeZone-Server/routers/chat.py:123-124 | the lookup finds the message with that id, and fails exactly when there is none |
| ChatHttp.OwnMessageCheck | SafeZone-Server/routers/chat.py:116-127 | an edit or delete is allowed exactly for a valid token whose user sent the message; otherwise the token error or `Unauthorized` |
| ChatHttp.EditRows | SafeZone-Server/routers/chat.py:129-130 | the edit changes the content and edit time of that message only |
| ChatHttp.DeleteRows | SafeZone-Server/routers/chat.py:157 | the delete removes exactly the messages with that id |
| ChatHttp.EditRowsValid | SafeZone-Server/routers/chat.py:129-130 | an edit keeps the tables consistent |
| ChatHttp.DeleteRowsValid | SafeZone-Server/routers/chat.py:157 | a delete keeps the tables consistent |
| ChatHttp.EditedFound | SafeZone-Server/routers/chat.py:129-130 | the edited message is found with its new content and edit time |
| ChatHttp.DeleteTwiceUnauthorized | SafeZone-Server/routers/chat.py:151-155 | a message deleted once cannot be edited or deleted again |
| ChatHttp.EditMessage | SafeZone-Server/routers/chat.py:106-135 | a failed check changes nothing; a null content fails the NOT NULL column; otherwise that message is edited |
| ChatHttp.DeleteMessage | SafeZone-Server/routers/chat.py:137-162 | a failed check changes nothing, and an invalid token gets a bare error; otherwise that message is deleted |
| Cleanup.DropOrphansValid | cleanup_servers.py:15 | deleting orphan memberships keeps the tables consistent |
| Cleanup.EmptyServers | cleanup_servers.py:20-21 | the empty servers are exactly the servers with no membership left |
| Cleanup.CascadeAllUsers | cleanup_servers.py:25-36 | the cascade never touches the users |
| Cleanup.CascadeAllServers | cleanup_servers.py:25-36 | after the cascade the servers are exactly those not listed |
| Cleanup.CascadeAllMembers | cleanup_servers.py:25-36 | after the cascade the memberships are exactly those of servers not listed |
| Cleanup.CleanedUpMembers | cleanup_servers.py:14-36 | the users stay, and the memberships left are exactly those whose user exists |
| Cleanup.CleanedUpSound | cleanup_servers.py:14-36 | afterwards every membership has a user and every server has a member, and every server that still had a member after the first step survives |
| Cleanup.CleanedUpServers | cleanup_servers.py:19-36 | a server row survives exactly when it still had a member after the orphan memberships were deleted |
| Cleanup.DropOrphanMembers | cleanup_servers.py:15 | the memberships of missing users are deleted, and nothing else changes |
| Cleanup.CascadeEach | cleanup_servers.py:26-36 | the cascades for the listed servers, one after another, leave the database as the composed cascade says |
| Cleanup.CleanupServers | cleanup_servers.py:7-50 | the script's writes: the orphan deletion, then the cascade over each empty server |
| Api.Scheme | SafeZone-Web/src/utils/api.js:21-29 | the scheme is `ws://` or `wss://` exactly for the WebSocket protocol, `http://` or `https://` otherwise, and the secure form exactly for an https page |
| Api.GetUrl | SafeZone-Web/src/utils/api.js:12-30 | an empty endpoint gives the empty string and only it does; an endpoint starting with `http` is returned unchanged; any other result starts with a scheme |
| Api.GetUrlShape | SafeZone-Web/src/utils/api.js:17-29 | a relative endpoint becomes the scheme, then the fixed server address, then the endpoint itself |
| Api.GetUrlIdempotent | SafeZone-Web/src/utils/api.js:14 | building an HTTP URL from an already built one changes nothing |
| Unread.MarkChannelUnread | SafeZone-Web/src/hooks/useUnread.js:7-13 | the channel joins the unread channels; DMs are untouched |
| Unread.MarkChannelRead | SafeZone-Web/src/hooks/useUnread.js:15-21 | exactly that channel leaves the unread channels; DMs are untouched |
| Unread.MarkDmUnread | SafeZone-Web/src/hooks/useUnread.js:23-29 | the user joins the unread DMs; channels are untouched |
| Unread.MarkDmRead | SafeZone-Web/src/hooks/useUnread.js:31-37 | exactly that user leaves the unread DMs; channels are untouched |
| Unread.MarksIdempotent | SafeZone-Web/src/hooks/useUnread.js:7-37 | each mark applied twice is applied once |
| Unread.ReadAfterUnread | SafeZone-Web/src/hooks/useUnread.js:7-21 | reading undoes a fresh unread mark, and the last of the two marks decides |
| Unread.ChannelAndDmCommute | SafeZone-Web/src/hooks/useUnread.js:7-37 | channel marks and DM marks commute, being on separate sets |
| UserModel.MaskedPhone | SafeZone/Models/User.swift:11-13 | the mask is up to three leading characters, three stars, then up to two trailing characters |
| UserModel.MaskHidesMiddle | SafeZone/Models/User.swift:12 | with five or more characters the first three and last two are kept, and exactly the middle is hidden |
| UserModel.ShortNumberShown | SafeZone/Models/User.swift:12 | a number shorter than five characters is shown in full around the stars, since prefix and suffix overlap |
| ToastBus.Added | SafeZone-Web/src/utils/toast.js:14 | `Set.add` adds the listener, keeps the listeners distinct and does nothing when it is already there |
| ToastBus.Removed | SafeZone-Web/src/utils/toast.js:14 | the unsubscribe function removes exactly that listener |
| ToastBus.RemovedDistinct | SafeZone-Web/src/utils/toast.js:14 | removal keeps the listeners distinct |
| ToastBus.SubscribeTwice | SafeZone-Web/src/utils/toast.js:14 | subscribing twice is subscribing once |
| ToastBus.UnsubscribeUndoes | SafeZone-Web/src/utils/toast.js:14 | unsubscribing a fresh listener restores the old set, order included |
| ToastBus.Bus.constructor | SafeZone-Web/src/utils/toast.js:4 | the bus starts with no listener and no call |
| ToastBus.Bus.Subscribe | SafeZone-Web/src/utils/toast.js:14 | the listener set becomes `Added` of the old one |
| ToastBus.Bus.Unsubscribe | SafeZone-Web/src/utils/toast.js:14 | the listener set becomes `Removed` of the old one |
| ToastBus.Bus.Emit | SafeZone-Web/src/utils/toast.js:7-9 | every listener is called once, in insertion order, with the message and the type, `info` by default |
| ToastBus.Bus.Success | SafeZone-Web/src/utils/toast.js:10 | every listener is called with type `success` |
| ToastBus.Bus.Error | SafeZone-Web/src/utils/toast.js:11 | every listener is called with type `error` |
| ToastBus.Bus.Warning | SafeZone-Web/src/utils/toast.js:12 | every listener is called with type `warning` |
| ToastBus.Bus.Info | SafeZone-Web/src/utils/toast.js:13 | every listener is called with type `info` |
| Toasts.MarkExiting | SafeZone-Web/src/hooks/useToast.js:22-24 | the toast with that id is marked exiting, and every toast keeps its place |
| Toasts.MarkExitingIncreasing | SafeZone-Web/src/hooks/useToast.js:22-24 | marking keeps the toasts in increasing id order |
| Toasts.Without | SafeZone-Web/src/hooks/useToast.js:10-13 | removal keeps exactly the toasts with other ids |
| Toasts.WithoutIncreasing | SafeZone-Web/src/hooks/useToast.js:10-13 | removal keeps the toasts in increasing id order |
| Toasts.ShowThenRemove | SafeZone-Web/src/hooks/useToast.js:15-30 | removing a toast just shown restores the old list |
| Toasts.ToastList.constructor | SafeZone-Web/src/hooks/useToast.js:4-8 | the list starts empty, with the module's id counter |
| Toasts.ToastList.ShowToast | SafeZone-Web/src/hooks/useToast.js:15-30 | the counter is incremented and returned, the new toast goes last, not exiting, with type `info` by default, its id above every shown one, and its exit timer is set for the duration, 3500 by default |
| Toasts.ToastList.Expire | SafeZone-Web/src/hooks/useToast.js:21-27 | the exit timer marks the toast exiting and sets its removal 300 ms later |
| Toasts.ToastList.RemoveToast | SafeZone-Web/src/hooks/useToast.js:10-13 | the toast with that id is removed |
| Themes.PaletteOf | SafeZone-Web/src/utils/themes.js:22-158 | the four palettes are defined, each with a dark and a light theme |
| Themes.ModeOf | SafeZone-Web/src/utils/themes.js:22-158 | a palette defines exactly the modes `dark` and `light` |
| Themes.GetTheme | SafeZone-Web/src/utils/themes.js:170-180 | the result is always one of the eight defined themes |
| Themes.GetThemeKnown | SafeZone-Web/src/utils/themes.js:179 | a known palette and mode give that palette's theme for that mode |
| Themes.GetThemeFallback | SafeZone-Web/src/utils/themes.js:170-178 | an unknown palette falls back to `midnight`, an unknown mode to `dark`, and missing arguments take those defaults |
| Themes.GetThemeOnto | SafeZone-Web/src/utils/themes.js:170-180 | every defined theme is reachable from some palette and mode |
| Themes.ThemeAt | SafeZone-Web/src/utils/themes.js:22-158 | the i-th theme of the table is reached from the i/2-th palette key, with dark for even i and light for odd i |
| Themes.PaletteAt | SafeZone-Web/src/utils/themes.js:22-158 | each palette key selects its own dark and light themes |
| Themes.Palettes | SafeZone-Web/src/utils/themes.js:186-188 | the palette keys are exactly the four defined palettes, `midnight` first |
| Themes.PaletteName | SafeZone-Web/src/utils/themes.js:190-197 | a known palette gets its display name, any other key is returned as is |
| Themes.PaletteNameAsWritten | SafeZone-Web/src/utils/themes.js:190-197 | as written, the lookup yields an inherited member instead of a name exactly for an unknown key every object inherits |
| Themes.InheritedKeyEscapesName | SafeZone-Web/src/utils/themes.js:195-197 | as written, `getPaletteName('toString')` yields the inherited function, while the corrected lookup returns the key |
| Themes.PaletteNameAgrees | SafeZone-Web/src/utils/themes.js:195-197 | for every key that is not an inherited property name, the as-written and corrected lookups agree |
| Themes.InheritedKeyEscapesFallback | SafeZone-Web/src/utils/themes.js:170-180 | as written, `getTheme('toString', 'dark')` returns undefined, while the corrected lookup falls back to the default theme |
| Themes.GetThemeAgrees | SafeZone-Web/src/utils/themes.js:170-180 | for every key that is not an inherited property name, the as-written lookup and the corrected one agree |
| Themes.GetThemeAsWritten | SafeZone-Web/src/utils/themes.js:170-180 | as written, the lookup yields undefined exactly for an unknown palette name that is a key every object inherits |
| MemberList.UsernameLeIsTotalPreorder | SafeZone-Web/src/components/MemberList.jsx:23-24 | the username comparison used by both sorts is total and transitive, so sorting by it is well defined |
| MemberList.SortByUsername | SafeZone-Web/src/components/MemberList.jsx:23-24 | the sorted group is a permutation of its input and ordered by username |
| MemberList.FilterSplit | SafeZone-Web/src/components/MemberList.jsx:11-18 | the online and the offline filters together keep every member exactly as often as it occurs |
| MemberList.GroupMembers | SafeZone-Web/src/components/MemberList.jsx:7-27 | the loop's online group is the members whose username is online, sorted; the offline group is the rest, sorted; together they are a permutation of the members |
| MemberList.GroupedSound | SafeZone-Web/src/components/MemberList.jsx:7-27 | the two sorted filters meet the grouping property: membership by online status in each group, a joint permutation of the members, both sorted |
| MemberList.CountsAddUp | SafeZone-Web/src/components/MemberList.jsx:75 | the online and offline headings' counts add up to the number of members |
| MemberList.StatusColor | SafeZone-Web/src/components/MemberList.jsx:29-37 | idle, dnd and invisible each have their own colour and every other or missing status shows green, each one in both directions |
| FriendsDashboard.StatusColor | SafeZone-Web/src/components/FriendsDashboard.jsx:6-14 | online, idle and dnd each map to their own colour, in both directions; every other status is grey |
| FriendsDashboard.StatusText | SafeZone-Web/src/components/FriendsDashboard.jsx:16-24 | online, idle and dnd have their own labels; every other status reads as offline, in both directions |
| FriendsDashboard.OnlineFriends | SafeZone-Web/src/components/FriendsDashboard.jsx:42-43 | a friend is listed as online exactly when their username is among the online ids and their status is not invisible; a missing friend list gives none |
| FriendsDashboard.DisplayedStatus | SafeZone-Web/src/components/FriendsDashboard.jsx:127 | a friend who is not online shows as invisible; an online friend who is not invisible never does |
| FriendsDashboard.Rows | SafeZone-Web/src/components/FriendsDashboard.jsx:120-129 | the online tab never renders an invisible row |
| FriendsDashboard.OnlineTabShowsAll | SafeZone-Web/src/components/FriendsDashboard.jsx:123-129 | the row filter on the online tab drops nobody: the rows are the online friends with their statuses, so the heading's count equals the rows shown |
| FriendsDashboard.AllTabShowsEveryone | SafeZone-Web/src/components/FriendsDashboard.jsx:120-129 | the all tab renders one row per friend, with each friend's displayed status |
| ChatArea.FirstMatchFrom | SafeZone-Web/src/components/ChatArea.jsx:35-36 | finds the leftmost occurrence of the separator at or after the start, or reports that none exists |
| ChatArea.LineSplitRoundTrip | SafeZone-Web/src/components/ChatArea.jsx:35-36 | a plain-text line with a separator is its sender, the separator and its text, joined back, and the sender holds no separator; a line without one is all sender with empty text |
| ChatArea.Run | SafeZone-Web/src/components/ChatArea.jsx:93 | the longest run of non-space characters from a position: none of them is a space and it stops at a space or at the end |
| ChatArea.UrlAtShape | SafeZone-Web/src/components/ChatArea.jsx:93 | a link found at some position starts with http:// or https://, is the text found there, holds no space and ends at a space or at the end |
| ChatArea.FirstUrlFrom | SafeZone-Web/src/components/ChatArea.jsx:93 | the leftmost link at or after a position, or none exactly when no position there starts one |
| ChatArea.FirstUrlShape | SafeZone-Web/src/components/ChatArea.jsx:93 | the message's first link has the scheme, no spaces, and occurs at a position before which no link starts |
| ChatArea.ObjectText | SafeZone-Web/src/components/ChatArea.jsx:36 | a direct message shows its content; a channel message shows its content when that is non-empty and its text otherwise |
| ChatArea.Preview | SafeZone-Web/src/components/ChatArea.jsx:92-98 | a link preview is shown exactly when the text holds a link and the message has no attachment |
| ChatArea.ViewOf | SafeZone-Web/src/components/ChatArea.jsx:34-37 | a message is rendered as one's own exactly when its sender is the current user |
| ChatArea.Render | SafeZone-Web/src/components/ChatArea.jsx:29-37 | with a direct conversation selected, one view per history entry, otherwise one view per channel message, in order |
| LobbyClient.OnlineIdsMembership | SafeZone-Web/src/hooks/useLobby.js:33-45 | every legacy name is online; every user object is online unless it is invisible and not the own id; nothing else is |
| LobbyClient.StatusesOfLast | SafeZone-Web/src/hooks/useLobby.js:36-44 | a user has a parsed status exactly when some kept entry names them, and the status is that of the last such entry |
| LobbyClient.ParseOnline | SafeZone-Web/src/hooks/useLobby.js:33-45 | the parsing loop builds exactly the online ids and the status map of the kept entries; a missing or empty list gives neither |
| LobbyClient.MergeStatuses | SafeZone-Web/src/hooks/useLobby.js:47 | the merged statuses hold the keys of both maps, the new status wins and an old one survives only where no new one exists |
| LobbyClient.Lobby.constructor | SafeZone-Web/src/hooks/useLobby.js:6-15 | the hook's initial state: no socket, nobody online, no statuses, no conversation |
| LobbyClient.Lobby.ConnectToLobby | SafeZone-Web/src/hooks/useLobby.js:18-23 | without a token or an id nothing happens; otherwise any previous socket is closed and a new one to the lobby of this id opens |
| LobbyClient.Lobby.Opened | SafeZone-Web/src/hooks/useLobby.js:23 | the socket's opening is recorded |
| LobbyClient.Lobby.OnLobbyUpdate | SafeZone-Web/src/hooks/useLobby.js:28-50 | a lobby update sets the total and the room details, replaces the online ids, merges the statuses and asks for a server refresh when a refresher is given |
| LobbyClient.Lobby.OnDmReceived | SafeZone-Web/src/hooks/useLobby.js:52-60 | a direct message is appended to the history only when its sender's conversation is open, and a sound plays either way |
| LobbyClient.Lobby.OnPong | SafeZone-Web/src/hooks/useLobby.js:61-62 | the ping is the time elapsed since the echoed timestamp |
| LobbyClient.Lobby.OnMessage | SafeZone-Web/src/hooks/useLobby.js:25-65 | each frame kind changes only its own part of the state; an unknown frame changes nothing |
| LobbyClient.Lobby.PingTick | SafeZone-Web/src/hooks/useLobby.js:72-76 | a ping with the current time is sent exactly when the socket is open |
| LobbyClient.Lobby.HandleStatusChange | SafeZone-Web/src/hooks/useLobby.js:84-88 | a status update is sent exactly when the socket is open |
| LobbyClient.Lobby.StartDm | SafeZone-Web/src/hooks/useLobby.js:105-108 | opening a conversation selects the friend and requests its history |
| LobbyClient.Lobby.DmHistoryArrived | SafeZone-Web/src/hooks/useLobby.js:98-101 | a successful reply replaces the history; any other leaves it |
| LobbyClient.Lobby.SendDm | SafeZone-Web/src/hooks/useLobby.js:110-129 | with a conversation open and non-blank content the message is appended at once and sent to the friend; otherwise nothing happens |
| ChatClient.Without | SafeZone-Web/src/hooks/useChat.js:161 | the list after a deletion holds exactly the messages whose id differs |
| ChatClient.Edited | SafeZone-Web/src/hooks/useChat.js:179 | the messages with the edited id get the new content and text and keep every other field; all others stay in place |
| ChatClient.EditThenDelete | SafeZone-Web/src/hooks/useChat.js:152-182 | deleting a message after editing it leaves the same list as deleting it unedited |
| ChatClient.EditIdempotent | SafeZone-Web/src/hooks/useChat.js:179 | applying the same edit twice is the same as applying it once |
| ChatClient.EditSource | SafeZone-Web/src/hooks/useChat.js:168 | the edit box starts with the content, else the text, else empty |
| ChatClient.ThrottledSpacing | SafeZone-Web/src/hooks/useChat.js:113-119 | the typing notices actually sent are each more than two seconds after the previous one |
| ChatClient.ThrottledSubset | SafeZone-Web/src/hooks/useChat.js:113-119 | a notice is only ever sent at a time when a key was pressed |
| ChatClient.Chat.constructor | SafeZone-Web/src/hooks/useChat.js:8-17 | the hook's initial state: no socket, no messages, nobody typing, no menu and no edit |
| ChatClient.Chat.ConnectToChannel | SafeZone-Web/src/hooks/useChat.js:20-31 | no channel or a voice channel changes nothing; otherwise any previous socket is closed and one opens at `/ws/room/` followed by the channel's uuid text and the client's uuid |
| ChatClient.Chat.ChatOpened | SafeZone-Web/src/hooks/useChat.js:25 | the socket's opening is recorded |
| ChatClient.Chat.OnChat | SafeZone-Web/src/hooks/useChat.js:34-46 | a chat frame is appended with its sender, text and attachment; a sound and an unread notice follow only for another user's message |
| ChatClient.Chat.OnTyping | SafeZone-Web/src/hooks/useChat.js:49-70 | the typist is shown as typing and their timeout restarts three seconds from now |
| ChatClient.Chat.HandleIncoming | SafeZone-Web/src/hooks/useChat.js:33-72 | chat appends, history replaces the messages, typing marks the typist; each frame leaves the other parts alone |
| ChatClient.Chat.TypingTimeoutsFire | SafeZone-Web/src/hooks/useChat.js:60-67 | once the timeouts due by now fire, exactly the users whose deadline lies ahead still show as typing |
| ChatClient.Chat.HandleTyping | SafeZone-Web/src/hooks/useChat.js:111-120 | the input always updates; more than two seconds after the last notice a notice goes to the chat socket, else the room socket, if either is open |
| ChatClient.Chat.SendChatMessage | SafeZone-Web/src/hooks/useChat.js:122-143 | with text or an attachment the message goes to the open chat socket, else the open room socket, and the input and attachment clear; with neither nothing happens |
| ChatClient.Chat.FetchChannelMessages | SafeZone-Web/src/hooks/useChat.js:74-77 | the history is requested only with a token |
| ChatClient.Chat.ChannelMessagesArrived | SafeZone-Web/src/hooks/useChat.js:78-81 | a successful reply replaces the messages; any other leaves them |
| ChatClient.Chat.HandleFileSelect | SafeZone-Web/src/hooks/useChat.js:86-96 | without a file nothing happens; with one the upload starts |
| ChatClient.Chat.UploadFinished | SafeZone-Web/src/hooks/useChat.js:97-108 | a successful upload becomes the attachment, a failed one shows its message; either way the upload ends |
| ChatClient.Chat.HandleMessageContextMenu | SafeZone-Web/src/hooks/useChat.js:146-150 | the menu opens only on one's own message or for a system administrator |
| ChatClient.Chat.HandleDeleteMessage | SafeZone-Web/src/hooks/useChat.js:152-164 | with a menu open the delete is requested, the message leaves the list and the menu closes; without one nothing is requested |
| ChatClient.Chat.StartEditing | SafeZone-Web/src/hooks/useChat.js:166-170 | editing starts on the menu's message with its content or text, and the menu closes |
| ChatClient.Chat.SubmitEdit | SafeZone-Web/src/hooks/useChat.js:172-182 | the edit is requested, applied to the local list and editing ends |
| ServerData.FirstText | SafeZone-Web/src/hooks/useServerData.js:67 | the first text channel of a server, or none exactly when it has no text channel |
| ServerData.FindServer | SafeZone-Web/src/hooks/useServerData.js:28 | the first server with the id, or none exactly when no server has it |
| ServerData.Refreshed | SafeZone-Web/src/hooks/useServerData.js:27-30 | no selection stays none; a selection found in the new list is replaced by its new copy; one not found stays as it was |
| ServerData.RefreshKeepsId | SafeZone-Web/src/hooks/useServerData.js:27-30 | a refresh never gains or loses a selection and never changes its id |
| ServerData.RefreshIdempotent | SafeZone-Web/src/hooks/useServerData.js:27-30 | refreshing twice with the same list is refreshing once |
| ServerData.LeaveChoice | SafeZone-Web/src/hooks/useServerData.js:124-127 | leaving goes to the delete endpoint exactly when the first listed server with that id is owned by the user, and to the leave endpoint otherwise |
| ServerData.ServerData.constructor | SafeZone-Web/src/hooks/useServerData.js:6-13 | the hook's initial state: no servers, friends, requests, members or selection |
| ServerData.ServerData.FetchFriends | SafeZone-Web/src/hooks/useServerData.js:47-50 | the friend list is requested only with a token |
| ServerData.ServerData.FetchServers | SafeZone-Web/src/hooks/useServerData.js:16-22 | with a token the friends and then the server list are requested; without one nothing |
| ServerData.ServerData.ServersArrived | SafeZone-Web/src/hooks/useServerData.js:23-31 | a successful reply replaces the servers and refreshes the selection from them; any other changes neither |
| ServerData.ServerData.MembersArrived | SafeZone-Web/src/hooks/useServerData.js:35-45 | a successful reply replaces the member list; any other leaves it |
| ServerData.ServerData.FriendsArrived | SafeZone-Web/src/hooks/useServerData.js:51-55 | a successful reply replaces the friends and the requests; any other leaves both |
| ServerData.ServerData.SelectServer | SafeZone-Web/src/hooks/useServerData.js:59-72 | selecting a server requests its members, remembers it and opens its first text channel; selecting none clears the channel and the memory |
| ServerData.ServerData.CreateServer | SafeZone-Web/src/hooks/useServerData.js:76-82 | the create request carries the token and the name |
| ServerData.ServerData.JoinServer | SafeZone-Web/src/hooks/useServerData.js:97-103 | the join request carries the token and the invite code |
| ServerData.ServerData.CreateChannel | SafeZone-Web/src/hooks/useServerData.js:146-157 | the create request carries the server, the channel name and the type |
| ServerData.ServerData.AddFriend | SafeZone-Web/src/hooks/useServerData.js:173-179 | the add request carries the friend's tag |
| ServerData.ServerData.ActionReplied | SafeZone-Web/src/hooks/useServerData.js:84-90 | an action succeeds exactly when the reply says success, and then refreshes the servers or the friends; a failure shows its message and requests nothing |
| ServerData.ServerData.LeaveServer | SafeZone-Web/src/hooks/useServerData.js:118-133 | without confirmation nothing is requested; with it the request goes to the endpoint the leave choice names |
| ServerData.ServerData.LeaveReplied | SafeZone-Web/src/hooks/useServerData.js:134-142 | success clears the selection and refreshes the servers; failure shows the message and keeps the selection |
| ServerData.ServerData.RemoveFriend | SafeZone-Web/src/hooks/useServerData.js:186-196 | without confirmation nothing happens; with it the removal is requested and the friends are fetched again whatever the reply |
| ServerData.ServerData.RespondFriendRequest | SafeZone-Web/src/hooks/useServerData.js:198-207 | the answer is sent and the friends are fetched again whatever the reply |
| ServerData.ServerData.AnswerFriendRequest | SafeZone-Web/src/hooks/useServerData.js:198-207 | the corrected answer names the sender by `sender_username`, then the friends are fetched again |
| ServerData.ServerData.BlockUser | SafeZone-Web/src/hooks/useServerData.js:209-213 | a confirmed block only shows a notice |
| RoleSettings.PositionGeIsTotalPreorder | SafeZone-Web/src/components/RoleSettings.jsx:25 | the descending position comparison is total and transitive |
| RoleSettings.SortByPosition | SafeZone-Web/src/components/RoleSettings.jsx:25 | the sorted roles are a permutation of the fetched ones, highest position first |
| RoleSettings.FindRole | SafeZone-Web/src/components/RoleSettings.jsx:29 | a role with the id from the list, or none exactly when the list has none |
| RoleSettings.RoleChoice | SafeZone-Web/src/components/RoleSettings.jsx:28-38 | a target is selected when found and otherwise nothing changes; without one the selection is refreshed when still present and cleared when gone; with neither the top role is selected, if any |
| RoleSettings.NoStaleSelection | SafeZone-Web/src/components/RoleSettings.jsx:31-35 | after a plain refresh the selection is never a role the server no longer lists |
| RoleSettings.Saved | SafeZone-Web/src/components/RoleSettings.jsx:89 | saving replaces the name, colour and permissions of the role with the id, keeping its position, and leaves every other role alone |
| RoleSettings.SavedKeepsOrder | SafeZone-Web/src/components/RoleSettings.jsx:89 | a save keeps a position-sorted list sorted |
| RoleSettings.RoleEditor.constructor | SafeZone-Web/src/components/RoleSettings.jsx:5-12 | the editor's initial state: no roles, no selection, the default colour |
| RoleSettings.RoleEditor.Mount | SafeZone-Web/src/components/RoleSettings.jsx:14-16 | the mount effect marks the editor as loading and requests the roles with no target |
| RoleSettings.RoleEditor.SelectRole | SafeZone-Web/src/components/RoleSettings.jsx:44-49 | selecting a role loads its name, colour and permissions into the editor |
| RoleSettings.RoleEditor.FetchRoles | SafeZone-Web/src/components/RoleSettings.jsx:18-21 | fetching marks the editor as loading and requests the roles |
| RoleSettings.RoleEditor.RolesArrived | SafeZone-Web/src/components/RoleSettings.jsx:22-41 | success stores the sorted roles and applies the role choice; either way loading ends |
| RoleSettings.RoleEditor.Apply | SafeZone-Web/src/components/RoleSettings.jsx:28-38 | a choice to select loads the role's fields; a refresh swaps the selection and keeps the edits; a deselect clears it |
| RoleSettings.RoleEditor.CreateRole | SafeZone-Web/src/components/RoleSettings.jsx:51-62 | the new role is named "yeni rol" with colour #99AAB5 and no permissions |
| RoleSettings.RoleEditor.CreateReplied | SafeZone-Web/src/components/RoleSettings.jsx:63-68 | success fetches the roles aiming at the created role; failure shows the message |
| RoleSettings.RoleEditor.SaveRole | SafeZone-Web/src/components/RoleSettings.jsx:72-85 | without a selection nothing is sent; with one the edits go out with the role's own position |
| RoleSettings.RoleEditor.SaveReplied | SafeZone-Web/src/components/RoleSettings.jsx:86-91 | success saves the edits locally and confirms; failure shows the message and keeps the roles |
| RoleSettings.RoleEditor.DeleteRole | SafeZone-Web/src/components/RoleSettings.jsx:95-100 | nothing is sent without a selection or a confirmation |
| RoleSettings.RoleEditor.DeleteReplied | SafeZone-Web/src/components/RoleSettings.jsx:101-105 | success clears the selection and fetches again; failure shows the message |
| ServerSettings.ServerRoleChoice | SafeZone-Web/src/components/ServerSettings.jsx:36-41 | a found target is selected; without a target the top role is selected only when nothing is selected yet; otherwise nothing changes |
| ServerSettings.ChoicesAgree | SafeZone-Web/src/components/ServerSettings.jsx:36-41 | this screen and the role editor choose alike except when a selection exists without a target, where only the editor refreshes or clears it |
| ServerSettings.SavedNameColor | SafeZone-Web/src/components/ServerSettings.jsx:76 | saving replaces only the name and colour of the role with the id; the permissions and every other role stay |
| ServerSettings.SavedNameColorIsSaved | SafeZone-Web/src/components/ServerSettings.jsx:76 | where the saved permissions equal those the role had, this save and the editor's save agree |
| ServerSettings.SettingsScreen.constructor | SafeZone-Web/src/components/ServerSettings.jsx:5-14 | the screen opens on the overview with no roles and no selection |
| ServerSettings.SettingsScreen.SaveOverview | SafeZone-Web/src/components/ServerSettings.jsx:23-26 | saving the overview only shows a notice |
| ServerSettings.SettingsScreen.FetchRoles | SafeZone-Web/src/components/ServerSettings.jsx:29-31 | the roles of this server are requested |
| ServerSettings.SettingsScreen.SetActiveTab | SafeZone-Web/src/components/ServerSettings.jsx:16-20 | the roles are fetched exactly when the roles tab is newly opened |
| ServerSettings.SettingsScreen.SelectRole | SafeZone-Web/src/components/ServerSettings.jsx:46-51 | selecting a role loads its name, colour and permissions |
| ServerSettings.SettingsScreen.RolesArrived | SafeZone-Web/src/components/ServerSettings.jsx:32-42 | success stores the sorted roles and applies this screen's choice; anything else changes nothing |
| ServerSettings.SettingsScreen.CreateRole | SafeZone-Web/src/components/ServerSettings.jsx:53-59 | the same new role as the role editor creates |
| ServerSettings.SettingsScreen.CreateReplied | SafeZone-Web/src/components/ServerSettings.jsx:60-62 | success fetches aiming at the created role; failure shows the message |
| ServerSettings.SettingsScreen.SaveRole | SafeZone-Web/src/components/ServerSettings.jsx:66-73 | without a selection nothing is sent; with one the edits go out with the role's own position |
| ServerSettings.SettingsScreen.SaveReplied | SafeZone-Web/src/components/ServerSettings.jsx:74-78 | success saves name and colour locally and confirms; failure shows the message |
| ServerSettings.SettingsScreen.DeleteRole | SafeZone-Web/src/components/ServerSettings.jsx:82-85 | nothing is sent without a selection or a confirmation |
| ServerSettings.SettingsScreen.DeleteFinished | SafeZone-Web/src/components/ServerSettings.jsx:86-87 | whatever the reply, the selection clears and the roles are fetched again |

## Left out

- Transport and concurrency: each WebSocket handler step and each request handler runs as one atomic method; interleavings of the asynchronous code and of the event loop are not modelled.
- Hashing, randomness and time: bcrypt hashing and checking, `secrets.token_hex`, `random.randint`, `uuid.uuid4` and the clock are parameters, so their distributions and costs are outside the model.
- File contents: the writes of uploaded files in `chat_upload` and `upload_avatar` are not modelled; only the names, URLs and rows they lead to are.
- `link_preview` (SafeZone-Server/routers/chat.py:164-198) fetches a remote page and parses HTML; it is network I/O and is not modelled.
- `list_user_servers` (SafeZone-Server/routers/server.py:50-81) and `get_server_roles` (SafeZone-Server/routers/server.py:189-199) are read-only listings joining several tables; they are not modelled beyond the shared lookups in `Store`.
- The administrator's `get_users` and `get_servers` listings (SafeZone-Server/routers/admin.py:36-60) and `list_friends` (SafeZone-Server/routers/friends.py:281-284) are read-only listings and are not modelled.
- The admin router imports `get_user_by_token` from the server's utils module (SafeZone-Server/routers/admin.py:4), which defines only `log_event`, so as written the router fails to load; the model gives the guard `Store.UserByToken`, the first user row with that token.
- Columns the routers use but the schema in SafeZone-Server/database.py does not create: `users.is_sysadmin` and `users.email` (users, lines 14-51), `servers.deleted_at` (servers, lines 54-60; its `created_at` does exist, line 59), `messages.edited_at` (messages, lines 92-102; only `channel_messages` gains an `edited_at`, line 160) and `members.joined_at` (members, lines 72-79). The model reads them as present, with the meaning the routers expect. As written, each statement that names one of them raises "no such column"; the consequences are the lines below and the owner's leave under "## Findings".
- `Friends.GetDmHistory`: as written, once the caller and the partner are found, the history query names `messages.edited_at` (SafeZone-Server/routers/friends.py:354, 365), so every such call answers with the database's error; the model returns the rows the query describes.
- `Friends.EditDm`: as written, once the sender check passes, the update sets `messages.edited_at` (SafeZone-Server/routers/friends.py:415), so every such call answers with the database's error and edits nothing; the model performs the edit.
- `Admin.GuardOutcomes`: as written no user row has `is_sysadmin`, so the guard (SafeZone-Server/routers/admin.py:16) would refuse every caller with 403; the model lets a user flagged as administrator pass.
- `Admin.GetStats`: as written the active-server count filters on `servers.deleted_at` (SafeZone-Server/routers/admin.py:27) and fails; `Admin.ToggleServer` reads and writes the same column (SafeZone-Server/routers/admin.py:94-106). The model reads the column as present.
- The login and reset endpoints read a `username` field, while the request models name it `email`; the model follows the field the routers read.
- Row order: SQL without `ORDER BY` is taken to return rows in insertion order, and `ORDER BY timestamp` is taken to agree with id order.
- The admin router is never mounted in the application's entry point; it is modelled as if it were.
- A UNIQUE username clash fails at the INSERT and is modelled as the error reply that insert gives.
- `broadcast_room_update` sends and collects dead connections in one loop; the model does this in two passes (`SendEach`, then `CollectDead`), which give the same result because the sends do not depend on what was collected. `broadcast_lobby_update` is the same operation and is not modelled separately.
- `Common.LowerAscii`: lower-cases ASCII letters only, not the full Unicode mapping of Python's `str.lower`.
- `Sorting.StrLeIsTotalPreorder`: string comparison is code-unit order; `localeCompare` and SQLite collations are not modelled.
- In-place JavaScript sorts (`Array.prototype.sort` on fetched data) are modelled on sequences, so aliasing of the sorted array is not captured.
- `Common.IsSpace` models JavaScript's WhiteSpace and LineTerminator sets, which `trim()` (through `Common.IsBlank`) and the regex class `\s` of the link pattern (through `ChatArea.Run` and `ChatArea.FirstUrlFrom`) share; JavaScript's code units are taken to be characters, which every member of the set is.
- Swift and JavaScript strings are taken as sequences of characters; grapheme clusters and UTF-16 surrogate pairs are not modelled.
- The cleanup script's console output, `log_event` output and `console.error` logging are left out.
- Toast listeners are identities, not functions; that the toast hook's subscription feeds `showToast` is not linked in the model.
- Failed requests: network failures and the `catch` branches of the client hooks are not modelled beyond leaving the state as it was.
- React closures that read stale state are not modelled; each handler reads the current fields.
- `Themes.GetThemeAsWritten`: modelled for the modes `dark` and `light` only.
- `Themes.InheritedKeys`: the keys every object inherits are the names of the members of `Object.prototype`, listed once; `getTheme` and `getPaletteName` find those members for such keys, modelled as written in `Themes.GetThemeAsWritten` and `Themes.PaletteNameAsWritten` and listed under "## Findings".
- JSON values of another type than a field expects (a string `limit`, a number as `text`) are not modelled; a key is missing, `null`, or holds a value of the expected type (`Common.Field`).
- A message whose text is missing would make `text.match` throw in the message pane; the model treats a missing text as having no link.
- A frame that is not valid JSON makes `JSON.parse` in `useChat` throw, uncaught; the model takes incoming frames as already parsed.
- `ChatClient.Chat.StartEditing`: requires an open context menu, because the source would throw without one.
- The lobby hook keeps an invisible user only when their username equals the client's own uuid; this comparison is modelled as written.
- Voice rooms over WebRTC, the `useWebRTC` hook, screen sharing and audio are not modelled.

## Findings

| source | as written | input that shows it | evidently intended | confidence | as-written member | corrected member |
|---|---|---|---|---|---|---|
| SafeZone-Server/routers/server.py:269 | when the owner leaves, the successor query orders by `joined_at`, a column the members table does not have, so the query raises and the leave fails | the owner of any server that has another member calls leave | ownership passes to the first other member and the owner's membership is removed | not executed | Servers.OwnerCannotLeaveAsWritten | Servers.LeaveServer |
| SafeZone-Web/src/utils/themes.js:170-180 | `themes[palette]` also finds keys that every object inherits, so the fallback test passes and the mode lookup returns `undefined` | `getTheme('toString', 'dark')` | an unknown palette name falls back to the midnight palette | not executed | Themes.InheritedKeyEscapesFallback | Themes.GetTheme |
| SafeZone-Web/src/utils/themes.js:195-197 | `THEME_PALETTES[palette]` also finds the members every object inherits, and as they are truthy a function is returned in place of the key | `getPaletteName('toString')` | a key that is not a palette is its own name | not executed | Themes.InheritedKeyEscapesName | Themes.PaletteName |
| SafeZone-Web/src/hooks/useServerData.js:198-207 | the answer to a friend request sends only `request_id`, the made-up "req_" + name, while the endpoint finds the sender only by `sender_username` (SafeZone-Server/routers/friends.py:126-165), so every answer from a signed-in user is refused with `Sender not found` (`ServerData.ServerData.RespondFriendRequest` sends it) | accepting any incoming request | the answer names the sender, which the caller already holds at SafeZone-Web/src/App.jsx:351-356, and the request is accepted or rejected | not executed | Friends.RespondNeedsSenderName | ServerData.ServerData.AnswerFriendRequest |
