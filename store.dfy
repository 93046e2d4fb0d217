/**
 * The SQLite database of the SafeZone backend (the schema of SafeZone-Server/database.py),
 * modelled as tables of rows in row-id order, with the primary-key and UNIQUE constraints
 * as an invariant, plus the lookups and deletions that the routers share.
 */
module Store {
  import opened Common

  // ---------------------------------------------------------------------------
  // Rows.
  // ---------------------------------------------------------------------------

  datatype User = User(
    id: int, username: string, passwordHash: string, displayName: string,
    token: Option<string>, recoveryPin: Option<string>, discriminator: Option<string>,
    avatarColor: Option<string>, avatarUrl: Option<string>, status: Option<string>,
    isSysadmin: bool)

  datatype Server = Server(id: string, name: string, ownerId: int, inviteCode: string, deletedAt: Option<string>)

  datatype Channel = Channel(id: string, serverId: string, name: string, kind: string)

  datatype Membership = Membership(serverId: string, userId: int, role: string)

  datatype DirectMessage = DirectMessage(
    id: int, senderId: int, receiverId: int, content: string, timestamp: string, editedAt: Option<string>)

  datatype Role = Role(id: int, serverId: string, name: string, color: string, position: int, permissions: int)

  datatype UserRole = UserRole(userId: int, roleId: int, serverId: string)

  datatype FriendRequest = FriendRequest(senderId: int, receiverId: int)

  datatype ChannelMessage = ChannelMessage(
    id: int, channelId: string, senderId: int, content: string, timestamp: string,
    attachmentUrl: Option<string>, attachmentType: Option<string>, attachmentName: Option<string>,
    editedAt: Option<string>)

  /** The whole database. `next*` are the AUTOINCREMENT counters of the integer-keyed tables. */
  datatype Tables = Tables(
    users: seq<User>,
    servers: seq<Server>,
    channels: seq<Channel>,
    members: seq<Membership>,
    friends: set<(int, int)>,
    messages: seq<DirectMessage>,
    roles: seq<Role>,
    userRoles: seq<UserRole>,
    friendRequests: seq<FriendRequest>,
    channelMessages: seq<ChannelMessage>,
    nextUserId: int,
    nextMessageId: int,
    nextRoleId: int,
    nextChannelMessageId: int)

  /** The JSON body of a router's reply: `{"status": "success", ...}` or `{"status": "error", "message"?: ...}`. */
  datatype Reply<T> = Success(body: T) | Failure(message: Option<string>)

  function Fail<T>(message: string): Reply<T> { Failure(Some(message)) }

  /** Reply texts that several routers share. */
  const InvalidToken := "Invalid token"
  const Unauthorized := "Unauthorized"

  // ---------------------------------------------------------------------------
  // Key constraints.
  // ---------------------------------------------------------------------------

  /** `users.id` is the primary key and `users.username` is UNIQUE. */
  predicate DistinctUsers(a: User, b: User) { a.id != b.id && a.username != b.username }
  /** `servers.id` is the primary key and `servers.invite_code` is UNIQUE. */
  predicate DistinctServers(a: Server, b: Server) { a.id != b.id && a.inviteCode != b.inviteCode }
  predicate DistinctChannels(a: Channel, b: Channel) { a.id != b.id }
  predicate DistinctMemberships(a: Membership, b: Membership) { (a.serverId, a.userId) != (b.serverId, b.userId) }
  predicate DistinctMessages(a: DirectMessage, b: DirectMessage) { a.id != b.id }
  predicate DistinctRoles(a: Role, b: Role) { a.id != b.id }
  predicate DistinctUserRoles(a: UserRole, b: UserRole) { a != b }
  predicate DistinctRequests(a: FriendRequest, b: FriendRequest) { a != b }
  predicate DistinctChannelMessages(a: ChannelMessage, b: ChannelMessage) { a.id != b.id }

  /** Keys pairwise distinct and, for an AUTOINCREMENT key, below the next value. */
  ghost predicate UsersOk(users: seq<User>, next: int) {
    Pairwise(users, DistinctUsers) && forall i :: 0 <= i < |users| ==> users[i].id < next
  }
  ghost predicate MessagesOk(messages: seq<DirectMessage>, next: int) {
    Pairwise(messages, DistinctMessages) && forall i :: 0 <= i < |messages| ==> messages[i].id < next
  }
  ghost predicate RolesOk(roles: seq<Role>, next: int) {
    Pairwise(roles, DistinctRoles) && forall i :: 0 <= i < |roles| ==> roles[i].id < next
  }
  ghost predicate ChannelMessagesOk(cms: seq<ChannelMessage>, next: int) {
    Pairwise(cms, DistinctChannelMessages) && forall i :: 0 <= i < |cms| ==> cms[i].id < next
  }

  ghost predicate ValidTables(t: Tables) {
    && UsersOk(t.users, t.nextUserId)
    && Pairwise(t.servers, DistinctServers)
    && Pairwise(t.channels, DistinctChannels)
    && Pairwise(t.members, DistinctMemberships)
    && MessagesOk(t.messages, t.nextMessageId)
    && RolesOk(t.roles, t.nextRoleId)
    && Pairwise(t.userRoles, DistinctUserRoles)
    && Pairwise(t.friendRequests, DistinctRequests)
    && ChannelMessagesOk(t.channelMessages, t.nextChannelMessageId)
  }

  /** AUTOINCREMENT starts at 1. */
  function EmptyTables(): (t: Tables)
    ensures ValidTables(t)
  {
    Tables([], [], [], [], {}, [], [], [], [], [], 1, 1, 1, 1)
  }

  /** Two rows of a users table with the same name, or the same id, are the same row. */
  lemma UserNameUnique(users: seq<User>, i: nat, j: nat)
    requires Pairwise(users, DistinctUsers) && i < |users| && j < |users|
    requires users[i].username == users[j].username || users[i].id == users[j].id
    ensures i == j
  {
  }

  /** Two rows of a servers table with the same id are the same row. */
  lemma ServerIdUnique(servers: seq<Server>, i: nat, j: nat)
    requires Pairwise(servers, DistinctServers) && i < |servers| && j < |servers| && servers[i].id == servers[j].id
    ensures i == j
  {
  }

  /** With distinct ids, looking up the id of a row finds that row. */
  lemma ServerByIdAt(servers: seq<Server>, k: nat)
    requires Pairwise(servers, DistinctServers) && k < |servers|
    ensures ServerById(servers, servers[k].id) == Some(servers[k])
  {
    var f := ServerById(servers, servers[k].id);
    assert f.Some?;
    var j :| 0 <= j < |servers| && servers[j] == f.value;
    ServerIdUnique(servers, j, k);
  }

  /** Two rows of a channel_messages table with the same id are the same row. */
  lemma ChannelMessageIdUnique(cms: seq<ChannelMessage>, i: nat, j: nat)
    requires Pairwise(cms, DistinctChannelMessages) && i < |cms| && j < |cms| && cms[i].id == cms[j].id
    ensures i == j
  {
  }

  /** Two rows of a roles table with the same id are the same row. */
  lemma RoleIdUnique(roles: seq<Role>, i: nat, j: nat)
    requires Pairwise(roles, DistinctRoles) && i < |roles| && j < |roles| && roles[i].id == roles[j].id
    ensures i == j
  {
  }

  // ---------------------------------------------------------------------------
  // Lookups: `SELECT ... WHERE ...` followed by `fetchone()`, i.e. the first row in row-id order.
  // ---------------------------------------------------------------------------

  /** `WHERE token = ?`: a NULL token (a missing JSON field) matches no row. */
  function UserByToken(users: seq<User>, token: Option<string>): (r: Option<User>)
    ensures r.Some? ==> token.Some? && r.value in users && r.value.token == token
    ensures r.None? ==> forall i :: 0 <= i < |users| ==> users[i].token != token || token.None?
  {
    if token.None? then None else FindFirst(users, (u: User) => u.token == token)
  }

  function UserByName(users: seq<User>, name: string): (r: Option<User>)
    ensures r.Some? ==> r.value in users && r.value.username == name
    ensures r.None? <==> forall i :: 0 <= i < |users| ==> users[i].username != name
  {
    FindFirst(users, (u: User) => u.username == name)
  }

  function UserById(users: seq<User>, id: int): (r: Option<User>)
    ensures r.Some? ==> r.value in users && r.value.id == id
    ensures r.None? <==> forall i :: 0 <= i < |users| ==> users[i].id != id
  {
    FindFirst(users, (u: User) => u.id == id)
  }

  function ServerById(servers: seq<Server>, id: string): (r: Option<Server>)
    ensures r.Some? ==> r.value in servers && r.value.id == id
    ensures r.None? <==> forall i :: 0 <= i < |servers| ==> servers[i].id != id
  {
    FindFirst(servers, (s: Server) => s.id == id)
  }

  function ChannelById(channels: seq<Channel>, id: string): (r: Option<Channel>)
    ensures r.Some? ==> r.value in channels && r.value.id == id
    ensures r.None? <==> forall i :: 0 <= i < |channels| ==> channels[i].id != id
  {
    FindFirst(channels, (c: Channel) => c.id == id)
  }

  predicate IsMember(members: seq<Membership>, serverId: string, userId: int) {
    exists i :: 0 <= i < |members| && members[i].serverId == serverId && members[i].userId == userId
  }

  // ---------------------------------------------------------------------------
  // Row updates: `UPDATE ... WHERE id = ?` on every matching row.
  // ---------------------------------------------------------------------------

  /** Replaces every user whose id is `id` by `f` of it; every other row is kept in place. */
  function UpdateUser(users: seq<User>, id: int, f: User -> User): (r: seq<User>)
    ensures |r| == |users|
    ensures forall i :: 0 <= i < |users| ==> r[i] == if users[i].id == id then f(users[i]) else users[i]
  {
    MapSeq(users, (u: User) => if u.id == id then f(u) else u)
  }

  /** An update that keeps every user's id and name keeps the users table's keys. */
  lemma UpdateUserValid(t: Tables, id: int, f: User -> User)
    requires ValidTables(t)
    requires forall u :: f(u).id == u.id && f(u).username == u.username
    ensures ValidTables(t.(users := UpdateUser(t.users, id, f)))
  {
    var r := UpdateUser(t.users, id, f);
    forall i, j | 0 <= i < j < |r| ensures DistinctUsers(r[i], r[j]) {
      assert DistinctUsers(t.users[i], t.users[j]);
    }
  }

  // ---------------------------------------------------------------------------
  // The server cascade (SafeZone-Server/routers/server.py, cleanup_servers.py).
  // ---------------------------------------------------------------------------

  /** `SELECT id FROM channels WHERE server_id = ?` as a set. */
  function ChannelIdsOf(channels: seq<Channel>, serverId: string): (r: set<string>)
    ensures forall id :: id in r <==> exists i :: 0 <= i < |channels| && channels[i].id == id && channels[i].serverId == serverId
  {
    set i | 0 <= i < |channels| && channels[i].serverId == serverId :: channels[i].id
  }

  function DeleteChannelMessagesIn(cms: seq<ChannelMessage>, channelIds: set<string>): (r: seq<ChannelMessage>)
    ensures forall m :: m in r <==> m in cms && m.channelId !in channelIds
  {
    Filter(cms, (m: ChannelMessage) => m.channelId !in channelIds)
  }

  function DeleteChannelsOf(channels: seq<Channel>, serverId: string): (r: seq<Channel>)
    ensures forall c :: c in r <==> c in channels && c.serverId != serverId
  {
    Filter(channels, (c: Channel) => c.serverId != serverId)
  }

  function DeleteUserRolesOf(urs: seq<UserRole>, serverId: string): (r: seq<UserRole>)
    ensures forall u :: u in r <==> u in urs && u.serverId != serverId
  {
    Filter(urs, (u: UserRole) => u.serverId != serverId)
  }

  function DeleteRolesOf(roles: seq<Role>, serverId: string): (r: seq<Role>)
    ensures forall x :: x in r <==> x in roles && x.serverId != serverId
  {
    Filter(roles, (x: Role) => x.serverId != serverId)
  }

  function DeleteMembersOf(members: seq<Membership>, serverId: string): (r: seq<Membership>)
    ensures forall m :: m in r <==> m in members && m.serverId != serverId
  {
    Filter(members, (m: Membership) => m.serverId != serverId)
  }

  /** `DELETE FROM members WHERE server_id = ? AND user_id = ?`. */
  function DeleteMembership(members: seq<Membership>, serverId: string, userId: int): (r: seq<Membership>)
    ensures forall m :: m in r <==> m in members && !(m.serverId == serverId && m.userId == userId)
    ensures !IsMember(r, serverId, userId)
  {
    Filter(members, (m: Membership) => !(m.serverId == serverId && m.userId == userId))
  }

  function DeleteServerRow(servers: seq<Server>, serverId: string): (r: seq<Server>)
    ensures forall s :: s in r <==> s in servers && s.id != serverId
  {
    Filter(servers, (s: Server) => s.id != serverId)
  }

  /**
   * The six DELETE statements that remove a server, in the source's order: its channels'
   * messages (found through the channels still present), its channels, role assignments,
   * roles, memberships and the server row.
   */
  function Cascade(t: Tables, serverId: string): Tables
  {
    t.(channelMessages := DeleteChannelMessagesIn(t.channelMessages, ChannelIdsOf(t.channels, serverId)),
       channels := DeleteChannelsOf(t.channels, serverId),
       userRoles := DeleteUserRolesOf(t.userRoles, serverId),
       roles := DeleteRolesOf(t.roles, serverId),
       members := DeleteMembersOf(t.members, serverId),
       servers := DeleteServerRow(t.servers, serverId))
  }

  /** What the cascade removes and what it keeps. */
  lemma CascadeContents(t: Tables, serverId: string)
    ensures Cascade(t, serverId).users == t.users && Cascade(t, serverId).friends == t.friends && Cascade(t, serverId).messages == t.messages && Cascade(t, serverId).friendRequests == t.friendRequests
    ensures Cascade(t, serverId).nextUserId == t.nextUserId && Cascade(t, serverId).nextMessageId == t.nextMessageId
    ensures Cascade(t, serverId).nextRoleId == t.nextRoleId && Cascade(t, serverId).nextChannelMessageId == t.nextChannelMessageId
    ensures forall s :: s in Cascade(t, serverId).servers <==> s in t.servers && s.id != serverId
    ensures forall c :: c in Cascade(t, serverId).channels <==> c in t.channels && c.serverId != serverId
    ensures forall m :: m in Cascade(t, serverId).members <==> m in t.members && m.serverId != serverId
    ensures forall x :: x in Cascade(t, serverId).roles <==> x in t.roles && x.serverId != serverId
    ensures forall u :: u in Cascade(t, serverId).userRoles <==> u in t.userRoles && u.serverId != serverId
    ensures forall m :: m in Cascade(t, serverId).channelMessages <==> m in t.channelMessages && m.channelId !in ChannelIdsOf(t.channels, serverId)
  {
  }

  /** Deleting rows keeps every key constraint. */
  lemma CascadeValid(t: Tables, serverId: string)
    requires ValidTables(t)
    ensures ValidTables(Cascade(t, serverId))
  {
    FilterPairwise(t.channelMessages, (m: ChannelMessage) => m.channelId !in ChannelIdsOf(t.channels, serverId), DistinctChannelMessages);
    FilterPairwise(t.channels, (c: Channel) => c.serverId != serverId, DistinctChannels);
    FilterPairwise(t.userRoles, (u: UserRole) => u.serverId != serverId, DistinctUserRoles);
    FilterPairwise(t.roles, (x: Role) => x.serverId != serverId, DistinctRoles);
    FilterPairwise(t.members, (m: Membership) => m.serverId != serverId, DistinctMemberships);
    FilterPairwise(t.servers, (s: Server) => s.id != serverId, DistinctServers);
    var r := Cascade(t, serverId);
    forall i | 0 <= i < |r.roles| ensures r.roles[i].id < r.nextRoleId {
      assert r.roles[i] in t.roles;
    }
    forall i | 0 <= i < |r.channelMessages| ensures r.channelMessages[i].id < r.nextChannelMessageId {
      assert r.channelMessages[i] in t.channelMessages;
    }
  }

  /** After the cascade no row refers to the server, and it is idempotent. */
  lemma {:induction false} CascadeRemovesServer(t: Tables, serverId: string)
    ensures var r := Cascade(t, serverId);
      && ServerById(r.servers, serverId).None?
      && ChannelIdsOf(r.channels, serverId) == {}
      && (forall i :: 0 <= i < |r.members| ==> r.members[i].serverId != serverId)
      && Cascade(r, serverId) == r
  {
    var r := Cascade(t, serverId);
    assert forall i :: 0 <= i < |r.servers| ==> r.servers[i] in r.servers;
    assert forall i :: 0 <= i < |r.channels| ==> r.channels[i] in r.channels;
    assert forall i :: 0 <= i < |r.members| ==> r.members[i] in r.members;
    FilterAll(r.channelMessages, (m: ChannelMessage) => m.channelId !in ChannelIdsOf(r.channels, serverId));
    FilterAll(r.channels, (c: Channel) => c.serverId != serverId);
    FilterAll(r.userRoles, (u: UserRole) => u.serverId != serverId);
    FilterAll(r.roles, (x: Role) => x.serverId != serverId);
    FilterAll(r.members, (m: Membership) => m.serverId != serverId);
    FilterAll(r.servers, (s: Server) => s.id != serverId);
  }

  // ---------------------------------------------------------------------------
  // The database object the routers share.
  // ---------------------------------------------------------------------------

  class Db {
    var users: seq<User>
    var servers: seq<Server>
    var channels: seq<Channel>
    var members: seq<Membership>
    var friends: set<(int, int)>
    var messages: seq<DirectMessage>
    var roles: seq<Role>
    var userRoles: seq<UserRole>
    var friendRequests: seq<FriendRequest>
    var channelMessages: seq<ChannelMessage>
    var nextUserId: int
    var nextMessageId: int
    var nextRoleId: int
    var nextChannelMessageId: int

    function State(): Tables
      reads this
    {
      Tables(users, servers, channels, members, friends, messages, roles, userRoles,
             friendRequests, channelMessages, nextUserId, nextMessageId, nextRoleId, nextChannelMessageId)
    }

    ghost predicate Valid()
      reads this
    {
      ValidTables(State())
    }

    /** `init_db` on a fresh file: every table empty. */
    constructor ()
      ensures State() == EmptyTables() && Valid()
    {
      users, servers, channels, members, friends := [], [], [], [], {};
      messages, roles, userRoles, friendRequests, channelMessages := [], [], [], [], [];
      nextUserId, nextMessageId, nextRoleId, nextChannelMessageId := 1, 1, 1, 1;
    }
  }

  /** Applies the cascade to the stored tables. */
  method DeleteServerCascade(db: Db, serverId: string)
    requires db.Valid()
    modifies db`channelMessages, db`channels, db`userRoles, db`roles, db`members, db`servers
    ensures db.State() == Cascade(old(db.State()), serverId)
    ensures db.Valid()
  {
    ghost var t := db.State();
    CascadeValid(t, serverId);
    var r := Cascade(db.State(), serverId);
    db.channelMessages := r.channelMessages;
    db.channels := r.channels;
    db.userRoles := r.userRoles;
    db.roles := r.roles;
    db.members := r.members;
    db.servers := r.servers;
    assert db.State() == r;
  }
}
