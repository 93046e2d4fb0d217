/**
 * The server endpoints (SafeZone-Server/routers/server.py): creating and joining a server,
 * the member list with each member's highest role, creating a role, leaving a server (with
 * the hand-over of ownership) and deleting one.
 */
module Servers {
  import opened Common
  import opened Sorting
  import opened Store

  // Reply messages and seed rows, verbatim.
  const BadInvite := "Davet kodu ge\U{E7}ersiz!"
  const AlreadyMember := "Zaten bu sunucudas\U{131}n."
  const NotAllowed := "Yetkisiz i\U{15F}lem"
  const ServerDeleted := "Server deleted (no other members)."
  const DefaultTextChannel := "Genel Sohbet"
  const DefaultVoiceChannel := "Ses Odas\U{131}"
  const DefaultRoleColor := "#99AAB5"
  /** The texts of the exceptions SQLite raises when an INSERT of `create_server` repeats a key. */
  const DuplicateServerId := "UNIQUE constraint failed: servers.id"
  const DuplicateInviteCode := "UNIQUE constraint failed: servers.invite_code"
  const DuplicateChannelId := "UNIQUE constraint failed: channels.id"
  const DuplicateMember := "UNIQUE constraint failed: members.server_id, members.user_id"

  // ---------------------------------------------------------------------------
  // Invite codes.
  // ---------------------------------------------------------------------------

  const HexDigits := "0123456789ABCDEF"

  function HexByte(b: int): (r: string)
    requires 0 <= b < 256
  {
    [HexDigits[b / 16], HexDigits[b % 16]]
  }

  /** `secrets.token_hex(3).upper()`: three random bytes as six upper-case hex digits. */
  function InviteCode(bytes: seq<int>): (code: string)
    requires |bytes| == 3 && forall i :: 0 <= i < 3 ==> 0 <= bytes[i] < 256
    ensures |code| == 6 && forall i :: 0 <= i < 6 ==> code[i] in HexDigits
  {
    HexByte(bytes[0]) + HexByte(bytes[1]) + HexByte(bytes[2])
  }

  /** The value of an upper-case hex digit. */
  function HexValue(c: char): (v: int)
    ensures c in HexDigits ==> 0 <= v < 16 && HexDigits[v] == c
  {
    if '0' <= c <= '9' then c as int - '0' as int
    else if 'A' <= c <= 'F' then c as int - 'A' as int + 10
    else 0
  }

  lemma HexDigitValue(d: int)
    requires 0 <= d < 16
    ensures HexValue(HexDigits[d]) == d
  {
    assert HexDigits[d] in HexDigits;
    var v := HexValue(HexDigits[d]);
    assert HexDigits[v] == HexDigits[d];
    assert forall i, j :: 0 <= i < j < 16 ==> HexDigits[i] < HexDigits[j];
  }

  /** Each pair of digits of an invite code reads back as the byte it came from. */
  lemma InviteCodeDecodes(bytes: seq<int>)
    requires |bytes| == 3 && forall i :: 0 <= i < 3 ==> 0 <= bytes[i] < 256
    ensures var code := InviteCode(bytes);
      forall k :: 0 <= k < 3 ==> 16 * HexValue(code[2 * k]) + HexValue(code[2 * k + 1]) == bytes[k]
  {
    var code := InviteCode(bytes);
    forall k | 0 <= k < 3 ensures 16 * HexValue(code[2 * k]) + HexValue(code[2 * k + 1]) == bytes[k] {
      assert code[2 * k] == HexDigits[bytes[k] / 16] && code[2 * k + 1] == HexDigits[bytes[k] % 16];
      HexDigitValue(bytes[k] / 16);
      HexDigitValue(bytes[k] % 16);
    }
  }

  /** `SELECT id FROM servers WHERE invite_code = ?`. */
  function ServerByInvite(servers: seq<Server>, code: string): (r: Option<Server>)
    ensures r.Some? ==> r.value in servers && r.value.inviteCode == code
    ensures r.None? <==> forall i :: 0 <= i < |servers| ==> servers[i].inviteCode != code
  {
    FindFirst(servers, (s: Server) => s.inviteCode == code)
  }

  // ---------------------------------------------------------------------------
  // create_server
  // ---------------------------------------------------------------------------

  /**
   * The reply of `create_server` before it writes: the caller by token, or the error
   * SQLite raises when one of its four INSERTs repeats a key (the transaction is then not committed).
   */
  function CreateServerCheck(t: Tables, token: string, serverId: string, code: string, textId: string, voiceId: string)
    : Reply<User>
  {
    match UserByToken(t.users, Some(token))
    case None => Fail(InvalidToken)
    case Some(user) =>
      if ServerById(t.servers, serverId).Some? then Fail(DuplicateServerId)
      else if ServerByInvite(t.servers, code).Some? then Fail(DuplicateInviteCode)
      else if textId == voiceId || ChannelById(t.channels, textId).Some? || ChannelById(t.channels, voiceId).Some? then
        Fail(DuplicateChannelId)
      else if IsMember(t.members, serverId, user.id) then Fail(DuplicateMember)
      else Success(user)
  }

  /** The four INSERTs: the server, its text and voice channel, and the creator as 'owner'. */
  function CreateServerWrite(t: Tables, owner: int, name: string, serverId: string, code: string, textId: string, voiceId: string)
    : Tables
  {
    t.(servers := t.servers + [Server(serverId, name, owner, code, None)],
       channels := t.channels + [Channel(textId, serverId, DefaultTextChannel, "text"), Channel(voiceId, serverId, DefaultVoiceChannel, "voice")],
       members := t.members + [Membership(serverId, owner, "owner")])
  }

  lemma CreateServerValid(t: Tables, token: string, name: string, serverId: string, code: string, textId: string, voiceId: string)
    requires ValidTables(t) && CreateServerCheck(t, token, serverId, code, textId, voiceId).Success?
    ensures ValidTables(CreateServerWrite(t, CreateServerCheck(t, token, serverId, code, textId, voiceId).body.id, name, serverId, code, textId, voiceId))
  {
    var owner := CreateServerCheck(t, token, serverId, code, textId, voiceId).body.id;
    AppendPairwise(t.servers, Server(serverId, name, owner, code, None), DistinctServers);
    var text, voice := Channel(textId, serverId, DefaultTextChannel, "text"), Channel(voiceId, serverId, DefaultVoiceChannel, "voice");
    AppendPairwise(t.channels, text, DistinctChannels);
    AppendPairwise(t.channels + [text], voice, DistinctChannels);
    assert t.channels + [text, voice] == (t.channels + [text]) + [voice];
    AppendPairwise(t.members, Membership(serverId, owner, "owner"), DistinctMemberships);
  }

  /** After `create_server` the new server is found under its id, owned by the creator. */
  lemma CreatedServerIsOwned(t: Tables, token: string, name: string, serverId: string, code: string, textId: string, voiceId: string)
    requires CreateServerCheck(t, token, serverId, code, textId, voiceId).Success?
    ensures var owner := CreateServerCheck(t, token, serverId, code, textId, voiceId).body;
      var r := CreateServerWrite(t, owner.id, name, serverId, code, textId, voiceId);
      ServerById(r.servers, serverId) == Some(Server(serverId, name, owner.id, code, None))
  {
    var owner := CreateServerCheck(t, token, serverId, code, textId, voiceId).body;
    var servers := t.servers + [Server(serverId, name, owner.id, code, None)];
    assert servers[|t.servers|].id == serverId;
    var found := ServerById(servers, serverId).value;
    var k :| 0 <= k < |servers| && servers[k] == found;
    assert k == |t.servers|;
  }

  /** The server's channels are what it had (none, for a fresh id) plus the two defaults. */
  lemma CreatedServerChannels(t: Tables, owner: int, name: string, serverId: string, code: string, textId: string, voiceId: string)
    ensures var r := CreateServerWrite(t, owner, name, serverId, code, textId, voiceId);
      ChannelIdsOf(r.channels, serverId) == ChannelIdsOf(t.channels, serverId) + {textId, voiceId}
  {
    var channels := CreateServerWrite(t, owner, name, serverId, code, textId, voiceId).channels;
    assert forall i :: 0 <= i < |t.channels| ==> channels[i] == t.channels[i];
    assert channels[|t.channels|].id == textId && channels[|t.channels| + 1].id == voiceId;
  }

  /** The creator is already a member, so joining with the new invite code is refused. */
  lemma CreatorCannotJoin(t: Tables, token: string, name: string, serverId: string, code: string, textId: string, voiceId: string)
    requires CreateServerCheck(t, token, serverId, code, textId, voiceId).Success?
    ensures var owner := CreateServerCheck(t, token, serverId, code, textId, voiceId).body;
      JoinCheck(CreateServerWrite(t, owner.id, name, serverId, code, textId, voiceId), token, code) == Fail(AlreadyMember)
  {
    var owner := UserByToken(t.users, Some(token)).value;
    assert CreateServerCheck(t, token, serverId, code, textId, voiceId) == Success(owner);
    var r := CreateServerWrite(t, owner.id, name, serverId, code, textId, voiceId);
    InviteOfAppended(t.servers, Server(serverId, name, owner.id, code, None));
    assert r.members[|t.members|] == Membership(serverId, owner.id, "owner");
    assert IsMember(r.members, serverId, owner.id);
  }

  /** A new server under an unused invite code is the one that code finds. */
  lemma InviteOfAppended(servers: seq<Server>, s: Server)
    requires ServerByInvite(servers, s.inviteCode).None?
    ensures ServerByInvite(servers + [s], s.inviteCode) == Some(s)
  {
    var all := servers + [s];
    assert all[|servers|] == s;
    assert forall i :: 0 <= i < |servers| ==> all[i] == servers[i];
    var found := ServerByInvite(all, s.inviteCode).value;
    var j :| 0 <= j < |all| && all[j] == found;
  }

  /** `create_server`: one server, its two default channels and the owner's membership; nothing else changes. */
  method CreateServer(db: Db, token: string, name: string, serverId: string, randomBytes: seq<int>, textId: string, voiceId: string)
    returns (r: Reply<(string, string)>)
    requires db.Valid()
    requires |randomBytes| == 3 && forall i :: 0 <= i < 3 ==> 0 <= randomBytes[i] < 256
    modifies db`servers, db`channels, db`members
    ensures db.Valid()
    ensures var code := InviteCode(randomBytes);
      match CreateServerCheck(old(db.State()), token, serverId, code, textId, voiceId)
      case Failure(m) => r == Failure(m) && db.State() == old(db.State())
      case Success(owner) =>
        && r == Success((serverId, code))
        && db.State() == CreateServerWrite(old(db.State()), owner.id, name, serverId, code, textId, voiceId)
  {
    var code := InviteCode(randomBytes);
    var check := CreateServerCheck(db.State(), token, serverId, code, textId, voiceId);
    match check
    case Failure(m) =>
      r := Failure(m);
    case Success(owner) =>
      CreateServerValid(db.State(), token, name, serverId, code, textId, voiceId);
      InsertServer(db, owner.id, name, serverId, code, textId, voiceId);
      r := Success((serverId, code));
  }

  /** The four INSERTs of `create_server`, once they are known to keep every key. */
  method InsertServer(db: Db, owner: int, name: string, serverId: string, code: string, textId: string, voiceId: string)
    requires ValidTables(CreateServerWrite(db.State(), owner, name, serverId, code, textId, voiceId))
    modifies db`servers, db`channels, db`members
    ensures db.Valid()
    ensures db.State() == CreateServerWrite(old(db.State()), owner, name, serverId, code, textId, voiceId)
  {
    ghost var t := db.State();
    db.servers := db.servers + [Server(serverId, name, owner, code, None)];
    db.channels := db.channels + [Channel(textId, serverId, DefaultTextChannel, "text"), Channel(voiceId, serverId, DefaultVoiceChannel, "voice")];
    db.members := db.members + [Membership(serverId, owner, "owner")];
    assert db.State() == CreateServerWrite(t, owner, name, serverId, code, textId, voiceId);
  }

  // ---------------------------------------------------------------------------
  // join_server
  // ---------------------------------------------------------------------------

  /** The checks of `join_server`, in order: the caller, the server the code names, and no membership yet. */
  function JoinCheck(t: Tables, token: string, code: string): Reply<(User, Server)> {
    match UserByToken(t.users, Some(token))
    case None => Fail(InvalidToken)
    case Some(user) =>
      match ServerByInvite(t.servers, code)
      case None => Fail(BadInvite)
      case Some(server) =>
        if IsMember(t.members, server.id, user.id) then Fail(AlreadyMember) else Success((user, server))
  }

  /** `INSERT INTO members (server_id, user_id, role)`. */
  function AddMember(t: Tables, serverId: string, userId: int, role: string): Tables {
    t.(members := t.members + [Membership(serverId, userId, role)])
  }

  /** A membership that is not there yet keeps the primary key of `members`. */
  lemma AddMemberValid(t: Tables, serverId: string, userId: int, role: string)
    requires ValidTables(t) && !IsMember(t.members, serverId, userId)
    ensures ValidTables(AddMember(t, serverId, userId, role))
    ensures IsMember(AddMember(t, serverId, userId, role).members, serverId, userId)
  {
    AppendPairwise(t.members, Membership(serverId, userId, role), DistinctMemberships);
    assert AddMember(t, serverId, userId, role).members[|t.members|] == Membership(serverId, userId, role);
  }

  /** After a join the caller is a member, so the same join again is refused. */
  lemma JoinTwice(t: Tables, token: string, code: string)
    requires JoinCheck(t, token, code).Success?
    ensures var (user, server) := JoinCheck(t, token, code).body;
      var r := AddMember(t, server.id, user.id, "member");
      IsMember(r.members, server.id, user.id) && JoinCheck(r, token, code) == Fail(AlreadyMember)
  {
    var (user, server) := JoinCheck(t, token, code).body;
    var r := AddMember(t, server.id, user.id, "member");
    assert r.members[|t.members|] == Membership(server.id, user.id, "member");
  }

  /** `join_server`: exactly one 'member' row is added when every check passes. */
  method JoinServer(db: Db, token: string, code: string) returns (r: Reply<(string, string)>)
    requires db.Valid()
    modifies db`members
    ensures db.Valid()
    ensures match JoinCheck(old(db.State()), token, code)
      case Failure(m) => r == Failure(m) && db.members == old(db.members)
      case Success((user, server)) =>
        r == Success((server.id, "Joined")) && db.State() == AddMember(old(db.State()), server.id, user.id, "member")
  {
    var check := JoinCheck(db.State(), token, code);
    match check
    case Failure(m) =>
      r := Failure(m);
    case Success((user, server)) =>
      ghost var t := db.State();
      AddMemberValid(t, server.id, user.id, "member");
      db.members := db.members + [Membership(server.id, user.id, "member")];
      assert db.State() == AddMember(t, server.id, user.id, "member");
      r := Success((server.id, "Joined"));
  }

  // ---------------------------------------------------------------------------
  // get_server_members
  // ---------------------------------------------------------------------------

  /** A row of the members-users JOIN; `legacyRole` is `members.role`. */
  datatype MemberRow = MemberRow(
    userId: int, username: string, displayName: string, discriminator: Option<string>,
    avatarUrl: Option<string>, avatarColor: Option<string>, status: Option<string>, legacyRole: string)

  /** The `highest_role` object of a member. */
  datatype RoleBadge = RoleBadge(name: string, color: string, position: int)

  /** A member row enriched with `roles` (role ids, highest first) and `highest_role`. */
  datatype MemberInfo = MemberInfo(row: MemberRow, roles: seq<int>, highestRole: RoleBadge)

  function JoinRow(m: Membership, u: User): MemberRow {
    MemberRow(m.userId, u.username, u.displayName, u.discriminator, u.avatarUrl, u.avatarColor, u.status, m.role)
  }

  /** `members m JOIN users u ON m.user_id = u.id WHERE m.server_id = ?`, in membership order. */
  function MemberRows(members: seq<Membership>, users: seq<User>, serverId: string): (r: seq<MemberRow>)
    ensures |r| <= |members|
    ensures forall i :: 0 <= i < |r| ==> IsMember(members, serverId, r[i].userId)
  {
    if members == [] then []
    else
      var rest := MemberRows(members[1..], users, serverId);
      assert forall i :: 0 <= i < |rest| ==> IsMember(members, serverId, rest[i].userId) by {
        forall i | 0 <= i < |rest| ensures IsMember(members, serverId, rest[i].userId) {
          var k :| 0 <= k < |members[1..]| && members[1..][k].serverId == serverId && members[1..][k].userId == rest[i].userId;
          assert members[k + 1] == members[1..][k];
        }
      }
      var m := members[0];
      if m.serverId != serverId then rest
      else match UserById(users, m.userId)
        case None => rest
        case Some(u) => [JoinRow(m, u)] + rest
  }

  /** The role ids assigned to `uid` among `assignments`, in their order. */
  function RoleIdsOf(assignments: seq<UserRole>, uid: int): (r: seq<int>)
    ensures forall rid :: rid in r <==> exists k :: 0 <= k < |assignments| && assignments[k].userId == uid && assignments[k].roleId == rid
  {
    if assignments == [] then []
    else
      var init := assignments[..|assignments| - 1];
      var last := assignments[|assignments| - 1];
      var r := RoleIdsOf(init, uid) + (if last.userId == uid then [last.roleId] else []);
      assert forall k :: 0 <= k < |init| ==> init[k] == assignments[k];
      r
  }

  function MapGet(m: map<int, seq<int>>, k: int): seq<int> {
    if k in m then m[k] else []
  }

  /** The loop that fills `user_role_map`; `.get(uid, [])` of it is every user's role ids in order. */
  method GroupRoleIds(assignments: seq<UserRole>) returns (m: map<int, seq<int>>)
    ensures forall uid :: MapGet(m, uid) == RoleIdsOf(assignments, uid)
  {
    m := map[];
    var i := 0;
    while i < |assignments|
      invariant 0 <= i <= |assignments|
      invariant forall uid :: MapGet(m, uid) == RoleIdsOf(assignments[..i], uid)
    {
      var a := assignments[i];
      assert assignments[..i + 1][..i] == assignments[..i];
      if a.userId !in m {
        m := m[a.userId := []];
      }
      m := m[a.userId := m[a.userId] + [a.roleId]];
      i := i + 1;
    }
    assert assignments[..i] == assignments;
  }

  /** `SELECT * FROM roles WHERE server_id = ?`. */
  function ServerRoles(roles: seq<Role>, serverId: string): (r: seq<Role>)
    ensures forall x :: x in r <==> x in roles && x.serverId == serverId
  {
    Filter(roles, (x: Role) => x.serverId == serverId)
  }

  function RoleWithId(roles: seq<Role>, id: int): (r: Option<Role>)
    ensures r.Some? ==> r.value in roles && r.value.id == id
    ensures r.None? <==> forall i :: 0 <= i < |roles| ==> roles[i].id != id
  {
    FindFirst(roles, (x: Role) => x.id == id)
  }

  /** `[server_roles[rid] for rid in role_ids if rid in server_roles]`. */
  function MyRoles(serverRoles: seq<Role>, ids: seq<int>): (r: seq<Role>)
    ensures forall x :: x in r ==> x in serverRoles && x.id in ids
  {
    if ids == [] then []
    else match RoleWithId(serverRoles, ids[0])
      case None => MyRoles(serverRoles, ids[1..])
      case Some(x) => [x] + MyRoles(serverRoles, ids[1..])
  }

  /** Every role of the server whose id is assigned is among them (the ids of `roles` are distinct). */
  lemma {:induction false} MyRolesComplete(serverRoles: seq<Role>, ids: seq<int>, x: Role)
    requires Pairwise(serverRoles, DistinctRoles)
    requires x in serverRoles && x.id in ids
    ensures x in MyRoles(serverRoles, ids)
  {
    if ids[0] == x.id {
      var y := RoleWithId(serverRoles, x.id).value;
      var i :| 0 <= i < |serverRoles| && serverRoles[i] == x;
      var j :| 0 <= j < |serverRoles| && serverRoles[j] == y;
      RoleIdUnique(serverRoles, i, j);
    } else {
      MyRolesComplete(serverRoles, ids[1..], x);
    }
  }

  predicate PositionGe(a: Role, b: Role) { a.position >= b.position }

  lemma PositionGeIsTotalPreorder()
    ensures TotalPreorder(PositionGe)
  {
  }

  /** `my_roles.sort(key=position, reverse=True)`. */
  function ByPositionDesc(rs: seq<Role>): (r: seq<Role>)
    ensures multiset(r) == multiset(rs)
    ensures forall i, j :: 0 <= i < j < |r| ==> r[i].position >= r[j].position
  {
    PositionGeIsTotalPreorder();
    SortBy(rs, PositionGe)
  }

  function RoleId(x: Role): int { x.id }

  /** `highest_role`: the first role after the sort, or the legacy fallback. */
  function Badge(sorted: seq<Role>, legacyRole: string): RoleBadge {
    if sorted == [] then RoleBadge(if legacyRole == "owner" then "Owner" else "Member", DefaultRoleColor, 0)
    else RoleBadge(sorted[0].name, sorted[0].color, sorted[0].position)
  }

  function Enrich(row: MemberRow, ids: seq<int>, serverRoles: seq<Role>): MemberInfo {
    var sorted := ByPositionDesc(MyRoles(serverRoles, ids));
    MemberInfo(row, MapSeq(sorted, RoleId), Badge(sorted, row.legacyRole))
  }

  function InServer(serverId: string): UserRole -> bool {
    (a: UserRole) => a.serverId == serverId
  }

  function EnrichWith(assignments: seq<UserRole>, serverRoles: seq<Role>): MemberRow -> MemberInfo {
    (row: MemberRow) => Enrich(row, RoleIdsOf(assignments, row.userId), serverRoles)
  }

  /** The reply body of `get_server_members`. */
  function ServerMembers(t: Tables, serverId: string): seq<MemberInfo> {
    MapSeq(MemberRows(t.members, t.users, serverId), EnrichWith(Filter(t.userRoles, InServer(serverId)), ServerRoles(t.roles, serverId)))
  }

  /** The enrichment loop of `get_server_members`, reading role ids from `user_role_map`. */
  method EnrichAll(rows: seq<MemberRow>, roleMap: map<int, seq<int>>, assignments: seq<UserRole>, serverRoles: seq<Role>)
    returns (out: seq<MemberInfo>)
    requires forall uid :: MapGet(roleMap, uid) == RoleIdsOf(assignments, uid)
    ensures out == MapSeq(rows, EnrichWith(assignments, serverRoles))
  {
    out := [];
    var i := 0;
    while i < |rows|
      invariant 0 <= i <= |rows|
      invariant |out| == i
      invariant forall k :: 0 <= k < i ==> out[k] == EnrichWith(assignments, serverRoles)(rows[k])
    {
      out := out + [Enrich(rows[i], MapGet(roleMap, rows[i].userId), serverRoles)];
      i := i + 1;
    }
  }

  /**
   * A member's `highest_role` is one of the member's roles in this server with the greatest
   * position, and `roles` lists exactly those roles; with none it is the legacy fallback.
   */
  lemma HighestRoleIsGreatest(row: MemberRow, ids: seq<int>, serverRoles: seq<Role>)
    requires Pairwise(serverRoles, DistinctRoles)
    ensures var info := Enrich(row, ids, serverRoles);
      var mine := set x | x in serverRoles && x.id in ids;
      && (forall rid :: rid in info.roles <==> exists x :: x in mine && x.id == rid)
      && (mine == {} ==> info.highestRole == RoleBadge(if row.legacyRole == "owner" then "Owner" else "Member", DefaultRoleColor, 0))
      && (mine != {} ==>
            && (exists x :: x in mine && info.highestRole == RoleBadge(x.name, x.color, x.position))
            && forall x :: x in mine ==> x.position <= info.highestRole.position)
  {
    var info := Enrich(row, ids, serverRoles);
    var mine := set x | x in serverRoles && x.id in ids;
    var my := MyRoles(serverRoles, ids);
    var sorted := ByPositionDesc(my);
    forall x | x in mine ensures x in my { MyRolesComplete(serverRoles, ids, x); }
    MultisetMembership(sorted, my);
    RoleIdsListed(sorted, mine);
    BadgeIsTop(sorted, mine, row.legacyRole);
  }

  /** The badge of a list sorted by descending position is its first role, which no listed role outranks. */
  lemma BadgeIsTop(sorted: seq<Role>, mine: set<Role>, legacyRole: string)
    requires forall x :: x in sorted <==> x in mine
    requires forall i, j :: 0 <= i < j < |sorted| ==> sorted[i].position >= sorted[j].position
    ensures mine == {} ==> Badge(sorted, legacyRole) == RoleBadge(if legacyRole == "owner" then "Owner" else "Member", DefaultRoleColor, 0)
    ensures mine != {} ==>
      && (exists x :: x in mine && Badge(sorted, legacyRole) == RoleBadge(x.name, x.color, x.position))
      && forall x :: x in mine ==> x.position <= Badge(sorted, legacyRole).position
  {
    if sorted != [] {
      assert sorted[0] in mine;
      forall x | x in mine ensures x.position <= sorted[0].position {
        var k :| 0 <= k < |sorted| && sorted[k] == x;
      }
    }
  }

  lemma RoleIdsListed(sorted: seq<Role>, mine: set<Role>)
    requires forall x :: x in sorted <==> x in mine
    ensures forall rid :: rid in MapSeq(sorted, RoleId) <==> exists x :: x in mine && x.id == rid
  {
    var ids := MapSeq(sorted, RoleId);
    forall rid ensures rid in ids <==> exists x :: x in mine && x.id == rid {
      if rid in ids {
        var k :| 0 <= k < |ids| && ids[k] == rid;
        assert sorted[k] in mine;
      }
      if x :| x in mine && x.id == rid {
        var k :| 0 <= k < |sorted| && sorted[k] == x;
        assert ids[k] == rid;
      }
    }
  }

  /** `get_server_members`: any valid token may list any server's members. */
  method GetServerMembers(db: Db, serverId: string, token: string) returns (r: Reply<seq<MemberInfo>>)
    ensures UserByToken(db.users, Some(token)).None? ==> r == Fail(InvalidToken)
    ensures UserByToken(db.users, Some(token)).Some? ==> r == Success(ServerMembers(db.State(), serverId))
  {
    if UserByToken(db.users, Some(token)).None? {
      return Fail(InvalidToken);
    }
    var rows := MemberRows(db.members, db.users, serverId);
    var serverRoles := ServerRoles(db.roles, serverId);
    var assignments := Filter(db.userRoles, InServer(serverId));
    var roleMap := GroupRoleIds(assignments);
    var out := EnrichAll(rows, roleMap, assignments, serverRoles);
    r := Success(out);
  }

  // ---------------------------------------------------------------------------
  // create_role
  // ---------------------------------------------------------------------------

  /** `SELECT MAX(position) FROM roles WHERE server_id = ?`: NULL when the server has no role. */
  function MaxPosition(roles: seq<Role>, serverId: string): (r: Option<int>)
    ensures r.None? <==> forall i :: 0 <= i < |roles| ==> roles[i].serverId != serverId
    ensures r.Some? ==> exists i :: 0 <= i < |roles| && roles[i].serverId == serverId && roles[i].position == r.value
    ensures r.Some? ==> forall i :: 0 <= i < |roles| && roles[i].serverId == serverId ==> roles[i].position <= r.value
  {
    if roles == [] then None
    else
      var rest := MaxPosition(roles[1..], serverId);
      assert forall i :: 1 <= i < |roles| ==> roles[i] == roles[1..][i - 1];
      if roles[0].serverId != serverId then rest
      else if rest.Some? && rest.value > roles[0].position then rest
      else Some(roles[0].position)
  }

  /** `(row['max_pos'] or 0) + 1`: a NULL maximum and a maximum of 0 both give 1. */
  function NextPosition(roles: seq<Role>, serverId: string): int {
    MaxPosition(roles, serverId).GetOr(0) + 1
  }

  /** The checks of `create_role`: the caller, and the caller owns the server. */
  function CreateRoleCheck(t: Tables, token: string, serverId: string): Reply<User> {
    match UserByToken(t.users, Some(token))
    case None => Fail(InvalidToken)
    case Some(user) =>
      match ServerById(t.servers, serverId)
      case None => Fail(Unauthorized)
      case Some(server) => if server.ownerId != user.id then Fail(Unauthorized) else Success(user)
  }

  /** The role `create_role` inserts: the next AUTOINCREMENT id, one above the highest position. */
  function NewRole(t: Tables, serverId: string, name: string, color: string, permissions: int): Role {
    Role(t.nextRoleId, serverId, name, color, NextPosition(t.roles, serverId), permissions)
  }

  function AddRole(t: Tables, role: Role): Tables {
    t.(roles := t.roles + [role], nextRoleId := t.nextRoleId + 1)
  }

  lemma AddRoleValid(t: Tables, serverId: string, name: string, color: string, permissions: int)
    requires ValidTables(t)
    ensures ValidTables(AddRole(t, NewRole(t, serverId, name, color, permissions)))
  {
    AppendPairwise(t.roles, NewRole(t, serverId, name, color, permissions), DistinctRoles);
  }

  /** The new role is above every role the server had, and is then its highest. */
  lemma NewRoleOnTop(t: Tables, serverId: string, name: string, color: string, permissions: int)
    ensures var role := NewRole(t, serverId, name, color, permissions);
      && (forall x :: x in t.roles && x.serverId == serverId ==> x.position < role.position)
      && ((forall x :: x in t.roles ==> x.serverId != serverId) ==> role.position == 1)
      && MaxPosition(AddRole(t, role).roles, serverId) == Some(role.position)
  {
    var role := NewRole(t, serverId, name, color, permissions);
    var roles := AddRole(t, role).roles;
    assert roles[|t.roles|] == role;
    assert forall j :: 0 <= j < |t.roles| ==> roles[j] == t.roles[j];
    var m := MaxPosition(roles, serverId);
    var i :| 0 <= i < |roles| && roles[i].serverId == serverId && roles[i].position == m.value;
  }

  /** `create_role` (owner only): one role row under the next id; nothing else changes. */
  method CreateRole(db: Db, serverId: string, token: string, name: string, color: string, permissions: int)
    returns (r: Reply<Role>)
    requires db.Valid()
    modifies db`roles, db`nextRoleId
    ensures db.Valid()
    ensures match CreateRoleCheck(old(db.State()), token, serverId)
      case Failure(m) => r == Failure(m) && db.State() == old(db.State())
      case Success(_) =>
        var role := NewRole(old(db.State()), serverId, name, color, permissions);
        r == Success(role) && db.State() == AddRole(old(db.State()), role)
  {
    var check := CreateRoleCheck(db.State(), token, serverId);
    if check.Failure? {
      return Failure(check.message);
    }
    ghost var t := db.State();
    AddRoleValid(t, serverId, name, color, permissions);
    var role := NewRole(db.State(), serverId, name, color, permissions);
    db.roles, db.nextRoleId := db.roles + [role], db.nextRoleId + 1;
    assert db.State() == AddRole(t, role);
    r := Success(role);
  }

  // ---------------------------------------------------------------------------
  // leave_server and delete_server
  // ---------------------------------------------------------------------------

  function OtherMemberOf(serverId: string, me: int): Membership -> bool {
    (m: Membership) => m.serverId == serverId && m.userId != me
  }

  /** The first other member of the server, in join (row) order. */
  function NextOwner(members: seq<Membership>, serverId: string, me: int): (r: Option<Membership>)
    ensures r.Some? ==> r.value in members && r.value.serverId == serverId && r.value.userId != me
    ensures r.None? <==> forall i :: 0 <= i < |members| ==> !(members[i].serverId == serverId && members[i].userId != me)
  {
    FindFirst(members, OtherMemberOf(serverId, me))
  }

  /** What `leave_server` does for a caller: hand the server over, delete it, or only leave. */
  datatype LeavePlan = HandOver(newOwner: int) | DeleteServerRows | LeaveOnly

  /** `SELECT owner_id FROM servers WHERE id = ?` for a `server_id` that may be missing (NULL matches nothing). */
  function ServerOf(t: Tables, serverId: Option<string>): (r: Option<Server>)
    ensures r.Some? ==> serverId.Some? && r.value.id == serverId.value && r.value in t.servers
  {
    if serverId.None? then None else ServerById(t.servers, serverId.value)
  }

  function PlanLeave(t: Tables, me: int, serverId: Option<string>): LeavePlan {
    match ServerOf(t, serverId)
    case None => LeaveOnly
    case Some(server) =>
      if server.ownerId != me then LeaveOnly
      else match NextOwner(t.members, server.id, me)
        case Some(m) => HandOver(m.userId)
        case None => DeleteServerRows
  }

  /** `UPDATE servers SET owner_id = ? WHERE id = ?`. */
  function SetOwner(servers: seq<Server>, serverId: string, owner: int): (r: seq<Server>)
    ensures |r| == |servers|
    ensures forall i :: 0 <= i < |r| ==> r[i] == if servers[i].id == serverId then servers[i].(ownerId := owner) else servers[i]
  {
    MapSeq(servers, (s: Server) => if s.id == serverId then s.(ownerId := owner) else s)
  }

  /** `UPDATE members SET role = ? WHERE server_id = ? AND user_id = ?`. */
  function SetRole(members: seq<Membership>, serverId: string, userId: int, role: string): (r: seq<Membership>)
    ensures |r| == |members|
    ensures forall i :: 0 <= i < |r| ==>
      r[i] == if members[i].serverId == serverId && members[i].userId == userId then members[i].(role := role) else members[i]
  {
    MapSeq(members, (m: Membership) => if m.serverId == serverId && m.userId == userId then m.(role := role) else m)
  }

  /** The caller's own membership row goes; with a missing `server_id` the DELETE matches nothing. */
  function DropMembership(members: seq<Membership>, serverId: Option<string>, me: int): seq<Membership> {
    if serverId.None? then members else DeleteMembership(members, serverId.value, me)
  }

  /** The writes of `leave_server` once the caller is known. */
  function Leave(t: Tables, me: int, serverId: Option<string>): Tables {
    match PlanLeave(t, me, serverId)
    case DeleteServerRows => Cascade(t, serverId.value)
    case HandOver(n) =>
      t.(servers := SetOwner(t.servers, serverId.value, n),
         members := DeleteMembership(SetRole(t.members, serverId.value, n, "owner"), serverId.value, me))
    case LeaveOnly => t.(members := DropMembership(t.members, serverId, me))
  }

  lemma HandOverValid(t: Tables, id: string, n: int, me: int)
    requires ValidTables(t)
    ensures ValidTables(t.(servers := SetOwner(t.servers, id, n), members := DeleteMembership(SetRole(t.members, id, n, "owner"), id, me)))
  {
    var servers := SetOwner(t.servers, id, n);
    forall i, j | 0 <= i < j < |servers| ensures DistinctServers(servers[i], servers[j]) {
      assert DistinctServers(t.servers[i], t.servers[j]);
    }
    var members := SetRole(t.members, id, n, "owner");
    forall i, j | 0 <= i < j < |members| ensures DistinctMemberships(members[i], members[j]) {
      assert DistinctMemberships(t.members[i], t.members[j]);
    }
    FilterPairwise(members, (m: Membership) => !(m.serverId == id && m.userId == me), DistinctMemberships);
  }

  lemma DropMembershipValid(t: Tables, serverId: Option<string>, me: int)
    requires ValidTables(t)
    ensures ValidTables(t.(members := DropMembership(t.members, serverId, me)))
  {
    if serverId.Some? {
      FilterPairwise(t.members, (m: Membership) => !(m.serverId == serverId.value && m.userId == me), DistinctMemberships);
    }
  }

  lemma LeaveValid(t: Tables, me: int, serverId: Option<string>)
    requires ValidTables(t)
    ensures ValidTables(Leave(t, me, serverId))
  {
    match PlanLeave(t, me, serverId)
    case DeleteServerRows => CascadeValid(t, serverId.value);
    case HandOver(n) => HandOverValid(t, serverId.value, n, me);
    case LeaveOnly => DropMembershipValid(t, serverId, me);
  }

  /** `UPDATE servers SET owner_id` makes `owner` the owner of the server with that id. */
  lemma SetOwnerFound(servers: seq<Server>, id: string, owner: int)
    requires ServerById(servers, id).Some?
    ensures ServerById(SetOwner(servers, id, owner), id).Some? && ServerById(SetOwner(servers, id, owner), id).value.ownerId == owner
  {
    var s := ServerById(servers, id).value;
    var j :| 0 <= j < |servers| && servers[j] == s;
    assert SetOwner(servers, id, owner)[j].id == id;
  }

  /**
   * An owner who leaves a server with other members hands it to the first of them, who
   * becomes its owner with the 'owner' role; the leaver is no longer a member.
   */
  lemma HandOverEffect(t: Tables, me: int, serverId: Option<string>)
    requires PlanLeave(t, me, serverId).HandOver?
    ensures var n := PlanLeave(t, me, serverId).newOwner;
      var r := Leave(t, me, serverId);
      && n != me
      && ServerById(r.servers, serverId.value).Some? && ServerById(r.servers, serverId.value).value.ownerId == n
      && Membership(serverId.value, n, "owner") in r.members
      && !IsMember(r.members, serverId.value, me)
      && r.users == t.users && r.channels == t.channels && r.roles == t.roles
  {
    var id := serverId.value;
    var n := PlanLeave(t, me, serverId).newOwner;
    var m := NextOwner(t.members, id, me).value;
    var k :| 0 <= k < |t.members| && t.members[k] == m;
    assert SetRole(t.members, id, n, "owner")[k] == Membership(id, n, "owner");
    SetOwnerFound(t.servers, id, n);
  }

  /** When the owner is the only member, leaving deletes the server and everything under it. */
  lemma SoleOwnerLeaveDeletes(t: Tables, me: int, serverId: Option<string>)
    requires PlanLeave(t, me, serverId).DeleteServerRows?
    ensures var r := Leave(t, me, serverId);
      && r == Cascade(t, serverId.value)
      && ServerById(r.servers, serverId.value).None?
      && ChannelIdsOf(r.channels, serverId.value) == {}
  {
    CascadeRemovesServer(t, serverId.value);
  }

  /** Anyone else who leaves removes only their own membership row. */
  lemma MemberLeaveDropsOwnRow(t: Tables, me: int, serverId: Option<string>)
    requires PlanLeave(t, me, serverId).LeaveOnly?
    ensures var r := Leave(t, me, serverId);
      && r == t.(members := DropMembership(t.members, serverId, me))
      && (forall m :: m in r.members <==> m in t.members && !(Some(m.serverId) == serverId && m.userId == me))
  {
  }

  /** `leave_server`: the caller by token, then the plan above; the reply names a deletion. */
  method LeaveServer(db: Db, token: Option<string>, serverId: Option<string>) returns (r: Reply<Option<string>>)
    requires db.Valid()
    modifies db`channelMessages, db`channels, db`userRoles, db`roles, db`members, db`servers
    ensures db.Valid()
    ensures match UserByToken(old(db.users), token)
      case None => r == Fail(InvalidToken) && db.State() == old(db.State())
      case Some(me) =>
        && r == Success(if PlanLeave(old(db.State()), me.id, serverId).DeleteServerRows? then Some(ServerDeleted) else None)
        && db.State() == Leave(old(db.State()), me.id, serverId)
  {
    var user := UserByToken(db.users, token);
    if user.None? {
      return Fail(InvalidToken);
    }
    var me := user.value;
    var plan := PlanLeave(db.State(), me.id, serverId);
    ApplyLeave(db, me.id, serverId);
    r := Success(if plan.DeleteServerRows? then Some(ServerDeleted) else None);
  }

  /** The writes of `leave_server` for a known caller. */
  method ApplyLeave(db: Db, me: int, serverId: Option<string>)
    requires db.Valid()
    modifies db`channelMessages, db`channels, db`userRoles, db`roles, db`members, db`servers
    ensures db.Valid()
    ensures db.State() == Leave(old(db.State()), me, serverId)
  {
    ghost var t := db.State();
    LeaveValid(t, me, serverId);
    var plan := PlanLeave(db.State(), me, serverId);
    match plan
    case DeleteServerRows =>
      DeleteServerCascade(db, serverId.value);
    case HandOver(n) =>
      db.servers := SetOwner(db.servers, serverId.value, n);
      db.members := DeleteMembership(SetRole(db.members, serverId.value, n, "owner"), serverId.value, me);
      assert db.State() == Leave(t, me, serverId);
    case LeaveOnly =>
      db.members := DropMembership(db.members, serverId, me);
      assert db.State() == Leave(t, me, serverId);
  }

  /** The checks of `delete_server`: the caller, and the caller owns the server. */
  function DeleteCheck(t: Tables, token: Option<string>, serverId: Option<string>): Reply<string> {
    match UserByToken(t.users, token)
    case None => Fail(InvalidToken)
    case Some(user) =>
      match ServerOf(t, serverId)
      case None => Fail(NotAllowed)
      case Some(server) => if server.ownerId != user.id then Fail(NotAllowed) else Success(server.id)
  }

  /** Only the owner passes, and then the server is gone. */
  lemma DeleteOnlyByOwner(t: Tables, token: Option<string>, serverId: Option<string>)
    ensures DeleteCheck(t, token, serverId).Success? <==>
      && UserByToken(t.users, token).Some? && ServerOf(t, serverId).Some?
      && ServerOf(t, serverId).value.ownerId == UserByToken(t.users, token).value.id
    ensures DeleteCheck(t, token, serverId).Success? ==>
      DeleteCheck(t, token, serverId).body == serverId.value
      && ServerById(Cascade(t, serverId.value).servers, serverId.value).None?
  {
    if DeleteCheck(t, token, serverId).Success? {
      CascadeRemovesServer(t, serverId.value);
    }
  }

  /** `delete_server` (owner only): the cascade; for anyone else nothing changes. */
  method DeleteServer(db: Db, token: Option<string>, serverId: Option<string>) returns (r: Reply<()>)
    requires db.Valid()
    modifies db`channelMessages, db`channels, db`userRoles, db`roles, db`members, db`servers
    ensures db.Valid()
    ensures match DeleteCheck(old(db.State()), token, serverId)
      case Failure(m) => r == Failure(m) && db.State() == old(db.State())
      case Success(id) => r == Success(()) && db.State() == Cascade(old(db.State()), id)
  {
    var check := DeleteCheck(db.State(), token, serverId);
    match check
    case Failure(m) =>
      r := Failure(m);
    case Success(id) =>
      DeleteServerCascade(db, id);
      r := Success(());
  }

  // ---------------------------------------------------------------------------
  // leave_server as written.
  // ---------------------------------------------------------------------------

  /** The error SQLite raises for `ORDER BY joined_at`: the members table has no such column. */
  const NoJoinedAt := "no such column: joined_at"

  /**
   * `leave_server` exactly as written: when the caller owns the server, the query for the next
   * owner names a column the schema lacks, so it raises and nothing is committed.
   */
  function LeaveAsWritten(t: Tables, token: Option<string>, serverId: Option<string>): (Reply<Option<string>>, Tables) {
    match UserByToken(t.users, token)
    case None => (Fail(InvalidToken), t)
    case Some(me) =>
      if ServerOf(t, serverId).Some? && ServerOf(t, serverId).value.ownerId == me.id then (Fail(NoJoinedAt), t)
      else (Success(None), Leave(t, me.id, serverId))
  }

  /** As written, an owner can never leave, while the intended `Leave` hands the server over or deletes it. */
  lemma OwnerCannotLeaveAsWritten(t: Tables, token: Option<string>, serverId: Option<string>)
    requires UserByToken(t.users, token).Some? && ServerOf(t, serverId).Some?
    requires ServerOf(t, serverId).value.ownerId == UserByToken(t.users, token).value.id
    ensures LeaveAsWritten(t, token, serverId) == (Fail(NoJoinedAt), t)
    ensures !PlanLeave(t, UserByToken(t.users, token).value.id, serverId).LeaveOnly?
  {
  }
}
