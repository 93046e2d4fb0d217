/**
 * The system-administrator endpoints (SafeZone-Server/routers/admin.py): a guard that turns
 * the Authorization header into a sysadmin user or an HTTP error, the statistics, the
 * administrator's own join, and the soft-delete toggle of a server.
 */
module Admin {
  import opened Common
  import opened Store
  import Servers

  /** A FastAPI reply: a body, or the `HTTPException` raised with its status code and detail. */
  datatype Http<T> = Ok(body: T) | Raise(code: int, detail: string)

  const BearerPrefix := "Bearer "
  const MissingToken := "Missing Token"
  const BadToken := "Invalid Token"
  const NotSysadmin := "Not a SysAdmin"
  const UnknownServer := "Server not found"
  const AlreadyMember := "Already a member"
  const Joined := "Joined server"
  const Restored := "Server restored"
  const SoftDeleted := "Server soft-deleted"

  // ---------------------------------------------------------------------------
  // The Authorization header: `str.replace(pat, "")` removes every occurrence.
  // ---------------------------------------------------------------------------

  /** Python's `s.replace(pat, "")`: scans left to right and drops each non-overlapping occurrence. */
  function RemoveAll(s: string, pat: string): (r: string)
    requires pat != ""
    ensures |r| <= |s|
    decreases |s|
  {
    if |s| < |pat| then s
    else if s[..|pat|] == pat then RemoveAll(s[|pat|..], pat)
    else [s[0]] + RemoveAll(s[1..], pat)
  }

  /** Removing leaves the text as it is exactly when the pattern does not occur in it. */
  lemma {:induction false} RemoveAllIdentity(s: string, pat: string)
    requires pat != ""
    ensures RemoveAll(s, pat) == s <==> !Occurs(s, pat)
    decreases |s|
  {
    if |s| < |pat| {
    } else if s[..|pat|] == pat {
      assert MatchAt(s, pat, 0);
    } else {
      RemoveAllIdentity(s[1..], pat);
      if Occurs(s, pat) {
        var i :| MatchAt(s, pat, i);
        assert i != 0;
        MatchShift(s, pat, i);
      }
      if Occurs(s[1..], pat) {
        var i :| MatchAt(s[1..], pat, i);
        MatchShift(s, pat, i + 1);
      }
      assert s == [s[0]] + s[1..];
    }
  }

  /** `authorization.replace("Bearer ", "")`. */
  function StripBearer(header: string): string {
    RemoveAll(header, BearerPrefix)
  }

  /**
   * The bearer scheme of section 2.1 of RFC 6750: the header "Bearer <token>" yields the token
   * whenever the token does not itself contain "Bearer ".
   */
  lemma BearerRoundTrip(token: string)
    requires !Occurs(token, BearerPrefix)
    ensures StripBearer(BearerPrefix + token) == token
  {
    var h := BearerPrefix + token;
    assert h[..|BearerPrefix|] == BearerPrefix;
    assert h[|BearerPrefix|..] == token;
    RemoveAllIdentity(token, BearerPrefix);
  }

  // ---------------------------------------------------------------------------
  // get_current_sysadmin.
  // ---------------------------------------------------------------------------

  /** `get_current_sysadmin`: 401 without a header, 401 for an unknown token, 403 for a plain user. */
  function SysadminGuard(users: seq<User>, authorization: Option<string>): Http<User> {
    if !Truthy(authorization) then Raise(401, MissingToken)
    else
      match UserByToken(users, Some(StripBearer(authorization.value)))
      case None => Raise(401, BadToken)
      case Some(user) => if !user.isSysadmin then Raise(403, NotSysadmin) else Ok(user)
  }

  /** What each outcome of the guard means, in both directions. */
  lemma GuardOutcomes(users: seq<User>, authorization: Option<string>)
    ensures SysadminGuard(users, authorization) == Raise(401, MissingToken) <==> !Truthy(authorization)
    ensures SysadminGuard(users, authorization).Ok? <==>
      Truthy(authorization) && UserByToken(users, Some(StripBearer(authorization.value))).Some?
      && UserByToken(users, Some(StripBearer(authorization.value))).value.isSysadmin
    ensures SysadminGuard(users, authorization).Ok? ==>
      var admin := SysadminGuard(users, authorization).body;
      admin in users && admin.isSysadmin && admin.token == Some(StripBearer(authorization.value))
    ensures SysadminGuard(users, authorization).Raise? ==> SysadminGuard(users, authorization).code in {401, 403}
  {
  }

  /** A sysadmin who sends "Bearer <token>" passes the guard as the first user holding that token. */
  lemma GuardAcceptsBearer(users: seq<User>, token: string)
    requires !Occurs(token, BearerPrefix)
    requires UserByToken(users, Some(token)).Some? && UserByToken(users, Some(token)).value.isSysadmin
    ensures SysadminGuard(users, Some(BearerPrefix + token)) == Ok(UserByToken(users, Some(token)).value)
  {
    BearerRoundTrip(token);
  }

  // ---------------------------------------------------------------------------
  // get_stats.
  // ---------------------------------------------------------------------------

  datatype Stats = Stats(users: nat, servers: nat, totalServers: nat)

  /** `SELECT COUNT(*) FROM servers WHERE deleted_at IS NULL`. */
  function CountActive(servers: seq<Server>): (n: nat)
    ensures n <= |servers|
  {
    if servers == [] then 0 else (if servers[0].deletedAt.None? then 1 else 0) + CountActive(servers[1..])
  }

  /** Every server is counted as active exactly when none of them is soft-deleted. */
  lemma {:induction false} CountActiveAll(servers: seq<Server>)
    ensures CountActive(servers) == |servers| <==> forall i :: 0 <= i < |servers| ==> servers[i].deletedAt.None?
  {
    if servers != [] {
      CountActiveAll(servers[1..]);
      assert forall i :: 1 <= i < |servers| ==> servers[i] == servers[1..][i - 1];
    }
  }

  /** The counts are taken over rows that already exist; a new active server adds one to both. */
  lemma {:induction false} CountActiveAppend(servers: seq<Server>, s: Server)
    ensures CountActive(servers + [s]) == CountActive(servers) + (if s.deletedAt.None? then 1 else 0)
  {
    if servers != [] {
      assert (servers + [s])[1..] == servers[1..] + [s];
      CountActiveAppend(servers[1..], s);
    } else {
      assert [] + [s] == [s];
    }
  }

  /** `get_stats`: guarded by the sysadmin check; active servers never exceed all servers. */
  function GetStats(t: Tables, authorization: Option<string>): (r: Http<Stats>)
    ensures r.Ok? <==> SysadminGuard(t.users, authorization).Ok?
    ensures r.Raise? ==> r == Raise(SysadminGuard(t.users, authorization).code, SysadminGuard(t.users, authorization).detail)
    ensures r.Ok? ==> r.body.users == |t.users| && r.body.totalServers == |t.servers| && r.body.servers <= r.body.totalServers
  {
    match SysadminGuard(t.users, authorization)
    case Raise(code, detail) => Raise(code, detail)
    case Ok(_) => Ok(Stats(|t.users|, CountActive(t.servers), |t.servers|))
  }

  // ---------------------------------------------------------------------------
  // join_server (administrator).
  // ---------------------------------------------------------------------------

  /** The checks of the administrator's join: the guard, then a server row with that id (deleted or not). */
  function AdminJoinCheck(t: Tables, authorization: Option<string>, serverId: string): Http<User> {
    match SysadminGuard(t.users, authorization)
    case Raise(code, detail) => Raise(code, detail)
    case Ok(admin) => if ServerById(t.servers, serverId).None? then Raise(404, UnknownServer) else Ok(admin)
  }

  /** `join_server`: an existing member is told so and nothing changes; otherwise one default-role row. */
  method AdminJoin(db: Db, authorization: Option<string>, serverId: string) returns (r: Http<string>)
    requires db.Valid()
    modifies db`members
    ensures db.Valid()
    ensures match AdminJoinCheck(old(db.State()), authorization, serverId)
      case Raise(code, detail) => r == Raise(code, detail) && db.members == old(db.members)
      case Ok(admin) =>
        if IsMember(old(db.members), serverId, admin.id) then r == Ok(AlreadyMember) && db.members == old(db.members)
        else r == Ok(Joined) && db.State() == Servers.AddMember(old(db.State()), serverId, admin.id, "member")
  {
    var check := AdminJoinCheck(db.State(), authorization, serverId);
    if check.Raise? {
      return Raise(check.code, check.detail);
    }
    var admin := check.body;
    if exists i :: 0 <= i < |db.members| && db.members[i].serverId == serverId && db.members[i].userId == admin.id {
      return Ok(AlreadyMember);
    }
    ghost var t := db.State();
    Servers.AddMemberValid(t, serverId, admin.id, "member");
    db.members := db.members + [Membership(serverId, admin.id, "member")];
    assert db.State() == Servers.AddMember(t, serverId, admin.id, "member");
    r := Ok(Joined);
  }

  /** The administrator's join is idempotent: the second one finds the row and adds nothing. */
  lemma AdminJoinTwice(t: Tables, authorization: Option<string>, serverId: string)
    requires AdminJoinCheck(t, authorization, serverId).Ok?
    ensures var admin := AdminJoinCheck(t, authorization, serverId).body;
      var r := Servers.AddMember(t, serverId, admin.id, "member");
      AdminJoinCheck(r, authorization, serverId) == AdminJoinCheck(t, authorization, serverId)
      && IsMember(r.members, serverId, admin.id)
  {
    var admin := AdminJoinCheck(t, authorization, serverId).body;
    var r := Servers.AddMember(t, serverId, admin.id, "member");
    assert r.members[|t.members|] == Membership(serverId, admin.id, "member");
  }

  // ---------------------------------------------------------------------------
  // delete_server (administrator): the soft-delete toggle.
  // ---------------------------------------------------------------------------

  /** The new `deleted_at`: a set (truthy) value is cleared, anything else becomes the current time. */
  function Toggled(deletedAt: Option<string>, now: string): (r: Option<string>)
    ensures now != "" ==> (Truthy(r) <==> !Truthy(deletedAt))
  {
    if Truthy(deletedAt) then None else Some(now)
  }

  /** `UPDATE servers SET deleted_at = ? WHERE id = ?`; every other row is kept in place. */
  function SetDeletedAt(servers: seq<Server>, id: string, deletedAt: Option<string>): (r: seq<Server>)
    ensures |r| == |servers|
    ensures forall i :: 0 <= i < |servers| ==> r[i] == if servers[i].id == id then servers[i].(deletedAt := deletedAt) else servers[i]
  {
    MapSeq(servers, (s: Server) => if s.id == id then s.(deletedAt := deletedAt) else s)
  }

  /** `delete_server`: 404 for an unknown id, else the toggled `deleted_at` and which way it went. */
  function ToggleCheck(t: Tables, authorization: Option<string>, serverId: string, now: string): Http<(Option<string>, string)> {
    match SysadminGuard(t.users, authorization)
    case Raise(code, detail) => Raise(code, detail)
    case Ok(_) =>
      match ServerById(t.servers, serverId)
      case None => Raise(404, UnknownServer)
      case Some(server) =>
        if Truthy(server.deletedAt) then Ok((None, Restored)) else Ok((Some(now), SoftDeleted))
  }

  lemma SetDeletedAtValid(t: Tables, id: string, deletedAt: Option<string>)
    requires ValidTables(t)
    ensures ValidTables(t.(servers := SetDeletedAt(t.servers, id, deletedAt)))
  {
    var r := SetDeletedAt(t.servers, id, deletedAt);
    forall i, j | 0 <= i < j < |r| ensures DistinctServers(r[i], r[j]) {
      assert DistinctServers(t.servers[i], t.servers[j]);
    }
  }

  /** The toggle flips the server between active and soft-deleted; the row keeps everything else. */
  lemma ToggleFlips(t: Tables, serverId: string, deletedAt: Option<string>)
    requires Pairwise(t.servers, DistinctServers) && ServerById(t.servers, serverId).Some?
    ensures var s := ServerById(t.servers, serverId).value;
      ServerById(SetDeletedAt(t.servers, serverId, deletedAt), serverId) == Some(s.(deletedAt := deletedAt))
  {
    var r := SetDeletedAt(t.servers, serverId, deletedAt);
    var s := ServerById(t.servers, serverId).value;
    var k :| 0 <= k < |t.servers| && t.servers[k] == s;
    SetDeletedAtDistinct(t.servers, serverId, deletedAt);
    assert r[k] == s.(deletedAt := deletedAt);
    ServerByIdAt(r, k);
  }

  /** `deleted_at` is not a key: the ids and invite codes stay pairwise distinct. */
  lemma SetDeletedAtDistinct(servers: seq<Server>, id: string, deletedAt: Option<string>)
    requires Pairwise(servers, DistinctServers)
    ensures Pairwise(SetDeletedAt(servers, id, deletedAt), DistinctServers)
  {
    var r := SetDeletedAt(servers, id, deletedAt);
    forall i, j | 0 <= i < j < |r| ensures DistinctServers(r[i], r[j]) {
      assert DistinctServers(servers[i], servers[j]);
    }
  }

  /** `delete_server` (administrator): restores a soft-deleted server or soft-deletes an active one. */
  method ToggleServer(db: Db, authorization: Option<string>, serverId: string, now: string) returns (r: Http<string>)
    requires db.Valid()
    modifies db`servers
    ensures db.Valid()
    ensures match ToggleCheck(old(db.State()), authorization, serverId, now)
      case Raise(code, detail) => r == Raise(code, detail) && db.servers == old(db.servers)
      case Ok((deletedAt, message)) =>
        r == Ok(message) && db.State() == old(db.State()).(servers := SetDeletedAt(old(db.servers), serverId, deletedAt))
  {
    var check := ToggleCheck(db.State(), authorization, serverId, now);
    if check.Raise? {
      return Raise(check.code, check.detail);
    }
    var (deletedAt, message) := check.body;
    ghost var t := db.State();
    SetDeletedAtValid(t, serverId, deletedAt);
    db.servers := SetDeletedAt(db.servers, serverId, deletedAt);
    r := Ok(message);
  }
}
