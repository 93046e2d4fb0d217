/**
 * The maintenance script cleanup_servers.py: it deletes member rows whose user is gone, then
 * deletes every server left without members together with everything that belongs to it.
 * Its console output is left out.
 */
module Cleanup {
  import opened Common
  import opened Store

  /** `id IN (SELECT id FROM users)`. */
  predicate UserExists(users: seq<User>, id: int) {
    exists i :: 0 <= i < |users| && users[i].id == id
  }

  /** `server_id IN (SELECT DISTINCT server_id FROM members)`. */
  predicate HasMember(members: seq<Membership>, serverId: string) {
    exists i :: 0 <= i < |members| && members[i].serverId == serverId
  }

  function ExistingUser(users: seq<User>): Membership -> bool {
    (m: Membership) => UserExists(users, m.userId)
  }

  /** `DELETE FROM members WHERE user_id NOT IN (SELECT id FROM users)`. */
  function DropOrphans(t: Tables): Tables {
    t.(members := Filter(t.members, ExistingUser(t.users)))
  }

  lemma DropOrphansValid(t: Tables)
    requires ValidTables(t)
    ensures ValidTables(DropOrphans(t))
  {
    FilterPairwise(t.members, ExistingUser(t.users), DistinctMemberships);
  }

  /** `SELECT id ... FROM servers WHERE id NOT IN (SELECT DISTINCT server_id FROM members)`, in row order. */
  function EmptyServers(servers: seq<Server>, members: seq<Membership>): (r: seq<string>)
    ensures forall id :: id in r <==> (exists i :: 0 <= i < |servers| && servers[i].id == id) && !HasMember(members, id)
  {
    if servers == [] then []
    else
      var rest := EmptyServers(servers[1..], members);
      assert forall i :: 1 <= i < |servers| ==> servers[i] == servers[1..][i - 1];
      (if HasMember(members, servers[0].id) then [] else [servers[0].id]) + rest
  }

  /** The cascade of the loop, applied to the listed servers in order. */
  function CascadeAll(t: Tables, ids: seq<string>): Tables
    decreases |ids|
  {
    if ids == [] then t else Cascade(CascadeAll(t, ids[..|ids| - 1]), ids[|ids| - 1])
  }

  /** The cascades keep the users table. */
  lemma {:induction false} CascadeAllUsers(t: Tables, ids: seq<string>)
    ensures CascadeAll(t, ids).users == t.users
    decreases |ids|
  {
    if ids != [] {
      CascadeAllUsers(t, ids[..|ids| - 1]);
      CascadeContents(CascadeAll(t, ids[..|ids| - 1]), ids[|ids| - 1]);
    }
  }

  /** The id of a listed server is the last one or one listed before it. */
  lemma InFront(ids: seq<string>, id: string)
    requires ids != []
    ensures id in ids <==> id in ids[..|ids| - 1] || id == ids[|ids| - 1]
  {
    assert ids == ids[..|ids| - 1] + [ids[|ids| - 1]];
  }

  /** The cascades remove exactly the server rows of the listed servers. */
  lemma {:induction false} CascadeAllServers(t: Tables, ids: seq<string>)
    ensures forall s :: s in CascadeAll(t, ids).servers <==> s in t.servers && s.id !in ids
    decreases |ids|
  {
    if ids != [] {
      var front := ids[..|ids| - 1];
      CascadeAllServers(t, front);
      CascadeContents(CascadeAll(t, front), ids[|ids| - 1]);
      forall s ensures s in CascadeAll(t, ids).servers <==> s in t.servers && s.id !in ids {
        InFront(ids, s.id);
      }
    }
  }

  /** The cascades remove exactly the member rows of the listed servers. */
  lemma {:induction false} CascadeAllMembers(t: Tables, ids: seq<string>)
    ensures forall m :: m in CascadeAll(t, ids).members <==> m in t.members && m.serverId !in ids
    decreases |ids|
  {
    if ids != [] {
      var front := ids[..|ids| - 1];
      CascadeAllMembers(t, front);
      CascadeContents(CascadeAll(t, front), ids[|ids| - 1]);
      forall m ensures m in CascadeAll(t, ids).members <==> m in t.members && m.serverId !in ids {
        InFront(ids, m.serverId);
      }
    }
  }

  /** The whole script as one change of the database. */
  function CleanedUp(t: Tables): Tables {
    var pruned := DropOrphans(t);
    CascadeAll(pruned, EmptyServers(pruned.servers, pruned.members))
  }

  /** The empty servers are exactly the ones no member row names, so the cascades keep every member row. */
  lemma CleanedUpMembers(t: Tables)
    ensures var r := CleanedUp(t);
      && r.users == t.users
      && (forall m :: m in r.members <==> m in t.members && UserExists(t.users, m.userId))
  {
    var pruned := DropOrphans(t);
    var empty := EmptyServers(pruned.servers, pruned.members);
    CascadeAllUsers(pruned, empty);
    CascadeAllMembers(pruned, empty);
    forall m | m in pruned.members ensures m.serverId !in empty {
      var k :| 0 <= k < |pruned.members| && pruned.members[k] == m;
      assert HasMember(pruned.members, m.serverId);
    }
  }

  /**
   * Afterwards no member row refers to a missing user and every server has a member; a server
   * that still had a member after the orphan rows went is kept.
   */
  lemma CleanedUpSound(t: Tables)
    ensures var r := CleanedUp(t);
      && (forall m :: m in r.members ==> UserExists(r.users, m.userId))
      && (forall s :: s in r.servers ==> HasMember(r.members, s.id))
      && (forall s :: s in t.servers && HasMember(DropOrphans(t).members, s.id) ==> s in r.servers)
  {
    var pruned := DropOrphans(t);
    var r := CleanedUp(t);
    CleanedUpMembers(t);
    CleanedUpServers(t);
    forall s | s in r.servers ensures HasMember(r.members, s.id) {
      var i :| 0 <= i < |pruned.members| && pruned.members[i].serverId == s.id;
      var m := pruned.members[i];
      assert m in pruned.members;
      assert ExistingUser(t.users)(m);
      assert m in t.members && UserExists(t.users, m.userId);
      var j :| 0 <= j < |r.members| && r.members[j] == m;
    }
  }

  /** A server row survives exactly when it still had a member after the orphan rows went. */
  lemma CleanedUpServers(t: Tables)
    ensures forall s :: s in CleanedUp(t).servers <==> s in t.servers && HasMember(DropOrphans(t).members, s.id)
  {
    var pruned := DropOrphans(t);
    var empty := EmptyServers(pruned.servers, pruned.members);
    CascadeAllServers(pruned, empty);
    forall s | s in t.servers ensures s.id in empty <==> !HasMember(pruned.members, s.id) {
      var k :| 0 <= k < |pruned.servers| && pruned.servers[k] == s;
    }
  }

  /** The first statement of cleanup_servers.py: the member rows of deleted users go. */
  method DropOrphanMembers(db: Db)
    requires db.Valid()
    modifies db`members
    ensures db.Valid()
    ensures db.State() == DropOrphans(old(db.State()))
  {
    ghost var t := db.State();
    DropOrphansValid(t);
    db.members := Filter(db.members, ExistingUser(db.users));
    assert db.State() == DropOrphans(t);
  }

  /** One more cascade extends the prefix by one server. */
  lemma CascadeAllSnoc(t: Tables, ids: seq<string>, i: nat)
    requires i < |ids|
    ensures CascadeAll(t, ids[..i + 1]) == Cascade(CascadeAll(t, ids[..i]), ids[i])
  {
    assert ids[..i + 1][..i] == ids[..i];
  }

  /** The loop over the empty servers: one cascade each, in order. */
  method CascadeEach(db: Db, ids: seq<string>)
    requires db.Valid()
    modifies db`channelMessages, db`channels, db`userRoles, db`roles, db`members, db`servers
    ensures db.Valid()
    ensures db.State() == CascadeAll(old(db.State()), ids)
  {
    ghost var start := db.State();
    var i := 0;
    while i < |ids|
      invariant 0 <= i <= |ids|
      invariant db.Valid() && db.State() == CascadeAll(start, ids[..i])
    {
      CascadeAllSnoc(start, ids, i);
      DeleteServerCascade(db, ids[i]);
      i := i + 1;
    }
    assert ids[..i] == ids;
  }

  /** cleanup_servers.py: the orphan deletion, then one cascade per empty server. */
  method CleanupServers(db: Db)
    requires db.Valid()
    modifies db`channelMessages, db`channels, db`userRoles, db`roles, db`members, db`servers
    ensures db.Valid()
    ensures db.State() == CleanedUp(old(db.State()))
  {
    DropOrphanMembers(db);
    var empty := EmptyServers(db.servers, db.members);
    CascadeEach(db, empty);
  }
}
