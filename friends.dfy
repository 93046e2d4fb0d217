/**
 * The friends and direct-message endpoints (SafeZone-Server/routers/friends.py): friend
 * requests, the symmetric friendship relation, and the DM table with its sender-only
 * edit and delete.
 */
module Friends {
  import opened Common
  import opened Sorting
  import opened Store
  import opened Presence

  // Reply messages, verbatim.
  const MissingInfo := "Eksik bilgi"
  const BadTagFormat := "Format: username#1234 olmal\U{131}"
  const UserNotFound := "Kullan\U{131}c\U{131} bulunamad\U{131}!"
  const CannotAddSelf := "Kendini ekleyemezsin."
  const AlreadyFriends := "Zaten arkada\U{15F}s\U{131}n\U{131}z."
  const AlreadyRequested := "Zaten istek g\U{F6}nderdin."
  const RequestSent := "Arkada\U{15F}l\U{131}k iste\U{11F}i g\U{F6}nderildi."
  const UsersNotFound := "Users not found"
  const SenderNotFound := "Sender not found"
  const Accepted := "Arkada\U{15F}l\U{131}k kabul edildi."
  const Rejected := "\U{130}stek reddedildi."
  const TokenRequired := "Token required"
  const Removed := "Arkada\U{15F} kald\U{131}r\U{131}ld\U{131}."
  const ReceiverNotFound := "Kullan\U{131}c\U{131} bulunamad\U{131}"
  /** The text of the exception SQLite raises on `UPDATE messages SET content = NULL`. */
  const ContentNull := "NOT NULL constraint failed: messages.content"

  // ---------------------------------------------------------------------------
  // Friend tags.
  // ---------------------------------------------------------------------------

  /** `friend_tag.split('#')` when it yields exactly two parts: the name and the discriminator. */
  function SplitTag(tag: string): (r: Option<(string, string)>)
    ensures r.Some? <==> CountChar(tag, '#') == 1
    ensures r.Some? ==> tag == r.value.0 + "#" + r.value.1 && '#' !in r.value.0 && '#' !in r.value.1
  {
    match IndexOfChar(tag, '#')
    case None => None
    case Some(k) =>
      var name, disc := tag[..k], tag[k + 1..];
      assert tag == name + "#" + disc;
      CountCharAppend(name + "#", disc, '#');
      CountCharAppend(name, "#", '#');
      if '#' in disc then None else Some((name, disc))
  }

  /** Joining a name and a discriminator without '#' and splitting again gives them back. */
  lemma SplitTagJoin(name: string, disc: string)
    requires '#' !in name && '#' !in disc
    ensures SplitTag(name + "#" + disc) == Some((name, disc))
  {
    var tag := name + "#" + disc;
    assert tag[|name|] == '#';
    var k := IndexOfChar(tag, '#').value;
    assert forall j :: 0 <= j < |name| ==> tag[j] == name[j];
    assert k == |name|;
    assert tag[..k] == name && tag[k + 1..] == disc;
  }

  /** `SELECT ... FROM users WHERE username = ? AND discriminator = ?`: a NULL discriminator matches nothing. */
  function UserByTag(users: seq<User>, name: string, disc: string): (r: Option<User>)
    ensures r.Some? ==> r.value in users && r.value.username == name && r.value.discriminator == Some(disc)
    ensures r.None? <==> forall i :: 0 <= i < |users| ==> !(users[i].username == name && users[i].discriminator == Some(disc))
  {
    FindFirst(users, (u: User) => u.username == name && u.discriminator == Some(disc))
  }

  // ---------------------------------------------------------------------------
  // add_friend
  // ---------------------------------------------------------------------------

  /** The checks of `add_friend`, in order: the caller and the user the tag names, or the reply that ends the call. */
  function AddFriendCheck(t: Tables, token: Option<string>, tag: Option<string>): Reply<(User, User)> {
    if !Truthy(token) || !Truthy(tag) then Fail(MissingInfo)
    else match SplitTag(tag.value)
      case None => Fail(BadTagFormat)
      case Some(parts) =>
        match UserByToken(t.users, token)
        case None => Fail(InvalidToken)
        case Some(me) =>
          match UserByTag(t.users, parts.0, parts.1)
          case None => Fail(UserNotFound)
          case Some(friend) =>
            if friend.id == me.id then Fail(CannotAddSelf)
            else if (me.id, friend.id) in t.friends then Fail(AlreadyFriends)
            else if FriendRequest(me.id, friend.id) in t.friendRequests then Fail(AlreadyRequested)
            else Success((me, friend))
  }

  /** What a passing check guarantees about the two users. */
  lemma AddFriendCheckSound(t: Tables, token: Option<string>, tag: Option<string>)
    requires AddFriendCheck(t, token, tag).Success?
    ensures var (me, friend) := AddFriendCheck(t, token, tag).body;
      && me in t.users && me.token == token && Truthy(token)
      && friend in t.users && friend.discriminator.Some?
      && tag == Some(friend.username + "#" + friend.discriminator.value)
      && me.id != friend.id
      && (me.id, friend.id) !in t.friends
      && FriendRequest(me.id, friend.id) !in t.friendRequests
  {
    var parts := SplitTag(tag.value).value;
    var friend := UserByTag(t.users, parts.0, parts.1).value;
    assert tag.value == friend.username + "#" + friend.discriminator.value;
  }

  /** Nobody can send themselves a request. */
  lemma AddSelfRejected(t: Tables, me: User, disc: string)
    requires Pairwise(t.users, DistinctUsers) && Truthy(me.token)
    requires UserByToken(t.users, me.token) == Some(me) && me.discriminator == Some(disc)
    requires '#' !in me.username && '#' !in disc
    ensures AddFriendCheck(t, me.token, Some(me.username + "#" + disc)) == Fail(CannotAddSelf)
  {
    SplitTagJoin(me.username, disc);
    var k :| 0 <= k < |t.users| && t.users[k] == me;
    UserByTagAt(t.users, k, disc);
  }

  /** With distinct usernames, the tag of a user finds that user. */
  lemma UserByTagAt(users: seq<User>, k: nat, disc: string)
    requires Pairwise(users, DistinctUsers) && k < |users| && users[k].discriminator == Some(disc)
    ensures UserByTag(users, users[k].username, disc) == Some(users[k])
  {
    var found := UserByTag(users, users[k].username, disc);
    assert found.Some?;
    var j :| 0 <= j < |users| && users[j] == found.value;
    UserNameUnique(users, j, k);
  }

  /** `INSERT INTO friend_requests (sender_id, receiver_id)`. */
  function AddRequest(t: Tables, from: int, to: int): Tables {
    t.(friendRequests := t.friendRequests + [FriendRequest(from, to)])
  }

  /** A request that passed the check keeps the primary key of `friend_requests`. */
  lemma AddRequestValid(t: Tables, from: int, to: int)
    requires ValidTables(t) && FriendRequest(from, to) !in t.friendRequests
    ensures ValidTables(AddRequest(t, from, to))
  {
    AppendPairwise(t.friendRequests, FriendRequest(from, to), DistinctRequests);
  }

  /** Sending the same request again is refused as already sent. */
  lemma AddFriendTwice(t: Tables, token: Option<string>, tag: Option<string>)
    requires AddFriendCheck(t, token, tag).Success?
    ensures var (me, friend) := AddFriendCheck(t, token, tag).body;
      AddFriendCheck(AddRequest(t, me.id, friend.id), token, tag) == Fail(AlreadyRequested)
  {
    var parts := SplitTag(tag.value).value;
    var me := UserByToken(t.users, token).value;
    var friend := UserByTag(t.users, parts.0, parts.1).value;
    assert AddFriendCheck(t, token, tag) == Success((me, friend));
    var t2 := AddRequest(t, me.id, friend.id);
    assert t2.users == t.users && t2.friends == t.friends;
    assert FriendRequest(me.id, friend.id) in t2.friendRequests;
  }

  /**
   * `add_friend`: a passing check inserts exactly the one request (caller to friend) and pushes a
   * `friend_request` note to the friend's lobby connection; any failing check changes nothing.
   */
  method AddFriend(hub: Hub, token: Option<string>, tag: Option<string>) returns (r: Reply<string>)
    requires hub.Valid() && hub.db.Valid()
    modifies hub.db`friendRequests, hub`sent
    ensures hub.Valid() && hub.db.Valid()
    ensures match AddFriendCheck(old(hub.db.State()), token, tag)
      case Failure(m) =>
        r == Failure(m) && hub.db.friendRequests == old(hub.db.friendRequests) && hub.sent == old(hub.sent)
      case Success((me, friend)) =>
        && r == Success(RequestSent)
        && hub.db.State() == AddRequest(old(hub.db.State()), me.id, friend.id)
        && hub.sent == Pushed(old(hub.sent), hub.lobby, hub.dead, friend.username,
                              FriendRequestNote(me.username, OrDefault(me.discriminator, "0001")))
  {
    var check := AddFriendCheck(hub.db.State(), token, tag);
    match check
    case Failure(m) =>
      r := Failure(m);
    case Success((me, friend)) =>
      AddFriendCheckSound(hub.db.State(), token, tag);
      SendRequest(hub, me, friend);
      r := Success(RequestSent);
  }

  /** Steps 5 and the push of `add_friend`, after the checks pass. */
  method SendRequest(hub: Hub, me: User, friend: User)
    requires hub.Valid() && hub.db.Valid() && FriendRequest(me.id, friend.id) !in hub.db.friendRequests
    modifies hub.db`friendRequests, hub`sent
    ensures hub.Valid() && hub.db.Valid()
    ensures hub.db.State() == AddRequest(old(hub.db.State()), me.id, friend.id)
    ensures hub.sent == Pushed(old(hub.sent), hub.lobby, hub.dead, friend.username,
                               FriendRequestNote(me.username, OrDefault(me.discriminator, "0001")))
  {
    var db := hub.db;
    ghost var t := db.State();
    AddRequestValid(t, me.id, friend.id);
    db.friendRequests := db.friendRequests + [FriendRequest(me.id, friend.id)];
    assert db.State() == AddRequest(t, me.id, friend.id);
    hub.PushTo(friend.username, FriendRequestNote(me.username, OrDefault(me.discriminator, "0001")));
  }

  // ---------------------------------------------------------------------------
  // Incoming requests and the friends list.
  // ---------------------------------------------------------------------------

  /** `SELECT u.* FROM friend_requests fr JOIN users u ON fr.sender_id = u.id WHERE fr.receiver_id = ?`. */
  function IncomingSenders(requests: seq<FriendRequest>, users: seq<User>, me: int): (r: seq<User>)
    ensures forall u :: u in r ==> u in users && FriendRequest(u.id, me) in requests
  {
    if requests == [] then []
    else
      var rest := IncomingSenders(requests[1..], users, me);
      var q := requests[0];
      if q.receiverId == me then
        match UserById(users, q.senderId)
        case Some(u) => [u] + rest
        case None => rest
      else rest
  }

  datatype RequestRow = RequestRow(id: string, username: string, discriminator: Option<string>)

  /** An incoming request as `get_friends_data` lists it, under the made-up id "req_" + name. */
  function AsRequestRow(u: User): RequestRow {
    RequestRow("req_" + u.username, u.username, u.discriminator)
  }

  datatype FriendRow = FriendRow(
    id: int, username: string, discriminator: Option<string>, displayName: string,
    avatarUrl: Option<string>, avatarColor: Option<string>, status: Option<string>)

  function AsFriendRow(u: User): FriendRow {
    FriendRow(u.id, u.username, u.discriminator, u.displayName, u.avatarUrl, u.avatarColor, u.status)
  }

  predicate NameLe(a: User, b: User) { StrLe(a.username, b.username) }

  /** The users `me` has a `friends` row towards, in row order. */
  function FriendUsers(t: Tables, me: int): (r: seq<User>)
    ensures forall u :: u in r <==> u in t.users && (me, u.id) in t.friends
  {
    Filter(t.users, (u: User) => (me, u.id) in t.friends)
  }

  /** `... JOIN users u ON f.friend_id = u.id WHERE f.user_id = ? ORDER BY u.username`. */
  function FriendsByName(t: Tables, me: int): (r: seq<User>)
    ensures forall u :: u in r <==> u in t.users && (me, u.id) in t.friends
    ensures SortedBy(r, NameLe)
  {
    StrLeIsTotalPreorder();
    NameLeIsTotalPreorder();
    var r := SortBy(FriendUsers(t, me), NameLe);
    MultisetMembership(r, FriendUsers(t, me));
    r
  }

  lemma NameLeIsTotalPreorder()
    ensures TotalPreorder(NameLe)
  {
    forall a: User, b: User ensures NameLe(a, b) || NameLe(b, a) { StrLeTotal(a.username, b.username); }
    forall a: User, b: User, c: User | NameLe(a, b) && NameLe(b, c) ensures NameLe(a, c) {
      StrLeTrans(a.username, b.username, c.username);
    }
  }

  /** With UNIQUE names the listed friends have strictly increasing names. */
  lemma FriendsStrictlyOrdered(t: Tables, me: int)
    requires ValidTables(t)
    ensures var r := FriendsByName(t, me);
      forall i, j :: 0 <= i < j < |r| ==> r[i].username != r[j].username
  {
    var r := FriendsByName(t, me);
    StrLeIsTotalPreorder();
    NameLeIsTotalPreorder();
    var f := FriendUsers(t, me);
    FilterPairwise(t.users, (u: User) => (me, u.id) in t.friends, DistinctUsers);
    assert multiset(r) == multiset(f);
    forall i, j | 0 <= i < j < |r| ensures r[i].username != r[j].username {
      DistinctAfterPermutation(f, r, i, j);
    }
  }

  /** Two positions of a permutation of a sequence of distinct users hold users with different names. */
  lemma DistinctAfterPermutation(f: seq<User>, r: seq<User>, i: nat, j: nat)
    requires Pairwise(f, DistinctUsers) && multiset(r) == multiset(f) && i < j < |r|
    ensures r[i].username != r[j].username
  {
    if r[i] == r[j] {
      var m := multiset(r[..j]);
      assert r == r[..j] + r[j..];
      assert r[i] in m && r[j] in multiset(r[j..]);
      assert multiset(r)[r[i]] >= 2 by {
        assert multiset(r) == m + multiset(r[j..]);
      }
      CountOnceInDistinct(f, r[i]);
    } else {
      assert r[i] in multiset(f) && r[j] in multiset(f);
      var a :| 0 <= a < |f| && f[a] == r[i];
      var b :| 0 <= b < |f| && f[b] == r[j];
      if a < b { assert DistinctUsers(f[a], f[b]); } else { assert DistinctUsers(f[b], f[a]); }
    }
  }

  /** In a sequence of pairwise distinct users each user occurs at most once. */
  lemma {:induction false} CountOnceInDistinct(f: seq<User>, u: User)
    requires Pairwise(f, DistinctUsers)
    ensures multiset(f)[u] <= 1
  {
    if f != [] {
      assert f == [f[0]] + f[1..];
      assert Pairwise(f[1..], DistinctUsers) by {
        forall i, j | 0 <= i < j < |f[1..]| ensures DistinctUsers(f[1..][i], f[1..][j]) {
          assert DistinctUsers(f[i + 1], f[j + 1]);
        }
      }
      CountOnceInDistinct(f[1..], u);
      if f[0] == u {
        forall k | 0 <= k < |f[1..]| ensures f[1..][k] != u { assert DistinctUsers(f[0], f[k + 1]); }
        assert u !in multiset(f[1..]);
      }
    }
  }

  datatype FriendsData = FriendsData(friends: seq<FriendRow>, incoming: seq<RequestRow>, outgoing: seq<RequestRow>)

  /**
   * `get_friends_data` (and the legacy `/friends/list`): the caller's friends by name and its
   * incoming requests; the outgoing list is always empty.
   */
  method GetFriendsData(db: Db, token: Option<string>) returns (r: Reply<FriendsData>)
    ensures UserByToken(db.users, token).None? ==> r == Fail(InvalidToken)
    ensures UserByToken(db.users, token).Some? ==>
      var me := UserByToken(db.users, token).value.id;
      && r.Success?
      && r.body.friends == MapSeq(FriendsByName(db.State(), me), AsFriendRow)
      && r.body.incoming == MapSeq(IncomingSenders(db.friendRequests, db.users, me), AsRequestRow)
      && r.body.outgoing == []
  {
    var user := UserByToken(db.users, token);
    if user.None? {
      return Fail(InvalidToken);
    }
    var me := user.value.id;
    var friends := AppendEach(FriendsByName(db.State(), me), AsFriendRow);
    var incoming := AppendEach(IncomingSenders(db.friendRequests, db.users, me), AsRequestRow);
    r := Success(FriendsData(friends, incoming, []));
  }

  datatype PendingRow = PendingRow(username: string, discriminator: Option<string>)

  function AsPendingRow(u: User): PendingRow { PendingRow(u.username, u.discriminator) }

  /** `get_friend_requests`: the incoming requests, or a bare error for an unknown token. */
  method GetFriendRequests(db: Db, token: Option<string>) returns (r: Reply<seq<PendingRow>>)
    ensures UserByToken(db.users, token).None? ==> r == Failure(None)
    ensures UserByToken(db.users, token).Some? ==>
      r == Success(MapSeq(IncomingSenders(db.friendRequests, db.users, UserByToken(db.users, token).value.id), AsPendingRow))
  {
    var user := UserByToken(db.users, token);
    if user.None? {
      return Failure(None);
    }
    var rows := AppendEach(IncomingSenders(db.friendRequests, db.users, user.value.id), AsPendingRow);
    r := Success(rows);
  }

  /** The incoming list of `get_friends_data` names each request by "req_" + its sender's name. */
  lemma IncomingIds(t: Tables, me: int)
    ensures var rows := MapSeq(IncomingSenders(t.friendRequests, t.users, me), AsRequestRow);
      forall i :: 0 <= i < |rows| ==>
        && rows[i].id == "req_" + rows[i].username
        && exists u :: u in t.users && u.username == rows[i].username && FriendRequest(u.id, me) in t.friendRequests
  {
    var senders := IncomingSenders(t.friendRequests, t.users, me);
    forall i | 0 <= i < |senders| ensures senders[i] in senders { }
  }

  // ---------------------------------------------------------------------------
  // respond_friend_request and remove_friend
  // ---------------------------------------------------------------------------

  /** The caller and the named sender of `respond`, or the reply that ends the call (a `request_id` alone finds no sender). */
  function RespondCheck(t: Tables, token: Option<string>, senderName: Option<string>): Reply<(User, User)> {
    var me := UserByToken(t.users, token);
    var sender := if Truthy(senderName) then UserByName(t.users, senderName.value) else None;
    if me.None? then Fail(UsersNotFound)
    else if sender.None? then Fail(SenderNotFound)
    else Success((me.value, sender.value))
  }

  /** Without a sender name the call fails and so commits nothing. */
  lemma RespondNeedsSenderName(t: Tables, token: Option<string>)
    ensures RespondCheck(t, token, None).Failure?
  {
  }

  /** With the sender's name the check succeeds exactly when the caller and a user of that name exist. */
  lemma RespondFindsNamedSender(t: Tables, token: Option<string>, name: string)
    requires name != ""
    ensures RespondCheck(t, token, Some(name)).Success?
      <==> UserByToken(t.users, token).Some? && exists i :: 0 <= i < |t.users| && t.users[i].username == name
    ensures RespondCheck(t, token, Some(name)).Success? ==> RespondCheck(t, token, Some(name)).body.1.username == name
  {
    if UserByName(t.users, name).None? {
      assert forall i :: 0 <= i < |t.users| ==> t.users[i].username != name;
    }
  }

  ghost predicate Symmetric(friends: set<(int, int)>) {
    forall a, b :: (a, b) in friends ==> (b, a) in friends
  }

  /** `DELETE FROM friend_requests WHERE sender_id = ? AND receiver_id = ?`. */
  function DeleteRequest(requests: seq<FriendRequest>, from: int, to: int): (r: seq<FriendRequest>)
    ensures forall q :: q in r <==> q in requests && q != FriendRequest(from, to)
  {
    Filter(requests, (q: FriendRequest) => q != FriendRequest(from, to))
  }

  /** The two `INSERT OR IGNORE INTO friends` of an accept. */
  function Befriend(friends: set<(int, int)>, a: int, b: int): set<(int, int)> {
    friends + {(a, b), (b, a)}
  }

  /** The two `DELETE FROM friends` of `remove_friend`. */
  function Unfriend(friends: set<(int, int)>, a: int, b: int): set<(int, int)> {
    friends - {(a, b), (b, a)}
  }

  /** The writes of a passing `respond`: the request from `sender` to `me` goes; on accept both directions are added. */
  function Respond(t: Tables, me: int, sender: int, accept: bool): Tables {
    t.(friendRequests := DeleteRequest(t.friendRequests, sender, me),
       friends := if accept then Befriend(t.friends, me, sender) else t.friends)
  }

  /** Deleting one request keeps the primary key of `friend_requests`; `friends` is a set. */
  lemma RespondValid(t: Tables, me: int, sender: int, accept: bool)
    requires ValidTables(t)
    ensures ValidTables(Respond(t, me, sender, accept))
  {
    FilterPairwise(t.friendRequests, (q: FriendRequest) => q != FriendRequest(sender, me), DistinctRequests);
  }

  /** After an accept the two are friends both ways and the request is gone; a reject leaves the friends alone. */
  lemma RespondEffect(t: Tables, me: int, sender: int, accept: bool)
    ensures var r := Respond(t, me, sender, accept);
      && FriendRequest(sender, me) !in r.friendRequests
      && (forall q :: q in t.friendRequests && q != FriendRequest(sender, me) ==> q in r.friendRequests)
      && (accept ==> (me, sender) in r.friends && (sender, me) in r.friends && t.friends <= r.friends)
      && (!accept ==> r.friends == t.friends)
      && r.users == t.users && r.messages == t.messages && r.servers == t.servers
  {
  }

  /** Responding twice is responding once (the DELETE and the INSERT OR IGNOREs are idempotent). */
  lemma RespondIdempotent(t: Tables, me: int, sender: int, accept: bool)
    ensures Respond(Respond(t, me, sender, accept), me, sender, accept) == Respond(t, me, sender, accept)
  {
    var once := Respond(t, me, sender, accept);
    FilterAll(once.friendRequests, (q: FriendRequest) => q != FriendRequest(sender, me));
  }

  /** Friendship stays symmetric under accept and remove. */
  lemma FriendshipSymmetric(friends: set<(int, int)>, a: int, b: int)
    requires Symmetric(friends)
    ensures Symmetric(Befriend(friends, a, b)) && Symmetric(Unfriend(friends, a, b))
  {
  }

  /** Removing a friendship that an accept created restores the friends table. */
  lemma UnfriendUndoesBefriend(friends: set<(int, int)>, a: int, b: int)
    requires (a, b) !in friends && (b, a) !in friends
    ensures Unfriend(Befriend(friends, a, b), a, b) == friends
  {
  }

  /** Once friends, a new request between them is refused. */
  lemma AcceptBlocksRequest(t: Tables, me: User, sender: User, token: Option<string>, tag: Option<string>)
    requires AddFriendCheck(Respond(t, me.id, sender.id, true), token, tag).Success?
    ensures var (a, b) := AddFriendCheck(Respond(t, me.id, sender.id, true), token, tag).body;
      (a.id, b.id) != (me.id, sender.id) && (a.id, b.id) != (sender.id, me.id)
  {
    AddFriendCheckSound(Respond(t, me.id, sender.id, true), token, tag);
  }

  /**
   * `respond_friend_request`: a passing check deletes the sender's request and, when the action
   * is 'accept', adds both friendship directions; a failing check commits nothing.
   */
  method RespondFriend(db: Db, token: Option<string>, senderName: Option<string>, action: Option<string>)
    returns (r: Reply<string>)
    requires db.Valid()
    modifies db`friendRequests, db`friends
    ensures db.Valid()
    ensures match RespondCheck(old(db.State()), token, senderName)
      case Failure(m) => r == Failure(m) && db.State() == old(db.State())
      case Success((me, sender)) =>
        && r == Success(if action == Some("accept") then Accepted else Rejected)
        && db.State() == Respond(old(db.State()), me.id, sender.id, action == Some("accept"))
  {
    var check := RespondCheck(db.State(), token, senderName);
    match check
    case Failure(m) =>
      r := Failure(m);
    case Success((me, sender)) =>
      var accept := action == Some("accept");
      WriteRespond(db, me.id, sender.id, accept);
      r := Success(if accept then Accepted else Rejected);
  }

  /** The DELETE of the request and, on accept, the two INSERTs, as one commit. */
  method WriteRespond(db: Db, me: int, sender: int, accept: bool)
    requires db.Valid()
    modifies db`friendRequests, db`friends
    ensures db.Valid() && db.State() == Respond(old(db.State()), me, sender, accept)
  {
    ghost var t := db.State();
    RespondValid(t, me, sender, accept);
    db.friendRequests := DeleteRequest(db.friendRequests, sender, me);
    if accept {
      db.friends := Befriend(db.friends, me, sender);
    }
    assert db.State() == Respond(t, me, sender, accept);
  }

  /** The caller and the friend of `remove_friend`: `friend_id` when it is truthy, else `friend_username`. */
  function RemoveCheck(t: Tables, token: Option<string>, friendId: Option<int>, friendName: Option<string>)
    : Reply<(User, User)>
  {
    if !Truthy(token) then Fail(TokenRequired)
    else match UserByToken(t.users, token)
      case None => Fail(InvalidToken)
      case Some(me) =>
        var friend :=
          if friendId.Some? && friendId.value != 0 then UserById(t.users, friendId.value)
          else if Truthy(friendName) then UserByName(t.users, friendName.value)
          else None;
        if friend.None? then Fail(UserNotFound) else Success((me, friend.value))
  }

  /** A truthy `friend_id` decides alone: the name is not consulted even when the id finds nobody. */
  lemma FriendIdFirst(t: Tables, token: Option<string>, id: int, name1: Option<string>, name2: Option<string>)
    requires id != 0
    ensures RemoveCheck(t, token, Some(id), name1) == RemoveCheck(t, token, Some(id), name2)
  {
  }

  /** `remove_friend`: both directions of the friendship go; nothing else changes. */
  method RemoveFriend(db: Db, token: Option<string>, friendId: Option<int>, friendName: Option<string>)
    returns (r: Reply<string>)
    requires db.Valid()
    modifies db`friends
    ensures db.Valid()
    ensures match RemoveCheck(old(db.State()), token, friendId, friendName)
      case Failure(m) => r == Failure(m) && db.friends == old(db.friends)
      case Success((me, friend)) => r == Success(Removed) && db.friends == Unfriend(old(db.friends), me.id, friend.id)
  {
    var check := RemoveCheck(db.State(), token, friendId, friendName);
    match check
    case Failure(m) =>
      r := Failure(m);
    case Success((me, friend)) =>
      db.friends := Unfriend(db.friends, me.id, friend.id);
      r := Success(Removed);
  }

  // ---------------------------------------------------------------------------
  // Direct messages.
  // ---------------------------------------------------------------------------

  /** The checks of `send_dm`: the caller by token, then the receiver by name. */
  function DmCheck(t: Tables, token: string, receiverName: string): Reply<(User, User)> {
    match UserByToken(t.users, Some(token))
    case None => Fail(InvalidToken)
    case Some(sender) =>
      match UserByName(t.users, receiverName)
      case None => Fail(ReceiverNotFound)
      case Some(receiver) => Success((sender, receiver))
  }

  /** `INSERT INTO messages (sender_id, receiver_id, content, timestamp)`: the row takes the next id. */
  function StoreDm(t: Tables, senderId: int, receiverId: int, content: string, now: string): Tables {
    t.(messages := t.messages + [DirectMessage(t.nextMessageId, senderId, receiverId, content, now, None)],
       nextMessageId := t.nextMessageId + 1)
  }

  /** The new id is fresh, so the primary key of `messages` is kept. */
  lemma StoreDmValid(t: Tables, senderId: int, receiverId: int, content: string, now: string)
    requires ValidTables(t)
    ensures ValidTables(StoreDm(t, senderId, receiverId, content, now))
  {
    AppendPairwise(t.messages, DirectMessage(t.nextMessageId, senderId, receiverId, content, now, None), DistinctMessages);
  }

  /** A sent message is the newest row of the conversation between the two. */
  lemma SendDmAppendsToHistory(t: Tables, token: string, receiverName: string, content: string, now: string)
    requires ValidTables(t) && DmCheck(t, token, receiverName).Success?
    ensures var (sender, receiver) := DmCheck(t, token, receiverName).body;
      Conversation(StoreDm(t, sender.id, receiver.id, content, now).messages, t.users, sender.id, receiver.id, None)
        == Conversation(t.messages, t.users, sender.id, receiver.id, None)
           + [DmRow(t.nextMessageId, sender.username, content, now, None)]
  {
    var (sender, receiver) := DmCheck(t, token, receiverName).body;
    SentIsLast(t.messages, t.users, DirectMessage(t.nextMessageId, sender.id, receiver.id, content, now, None), sender);
  }

  /** `send_dm`: the message is stored under the next id and pushed to the receiver's lobby connection. */
  method SendDm(hub: Hub, token: string, receiverName: string, content: string, now: string, pushTime: string)
    returns (r: Reply<()>)
    requires hub.Valid() && hub.db.Valid()
    modifies hub.db`messages, hub.db`nextMessageId, hub`sent
    ensures hub.Valid() && hub.db.Valid()
    ensures match DmCheck(old(hub.db.State()), token, receiverName)
      case Failure(m) => r == Failure(m) && hub.db.State() == old(hub.db.State()) && hub.sent == old(hub.sent)
      case Success((sender, receiver)) =>
        && r == Success(())
        && hub.db.State() == StoreDm(old(hub.db.State()), sender.id, receiver.id, content, now)
        && hub.sent == Pushed(old(hub.sent), hub.lobby, hub.dead, receiverName, DmReceived(sender.username, content, pushTime))
  {
    var check := DmCheck(hub.db.State(), token, receiverName);
    match check
    case Failure(m) =>
      r := Failure(m);
    case Success((sender, receiver)) =>
      DeliverDm(hub, sender, receiver, receiverName, content, now, pushTime);
      r := Success(());
  }

  /** The INSERT and the push of `send_dm`, after the checks pass. */
  method DeliverDm(hub: Hub, sender: User, receiver: User, receiverName: string, content: string, now: string, pushTime: string)
    requires hub.Valid() && hub.db.Valid()
    modifies hub.db`messages, hub.db`nextMessageId, hub`sent
    ensures hub.Valid() && hub.db.Valid()
    ensures hub.db.State() == StoreDm(old(hub.db.State()), sender.id, receiver.id, content, now)
    ensures hub.sent == Pushed(old(hub.sent), hub.lobby, hub.dead, receiverName, DmReceived(sender.username, content, pushTime))
  {
    var db := hub.db;
    ghost var t := db.State();
    StoreDmValid(t, sender.id, receiver.id, content, now);
    var m := DirectMessage(db.nextMessageId, sender.id, receiver.id, content, now, None);
    db.messages, db.nextMessageId := db.messages + [m], db.nextMessageId + 1;
    assert db.State() == StoreDm(t, sender.id, receiver.id, content, now);
    hub.PushTo(receiverName, DmReceived(sender.username, content, pushTime));
  }

  datatype DmRow = DmRow(id: int, sender: string, content: string, timestamp: string, editedAt: Option<string>)

  predicate Between(m: DirectMessage, a: int, b: int) {
    (m.senderId == a && m.receiverId == b) || (m.senderId == b && m.receiverId == a)
  }

  /**
   * The rows of the history query in ascending order, before the LIMIT: messages between the
   * two, below `before` when it is truthy, joined with their sender's name (a message whose
   * sender row is gone drops out of the join).
   */
  function Conversation(messages: seq<DirectMessage>, users: seq<User>, a: int, b: int, before: Option<int>): (r: seq<DmRow>)
    ensures |r| <= |messages|
    ensures forall i :: 0 <= i < |r| ==> (before.Some? && before.value != 0 ==> r[i].id < before.value)
  {
    if messages == [] then []
    else
      var m := messages[|messages| - 1];
      var init := Conversation(messages[..|messages| - 1], users, a, b, before);
      var keep := Between(m, a, b) && !(before.Some? && before.value != 0 && m.id >= before.value);
      match UserById(users, m.senderId)
      case Some(u) => if keep then init + [DmRow(m.id, u.username, m.content, m.timestamp, m.editedAt)] else init
      case None => init
  }

  /** The `TypeError` text of `min(None, 100)`, which the handler's `except` returns. */
  const NullLimitError := "'<' not supported between instances of 'int' and 'NoneType'"

  /**
   * `min(data.get('limit', 50), 100)`: 50 for a missing key, capped at 100; a `null` limit is
   * `None`, which `min` cannot compare, so there is no limit but an exception.
   */
  function HistoryLimit(limit: Field<int>): (n: Option<int>)
    ensures n.None? <==> limit.Null?
    ensures limit.Absent? ==> n == Some(50)
    ensures limit.Present? ==> n == Some(if limit.value < 100 then limit.value else 100)
    ensures n.Some? ==> n.value <= 100
  {
    match limit.Get(50)
    case None => None
    case Some(l) => Some(if l < 100 then l else 100)
  }

  /** `LIMIT n`: SQLite treats a negative limit as no limit. */
  function Limit<T>(s: seq<T>, n: int): (r: seq<T>)
    ensures n >= 0 ==> r == FirstN(s, n)
    ensures n < 0 ==> r == s
  {
    if n < 0 then s else FirstN(s, n)
  }

  /**
   * `get_dm_history`: `ORDER BY timestamp DESC LIMIT n` (timestamps taken in id order), then
   * `messages.reverse()`. The limit is computed first, so a `null` limit fails before any
   * lookup, with the exception's text; an unknown caller or partner gives a bare error.
   */
  method GetDmHistory(db: Db, token: Option<string>, otherName: Option<string>, before: Option<int>, limit: Field<int>)
    returns (r: Reply<seq<DmRow>>)
    ensures limit.Null? ==> r == Fail(NullLimitError)
    ensures !limit.Null? ==>
      var me := UserByToken(db.users, token);
      var other := if otherName.Some? then UserByName(db.users, otherName.value) else None;
      if me.None? || other.None? then r == Failure(None)
      else r == Success(Reverse(Limit(Reverse(Conversation(db.messages, db.users, me.value.id, other.value.id, before)),
                                      HistoryLimit(limit).value)))
  {
    var n := HistoryLimit(limit);
    if n.None? {
      return Fail(NullLimitError);
    }
    var me := UserByToken(db.users, token);
    if me.None? {
      return Failure(None);
    }
    var other := if otherName.Some? then UserByName(db.users, otherName.value) else None;
    if other.None? {
      return Failure(None);
    }
    var rows := Limit(Reverse(Conversation(db.messages, db.users, me.value.id, other.value.id, before)), n.value);
    var messages := AppendEach(rows, (x: DmRow) => x);
    assert messages == rows;
    r := Success(Reverse(messages));
  }

  /** The history is the newest `n` rows of the conversation, oldest first (all of them for a negative `n`). */
  lemma HistoryIsNewest(rows: seq<DmRow>, n: int)
    ensures n >= 0 ==> Reverse(Limit(Reverse(rows), n)) == LastN(rows, n)
    ensures n < 0 ==> Reverse(Limit(Reverse(rows), n)) == rows
  {
    if n >= 0 {
      NewestFirstReversed(rows, n);
    } else {
      ReverseReverse(rows);
    }
  }

  lemma ReverseReverse<T>(s: seq<T>)
    ensures Reverse(Reverse(s)) == s
  {
  }

  /** A message just sent is the last row of the conversation, after the earlier ones. */
  lemma SentIsLast(messages: seq<DirectMessage>, users: seq<User>, m: DirectMessage, sender: User)
    requires sender in users && sender.id == m.senderId && Pairwise(users, DistinctUsers)
    ensures Conversation(messages + [m], users, m.senderId, m.receiverId, None)
      == Conversation(messages, users, m.senderId, m.receiverId, None) + [DmRow(m.id, sender.username, m.content, m.timestamp, m.editedAt)]
  {
    var u := UserById(users, m.senderId);
    var k :| 0 <= k < |users| && users[k] == sender;
    var j :| 0 <= j < |users| && users[j] == u.value;
    UserNameUnique(users, j, k);
    assert (messages + [m])[..|messages|] == messages;
  }

  /** `SELECT sender_id FROM messages WHERE id = ?`: a NULL id matches nothing. */
  function MessageById(messages: seq<DirectMessage>, id: Option<int>): (r: Option<DirectMessage>)
    ensures r.Some? ==> r.value in messages && id == Some(r.value.id)
    ensures r.None? <==> id.None? || forall i :: 0 <= i < |messages| ==> messages[i].id != id.value
  {
    if id.None? then None else FindFirst(messages, (m: DirectMessage) => m.id == id.value)
  }

  /** The caller of an edit or a delete, provided it sent the message; otherwise the reply. */
  function OwnDmCheck(t: Tables, token: Option<string>, id: Option<int>): (r: Reply<DirectMessage>)
    ensures r.Success? <==> UserByToken(t.users, token).Some? && MessageById(t.messages, id).Some?
                            && MessageById(t.messages, id).value.senderId == UserByToken(t.users, token).value.id
    ensures r.Success? ==> r.body == MessageById(t.messages, id).value
  {
    match UserByToken(t.users, token)
    case None => Fail(InvalidToken)
    case Some(user) =>
      match MessageById(t.messages, id)
      case None => Fail(Unauthorized)
      case Some(m) => if m.senderId != user.id then Fail(Unauthorized) else Success(m)
  }

  /** `UPDATE messages SET content = ?, edited_at = ? WHERE id = ?`. */
  function EditMessage(messages: seq<DirectMessage>, id: int, content: string, now: string): (r: seq<DirectMessage>)
    ensures |r| == |messages|
    ensures forall i :: 0 <= i < |r| ==>
      r[i] == if messages[i].id == id then messages[i].(content := content, editedAt := Some(now)) else messages[i]
  {
    MapSeq(messages, (m: DirectMessage) => if m.id == id then m.(content := content, editedAt := Some(now)) else m)
  }

  /** `DELETE FROM messages WHERE id = ?`. */
  function DeleteMessage(messages: seq<DirectMessage>, id: int): (r: seq<DirectMessage>)
    ensures forall m :: m in r <==> m in messages && m.id != id
  {
    Filter(messages, (m: DirectMessage) => m.id != id)
  }

  /** Editing keeps every id, so the primary key of `messages` is kept. */
  lemma EditMessageValid(t: Tables, id: int, content: string, now: string)
    requires ValidTables(t)
    ensures ValidTables(t.(messages := EditMessage(t.messages, id, content, now)))
  {
    var edited := EditMessage(t.messages, id, content, now);
    forall i, j | 0 <= i < j < |edited| ensures DistinctMessages(edited[i], edited[j]) {
      assert DistinctMessages(t.messages[i], t.messages[j]);
    }
  }

  /** Deleting rows keeps the primary key of `messages`. */
  lemma DeleteMessageValid(t: Tables, id: int)
    requires ValidTables(t)
    ensures ValidTables(t.(messages := DeleteMessage(t.messages, id)))
  {
    var kept := DeleteMessage(t.messages, id);
    FilterPairwise(t.messages, (m: DirectMessage) => m.id != id, DistinctMessages);
    assert forall i :: 0 <= i < |kept| ==> kept[i] in t.messages;
  }

  /** After a delete the message is gone, so the same delete again is refused. */
  lemma DeleteTwiceUnauthorized(t: Tables, token: Option<string>, id: int)
    requires UserByToken(t.users, token).Some?
    ensures OwnDmCheck(t.(messages := DeleteMessage(t.messages, id)), token, Some(id)) == Fail(Unauthorized)
  {
    var r := DeleteMessage(t.messages, id);
    assert forall i :: 0 <= i < |r| ==> r[i] in r;
  }

  /** `edit_dm`: only the sender changes only that message's text and edit time. */
  method EditDm(db: Db, token: Option<string>, id: Option<int>, content: Option<string>, now: string)
    returns (r: Reply<()>)
    requires db.Valid()
    modifies db`messages
    ensures db.Valid()
    ensures match OwnDmCheck(old(db.State()), token, id)
      case Failure(m) => r == Failure(m) && db.messages == old(db.messages)
      case Success(msg) =>
        if content.None? then r == Fail(ContentNull) && db.messages == old(db.messages)
        else r == Success(()) && db.messages == EditMessage(old(db.messages), msg.id, content.value, now)
  {
    var check := OwnDmCheck(db.State(), token, id);
    match check
    case Failure(m) =>
      r := Failure(m);
    case Success(msg) =>
      if content.None? {
        return Fail(ContentNull);
      }
      ghost var t := db.State();
      EditMessageValid(t, msg.id, content.value, now);
      var edited := EditMessage(db.messages, msg.id, content.value, now);
      db.messages := edited;
      assert db.State() == t.(messages := edited);
      r := Success(());
  }

  /** `delete_dm`: only the sender removes only that message. */
  method DeleteDm(db: Db, token: Option<string>, id: Option<int>) returns (r: Reply<()>)
    requires db.Valid()
    modifies db`messages
    ensures db.Valid()
    ensures match OwnDmCheck(old(db.State()), token, id)
      case Failure(m) => r == Failure(m) && db.messages == old(db.messages)
      case Success(msg) => r == Success(()) && db.messages == DeleteMessage(old(db.messages), msg.id)
  {
    var check := OwnDmCheck(db.State(), token, id);
    match check
    case Failure(m) =>
      r := Failure(m);
    case Success(msg) =>
      ghost var t := db.State();
      DeleteMessageValid(t, msg.id);
      db.messages := DeleteMessage(db.messages, msg.id);
      assert db.State() == t.(messages := DeleteMessage(t.messages, msg.id));
      r := Success(());
  }
}
