/**
 * The profile endpoints (SafeZone-Server/routers/user.py): the conditional update of the
 * display name and avatar colour, and the name and URL an uploaded avatar gets. The file
 * write itself and `uuid.uuid4()` are outside the model; the uuid's hex text is a parameter.
 */
module Profile {
  import opened Common
  import opened Store

  const TokenRequired := "Token required"
  /** What the reply shows for a user whose stored colour is NULL or empty. */
  const DefaultAvatarColor := "#5865F2"
  const UploadsPrefix := "/uploads/"

  /** The `user` object `update_profile` replies with. */
  datatype ProfileView = ProfileView(username: string, displayName: string, avatarColor: string, avatarUrl: Option<string>)

  function View(u: User): (v: ProfileView)
    ensures v.username == u.username && v.displayName == u.displayName && v.avatarUrl == u.avatarUrl
    ensures Truthy(u.avatarColor) ==> v.avatarColor == u.avatarColor.value
    ensures !Truthy(u.avatarColor) ==> v.avatarColor == DefaultAvatarColor
  {
    ProfileView(u.username, u.displayName, OrDefault(u.avatarColor, DefaultAvatarColor), u.avatarUrl)
  }

  // ---------------------------------------------------------------------------
  // update_profile.
  // ---------------------------------------------------------------------------

  /** The checks of `update_profile`: a token at all, before any lookup, then a user holding it. */
  function ProfileCheck(users: seq<User>, token: Option<string>): Reply<User> {
    if !Truthy(token) then Fail(TokenRequired)
    else
      match UserByToken(users, token)
      case None => Fail(InvalidToken)
      case Some(user) => Success(user)
  }

  function WithDisplayName(name: string): User -> User {
    (u: User) => u.(displayName := name)
  }

  function WithAvatarColor(color: string): User -> User {
    (u: User) => u.(avatarColor := Some(color))
  }

  /** Both conditional UPDATEs as one change of the row: an empty or missing value leaves that field alone. */
  function Edit(displayName: Option<string>, avatarColor: Option<string>): User -> User {
    (u: User) =>
      u.(displayName := if Truthy(displayName) then displayName.value else u.displayName,
         avatarColor := if Truthy(avatarColor) then avatarColor else u.avatarColor)
  }

  /** Only the two named fields can change, each only when a non-empty value is given. */
  lemma EditFrame(u: User, displayName: Option<string>, avatarColor: Option<string>)
    ensures var e := Edit(displayName, avatarColor)(u);
      && e == u.(displayName := e.displayName, avatarColor := e.avatarColor)
      && (e.displayName != u.displayName ==> Truthy(displayName) && e.displayName == displayName.value)
      && (e.avatarColor != u.avatarColor ==> Truthy(avatarColor) && e.avatarColor == avatarColor)
      && (!Truthy(displayName) && !Truthy(avatarColor) ==> e == u)
  {
  }

  /** `if new_display_name: UPDATE users SET display_name = ? WHERE id = ?`. */
  function EditName(users: seq<User>, id: int, displayName: Option<string>): seq<User> {
    if Truthy(displayName) then UpdateUser(users, id, WithDisplayName(displayName.value)) else users
  }

  /** `if new_color: UPDATE users SET avatar_color = ? WHERE id = ?`. */
  function EditColor(users: seq<User>, id: int, avatarColor: Option<string>): seq<User> {
    if Truthy(avatarColor) then UpdateUser(users, id, WithAvatarColor(avatarColor.value)) else users
  }

  /** The two conditional UPDATEs in a row are one update of the row by `Edit`. */
  lemma EditsCompose(users: seq<User>, id: int, displayName: Option<string>, avatarColor: Option<string>)
    ensures EditColor(EditName(users, id, displayName), id, avatarColor) == UpdateUser(users, id, Edit(displayName, avatarColor))
  {
    var a := EditColor(EditName(users, id, displayName), id, avatarColor);
    var b := UpdateUser(users, id, Edit(displayName, avatarColor));
    var mid := EditName(users, id, displayName);
    assert |mid| == |users|;
    forall i | 0 <= i < |users| ensures a[i] == b[i] {
      assert mid[i].id == users[i].id;
    }
  }

  /** The row re-read after the update by its id is the edited row. */
  lemma RefetchEdited(t: Tables, user: User, f: User -> User)
    requires ValidTables(t) && user in t.users
    requires forall u :: f(u).id == u.id
    ensures UserById(UpdateUser(t.users, user.id, f), user.id) == Some(f(user))
  {
    var r := UpdateUser(t.users, user.id, f);
    var k :| 0 <= k < |t.users| && t.users[k] == user;
    assert r[k] == f(user);
    var found := UserById(r, user.id).value;
    var j :| 0 <= j < |r| && r[j] == found;
    UserNameUnique(t.users, j, k);
  }

  /** `update_profile`: the two conditional UPDATEs, then the re-read row as the reply. */
  method UpdateProfile(db: Db, token: Option<string>, displayName: Option<string>, avatarColor: Option<string>)
    returns (r: Reply<ProfileView>)
    requires db.Valid()
    modifies db`users
    ensures db.Valid()
    ensures match ProfileCheck(old(db.users), token)
      case Failure(m) => r == Failure(m) && db.users == old(db.users)
      case Success(user) =>
        && db.State() == old(db.State()).(users := UpdateUser(old(db.users), user.id, Edit(displayName, avatarColor)))
        && r == Success(View(Edit(displayName, avatarColor)(user)))
  {
    var check := ProfileCheck(db.users, token);
    if check.Failure? {
      return Failure(check.message);
    }
    var user := check.body;
    ghost var t := db.State();
    ApplyEdits(db, user, displayName, avatarColor);
    RefetchEdited(t, user, Edit(displayName, avatarColor));
    var updated := UserById(db.users, user.id);
    r := Success(View(updated.value));
  }

  /** The two conditional UPDATEs of `update_profile`, in their order. */
  method ApplyEdits(db: Db, user: User, displayName: Option<string>, avatarColor: Option<string>)
    requires db.Valid()
    modifies db`users
    ensures db.Valid()
    ensures db.State() == old(db.State()).(users := UpdateUser(old(db.users), user.id, Edit(displayName, avatarColor)))
  {
    ghost var t := db.State();
    if Truthy(displayName) {
      db.users := UpdateUser(db.users, user.id, WithDisplayName(displayName.value));
    }
    if Truthy(avatarColor) {
      db.users := UpdateUser(db.users, user.id, WithAvatarColor(avatarColor.value));
    }
    assert db.users == EditColor(EditName(t.users, user.id, displayName), user.id, avatarColor);
    EditsCompose(t.users, user.id, displayName, avatarColor);
    UpdateUserValid(t, user.id, Edit(displayName, avatarColor));
  }

  // ---------------------------------------------------------------------------
  // upload_avatar: the stored name and URL.
  // ---------------------------------------------------------------------------

  /** `f"{user['id']}_{uuid.uuid4().hex[:8]}.{file_ext}"`, with `file_ext = file.filename.split('.')[-1]`. */
  function AvatarFileName(userId: int, uuidHex: string, uploadName: string): string {
    IntToString(userId) + "_" + FirstN(uuidHex, 8) + "." + AfterLast(uploadName, '.')
  }

  function AvatarUrl(fileName: string): string {
    UploadsPrefix + fileName
  }

  /**
   * The stored URL is "/uploads/<id>_<8 hex>.<ext>": it names the directory, starts the file
   * name with the owner's id, and its own last extension is the uploaded file's.
   */
  lemma AvatarUrlShape(userId: int, uuidHex: string, uploadName: string)
    requires |uuidHex| >= 8
    ensures var url := AvatarUrl(AvatarFileName(userId, uuidHex, uploadName));
      && StartsWith(url, UploadsPrefix + (IntToString(userId) + "_"))
      && AfterLast(url, '.') == AfterLast(uploadName, '.')
      && url[|UploadsPrefix| + |IntToString(userId) + "_"|..][..8] == FirstN(uuidHex, 8)
  {
    DottedNameShape(UploadsPrefix, IntToString(userId) + "_", FirstN(uuidHex, 8), AfterLast(uploadName, '.'));
  }

  /** The checks of `upload_avatar`: a user holding the token; then that user's id and the new URL. */
  function AvatarCheck(users: seq<User>, token: string, uuidHex: string, uploadName: string): Reply<(int, string)> {
    match UserByToken(users, Some(token))
    case None => Fail(InvalidToken)
    case Some(user) => Success((user.id, AvatarUrl(AvatarFileName(user.id, uuidHex, uploadName))))
  }

  function WithAvatarUrl(url: string): User -> User {
    (u: User) => u.(avatarUrl := Some(url))
  }

  /** `upload_avatar`: stores the URL on the user's row and replies with it. */
  method UploadAvatar(db: Db, token: string, uuidHex: string, uploadName: string) returns (r: Reply<string>)
    requires db.Valid()
    modifies db`users
    ensures db.Valid()
    ensures match AvatarCheck(old(db.users), token, uuidHex, uploadName)
      case Failure(m) => r == Failure(m) && db.users == old(db.users)
      case Success((id, url)) => r == Success(url) && db.State() == old(db.State()).(users := UpdateUser(old(db.users), id, WithAvatarUrl(url)))
  {
    var found := UserByToken(db.users, Some(token));
    if found.None? {
      return Fail(InvalidToken);
    }
    var url := AvatarUrl(AvatarFileName(found.value.id, uuidHex, uploadName));
    var stored := StoreAvatarUrl(db, found.value, url);
    r := Success(stored);
  }

  /** The UPDATE of `avatar_url` and the re-read of it. */
  method StoreAvatarUrl(db: Db, user: User, url: string) returns (stored: string)
    requires db.Valid() && user in db.users
    modifies db`users
    ensures db.Valid() && stored == url
    ensures db.State() == old(db.State()).(users := UpdateUser(old(db.users), user.id, WithAvatarUrl(url)))
  {
    ghost var t := db.State();
    UpdateUserValid(t, user.id, WithAvatarUrl(url));
    db.users := UpdateUser(db.users, user.id, WithAvatarUrl(url));
    RefetchEdited(t, user, WithAvatarUrl(url));
    var updated := UserById(db.users, user.id);
    stored := updated.value.avatarUrl.value;
  }
}
