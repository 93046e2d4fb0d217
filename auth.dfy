/**
 * The account endpoints (SafeZone-Server/routers/auth.py): registration with a Discord-style
 * four-digit discriminator, login with a fresh token, token verification and the
 * recovery-PIN password reset. Hashing, `secrets` and `random` are parameters: the hash to
 * store, the password check, the new token and the candidate numbers.
 */
module Auth {
  import opened Common
  import opened Store

  const TooPopular := "Bu kullan\U{131}c\U{131} ad\U{131} \U{E7}ok pop\U{FC}ler, ba\U{15F}ka bir isim deneyin."
  const DuplicateUsername := "Server Error: UNIQUE constraint failed: users.username"
  const BadCredentials := "Kullan\U{131}c\U{131} ad\U{131} veya \U{15F}ifre hatal\U{131}."
  const NoToken := "No token"
  const UnknownUser := "Kullan\U{131}c\U{131} bulunamad\U{131}."
  const WrongPin := "Kurtarma PIN kodu hatal\U{131}!"
  const PasswordChanged := "\U{15E}ifre ba\U{15F}ar\U{131}yla de\U{11F}i\U{15F}tirildi. \U{15E}imdi giri\U{15F} yapabilirsin."
  /** What `or '0001'` reports for a user without a discriminator, also the column's default. */
  const DefaultDiscriminator := "0001"
  /** The column defaults of `avatar_color` and `status` that a new row receives. */
  const DefaultAvatarColor := "#5865F2"
  const DefaultStatus := "online"
  /** `for attempt in range(100)`. */
  const Attempts := 100

  // ---------------------------------------------------------------------------
  // Discriminators: `str(random.randint(1, 9999)).zfill(4)`.
  // ---------------------------------------------------------------------------

  function Zeros(n: nat): (r: string)
    ensures |r| == n && forall i :: 0 <= i < n ==> r[i] == '0'
  {
    if n == 0 then "" else "0" + Zeros(n - 1)
  }

  /** Python's `s.zfill(width)` for a text without a sign. */
  function ZFill(s: string, width: nat): (r: string)
    ensures |r| == if |s| < width then width else |s|
  {
    if |s| < width then Zeros(width - |s|) + s else s
  }

  function Pow10(k: nat): nat {
    if k == 0 then 1 else 10 * Pow10(k - 1)
  }

  /** A number below 10^k has at most k decimal digits. */
  lemma {:induction false} NatToStringShort(n: nat, k: nat)
    requires 1 <= k && n < Pow10(k)
    ensures |NatToString(n)| <= k
    decreases k
  {
    if n >= 10 {
      assert Pow10(1) == 10;
      assert k >= 2;
      assert n / 10 < Pow10(k - 1);
      NatToStringShort(n / 10, k - 1);
    }
  }

  /** Leading zeros do not change the value of a digit string. */
  lemma {:induction false} LeadingZerosValue(z: nat, s: string)
    requires forall i :: 0 <= i < |s| ==> '0' <= s[i] <= '9'
    ensures DigitsValue(Zeros(z) + s) == DigitsValue(s)
    decreases |s|
  {
    var w := Zeros(z) + s;
    if s == [] {
      assert w == Zeros(z);
      ZerosValue(z);
    } else {
      assert w[..|w| - 1] == Zeros(z) + s[..|s| - 1];
      LeadingZerosValue(z, s[..|s| - 1]);
    }
  }

  lemma {:induction false} ZerosValue(z: nat)
    ensures DigitsValue(Zeros(z)) == 0
  {
    if z > 0 {
      var w := Zeros(z);
      assert w[..|w| - 1] == Zeros(z - 1) by {
        assert w == Zeros(z - 1) + "0" by { ZerosSnoc(z); }
      }
      ZerosValue(z - 1);
    }
  }

  lemma ZerosSnoc(z: nat)
    requires z > 0
    ensures Zeros(z) == Zeros(z - 1) + "0"
  {
  }

  /** A candidate discriminator: four digits. */
  function Pad4(n: nat): (r: string)
    requires 1 <= n <= 9999
    ensures |r| == 4 && forall i :: 0 <= i < 4 ==> '0' <= r[i] <= '9'
  {
    NatToStringShort(n, 4);
    ZFill(NatToString(n), 4)
  }

  /** The four digits read back as the number drawn, so distinct draws give distinct candidates. */
  lemma Pad4Value(n: nat)
    requires 1 <= n <= 9999
    ensures DigitsValue(Pad4(n)) == n
  {
    NatToStringShort(n, 4);
    NatToStringValue(n);
    var s := NatToString(n);
    LeadingZerosValue(4 - |s|, s);
  }

  lemma Pad4Injective(m: nat, n: nat)
    requires 1 <= m <= 9999 && 1 <= n <= 9999 && Pad4(m) == Pad4(n)
    ensures m == n
  {
    Pad4Value(m);
    Pad4Value(n);
  }

  predicate Drawn(candidates: seq<int>) {
    forall i :: 0 <= i < |candidates| ==> 1 <= candidates[i] <= 9999
  }

  /** `SELECT discriminator FROM users WHERE username = ?` as a set. */
  function DiscriminatorsOf(users: seq<User>, username: string): (r: set<Option<string>>)
    ensures forall d :: d in r <==> exists i :: 0 <= i < |users| && users[i].username == username && users[i].discriminator == d
  {
    set i | 0 <= i < |users| && users[i].username == username :: users[i].discriminator
  }

  /** The first candidate, in drawing order, that no user of that name carries. */
  function FirstFree(existing: set<Option<string>>, candidates: seq<int>): (r: Option<string>)
    requires Drawn(candidates)
    ensures r.Some? ==> Some(r.value) !in existing && exists i :: 0 <= i < |candidates| && r.value == Pad4(candidates[i])
    ensures r.None? <==> forall i :: 0 <= i < |candidates| ==> Some(Pad4(candidates[i])) in existing
  {
    if candidates == [] then None
    else if Some(Pad4(candidates[0])) !in existing then Some(Pad4(candidates[0]))
    else
      var r := FirstFree(existing, candidates[1..]);
      assert forall i :: 1 <= i < |candidates| ==> candidates[i] == candidates[1..][i - 1];
      r
  }

  /** The retry loop of `register`: stops at the first candidate that is free. */
  method ChooseDiscriminator(existing: set<Option<string>>, candidates: seq<int>) returns (d: Option<string>)
    requires Drawn(candidates)
    ensures d == FirstFree(existing, candidates)
  {
    d := None;
    var i := 0;
    while i < |candidates|
      invariant 0 <= i <= |candidates|
      invariant FirstFree(existing, candidates) == FirstFree(existing, candidates[i..])
    {
      var candidate := Pad4(candidates[i]);
      if Some(candidate) !in existing {
        d := Some(candidate);
        break;
      }
      assert candidates[i..][1..] == candidates[i + 1..];
      i := i + 1;
    }
  }

  // ---------------------------------------------------------------------------
  // register.
  // ---------------------------------------------------------------------------

  datatype Registered = Registered(token: string, username: string, displayName: string, discriminator: string)

  /** The discriminator `register` settles on, or why it stops: every draw taken, or the name already taken. */
  function RegisterCheck(t: Tables, username: string, candidates: seq<int>): Reply<string>
    requires Drawn(candidates)
  {
    match FirstFree(DiscriminatorsOf(t.users, username), candidates)
    case None => Fail(TooPopular)
    case Some(d) => if UserByName(t.users, username).Some? then Fail(DuplicateUsername) else Success(d)
  }

  /** The row `INSERT INTO users` creates, with the column defaults. */
  function NewUser(id: int, username: string, passwordHash: string, displayName: string, token: string,
                   recoveryPin: string, discriminator: string): User {
    User(id, username, passwordHash, displayName, Some(token), Some(recoveryPin), Some(discriminator),
         Some(DefaultAvatarColor), None, Some(DefaultStatus), false)
  }

  function AddUser(t: Tables, u: User): Tables {
    t.(users := t.users + [u], nextUserId := t.nextUserId + 1)
  }

  lemma AddUserValid(t: Tables, u: User)
    requires ValidTables(t) && u.id == t.nextUserId && UserByName(t.users, u.username).None?
    ensures ValidTables(AddUser(t, u))
  {
    AppendPairwise(t.users, u, DistinctUsers);
  }

  /** A registration picks a discriminator no user of that name has, drawn from the candidates. */
  lemma RegisterPicksFree(t: Tables, username: string, candidates: seq<int>)
    requires Drawn(candidates) && RegisterCheck(t, username, candidates).Success?
    ensures var d := RegisterCheck(t, username, candidates).body;
      && |d| == 4
      && (forall i :: 0 <= i < |t.users| && t.users[i].username == username ==> t.users[i].discriminator != Some(d))
      && exists i :: 0 <= i < |candidates| && d == Pad4(candidates[i])
  {
  }

  /** Registration fails as too popular exactly when every draw collides. */
  lemma RegisterAllCollide(t: Tables, username: string, candidates: seq<int>)
    requires Drawn(candidates)
    ensures RegisterCheck(t, username, candidates) == Fail(TooPopular) <==>
      forall i :: 0 <= i < |candidates| ==> Some(Pad4(candidates[i])) in DiscriminatorsOf(t.users, username)
  {
  }

  /** A taken name is never registered twice: the schema's UNIQUE username refuses the INSERT. */
  lemma RegisterTakenName(t: Tables, username: string, candidates: seq<int>)
    requires Drawn(candidates) && UserByName(t.users, username).Some?
    ensures RegisterCheck(t, username, candidates).Failure?
  {
  }

  /** A freshly registered user logs in with exactly the passwords that match the stored hash. */
  lemma RegisterThenLogin(t: Tables, u: User, password: string, checkpw: (string, string) -> bool)
    requires UserByName(t.users, u.username).None?
    ensures LoginCheck(AddUser(t, u), u.username, password, checkpw).Success? <==> checkpw(password, u.passwordHash)
    ensures LoginCheck(AddUser(t, u), u.username, password, checkpw).Success? ==> LoginCheck(AddUser(t, u), u.username, password, checkpw).body == u
  {
    var r := AddUser(t, u).users;
    assert r[|t.users|] == u;
    var found := UserByName(r, u.username).value;
    var j :| 0 <= j < |r| && r[j] == found;
    assert j == |t.users|;
  }

  /** `register`: inserts one user under a free discriminator, or nothing. */
  method Register(db: Db, username: string, passwordHash: string, displayName: string, recoveryPin: string,
                  candidates: seq<int>, token: string) returns (r: Reply<Registered>)
    requires db.Valid() && |candidates| == Attempts && Drawn(candidates)
    modifies db`users, db`nextUserId
    ensures db.Valid()
    ensures match RegisterCheck(old(db.State()), username, candidates)
      case Failure(m) => r == Failure(m) && db.users == old(db.users) && db.nextUserId == old(db.nextUserId)
      case Success(d) =>
        && r == Success(Registered(token, username, displayName, d))
        && db.State() == AddUser(old(db.State()), NewUser(old(db.nextUserId), username, passwordHash, displayName, token, recoveryPin, d))
  {
    var existing := DiscriminatorsOf(db.users, username);
    var d := ChooseDiscriminator(existing, candidates);
    if d.None? {
      return Fail(TooPopular);
    }
    if UserByName(db.users, username).Some? {
      return Fail(DuplicateUsername);
    }
    ghost var t := db.State();
    var u := NewUser(db.nextUserId, username, passwordHash, displayName, token, recoveryPin, d.value);
    AddUserValid(t, u);
    db.users := db.users + [u];
    db.nextUserId := db.nextUserId + 1;
    assert db.State() == AddUser(t, u);
    r := Success(Registered(token, username, displayName, d.value));
  }

  // ---------------------------------------------------------------------------
  // login.
  // ---------------------------------------------------------------------------

  datatype Session = Session(token: string, username: string, displayName: string, discriminator: string)

  /** The checks of `login`: the name, then `bcrypt.checkpw` against the stored hash. */
  function LoginCheck(t: Tables, username: string, password: string, checkpw: (string, string) -> bool): Reply<User> {
    match UserByName(t.users, username)
    case None => Fail(BadCredentials)
    case Some(user) => if !checkpw(password, user.passwordHash) then Fail(BadCredentials) else Success(user)
  }

  /** An unknown name and a wrong password give the same reply; only the stored hash lets one in. */
  lemma LoginSameError(t: Tables, username: string, password: string, checkpw: (string, string) -> bool)
    ensures LoginCheck(t, username, password, checkpw).Failure? ==> LoginCheck(t, username, password, checkpw) == Fail(BadCredentials)
    ensures LoginCheck(t, username, password, checkpw).Success? <==>
      UserByName(t.users, username).Some? && checkpw(password, UserByName(t.users, username).value.passwordHash)
  {
  }

  function WithToken(token: string): User -> User {
    (u: User) => u.(token := Some(token))
  }

  /** `login`: stores a fresh token for the user and reports it. */
  method Login(db: Db, username: string, password: string, checkpw: (string, string) -> bool, newToken: string)
    returns (r: Reply<Session>)
    requires db.Valid()
    modifies db`users
    ensures db.Valid()
    ensures match LoginCheck(old(db.State()), username, password, checkpw)
      case Failure(m) => r == Failure(m) && db.users == old(db.users)
      case Success(user) =>
        && r == Success(Session(newToken, user.username, user.displayName, OrDefault(user.discriminator, DefaultDiscriminator)))
        && db.State() == old(db.State()).(users := UpdateUser(old(db.users), user.id, WithToken(newToken)))
  {
    var check := LoginCheck(db.State(), username, password, checkpw);
    if check.Failure? {
      return Failure(check.message);
    }
    var user := check.body;
    ghost var t := db.State();
    UpdateUserValid(t, user.id, WithToken(newToken));
    db.users := UpdateUser(db.users, user.id, WithToken(newToken));
    r := Success(Session(newToken, user.username, user.displayName, OrDefault(user.discriminator, DefaultDiscriminator)));
  }

  // ---------------------------------------------------------------------------
  // verify.
  // ---------------------------------------------------------------------------

  datatype Identity = Identity(username: string, displayName: string, discriminator: string)

  /** `verify_token`: no token is an error; otherwise it succeeds exactly when some user holds it. */
  function Verify(users: seq<User>, token: Option<string>): (r: Reply<Identity>)
    ensures r == Fail(NoToken) <==> !Truthy(token)
    ensures r.Success? <==> Truthy(token) && exists i :: 0 <= i < |users| && users[i].token == token
    ensures r.Success? ==> exists i :: (0 <= i < |users| && users[i].token == token
      && r.body == Identity(users[i].username, users[i].displayName, OrDefault(users[i].discriminator, DefaultDiscriminator)))
  {
    if !Truthy(token) then Fail(NoToken)
    else
      match UserByToken(users, token)
      case None => Fail(InvalidToken)
      case Some(user) => Success(Identity(user.username, user.displayName, OrDefault(user.discriminator, DefaultDiscriminator)))
  }

  /** The token a login hands out verifies as that user, when no other user holds it. */
  lemma LoginThenVerify(t: Tables, user: User, newToken: string)
    requires ValidTables(t) && user in t.users && newToken != ""
    requires forall i :: 0 <= i < |t.users| ==> t.users[i].token != Some(newToken)
    ensures Verify(UpdateUser(t.users, user.id, WithToken(newToken)), Some(newToken))
      == Success(Identity(user.username, user.displayName, OrDefault(user.discriminator, DefaultDiscriminator)))
  {
    var r := UpdateUser(t.users, user.id, WithToken(newToken));
    var k :| 0 <= k < |t.users| && t.users[k] == user;
    assert r[k].token == Some(newToken);
    var found := UserByToken(r, Some(newToken)).value;
    var j :| 0 <= j < |r| && r[j] == found;
    assert t.users[j].id == user.id;
    UserNameUnique(t.users, j, k);
  }

  /** A registered user's token verifies as that user, when no other user holds it. */
  lemma RegisterThenVerify(t: Tables, u: User, token: string)
    requires u.token == Some(token) && token != ""
    requires forall i :: 0 <= i < |t.users| ==> t.users[i].token != Some(token)
    ensures Verify(AddUser(t, u).users, Some(token)) == Success(Identity(u.username, u.displayName, OrDefault(u.discriminator, DefaultDiscriminator)))
  {
    var r := AddUser(t, u).users;
    assert r[|t.users|] == u;
    var found := UserByToken(r, Some(token)).value;
    var j :| 0 <= j < |r| && r[j] == found;
    assert j == |t.users|;
  }

  // ---------------------------------------------------------------------------
  // reset.
  // ---------------------------------------------------------------------------

  /** The checks of `reset_password`: the name, then the stored recovery PIN. */
  function ResetCheck(t: Tables, username: string, recoveryPin: string): Reply<User> {
    match UserByName(t.users, username)
    case None => Fail(UnknownUser)
    case Some(user) => if user.recoveryPin != Some(recoveryPin) then Fail(WrongPin) else Success(user)
  }

  /** Only the holder of the stored PIN gets through. */
  lemma ResetNeedsPin(t: Tables, username: string, recoveryPin: string)
    ensures ResetCheck(t, username, recoveryPin).Success? <==>
      UserByName(t.users, username).Some? && UserByName(t.users, username).value.recoveryPin == Some(recoveryPin)
    ensures ResetCheck(t, username, recoveryPin).Failure? ==>
      ResetCheck(t, username, recoveryPin) == Fail(if UserByName(t.users, username).None? then UnknownUser else WrongPin)
  {
  }

  function WithHash(passwordHash: string): User -> User {
    (u: User) => u.(passwordHash := passwordHash)
  }

  /** `reset_password`: a new hash for the user, or nothing changes. */
  method Reset(db: Db, username: string, recoveryPin: string, newHash: string) returns (r: Reply<string>)
    requires db.Valid()
    modifies db`users
    ensures db.Valid()
    ensures match ResetCheck(old(db.State()), username, recoveryPin)
      case Failure(m) => r == Failure(m) && db.users == old(db.users)
      case Success(user) =>
        && r == Success(PasswordChanged)
        && db.State() == old(db.State()).(users := UpdateUser(old(db.users), user.id, WithHash(newHash)))
  {
    var check := ResetCheck(db.State(), username, recoveryPin);
    if check.Failure? {
      return Failure(check.message);
    }
    var user := check.body;
    ghost var t := db.State();
    UpdateUserValid(t, user.id, WithHash(newHash));
    db.users := UpdateUser(db.users, user.id, WithHash(newHash));
    r := Success(PasswordChanged);
  }

  /** After a reset the stored hash is the new one, so a login checks the password against it. */
  lemma ResetThenLogin(t: Tables, username: string, recoveryPin: string, newHash: string, password: string,
                       checkpw: (string, string) -> bool)
    requires ValidTables(t) && ResetCheck(t, username, recoveryPin).Success?
    ensures var r := t.(users := UpdateUser(t.users, ResetCheck(t, username, recoveryPin).body.id, WithHash(newHash)));
      LoginCheck(r, username, password, checkpw).Success? <==> checkpw(password, newHash)
  {
    var user := ResetCheck(t, username, recoveryPin).body;
    var k :| 0 <= k < |t.users| && t.users[k] == user;
    NewHashFound(t.users, k, newHash);
    var r := t.(users := UpdateUser(t.users, user.id, WithHash(newHash)));
    LoginSameError(r, username, password, checkpw);
  }

  /** After the update, looking up the user's name finds that user with the new hash. */
  lemma NewHashFound(users: seq<User>, k: nat, newHash: string)
    requires Pairwise(users, DistinctUsers) && k < |users|
    ensures UserByName(UpdateUser(users, users[k].id, WithHash(newHash)), users[k].username) == Some(users[k].(passwordHash := newHash))
  {
    var updated := UpdateUser(users, users[k].id, WithHash(newHash));
    assert updated[k] == users[k].(passwordHash := newHash);
    var found := UserByName(updated, users[k].username);
    assert found.Some?;
    var j :| 0 <= j < |updated| && updated[j] == found.value;
    UserNameUnique(users, j, k);
  }
}
