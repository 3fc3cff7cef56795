/**
 * Password authentication and the account store (`AuthService`), and the
 * session-based controller in front of it (`AuthController`).
 *
 * PBKDF2, Base64 and the GUID text format are foreign: each is a
 * function-valued parameter, and the facts the proofs need about them are
 * stated as preconditions of the lemmas that use them.
 */
module Auth {
  import opened Common
  import opened Text

  datatype User = User(
    userId: Id,
    userName: string,
    email: string,
    passwordHash: string,
    role: string,
    isActive: bool,
    createdAt: int)

  /** PBKDF2 with SHA-256, 10000 iterations and 32 output bytes, as a function of password and salt. */
  type Kdf = (string, seq<bv8>) -> seq<bv8>

  /** The salt length `HashPassword` draws. */
  const SaltSize: nat := 16
  /** `Rfc2898DeriveBytes` refuses a salt shorter than this. */
  const MinSaltSize: nat := 8

  /** `Convert.ToBase64String` and `Convert.FromBase64String`; `None` is a `FormatException`. */
  datatype Base64 = Base64(encode: seq<bv8> -> string, decode: string -> Option<seq<bv8>>)

  /** What the Base64 standard guarantees: decoding inverts encoding, and ':' is not in the alphabet. */
  ghost predicate Sound(b: Base64)
  {
    (forall x :: b.decode(b.encode(x)) == Some(x)) &&
    (forall x, i :: 0 <= i < |b.encode(x)| ==> b.encode(x)[i] != ':')
  }

  datatype AuthError =
    | UserAlreadyExists
    | MalformedHash

  function Describe(e: AuthError): (message: string)
  {
    match e
    case UserAlreadyExists => "User already exists"
    case MalformedHash => "The input is not a valid Base-64 string"
  }

  // ---------------------------------------------------------------------
  // string.Split(':')

  function CharCount(s: string, c: char): nat
  {
    if s == [] then 0 else (if s[0] == c then 1 else 0) + CharCount(s[1..], c)
  }

  /** `s.Split(c)`: the pieces between occurrences of `c`, empty pieces included. */
  function Split(s: string, c: char): (r: seq<string>)
    ensures |r| == CharCount(s, c) + 1
    ensures forall k :: 0 <= k < |r| ==> c !in r[k]
  {
    if s == [] then [""]
    else
      var rest := Split(s[1..], c);
      if s[0] == c then [""] + rest else [[s[0]] + rest[0]] + rest[1..]
  }

  /** Joining the pieces with the separator gives the string back. */
  lemma {:induction false} SplitJoin(s: string, c: char)
    ensures Join([c], Split(s, c)) == s
  {
    if s != [] {
      var rest := Split(s[1..], c);
      SplitJoin(s[1..], c);
      if s[0] != c {
        if |rest| == 1 {
          assert Split(s, c) == [[s[0]] + rest[0]];
        } else {
          var r := [[s[0]] + rest[0]] + rest[1..];
          assert r[1..] == rest[1..];
          assert Join([c], rest) == rest[0] + [c] + Join([c], rest[1..]);
          assert s == [s[0]] + s[1..];
        }
      } else {
        assert s == [c] + s[1..];
      }
    }
  }

  lemma {:induction false} SplitWithout(s: string, c: char)
    requires c !in s
    ensures Split(s, c) == [s]
  {
    if s != [] {
      SplitWithout(s[1..], c);
      assert [s[0]] + s[1..] == s;
    }
  }

  lemma {:induction false} SplitAfter(a: string, c: char, b: string)
    requires c !in a
    ensures Split(a + [c] + b, c) == [a] + Split(b, c)
  {
    if a == [] {
      assert a + [c] + b == [c] + b;
      assert ([c] + b)[1..] == b;
    } else {
      SplitAfter(a[1..], c, b);
      assert (a + [c] + b)[1..] == a[1..] + [c] + b;
      assert [a[0]] + a[1..] == a;
    }
  }

  // ---------------------------------------------------------------------
  // HashPassword / VerifyPassword

  /** `HashPassword`: Base64 salt, ':', Base64 derived key; the salt is the random input. */
  function HashPassword(password: string, salt: seq<bv8>, kdf: Kdf, b64: Base64): string
  {
    b64.encode(salt) + ":" + b64.encode(kdf(password, salt))
  }

  /**
   * `VerifyPassword`: `Some(ok)` when it returns, `None` when a Base64
   * decode or the key derivation throws.
   */
  function VerifyPassword(password: string, stored: string, kdf: Kdf, b64: Base64): (r: Option<bool>)
    ensures CharCount(stored, ':') != 1 ==> r == Some(false)
    ensures r == Some(true) ==> CharCount(stored, ':') == 1
  {
    var parts := Split(stored, ':');
    if |parts| != 2 then Some(false)
    else
      match (b64.decode(parts[0]), b64.decode(parts[1]))
      case (Some(salt), Some(hash)) =>
        if |salt| < MinSaltSize then None else Some(kdf(password, salt) == hash)
      case _ => None
  }

  /**
   * A stored hash made from `p` and `salt` accepts exactly the passwords
   * whose derived key under that salt equals `p`'s.
   */
  lemma VerifyAgainstHash(p: string, q: string, salt: seq<bv8>, kdf: Kdf, b64: Base64)
    requires Sound(b64) && |salt| >= MinSaltSize
    ensures VerifyPassword(q, HashPassword(p, salt, kdf, b64), kdf, b64) == Some(kdf(q, salt) == kdf(p, salt))
  {
    var a, h := b64.encode(salt), b64.encode(kdf(p, salt));
    assert ':' !in a;
    assert ':' !in h;
    SplitAfter(a, ':', h);
    SplitWithout(h, ':');
    assert HashPassword(p, salt, kdf, b64) == a + [':'] + h;
    assert Split(a + [':'] + h, ':') == [a, h];
  }

  /** The round trip: a freshly hashed password verifies. */
  lemma HashThenVerify(p: string, salt: seq<bv8>, kdf: Kdf, b64: Base64)
    requires Sound(b64) && |salt| >= MinSaltSize
    ensures VerifyPassword(p, HashPassword(p, salt, kdf, b64), kdf, b64) == Some(true)
  {
    VerifyAgainstHash(p, p, salt, kdf, b64);
  }

  /** Splitting into exactly two parts is the same as holding exactly one ':'. */
  lemma TwoPartsIffOneColon(stored: string)
    ensures |Split(stored, ':')| == 2 <==> CharCount(stored, ':') == 1
  {
  }

  // ---------------------------------------------------------------------
  // The account store

  function HasEmail(email: string): User -> bool
  {
    (u: User) => u.email == email
  }

  function ActiveWithEmail(email: string): User -> bool
  {
    (u: User) => u.email == email && u.isActive
  }

  function ActiveWithId(userId: Id): User -> bool
  {
    (u: User) => u.userId == userId && u.isActive
  }

  /** No two accounts share an e-mail address. */
  predicate UniqueEmails(users: seq<User>)
  {
    forall i, j :: 0 <= i < j < |users| ==> users[i].email != users[j].email
  }

  /** `UserExistsAsync`. */
  function UserExistsIn(users: seq<User>, email: string): (b: bool)
    ensures b <==> exists i :: 0 <= i < |users| && users[i].email == email
  {
    FindIndex(users, HasEmail(email)) >= 0
  }

  /**
   * `AuthenticateAsync`: the first active account with that e-mail, if the
   * password verifies; a throwing verification is caught and also gives `None`.
   */
  function AuthenticateIn(users: seq<User>, email: string, password: string, kdf: Kdf, b64: Base64): (r: Option<User>)
    ensures r.Some? ==> (r.value in users && r.value.email == email && r.value.isActive &&
      VerifyPassword(password, r.value.passwordHash, kdf, b64) == Some(true))
    ensures (forall i :: 0 <= i < |users| ==> !(users[i].email == email && users[i].isActive)) ==> r.None?
  {
    var i := FindIndex(users, ActiveWithEmail(email));
    if i < 0 then None
    else if VerifyPassword(password, users[i].passwordHash, kdf, b64) == Some(true) then Some(users[i])
    else None
  }

  /** With unique e-mails, any active account whose password verifies is found. */
  lemma AuthenticateComplete(users: seq<User>, email: string, password: string, kdf: Kdf, b64: Base64, k: int)
    requires UniqueEmails(users) && 0 <= k < |users|
    requires users[k].email == email && users[k].isActive
    ensures AuthenticateIn(users, email, password, kdf, b64).Some? <==>
      VerifyPassword(password, users[k].passwordHash, kdf, b64) == Some(true)
    ensures AuthenticateIn(users, email, password, kdf, b64).Some? ==>
      AuthenticateIn(users, email, password, kdf, b64) == Some(users[k])
  {
    var i := FindIndex(users, ActiveWithEmail(email));
    assert ActiveWithEmail(email)(users[k]);
    assert i == k;
  }

  /** The account `RegisterAsync` builds. */
  function NewUser(id: Id, email: string, password: string, role: string, name: Option<string>,
                   salt: seq<bv8>, now: int, kdf: Kdf, b64: Base64): (u: User)
  {
    User(id, OrElse(name, ""), email, HashPassword(password, salt, kdf, b64), role, true, now)
  }

  /** After a registration, the new account's password authenticates it. */
  lemma RegisterThenAuthenticate(users: seq<User>, id: Id, email: string, password: string, role: string,
                                 name: Option<string>, salt: seq<bv8>, now: int, kdf: Kdf, b64: Base64)
    requires !UserExistsIn(users, email)
    requires Sound(b64) && |salt| >= MinSaltSize
    ensures var u := NewUser(id, email, password, role, name, salt, now, kdf, b64);
      AuthenticateIn(users + [u], email, password, kdf, b64) == Some(u)
  {
    var u := NewUser(id, email, password, role, name, salt, now, kdf, b64);
    var s := users + [u];
    HashThenVerify(password, salt, kdf, b64);
    assert s[|users|] == u;
    assert forall i :: 0 <= i < |users| ==> s[i] == users[i] && s[i].email != email;
    assert FindIndex(s, ActiveWithEmail(email)) == |users|;
  }

  /**
   * What `ChangePasswordAsync` answers: `false` for no active account with
   * that id or a wrong old password, an error if verification throws.
   */
  function ChangeOutcome(users: seq<User>, userId: Id, oldPassword: string, kdf: Kdf, b64: Base64): (r: Result<bool, AuthError>)
    ensures (forall i :: 0 <= i < |users| ==> !(users[i].userId == userId && users[i].isActive)) ==> r == Ok(false)
    ensures r == Ok(true) ==> var i := FindIndex(users, ActiveWithId(userId));
      0 <= i < |users| && users[i].userId == userId && users[i].isActive &&
      VerifyPassword(oldPassword, users[i].passwordHash, kdf, b64) == Some(true)
  {
    var i := FindIndex(users, ActiveWithId(userId));
    if i < 0 then Ok(false)
    else match VerifyPassword(oldPassword, users[i].passwordHash, kdf, b64)
      case None => Err(MalformedHash)
      case Some(ok) => Ok(ok)
  }

  /** Replacing one hash keeps every address, so uniqueness survives. */
  lemma RehashKeepsUnique(users: seq<User>, i: int, h: string)
    requires UniqueEmails(users) && 0 <= i < |users|
    ensures UniqueEmails(users[i := users[i].(passwordHash := h)])
  {
    var s := users[i := users[i].(passwordHash := h)];
    assert forall k :: 0 <= k < |users| ==> s[k].email == users[k].email;
  }

  /** After a successful change the new password authenticates and the old one's hash is gone. */
  lemma ChangeThenAuthenticate(users: seq<User>, i: int, newPassword: string, salt: seq<bv8>, kdf: Kdf, b64: Base64)
    requires UniqueEmails(users) && 0 <= i < |users| && users[i].isActive
    requires Sound(b64) && |salt| >= MinSaltSize
    ensures var u := users[i].(passwordHash := HashPassword(newPassword, salt, kdf, b64));
      AuthenticateIn(users[i := u], u.email, newPassword, kdf, b64) == Some(u)
  {
    var u := users[i].(passwordHash := HashPassword(newPassword, salt, kdf, b64));
    RehashKeepsUnique(users, i, u.passwordHash);
    HashThenVerify(newPassword, salt, kdf, b64);
    AuthenticateComplete(users[i := u], u.email, newPassword, kdf, b64, i);
  }

  /** `AuthService` over its table of users. */
  class UserStore {
    var users: seq<User>

    predicate Valid()
      reads this
    {
      UniqueEmails(users)
    }

    constructor ()
      ensures Valid() && users == []
    {
      users := [];
    }

    function UserExists(email: string): (b: bool)
      reads this
      ensures b <==> exists i :: 0 <= i < |users| && users[i].email == email
    {
      UserExistsIn(users, email)
    }

    function Authenticate(email: string, password: string, kdf: Kdf, b64: Base64): (r: Option<User>)
      reads this
      ensures r.Some? ==> r.value in users && r.value.email == email && r.value.isActive
    {
      AuthenticateIn(users, email, password, kdf, b64)
    }

    /** `RegisterAsync`: refuses a taken address; otherwise adds one active account. */
    method Register(email: string, password: string, role: string, name: Option<string>,
                    id: Id, salt: seq<bv8>, now: int, kdf: Kdf, b64: Base64)
      returns (r: Result<User, AuthError>)
      requires Valid()
      modifies this
      ensures Valid()
      ensures old(UserExists(email)) ==> r == Err(UserAlreadyExists) && users == old(users)
      ensures !old(UserExists(email)) ==>
        var u := NewUser(id, email, password, role, name, salt, now, kdf, b64);
        r == Ok(u) && users == old(users) + [u]
    {
      if UserExistsIn(users, email) {
        return Err(UserAlreadyExists);
      }
      var u := NewUser(id, email, password, role, name, salt, now, kdf, b64);
      users := users + [u];
      r := Ok(u);
    }

    /** `ChangePasswordAsync`: only a verified old password replaces the stored hash. */
    method ChangePassword(userId: Id, oldPassword: string, newPassword: string,
                          salt: seq<bv8>, kdf: Kdf, b64: Base64)
      returns (r: Result<bool, AuthError>)
      requires Valid()
      modifies this
      ensures Valid()
      ensures r == ChangeOutcome(old(users), userId, oldPassword, kdf, b64)
      ensures r != Ok(true) ==> users == old(users)
      ensures r == Ok(true) ==> var i := FindIndex(old(users), ActiveWithId(userId));
        0 <= i < |old(users)| &&
        users == old(users)[i := old(users)[i].(passwordHash := HashPassword(newPassword, salt, kdf, b64))]
    {
      var i := FindIndex(users, ActiveWithId(userId));
      if i < 0 {
        return Ok(false);
      }
      var v := VerifyPassword(oldPassword, users[i].passwordHash, kdf, b64);
      if v.None? {
        return Err(MalformedHash);
      }
      if !v.value {
        return Ok(false);
      }
      var h := HashPassword(newPassword, salt, kdf, b64);
      RehashKeepsUnique(users, i, h);
      users := users[i := users[i].(passwordHash := h)];
      r := Ok(true);
    }
  }

  // ---------------------------------------------------------------------
  // AuthController

  /** `Guid.ToString()` and `Guid.TryParse`. */
  datatype GuidText = GuidText(show: Id -> string, parse: string -> Option<Id>)

  datatype UserDto = UserDto(userId: string, email: string, role: string)

  const UserIdKey: string := "UserId"
  const EmailKey: string := "Email"
  const RoleKey: string := "Role"
  /** The role every self-registered account gets. */
  const SelfRegisteredRole: string := "User"
  /** Logout keeps a bearer token blacklisted for one hour. */
  const BlacklistSeconds: nat := 3600
  const BearerPrefix: string := "Bearer "
  const BlacklistPrefix: string := "blacklist:"

  function Dto(u: User, guid: GuidText): UserDto
  {
    UserDto(guid.show(u.userId), u.email, u.role)
  }

  /** The three keys a signed-in session holds. */
  function SessionFor(u: User, guid: GuidText): map<string, string>
  {
    map[UserIdKey := guid.show(u.userId), EmailKey := u.email, RoleKey := u.role]
  }

  /** `GetCurrentUser`: a user only when all three keys hold non-empty values. */
  function CurrentUserOf(session: map<string, string>): (r: Option<UserDto>)
    ensures r.Some? <==>
      UserIdKey in session && session[UserIdKey] != "" &&
      EmailKey in session && session[EmailKey] != "" &&
      RoleKey in session && session[RoleKey] != ""
    ensures r.Some? ==> (r.value.email == session[EmailKey] && r.value.role == session[RoleKey] &&
      r.value.userId == session[UserIdKey])
  {
    if UserIdKey !in session || session[UserIdKey] == "" then None
    else if EmailKey !in session || session[EmailKey] == "" then None
    else if RoleKey !in session || session[RoleKey] == "" then None
    else Some(UserDto(session[UserIdKey], session[EmailKey], session[RoleKey]))
  }

  /** A session written by a login reports that user back. */
  lemma LoginThenCurrentUser(u: User, guid: GuidText)
    requires guid.show(u.userId) != "" && u.email != "" && u.role != ""
    ensures CurrentUserOf(SessionFor(u, guid)) == Some(Dto(u, guid))
  {
  }

  /** The id a session names, or `None` when it is missing, empty or not a GUID. */
  function SessionUserId(session: map<string, string>, guid: GuidText): (r: Option<Id>)
    ensures r.Some? ==> (UserIdKey in session && session[UserIdKey] != "" &&
      guid.parse(session[UserIdKey]) == r)
    ensures UserIdKey !in session || session[UserIdKey] == "" ==> r.None?
  {
    if UserIdKey !in session || session[UserIdKey] == "" then None else guid.parse(session[UserIdKey])
  }

  /** When GUID text parses back, a login session names its user. */
  lemma LoginSessionNamesUser(u: User, guid: GuidText)
    requires guid.show(u.userId) != "" && guid.parse(guid.show(u.userId)) == Some(u.userId)
    ensures SessionUserId(SessionFor(u, guid), guid) == Some(u.userId)
  {
  }

  datatype LoginReply = BlankCredentials | WrongCredentials | LoggedIn(user: UserDto)
  datatype RegisterReply = RegisterMismatch | EmailTaken | Registered(user: UserDto)
  datatype PasswordReply = InvalidSession | ChangeMismatch | Unchanged | WrongOldPassword | Changed | SystemError

  /** The `Message` and `MessageType` of each login answer. */
  function DescribeLogin(r: LoginReply): (string, string)
  {
    match r
    case BlankCredentials => ("Email và mật khẩu không được để trống", "warning")
    case WrongCredentials => ("Sai tài khoản hoặc mật khẩu", "warning")
    case LoggedIn(_) => ("Đăng nhập thành công", "success")
  }

  function DescribeRegister(r: RegisterReply): (string, string)
  {
    match r
    case RegisterMismatch => ("Mật khẩu xác nhận không khớp", "warning")
    case EmailTaken => ("Email đã tồn tại, chọn email khác", "info")
    case Registered(_) => ("Đăng ký thành công", "success")
  }

  function DescribePassword(r: PasswordReply): (string, string)
  {
    match r
    case InvalidSession => ("Phiên đăng nhập không hợp lệ", "error")
    case ChangeMismatch => ("Mật khẩu xác nhận không khớp", "error")
    case Unchanged => ("Mật khẩu không thay đổi", "info")
    case WrongOldPassword => ("Mật khẩu cũ không đúng", "error")
    case Changed => ("Đổi mật khẩu thành công", "success")
    case SystemError => ("Lỗi hệ thống, vui lòng thử lại", "error")
  }

  /** The Redis key a bearer header blacklists, if it carries a bearer token. */
  function BlacklistedKey(authHeader: string): (r: Option<string>)
    ensures r.Some? <==> StartsWith(authHeader, BearerPrefix)
    ensures r.Some? ==> r.value == BlacklistPrefix + NetTrim(authHeader[|BearerPrefix|..])
  {
    if authHeader != "" && StartsWith(authHeader, BearerPrefix)
    then Some(BlacklistPrefix + NetTrim(authHeader[|BearerPrefix|..]))
    else None
  }

  /** `AuthController`: a session store, the token blacklist, and the account service. */
  class AuthController {
    var session: map<string, string>
    /** Blacklist keys with their time to live in seconds. */
    var blacklist: map<string, nat>
    const service: UserStore

    constructor (service: UserStore)
      ensures this.service == service && session == map[] && blacklist == map[]
    {
      this.service := service;
      session, blacklist := map[], map[];
    }

    /** `Login`: blank input is refused before the store is consulted; success replaces the session. */
    method Login(email: Option<string>, password: Option<string>, kdf: Kdf, b64: Base64, guid: GuidText)
      returns (reply: LoginReply)
      modifies this
      ensures blacklist == old(blacklist)
      ensures IsNullOrWhiteSpace(email) || IsNullOrWhiteSpace(password) ==>
        reply == BlankCredentials && session == old(session)
      ensures !IsNullOrWhiteSpace(email) && !IsNullOrWhiteSpace(password) ==>
        var u := service.Authenticate(email.value, password.value, kdf, b64);
        if u.None? then reply == WrongCredentials && session == old(session)
        else reply == LoggedIn(Dto(u.value, guid)) && session == SessionFor(u.value, guid)
    {
      if IsNullOrWhiteSpace(email) || IsNullOrWhiteSpace(password) {
        return BlankCredentials;
      }
      var u := service.Authenticate(email.value, password.value, kdf, b64);
      if u.None? {
        return WrongCredentials;
      }
      session := map[];
      session := session[UserIdKey := guid.show(u.value.userId)];
      session := session[EmailKey := u.value.email];
      session := session[RoleKey := u.value.role];
      reply := LoggedIn(Dto(u.value, guid));
    }

    /**
     * `Register`: the confirmation is compared first, then the address is
     * looked up; the account always gets the role "User", and the session
     * gains the three keys without being cleared.
     */
    method Register(email: string, password: string, confirmPassword: string, name: Option<string>,
                    id: Id, salt: seq<bv8>, now: int, kdf: Kdf, b64: Base64, guid: GuidText)
      returns (reply: RegisterReply)
      requires service.Valid()
      modifies this, service
      ensures service.Valid()
      ensures blacklist == old(blacklist)
      ensures password != confirmPassword ==>
        reply == RegisterMismatch && session == old(session) && service.users == old(service.users)
      ensures password == confirmPassword && old(service.UserExists(email)) ==>
        reply == EmailTaken && session == old(session) && service.users == old(service.users)
      ensures password == confirmPassword && !old(service.UserExists(email)) ==>
        var u := NewUser(id, email, password, SelfRegisteredRole, name, salt, now, kdf, b64);
        reply == Registered(Dto(u, guid)) && service.users == old(service.users) + [u] &&
        session == old(session)[UserIdKey := guid.show(id)][EmailKey := email][RoleKey := SelfRegisteredRole]
    {
      if password != confirmPassword {
        return RegisterMismatch;
      }
      if service.UserExists(email) {
        return EmailTaken;
      }
      var r := service.Register(email, password, SelfRegisteredRole, name, id, salt, now, kdf, b64);
      var u := r.value;
      session := session[UserIdKey := guid.show(u.userId)];
      session := session[EmailKey := u.email];
      session := session[RoleKey := u.role];
      reply := Registered(Dto(u, guid));
    }

    function GetCurrentUser(): (r: Option<UserDto>)
      reads this
      ensures r.Some? ==> r.value.email != "" && r.value.role != "" && r.value.userId != ""
    {
      CurrentUserOf(session)
    }

    /**
     * `ChangePassword`: a session holding a GUID, then a matching
     * confirmation, then a password that differs, then the old password as
     * the service judges it; a throwing service is a system error.
     */
    method ChangePassword(oldPassword: string, newPassword: string, confirmNewPassword: string,
                          salt: seq<bv8>, kdf: Kdf, b64: Base64, guid: GuidText)
      returns (reply: PasswordReply)
      requires service.Valid()
      modifies service
      ensures service.Valid()
      ensures var id := SessionUserId(session, guid);
        if id.None? then reply == InvalidSession && service.users == old(service.users)
        else if newPassword != confirmNewPassword then reply == ChangeMismatch && service.users == old(service.users)
        else if oldPassword == newPassword then reply == Unchanged && service.users == old(service.users)
        else
          var outcome := ChangeOutcome(old(service.users), id.value, oldPassword, kdf, b64);
          reply == (if outcome.Err? then SystemError else if outcome.value then Changed else WrongOldPassword) &&
          (outcome != Ok(true) ==> service.users == old(service.users)) &&
          (outcome == Ok(true) ==> var i := FindIndex(old(service.users), ActiveWithId(id.value));
            0 <= i < |old(service.users)| &&
            service.users == old(service.users)[i := old(service.users)[i].(passwordHash := HashPassword(newPassword, salt, kdf, b64))])
    {
      var id := SessionUserId(session, guid);
      if id.None? {
        return InvalidSession;
      }
      if newPassword != confirmNewPassword {
        return ChangeMismatch;
      }
      if oldPassword == newPassword {
        return Unchanged;
      }
      var r := service.ChangePassword(id.value, oldPassword, newPassword, salt, kdf, b64);
      if r.Err? {
        return SystemError;
      }
      reply := if r.value then Changed else WrongOldPassword;
    }

    /** `Logout`: clears the session, and blacklists a bearer token for an hour. */
    method Logout(authHeader: string)
      modifies this
      ensures session == map[]
      ensures var key := BlacklistedKey(authHeader);
        blacklist == if key.Some? then old(blacklist)[key.value := BlacklistSeconds] else old(blacklist)
    {
      session := map[];
      var key := BlacklistedKey(authHeader);
      if key.Some? {
        blacklist := blacklist[key.value := BlacklistSeconds];
      }
    }
  }
}
