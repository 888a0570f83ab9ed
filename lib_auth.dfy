// Registration, login and token verification (lib/auth.ts).
// JWT signing/verification and bcrypt hashing/comparison are foreign; they are
// passed in as the uninterpreted functions of a `Crypto` value.

module Auth {
  import opened Common
  import opened Db
  import opened Store

  /** The claims a token carries. */
  datatype TokenPayload = TokenPayload(userId: string, email: string, userType: string)

  /**
   * `verify`: jwt.verify with the server secret (None when it throws);
   * `sign`: jwt.sign; `hash`: bcrypt hash; `compare(plain, hashed)`: bcrypt compare.
   */
  datatype Crypto = Crypto(
    verify: string -> Option<TokenPayload>,
    sign: TokenPayload -> string,
    hash: string -> string,
    compare: (string, string) -> bool)

  /** A value, or the message of the `Error` that was thrown. */
  datatype Outcome<+T> = Success(value: T) | Failure(message: string)

  const BearerPrefix: string := "Bearer "

  /** `token.startsWith("Bearer ") ? token.slice(7) : token` */
  function StripBearer(token: string): (r: string)
    ensures StartsWith(token, BearerPrefix) ==> BearerPrefix + r == token
    ensures !StartsWith(token, BearerPrefix) ==> r == token
  {
    if StartsWith(token, BearerPrefix) then token[|BearerPrefix|..] else token
  }

  /** Stripping undoes exactly the prefix a client puts in front of its token. */
  lemma StripBearerOfHeader(t: string)
    ensures StripBearer(BearerPrefix + t) == t
  {
    assert (BearerPrefix + t)[..|BearerPrefix|] == BearerPrefix;
  }

  function VerifyToken(crypto: Crypto, token: string): (r: Outcome<TokenPayload>)
    ensures token == "" ==> r == Failure("No token provided")
    ensures token != "" ==> (r.Success? <==> crypto.verify(StripBearer(token)).Some?)
    ensures r.Success? ==> crypto.verify(StripBearer(token)) == Some(r.value)
    ensures token != "" && r.Failure? ==> r.message == "Invalid token"
  {
    if token == "" then Failure("No token provided")
    else
      match crypto.verify(StripBearer(token))
      case Some(p) => Success(p)
      case None => Failure("Invalid token")
  }

  /** A header "Bearer t" verifies exactly as the bare token t does. */
  lemma {:induction false} VerifyHeaderAsBareToken(crypto: Crypto, t: string)
    requires t != "" && !StartsWith(t, BearerPrefix)
    ensures VerifyToken(crypto, BearerPrefix + t) == VerifyToken(crypto, t)
  {
    StripBearerOfHeader(t);
  }

  /**
   * The opening of every route that reads the header itself: without a header
   * the route answers 401; verifyToken's "Invalid token" escapes to the route's
   * catch, which answers 500 with that message.
   */
  function AuthenticateHeader(crypto: Crypto, header: Option<string>): (r: Response<TokenPayload>)
    ensures !Present(header) ==> r == Err(401, "Authorization required")
    ensures Present(header) ==> (r.Ok? <==> crypto.verify(StripBearer(header.value)).Some?)
    ensures r.Ok? ==> Present(header) && crypto.verify(StripBearer(header.value)) == Some(r.value)
    ensures Present(header) && r.Err? ==> r == Err(500, "Invalid token")
  {
    if !Present(header) then Err(401, "Authorization required")
    else
      match VerifyToken(crypto, header.value)
      case Success(p) => Ok(p)
      case Failure(m) => Err(500, m)
  }

  // ---- registration and login ---------------------------------------------

  /** The fields the registration route passes on. */
  datatype NewUser = NewUser(name: string, email: string, password: string, userType: UserType)

  /** The user object returned to the client: it has no password member. */
  datatype PublicUser = PublicUser(id: string, name: Value, email: Value, userType: UserType)

  datatype Session = Session(user: PublicUser, token: string)

  /** `findOne({ email })`. */
  function FindByEmail(us: seq<User>, email: string): (r: Option<User>)
    ensures r.Some? ==> r.value in us && Field(r.value, "email") == Str(email)
    ensures r.None? <==> forall u :: u in us ==> Field(u, "email") != Str(email)
  {
    FindFirst(us, (u: User) => Field(u, "email") == Str(email))
  }

  /** `{ ...userData, password: hashedPassword, createdAt }` */
  function NewUserDocument(crypto: Crypto, data: NewUser, id: string, now: int): (u: User)
    ensures u.password == crypto.hash(data.password)
    ensures Field(u, "email") == Str(data.email) && Field(u, "name") == Str(data.name)
    ensures u.id == id && u.createdAt == now && u.userType == data.userType
    ensures u.settings.None?
  {
    User(id, crypto.hash(data.password), data.userType, now,
         map["name" := Str(data.name), "email" := Str(data.email)], None)
  }

  function RegisteredSession(crypto: Crypto, data: NewUser, id: string): Session {
    Session(PublicUser(id, Str(data.name), Str(data.email), data.userType),
            crypto.sign(TokenPayload(id, data.email, UserTypeName(data.userType))))
  }

  /** registerUser: refuse a taken email, otherwise insert the hashed user and sign a token. */
  method RegisterUser(st: Store, crypto: Crypto, data: NewUser, newId: string, now: int)
    returns (r: Outcome<Session>)
    modifies st
    ensures FindByEmail(old(st.users), data.email).Some? ==>
      r == Failure("User already exists") && st.users == old(st.users)
    ensures FindByEmail(old(st.users), data.email).None? ==>
      r == Success(RegisteredSession(crypto, data, newId)) &&
      st.users == old(st.users) + [NewUserDocument(crypto, data, newId, now)]
    ensures st.restaurants == old(st.restaurants) && st.reservations == old(st.reservations)
    ensures st.reviews == old(st.reviews) && st.favorites == old(st.favorites)
    ensures st.events == old(st.events)
  {
    var existing := FindByEmail(st.users, data.email);
    if existing.Some? {
      return Failure("User already exists");
    }
    st.users := st.users + [NewUserDocument(crypto, data, newId, now)];
    r := Success(RegisteredSession(crypto, data, newId));
  }

  /** The refusal of a taken email keeps at most one user per email. */
  lemma {:induction false} RegisterKeepsEmailsUnique(us: seq<User>, crypto: Crypto, data: NewUser, id: string, now: int)
    requires UniqueEmails(us)
    requires FindByEmail(us, data.email).None?
    ensures UniqueEmails(us + [NewUserDocument(crypto, data, id, now)])
  {
    var u := NewUserDocument(crypto, data, id, now);
    var all := us + [u];
    forall i, j | 0 <= i < j < |all| ensures Field(all[i], "email") != Field(all[j], "email") {
      if j == |us| {
        assert all[i] == us[i];
        assert us[i] in us;
      } else {
        assert all[i] == us[i] && all[j] == us[j];
      }
    }
  }

  /** loginUser: look the email up, compare the password, sign a token. */
  function LoginUser(us: seq<User>, crypto: Crypto, email: string, password: string): (r: Outcome<Session>)
    ensures FindByEmail(us, email).None? ==> r == Failure("User not found")
    ensures FindByEmail(us, email).Some? && !crypto.compare(password, FindByEmail(us, email).value.password) ==>
      r == Failure("Invalid password")
    ensures FindByEmail(us, email).Some? && crypto.compare(password, FindByEmail(us, email).value.password) ==>
      r.Success?
    ensures r.Success? ==>
      var u := FindByEmail(us, email).value;
      crypto.compare(password, u.password) &&
      r.value.user == PublicUser(u.id, Field(u, "name"), Str(email), u.userType) &&
      r.value.token == crypto.sign(TokenPayload(u.id, email, UserTypeName(u.userType)))
  {
    match FindByEmail(us, email)
    case None => Failure("User not found")
    case Some(u) =>
      if !crypto.compare(password, u.password) then Failure("Invalid password")
      else
        Success(Session(PublicUser(u.id, Field(u, "name"), Field(u, "email"), u.userType),
                        crypto.sign(TokenPayload(u.id, email, UserTypeName(u.userType)))))
  }

  /**
   * Registering and then logging in with the same credentials yields the same
   * session, provided bcrypt accepts the password against its own hash.
   */
  lemma {:induction false} RegisterThenLogin(us: seq<User>, crypto: Crypto, data: NewUser, id: string, now: int)
    requires FindByEmail(us, data.email).None?
    requires crypto.compare(data.password, crypto.hash(data.password))
    ensures LoginUser(us + [NewUserDocument(crypto, data, id, now)], crypto, data.email, data.password)
         == Success(RegisteredSession(crypto, data, id))
  {
    var u := NewUserDocument(crypto, data, id, now);
    FindFirstAppend(us, u, (x: User) => Field(x, "email") == Str(data.email));
    assert FindByEmail(us + [u], data.email) == Some(u);
  }
}
