// Request authentication, error mapping, ownership checks and the client's
// request headers (lib/api-utils.ts).

module ApiUtils {
  import opened Common
  import opened Auth

  /** The caller as the settings, profile and password routes see it. */
  datatype AuthUser = AuthUser(userId: string, email: string, userType: string)

  /** `session.user` of a server-side session; the session lookup is an input. */
  datatype SessionUser = SessionUser(id: string, email: Option<string>, userType: string)

  /** `authHeader.split(" ")[1]` for a header that starts with "Bearer ". */
  function HeaderToken(header: string): (r: Option<string>)
    ensures r.Some? <==> StartsWith(header, BearerPrefix)
    ensures r.Some? ==> ' ' !in r.value
    ensures r.Some? ==> StartsWith(header[|BearerPrefix|..], r.value)
    ensures r.Some? ==>
      |r.value| == |header| - |BearerPrefix| || header[|BearerPrefix| + |r.value|] == ' '
  {
    if StartsWith(header, BearerPrefix) then
      var rest := header[|BearerPrefix|..];
      assert header == "Bearer" + [' '] + rest;
      SplitConcat("Bearer", rest, ' ');
      SplitFirst(rest, ' ');
      Some(Split(header, ' ')[1])
    else None
  }

  /** The header a client builds from a token without spaces yields that token back. */
  lemma {:induction false} HeaderTokenOfBearer(t: string)
    requires ' ' !in t
    ensures HeaderToken(BearerPrefix + t) == Some(t)
  {
    var h := BearerPrefix + t;
    assert h[|BearerPrefix|..] == t;
    assert h == "Bearer" + [' '] + t;
    SplitConcat("Bearer", t, ' ');
    SplitNoSeparator(t, ' ');
  }

  /** The header path of getAuthUser: a bearer header whose token verifies. */
  function HeaderUser(crypto: Crypto, header: Option<string>): (r: Option<TokenPayload>)
    ensures r.Some? <==>
      header.Some? && HeaderToken(header.value).Some? &&
      VerifyToken(crypto, HeaderToken(header.value).value).Success?
  {
    if header.Some? && HeaderToken(header.value).Some? then
      match VerifyToken(crypto, HeaderToken(header.value).value)
      case Success(p) => Some(p)
      case Failure(_) => None
    else None
  }

  /** getAuthUser: a verified bearer token first, then the session, else "Unauthorized". */
  function GetAuthUser(crypto: Crypto, header: Option<string>, session: Option<SessionUser>): (r: Outcome<AuthUser>)
    ensures HeaderUser(crypto, header).Some? ==>
      var p := HeaderUser(crypto, header).value;
      r == Success(AuthUser(p.userId, p.email, p.userType))
    ensures HeaderUser(crypto, header).None? && session.Some? ==>
      r == Success(AuthUser(session.value.id, OrElse(session.value.email, ""), session.value.userType))
    ensures r.Failure? <==> HeaderUser(crypto, header).None? && session.None?
    ensures r.Failure? ==> r.message == "Unauthorized"
  {
    match HeaderUser(crypto, header)
    case Some(p) => Success(AuthUser(p.userId, p.email, p.userType))
    case None =>
      match session
      case Some(s) => Success(AuthUser(s.id, OrElse(s.email, ""), s.userType))
      case None => Failure("Unauthorized")
  }

  /** A client that sends "Bearer t" is authenticated as t's claims whatever the session. */
  lemma {:induction false} BearerHeaderAuthenticates(crypto: Crypto, t: string, session: Option<SessionUser>)
    requires ' ' !in t && t != ""
    requires crypto.verify(t).Some?
    ensures GetAuthUser(crypto, Some(BearerPrefix + t), session) ==
      var p := crypto.verify(t).value; Success(AuthUser(p.userId, p.email, p.userType))
  {
    HeaderTokenOfBearer(t);
    assert !StartsWith(t, BearerPrefix) by {
      if |t| >= |BearerPrefix| {
        assert t[6] in t;
        assert t[..|BearerPrefix|][6] != BearerPrefix[6];
      }
    }
  }

  // ---- errors and ownership -----------------------------------------------

  /** A thrown error: its message and an optional status member. */
  datatype ApiError = ApiError(message: string, status: Option<int>)

  datatype ErrorReply = ErrorReply(error: string, status: int)

  function HandleApiError(e: ApiError): (r: ErrorReply)
    ensures e.message == "Unauthorized" ==> r == ErrorReply("Unauthorized", 401)
    ensures e.message != "Unauthorized" ==>
      r.error == (if e.message == "" then "Internal server error" else e.message)
    ensures e.message != "Unauthorized" ==>
      r.status == (if e.status.Some? && e.status.value != 0 then e.status.value else 500)
  {
    if e.message == "Unauthorized" then ErrorReply("Unauthorized", 401)
    else
      ErrorReply(if e.message == "" then "Internal server error" else e.message,
                 if e.status.Some? && e.status.value != 0 then e.status.value else 500)
  }

  /** Every error that getAuthUser throws becomes a 401. */
  lemma AuthFailureIs401(crypto: Crypto, header: Option<string>, session: Option<SessionUser>)
    requires GetAuthUser(crypto, header, session).Failure?
    ensures HandleApiError(ApiError(GetAuthUser(crypto, header, session).message, None)) ==
      ErrorReply("Unauthorized", 401)
  {
  }

  /**
   * The `getAuthUser` call that opens the user routes, with what it throws
   * passed through handleApiError by the route's catch block.
   */
  function AuthenticateRequest(crypto: Crypto, header: Option<string>, session: Option<SessionUser>)
    : (r: Response<AuthUser>)
    ensures r.Err? <==> GetAuthUser(crypto, header, session).Failure?
    ensures r.Err? ==> r == Err(401, "Unauthorized")
    ensures r.Ok? ==> r.value == GetAuthUser(crypto, header, session).value
  {
    match GetAuthUser(crypto, header, session)
    case Success(u) => Ok(u)
    case Failure(m) =>
      var reply := HandleApiError(ApiError(m, None));
      Err(reply.status, reply.error)
  }

  function IsAuthorized(user: AuthUser, resourceOwnerId: string): (r: bool)
    ensures r <==> user.userId == resourceOwnerId || user.userType == "admin"
  {
    user.userId == resourceOwnerId || user.userType == "admin"
  }

  /** The owner is always authorized; an admin is authorized for every resource. */
  lemma OwnerOrAdmin(user: AuthUser, ownerId: string, other: string)
    ensures IsAuthorized(AuthUser(ownerId, user.email, user.userType), ownerId)
    ensures user.userType == "admin" ==> IsAuthorized(user, other)
    ensures user.userType != "admin" && user.userId != other ==> !IsAuthorized(user, other)
  {
  }

  // ---- request headers of fetchWithAuth -------------------------------------

  const ContentType: string := "Content-Type"
  const Authorization: string := "Authorization"

  /** The headers fetchWithAuth sends: defaults, then the caller's, minus Content-Type for FormData. */
  function FetchHeaders(token: Option<string>, callerHeaders: map<string, string>, isFormData: bool): (r: map<string, string>)
    ensures ContentType in r <==> !isFormData
    ensures Authorization in r <==> Authorization in callerHeaders || Present(token)
    ensures forall k :: k in r <==> (k in callerHeaders || k == ContentType || (k == Authorization && Present(token))) && !(isFormData && k == ContentType)
    ensures forall k :: k in callerHeaders && k in r ==> r[k] == callerHeaders[k]
    ensures Present(token) && Authorization !in callerHeaders ==> r[Authorization] == BearerPrefix + token.value
    ensures !isFormData && ContentType !in callerHeaders ==> r[ContentType] == "application/json"
  {
    var defaults := map[ContentType := "application/json"];
    var withAuth := if Present(token) then defaults[Authorization := BearerPrefix + token.value] else defaults;
    var merged := withAuth + callerHeaders;
    if isFormData then merged - {ContentType} else merged
  }

  /** The token a client sends is the one getAuthUser reads back. */
  lemma {:induction false} FetchThenAuthenticate(t: string)
    requires t != "" && ' ' !in t
    ensures HeaderToken(FetchHeaders(Some(t), map[], false)[Authorization]) == Some(t)
  {
    HeaderTokenOfBearer(t);
  }

  // ---- what postWithAuth resolves to in the browser ------------------------------

  /** What a client request meets: an HTTP answer with its status and `error` member, or a thrown fetch or JSON failure. */
  datatype HttpReply = Answered(status: int, error: string) | Thrown(message: string)

  predicate IsOkStatus(status: int) {
    200 <= status < 300
  }

  /**
   * postWithAuth as written: fetchWithAuth throws only on a 401, and the body of
   * every other answer is returned, whatever its status; `Ok` carries the status.
   */
  function PostWithAuth(reply: HttpReply): (r: Response<int>)
    ensures r.Err? <==> reply.Thrown? || reply.status == 401
    ensures reply.Answered? && reply.status == 401 ==> r == Err(401, "Unauthorized")
    ensures reply.Thrown? ==> r == Err(0, reply.message)
  {
    match reply
    case Thrown(m) => Err(0, m)
    case Answered(status, error) => if status == 401 then Err(401, "Unauthorized") else Ok(status)
  }

  /** The route's rejection of a duplicate review resolves like a success. */
  lemma DuplicateReviewResolves()
    ensures PostWithAuth(Answered(400, "You have already reviewed this restaurant")) == Ok(400)
  {
  }

  /** postWithAuth with the `res.ok` check its callers rely on: a non-2xx answer rejects with its `error`. */
  function PostWithAuthChecked(reply: HttpReply): (r: Response<int>)
    ensures r.Ok? <==> reply.Answered? && IsOkStatus(reply.status)
    ensures r.Ok? ==> r.value == reply.status
    ensures reply.Answered? && reply.status == 401 ==> r == Err(401, "Unauthorized")
    ensures reply.Answered? && !IsOkStatus(reply.status) && reply.status != 401 ==>
      r == Err(reply.status, reply.error)
    ensures reply.Thrown? ==> r == Err(0, reply.message)
  {
    match reply
    case Thrown(m) => Err(0, m)
    case Answered(status, error) =>
      if status == 401 then Err(401, "Unauthorized")
      else if !IsOkStatus(status) then Err(status, error)
      else Ok(status)
  }

  /** The check changes the outcome exactly for the answers that are neither 2xx nor 401. */
  lemma CheckedDiffersOnRejections(reply: HttpReply)
    ensures PostWithAuth(reply) != PostWithAuthChecked(reply) <==>
      reply.Answered? && !IsOkStatus(reply.status) && reply.status != 401
    ensures PostWithAuthChecked(reply).Ok? ==> PostWithAuth(reply) == PostWithAuthChecked(reply)
  {
  }
}
