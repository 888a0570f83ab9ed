// The data-fetching hook (hooks/use-api.ts) as far as the pages see it: the
// `data` and `error` a GET fetch settles on, and whether `onSuccess` runs. The
// request itself, the toast and the loading flag are not part of this model.

module UseApi {
  import opened Common
  import opened Db
  import AuthContext

  /** How the request ends: the parsed JSON of a 2xx answer, or a status with the body's `error` text. */
  datatype Answer<T> = Success(data: T) | Failure(status: nat, error: Option<string>)

  /** The hook's state once a fetch has settled; `None` stands for null. */
  datatype Settled<T> = Settled(data: Option<T>, error: Option<string>)

  /** The hook's state before its first fetch has settled: `data` and `error` are both null. */
  function Initial<T>(): (r: Settled<T>)
    ensures r.data.None? && r.error.None?
  {
    Settled(None, None)
  }

  /** `options.requireAuth && (!user || !token)`: the fetch throws before any request is made. */
  predicate Refused(requireAuth: bool, signedIn: bool, token: Value) {
    requireAuth && (!signedIn || !Truthy(token))
  }

  /** The message thrown for a non-2xx answer: the body's error, else one naming the status. */
  function FailureMessage(status: nat, error: Option<string>): (r: string)
    ensures Present(error) ==> r == error.value
    ensures !Present(error) ==> r == "Request failed with status " + NatToString(status)
  {
    if Present(error) then error.value else "Request failed with status " + NatToString(status)
  }

  /**
   * One fetch from the initial state (data and error null). `data` is set only
   * by a request that was made and answered 2xx, and then to the raw answer.
   */
  function Fetch<T>(requireAuth: bool, signedIn: bool, token: Value, answer: Answer<T>): (r: Settled<T>)
    ensures Refused(requireAuth, signedIn, token) ==> r == Settled(None, Some("Authentication required"))
    ensures r.data.Some? <==> !Refused(requireAuth, signedIn, token) && answer.Success?
    ensures r.data.Some? ==> r.data.value == answer.data && r.error.None?
    ensures !Refused(requireAuth, signedIn, token) && answer.Failure? ==>
      r.error == Some(FailureMessage(answer.status, answer.error))
  {
    if Refused(requireAuth, signedIn, token) then Settled(None, Some("Authentication required"))
    else match answer
      case Success(v) => Settled(Some(v), None)
      case Failure(status, error) => Settled(None, Some(FailureMessage(status, error)))
  }

  /** `onSuccess` is called, with the raw answer, exactly when `data` was set; what it returns is dropped. */
  predicate CallsOnSuccess<T>(requireAuth: bool, signedIn: bool, token: Value, answer: Answer<T>) {
    Fetch(requireAuth, signedIn, token, answer).data.Some?
  }

  /**
   * The auth context provides no `token` member, so a fetch that requires
   * authentication never loads, whoever is signed in and whatever the server
   * would answer, and its `onSuccess` never runs.
   */
  lemma AuthRequiredNeverLoads<T>(session: Option<AuthContext.SessionUser>, isLoading: bool, answer: Answer<T>)
    ensures var c := AuthContext.UseAuth(session, isLoading);
      Fetch(true, c.user.Some?, Member(c.members, "token"), answer) == Settled(None, Some("Authentication required"))
    ensures var c := AuthContext.UseAuth(session, isLoading);
      !CallsOnSuccess(true, c.user.Some?, Member(c.members, "token"), answer)
  {
    AuthContext.TokenAndUnderscoreIdUndefined(session, isLoading);
  }
}
