// What `useAuth()` gives the pages (context/auth-context.tsx): the user object the
// provider builds from the next-auth session, and the members of the value it
// provides. Signing in, registering and signing out are not part of this model.

module AuthContext {
  import opened Common
  import opened Db

  /** The session's user as next-auth hands it over; a member it lacks is "". */
  datatype SessionUser = SessionUser(id: string, name: string, email: string, userType: string, image: string)

  /** The members of the user object. */
  const UserMembers: set<string> := {"id", "name", "email", "userType", "image"}

  /** The members of the provider's value. */
  const ProvidedMembers: set<string> := {"user", "isLoading", "login", "register", "googleSignIn", "logout"}

  /** The user object built from the session: its id, name, email, image, and a user type that defaults to customer. */
  function ContextUser(s: SessionUser): (u: map<string, Value>)
    ensures u.Keys == UserMembers
    ensures u["id"] == Str(s.id)
    ensures u["userType"] == Str(if s.userType != "" then s.userType else "customer")
  {
    map["id" := Str(s.id), "name" := Str(s.name), "email" := Str(s.email),
        "userType" := Str(if s.userType != "" then s.userType else "customer"),
        "image" := if s.image != "" then Str(s.image) else Null]
  }

  /** What a page gets from `useAuth()`: the provider's members and the user object, none without a session. */
  datatype ContextValue = ContextValue(members: map<string, Value>, user: Option<map<string, Value>>)

  function UseAuth(session: Option<SessionUser>, isLoading: bool): (c: ContextValue)
    ensures c.members.Keys == ProvidedMembers
    ensures Truthy(Member(c.members, "user")) <==> session.Some?
    ensures c.user.Some? <==> session.Some?
    ensures session.Some? ==> c.user.value == ContextUser(session.value)
  {
    ContextValue(
      map["user" := (if session.Some? then Object else Null), "isLoading" := Bool(isLoading),
          "login" := Object, "register" := Object, "googleSignIn" := Object, "logout" := Object],
      if session.Some? then Some(ContextUser(session.value)) else None)
  }

  /**
   * The pages read `token` from the context and `_id` from its user; neither is a
   * member, so both are undefined, while the user's id is its `id` member.
   */
  lemma TokenAndUnderscoreIdUndefined(session: Option<SessionUser>, isLoading: bool)
    ensures Member(UseAuth(session, isLoading).members, "token") == Null
    ensures session.Some? ==> Member(UseAuth(session, isLoading).user.value, "_id") == Null
    ensures session.Some? ==> Member(UseAuth(session, isLoading).user.value, "id") == Str(session.value.id)
  {
    assert "token" !in ProvidedMembers;
    assert "_id" !in UserMembers;
  }
}
