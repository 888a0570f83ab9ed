// POST /api/users/change-password (app/api/users/change-password/route.ts).

module ChangePasswordRoute {
  import opened Common
  import opened Db
  import opened Store
  import opened Auth
  import opened ApiUtils

  /** The JSON body; an absent or empty member counts as missing. */
  datatype PasswordBody = PasswordBody(currentPassword: Option<string>, newPassword: Option<string>)

  const MinPasswordLength: nat := 8

  /**
   * The guard chain, in the route's order; on success the hash to store. The body is
   * checked before the user is looked up.
   */
  function DecideChangePassword(crypto: Crypto, header: Option<string>, session: Option<SessionUser>,
                                body: PasswordBody, users: seq<User>)
    : (r: Response<string>)
    ensures GetAuthUser(crypto, header, session).Failure? ==> r == Err(401, "Unauthorized")
    ensures GetAuthUser(crypto, header, session).Success? &&
            (!Present(body.currentPassword) || !Present(body.newPassword)) ==>
            r == Err(400, "Current password and new password are required")
    ensures GetAuthUser(crypto, header, session).Success? &&
            Present(body.currentPassword) && Present(body.newPassword) &&
            |body.newPassword.value| < MinPasswordLength ==>
            r == Err(400, "New password must be at least 8 characters long")
    ensures GetAuthUser(crypto, header, session).Success? &&
            Present(body.currentPassword) && Present(body.newPassword) &&
            |body.newPassword.value| >= MinPasswordLength &&
            FindUser(users, GetAuthUser(crypto, header, session).value.userId).None? ==>
            r == Err(404, "User not found")
    ensures GetAuthUser(crypto, header, session).Success? &&
            Present(body.currentPassword) && Present(body.newPassword) &&
            |body.newPassword.value| >= MinPasswordLength &&
            FindUser(users, GetAuthUser(crypto, header, session).value.userId).Some? &&
            !crypto.compare(body.currentPassword.value,
                            FindUser(users, GetAuthUser(crypto, header, session).value.userId).value.password) ==>
            r == Err(400, "Current password is incorrect")
    ensures GetAuthUser(crypto, header, session).Success? &&
            Present(body.currentPassword) && Present(body.newPassword) &&
            |body.newPassword.value| >= MinPasswordLength &&
            FindUser(users, GetAuthUser(crypto, header, session).value.userId).Some? &&
            crypto.compare(body.currentPassword.value,
                           FindUser(users, GetAuthUser(crypto, header, session).value.userId).value.password) ==>
            r.Ok?
    ensures r.Ok? ==>
      && GetAuthUser(crypto, header, session).Success?
      && Present(body.currentPassword) && Present(body.newPassword)
      && |body.newPassword.value| >= MinPasswordLength
      && var u := FindUser(users, GetAuthUser(crypto, header, session).value.userId);
      && u.Some? && crypto.compare(body.currentPassword.value, u.value.password)
      && r.value == crypto.hash(body.newPassword.value)
  {
    match AuthenticateRequest(crypto, header, session)
    case Err(code, msg) => Err(code, msg)
    case Ok(caller) =>
      if !Present(body.currentPassword) || !Present(body.newPassword) then
        Err(400, "Current password and new password are required")
      else if |body.newPassword.value| < MinPasswordLength then
        Err(400, "New password must be at least 8 characters long")
      else
        match FindUser(users, caller.userId)
        case None => Err(404, "User not found")
        case Some(u) =>
          if !crypto.compare(body.currentPassword.value, u.password) then Err(400, "Current password is incorrect")
          else Ok(crypto.hash(body.newPassword.value))
  }

  /** `updateOne({ _id }, { $set: { password } })` on the users collection. */
  function WithPassword(users: seq<User>, userId: string, hashed: string): (r: seq<User>)
    ensures |r| == |users|
    ensures UserIndex(users, userId).None? ==> r == users
    ensures UserIndex(users, userId).Some? ==>
      var i := UserIndex(users, userId).value;
      r == users[i := users[i].(password := hashed)]
  {
    match UserIndex(users, userId)
    case None => users
    case Some(i) => users[i := users[i].(password := hashed)]
  }

  /** Replacing a password leaves every email where it was. */
  lemma {:induction false} WithPasswordKeepsEmails(users: seq<User>, userId: string, hashed: string)
    requires UniqueEmails(users)
    ensures UniqueEmails(WithPassword(users, userId, hashed))
  {
    var us := WithPassword(users, userId, hashed);
    assert forall i :: 0 <= i < |us| ==> Field(us[i], "email") == Field(users[i], "email");
  }

  /** POST: on success only the caller's password changes, to the hash of the new one. */
  method ChangePassword(st: Store, crypto: Crypto, header: Option<string>, session: Option<SessionUser>, body: PasswordBody)
    returns (r: Response<string>)
    modifies st
    ensures var d := DecideChangePassword(crypto, header, session, body, old(st.users));
      && (d.Err? ==> r == Err(d.status, d.error) && st.users == old(st.users))
      && (d.Ok? ==> r == Ok("Password updated successfully") &&
                    st.users == WithPassword(old(st.users), GetAuthUser(crypto, header, session).value.userId, d.value))
    ensures st.restaurants == old(st.restaurants) && st.reservations == old(st.reservations)
    ensures st.reviews == old(st.reviews) && st.favorites == old(st.favorites)
    ensures st.events == old(st.events)
    ensures old(st.Valid()) ==> st.Valid()
  {
    var d := DecideChangePassword(crypto, header, session, body, st.users);
    if d.Err? {
      return Err(d.status, d.error);
    }
    var caller := AuthenticateRequest(crypto, header, session).value;
    if st.Valid() {
      WithPasswordKeepsEmails(st.users, caller.userId, d.value);
    }
    st.users := WithPassword(st.users, caller.userId, d.value);
    r := Ok("Password updated successfully");
  }

  /**
   * After a change, logging in with the new password succeeds, provided bcrypt
   * accepts a password against its own hash.
   */
  lemma {:induction false} LoginAfterChange(users: seq<User>, crypto: Crypto, userId: string, email: string, newPassword: string)
    requires UniqueEmails(users)
    requires FindUser(users, userId).Some? && Field(FindUser(users, userId).value, "email") == Str(email)
    requires crypto.compare(newPassword, crypto.hash(newPassword))
    ensures LoginUser(WithPassword(users, userId, crypto.hash(newPassword)), crypto, email, newPassword).Success?
  {
    UserIndexFinds(users, userId);
    var i := UserIndex(users, userId).value;
    var us := WithPassword(users, userId, crypto.hash(newPassword));
    assert Field(us[i], "email") == Str(email);
    assert us[i] in us;
    var found := FindByEmail(us, email).value;
    var j :| 0 <= j < |us| && us[j] == found;
    assert j == i;
  }
}
