// GET and PUT /api/users/profile (app/api/users/profile/route.ts).

module ProfileRoute {
  import opened Common
  import opened Db
  import opened Store
  import opened Auth
  import opened ApiUtils

  // ---- GET -------------------------------------------------------------------

  /** A user document as GET returns it: every member but the password. */
  datatype ProfileView = ProfileView(
    id: string,
    userType: UserType,
    createdAt: int,
    profile: map<string, Value>,
    settings: Option<Settings>)

  /** The `{ password: 0 }` projection. */
  function View(u: User): (r: ProfileView)
    ensures r.id == u.id && r.userType == u.userType && r.createdAt == u.createdAt
    ensures r.profile == u.profile && r.settings == u.settings
  {
    ProfileView(u.id, u.userType, u.createdAt, u.profile, u.settings)
  }

  /** The projection reveals nothing about the password: users differing only in it look alike. */
  lemma ViewHidesPassword(u: User, password: string)
    ensures View(u.(password := password)) == View(u)
  {
  }

  /** GET: 401 from getAuthUser, 404 for an unknown id, otherwise the projected document. */
  function GetProfile(crypto: Crypto, header: Option<string>, session: Option<SessionUser>, users: seq<User>)
    : (r: Response<ProfileView>)
    ensures GetAuthUser(crypto, header, session).Failure? ==> r == Err(401, "Unauthorized")
    ensures GetAuthUser(crypto, header, session).Success? ==>
      var id := GetAuthUser(crypto, header, session).value.userId;
      && (FindUser(users, id).None? ==> r == Err(404, "User not found"))
      && (FindUser(users, id).Some? ==> r == Ok(View(FindUser(users, id).value)))
  {
    match AuthenticateRequest(crypto, header, session)
    case Err(code, msg) => Err(code, msg)
    case Ok(caller) =>
      match FindUser(users, caller.userId)
      case None => Err(404, "User not found")
      case Some(u) => Ok(View(u))
  }

  // ---- PUT -------------------------------------------------------------------

  /** The members a profile update may set. */
  const AllowedFields: seq<string> := ["name", "email", "phone", "profileImage", "bio", "preferences"]

  /**
   * The `updateData` object: the whitelisted members of the body, with their values.
   * A JSON body has no `undefined` members, so "not undefined" is "present"; a
   * member sent as `null` is included.
   */
  function ProfileUpdate(data: map<string, Value>): (r: map<string, Value>)
    ensures forall k :: k in r <==> k in data && k in AllowedFields
    ensures forall k :: k in r ==> r[k] == data[k]
  {
    map k | k in data && k in AllowedFields :: data[k]
  }

  /** The allowedFields loop, building the update member by member. */
  method BuildProfileUpdate(data: map<string, Value>) returns (update: map<string, Value>)
    ensures update == ProfileUpdate(data)
  {
    update := map[];
    for i := 0 to |AllowedFields|
      invariant forall k :: k in update <==> k in data && k in AllowedFields[..i]
      invariant forall k :: k in update ==> update[k] == data[k]
    {
      var field := AllowedFields[i];
      if field in data {
        update := update[field := data[field]];
      }
      assert AllowedFields[..i + 1] == AllowedFields[..i] + [field];
    }
    assert AllowedFields[..|AllowedFields|] == AllowedFields;
  }

  /** Neither the password nor the role can be sent through a profile update. */
  lemma UpdateNeverWritesCredentials(data: map<string, Value>)
    ensures "password" !in ProfileUpdate(data) && "userType" !in ProfileUpdate(data)
    ensures "_id" !in ProfileUpdate(data) && "settings" !in ProfileUpdate(data)
  {
  }

  /** `updateOne({ _id }, { $set: updateData })` on the users collection. */
  function WithProfile(users: seq<User>, userId: string, update: map<string, Value>): (r: seq<User>)
    ensures |r| == |users|
    ensures UserIndex(users, userId).None? ==> r == users
    ensures UserIndex(users, userId).Some? ==>
      var i := UserIndex(users, userId).value;
      r == users[i := users[i].(profile := users[i].profile + update)]
  {
    match UserIndex(users, userId)
    case None => users
    case Some(i) => users[i := users[i].(profile := users[i].profile + update)]
  }

  /** Some document other than the one the update targets already holds email `v`. */
  predicate EmailHeldElsewhere(users: seq<User>, userId: string, v: Value) {
    exists j :: 0 <= j < |users| && Field(users[j], "email") == v && UserIndex(users, userId) != Some(j)
  }

  /**
   * An email that no other document holds keeps emails unique. Without that condition
   * the update may give two users the same email (see `UpdateCanDuplicateEmail`).
   */
  lemma {:induction false} WithProfileKeepsEmails(users: seq<User>, userId: string, update: map<string, Value>)
    requires UniqueEmails(users)
    requires "email" in update ==> !EmailHeldElsewhere(users, userId, update["email"])
    ensures UniqueEmails(WithProfile(users, userId, update))
  {
    var us := WithProfile(users, userId, update);
    if UserIndex(users, userId).Some? {
      var i := UserIndex(users, userId).value;
      forall a, b | 0 <= a < b < |us| ensures Field(us[a], "email") != Field(us[b], "email") {
        if "email" in update && (a == i || b == i) {
          var other := if a == i then b else a;
          assert us[other] == users[other];
          assert Field(us[i], "email") == update["email"];
        } else {
          assert Field(us[a], "email") == Field(users[a], "email");
          assert Field(us[b], "email") == Field(users[b], "email");
        }
      }
    }
  }

  /** The profile route does not check that a new email is free. */
  lemma UpdateCanDuplicateEmail()
    ensures var users := [User("1", "h1", CustomerRole, 0, map["email" := Str("a@x")], None),
                          User("2", "h2", CustomerRole, 0, map["email" := Str("b@x")], None)];
      UniqueEmails(users) && !UniqueEmails(WithProfile(users, "2", ProfileUpdate(map["email" := Str("a@x")])))
  {
    var users := [User("1", "h1", CustomerRole, 0, map["email" := Str("a@x")], None),
                  User("2", "h2", CustomerRole, 0, map["email" := Str("b@x")], None)];
    assert UserIndex(users, "2") == Some(1) by {
      assert users[0].id != "2";
    }
    var us := WithProfile(users, "2", ProfileUpdate(map["email" := Str("a@x")]));
    assert Field(us[0], "email") == Field(us[1], "email");
  }

  /**
   * PUT: write the whitelisted members into the caller's document; the other users,
   * the caller's password, role and settings, and every other collection stay as they were.
   */
  method UpdateProfile(st: Store, crypto: Crypto, header: Option<string>, session: Option<SessionUser>,
                       data: map<string, Value>)
    returns (r: Response<string>)
    modifies st
    ensures GetAuthUser(crypto, header, session).Failure? ==> r == Err(401, "Unauthorized")
    ensures GetAuthUser(crypto, header, session).Success? &&
            UserIndex(old(st.users), GetAuthUser(crypto, header, session).value.userId).None? ==>
            r == Err(404, "User not found")
    ensures GetAuthUser(crypto, header, session).Success? &&
            UserIndex(old(st.users), GetAuthUser(crypto, header, session).value.userId).Some? ==>
            r.Ok?
    ensures r.Err? ==> st.users == old(st.users)
    ensures r.Ok? ==>
      && r.value == "Profile updated successfully"
      && GetAuthUser(crypto, header, session).Success?
      && var id := GetAuthUser(crypto, header, session).value.userId;
      && UserIndex(old(st.users), id).Some?
      && st.users == WithProfile(old(st.users), id, ProfileUpdate(data))
    ensures st.restaurants == old(st.restaurants) && st.reservations == old(st.reservations)
    ensures st.reviews == old(st.reviews) && st.favorites == old(st.favorites)
    ensures st.events == old(st.events)
    ensures (old(st.Valid()) && r.Ok? &&
             ("email" in data ==>
                !EmailHeldElsewhere(old(st.users), GetAuthUser(crypto, header, session).value.userId, data["email"])))
            ==> st.Valid()
    ensures r.Err? ==> st.Valid() == old(st.Valid())
  {
    var auth := AuthenticateRequest(crypto, header, session);
    if auth.Err? {
      return Err(auth.status, auth.error);
    }
    var update := BuildProfileUpdate(data);
    if UserIndex(st.users, auth.value.userId).None? {
      return Err(404, "User not found");
    }
    if st.Valid() && ("email" in data ==> !EmailHeldElsewhere(st.users, auth.value.userId, data["email"])) {
      WithProfileKeepsEmails(st.users, auth.value.userId, update);
    }
    st.users := WithProfile(st.users, auth.value.userId, update);
    r := Ok("Profile updated successfully");
  }

  /** What a successful update does to the caller's document, member by member. */
  lemma UpdateTouchesOnlyWhitelisted(users: seq<User>, userId: string, data: map<string, Value>)
    requires UserIndex(users, userId).Some?
    ensures var i := UserIndex(users, userId).value;
      var after := WithProfile(users, userId, ProfileUpdate(data));
      && (forall j :: 0 <= j < |users| && j != i ==> after[j] == users[j])
      && after[i].password == users[i].password && after[i].userType == users[i].userType
      && after[i].settings == users[i].settings && after[i].id == users[i].id
      && (forall k :: k in after[i].profile <==> k in users[i].profile || (k in data && k in AllowedFields))
      && (forall k :: k in after[i].profile ==>
            after[i].profile[k] == if k in data && k in AllowedFields then data[k] else users[i].profile[k])
  {
  }
}
