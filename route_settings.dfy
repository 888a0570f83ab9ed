// GET and PUT /api/users/settings with their helpers getDefaultSettings and
// validateSettings (app/api/users/settings/route.ts).

module SettingsRoute {
  import opened Common
  import opened Db
  import opened Store
  import opened Auth
  import opened ApiUtils

  // ---- defaults ------------------------------------------------------------

  const Visibilities: seq<string> := ["public", "registered", "private"]
  const Themes: seq<string> := ["light", "dark", "system"]
  const DateFormats: seq<string> := ["MM/DD/YYYY", "DD/MM/YYYY", "YYYY-MM-DD"]
  const TimeFormats: seq<string> := ["12h", "24h"]

  const DefaultVisibility: string := "registered"
  const DefaultTheme: string := "system"
  const DefaultDateFormat: string := "MM/DD/YYYY"
  const DefaultTimeFormat: string := "12h"

  /** The keys validateSettings checks against a list; the other personalization keys pass through. */
  const CheckedPersonalization: set<string> := {"theme", "dateFormat", "timeFormat"}

  /** The settings every user type starts from. */
  function CommonDefaults(): Settings {
    Settings(
      map["email" := Bool(true), "marketing" := Bool(false), "reservationReminders" := Bool(true),
          "reservationUpdates" := Bool(true), "specialOffers" := Bool(false)],
      map["profileVisibility" := Str(DefaultVisibility), "showReviews" := Bool(true),
          "shareDataWithPartners" := Bool(false)],
      map["theme" := Str(DefaultTheme), "language" := Str("en"), "currency" := Str("USD"),
          "dateFormat" := Str(DefaultDateFormat), "timeFormat" := Str(DefaultTimeFormat)])
  }

  /** `allowed.includes(v)` */
  predicate Allowed(v: Value, allowed: seq<string>) {
    v.Str? && v.s in allowed
  }

  /** What sanitising relies on: switches are booleans and the listed members hold allowed values. */
  predicate WellTyped(d: Settings) {
    && (forall k :: k in d.notifications ==> d.notifications[k].Bool?)
    && (forall k :: k in d.privacy && k != "profileVisibility" ==> d.privacy[k].Bool?)
    && Allowed(Member(d.privacy, "profileVisibility"), Visibilities)
    && Allowed(Member(d.personalization, "theme"), Themes)
    && Allowed(Member(d.personalization, "dateFormat"), DateFormats)
    && Allowed(Member(d.personalization, "timeFormat"), TimeFormats)
  }

  /** getDefaultSettings: restaurant accounts get two more switches, both on. */
  function DefaultSettings(t: UserType): (r: Settings)
    ensures WellTyped(r)
    ensures CheckedPersonalization <= r.personalization.Keys
  {
    assert DefaultVisibility == Visibilities[1] && DefaultTheme == Themes[2];
    assert DefaultDateFormat == DateFormats[0] && DefaultTimeFormat == TimeFormats[0];
    var c := CommonDefaults();
    if t == RestaurantRole then
      Settings(c.notifications["newReviews" := Bool(true)], c.privacy["showReservations" := Bool(true)], c.personalization)
    else c
  }

  /** The members of the defaults and the values of the listed ones. */
  lemma DefaultSettingsShape(t: UserType)
    ensures DefaultSettings(t).notifications.Keys ==
      {"email", "marketing", "reservationReminders", "reservationUpdates", "specialOffers"} +
      (if t == RestaurantRole then {"newReviews"} else {})
    ensures DefaultSettings(t).privacy.Keys ==
      {"profileVisibility", "showReviews", "shareDataWithPartners"} +
      (if t == RestaurantRole then {"showReservations"} else {})
    ensures DefaultSettings(t).personalization.Keys == {"theme", "language", "currency", "dateFormat", "timeFormat"}
    ensures DefaultSettings(t).privacy["profileVisibility"] == Str(DefaultVisibility)
    ensures DefaultSettings(t).personalization["theme"] == Str(DefaultTheme)
    ensures DefaultSettings(t).personalization["dateFormat"] == Str(DefaultDateFormat)
    ensures DefaultSettings(t).personalization["timeFormat"] == Str(DefaultTimeFormat)
  {
  }

  /** Restaurant defaults are the customer defaults plus newReviews and showReservations, both true. */
  lemma RestaurantDefaultsExtendCustomer()
    ensures "newReviews" !in DefaultSettings(CustomerRole).notifications
    ensures "showReservations" !in DefaultSettings(CustomerRole).privacy
    ensures DefaultSettings(RestaurantRole) ==
      var c := DefaultSettings(CustomerRole);
      Settings(c.notifications["newReviews" := Bool(true)], c.privacy["showReservations" := Bool(true)], c.personalization)
  {
  }

  // ---- validateSettings --------------------------------------------------------

  /** `allowed.includes(v) ? v : fallback` */
  function Pick(v: Value, allowed: seq<string>, fallback: Value): (r: Value)
    ensures Allowed(v, allowed) ==> r == v
    ensures !Allowed(v, allowed) ==> r == fallback
  {
    if Allowed(v, allowed) then v else fallback
  }

  /** The privacy loop body: profileVisibility is checked against its list, the rest become booleans. */
  function SanitizedPrivacy(key: string, v: Value, d: Settings): Value {
    if key == "profileVisibility" then Pick(v, Visibilities, Member(d.privacy, "profileVisibility"))
    else Bool(Truthy(v))
  }

  /**
   * Merge a body into defaults `d` section by section (a supplied member overrides the
   * default one), then sanitise the result against `d`.
   */
  function Sanitized(s: Settings, d: Settings): (r: Settings)
    ensures forall k :: k in r.notifications ==> r.notifications[k].Bool?
    ensures forall k :: k in r.privacy && k != "profileVisibility" ==> r.privacy[k].Bool?
    ensures Allowed(Member(r.personalization, "theme"), Themes) ||
      Member(r.personalization, "theme") == Member(d.personalization, "theme")
    ensures Allowed(Member(r.personalization, "dateFormat"), DateFormats) ||
      Member(r.personalization, "dateFormat") == Member(d.personalization, "dateFormat")
    ensures Allowed(Member(r.personalization, "timeFormat"), TimeFormats) ||
      Member(r.personalization, "timeFormat") == Member(d.personalization, "timeFormat")
  {
    var n := d.notifications + s.notifications;
    var p := d.privacy + s.privacy;
    var z := d.personalization + s.personalization;
    Settings(
      map k | k in n :: Bool(Truthy(n[k])),
      map k | k in p :: SanitizedPrivacy(k, p[k], d),
      z["theme" := Pick(Member(z, "theme"), Themes, Member(d.personalization, "theme"))]
       ["dateFormat" := Pick(Member(z, "dateFormat"), DateFormats, Member(d.personalization, "dateFormat"))]
       ["timeFormat" := Pick(Member(z, "timeFormat"), TimeFormats, Member(d.personalization, "timeFormat"))])
  }

  /** What validateSettings returns for a body `s` from a user of type `t`. */
  function Validated(s: Settings, t: UserType): (r: Settings)
    ensures WellTyped(r)
  {
    SanitizedWellTyped(s, DefaultSettings(t));
    Sanitized(s, DefaultSettings(t))
  }

  /** The notifications loop: every member becomes `Boolean(value)`. */
  method CoerceNotifications(section: map<string, Value>) returns (r: map<string, Value>)
    ensures r == map k | k in section :: Bool(Truthy(section[k]))
  {
    r := section;
    var keys := r.Keys;
    while keys != {}
      invariant keys <= r.Keys == section.Keys
      invariant forall k :: k in keys ==> r[k] == section[k]
      invariant forall k :: k in r && k !in keys ==> r[k] == Bool(Truthy(section[k]))
      decreases keys
    {
      var key :| key in keys;
      r := r[key := Bool(Truthy(r[key]))];
      keys := keys - {key};
    }
  }

  /** The privacy loop: profileVisibility is checked against its list, every other member becomes a boolean. */
  method SanitizePrivacySection(section: map<string, Value>, defaults: Settings) returns (r: map<string, Value>)
    ensures r == map k | k in section :: SanitizedPrivacy(k, section[k], defaults)
  {
    r := section;
    var keys := r.Keys;
    while keys != {}
      invariant keys <= r.Keys == section.Keys
      invariant forall k :: k in keys ==> r[k] == section[k]
      invariant forall k :: k in r && k !in keys ==> r[k] == SanitizedPrivacy(k, section[k], defaults)
      decreases keys
    {
      var key :| key in keys;
      if key == "profileVisibility" {
        if !Allowed(r[key], Visibilities) {
          r := r[key := Member(defaults.privacy, "profileVisibility")];
        }
      } else {
        r := r[key := Bool(Truthy(r[key]))];
      }
      keys := keys - {key};
    }
  }

  /** `if (!allowed.includes(p[key])) p[key] = fallback` */
  method CheckChoice(section: map<string, Value>, key: string, allowed: seq<string>, fallback: Value)
    returns (r: map<string, Value>)
    ensures r == section[key := Pick(Member(section, key), allowed, fallback)]
  {
    r := section;
    if !Allowed(Member(section, key), allowed) {
      r := r[key := fallback];
    } else {
      assert key in section;
      assert section[key := section[key]] == section;
    }
  }

  /** The body of validateSettings once the defaults are fetched: merge, then sanitise each section. */
  method SanitizeSettings(settings: Settings, defaults: Settings) returns (r: Settings)
    ensures r == Sanitized(settings, defaults)
  {
    var notifications := CoerceNotifications(defaults.notifications + settings.notifications);
    var privacy := SanitizePrivacySection(defaults.privacy + settings.privacy, defaults);
    var personalization := defaults.personalization + settings.personalization;
    personalization := CheckChoice(personalization, "theme", Themes, Member(defaults.personalization, "theme"));
    personalization := CheckChoice(personalization, "dateFormat", DateFormats, Member(defaults.personalization, "dateFormat"));
    personalization := CheckChoice(personalization, "timeFormat", TimeFormats, Member(defaults.personalization, "timeFormat"));
    r := Settings(notifications, privacy, personalization);
  }

  /** validateSettings: sanitise against the defaults of the caller's user type. */
  method ValidateSettings(settings: Settings, userType: UserType) returns (r: Settings)
    ensures r == Validated(settings, userType)
  {
    var defaults := DefaultSettings(userType);
    r := SanitizeSettings(settings, defaults);
  }

  /** Every default member is present, and nothing but default and supplied members. */
  lemma SanitizedKeys(s: Settings, d: Settings)
    ensures Sanitized(s, d).notifications.Keys == d.notifications.Keys + s.notifications.Keys
    ensures Sanitized(s, d).privacy.Keys == d.privacy.Keys + s.privacy.Keys
    ensures Sanitized(s, d).personalization.Keys ==
      d.personalization.Keys + s.personalization.Keys + CheckedPersonalization
  {
  }

  /**
   * A supplied notification or privacy switch wins over the default, as a boolean;
   * a switch that is not supplied keeps its default.
   */
  lemma SanitizedOverrides(s: Settings, d: Settings, k: string)
    requires WellTyped(d)
    ensures k in s.notifications ==> Sanitized(s, d).notifications[k] == Bool(Truthy(s.notifications[k]))
    ensures k !in s.notifications && k in d.notifications ==>
      Sanitized(s, d).notifications[k] == d.notifications[k]
    ensures k in s.privacy && k != "profileVisibility" ==> Sanitized(s, d).privacy[k] == Bool(Truthy(s.privacy[k]))
    ensures k !in s.privacy && k in d.privacy ==> Sanitized(s, d).privacy[k] == d.privacy[k]
  {
    if k !in s.notifications && k in d.notifications {
      assert d.notifications[k].Bool?;
    }
    if k !in s.privacy && k in d.privacy && k != "profileVisibility" {
      assert d.privacy[k].Bool?;
    }
  }

  /** Sanitising against well-typed defaults yields well-typed settings. */
  lemma SanitizedWellTyped(s: Settings, d: Settings)
    requires WellTyped(d)
    ensures WellTyped(Sanitized(s, d))
  {
  }

  /**
   * An allowed supplied value is kept and any other resets to the default; language,
   * currency and every other unchecked personalization member pass through as sent.
   */
  lemma SanitizedChoices(s: Settings, d: Settings)
    ensures "profileVisibility" in s.privacy ==>
      Sanitized(s, d).privacy["profileVisibility"] ==
      Pick(s.privacy["profileVisibility"], Visibilities, Member(d.privacy, "profileVisibility"))
    ensures "theme" in s.personalization ==>
      Sanitized(s, d).personalization["theme"] ==
      Pick(s.personalization["theme"], Themes, Member(d.personalization, "theme"))
    ensures "dateFormat" in s.personalization ==>
      Sanitized(s, d).personalization["dateFormat"] ==
      Pick(s.personalization["dateFormat"], DateFormats, Member(d.personalization, "dateFormat"))
    ensures "timeFormat" in s.personalization ==>
      Sanitized(s, d).personalization["timeFormat"] ==
      Pick(s.personalization["timeFormat"], TimeFormats, Member(d.personalization, "timeFormat"))
    ensures forall k :: k in s.personalization && k !in CheckedPersonalization ==>
      Sanitized(s, d).personalization[k] == s.personalization[k]
    ensures forall k :: k !in s.personalization && k in d.personalization && k !in CheckedPersonalization ==>
      Sanitized(s, d).personalization[k] == d.personalization[k]
  {
  }

  /** The notifications of sanitised settings are booleans, which sanitising keeps. */
  lemma NotificationsIdempotent(s: Settings, d: Settings)
    requires WellTyped(d)
    ensures Sanitized(Sanitized(s, d), d).notifications == Sanitized(s, d).notifications
  {
    var v := Sanitized(s, d);
    SanitizedKeys(s, d);
    SanitizedWellTyped(s, d);
    var w := Sanitized(v, d);
    assert d.notifications + v.notifications == v.notifications;
    forall k | k in v.notifications ensures w.notifications[k] == v.notifications[k] {
      assert v.notifications[k].Bool?;
    }
  }

  /** The privacy switches are booleans and profileVisibility is allowed, which sanitising keeps. */
  lemma PrivacyIdempotent(s: Settings, d: Settings)
    requires WellTyped(d)
    ensures Sanitized(Sanitized(s, d), d).privacy == Sanitized(s, d).privacy
  {
    var v := Sanitized(s, d);
    SanitizedKeys(s, d);
    SanitizedWellTyped(s, d);
    var w := Sanitized(v, d);
    assert d.privacy + v.privacy == v.privacy;
    forall k | k in v.privacy ensures w.privacy[k] == v.privacy[k] {
      if k != "profileVisibility" {
        assert v.privacy[k].Bool?;
      }
    }
  }

  /** The checked personalization members are allowed, which sanitising keeps. */
  lemma PersonalizationIdempotent(s: Settings, d: Settings)
    requires WellTyped(d)
    ensures Sanitized(Sanitized(s, d), d).personalization == Sanitized(s, d).personalization
  {
    var v := Sanitized(s, d);
    SanitizedKeys(s, d);
    SanitizedWellTyped(s, d);
    assert d.personalization + v.personalization == v.personalization;
  }

  /** Sanitising sanitised settings against the same well-typed defaults changes nothing. */
  lemma SanitizeIdempotent(s: Settings, d: Settings)
    requires WellTyped(d)
    ensures Sanitized(Sanitized(s, d), d) == Sanitized(s, d)
  {
    NotificationsIdempotent(s, d);
    PrivacyIdempotent(s, d);
    PersonalizationIdempotent(s, d);
  }

  /** validateSettings is idempotent for a fixed user type. */
  lemma ValidateIdempotent(s: Settings, t: UserType)
    ensures Validated(Validated(s, t), t) == Validated(s, t)
  {
    SanitizeIdempotent(s, DefaultSettings(t));
  }

  /** A body that sends nothing yields exactly the well-typed defaults it is sanitised against. */
  lemma SanitizedEmptyBody(d: Settings)
    requires WellTyped(d)
    requires CheckedPersonalization <= d.personalization.Keys
    ensures Sanitized(Settings(map[], map[], map[]), d) == d
  {
    var e := Settings(map[], map[], map[]);
    var v := Sanitized(e, d);
    SanitizedKeys(e, d);
    assert v.notifications == d.notifications by {
      forall k | k in d.notifications ensures v.notifications[k] == d.notifications[k] {
        SanitizedOverrides(e, d, k);
      }
    }
    assert v.privacy == d.privacy by {
      forall k | k in d.privacy ensures v.privacy[k] == d.privacy[k] {
        SanitizedOverrides(e, d, k);
      }
    }
  }

  /** An empty settings body validates to the defaults of the user type. */
  lemma ValidatedEmptyBody(t: UserType)
    ensures Validated(Settings(map[], map[], map[]), t) == DefaultSettings(t)
  {
    SanitizedEmptyBody(DefaultSettings(t));
  }

  // ---- the handlers ------------------------------------------------------------

  /** The settings GET answers for a user id: 404, the stored settings, or the type's defaults. */
  function SettingsOf(users: seq<User>, userId: string): (r: Response<Settings>)
    ensures FindUser(users, userId).None? ==> r == Err(404, "User not found")
    ensures FindUser(users, userId).Some? ==>
      var u := FindUser(users, userId).value;
      r == Ok(if u.settings.Some? then u.settings.value else DefaultSettings(u.userType))
  {
    match FindUser(users, userId)
    case None => Err(404, "User not found")
    case Some(u) =>
      if u.settings.None? then Ok(DefaultSettings(u.userType)) else Ok(u.settings.value)
  }

  /** GET: 401 from getAuthUser, otherwise the caller's settings. */
  function GetSettings(crypto: Crypto, header: Option<string>, session: Option<SessionUser>, users: seq<User>)
    : (r: Response<Settings>)
    ensures GetAuthUser(crypto, header, session).Failure? ==> r == Err(401, "Unauthorized")
    ensures GetAuthUser(crypto, header, session).Success? ==>
      r == SettingsOf(users, GetAuthUser(crypto, header, session).value.userId)
  {
    match AuthenticateRequest(crypto, header, session)
    case Err(code, msg) => Err(code, msg)
    case Ok(caller) => SettingsOf(users, caller.userId)
  }

  /** `updateOne({ _id }, { $set: { settings } })` on the users collection. */
  function WithSettings(users: seq<User>, userId: string, v: Settings): (r: seq<User>)
    ensures |r| == |users|
    ensures UserIndex(users, userId).None? ==> r == users
    ensures UserIndex(users, userId).Some? ==>
      var i := UserIndex(users, userId).value;
      r == users[i := users[i].(settings := Some(v))]
  {
    match UserIndex(users, userId)
    case None => users
    case Some(i) => users[i := users[i].(settings := Some(v))]
  }

  /** Settings stored by PUT are what the next GET returns. */
  lemma {:induction false} GetAfterPut(users: seq<User>, userId: string, v: Settings)
    requires FindUser(users, userId).Some?
    ensures SettingsOf(WithSettings(users, userId, v), userId) == Ok(v)
  {
    UserIndexFinds(users, userId);
    var i := UserIndex(users, userId).value;
    var us := WithSettings(users, userId, v);
    UserIndexFinds(us, userId);
    assert UserIndex(us, userId) == Some(i) by {
      assert us[i].id == userId;
      assert forall k :: 0 <= k < i ==> us[k] == users[k];
    }
  }

  /** The stored settings are not part of the email invariant. */
  lemma {:induction false} WithSettingsKeepsEmails(users: seq<User>, userId: string, v: Settings)
    requires UniqueEmails(users)
    ensures UniqueEmails(WithSettings(users, userId, v))
  {
    var us := WithSettings(users, userId, v);
    assert forall i :: 0 <= i < |us| ==> Field(us[i], "email") == Field(users[i], "email");
  }

  /** PUT: validate against the caller's user type, store, and return the stored settings. */
  method UpdateSettings(st: Store, crypto: Crypto, header: Option<string>, session: Option<SessionUser>, body: Settings)
    returns (r: Response<Settings>)
    modifies st
    ensures GetAuthUser(crypto, header, session).Failure? ==> r == Err(401, "Unauthorized")
    ensures GetAuthUser(crypto, header, session).Success? ==>
      var id := GetAuthUser(crypto, header, session).value.userId;
      && (FindUser(old(st.users), id).None? ==> r == Err(404, "User not found"))
      && (r.Ok? ==> FindUser(old(st.users), id).Some? &&
                    r.value == Validated(body, FindUser(old(st.users), id).value.userType))
    ensures r.Ok? <==> GetAuthUser(crypto, header, session).Success? &&
                       FindUser(old(st.users), GetAuthUser(crypto, header, session).value.userId).Some?
    ensures r.Ok? ==> st.users == WithSettings(old(st.users), GetAuthUser(crypto, header, session).value.userId, r.value)
    ensures r.Err? ==> st.users == old(st.users)
    ensures st.restaurants == old(st.restaurants) && st.reservations == old(st.reservations)
    ensures st.reviews == old(st.reviews) && st.favorites == old(st.favorites)
    ensures st.events == old(st.events)
    ensures old(st.Valid()) ==> st.Valid()
  {
    var auth := AuthenticateRequest(crypto, header, session);
    if auth.Err? {
      return Err(auth.status, auth.error);
    }
    var userDoc := FindUser(st.users, auth.value.userId);
    if userDoc.None? {
      return Err(404, "User not found");
    }
    var validated := ValidateSettings(body, userDoc.value.userType);
    if st.Valid() {
      WithSettingsKeepsEmails(st.users, auth.value.userId, validated);
    }
    st.users := WithSettings(st.users, auth.value.userId, validated);
    r := Ok(validated);
  }
}
