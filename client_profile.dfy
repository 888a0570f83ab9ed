// The profile and settings page (app/dashboard/profile/page.tsx): the form state,
// its change handlers and the three submits. The server's answer to a submit is a
// parameter of the method that models it.

module ProfilePage {
  import opened Common
  import opened Db
  import ChangePasswordRoute
  import ProfileRoute
  import SettingsRoute
  import Auth
  import ApiUtils

  /** The members of `profileData` and of `passwordData`. */
  const ProfileFields: set<string> := {"name", "email", "phone", "bio", "profileImage"}
  const PasswordFields: set<string> := {"currentPassword", "newPassword", "confirmPassword"}

  const MismatchError: string := "New passwords do not match"
  const TooShortError: string := "New password must be at least 8 characters long"

  /** The form's starting settings, before the user's own arrive. */
  function InitialSettings(): Settings {
    Settings(
      map["email" := Bool(true), "marketing" := Bool(false), "reservationReminders" := Bool(true),
          "reservationUpdates" := Bool(true), "specialOffers" := Bool(false), "newReviews" := Bool(true)],
      map["profileVisibility" := Str("registered"), "showReviews" := Bool(true),
          "showReservations" := Bool(true), "shareDataWithPartners" := Bool(false)],
      map["theme" := Str("system"), "language" := Str("en"), "currency" := Str("USD"),
          "dateFormat" := Str("MM/DD/YYYY"), "timeFormat" := Str("12h")])
  }

  /** The password form with every field empty. */
  function EmptyPasswords(): (r: map<string, string>)
    ensures r.Keys == PasswordFields && forall k :: k in r ==> r[k] == ""
  {
    map["currentPassword" := "", "newPassword" := "", "confirmPassword" := ""]
  }

  /** An error message and a success message shown under one form. */
  datatype Notice = Notice(error: string, success: string)

  const Cleared: Notice := Notice("", "")

  /** `error.message || fallback`, where the message is the server's `error` member ("" when absent). */
  function Reason(message: string, fallback: string): (r: string)
    ensures message != "" ==> r == message
    ensures message == "" ==> r == fallback
  {
    if message != "" then message else fallback
  }

  /** The outcome of a submit: the success text, or the failure reason with its fallback. */
  function Outcome<T>(answer: Response<T>, success: string, fallback: string): (r: Notice)
    ensures answer.Ok? ==> r == Notice("", success)
    ensures answer.Err? ==> r.success == "" && r.error == Reason(answer.error, fallback)
    ensures fallback != "" ==> (r.error == "" <==> answer.Ok?)
  {
    if answer.Ok? then Notice("", success) else Notice(Reason(answer.error, fallback), "")
  }

  /**
   * The client-side password checks, in order: the confirmation must match, then the
   * new password must have at least 8 characters; none means the request is sent.
   */
  function PasswordGuard(newPassword: string, confirmPassword: string): (r: Option<string>)
    ensures r == Some(MismatchError) <==> newPassword != confirmPassword
    ensures r == Some(TooShortError) <==> newPassword == confirmPassword && |newPassword| < 8
    ensures r.None? <==> newPassword == confirmPassword && |newPassword| >= 8
  {
    if newPassword != confirmPassword then Some(MismatchError)
    else if |newPassword| < 8 then Some(TooShortError)
    else None
  }

  /** The body of the change-password request. */
  datatype PasswordRequest = PasswordRequest(currentPassword: string, newPassword: string)

  /** The request as the route reads it: an empty member counts as missing there. */
  function AsBody(q: PasswordRequest): ChangePasswordRoute.PasswordBody {
    ChangePasswordRoute.PasswordBody(Some(q.currentPassword), Some(q.newPassword))
  }

  /** The profile form as a JSON body: every member a string. */
  function AsJson(m: map<string, string>): (r: map<string, Value>)
    ensures r.Keys == m.Keys && forall k :: k in m ==> r[k] == Str(m[k])
  {
    map k | k in m :: Str(m[k])
  }

  class ProfileForm {
    var profileData: map<string, string>
    var passwordData: map<string, string>
    var settings: Settings
    var profileNotice: Notice
    var passwordNotice: Notice
    var settingsNotice: Notice

    /** The members the submits read are always there: the handlers only add or overwrite. */
    predicate Valid()
      reads this
    {
      ProfileFields <= profileData.Keys && PasswordFields <= passwordData.Keys
    }

    constructor ()
      ensures Valid()
      ensures profileData == map k | k in ProfileFields :: ""
      ensures passwordData == EmptyPasswords()
      ensures settings == InitialSettings()
      ensures profileNotice == Cleared && passwordNotice == Cleared && settingsNotice == Cleared
    {
      profileData := map k | k in ProfileFields :: "";
      passwordData := EmptyPasswords();
      settings := InitialSettings();
      profileNotice := Cleared;
      passwordNotice := Cleared;
      settingsNotice := Cleared;
    }

    /** handleProfileChange: the input named `name` takes `value`. */
    method HandleProfileChange(name: string, value: string)
      requires Valid()
      modifies this
      ensures Valid()
      ensures profileData.Keys == old(profileData.Keys) + {name} && profileData[name] == value
      ensures forall k :: k in old(profileData) && k != name ==> profileData[k] == old(profileData[k])
      ensures passwordData == old(passwordData) && settings == old(settings)
      ensures profileNotice == old(profileNotice) && passwordNotice == old(passwordNotice)
      ensures settingsNotice == old(settingsNotice)
    {
      profileData := profileData[name := value];
    }

    /** handlePasswordChange: the password input named `name` takes `value`. */
    method HandlePasswordChange(name: string, value: string)
      requires Valid()
      modifies this
      ensures Valid()
      ensures passwordData.Keys == old(passwordData.Keys) + {name} && passwordData[name] == value
      ensures forall k :: k in old(passwordData) && k != name ==> passwordData[k] == old(passwordData[k])
      ensures profileData == old(profileData) && settings == old(settings)
      ensures profileNotice == old(profileNotice) && passwordNotice == old(passwordNotice)
      ensures settingsNotice == old(settingsNotice)
    {
      passwordData := passwordData[name := value];
    }

    /** handleProfileImageChange: only the image URL changes. */
    method HandleProfileImageChange(url: string)
      requires Valid()
      modifies this
      ensures Valid()
      ensures profileData.Keys == old(profileData.Keys) && profileData["profileImage"] == url
      ensures forall k :: k in profileData && k != "profileImage" ==> profileData[k] == old(profileData[k])
      ensures passwordData == old(passwordData) && settings == old(settings)
      ensures profileNotice == old(profileNotice) && passwordNotice == old(passwordNotice)
      ensures settingsNotice == old(settingsNotice)
    {
      profileData := profileData["profileImage" := url];
    }

    /** handleNotificationChange: one switch of the notifications section. */
    method HandleNotificationChange(key: string, value: bool)
      requires Valid()
      modifies this
      ensures Valid()
      ensures settings.notifications.Keys == old(settings.notifications.Keys) + {key}
      ensures settings.notifications[key] == Bool(value)
      ensures forall k :: k in old(settings.notifications) && k != key ==>
        settings.notifications[k] == old(settings.notifications[k])
      ensures settings.privacy == old(settings.privacy) && settings.personalization == old(settings.personalization)
      ensures profileData == old(profileData) && passwordData == old(passwordData)
      ensures profileNotice == old(profileNotice) && passwordNotice == old(passwordNotice)
      ensures settingsNotice == old(settingsNotice)
    {
      settings := settings.(notifications := settings.notifications[key := Bool(value)]);
    }

    /** handlePrivacyChange: one member of the privacy section. */
    method HandlePrivacyChange(key: string, value: Value)
      requires Valid()
      modifies this
      ensures Valid()
      ensures settings.privacy.Keys == old(settings.privacy.Keys) + {key}
      ensures settings.privacy[key] == value
      ensures forall k :: k in old(settings.privacy) && k != key ==> settings.privacy[k] == old(settings.privacy[k])
      ensures settings.notifications == old(settings.notifications)
      ensures settings.personalization == old(settings.personalization)
      ensures profileData == old(profileData) && passwordData == old(passwordData)
      ensures profileNotice == old(profileNotice) && passwordNotice == old(passwordNotice)
      ensures settingsNotice == old(settingsNotice)
    {
      settings := settings.(privacy := settings.privacy[key := value]);
    }

    /** handlePersonalizationChange: one member of the personalization section. */
    method HandlePersonalizationChange(key: string, value: Value)
      requires Valid()
      modifies this
      ensures Valid()
      ensures settings.personalization.Keys == old(settings.personalization.Keys) + {key}
      ensures settings.personalization[key] == value
      ensures forall k :: k in old(settings.personalization) && k != key ==>
        settings.personalization[k] == old(settings.personalization[k])
      ensures settings.notifications == old(settings.notifications) && settings.privacy == old(settings.privacy)
      ensures profileData == old(profileData) && passwordData == old(passwordData)
      ensures profileNotice == old(profileNotice) && passwordNotice == old(passwordNotice)
      ensures settingsNotice == old(settingsNotice)
    {
      settings := settings.(personalization := settings.personalization[key := value]);
    }

    /** saveProfile: the whole profile form is sent; `answer` is the server's reply. */
    method SaveProfile(answer: Response<Value>) returns (sent: map<string, Value>)
      requires Valid()
      modifies this
      ensures Valid()
      ensures sent == AsJson(profileData)
      ensures profileNotice == Outcome(answer, "Profile updated successfully", "Failed to update profile")
      ensures profileData == old(profileData) && passwordData == old(passwordData) && settings == old(settings)
      ensures passwordNotice == old(passwordNotice) && settingsNotice == old(settingsNotice)
    {
      profileNotice := Cleared;
      sent := AsJson(profileData);
      if answer.Ok? {
        profileNotice := profileNotice.(success := "Profile updated successfully");
      } else {
        profileNotice := profileNotice.(error := Reason(answer.error, "Failed to update profile"));
      }
    }

    /**
     * changePassword: the guards first, with nothing sent when one fails; then the
     * current and new passwords are sent and a success empties the whole form.
     */
    method ChangePassword(answer: Response<Value>) returns (sent: Option<PasswordRequest>)
      requires Valid()
      modifies this
      ensures Valid()
      ensures var g := PasswordGuard(old(passwordData["newPassword"]), old(passwordData["confirmPassword"]));
        && (g.Some? ==> sent.None? && passwordNotice == Notice(g.value, "") && passwordData == old(passwordData))
        && (g.None? ==> sent == Some(PasswordRequest(old(passwordData["currentPassword"]), old(passwordData["newPassword"]))))
        && (g.None? ==> passwordNotice == Outcome(answer, "Password changed successfully", "Failed to change password"))
        && (g.None? && answer.Ok? ==> passwordData == EmptyPasswords())
        && (g.None? && answer.Err? ==> passwordData == old(passwordData))
      ensures profileData == old(profileData) && settings == old(settings)
      ensures profileNotice == old(profileNotice) && settingsNotice == old(settingsNotice)
    {
      passwordNotice := Cleared;
      if passwordData["newPassword"] != passwordData["confirmPassword"] {
        passwordNotice := passwordNotice.(error := MismatchError);
        return None;
      }
      if |passwordData["newPassword"]| < 8 {
        passwordNotice := passwordNotice.(error := TooShortError);
        return None;
      }
      sent := Some(PasswordRequest(passwordData["currentPassword"], passwordData["newPassword"]));
      if answer.Ok? {
        passwordNotice := passwordNotice.(success := "Password changed successfully");
        passwordData := EmptyPasswords();
      } else {
        passwordNotice := passwordNotice.(error := Reason(answer.error, "Failed to change password"));
      }
    }

    /** saveSettings: the form's settings are sent and replaced by the ones the server returns. */
    method SaveSettings(answer: Response<Settings>) returns (sent: Settings)
      requires Valid()
      modifies this
      ensures Valid()
      ensures sent == old(settings)
      ensures answer.Ok? ==> settings == answer.value
      ensures answer.Err? ==> settings == old(settings)
      ensures settingsNotice == Outcome(answer, "Settings updated successfully", "Failed to update settings")
      ensures profileData == old(profileData) && passwordData == old(passwordData)
      ensures profileNotice == old(profileNotice) && passwordNotice == old(passwordNotice)
    {
      settingsNotice := Cleared;
      sent := settings;
      if answer.Ok? {
        settings := answer.value;
        settingsNotice := settingsNotice.(success := "Settings updated successfully");
      } else {
        settingsNotice := settingsNotice.(error := Reason(answer.error, "Failed to update settings"));
      }
    }
  }

  // ---- the form against the routes ----------------------------------------------

  /** A request the client lets through never meets the route's own length check. */
  lemma SentPasswordLongEnough(newPassword: string, confirmPassword: string, currentPassword: string,
                               crypto: Auth.Crypto, header: Option<string>, session: Option<ApiUtils.SessionUser>,
                               users: seq<User>)
    requires PasswordGuard(newPassword, confirmPassword).None?
    ensures ChangePasswordRoute.DecideChangePassword(crypto, header, session,
              AsBody(PasswordRequest(currentPassword, newPassword)), users)
            != Err(400, TooShortError)
  {
  }

  /** The route's minimum is the client's: a new password the route accepts as long enough passes here once confirmed. */
  lemma SameMinimumLength(newPassword: string)
    ensures PasswordGuard(newPassword, newPassword).None? <==> |newPassword| >= ChangePasswordRoute.MinPasswordLength
  {
  }

  /** After a successful change the emptied form fails the length check, so it cannot be resent as it is. */
  lemma EmptiedFormBlocked()
    ensures PasswordGuard(EmptyPasswords()["newPassword"], EmptyPasswords()["confirmPassword"]) == Some(TooShortError)
  {
  }

  /** Every member of the profile form the page sends is one the route writes. */
  lemma ProfileFieldsAllWritten(profileData: map<string, string>)
    requires ProfileFields <= profileData.Keys
    ensures forall k :: k in ProfileFields ==> k in ProfileRoute.ProfileUpdate(AsJson(profileData))
    ensures forall k :: k in ProfileFields ==> ProfileRoute.ProfileUpdate(AsJson(profileData))[k] == Str(profileData[k])
  {
    assert forall k :: k in ProfileFields ==> k in ProfileRoute.AllowedFields by {
      assert ProfileRoute.AllowedFields[0] == "name" && ProfileRoute.AllowedFields[1] == "email";
      assert ProfileRoute.AllowedFields[2] == "phone" && ProfileRoute.AllowedFields[3] == "profileImage";
      assert ProfileRoute.AllowedFields[4] == "bio";
    }
  }

  /** The starting settings are the restaurant defaults, which validation keeps as they are. */
  lemma InitialSettingsAreDefaults()
    ensures InitialSettings() == SettingsRoute.DefaultSettings(RestaurantRole)
    ensures SettingsRoute.Validated(InitialSettings(), RestaurantRole) == InitialSettings()
  {
    SettingsRoute.ValidatedEmptyBody(RestaurantRole);
    SettingsRoute.ValidateIdempotent(Settings(map[], map[], map[]), RestaurantRole);
  }
}
