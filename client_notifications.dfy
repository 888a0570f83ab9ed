// The client's notification list (context/socket-context.tsx) and the bell menu
// that shows it (components/notifications.tsx). Socket events arrive as method
// calls; the random id and the clock reading are parameters.

module Notifications {
  import opened Common
  import opened Db
  import AuthContext

  /** The part of an event payload the menu reads: `data._id` and `data.restaurantId`. */
  datatype Payload = Payload(id: Option<string>, restaurantId: Option<string>)

  /** `type` is "reservation", "review", "message" or "system" as sent by the server. */
  datatype Notification = Notification(
    id: string,
    kind: string,
    title: string,
    message: string,
    data: Option<Payload>,
    read: bool,
    createdAt: int)

  /** The payload of a generic "notification" event: everything but id, read and createdAt. */
  datatype NotificationEvent = NotificationEvent(kind: string, title: string, message: string, data: Option<Payload>)

  /** `markNotificationAsRead`: every notification with this id becomes read. */
  function MarkRead(ns: seq<Notification>, id: string): (r: seq<Notification>)
    ensures |r| == |ns|
    ensures forall i :: 0 <= i < |ns| ==> r[i] == if ns[i].id == id then ns[i].(read := true) else ns[i]
  {
    if ns == [] then []
    else [if ns[0].id == id then ns[0].(read := true) else ns[0]] + MarkRead(ns[1..], id)
  }

  // ---- the connection effect ----------------------------------------------------

  /**
   * The socket effect: a socket is opened, with the token as its credential, only for
   * a signed-in user who has a token; otherwise none is opened (and an open one closed).
   */
  function SocketToken(signedIn: bool, token: Option<string>): (r: Option<string>)
    ensures r.Some? <==> signedIn && Present(token)
    ensures r.Some? ==> r == token
  {
    if !signedIn || !Present(token) then None else token
  }

  /** A text member as an optional string. */
  function TextOf(v: Value): (r: Option<string>)
    ensures Present(r) <==> Truthy(v) && v.Str?
  {
    if v.Str? then Some(v.s) else None
  }

  /** The effect as written: the token is the context's `token` member, which it does not have. */
  function SocketTokenAsWritten(c: AuthContext.ContextValue): (r: Option<string>)
    ensures r.Some? ==> c.user.Some? && Truthy(Member(c.members, "token"))
  {
    SocketToken(c.user.Some?, TextOf(Member(c.members, "token")))
  }

  /** As written, no socket is ever opened, so no event reaches a signed-in client. */
  lemma SocketNeverOpens(session: Option<AuthContext.SessionUser>, isLoading: bool)
    ensures SocketTokenAsWritten(AuthContext.UseAuth(session, isLoading)).None?
  {
    AuthContext.TokenAndUnderscoreIdUndefined(session, isLoading);
  }

  /** The notification list of a signed-in client. */
  class NotificationCenter {
    var notifications: seq<Notification>
    var isConnected: bool

    constructor ()
      ensures notifications == [] && !isConnected
    {
      notifications := [];
      isConnected := false;
    }

    /** The "connect", "disconnect" and "connect_error" handlers. */
    method SetConnected(connected: bool)
      modifies this
      ensures isConnected == connected && notifications == old(notifications)
    {
      isConnected := connected;
    }

    /** A generic "notification" event: prepended, unread. */
    method OnNotification(e: NotificationEvent, id: string, now: int)
      modifies this
      ensures notifications == [Notification(id, e.kind, e.title, e.message, e.data, false, now)] + old(notifications)
      ensures isConnected == old(isConnected)
    {
      notifications := [Notification(id, e.kind, e.title, e.message, e.data, false, now)] + notifications;
    }

    /** "new_reservation"; `dateText` is the payload date as toLocaleDateString renders it. */
    method OnNewReservation(guests: string, dateText: string, data: Payload, id: string, now: int)
      modifies this
      ensures notifications ==
        [Notification(id, "reservation", "New Reservation",
                      "New reservation for " + guests + " guests on " + dateText, Some(data), false, now)]
        + old(notifications)
      ensures isConnected == old(isConnected)
    {
      var n := Notification(id, "reservation", "New Reservation",
                            "New reservation for " + guests + " guests on " + dateText, Some(data), false, now);
      notifications := [n] + notifications;
    }

    /** "reservation_updated" */
    method OnReservationUpdated(status: string, data: Payload, id: string, now: int)
      modifies this
      ensures notifications ==
        [Notification(id, "reservation", "Reservation Updated", "Reservation status changed to " + status,
                      Some(data), false, now)]
        + old(notifications)
      ensures isConnected == old(isConnected)
    {
      var n := Notification(id, "reservation", "Reservation Updated", "Reservation status changed to " + status,
                            Some(data), false, now);
      notifications := [n] + notifications;
    }

    /** "new_review" */
    method OnNewReview(rating: string, data: Payload, id: string, now: int)
      modifies this
      ensures notifications ==
        [Notification(id, "review", "New Review", "New " + rating + "-star review received", Some(data), false, now)]
        + old(notifications)
      ensures isConnected == old(isConnected)
    {
      var n := Notification(id, "review", "New Review", "New " + rating + "-star review received", Some(data), false, now);
      notifications := [n] + notifications;
    }

    method MarkNotificationAsRead(id: string)
      modifies this
      ensures notifications == MarkRead(old(notifications), id)
      ensures isConnected == old(isConnected)
    {
      notifications := MarkRead(notifications, id);
    }

    method ClearNotifications()
      modifies this
      ensures notifications == [] && isConnected == old(isConnected)
      ensures UnreadCount(notifications) == 0
    {
      notifications := [];
    }
  }

  // ---- the bell menu ---------------------------------------------------------

  /** `notifications.filter((n) => !n.read).length`, the badge number. */
  function UnreadCount(ns: seq<Notification>): (k: nat)
    ensures k <= |ns|
    ensures k == 0 <==> forall n :: n in ns ==> n.read
  {
    var unread := Filter(ns, (n: Notification) => !n.read);
    if forall n :: n in ns ==> n.read then
      FilterNone(ns, (n: Notification) => !n.read);
      |unread|
    else
      var n :| n in ns && !n.read;
      FilterMembership(ns, (n: Notification) => !n.read, n);
      |unread|
  }

  /** A new notification adds one to the badge; an old list keeps its count below it. */
  lemma {:induction false} UnreadAfterPrepend(n: Notification, ns: seq<Notification>)
    ensures UnreadCount([n] + ns) == UnreadCount(ns) + (if n.read then 0 else 1)
    ensures UnreadCount(ns) <= |ns|
  {
    assert ([n] + ns)[1..] == ns;
  }

  /** Marking an id read lowers the badge by the unread notifications carrying that id. */
  lemma {:induction false} UnreadAfterMark(ns: seq<Notification>, id: string)
    ensures UnreadCount(MarkRead(ns, id)) ==
      UnreadCount(ns) - |Filter(ns, (n: Notification) => !n.read && n.id == id)|
    ensures forall n :: n in MarkRead(ns, id) && n.id == id ==> n.read
  {
    if ns != [] {
      UnreadAfterMark(ns[1..], id);
      var m := MarkRead(ns, id);
      assert m[1..] == MarkRead(ns[1..], id);
    }
  }

  /** Marking the same id twice is marking it once. */
  lemma MarkReadIdempotent(ns: seq<Notification>, id: string)
    ensures MarkRead(MarkRead(ns, id), id) == MarkRead(ns, id)
  {
  }

  /** Where a click on a notification navigates, if anywhere. */
  function NavigationTarget(n: Notification): (r: Option<string>)
    ensures n.kind == "reservation" && n.data.Some? && Present(n.data.value.restaurantId) ==>
      r == Some("/dashboard/reservations/" + OrElse(n.data.value.id, "undefined"))
    ensures n.kind == "review" && n.data.Some? && Present(n.data.value.restaurantId) ==>
      r == Some("/restaurants/" + n.data.value.restaurantId.value + "?tab=reviews")
    ensures n.kind == "message" ==> r == Some("/dashboard/messages")
    ensures r.None? <==>
      !(n.kind in {"reservation", "review"} && n.data.Some? && Present(n.data.value.restaurantId)) &&
      n.kind != "message"
  {
    if n.kind == "reservation" && n.data.Some? && Present(n.data.value.restaurantId) then
      Some("/dashboard/reservations/" + OrElse(n.data.value.id, "undefined"))
    else if n.kind == "review" && n.data.Some? && Present(n.data.value.restaurantId) then
      Some("/restaurants/" + n.data.value.restaurantId.value + "?tab=reviews")
    else if n.kind == "message" then Some("/dashboard/messages")
    else None
  }

  /** The notification menu's dropdown: whether it is open. */
  class NotificationsMenu {
    var open: bool

    constructor ()
      ensures !open
    {
      open := false;
    }

    /** `setOpen`, called by the dropdown's trigger and by a click on a notification. */
    method SetOpen(value: bool)
      modifies this
      ensures open == value
    {
      open := value;
    }
  }

  /** handleNotificationClick: mark the clicked notification read, close the menu, then navigate. */
  method HandleNotificationClick(center: NotificationCenter, menu: NotificationsMenu, n: Notification)
    returns (target: Option<string>)
    modifies center, menu
    ensures center.notifications == MarkRead(old(center.notifications), n.id)
    ensures center.isConnected == old(center.isConnected)
    ensures !menu.open
    ensures target == NavigationTarget(n)
  {
    center.MarkNotificationAsRead(n.id);
    menu.SetOpen(false);
    target := NavigationTarget(n);
  }

  // ---- formatTime ------------------------------------------------------------

  /** How long ago, in the units formatTime reports. */
  datatype TimeAgo = JustNow | MinutesAgo(minutes: nat) | HoursAgo(hours: nat) | OnDate

  const Minute: int := 60000
  const Hour: int := 3600000
  const Day: int := 86400000

  /** The thresholds of formatTime for `diff` milliseconds; a future time reads "Just now". */
  function Elapsed(diff: int): (r: TimeAgo)
    ensures r == JustNow <==> diff < Minute
    ensures r.MinutesAgo? <==> Minute <= diff < Hour
    ensures r.HoursAgo? <==> Hour <= diff < Day
    ensures r == OnDate <==> diff >= Day
    ensures r.MinutesAgo? ==> 1 <= r.minutes < 60 && r.minutes * Minute <= diff < (r.minutes + 1) * Minute
    ensures r.HoursAgo? ==> 1 <= r.hours < 24 && r.hours * Hour <= diff < (r.hours + 1) * Hour
  {
    if diff < Minute then JustNow
    else if diff < Hour then MinutesAgo(diff / Minute)
    else if diff < Day then HoursAgo(diff / Hour)
    else OnDate
  }

  /** `${n} unit${n > 1 ? "s" : ""} ago` */
  function Ago(n: nat, unit: string): string {
    NatToString(n) + " " + unit + (if n > 1 then "s" else "") + " ago"
  }

  /** formatTime; `dateText` is the date as toLocaleDateString renders it. */
  function FormatTime(diff: int, dateText: string): (r: string)
    ensures diff < Minute ==> r == "Just now"
    ensures diff >= Day ==> r == dateText
    ensures Minute <= diff < Hour ==> r == Ago(diff / Minute, "minute")
    ensures Hour <= diff < Day ==> r == Ago(diff / Hour, "hour")
  {
    match Elapsed(diff)
    case JustNow => "Just now"
    case MinutesAgo(m) => Ago(m, "minute")
    case HoursAgo(h) => Ago(h, "hour")
    case OnDate => dateText
  }

  /** The unit is singular for exactly one minute and plural from two on. */
  lemma FormatTimeMinutes(dateText: string)
    ensures FormatTime(Minute, dateText) == "1 minute ago"
    ensures FormatTime(2 * Minute - 1, dateText) == "1 minute ago"
    ensures FormatTime(2 * Minute, dateText) == "2 minutes ago"
  {
    assert NatToString(1) == "1" && NatToString(2) == "2";
    assert Ago(1, "minute") == "1 minute ago";
    assert Ago(2, "minute") == "2 minutes ago";
    assert Elapsed(Minute) == MinutesAgo(1);
    assert Elapsed(2 * Minute - 1) == MinutesAgo(1);
    assert Elapsed(2 * Minute) == MinutesAgo(2);
  }
}
