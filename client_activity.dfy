// The recent-activity card (components/real-time-activity.tsx): the latest
// notifications shown as activities, each with an icon and a badge by type.
// Its formatTime is the notification menu's (Notifications.FormatTime).

module Activity {
  import opened Common
  import opened Notifications

  datatype Activity = Activity(
    id: string,
    kind: string,
    title: string,
    description: string,
    time: int,
    data: Option<Payload>)

  /** The card shows at most this many activities. */
  const MaxActivities: nat := 10

  function ToActivity(n: Notification): (a: Activity)
    ensures a.id == n.id && a.kind == n.kind && a.title == n.title && a.data == n.data
    ensures a.description == n.message && a.time == n.createdAt
  {
    Activity(n.id, n.kind, n.title, n.message, n.createdAt, n.data)
  }

  /** `notifications.slice(0, 10).map(...)` */
  function Activities(ns: seq<Notification>): (r: seq<Activity>)
    ensures |r| == if |ns| < MaxActivities then |ns| else MaxActivities
    ensures forall i :: 0 <= i < |r| ==> r[i] == ToActivity(ns[i])
  {
    var latest := Take(ns, MaxActivities);
    seq(|latest|, i requires 0 <= i < |latest| => ToActivity(latest[i]))
  }

  /** A new notification becomes the first activity and pushes the rest down by one. */
  lemma {:induction false} ActivitiesAfterPrepend(n: Notification, ns: seq<Notification>)
    ensures Activities([n] + ns)[0] == ToActivity(n)
    ensures forall i :: 1 <= i < |Activities([n] + ns)| ==> Activities([n] + ns)[i] == Activities(ns)[i - 1]
  {
    var r := Activities([n] + ns);
    forall i | 1 <= i < |r| ensures r[i] == Activities(ns)[i - 1] {
      assert ([n] + ns)[i] == ns[i - 1];
    }
  }

  datatype Icon = Calendar | Star | UserIcon | Clock

  /** getActivityIcon */
  function ActivityIcon(kind: string): (r: Icon)
    ensures r == Calendar <==> kind == "reservation"
    ensures r == Star <==> kind == "review"
    ensures r == UserIcon <==> kind == "message"
    ensures r == Clock <==> kind !in {"reservation", "review", "message"}
  {
    match kind
    case "reservation" => Calendar
    case "review" => Star
    case "message" => UserIcon
    case _ => Clock
  }

  /** getActivityBadge: the badge's text (its colour follows the same cases). */
  function ActivityBadge(kind: string): (r: string)
    ensures kind !in {"reservation", "review", "message"} <==> r == "System"
    ensures kind == "reservation" <==> r == "Reservation"
    ensures kind == "review" <==> r == "Review"
    ensures kind == "message" <==> r == "Message"
  {
    match kind
    case "reservation" => "Reservation"
    case "review" => "Review"
    case "message" => "Message"
    case _ => "System"
  }

  /** Icon and badge pick the same case: the clock goes with "System" and only with it. */
  lemma IconMatchesBadge(kind: string)
    ensures ActivityIcon(kind) == Clock <==> ActivityBadge(kind) == "System"
    ensures ActivityIcon("system") == Clock && ActivityBadge("system") == "System"
  {
  }
}
