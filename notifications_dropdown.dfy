/** The notification bell: the signed-in user's latest notifications kept in step
    with the table through insert, update and delete events, the unread badge,
    marking as read, deleting, and the relative time shown on each entry. */
module NotificationsDropdown {
  import opened Common
  import opened Domain
  import opened SupabaseHelpers

  predicate IsUnread(n: Notification) { !n.isRead }

  /** `notifications.filter(n => !n.is_read).length`. */
  function UnreadCount(ns: seq<Notification>): nat
  {
    CountWhere(ns, IsUnread)
  }

  /** The badge: hidden at zero, "9+" above nine, otherwise the single digit. */
  function BadgeText(count: nat): (r: Option<string>)
    ensures r.None? <==> count == 0
    ensures count > 9 ==> r == Some("9+")
    ensures 0 < count <= 9 ==> r.Some? && |r.value| == 1 && '0' <= r.value[0] <= '9' && ParseDigits(r.value) == count
  {
    if count == 0 then None
    else if count > 9 then Some("9+")
    else (NatToStringRoundTrip(count); Some(NatToString(count)))
  }

  /** The update event: the entry with the payload's id is replaced by the new row. */
  function ReplaceById(ns: seq<Notification>, n: Notification): seq<Notification>
  {
    seq(|ns|, j requires 0 <= j < |ns| => if ns[j].id == n.id then n else ns[j])
  }

  function IdIsNot(id: string): Notification -> bool
  {
    (n: Notification) => n.id != id
  }

  /** The delete event and the delete button: every entry with that id goes. */
  function RemoveById(ns: seq<Notification>, id: string): seq<Notification>
  {
    Filter(ns, IdIsNot(id))
  }

  /** Marking one as read, locally. */
  function MarkRead(ns: seq<Notification>, id: string): seq<Notification>
  {
    seq(|ns|, j requires 0 <= j < |ns| => if ns[j].id == id then ns[j].(isRead := true) else ns[j])
  }

  function MarkAllRead(ns: seq<Notification>): seq<Notification>
  {
    seq(|ns|, j requires 0 <= j < |ns| => ns[j].(isRead := true))
  }

  function UnreadWithId(id: string): Notification -> bool
  {
    (n: Notification) => !n.isRead && n.id == id
  }

  /** A new notification goes on top and adds one to the badge when unread. */
  lemma InsertCount(ns: seq<Notification>, n: Notification)
    ensures UnreadCount([n] + ns) == UnreadCount(ns) + (if n.isRead then 0 else 1)
  {
    assert ([n] + ns)[1..] == ns;
  }

  /** Replacing by id keeps the length and every entry with another id. */
  lemma ReplaceKeepsOthers(ns: seq<Notification>, n: Notification)
    ensures |ReplaceById(ns, n)| == |ns|
    ensures forall j :: 0 <= j < |ns| && ns[j].id != n.id ==> ReplaceById(ns, n)[j] == ns[j]
    ensures forall j :: 0 <= j < |ns| && ns[j].id == n.id ==> ReplaceById(ns, n)[j] == n
    ensures (forall j :: 0 <= j < |ns| ==> ns[j].id != n.id) ==> ReplaceById(ns, n) == ns
  {
  }

  /** Deleting leaves no entry with that id, keeps every other entry in order, and
      never raises the badge. */
  lemma RemoveEffect(ns: seq<Notification>, id: string, x: Notification)
    ensures x in RemoveById(ns, id) <==> x in ns && x.id != id
    ensures IsSubsequence(RemoveById(ns, id), ns)
    ensures UnreadCount(RemoveById(ns, id)) <= UnreadCount(ns)
  {
    FilterMembers(ns, IdIsNot(id), x);
    FilterIsSubsequence(ns, IdIsNot(id));
    SubsequenceCount(RemoveById(ns, id), ns, IsUnread);
  }

  /** Marking one as read takes off the badge exactly the unread entries with that id. */
  lemma {:induction false} MarkReadCount(ns: seq<Notification>, id: string)
    ensures UnreadCount(MarkRead(ns, id)) == UnreadCount(ns) - CountWhere(ns, UnreadWithId(id))
    ensures CountWhere(MarkRead(ns, id), UnreadWithId(id)) == 0
    decreases |ns|
  {
    if ns != [] {
      MarkReadCount(ns[1..], id);
      assert MarkRead(ns, id)[1..] == MarkRead(ns[1..], id);
    }
  }

  /** Marking as read twice is marking once. */
  lemma MarkReadIdempotent(ns: seq<Notification>, id: string)
    ensures MarkRead(MarkRead(ns, id), id) == MarkRead(ns, id)
    ensures MarkAllRead(MarkAllRead(ns)) == MarkAllRead(ns)
  {
  }

  /** "Mark all read" empties the badge and keeps every entry, only read. */
  lemma MarkAllClearsBadge(ns: seq<Notification>)
    ensures UnreadCount(MarkAllRead(ns)) == 0
    ensures |MarkAllRead(ns)| == |ns|
    ensures forall j :: 0 <= j < |ns| ==> MarkAllRead(ns)[j].id == ns[j].id && MarkAllRead(ns)[j].message == ns[j].message
  {
    FilterKeepsNone(MarkAllRead(ns), IsUnread);
  }

  // ---------------------------------------------------------------------------
  // Relative time

  datatype TimeLabel = JustNow | MinutesAgo(minutes: int) | HoursAgo(hours: int) | DaysAgo(days: int) | LocaleDate

  const MinuteMs: int := 60000
  const HourMs: int := 3600000
  const DayMs: int := 86400000

  /** `formatTime` for an age of `diff` milliseconds (negative for a timestamp in
      the future): whole minutes under an hour, whole hours under a day, whole days
      under a week, and the calendar date from a week on. */
  function FormatTime(diff: int): (r: TimeLabel)
    ensures r == JustNow <==> diff < MinuteMs
    ensures r.MinutesAgo? <==> MinuteMs <= diff < HourMs
    ensures r.HoursAgo? <==> HourMs <= diff < DayMs
    ensures r.DaysAgo? <==> DayMs <= diff < 7 * DayMs
    ensures r == LocaleDate <==> 7 * DayMs <= diff
    ensures r.MinutesAgo? ==> 1 <= r.minutes < 60 && r.minutes * MinuteMs <= diff < (r.minutes + 1) * MinuteMs
    ensures r.HoursAgo? ==> 1 <= r.hours < 24 && r.hours * HourMs <= diff < (r.hours + 1) * HourMs
    ensures r.DaysAgo? ==> 1 <= r.days < 7 && r.days * DayMs <= diff < (r.days + 1) * DayMs
  {
    var minutes := diff / MinuteMs;
    var hours := diff / HourMs;
    var days := diff / DayMs;
    if minutes < 1 then JustNow
    else if minutes < 60 then MinutesAgo(minutes)
    else if hours < 24 then HoursAgo(hours)
    else if days < 7 then DaysAgo(days)
    else LocaleDate
  }

  /** The text of a label; the calendar date depends on the browser's locale. */
  function TimeText(l: TimeLabel): Option<string>
  {
    match l
    case JustNow => Some("Just now")
    case MinutesAgo(m) => Some(IntToString(m) + "m ago")
    case HoursAgo(h) => Some(IntToString(h) + "h ago")
    case DaysAgo(d) => Some(IntToString(d) + "d ago")
    case LocaleDate => None
  }

  /** The icon shown for a notification type. */
  datatype Icon = PackageIcon | StarIcon | ShoppingBagIcon | InfoIcon

  function IconFor(kind: string): (r: Icon)
    ensures r == PackageIcon <==> kind == "new_order" || kind == "order_update"
    ensures r == InfoIcon <==> kind !in {"new_order", "order_update", "new_review", "product_update"}
  {
    if kind == "new_order" || kind == "order_update" then PackageIcon
    else if kind == "new_review" then StarIcon
    else if kind == "product_update" then ShoppingBagIcon
    else InfoIcon
  }

  /** The remote writes the dropdown issues. */
  datatype NotificationWrite = SetRead(id: string) | SetAllRead(userId: string) | Delete(id: string)

  class NotificationsDropdown {
    var notifications: seq<Notification>
    var isLoading: bool
    var issued: seq<NotificationWrite>

    constructor ()
      ensures notifications == [] && isLoading && issued == []
    {
      notifications := [];
      isLoading := true;
      issued := [];
    }

    /** The session effect: with nobody signed in the list is emptied and not
        loading; with a user a fetch starts. */
    method SessionChanged(user: Option<string>)
      modifies this
      ensures user.None? ==> notifications == [] && !isLoading
      ensures user.Some? ==> notifications == old(notifications) && isLoading
      ensures issued == old(issued)
    {
      if user.None? {
        notifications := [];
        isLoading := false;
        return;
      }
      isLoading := true;
    }

    /** The fetch's answer: the list is replaced only by rows answered without error. */
    method Fetched(data: Option<seq<Notification>>, error: Option<PgError>)
      modifies this
      ensures notifications == if error.None? && data.Some? then data.value else old(notifications)
      ensures !isLoading && issued == old(issued)
    {
      if error.None? && data.Some? {
        notifications := data.value;
      }
      isLoading := false;
    }

    method OnInsert(n: Notification)
      modifies this
      ensures notifications == [n] + old(notifications)
      ensures UnreadCount(notifications) == UnreadCount(old(notifications)) + (if n.isRead then 0 else 1)
      ensures isLoading == old(isLoading) && issued == old(issued)
    {
      InsertCount(notifications, n);
      notifications := [n] + notifications;
    }

    method OnUpdate(n: Notification)
      modifies this
      ensures notifications == ReplaceById(old(notifications), n)
      ensures isLoading == old(isLoading) && issued == old(issued)
    {
      notifications := ReplaceById(notifications, n);
    }

    method OnDelete(id: string)
      modifies this
      ensures notifications == RemoveById(old(notifications), id)
      ensures UnreadCount(notifications) <= UnreadCount(old(notifications))
      ensures isLoading == old(isLoading) && issued == old(issued)
    {
      RemoveEffect(notifications, id, Notification("", "", "", "", "", false, ""));
      notifications := RemoveById(notifications, id);
    }

    /** The tick on an unread entry: the row is updated, then the entry locally. */
    method MarkAsRead(id: string)
      modifies this
      ensures issued == old(issued) + [SetRead(id)]
      ensures notifications == MarkRead(old(notifications), id)
      ensures UnreadCount(notifications) <= UnreadCount(old(notifications))
      ensures isLoading == old(isLoading)
    {
      issued := issued + [SetRead(id)];
      MarkReadCount(notifications, id);
      notifications := MarkRead(notifications, id);
    }

    /** "Mark all read": nothing without a user; otherwise every unread row of the
        user is updated and the whole list is marked read. */
    method MarkAllAsRead(user: Option<string>)
      modifies this
      ensures user.None? ==> notifications == old(notifications) && issued == old(issued)
      ensures user.Some? ==> notifications == MarkAllRead(old(notifications)) && UnreadCount(notifications) == 0 &&
                             issued == old(issued) + [SetAllRead(user.value)]
      ensures isLoading == old(isLoading)
    {
      if user.None? {
        return;
      }
      issued := issued + [SetAllRead(user.value)];
      MarkAllClearsBadge(notifications);
      notifications := MarkAllRead(notifications);
    }

    /** The bin on an entry: the row is deleted, then the entry locally. */
    method DeleteNotification(id: string)
      modifies this
      ensures issued == old(issued) + [Delete(id)]
      ensures notifications == RemoveById(old(notifications), id)
      ensures isLoading == old(isLoading)
    {
      issued := issued + [Delete(id)];
      notifications := RemoveById(notifications, id);
    }
  }
}
