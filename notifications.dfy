/** The notifications centre: the tab filter (all, unread or one type), the
    per-type counters, the relative-time label of each entry, the header
    line and the click that marks an unread entry read. */
module Notifications {
  import opened Wrappers
  import opened Text
  import opened Seqs
  import opened Types
  import opened Store

  // ---------------------------------------------------------------------
  // The tab filter
  // ---------------------------------------------------------------------

  /** The filter callback: "unread" is checked first, then "all", and any
      other tab value is compared with the entry's type literal. */
  predicate Kept(n: Notification, filter: string) {
    if filter == "unread" then !n.read
    else if filter == "all" then true
    else NotificationTypeName(n.kind) == filter
  }

  /** `filteredNotifications`. */
  function FilterNotifications(ns: seq<Notification>, filter: string): (r: seq<Notification>)
    ensures forall n :: n in r <==> n in ns && Kept(n, filter)
    ensures forall n :: multiset(r)[n] == if Kept(n, filter) then multiset(ns)[n] else 0
    ensures Subsequence(r, ns)
  {
    var keep := (n: Notification) => Kept(n, filter);
    FilterMembers(ns, keep);
    FilterMultiset(ns, keep);
    FilterSubsequence(ns, keep);
    Filter(ns, keep)
  }

  /** The "all" tab lists everything, in order. */
  lemma AllTabShowsEverything(ns: seq<Notification>)
    ensures FilterNotifications(ns, "all") == ns
  {
    FilterAll(ns, (n: Notification) => Kept(n, "all"));
  }

  /** The "unread" tab lists exactly the unread entries, so its length is the
      unread badge. */
  lemma UnreadTabIsUnread(ns: seq<Notification>)
    ensures FilterNotifications(ns, "unread") == Filter(ns, (n: Notification) => !n.read)
    ensures |FilterNotifications(ns, "unread")| == UnreadCount(ns)
  {
    FilterCongruent(ns, (n: Notification) => Kept(n, "unread"), (n: Notification) => !n.read);
  }

  /** A type tab lists exactly the entries of that type. */
  lemma TypeTabIsType(ns: seq<Notification>, t: NotificationType)
    ensures FilterNotifications(ns, NotificationTypeName(t)) == Filter(ns, (n: Notification) => n.kind == t)
  {
    SentinelsAreNotLiterals(Ongoing, Todo, t);
    forall i | 0 <= i < |ns|
      ensures Kept(ns[i], NotificationTypeName(t)) == (ns[i].kind == t)
    {
      UnionsRoundTrip(Ongoing, Low, Todo, t, Pending);
      UnionsRoundTrip(Ongoing, Low, Todo, ns[i].kind, Pending);
    }
    FilterCongruent(ns, (n: Notification) => Kept(n, NotificationTypeName(t)), (n: Notification) => n.kind == t);
  }

  /** A tab value that is neither a sentinel nor a type literal shows nothing. */
  lemma UnknownTabIsEmpty(ns: seq<Notification>, filter: string)
    requires filter != "all" && filter != "unread" && ParseNotificationType(filter).None?
    ensures FilterNotifications(ns, filter) == []
  {
    forall n | n in ns ensures !Kept(n, filter) {
      UnionsRoundTrip(Ongoing, Low, Todo, n.kind, Pending);
    }
  }

  // ---------------------------------------------------------------------
  // Per-type counters
  // ---------------------------------------------------------------------

  /** `notifications.filter(n => n.type === t).length`. */
  function TypeCount(ns: seq<Notification>, t: NotificationType): (c: nat)
    ensures c <= |ns|
  {
    Count(ns, (n: Notification) => n.kind == t)
  }

  /** Every entry has exactly one of the four types, so the four counters add
      up to the total. */
  lemma {:induction false} TypeCountsSum(ns: seq<Notification>)
    ensures TypeCount(ns, TaskNotice) + TypeCount(ns, FileNotice)
            + TypeCount(ns, MessageNotice) + TypeCount(ns, DeadlineNotice) == |ns|
    decreases |ns|
  {
    if ns != [] {
      TypeCountsSum(ns[1..]);
    }
  }

  // ---------------------------------------------------------------------
  // Relative time
  // ---------------------------------------------------------------------

  const MillisPerMinute := 60000
  const MillisPerHour := 3600000

  /** The four shapes `formatTime` can return. `OnDate` is the locale date,
      which the host renders. */
  datatype Age = MinutesAgo(minutes: int) | HoursAgo(hours: int) | Yesterday | OnDate

  /** `formatTime` on the elapsed time `now - date` in milliseconds, or
      `None` when the timestamp does not parse (then every comparison with
      the NaN difference is false and the date branch is taken). Division
      by a positive constant here is floor division, as `Math.floor` of the
      quotient. */
  function Bucket(elapsed: Option<int>): (r: Age)
    ensures r.MinutesAgo? <==> elapsed.Some? && elapsed.value < MillisPerHour
    ensures r.HoursAgo? <==> elapsed.Some? && MillisPerHour <= elapsed.value < 24 * MillisPerHour
    ensures r.Yesterday? <==> elapsed.Some? && 24 * MillisPerHour <= elapsed.value < 48 * MillisPerHour
    ensures r.OnDate? <==> elapsed.None? || elapsed.value >= 48 * MillisPerHour
    ensures r.MinutesAgo? ==>
              r.minutes < 60 && r.minutes * MillisPerMinute <= elapsed.value < (r.minutes + 1) * MillisPerMinute
    ensures r.HoursAgo? ==>
              1 <= r.hours <= 23 && r.hours * MillisPerHour <= elapsed.value < (r.hours + 1) * MillisPerHour
  {
    match elapsed
    case None => OnDate
    case Some(e) =>
      var hours := e / MillisPerHour;
      if hours < 1 then MinutesAgo(e / MillisPerMinute)
      else if hours < 24 then HoursAgo(hours)
      else if hours < 48 then Yesterday
      else OnDate
  }

  /** The label text; `dateText` is the host's rendering of the date. */
  function AgeLabel(a: Age, dateText: string): (r: string)
    ensures a.MinutesAgo? ==> IntToString(a.minutes) <= r && |r| == |IntToString(a.minutes)| + 12
                              && r[|r| - 12..] == " minutes ago"
    ensures a.HoursAgo? ==> IntToString(a.hours) <= r && |r| == |IntToString(a.hours)| + 10
                            && r[|r| - 10..] == " hours ago"
    ensures a.Yesterday? ==> r == "Yesterday"
    ensures a.OnDate? ==> r == dateText
  {
    match a
    case MinutesAgo(m) => IntToString(m) + " minutes ago"
    case HoursAgo(h) => IntToString(h) + " hours ago"
    case Yesterday => "Yesterday"
    case OnDate => dateText
  }

  /** Within the first minute the label says "0 minutes ago". */
  lemma FirstMinuteLabel()
    ensures AgeLabel(Bucket(Some(59999)), "") == "0 minutes ago"
  {
    FirstMinuteBucket();
    assert IntToString(0) == "0";
    assert AgeLabel(MinutesAgo(0), "") == "0" + " minutes ago";
  }

  lemma FirstMinuteBucket()
    ensures Bucket(Some(59999)) == MinutesAgo(0)
  {
  }

  /** A timestamp slightly in the future gives a negative count. */
  lemma FutureLabel()
    ensures AgeLabel(Bucket(Some(-1)), "") == "-1 minutes ago"
  {
    FutureBucket();
    assert IntToString(-1) == "-1";
    assert AgeLabel(MinutesAgo(-1), "") == "-1" + " minutes ago";
  }

  lemma FutureBucket()
    ensures Bucket(Some(-1)) == MinutesAgo(-1)
  {
  }

  /** One hour reads "1 hours ago", without a singular form. */
  lemma FirstHourLabel()
    ensures AgeLabel(Bucket(Some(MillisPerHour)), "") == "1 hours ago"
  {
    FirstHourBucket();
    assert IntToString(1) == "1";
    assert AgeLabel(HoursAgo(1), "") == "1" + " hours ago";
  }

  lemma FirstHourBucket()
    ensures Bucket(Some(MillisPerHour)) == HoursAgo(1)
  {
  }

  // ---------------------------------------------------------------------
  // Header and click
  // ---------------------------------------------------------------------

  const CaughtUp := "All caught up! \U{1F389}"

  /** The header line under the title. */
  function HeaderText(unread: nat): (r: string)
    ensures unread == 0 <==> r == CaughtUp
    ensures unread > 0 ==> NatToString(unread) <= r
    ensures r != "" && (r[|r| - 1] == 's' <==> unread > 1)
  {
    if unread > 0 then
      NatToString(unread) + " unread notification" + (if unread > 1 then "s" else "")
    else CaughtUp
  }

  /** The "Mark All as Read" button is offered only while something is unread. */
  function ShowsMarkAll(ns: seq<Notification>): (r: bool)
    ensures r <==> exists i :: 0 <= i < |ns| && !ns[i].read
  {
    CountZeroIff(ns, (n: Notification) => !n.read);
    UnreadCount(ns) > 0
  }

  /** The card's click handler: `!notification.read && onMarkAsRead(id)`. */
  function ClickTarget(n: Notification): (r: Option<string>)
    ensures r.Some? <==> !n.read
    ensures r.Some? ==> r.value == n.id
  {
    if !n.read then Some(n.id) else None
  }

  /** Clicking an unread card that is listed lowers the badge by at least one. */
  lemma ClickLowersBadge(ns: seq<Notification>, n: Notification)
    requires n in ns && !n.read
    ensures UnreadCount(MarkRead(ns, ClickTarget(n).value)) < UnreadCount(ns)
  {
    UnreadAfterMarkRead(ns, n.id);
    FilterMember(ns, (x: Notification) => !x.read && x.id == n.id, n);
  }

  class NotificationsView {
    var filter: string

    constructor ()
      ensures filter == "all"
    {
      filter := "all";
    }

    function Visible(store: EntityStore): seq<Notification>
      reads this, store
    {
      FilterNotifications(store.notifications, filter)
    }

    method SelectTab(value: string)
      modifies this
      ensures filter == value
    {
      filter := value;
    }

    /** A click on a card: only an unread one reaches the store. */
    method Click(store: EntityStore, n: Notification)
      modifies store
      ensures n.read ==> store.State() == old(store.State())
      ensures !n.read ==>
                store.State() == old(store.State()).(notifications := MarkRead(old(store.notifications), n.id))
    {
      var target := ClickTarget(n);
      if target.Some? {
        store.MarkAsRead(target.value);
      }
    }

    method MarkAllAsRead(store: EntityStore)
      modifies store
      ensures store.State() == old(store.State()).(notifications := MarkAllRead(old(store.notifications)))
      ensures store.UnreadNotifications() == 0
    {
      store.MarkAllAsRead();
    }

    method Delete(store: EntityStore, id: string)
      modifies store
      ensures store.State() == old(store.State()).(notifications := WithoutNotification(old(store.notifications), id))
    {
      store.DeleteNotification(id);
    }
  }
}
