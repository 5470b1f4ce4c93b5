/** The application shell's list updaters: the bounded notification list, toasts, reminder
    and journal edits, the stored-user update, the unread badge and the money totals. Each
    is the pure function handed to a state setter; `now` is the clock reading in
    milliseconds, which also serves as the new item's id. */
module AppState {
  import opened Wrappers
  import opened Text
  import opened Lists
  import opened Sorting
  import opened Grouping
  import opened Domain

  /** The notification list keeps at most this many items. */
  const NotificationCap: nat := 50

  function NewNotification(title: string, message: string, kind: NotificationKind, now: nat): AppNotification
  {
    AppNotification(Decimal(now), title, message, now, kind, false)
  }

  /** Prepends an unread notification and keeps the newest 50. */
  function AddNotification(prev: seq<AppNotification>, title: string, message: string, kind: NotificationKind, now: nat)
    : (r: seq<AppNotification>)
    ensures |r| == if |prev| + 1 < NotificationCap then |prev| + 1 else NotificationCap
    ensures r[0] == NewNotification(title, message, kind, now) && !r[0].read
    ensures forall i :: 1 <= i < |r| ==> r[i] == prev[i - 1]
  {
    Take([NewNotification(title, message, kind, now)] + prev, NotificationCap)
  }

  function Timestamp(n: AppNotification): real
  {
    n.timestamp as real
  }

  /** A list kept newest first stays newest first when the new item is no older than any. */
  lemma AddNotificationNewestFirst(prev: seq<AppNotification>, title: string, message: string, kind: NotificationKind, now: nat)
    requires NonIncreasing(prev, Timestamp)
    requires forall i :: 0 <= i < |prev| ==> prev[i].timestamp <= now
    ensures NonIncreasing(AddNotification(prev, title, message, kind, now), Timestamp)
  {
    var r := AddNotification(prev, title, message, kind, now);
    forall i, j | 0 <= i < j < |r| ensures Timestamp(r[i]) >= Timestamp(r[j]) {
      if i > 0 {
        assert r[i] == prev[i - 1] && r[j] == prev[j - 1];
      }
    }
  }

  function IsUnread(n: AppNotification): bool
  {
    !n.read
  }

  /** The unread badge. */
  function UnreadCount(ns: seq<AppNotification>): (count: nat)
    ensures count <= |ns|
    ensures count == 0 <==> forall i :: 0 <= i < |ns| ==> ns[i].read
  {
    FilterEmpty(ns, IsUnread);
    |Filter(ns, IsUnread)|
  }

  /** Below the cap a new notification raises the badge by one. */
  lemma AddNotificationRaisesBadge(prev: seq<AppNotification>, title: string, message: string, kind: NotificationKind, now: nat)
    requires |prev| + 1 <= NotificationCap
    ensures UnreadCount(AddNotification(prev, title, message, kind, now)) == UnreadCount(prev) + 1
  {
    var n := NewNotification(title, message, kind, now);
    assert AddNotification(prev, title, message, kind, now) == [n] + prev;
    FilterCons(n, prev, IsUnread);
  }

  /** A toast on screen; success and error toasts are also logged as notifications. */
  function ToastNotification(kind: ToastKind): Option<(string, NotificationKind)>
  {
    match kind
    case SuccessToast => Some(("Success", Activity))
    case ErrorToast => Some(("Alert", Alert))
    case InfoToast => None
  }

  /** Showing a toast appends it; a success or error toast also adds a notification
      ('Success' as activity, 'Alert' as alert), an info toast does not. */
  function ShowToast(toasts: seq<Toast>, notifications: seq<AppNotification>, message: string, kind: ToastKind, now: nat)
    : (r: (seq<Toast>, seq<AppNotification>))
    ensures r.0 == toasts + [Toast(Decimal(now), message, kind)]
    ensures kind == InfoToast ==> r.1 == notifications
    ensures kind == SuccessToast ==> r.1 == AddNotification(notifications, "Success", message, Activity, now)
    ensures kind == ErrorToast ==> r.1 == AddNotification(notifications, "Alert", message, Alert, now)
  {
    var shown := toasts + [Toast(Decimal(now), message, kind)];
    match ToastNotification(kind)
    case None => (shown, notifications)
    case Some((title, nk)) => (shown, AddNotification(notifications, title, message, nk, now))
  }

  /** Removes every toast with the id and no other. */
  function RemoveToast(toasts: seq<Toast>, id: string): (r: seq<Toast>)
    ensures forall t :: t in r <==> t in toasts && t.id != id
    ensures |r| <= |toasts|
  {
    var keep := (t: Toast) => t.id != id;
    FilterMembers(toasts, keep);
    Filter(toasts, keep)
  }

  /** Dismissing a toast right after showing it restores the toast list, when no other
      toast carries the same id. */
  lemma ShowThenRemove(toasts: seq<Toast>, notifications: seq<AppNotification>, message: string, kind: ToastKind, now: nat)
    requires forall i :: 0 <= i < |toasts| ==> toasts[i].id != Decimal(now)
    ensures RemoveToast(ShowToast(toasts, notifications, message, kind, now).0, Decimal(now)) == toasts
  {
    var t := Toast(Decimal(now), message, kind);
    var keep := (x: Toast) => x.id != Decimal(now);
    FilterSnoc(toasts, t, keep);
    FilterKeepsAll(toasts, keep);
  }

  /** Flips `completed` on the reminders with the id; all others are unchanged. */
  function ToggleReminder(rs: seq<Reminder>, id: string): (r: seq<Reminder>)
    ensures |r| == |rs|
    ensures forall i :: 0 <= i < |rs| && rs[i].id == id ==> r[i] == rs[i].(completed := !rs[i].completed)
    ensures forall i :: 0 <= i < |rs| && rs[i].id != id ==> r[i] == rs[i]
  {
    seq(|rs|, i requires 0 <= i < |rs| => if rs[i].id == id then rs[i].(completed := !rs[i].completed) else rs[i])
  }

  /** Toggling twice restores the list. */
  lemma ToggleTwiceRestores(rs: seq<Reminder>, id: string)
    ensures ToggleReminder(ToggleReminder(rs, id), id) == rs
  {
  }

  /** Removes the reminders with the id and keeps the rest in order. */
  function DeleteReminder(rs: seq<Reminder>, id: string): (r: seq<Reminder>)
    ensures forall x :: x in r <==> x in rs && x.id != id
  {
    var keep := (x: Reminder) => x.id != id;
    FilterMembers(rs, keep);
    Filter(rs, keep)
  }

  /** Removes the journal entries with the id and keeps the rest in order. */
  function DeleteActivity(activities: seq<FarmActivity>, id: string): (r: seq<FarmActivity>)
    ensures forall a :: a in r <==> a in activities && a.id != id
  {
    var keep := (a: FarmActivity) => a.id != id;
    FilterMembers(activities, keep);
    Filter(activities, keep)
  }

  /** Deleting an id that is not present changes nothing. */
  lemma DeleteAbsentKeepsAll(rs: seq<Reminder>, activities: seq<FarmActivity>, id: string)
    requires forall i :: 0 <= i < |rs| ==> rs[i].id != id
    requires forall i :: 0 <= i < |activities| ==> activities[i].id != id
    ensures DeleteReminder(rs, id) == rs
    ensures DeleteActivity(activities, id) == activities
  {
    FilterKeepsAll(rs, (x: Reminder) => x.id != id);
    FilterKeepsAll(activities, (a: FarmActivity) => a.id != id);
  }

  /** A new journal entry goes first and is announced as 'Journal Entry'. */
  function AddActivity(activities: seq<FarmActivity>, notifications: seq<AppNotification>, a: FarmActivity, now: nat)
    : (r: (seq<FarmActivity>, seq<AppNotification>))
    ensures r.0 == [a] + activities
    ensures r.1 == AddNotification(notifications, "Journal Entry", "Logged " + a.activityType, Activity, now)
  {
    ([a] + activities, AddNotification(notifications, "Journal Entry", "Logged " + a.activityType, Activity, now))
  }

  /** Planned tasks go before the existing reminders, announced with their number. */
  function AddReminders(reminders: seq<Reminder>, notifications: seq<AppNotification>, rems: seq<Reminder>, now: nat)
    : (r: (seq<Reminder>, seq<AppNotification>))
    ensures r.0 == rems + reminders && r.0[..|rems|] == rems
    ensures r.1 == AddNotification(notifications, "Season Plan", "Added " + Decimal(|rems|) + " tasks", Activity, now)
  {
    assert (rems + reminders)[..|rems|] == rems;
    (rems + reminders, AddNotification(notifications, "Season Plan", "Added " + Decimal(|rems|) + " tasks", Activity, now))
  }

  /** Saving the profile replaces the stored users with its id and nothing else. */
  function UpdateUsers(users: seq<UserProfile>, profile: UserProfile): (r: seq<UserProfile>)
    ensures |r| == |users|
    ensures forall i :: 0 <= i < |users| ==> r[i] == if users[i].id == profile.id then profile else users[i]
  {
    seq(|users|, i requires 0 <= i < |users| => if users[i].id == profile.id then profile else users[i])
  }

  /** Saving the same profile twice stores the same list as saving it once. */
  lemma UpdateUsersIdempotent(users: seq<UserProfile>, profile: UserProfile)
    ensures UpdateUsers(UpdateUsers(users, profile), profile) == UpdateUsers(users, profile)
  {
  }

  /** A harvest's value as the totals see it: a missing or zero value counts 0. */
  function RevenueOf(h: FarmRecord): real
  {
    h.estimatedValue.GetOr(0.0)
  }

  function AmountOf(e: ExpenseRecord): real
  {
    e.amount
  }

  function TotalRevenue(harvests: seq<FarmRecord>): real
  {
    SumOf(harvests, RevenueOf)
  }

  function TotalExpenses(expenses: seq<ExpenseRecord>): real
  {
    SumOf(expenses, AmountOf)
  }

  /** Logging a harvest or an expense at the front raises the matching total by its value,
      a harvest without a value by nothing. */
  lemma LoggingAddsToTotals(h: FarmRecord, harvests: seq<FarmRecord>, e: ExpenseRecord, expenses: seq<ExpenseRecord>)
    ensures TotalRevenue([h] + harvests) == TotalRevenue(harvests) + RevenueOf(h)
    ensures h.estimatedValue.None? ==> TotalRevenue([h] + harvests) == TotalRevenue(harvests)
    ensures TotalExpenses([e] + expenses) == TotalExpenses(expenses) + e.amount
  {
    SumOfCons(h, harvests, RevenueOf);
    SumOfCons(e, expenses, AmountOf);
  }

  /** With no negative values the totals are not negative. */
  lemma TotalsNonNegative(harvests: seq<FarmRecord>, expenses: seq<ExpenseRecord>)
    requires forall i :: 0 <= i < |harvests| ==> RevenueOf(harvests[i]) >= 0.0
    requires forall i :: 0 <= i < |expenses| ==> expenses[i].amount >= 0.0
    ensures TotalRevenue(harvests) >= 0.0 && TotalExpenses(expenses) >= 0.0
  {
    SumOfAtLeast(harvests, RevenueOf, 0.0);
    SumOfAtLeast(expenses, AmountOf, 0.0);
  }
}
