/** The notification centre: sending a notification over the channels the caller asked
    for and their preferences allow, reading one (which marks it read), marking a batch
    read, and the per-user summary. */
module Communication {
  import opened Wrappers
  import opened Lists
  import opened Sorting

  datatype NotificationType = WeatherAlert | PriceAlert | InsuranceClaim | HarvestReminder | PaymentDue | General

  datatype Priority = Low | Medium | High | Urgent

  /** The choice lists in their declared order; the summary walks them in this order. */
  const TypeChoices: seq<NotificationType> :=
    [WeatherAlert, PriceAlert, InsuranceClaim, HarvestReminder, PaymentDue, General]

  const PriorityChoices: seq<Priority> := [Low, Medium, High, Urgent]

  /** Each choice list names every value exactly once. */
  lemma ChoicesComplete()
    ensures forall t: NotificationType :: t in TypeChoices
    ensures forall p: Priority :: p in PriorityChoices
    ensures forall i, j :: 0 <= i < j < |TypeChoices| ==> TypeChoices[i] != TypeChoices[j]
    ensures forall i, j :: 0 <= i < j < |PriorityChoices| ==> PriorityChoices[i] != PriorityChoices[j]
  {
    forall t: NotificationType ensures t in TypeChoices {
      match t
      case WeatherAlert => assert TypeChoices[0] == t;
      case PriceAlert => assert TypeChoices[1] == t;
      case InsuranceClaim => assert TypeChoices[2] == t;
      case HarvestReminder => assert TypeChoices[3] == t;
      case PaymentDue => assert TypeChoices[4] == t;
      case General => assert TypeChoices[5] == t;
    }
    forall p: Priority ensures p in PriorityChoices {
      match p
      case Low => assert PriorityChoices[0] == p;
      case Medium => assert PriorityChoices[1] == p;
      case High => assert PriorityChoices[2] == p;
      case Urgent => assert PriorityChoices[3] == p;
    }
  }

  /** A stored notification. Timestamps are integers. */
  datatype Notification = Notification(
    id: nat, user: nat, kind: NotificationType, title: string, message: string, priority: Priority,
    isRead: bool, readAt: Option<int>, sentViaSms: bool, sentViaEmail: bool, createdAt: int)

  /** The channel switches of a user's preferences; a user without a preferences row gets
      one created with both switched on. */
  datatype Preferences = Preferences(smsEnabled: bool, emailEnabled: bool)

  const DefaultPreferences := Preferences(true, true)

  /** The caller as the send view sees them: their key, phone (possibly empty) and email. */
  datatype Caller = Caller(id: nat, phone: string, email: string)

  /** A validated send request; priority defaults to medium and both channel flags to false
      in the request serializer, so they always have a value here. */
  datatype SendRequest = SendRequest(
    kind: NotificationType, title: string, message: string, priority: Priority,
    sendSms: bool, sendEmail: bool)

  datatype SmsLog = SmsLog(user: nat, notification: nat, phoneNumber: string, message: string, status: string)

  datatype EmailLog = EmailLog(user: nat, notification: nat, emailAddress: string, subject: string, body: string, status: string)

  /** The phone number used when the caller has none. */
  const FallbackPhone := "+254700000000"

  /** The longest SMS text; longer messages are cut. */
  const SmsLimit := 160

  /** The first SmsLimit characters of a message (Python's `message[:160]`). */
  function SmsText(message: string): (text: string)
    ensures |text| == if |message| < SmsLimit then |message| else SmsLimit
    ensures text == message[..|text|]
  {
    if |message| <= SmsLimit then message else message[..SmsLimit]
  }

  /** Creates the notification, then sends it by SMS and by email each exactly when the
      request asks for that channel and the caller's preferences enable it, setting the
      matching flag on the notification before it is saved. */
  method SendNotification(caller: Caller, req: SendRequest, prefs: Option<Preferences>, newId: nat, now: int)
    returns (n: Notification, sms: Option<SmsLog>, email: Option<EmailLog>)
    ensures n.id == newId && n.user == caller.id && n.createdAt == now
    ensures n.kind == req.kind && n.title == req.title && n.message == req.message && n.priority == req.priority
    ensures !n.isRead && n.readAt == None
    ensures n.sentViaSms <==> req.sendSms && prefs.GetOr(DefaultPreferences).smsEnabled
    ensures sms.Some? <==> n.sentViaSms
    ensures sms.Some? ==> sms.value == SmsLog(caller.id, newId, if caller.phone != "" then caller.phone else FallbackPhone,
                                              SmsText(req.message), "sent")
    ensures n.sentViaEmail <==> req.sendEmail && prefs.GetOr(DefaultPreferences).emailEnabled
    ensures email.Some? <==> n.sentViaEmail
    ensures email.Some? ==> email.value == EmailLog(caller.id, newId, caller.email, req.title, req.message, "sent")
  {
    n := Notification(newId, caller.id, req.kind, req.title, req.message, req.priority,
                      false, None, false, false, now);
    var p := if prefs.Some? then prefs.value else DefaultPreferences;
    sms, email := None, None;
    if req.sendSms && p.smsEnabled {
      var phone := if caller.phone != "" then caller.phone else FallbackPhone;
      sms := Some(SmsLog(caller.id, n.id, phone, SmsText(n.message), "sent"));
      n := n.(sentViaSms := true);
    }
    if req.sendEmail && p.emailEnabled {
      email := Some(EmailLog(caller.id, n.id, caller.email, n.title, n.message, "sent"));
      n := n.(sentViaEmail := true);
    }
  }

  /** The notification as stored after its owner reads it: an unread one becomes read at
      `now`; one already read is left exactly as it was. */
  function Opened(n: Notification, now: int): (r: Notification)
    ensures r.isRead
    ensures n.isRead ==> r == n
    ensures !n.isRead ==> r == n.(isRead := true, readAt := Some(now))
  {
    if n.isRead then n else n.(isRead := true, readAt := Some(now))
  }

  /** Reading a notification again keeps the time it was first read. */
  lemma OpenedKeepsFirstReadTime(n: Notification, first: int, later: int)
    requires !n.isRead
    ensures Opened(Opened(n, first), later).readAt == Some(first)
  {
  }

  /** Whether the update of a mark-read request touches the row. */
  predicate Targeted(n: Notification, user: nat, ids: seq<int>)
  {
    n.user == user && (n.id as int) in ids
  }

  /** The rows after a mark-read request: every one of the caller's notifications whose id
      is listed is set read at `now` (including one already read); all others are unchanged. */
  function MarkedRead(rows: seq<Notification>, user: nat, ids: seq<int>, now: int): (r: seq<Notification>)
    ensures |r| == |rows|
    ensures forall i :: 0 <= i < |rows| && !Targeted(rows[i], user, ids) ==> r[i] == rows[i]
    ensures forall i :: 0 <= i < |rows| && Targeted(rows[i], user, ids) ==>
      r[i] == rows[i].(isRead := true, readAt := Some(now))
  {
    seq(|rows|, i requires 0 <= i < |rows| =>
      if Targeted(rows[i], user, ids) then rows[i].(isRead := true, readAt := Some(now)) else rows[i])
  }

  /** The number of rows a mark-read request writes. */
  function TargetCount(rows: seq<Notification>, user: nat, ids: seq<int>): (count: nat)
    ensures count <= |rows|
    ensures count == 0 <==> forall i :: 0 <= i < |rows| ==> !Targeted(rows[i], user, ids)
  {
    FilterEmpty(rows, (n: Notification) => Targeted(n, user, ids));
    |Filter(rows, (n: Notification) => Targeted(n, user, ids))|
  }

  /** After a mark-read request none of the targeted rows is unread, and repeating the
      request at the same time changes nothing more. */
  lemma MarkReadSettles(rows: seq<Notification>, user: nat, ids: seq<int>, now: int)
    ensures forall i :: 0 <= i < |rows| && Targeted(rows[i], user, ids) ==> MarkedRead(rows, user, ids, now)[i].isRead
    ensures MarkedRead(MarkedRead(rows, user, ids, now), user, ids, now) == MarkedRead(rows, user, ids, now)
    ensures TargetCount(MarkedRead(rows, user, ids, now), user, ids) == TargetCount(rows, user, ids)
  {
    var once := MarkedRead(rows, user, ids, now);
    assert forall i :: 0 <= i < |rows| ==> (Targeted(once[i], user, ids) <==> Targeted(rows[i], user, ids));
    FilterSameVerdicts(rows, once, (n: Notification) => Targeted(n, user, ids));
  }

  /** Two sequences whose elements agree position by position on keep filter to the same length. */
  lemma {:induction false} FilterSameVerdicts<T(!new)>(a: seq<T>, b: seq<T>, keep: T -> bool)
    requires |a| == |b|
    requires forall i :: 0 <= i < |a| ==> (keep(a[i]) <==> keep(b[i]))
    ensures |Filter(a, keep)| == |Filter(b, keep)|
  {
    if a != [] {
      var n := |a| - 1;
      assert a == a[..n] + [a[n]];
      assert b == b[..n] + [b[n]];
      FilterSnoc(a[..n], a[n], keep);
      FilterSnoc(b[..n], b[n], keep);
      FilterSameVerdicts(a[..n], b[..n], keep);
    }
  }

  /** The position of the caller's notification with the given id, if they have one. */
  function IndexOf(rows: seq<Notification>, user: nat, id: nat): (r: Option<nat>)
    ensures r.None? <==> forall i :: 0 <= i < |rows| ==> !(rows[i].user == user && rows[i].id == id)
    ensures r.Some? ==> r.value < |rows| && rows[r.value].user == user && rows[r.value].id == id
  {
    if rows == [] then None
    else if rows[0].user == user && rows[0].id == id then Some(0)
    else
      var rest := IndexOf(rows[1..], user, id);
      assert forall i :: 1 <= i < |rows| ==> rows[i] == rows[1..][i - 1];
      if rest.None? then None else Some(rest.value + 1)
  }

  /** The stored notifications of every user. */
  class Inbox {
    var rows: seq<Notification>

    constructor (initial: seq<Notification>)
      ensures rows == initial
    {
      rows := initial;
    }

    /** Fetching one of the caller's notifications marks it read when it was unread; a
        notification that is not the caller's is not found and nothing changes. */
    method Retrieve(user: nat, id: nat, now: int) returns (r: Option<Notification>)
      modifies this
      ensures IndexOf(old(rows), user, id).None? ==> r.None? && rows == old(rows)
      ensures IndexOf(old(rows), user, id).Some? ==>
        var i := IndexOf(old(rows), user, id).value;
        r == Some(Opened(old(rows)[i], now)) && rows == old(rows)[i := Opened(old(rows)[i], now)]
    {
      var found := IndexOf(rows, user, id);
      if found.None? {
        return None;
      }
      var i := found.value;
      var n := rows[i];
      if !n.isRead {
        n := n.(isRead := true, readAt := Some(now));
        rows := rows[i := n];
      }
      r := Some(n);
    }

    /** Marks the caller's listed notifications read and reports how many rows it wrote. */
    method MarkRead(user: nat, ids: seq<int>, now: int) returns (updated: nat)
      modifies this
      ensures rows == MarkedRead(old(rows), user, ids, now)
      ensures updated == TargetCount(old(rows), user, ids)
    {
      updated := TargetCount(rows, user, ids);
      rows := MarkedRead(rows, user, ids, now);
    }
  }

  /** The number of elements of s whose key is k. */
  function Count<T, K(==)>(s: seq<T>, key: T -> K, k: K): (n: nat)
    ensures n <= |s|
  {
    if s == [] then 0
    else Count(s[..|s| - 1], key, k) + (if key(s[|s| - 1]) == k then 1 else 0)
  }

  lemma CountSnoc<T, K>(s: seq<T>, x: T, key: T -> K, k: K)
    ensures Count(s + [x], key, k) == Count(s, key, k) + (if key(x) == k then 1 else 0)
  {
    assert (s + [x])[..|s|] == s;
  }

  /** The sum of the counts of the keys ks. */
  function SumCounts<T, K(==)>(s: seq<T>, key: T -> K, ks: seq<K>): nat
  {
    if ks == [] then 0 else SumCounts(s, key, ks[..|ks| - 1]) + Count(s, key, ks[|ks| - 1])
  }

  lemma {:induction false} SumCountsSnoc<T, K>(s: seq<T>, x: T, key: T -> K, ks: seq<K>)
    requires forall i, j :: 0 <= i < j < |ks| ==> ks[i] != ks[j]
    ensures SumCounts(s + [x], key, ks) == SumCounts(s, key, ks) + (if key(x) in ks then 1 else 0)
  {
    if ks != [] {
      var init, k := ks[..|ks| - 1], ks[|ks| - 1];
      assert ks == init + [k];
      assert key(x) in init ==> key(x) != k;
      SumCountsSnoc(s, x, key, init);
      CountSnoc(s, x, key, k);
      assert key(x) in ks <==> key(x) in init || key(x) == k;
    }
  }

  /** When every element's key is among the distinct keys ks, their counts add up to |s|. */
  lemma {:induction false} CountsAddUp<T, K>(s: seq<T>, key: T -> K, ks: seq<K>)
    requires forall i, j :: 0 <= i < j < |ks| ==> ks[i] != ks[j]
    requires forall i :: 0 <= i < |s| ==> key(s[i]) in ks
    ensures SumCounts(s, key, ks) == |s|
  {
    if s == [] {
      SumCountsEmpty(key, ks);
    } else {
      var init, x := s[..|s| - 1], s[|s| - 1];
      assert s == init + [x];
      CountsAddUp(init, key, ks);
      SumCountsSnoc(init, x, key, ks);
    }
  }

  lemma {:induction false} SumCountsEmpty<T, K>(key: T -> K, ks: seq<K>)
    ensures SumCounts([], key, ks) == 0
  {
    if ks != [] {
      SumCountsEmpty(key, ks[..|ks| - 1]);
    }
  }

  function KindOf(n: Notification): NotificationType
  {
    n.kind
  }

  function PriorityOf(n: Notification): Priority
  {
    n.priority
  }

  function CreatedKey(n: Notification): real
  {
    n.createdAt as real
  }

  /** The caller's notification statistics. */
  datatype Summary = Summary(
    totalNotifications: nat, unreadCount: nat,
    byType: map<NotificationType, nat>, byPriority: map<Priority, nat>,
    recent: seq<Notification>)

  /** The caller's notifications. */
  function Mine(rows: seq<Notification>, user: nat): (mine: seq<Notification>)
    ensures forall n :: n in mine <==> n in rows && n.user == user
  {
    var keep := (n: Notification) => n.user == user;
    FilterMembers(rows, keep);
    Filter(rows, keep)
  }

  function Unread(mine: seq<Notification>): (unread: seq<Notification>)
    ensures forall n :: n in unread <==> n in mine && !n.isRead
  {
    var keep := (n: Notification) => !n.isRead;
    FilterMembers(mine, keep);
    Filter(mine, keep)
  }

  /** The five most recent notifications, newest first. */
  function Recent(mine: seq<Notification>): (recent: seq<Notification>)
    ensures |recent| <= 5
  {
    Take(SortByKey(mine, CreatedKey), 5)
  }

  /** The summary: totals, per-type and per-priority counts with the zero counts left out,
      and the five most recent notifications. */
  method NotificationSummary(rows: seq<Notification>, user: nat) returns (s: Summary)
    ensures var mine := Mine(rows, user);
      && s.totalNotifications == |mine|
      && s.unreadCount == |Unread(mine)|
      && (forall t :: t in s.byType <==> Count(mine, KindOf, t) > 0)
      && (forall t :: t in s.byType ==> s.byType[t] == Count(mine, KindOf, t))
      && (forall p :: p in s.byPriority <==> Count(mine, PriorityOf, p) > 0)
      && (forall p :: p in s.byPriority ==> s.byPriority[p] == Count(mine, PriorityOf, p))
      && s.recent == Recent(mine)
  {
    var mine := Mine(rows, user);
    var byType: map<NotificationType, nat> := map[];
    for i := 0 to |TypeChoices|
      invariant forall t :: t in byType <==> t in TypeChoices[..i] && Count(mine, KindOf, t) > 0
      invariant forall t :: t in byType ==> byType[t] == Count(mine, KindOf, t)
    {
      var t := TypeChoices[i];
      assert TypeChoices[..i + 1] == TypeChoices[..i] + [t];
      var count := Count(mine, KindOf, t);
      if count > 0 {
        byType := byType[t := count];
      }
    }
    assert TypeChoices[..|TypeChoices|] == TypeChoices;
    ChoicesComplete();
    var byPriority: map<Priority, nat> := map[];
    for i := 0 to |PriorityChoices|
      invariant forall p :: p in byPriority <==> p in PriorityChoices[..i] && Count(mine, PriorityOf, p) > 0
      invariant forall p :: p in byPriority ==> byPriority[p] == Count(mine, PriorityOf, p)
    {
      var p := PriorityChoices[i];
      assert PriorityChoices[..i + 1] == PriorityChoices[..i] + [p];
      var count := Count(mine, PriorityOf, p);
      if count > 0 {
        byPriority := byPriority[p := count];
      }
    }
    assert PriorityChoices[..|PriorityChoices|] == PriorityChoices;
    s := Summary(|mine|, |Unread(mine)|, byType, byPriority, Recent(mine));
  }

  /** Unread never exceeds the total, and the per-type counts and the per-priority counts
      each add up to the total. */
  lemma SummaryAddsUp(rows: seq<Notification>, user: nat)
    ensures |Unread(Mine(rows, user))| <= |Mine(rows, user)|
    ensures SumCounts(Mine(rows, user), KindOf, TypeChoices) == |Mine(rows, user)|
    ensures SumCounts(Mine(rows, user), PriorityOf, PriorityChoices) == |Mine(rows, user)|
  {
    var mine := Mine(rows, user);
    ChoicesComplete();
    CountsAddUp(mine, KindOf, TypeChoices);
    CountsAddUp(mine, PriorityOf, PriorityChoices);
  }

  /** The recent list holds the caller's own notifications, newest first, and no omitted
      notification is newer than a listed one. */
  lemma RecentAreNewest(rows: seq<Notification>, user: nat)
    ensures forall n :: n in Recent(Mine(rows, user)) ==> n in rows && n.user == user
    ensures NonIncreasing(Recent(Mine(rows, user)), CreatedKey)
    ensures forall n, m :: n in Recent(Mine(rows, user)) && m in Mine(rows, user) && m !in Recent(Mine(rows, user)) ==>
      m.createdAt <= n.createdAt
  {
    TopOfSorted(Mine(rows, user), CreatedKey, 5);
  }
}
