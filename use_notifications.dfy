/** The notifications hook (`useNotifications.js`): the unread count, the
    getters over the notification list, the defaults of a new notification
    and the panel toggle. Notifications are plain objects, since a caller
    may put any field into a new one. */
module UseNotifications {
  import opened Js
  import opened Text
  import opened Seqs

  /** `!n.read`. */
  predicate IsUnread(n: Obj) {
    !Truthy(Get(n, "read"))
  }

  /** `notifications.filter(n => !n.read).length`. */
  function UnreadCount(notifications: seq<Obj>): nat {
    |Filter(notifications, IsUnread)|
  }

  /** `getUnreadNotifications()`. */
  function GetUnreadNotifications(notifications: seq<Obj>): seq<Obj> {
    Filter(notifications, IsUnread)
  }

  /** `getNotificationsByType(type)`: strict equality on the `type` field. */
  function GetNotificationsByType(notifications: seq<Obj>, kind: Value): seq<Obj> {
    Filter(notifications, (n: Obj) => Get(n, "type") == kind)
  }

  /** The count is the number of notifications whose `read` is falsy,
      counted one by one, and it is the length of the unread list. */
  lemma UnreadCountMeaning(notifications: seq<Obj>)
    ensures UnreadCount(notifications) == Count(notifications, IsUnread)
    ensures UnreadCount(notifications) == |GetUnreadNotifications(notifications)|
    ensures UnreadCount(notifications) <= |notifications|
  {
    FilterLength(notifications, IsUnread);
  }

  /** The unread list holds exactly the unread notifications, in order. */
  lemma GetUnreadSpec(notifications: seq<Obj>, n: Obj)
    ensures n in GetUnreadNotifications(notifications) <==> n in notifications && !Truthy(Get(n, "read"))
    ensures IsSubsequence(GetUnreadNotifications(notifications), notifications)
  {
    FilterIsSubsequence(notifications, IsUnread);
  }

  /** The list for a type holds exactly the notifications of that type, in order. */
  lemma GetByTypeSpec(notifications: seq<Obj>, kind: Value, n: Obj)
    ensures n in GetNotificationsByType(notifications, kind) <==> n in notifications && Get(n, "type") == kind
    ensures forall i :: 0 <= i < |GetNotificationsByType(notifications, kind)| ==>
      Get(GetNotificationsByType(notifications, kind)[i], "type") == kind
    ensures IsSubsequence(GetNotificationsByType(notifications, kind), notifications)
  {
    FilterIsSubsequence(notifications, (m: Obj) => Get(m, "type") == kind);
  }

  /** Every notification is unread or read: the unread list and the read
      ones split the whole list. */
  lemma UnreadSplits(notifications: seq<Obj>)
    ensures multiset(GetUnreadNotifications(notifications)) +
      multiset(Filter(notifications, (n: Obj) => Truthy(Get(n, "read")))) == multiset(notifications)
  {
    FilterComplement(notifications, IsUnread, (n: Obj) => Truthy(Get(n, "read")));
  }

  /** `createNotification(notification)`: an id from the clock in
      milliseconds, `read: false` and the current ISO date, then the
      caller's fields spread over them. */
  function CreateNotification(notification: Obj, nowMillis: nat, nowIso: string): Obj {
    Spread(map["id" := Str(NatToString(nowMillis)), "read" := Bool(false), "date" := Str(nowIso)], notification)
  }

  /** Caller fields win, including `id` and `read`; the three defaults fill
      only what the caller left out; nothing else is added. */
  lemma CreateNotificationFields(notification: Obj, nowMillis: nat, nowIso: string)
    ensures var r := CreateNotification(notification, nowMillis, nowIso);
      && r.Keys == notification.Keys + {"id", "read", "date"}
      && (forall k :: k in notification ==> r[k] == notification[k])
      && ("id" !in notification ==> r["id"] == Str(NatToString(nowMillis)))
      && ("read" !in notification ==> r["read"] == Bool(false))
      && ("date" !in notification ==> r["date"] == Str(nowIso))
  {
  }

  /** A new notification is unread unless the caller said otherwise. */
  lemma CreateNotificationUnread(notification: Obj, nowMillis: nat, nowIso: string)
    ensures IsUnread(CreateNotification(notification, nowMillis, nowIso)) <==>
      "read" !in notification || !Truthy(notification["read"])
  {
  }

  /** `setIsOpen(prev => !prev)`. */
  function ToggleNotifications(isOpen: bool): (r: bool)
    ensures r != isOpen
  {
    !isOpen
  }

  lemma ToggleTwice(isOpen: bool)
    ensures ToggleNotifications(ToggleNotifications(isOpen)) == isOpen
  {
  }

  /** The sample list the hook loads when the store is empty; its dates come
      from the clock and are passed in. */
  function InitialNotifications(dates: seq<string>): seq<Obj>
    requires |dates| == 5
  {
    [ Sample("1", "Appointment Confirmed",
        "Your appointment with Dr. Smith has been confirmed for tomorrow at 10:00 AM.", "appointment", false, dates[0]),
      Sample("2", "New Message",
        "You have a new message from Dr. Johnson regarding your test results.", "message", false, dates[1]),
      Sample("3", "Medication Reminder",
        "Don't forget to take your medication today.", "reminder", true, dates[2]),
      Sample("4", "Appointment Rescheduled",
        "Your appointment with Dr. Williams has been rescheduled to Friday at 11:00 AM.", "appointment", true, dates[3]),
      Sample("5", "Lab Results Available",
        "Your recent lab results are now available. Please check your health records.", "results", false, dates[4]) ]
  }

  /** One sample record with all six of its keys. */
  function Sample(id: string, title: string, message: string, kind: string, read: bool, date: string): Obj {
    map["id" := Str(id), "title" := Str(title), "message" := Str(message), "type" := Str(kind),
        "read" := Bool(read), "date" := Str(date)]
  }

  /** Three of the five samples start unread. */
  lemma InitialUnread(dates: seq<string>)
    requires |dates| == 5
    ensures UnreadCount(InitialNotifications(dates)) == 3
  {
    var ns := InitialNotifications(dates);
    var t3 := ns[3..];
    assert ns[4..] == [ns[4]] + [] && t3 == [ns[3]] + ns[4..];
    assert ns[2..] == [ns[2]] + t3 && ns[1..] == [ns[1]] + ns[2..] && ns == [ns[0]] + ns[1..];
    SampleUnread("1", "Appointment Confirmed",
        "Your appointment with Dr. Smith has been confirmed for tomorrow at 10:00 AM.", "appointment", false, dates[0]);
    SampleUnread("2", "New Message",
        "You have a new message from Dr. Johnson regarding your test results.", "message", false, dates[1]);
    SampleUnread("3", "Medication Reminder",
        "Don't forget to take your medication today.", "reminder", true, dates[2]);
    SampleUnread("4", "Appointment Rescheduled",
        "Your appointment with Dr. Williams has been rescheduled to Friday at 11:00 AM.", "appointment", true, dates[3]);
    SampleUnread("5", "Lab Results Available",
        "Your recent lab results are now available. Please check your health records.", "results", false, dates[4]);
    CountCons(ns[4], [], IsUnread);
    CountCons(ns[3], ns[4..], IsUnread);
    CountCons(ns[2], t3, IsUnread);
    CountCons(ns[1], ns[2..], IsUnread);
    CountCons(ns[0], ns[1..], IsUnread);
    FilterLength(ns, IsUnread);
  }

  /** A sample is unread exactly when it was created with `read: false`. */
  lemma SampleUnread(id: string, title: string, message: string, kind: string, read: bool, date: string)
    ensures IsUnread(Sample(id, title, message, kind, read, date)) == !read
  {
  }
}
