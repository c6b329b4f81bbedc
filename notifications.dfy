/**
 * The in-app notification list (lib/in-app-notifications.ts): newest first, at most 50
 * entries, marked read one at a time or all at once. The list is the document's optional
 * `notifications` field; an id and a timestamp are supplied by the caller.
 */
module InAppNotifications {
  import opened Wrappers
  import opened Types

  const MaxNotifications: nat := 50

  /** The list the document holds, an absent list read as empty. */
  function ListOf(notifications: Option<seq<Notification>>): seq<Notification> {
    notifications.GetOr([])
  }

  /** The list after `n` is put in front and the oldest entries beyond the cap are dropped. */
  function Prepend(list: seq<Notification>, n: Notification): (r: seq<Notification>)
    ensures |r| == if |list| + 1 > MaxNotifications then MaxNotifications else |list| + 1
    ensures r[0] == n
    ensures forall i :: 1 <= i < |r| ==> r[i] == list[i - 1]
  {
    var grown := [n] + list;
    if |grown| > MaxNotifications then grown[..MaxNotifications] else grown
  }

  /** addNotification: a new unread notification goes to the front of the list. */
  method AddNotification(data: AppData, kind: NotificationKind, title: string, message: string,
                         icon: Option<string>, id: string, timestamp: int)
    modifies data`notifications
    ensures data.notifications ==
              Some(Prepend(ListOf(old(data.notifications)), Notification(id, kind, title, message, timestamp, false, icon)))
  {
    if data.notifications.None? {
      data.notifications := Some([]);
    }
    var notification := Notification(id, kind, title, message, timestamp, false, icon);
    var list := [notification] + data.notifications.value;
    if |list| > MaxNotifications {
      list := list[..MaxNotifications];
    }
    data.notifications := Some(list);
  }

  /** The list with the first notification carrying `id` marked read. */
  function MarkFirstRead(list: seq<Notification>, id: string): (r: seq<Notification>)
    ensures |r| == |list|
    decreases |list|
  {
    if list == [] then []
    else if list[0].id == id then [list[0].(read := true)] + list[1..]
    else [list[0]] + MarkFirstRead(list[1..], id)
  }

  /** Marking by id changes exactly the first entry with that id, and nothing when there is none. */
  lemma {:induction false} MarkFirstReadAt(list: seq<Notification>, id: string, k: nat)
    requires k <= |list|
    requires forall j :: 0 <= j < k ==> list[j].id != id
    requires k < |list| ==> list[k].id == id
    ensures k == |list| ==> MarkFirstRead(list, id) == list
    ensures k < |list| ==> MarkFirstRead(list, id) == list[k := list[k].(read := true)]
    decreases k
  {
    if list != [] && list[0].id != id {
      MarkFirstReadAt(list[1..], id, k - 1);
      assert [list[0]] + list[1..] == list;
      if k < |list| {
        assert [list[0]] + list[1..][k - 1 := list[k].(read := true)] == list[k := list[k].(read := true)];
      }
    }
  }

  /** markNotificationRead: find the first notification with the id and mark it read. */
  method MarkNotificationRead(data: AppData, notificationId: string)
    modifies data`notifications
    ensures data.notifications ==
              match old(data.notifications)
              case None => None
              case Some(list) => Some(MarkFirstRead(list, notificationId))
  {
    if data.notifications.Some? {
      var list := data.notifications.value;
      var i := 0;
      while i < |list| && list[i].id != notificationId
        invariant 0 <= i <= |list|
        invariant forall j :: 0 <= j < i ==> list[j].id != notificationId
      {
        i := i + 1;
      }
      MarkFirstReadAt(list, notificationId, i);
      if i < |list| {
        data.notifications := Some(list[i := list[i].(read := true)]);
      }
    }
  }

  /** The list with every notification marked read. */
  function MarkAll(list: seq<Notification>): (r: seq<Notification>)
    ensures |r| == |list|
    ensures forall i :: 0 <= i < |r| ==> r[i] == list[i].(read := true)
    decreases |list|
  {
    if list == [] then [] else [list[0].(read := true)] + MarkAll(list[1..])
  }

  /** markAllNotificationsRead: visit every notification and mark it read. */
  method MarkAllNotificationsRead(data: AppData)
    modifies data`notifications
    ensures data.notifications ==
              match old(data.notifications)
              case None => None
              case Some(list) => Some(MarkAll(list))
  {
    if data.notifications.Some? {
      var list := data.notifications.value;
      ghost var original := list;
      var i := 0;
      while i < |list|
        invariant 0 <= i <= |list| == |original|
        invariant forall k :: 0 <= k < i ==> list[k] == original[k].(read := true)
        invariant forall k :: i <= k < |list| ==> list[k] == original[k]
      {
        list := list[i := list[i].(read := true)];
        i := i + 1;
      }
      assert list == MarkAll(original);
      data.notifications := Some(list);
    }
  }

  /** The number of unread notifications in a list. */
  function UnreadCount(list: seq<Notification>): (n: nat)
    ensures n <= |list|
    ensures n == 0 <==> forall i :: 0 <= i < |list| ==> list[i].read
    decreases |list|
  {
    if list == [] then 0 else (if list[0].read then 0 else 1) + UnreadCount(list[1..])
  }

  /** getUnreadCount: unread notifications, 0 when the list is absent. */
  function GetUnreadCount(notifications: Option<seq<Notification>>): (n: nat)
    ensures notifications.None? ==> n == 0
    ensures notifications.Some? ==> n <= |notifications.value|
  {
    match notifications
    case None => 0
    case Some(list) => UnreadCount(list)
  }

  /** No notification is unread once all are marked read. */
  lemma {:induction false} UnreadCountOfMarkAll(list: seq<Notification>)
    ensures UnreadCount(MarkAll(list)) == 0
    decreases |list|
  {
    if list != [] {
      assert MarkAll(list)[1..] == MarkAll(list[1..]);
      UnreadCountOfMarkAll(list[1..]);
    }
  }

  /** Marking by id lowers the unread count by one when the first entry with that id
      was unread, and leaves it alone otherwise. */
  lemma {:induction false} UnreadCountOfMarkFirstRead(list: seq<Notification>, id: string)
    ensures UnreadCount(MarkFirstRead(list, id)) == UnreadCount(list) - FirstWithIdUnread(list, id)
    decreases |list|
  {
    if list != [] {
      if list[0].id == id {
        assert MarkFirstRead(list, id)[1..] == list[1..];
      } else {
        assert MarkFirstRead(list, id)[1..] == MarkFirstRead(list[1..], id);
        UnreadCountOfMarkFirstRead(list[1..], id);
      }
    }
  }

  /** 1 when the first notification with `id` exists and is unread, else 0. */
  function FirstWithIdUnread(list: seq<Notification>, id: string): (b: nat)
    ensures b <= UnreadCount(list)
    decreases |list|
  {
    if list == [] then 0
    else if list[0].id == id then (if list[0].read then 0 else 1)
    else FirstWithIdUnread(list[1..], id)
  }

  /** A new notification adds one unread entry; the one dropped at the cap may take one away. */
  lemma {:induction false} UnreadCountOfPrepend(list: seq<Notification>, n: Notification)
    requires !n.read
    ensures UnreadCount(Prepend(list, n)) >= 1
    ensures |list| < MaxNotifications ==> UnreadCount(Prepend(list, n)) == UnreadCount(list) + 1
  {
    var r := Prepend(list, n);
    if |list| < MaxNotifications {
      assert r == [n] + list;
      assert r[1..] == list;
    } else {
      assert r[1..] == list[..MaxNotifications - 1];
    }
  }

  /** `notifications.slice(0, limit)`: a negative end counts back from the end of the list. */
  function SliceTo(list: seq<Notification>, limit: int): (r: seq<Notification>)
    ensures r <= list
    ensures 0 <= limit ==> |r| == if limit < |list| then limit else |list|
    ensures limit < 0 ==> |r| == if |list| + limit > 0 then |list| + limit else 0
  {
    if limit >= 0 then (if limit < |list| then list[..limit] else list)
    else if |list| + limit > 0 then list[..|list| + limit] else []
  }

  /** getNotifications: the first `limit` entries, or the whole list when no (or a zero) limit is given. */
  function GetNotifications(notifications: Option<seq<Notification>>, limit: Option<int>): (r: seq<Notification>)
    ensures r <= ListOf(notifications)
    ensures limit.None? || limit.value == 0 ==> r == ListOf(notifications)
    ensures limit.Some? && limit.value > 0 ==>
              |r| == if limit.value < |ListOf(notifications)| then limit.value else |ListOf(notifications)|
  {
    var list := ListOf(notifications);
    match limit
    case Some(k) => if k != 0 then SliceTo(list, k) else list
    case None => list
  }
}
