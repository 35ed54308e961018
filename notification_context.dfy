/** The client's notification list (client/src/contexts/NotificationContext.jsx):
    each operation replaces the held list with a transform of it. The id
    (`Date.now() + Math.random()`) and the timestamp are parameters; the
    timer that removes a notification later is a separate, later call of
    RemoveNotification. */
module NotificationContext {

  datatype Notification = Notification(id: int, kind: string, message: string, timestamp: int, read: bool)

  /** `list.filter(n => n.id !== id)` */
  function Without(list: seq<Notification>, id: int): seq<Notification> {
    if list == [] then []
    else if list[0].id != id then [list[0]] + Without(list[1..], id)
    else Without(list[1..], id)
  }

  /** `list.map(n => n.id === id ? { ...n, read: true } : n)` */
  function MarkedRead(list: seq<Notification>, id: int): seq<Notification> {
    if list == [] then []
    else [if list[0].id == id then list[0].(read := true) else list[0]] + MarkedRead(list[1..], id)
  }

  /** `list.map(n => ({ ...n, read: true }))` */
  function AllRead(list: seq<Notification>): seq<Notification> {
    if list == [] then [] else [list[0].(read := true)] + AllRead(list[1..])
  }

  /** `list.filter(n => !n.read).length` */
  function CountUnread(list: seq<Notification>): nat {
    if list == [] then 0 else (if list[0].read then 0 else 1) + CountUnread(list[1..])
  }

  // ---------------------------------------------------------------------
  // What the transforms do

  /** Removal keeps exactly the entries with another id. */
  lemma {:induction false} WithoutMembers(list: seq<Notification>, id: int, n: Notification)
    ensures n in Without(list, id) <==> n in list && n.id != id
  {
    if list != [] {
      WithoutMembers(list[1..], id, n);
      assert list == [list[0]] + list[1..];
    }
  }

  /** Removal works piecewise, so the kept entries stay in their order. */
  lemma {:induction false} WithoutConcat(a: seq<Notification>, b: seq<Notification>, id: int)
    ensures Without(a + b, id) == Without(a, id) + Without(b, id)
  {
    if a != [] {
      assert (a + b)[1..] == a[1..] + b;
      WithoutConcat(a[1..], b, id);
    } else {
      assert a + b == b;
    }
  }

  /** Removing an id no entry has leaves the list as it is. */
  lemma {:induction false} WithoutAbsent(list: seq<Notification>, id: int)
    requires forall i :: 0 <= i < |list| ==> list[i].id != id
    ensures Without(list, id) == list
  {
    if list != [] {
      WithoutAbsent(list[1..], id);
      assert list == [list[0]] + list[1..];
    }
  }

  /** Marking keeps length and order and changes only the read flag of the
      entries with that id. */
  lemma {:induction false} MarkedReadAt(list: seq<Notification>, id: int)
    ensures |MarkedRead(list, id)| == |list|
    ensures forall i :: 0 <= i < |list| ==>
      MarkedRead(list, id)[i] == if list[i].id == id then list[i].(read := true) else list[i]
  {
    if list != [] {
      MarkedReadAt(list[1..], id);
    }
  }

  /** Marking the same id twice is marking it once. */
  lemma MarkedReadIdempotent(list: seq<Notification>, id: int)
    ensures MarkedRead(MarkedRead(list, id), id) == MarkedRead(list, id)
  {
    MarkedReadAt(list, id);
    MarkedReadAt(MarkedRead(list, id), id);
  }

  /** Marking never adds to the unread count. */
  lemma {:induction false} MarkedReadCount(list: seq<Notification>, id: int)
    ensures CountUnread(MarkedRead(list, id)) <= CountUnread(list)
  {
    if list != [] {
      MarkedReadCount(list[1..], id);
    }
  }

  /** Marking all leaves every entry read and, so, nothing unread. */
  lemma {:induction false} AllReadMarksEvery(list: seq<Notification>)
    ensures |AllRead(list)| == |list|
    ensures forall i :: 0 <= i < |list| ==> AllRead(list)[i] == list[i].(read := true)
    ensures CountUnread(AllRead(list)) == 0
  {
    if list != [] {
      AllReadMarksEvery(list[1..]);
    }
  }

  /** The unread count never exceeds the length, and is zero exactly when
      every entry is read. */
  lemma {:induction false} CountUnreadBounds(list: seq<Notification>)
    ensures CountUnread(list) <= |list|
    ensures CountUnread(list) == 0 <==> forall i :: 0 <= i < |list| ==> list[i].read
  {
    if list != [] {
      CountUnreadBounds(list[1..]);
      assert forall i :: 1 <= i < |list| ==> list[i] == list[1..][i - 1];
    }
  }

  // ---------------------------------------------------------------------
  // The provider's state

  class NotificationProvider {
    var notifications: seq<Notification>

    constructor ()
      ensures notifications == []
    {
      notifications := [];
    }

    /** Puts a new unread notification in front of the others and returns its id. */
    method AddNotification(kind: string, message: string, id: int, timestamp: int) returns (newId: int)
      modifies this
      ensures newId == id
      ensures notifications == [Notification(id, kind, message, timestamp, false)] + old(notifications)
      ensures |notifications| == |old(notifications)| + 1 && notifications[1..] == old(notifications)
    {
      notifications := [Notification(id, kind, message, timestamp, false)] + notifications;
      newId := id;
    }

    method RemoveNotification(id: int)
      modifies this
      ensures notifications == Without(old(notifications), id)
      ensures forall n :: n in notifications <==> n in old(notifications) && n.id != id
    {
      forall n ensures n in Without(notifications, id) <==> n in notifications && n.id != id {
        WithoutMembers(notifications, id, n);
      }
      notifications := Without(notifications, id);
    }

    method MarkAsRead(id: int)
      modifies this
      ensures notifications == MarkedRead(old(notifications), id)
      ensures |notifications| == |old(notifications)|
    {
      MarkedReadAt(notifications, id);
      notifications := MarkedRead(notifications, id);
    }

    method MarkAllAsRead()
      modifies this
      ensures notifications == AllRead(old(notifications))
      ensures UnreadCount() == 0
    {
      AllReadMarksEvery(notifications);
      notifications := AllRead(notifications);
    }

    method ClearAll()
      modifies this
      ensures notifications == []
    {
      notifications := [];
    }

    /** `notifications.filter(n => !n.read).length` */
    function UnreadCount(): (count: nat)
      reads this
      ensures count <= |notifications|
      ensures count == CountUnread(notifications)
    {
      CountUnreadBounds(notifications);
      CountUnread(notifications)
    }
  }
}
