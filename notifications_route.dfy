/** The server's in-memory notification list (server/routes/notifications.js):
    creating a notification appends it with id `length + 1`, and marking one
    read sets the flag on the first record with that id, in place. Nothing
    is ever removed, so the list stays numbered 1, 2, 3, ... The clock is a
    parameter and the id in the path arrives already parsed. */
module NotificationsRoute {
  import opened Js
  import opened Lookup

  datatype ServerNotification = ServerNotification(
    id: int,
    title: Value,
    message: Value,
    kind: Value,
    userId: Value,
    read: bool,
    createdAt: int)

  datatype NotificationBody = NotificationBody(title: Value, message: Value, kind: Value, userId: Value)

  function NotificationId(n: ServerNotification): int { n.id }

  /** The request carries a truthy title, message and type. */
  predicate Complete(body: NotificationBody) {
    Truthy(body.title) && Truthy(body.message) && Truthy(body.kind)
  }

  /** The list after `PUT /:id/read`: the first record with that id is read,
      every other record is as it was; without one, nothing changes. */
  function ReadMarked(items: seq<ServerNotification>, id: int): (r: seq<ServerNotification>)
    ensures |r| == |items|
    ensures forall j :: 0 <= j < |items| && j != FirstIndex(items, NotificationId, id) ==> r[j] == items[j]
    ensures FirstIndex(items, NotificationId, id) >= 0 ==>
      var i := FirstIndex(items, NotificationId, id); r[i] == items[i].(read := true)
  {
    var i := FirstIndex(items, NotificationId, id);
    if i == -1 then items else items[i := items[i].(read := true)]
  }

  /** Marking a notification read twice is marking it once, and it never
      changes an id, so the numbering survives. */
  lemma ReadMarkedIdempotent(items: seq<ServerNotification>, id: int)
    ensures ReadMarked(ReadMarked(items, id), id) == ReadMarked(items, id)
    ensures forall j :: 0 <= j < |items| ==> ReadMarked(items, id)[j].id == items[j].id
  {
    var i := FirstIndex(items, NotificationId, id);
    var once := ReadMarked(items, id);
    assert forall j :: 0 <= j < |items| ==> once[j].id == items[j].id;
    if i >= 0 {
      FirstIndexUnique(once, NotificationId, id, i);
    } else {
      assert once == items;
    }
  }

  /** In the numbered list, the id names the position it marks. */
  lemma ReadMarkedNumbered(items: seq<ServerNotification>, id: int)
    requires NumberedFromOne(items, NotificationId)
    ensures 1 <= id <= |items| ==> ReadMarked(items, id) == items[id - 1 := items[id - 1].(read := true)]
    ensures !(1 <= id <= |items|) ==> ReadMarked(items, id) == items
  {
    NumberedLookup(items, NotificationId, id);
  }

  class NotificationTable {
    var notifications: seq<ServerNotification>

    ghost predicate Valid()
      reads this
    {
      NumberedFromOne(notifications, NotificationId)
    }

    constructor ()
      ensures Valid() && notifications == []
    {
      notifications := [];
    }

    /** GET / */
    method List() returns (all: seq<ServerNotification>)
      ensures all == notifications
    {
      all := notifications;
    }

    /** POST / appends an unread notification numbered `length + 1`. */
    method Create(body: NotificationBody, now: int) returns (resp: Response<ServerNotification>)
      requires Valid()
      modifies this
      ensures Valid()
      ensures !Complete(body) ==>
        resp == Failure(400, "Title, message, and type are required") && notifications == old(notifications)
      ensures Complete(body) ==>
        var n := ServerNotification(|old(notifications)| + 1, body.title, body.message, body.kind, body.userId, false, now);
        notifications == old(notifications) + [n] && resp == Success(201, n)
    {
      if !Truthy(body.title) || !Truthy(body.message) || !Truthy(body.kind) {
        return Failure(400, "Title, message, and type are required");
      }
      var n := ServerNotification(|notifications| + 1, body.title, body.message, body.kind, body.userId, false, now);
      NumberedAppend(notifications, NotificationId, n);
      notifications := notifications + [n];
      resp := Success(201, n);
    }

    /** PUT /:id/read */
    method MarkRead(id: int) returns (resp: Response<ServerNotification>)
      requires Valid()
      modifies this
      ensures Valid()
      ensures notifications == ReadMarked(old(notifications), id)
      ensures !(1 <= id <= |old(notifications)|) ==> resp == Failure(404, "Notification not found")
      ensures 1 <= id <= |old(notifications)| ==>
        resp == Success(200, notifications[id - 1]) && notifications[id - 1].read
    {
      NumberedLookup(notifications, NotificationId, id);
      var i := FindIndex(notifications, NotificationId, id);
      if i == -1 {
        return Failure(404, "Notification not found");
      }
      notifications := notifications[i := notifications[i].(read := true)];
      resp := Success(200, notifications[i]);
    }
  }
}
