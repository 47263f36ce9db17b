/** The notification bell: the list fetched from the server, the unread
    counter shown on the badge, and the two mark-as-read handlers. */
module NotificationPanel {
  import opened Wrappers

  datatype Notification = Notification(id: int, message: string, isRead: bool, createdAt: int)

  /** `list.filter(n => !n.isRead).length`. */
  function CountUnread(ns: seq<Notification>): (n: nat)
    ensures n <= |ns|
    ensures n == 0 <==> forall i :: 0 <= i < |ns| ==> ns[i].isRead
  {
    if ns == [] then 0 else (if ns[0].isRead then 0 else 1) + CountUnread(ns[1..])
  }

  /** Some entry with this id is unread. */
  predicate IsUnreadIn(ns: seq<Notification>, id: int) {
    exists i :: 0 <= i < |ns| && ns[i].id == id && !ns[i].isRead
  }

  /** No two entries share an id. */
  predicate UniqueIds(ns: seq<Notification>) {
    forall i, j :: 0 <= i < j < |ns| ==> ns[i].id != ns[j].id
  }

  /** `prev.map(n => n.id === id ? { ...n, isRead: true } : n)`: order and length
      kept, only entries with that id become read. */
  function MarkRead(ns: seq<Notification>, id: int): (r: seq<Notification>)
    ensures |r| == |ns|
    ensures forall i :: 0 <= i < |ns| ==> r[i] == if ns[i].id == id then ns[i].(isRead := true) else ns[i]
  {
    if ns == [] then [] else [if ns[0].id == id then ns[0].(isRead := true) else ns[0]] + MarkRead(ns[1..], id)
  }

  /** `prev.map(n => ({ ...n, isRead: true }))`. */
  function MarkAllRead(ns: seq<Notification>): (r: seq<Notification>)
    ensures |r| == |ns|
    ensures forall i :: 0 <= i < |ns| ==> r[i] == ns[i].(isRead := true)
  {
    if ns == [] then [] else [ns[0].(isRead := true)] + MarkAllRead(ns[1..])
  }

  /** An unread entry with the id is the head or lies in the tail. */
  lemma IsUnreadInCons(ns: seq<Notification>, id: int)
    requires ns != []
    ensures IsUnreadIn(ns, id) <==> (ns[0].id == id && !ns[0].isRead) || IsUnreadIn(ns[1..], id)
  {
    if IsUnreadIn(ns[1..], id) {
      var i :| 0 <= i < |ns[1..]| && ns[1..][i].id == id && !ns[1..][i].isRead;
      assert ns[i + 1] == ns[1..][i];
    }
    if IsUnreadIn(ns, id) && !(ns[0].id == id && !ns[0].isRead) {
      var i :| 0 <= i < |ns| && ns[i].id == id && !ns[i].isRead;
      assert ns[1..][i - 1] == ns[i];
    }
  }

  /** Marking one id read lowers the number of unread entries by one exactly
      when that id was unread (ids being unique), and leaves it otherwise. */
  lemma {:induction false} MarkReadCount(ns: seq<Notification>, id: int)
    requires UniqueIds(ns)
    ensures IsUnreadIn(ns, id) ==> CountUnread(MarkRead(ns, id)) == CountUnread(ns) - 1
    ensures !IsUnreadIn(ns, id) ==> CountUnread(MarkRead(ns, id)) == CountUnread(ns)
  {
    if ns != [] {
      var r := MarkRead(ns, id);
      assert r[1..] == MarkRead(ns[1..], id);
      assert UniqueIds(ns[1..]) by {
        forall i, j | 0 <= i < j < |ns[1..]| ensures ns[1..][i].id != ns[1..][j].id {
          assert ns[1..][i] == ns[i + 1] && ns[1..][j] == ns[j + 1];
        }
      }
      MarkReadCount(ns[1..], id);
      IsUnreadInCons(ns, id);
      if ns[0].id == id {
        assert !IsUnreadIn(ns[1..], id) by {
          forall i | 0 <= i < |ns[1..]| ensures ns[1..][i].id != id {
            assert ns[1..][i] == ns[i + 1];
          }
        }
      }
      assert CountUnread(r) == (if r[0].isRead then 0 else 1) + CountUnread(r[1..]);
    }
  }

  /** After mark-all nothing is unread, and marking all again changes nothing. */
  lemma MarkAllReadClears(ns: seq<Notification>)
    ensures CountUnread(MarkAllRead(ns)) == 0
    ensures MarkAllRead(MarkAllRead(ns)) == MarkAllRead(ns)
  {
  }

  /** Two successful clicks on one entry before it re-renders lower the
      number of unread entries by one only, while the counter drops twice. */
  lemma DoubleMarkDrifts(n: Notification)
    requires !n.isRead
    ensures CountUnread(MarkRead(MarkRead([n], n.id), n.id)) == CountUnread([n]) - 1
  {
    assert MarkRead([n], n.id) == [n.(isRead := true)];
    assert MarkRead([n.(isRead := true)], n.id) == [n.(isRead := true)];
  }

  const LOGIN_TO_VIEW: string := "Please log in to view notifications"

  class Notifications {
    var notifications: seq<Notification>
    var unreadCount: int
    var error: string

    /** The badge agrees with the list. */
    ghost predicate CountMatches()
      reads this
    {
      unreadCount == CountUnread(notifications)
    }

    constructor ()
      ensures notifications == [] && unreadCount == 0 && error == ""
      ensures CountMatches()
    {
      notifications, unreadCount, error := [], 0, "";
    }

    /** The "Mark all as read" button is shown when the list is not empty. */
    predicate ShowsMarkAll()
      reads this
    {
      |notifications| > 0
    }

    /** An entry's "Mark as read" button is shown only while it is unread. */
    predicate ShowsMarkAsRead(n: Notification) {
      !n.isRead
    }

    /** fetchNotifications: with no token only `error` changes and nothing is
        requested; a response replaces the list and recounts the unread entries;
        a failure only sets `error`. */
    method FetchNotifications(token: Option<string>, reply: Reply<seq<Notification>>) returns (requested: bool)
      modifies this
      ensures requested == Truthy(token)
      ensures !requested ==> error == LOGIN_TO_VIEW && notifications == old(notifications) && unreadCount == old(unreadCount)
      ensures requested && reply.Ok? ==>
        notifications == reply.data && unreadCount == CountUnread(reply.data) && error == old(error) && CountMatches()
      ensures requested && reply.Failed? ==>
        && error == ErrorText(reply.message, "Error fetching notifications")
        && notifications == old(notifications) && unreadCount == old(unreadCount)
    {
      if !Truthy(token) {
        error := LOGIN_TO_VIEW;
        return false;
      }
      requested := true;
      match reply
      case Ok(data) =>
        notifications := data;
        unreadCount := CountUnread(data);
      case Failed(message) =>
        error := ErrorText(message, "Error fetching notifications");
    }

    /** handleMarkAsRead: on success the entry with that id becomes read and
        the counter drops by one, whatever the entry was. */
    method MarkAsRead(id: int, reply: Reply<()>)
      modifies this
      ensures reply.Ok? ==>
        notifications == MarkRead(old(notifications), id) && unreadCount == old(unreadCount) - 1 && error == old(error)
      ensures reply.Ok? && old(CountMatches()) && UniqueIds(old(notifications)) ==>
        (CountMatches() <==> IsUnreadIn(old(notifications), id))
      ensures reply.Failed? ==>
        && error == ErrorText(reply.message, "Error marking notification as read")
        && notifications == old(notifications) && unreadCount == old(unreadCount)
    {
      match reply
      case Ok(_) =>
        if UniqueIds(notifications) {
          MarkReadCount(notifications, id);
        }
        notifications := MarkRead(notifications, id);
        unreadCount := unreadCount - 1;
      case Failed(message) =>
        error := ErrorText(message, "Error marking notification as read");
    }

    /** handleMarkAllAsRead: on success every entry is read and the counter is 0. */
    method MarkAllAsRead(reply: Reply<()>)
      modifies this
      ensures reply.Ok? ==>
        notifications == MarkAllRead(old(notifications)) && unreadCount == 0 && error == old(error) && CountMatches()
      ensures reply.Failed? ==>
        && error == ErrorText(reply.message, "Error marking all notifications as read")
        && notifications == old(notifications) && unreadCount == old(unreadCount)
    {
      match reply
      case Ok(_) =>
        MarkAllReadClears(notifications);
        notifications := MarkAllRead(notifications);
        unreadCount := 0;
      case Failed(message) =>
        error := ErrorText(message, "Error marking all notifications as read");
    }
  }
}
