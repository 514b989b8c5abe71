/**
  The Notifications page (src/pages/NotificationsPage.jsx): the list the page polls
  from the server, the mark-as-read patch and the all/unread/read tabs.
 */
module Notifications {
  import opened Collections

  /** A notification as the server sends it. */
  datatype ServerNotification = ServerNotification(serverId: string, message: string, date: string, read: bool)

  /** A notification as the page keeps it, with its date already formatted for display. */
  datatype Notification = Notification(id: string, message: string, date: string, read: bool)

  /**
    The mapping done after each poll. Date formatting (`toLocaleString`) depends on the
    browser's locale and time zone, so it is a parameter.
   */
  function FromServer(data: seq<ServerNotification>, formatDate: string -> string): (r: seq<Notification>)
    ensures |r| == |data|
    ensures forall i :: 0 <= i < |data| ==>
      && r[i].id == data[i].serverId
      && r[i].message == data[i].message
      && r[i].read == data[i].read
      && r[i].date == formatDate(data[i].date)
  {
    seq(|data|, i requires 0 <= i < |data| =>
      Notification(data[i].serverId, data[i].message, formatDate(data[i].date), data[i].read))
  }

  function IsUnread(): Notification -> bool
  {
    (n: Notification) => !n.read
  }

  function ServerUnread(): ServerNotification -> bool
  {
    (n: ServerNotification) => !n.read
  }

  /** The mapping neither adds nor loses an unread notification. */
  lemma {:induction false} FromServerKeepsUnreadCount(data: seq<ServerNotification>, formatDate: string -> string)
    ensures |Keep(FromServer(data, formatDate), IsUnread())| == |Keep(data, ServerUnread())|
  {
    if data != [] {
      FromServerKeepsUnreadCount(data[1..], formatDate);
      assert FromServer(data, formatDate)[1..] == FromServer(data[1..], formatDate);
    }
  }

  /** `prev.map(n => n.id === id ? {...n, read: true} : n)`. */
  function MarkRead(ns: seq<Notification>, id: string): (r: seq<Notification>)
    ensures |r| == |ns|
    ensures forall i :: 0 <= i < |ns| && ns[i].id == id ==> r[i].read && r[i] == ns[i].(read := r[i].read)
    ensures forall i :: 0 <= i < |ns| && ns[i].id != id ==> r[i] == ns[i]
  {
    seq(|ns|, i requires 0 <= i < |ns| => if ns[i].id == id then ns[i].(read := true) else ns[i])
  }

  lemma MarkReadIdempotent(ns: seq<Notification>, id: string)
    ensures MarkRead(MarkRead(ns, id), id) == MarkRead(ns, id)
  {
  }

  /** After marking `id`, no unread notification with that id remains. */
  lemma MarkReadLeavesNoUnread(ns: seq<Notification>, id: string)
    ensures forall n :: n in FilterNotifications(MarkRead(ns, id), "unread") ==> n.id != id
  {
  }

  /** Marking never makes the unread tab longer. */
  lemma {:induction false} MarkReadShrinksUnread(ns: seq<Notification>, id: string)
    ensures |FilterNotifications(MarkRead(ns, id), "unread")| <= |FilterNotifications(ns, "unread")|
  {
    if ns != [] {
      MarkReadShrinksUnread(ns[1..], id);
      assert MarkRead(ns, id)[1..] == MarkRead(ns[1..], id);
    }
  }

  /** The condition of one tab: "unread" and "read" test the flag, any other value keeps everything. */
  function Shows(filter: string): Notification -> bool
  {
    (n: Notification) => if filter == "unread" then !n.read else if filter == "read" then n.read else true
  }

  /** `filteredNotifications`. */
  function FilterNotifications(ns: seq<Notification>, filter: string): (r: seq<Notification>)
    ensures forall n :: n in r <==> n in ns && (filter == "unread" ==> !n.read) && (filter == "read" ==> n.read)
    ensures forall n :: multiset(r)[n] == if Shows(filter)(n) then multiset(ns)[n] else 0
    ensures IsSubsequence(r, ns)
  {
    KeepIsSubsequence(ns, Shows(filter));
    Keep(ns, Shows(filter))
  }

  /** The unread and read tabs split the list: together they hold every notification exactly once. */
  lemma UnreadAndReadPartition(ns: seq<Notification>)
    ensures |FilterNotifications(ns, "unread")| + |FilterNotifications(ns, "read")| == |ns|
    ensures multiset(FilterNotifications(ns, "unread")) + multiset(FilterNotifications(ns, "read")) == multiset(ns)
  {
    KeepSplits(ns, Shows("unread"), Shows("read"));
  }

  /** Any tab other than "unread" and "read" shows the whole list. */
  lemma OtherFilterShowsAll(ns: seq<Notification>, filter: string)
    ensures filter != "unread" && filter != "read" ==> FilterNotifications(ns, filter) == ns
  {
    if filter != "unread" && filter != "read" {
      KeepAll(ns, Shows(filter));
    }
  }

  /** The page's state: the polled list and the selected tab. */
  class NotificationList {
    var notifications: seq<Notification>
    var filter: string

    constructor ()
      ensures notifications == [] && filter == "all"
    {
      notifications := [];
      filter := "all";
    }

    /**
      A poll finishing: the mapped list replaces the old one. A failed fetch, an
      unreadable body or a body that is not a list (`data` is `None`) changes nothing.
     */
    method PollCompleted(data: Option<seq<ServerNotification>>, formatDate: string -> string)
      modifies this`notifications
      ensures notifications == if data.Some? then FromServer(data.value, formatDate) else old(notifications)
    {
      if data.Some? {
        notifications := FromServer(data.value, formatDate);
      }
    }

    /**
      `markAsRead`: the local patch happens unless the request throws; an HTTP error
      status does not make `fetch` throw, so it still patches.
     */
    method MarkAsRead(id: string, requestThrew: bool)
      modifies this`notifications
      ensures notifications == if requestThrew then old(notifications) else MarkRead(old(notifications), id)
    {
      if !requestThrew {
        notifications := MarkRead(notifications, id);
      }
    }

    method SetFilter(f: string)
      modifies this`filter
      ensures filter == f
    {
      filter := f;
    }

    /** The list the page renders. */
    function Visible(): (r: seq<Notification>)
      reads this
      ensures r == FilterNotifications(notifications, filter)
      ensures IsSubsequence(r, notifications)
      ensures filter == "unread" ==> forall n :: n in r <==> n in notifications && !n.read
      ensures filter == "read" ==> forall n :: n in r <==> n in notifications && n.read
      ensures filter != "unread" && filter != "read" ==> r == notifications
    {
      OtherFilterShowsAll(notifications, filter);
      FilterNotifications(notifications, filter)
    }
  }
}
