/** The notifications page (src/app/notifications/page.tsx): the "time ago" label of a notification,
    the tab filter, the unread count on the Unread tab and the "Mark all as read" condition. Times
    are milliseconds; the page's clock is a parameter. */
module NotificationsPage {
  import opened Common

  const HOUR_MS: int := 1000 * 60 * 60

  /** `Math.floor((now - date) / 3600000)`: whole hours elapsed, rounded down (also for a date in
      the future, where the difference is negative). */
  function HoursBetween(now: int, date: int): (h: int)
    ensures h * HOUR_MS <= now - date < (h + 1) * HOUR_MS
  {
    (now - date) / HOUR_MS
  }

  /** `formatTimeAgo(date)` for an elapsed number of whole hours. */
  function TimeAgo(h: int): (s: string)
    ensures h < 1 ==> s == "Just now"
    ensures 1 <= h < 24 ==> s == IntToString(h) + "h ago"
    ensures 24 <= h < 48 ==> s == "Yesterday"
    ensures 48 <= h ==> s == IntToString(h / 24) + "d ago" && h / 24 >= 2
  {
    if h < 1 then "Just now"
    else if h < 24 then IntToString(h) + "h ago"
    else if h < 48 then "Yesterday"
    else IntToString(h / 24) + "d ago"
  }

  /** Labels tell apart different hour counts below a day, and different day counts beyond two. */
  lemma TimeAgoDistinguishes(h1: int, h2: int)
    ensures 1 <= h1 < 24 && 1 <= h2 < 24 && h1 != h2 ==> TimeAgo(h1) != TimeAgo(h2)
    ensures 48 <= h1 && 48 <= h2 && h1 / 24 != h2 / 24 ==> TimeAgo(h1) != TimeAgo(h2)
    ensures h1 < 1 && 1 <= h2 ==> TimeAgo(h1) != TimeAgo(h2)
  {
    if 1 <= h1 < 24 && 1 <= h2 < 24 && h1 != h2 {
      SuffixedDistinct(h1, h2, "h ago");
    }
    if 48 <= h1 && 48 <= h2 && h1 / 24 != h2 / 24 {
      SuffixedDistinct(h1 / 24, h2 / 24, "d ago");
    }
    if h1 < 1 && 1 <= h2 {
      if h2 < 24 {
        assert TimeAgo(h2)[|TimeAgo(h2)| - 1] == 'o';
      } else if h2 >= 48 {
        assert TimeAgo(h2)[|TimeAgo(h2)| - 1] == 'o';
      }
    }
  }

  lemma SuffixedDistinct(a: int, b: int, suffix: string)
    requires a != b
    ensures IntToString(a) + suffix != IntToString(b) + suffix
  {
    var x, y := IntToString(a) + suffix, IntToString(b) + suffix;
    if x == y {
      assert IntToString(a) == x[..|x| - |suffix|] == y[..|y| - |suffix|] == IntToString(b);
      IntToStringInjective(a, b);
    }
  }

  /** What the list needs of a notification. */
  datatype Item = Item(id: string, read: bool, createdAt: int)

  function Unread(items: seq<Item>): (r: seq<Item>)
    ensures forall x :: x in r <==> x in items && !x.read
  {
    Filter(items, (n: Item) => !n.read)
  }

  /** `activeTab === "all" ? notifications : notifications.filter(n => !n.read)`. */
  function Filtered(items: seq<Item>, activeTab: string): (r: seq<Item>)
    ensures activeTab == "all" ==> r == items
    ensures activeTab != "all" ==> r == Unread(items)
  {
    if activeTab == "all" then items else Unread(items)
  }

  /** The Unread tab's count. */
  function UnreadCount(items: seq<Item>): nat
  {
    |Unread(items)|
  }

  /** `filteredNotifications.some(n => !n.read)`. */
  predicate ShowMarkAll(filtered: seq<Item>)
  {
    exists i :: 0 <= i < |filtered| && !filtered[i].read
  }

  /** The unread filter keeps order: it is the order-preserving subsequence of unread items, so
      filtering twice changes nothing. */
  lemma {:induction false} UnreadIdempotent(items: seq<Item>)
    ensures Unread(Unread(items)) == Unread(items)
  {
    if items != [] {
      UnreadIdempotent(items[1..]);
      var head: seq<Item> := if !items[0].read then [items[0]] else [];
      FilterAppend(head, Filter(items[1..], (n: Item) => !n.read), (n: Item) => !n.read);
      assert Filter(head, (n: Item) => !n.read) == head;
    }
  }

  /** On either tab the button shows exactly when some notification is unread, that is, when the
      Unread tab's count is not zero. */
  lemma MarkAllShownIffUnread(items: seq<Item>, activeTab: string)
    ensures ShowMarkAll(Filtered(items, activeTab)) <==> UnreadCount(items) > 0
  {
    var u := Unread(items);
    if UnreadCount(items) > 0 {
      assert u[0] in items && !u[0].read;
      var i :| 0 <= i < |items| && items[i] == u[0];
      if activeTab != "all" {
        assert !u[0].read;
      }
    }
    if ShowMarkAll(Filtered(items, activeTab)) {
      var f := Filtered(items, activeTab);
      var i :| 0 <= i < |f| && !f[i].read;
      assert f[i] in u;
    }
  }
}
