/**
 * The site-wide notification manager of static/js/notifications.js: the
 * unread counter behind the header badge, its copy in local storage, and the
 * list of notifications received on this page. The counter is a JavaScript
 * number and can become `NaN` (a stored value that does not parse); `None`
 * stands for `NaN`. Server replies, the clock and the generated ids are
 * parameters.
 */
module Notifications {
  import opened Wrappers
  import opened Strings
  import NotificationPage

  /** A notification as the manager keeps it; `kind` is the display type. */
  datatype Item = Item(id: string, title: string, message: string, kind: string, timestamp: string, read: bool)

  /**
   * A pushed notification, in either format: a field that is absent or empty
   * (and so falsy) is "".
   */
  datatype Incoming = Incoming(id: string, createdAt: string, apiType: string, status: string,
                               title: string, message: string, info: string, legacyType: string)

  /** `convertApiNotification`. */
  function FromApi(d: Incoming): (r: Item)
    ensures r.read <==> d.status == "read"
    ensures r.id == d.id && r.timestamp == d.createdAt
    ensures r.kind == NotificationPage.DisplayType(d.apiType) && r.title == NotificationPage.Title(d.apiType)
  {
    Item(d.id, NotificationPage.Title(d.apiType), d.message, NotificationPage.DisplayType(d.apiType), d.createdAt, d.status == "read")
  }

  /** `handleNewNotification`'s choice of format and the item it builds; the legacy item gets a fresh id and the current time. */
  function Received(d: Incoming, freshId: string, now: string): (r: Item)
    ensures d.id != "" && d.createdAt != "" ==> r == FromApi(d)
    ensures !(d.id != "" && d.createdAt != "") ==> (!r.read && r.id == freshId && r.timestamp == now &&
      r.title == (if d.title != "" then d.title else "New Notification") &&
      r.message == (if d.message != "" then d.message else if d.info != "" then d.info else "You have a new notification") &&
      r.kind == (if d.legacyType != "" then d.legacyType else "info"))
  {
    if d.id != "" && d.createdAt != "" then FromApi(d)
    else Item(freshId, if d.title != "" then d.title else "New Notification",
              if d.message != "" then d.message else if d.info != "" then d.info else "You have a new notification",
              if d.legacyType != "" then d.legacyType else "info", now, false)
  }

  /** The number of unread items. */
  function UnreadItems(items: seq<Item>): (r: nat)
    ensures r <= |items|
  {
    if items == [] then 0 else (if items[0].read then 0 else 1) + UnreadItems(items[1..])
  }

  lemma {:induction false} UnreadItemsAppend(a: seq<Item>, b: seq<Item>)
    ensures UnreadItems(a + b) == UnreadItems(a) + UnreadItems(b)
    decreases |a|
  {
    if a == [] {
      assert a + b == b;
    } else {
      assert (a + b)[1..] == a[1..] + b;
      UnreadItemsAppend(a[1..], b);
    }
  }

  /** Marking one unread item read lowers the unread count by one. */
  lemma UnreadItemsMark(items: seq<Item>, i: nat)
    requires i < |items| && !items[i].read
    ensures UnreadItems(items[i := items[i].(read := true)]) == UnreadItems(items) - 1
  {
    var n := items[i].(read := true);
    assert items == items[..i] + [items[i]] + items[i + 1..];
    assert items[i := n] == items[..i] + [n] + items[i + 1..];
    UnreadItemsAppend(items[..i] + [items[i]], items[i + 1..]);
    UnreadItemsAppend(items[..i], [items[i]]);
    UnreadItemsAppend(items[..i] + [n], items[i + 1..]);
    UnreadItemsAppend(items[..i], [n]);
  }

  /** The first position holding `id`, if any. */
  function FirstWithId(items: seq<Item>, id: string): (r: Option<nat>)
    ensures r.Some? ==> r.value < |items| && items[r.value].id == id && forall j :: 0 <= j < r.value ==> items[j].id != id
    ensures r.None? ==> forall j :: 0 <= j < |items| ==> items[j].id != id
  {
    if items == [] then None
    else if items[0].id == id then Some(0)
    else match FirstWithId(items[1..], id)
      case None => None
      case Some(k) => Some(k + 1)
  }

  /** `this.unreadCount.toString()`. */
  function NumberText(n: Option<int>): string
  {
    if n.None? then "NaN" else IntToString(n.value)
  }

  /** `loadUnreadCount` on the stored text: `parseInt(saved, 10)` when it is non-empty, else 0. */
  function LoadedCount(saved: Option<string>): (r: Option<int>)
    ensures saved.None? || saved == Some("") ==> r == Some(0)
    ensures saved.Some? && saved.value != "" ==> r == ParseIntJs(saved.value)
  {
    if saved.Some? && saved.value != "" then ParseIntJs(saved.value) else Some(0)
  }

  /** What is saved is what the next page load reads back, `NaN` included. */
  lemma SaveLoadRoundTrip(n: Option<int>)
    ensures LoadedCount(Some(NumberText(n))) == n
  {
    if n.Some? {
      ParseIntJsInt(n.value);
    } else {
      var t := "NaN";
      assert !IsSpace(t[0]) && !IsDigit(t[0]);
      assert TrimStart(t) == t;
      assert SignStripped(t) == t;
      assert DigitPrefix(t) == "";
    }
  }

  /** The header badge. */
  datatype Badge = Hidden | Shown(text: string)

  /** The badge rule of `updateNotificationIcon`: shown for a positive count, capped at "99+". */
  function BadgeFor(count: Option<int>): (r: Badge)
    ensures r.Shown? <==> count.Some? && count.value > 0
    ensures r.Shown? && count.value > 99 ==> r.text == "99+"
    ensures r.Shown? && count.value <= 99 ==> ParseIntJs(r.text) == count && |r.text| <= 2
  {
    if count.Some? && count.value > 0 then
      ParseIntJsNat(count.value);
      Shown(if count.value > 99 then "99+" else NatToString(count.value))
    else Hidden
  }

  /** The `NotificationManager` object, with the local-storage entry it writes. */
  class Manager {
    var unreadCount: Option<int>
    var notifications: seq<Item>
    var stored: Option<string>

    /** The counter agrees with the list. */
    predicate Consistent()
      reads this
    {
      unreadCount == Some(UnreadItems(notifications))
    }

    constructor (saved: Option<string>)
      ensures unreadCount == Some(0) && notifications == [] && stored == saved
    {
      unreadCount := Some(0);
      notifications := [];
      stored := saved;
    }

    /** `loadUnreadCount`. */
    method LoadUnreadCount()
      modifies this
      ensures unreadCount == LoadedCount(stored)
      ensures notifications == old(notifications) && stored == old(stored)
    {
      if stored.Some? && stored.value != "" {
        unreadCount := ParseIntJs(stored.value);
      } else {
        unreadCount := Some(0);
      }
    }

    /** `saveUnreadCount`. */
    method SaveUnreadCount()
      modifies this
      ensures stored == Some(NumberText(unreadCount))
      ensures unreadCount == old(unreadCount) && notifications == old(notifications)
    {
      stored := Some(NumberText(unreadCount));
    }

    /** `handleNewNotification`: the item goes first; the counter moves only for an unread item. */
    method HandleNewNotification(d: Incoming, freshId: string, now: string) returns (item: Item)
      modifies this
      ensures item == Received(d, freshId, now)
      ensures notifications == [item] + old(notifications)
      ensures item.read ==> unreadCount == old(unreadCount) && stored == old(stored)
      ensures !item.read ==> (unreadCount == (if old(unreadCount).Some? then Some(old(unreadCount).value + 1) else None) &&
        stored == Some(NumberText(unreadCount)))
      ensures old(Consistent()) ==> Consistent()
    {
      item := Received(d, freshId, now);
      notifications := [item] + notifications;
      assert notifications[1..] == old(notifications);
      if !item.read {
        if unreadCount.Some? {
          unreadCount := Some(unreadCount.value + 1);
        }
        SaveUnreadCount();
      }
    }

    /**
     * `markNotificationAsRead` after the request: nothing unless the server
     * answered OK; then the first item with the id, when it is unread, is
     * marked read and the counter lowered, never below 0.
     */
    method MarkNotificationAsRead(id: string, ok: bool) returns (result: bool)
      modifies this
      ensures result == ok
      ensures !ok || FirstWithId(old(notifications), id).None? || old(notifications)[FirstWithId(old(notifications), id).value].read ==>
        notifications == old(notifications) && unreadCount == old(unreadCount) && stored == old(stored)
      ensures ok && FirstWithId(old(notifications), id).Some? && !old(notifications)[FirstWithId(old(notifications), id).value].read ==>
        var i := FirstWithId(old(notifications), id).value;
        notifications == old(notifications)[i := old(notifications)[i].(read := true)] &&
        unreadCount == (if old(unreadCount).Some? then Some(if old(unreadCount).value - 1 > 0 then old(unreadCount).value - 1 else 0) else None) &&
        stored == Some(NumberText(unreadCount))
      ensures old(Consistent()) ==> Consistent()
    {
      if !ok {
        return false;
      }
      var found := FirstWithId(notifications, id);
      if found.Some? && !notifications[found.value].read {
        var i := found.value;
        UnreadItemsMark(notifications, i);
        notifications := notifications[i := notifications[i].(read := true)];
        if unreadCount.Some? {
          unreadCount := Some(if unreadCount.value - 1 > 0 then unreadCount.value - 1 else 0);
        }
        SaveUnreadCount();
      }
      result := true;
    }

    /** `markAllAsRead`: on success and on failure alike every item is marked read and the counter is 0. */
    method MarkAllAsRead(ok: bool) returns (result: bool)
      modifies this
      ensures result == ok
      ensures |notifications| == |old(notifications)|
      ensures forall i :: 0 <= i < |notifications| ==> notifications[i] == old(notifications)[i].(read := true)
      ensures unreadCount == Some(0) && stored == Some("0")
      ensures Consistent()
    {
      var i := 0;
      while i < |notifications|
        invariant 0 <= i <= |notifications| == |old(notifications)|
        invariant forall k :: 0 <= k < i ==> notifications[k] == old(notifications)[k].(read := true)
        invariant forall k :: i <= k < |notifications| ==> notifications[k] == old(notifications)[k]
      {
        notifications := notifications[i := notifications[i].(read := true)];
        i := i + 1;
      }
      AllMarkedRead(notifications);
      unreadCount := Some(0);
      SaveUnreadCount();
      result := ok;
    }

    /** `clearAllNotifications`. */
    method ClearAllNotifications()
      modifies this
      ensures notifications == [] && unreadCount == Some(0) && stored == Some("0")
      ensures Consistent()
    {
      notifications := [];
      unreadCount := Some(0);
      SaveUnreadCount();
    }
  }

  /** A list with every item read has no unread item. */
  lemma {:induction false} AllMarkedRead(items: seq<Item>)
    requires forall i :: 0 <= i < |items| ==> items[i].read
    ensures UnreadItems(items) == 0
  {
    if items != [] {
      AllMarkedRead(items[1..]);
    }
  }

  /** Starting consistent, a notification pushed and then marked read leaves the counter where it was. */
  lemma PushThenReadRestoresCount(items: seq<Item>, item: Item)
    requires !item.read
    ensures FirstWithId([item] + items, item.id) == Some(0)
    ensures UnreadItems(([item] + items)[0 := item.(read := true)]) == UnreadItems(items)
  {
    UnreadItemsMark([item] + items, 0);
    assert ([item] + items)[1..] == items;
  }
}
