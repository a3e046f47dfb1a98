/** The notification bell (frontend/src/components/NotificationCenter.tsx): a list of
    notifications that each action replaces (map or filter) and an unread counter stepped
    beside it. */
module Notifications {
  import opened Text

  datatype Kind = View | Upload | Download | ShareCreated

  /** A notification; the timestamp is a number of milliseconds. */
  datatype Notification = Notification(id: string, kind: Kind, title: string, message: string,
                                       timestamp: int, read: bool, shareCode: Option<string>)

  /** How many notifications are unread. */
  function CountUnread(ns: seq<Notification>): (c: nat)
    ensures c <= |ns|
  {
    if ns == [] then 0 else (if ns[0].read then 0 else 1) + CountUnread(ns[1..])
  }

  /** How many unread notifications carry `id`. */
  function UnreadWith(ns: seq<Notification>, id: string): (c: nat)
    ensures c <= CountUnread(ns)
  {
    if ns == [] then 0 else (if !ns[0].read && ns[0].id == id then 1 else 0) + UnreadWith(ns[1..], id)
  }

  /** `prev.map((n) => (n.id === id ? { ...n, read: true } : n))`. */
  function MarkRead(ns: seq<Notification>, id: string): (r: seq<Notification>)
    ensures |r| == |ns|
    ensures forall i :: 0 <= i < |ns| ==> r[i] == (if ns[i].id == id then ns[i].(read := true) else ns[i])
  {
    seq(|ns|, i requires 0 <= i < |ns| => if ns[i].id == id then ns[i].(read := true) else ns[i])
  }

  /** `prev.map((n) => ({ ...n, read: true }))`. */
  function MarkAllRead(ns: seq<Notification>): (r: seq<Notification>)
    ensures |r| == |ns|
    ensures forall i :: 0 <= i < |ns| ==> r[i] == ns[i].(read := true)
  {
    seq(|ns|, i requires 0 <= i < |ns| => ns[i].(read := true))
  }

  /** `prev.filter((n) => n.id !== id)`. */
  function Without(ns: seq<Notification>, id: string): (r: seq<Notification>)
    ensures |r| <= |ns|
    ensures forall i :: 0 <= i < |r| ==> r[i].id != id
  {
    if ns == [] then []
    else if ns[0].id != id then [ns[0]] + Without(ns[1..], id)
    else Without(ns[1..], id)
  }

  /** The filter invents nothing: every entry it keeps is one of the list's. */
  lemma {:induction false} WithoutFromInput(ns: seq<Notification>, id: string)
    ensures forall i :: 0 <= i < |Without(ns, id)| ==> Without(ns, id)[i] in ns
  {
    if ns != [] {
      WithoutFromInput(ns[1..], id);
      var r, w := Without(ns, id), Without(ns[1..], id);
      forall i | 0 <= i < |r| ensures r[i] in ns {
        if ns[0].id != id {
          assert r == [ns[0]] + w;
          if i > 0 {
            assert r[i] == w[i - 1] && w[i - 1] in ns[1..];
          }
        } else {
          assert r == w && w[i] in ns[1..];
        }
      }
    }
  }

  /** `notifications.find((n) => n.id === id)`. */
  function Find(ns: seq<Notification>, id: string): (r: Option<Notification>)
    ensures r.Some? ==> r.value in ns && r.value.id == id
    ensures r.None? ==> forall n :: n in ns ==> n.id != id
  {
    if ns == [] then None else if ns[0].id == id then Some(ns[0]) else Find(ns[1..], id)
  }

  /** `find` returns the first notification with the id, whatever comes after it. */
  lemma {:induction false} FindFirst(ns: seq<Notification>, id: string, k: nat)
    requires k < |ns| && ns[k].id == id
    requires forall j :: 0 <= j < k ==> ns[j].id != id
    ensures Find(ns, id) == Some(ns[k])
  {
    if k > 0 {
      FindFirst(ns[1..], id, k - 1);
    }
  }

  /** No two notifications share an id. */
  predicate UniqueIds(ns: seq<Notification>) {
    forall i, j :: 0 <= i < j < |ns| ==> ns[i].id != ns[j].id
  }

  /** Marking an id read takes its unread entries off the unread count, and nothing else. */
  lemma {:induction false} MarkReadCount(ns: seq<Notification>, id: string)
    ensures CountUnread(MarkRead(ns, id)) + UnreadWith(ns, id) == CountUnread(ns)
  {
    if ns != [] {
      MarkReadCount(ns[1..], id);
      assert MarkRead(ns, id)[1..] == MarkRead(ns[1..], id);
    }
  }

  lemma {:induction false} MarkAllReadCount(ns: seq<Notification>)
    ensures CountUnread(MarkAllRead(ns)) == 0
  {
    if ns != [] {
      MarkAllReadCount(ns[1..]);
      assert MarkAllRead(ns)[1..] == MarkAllRead(ns[1..]);
    }
  }

  /** Removing an id takes its unread entries off the unread count, and nothing else. */
  lemma {:induction false} WithoutCount(ns: seq<Notification>, id: string)
    ensures CountUnread(Without(ns, id)) + UnreadWith(ns, id) == CountUnread(ns)
  {
    if ns != [] {
      WithoutCount(ns[1..], id);
    }
  }

  /** Every notification under another id stays. */
  lemma {:induction false} WithoutKeeps(ns: seq<Notification>, id: string, n: Notification)
    requires n in ns && n.id != id
    ensures n in Without(ns, id)
  {
    if ns[0] != n {
      WithoutKeeps(ns[1..], id, n);
    }
  }

  /** Filtering keeps order: it distributes over concatenation. */
  lemma {:induction false} WithoutAppend(a: seq<Notification>, b: seq<Notification>, id: string)
    ensures Without(a + b, id) == Without(a, id) + Without(b, id)
  {
    if a == [] {
      assert a + b == b;
    } else {
      var x, t := a[0], a[1..];
      assert a == [x] + t && a + b == [x] + (t + b);
      WithoutAppend(t, b, id);
      WithoutCons(x, t, id);
      WithoutCons(x, t + b, id);
      if x.id != id {
        assert [x] + (Without(t, id) + Without(b, id)) == ([x] + Without(t, id)) + Without(b, id);
      }
    }
  }

  /** One step of the filter: the head is kept exactly when it carries another id. */
  lemma WithoutCons(x: Notification, rest: seq<Notification>, id: string)
    ensures Without([x] + rest, id) == (if x.id != id then [x] + Without(rest, id) else Without(rest, id))
  {
    var s := [x] + rest;
    assert s[0] == x && s[1..] == rest;
  }

  lemma {:induction false} NoIdNoUnread(ns: seq<Notification>, id: string)
    requires forall n :: n in ns ==> n.id != id
    ensures UnreadWith(ns, id) == 0
  {
    if ns != [] {
      NoIdNoUnread(ns[1..], id);
    }
  }

  /** With unique ids, the unread entries under an id are the one `find` returns, if unread. */
  lemma {:induction false} UniqueUnreadWith(ns: seq<Notification>, id: string)
    requires UniqueIds(ns)
    ensures UnreadWith(ns, id) == (if Find(ns, id).Some? && !Find(ns, id).value.read then 1 else 0)
  {
    if ns != [] {
      if ns[0].id == id {
        forall n | n in ns[1..] ensures n.id != id {
          var j :| 0 <= j < |ns[1..]| && ns[1..][j] == n;
          assert ns[j + 1] == n;
        }
        NoIdNoUnread(ns[1..], id);
      } else {
        UniqueUnreadWith(ns[1..], id);
      }
    }
  }

  lemma {:induction false} WithoutKeepsUnique(ns: seq<Notification>, id: string)
    requires UniqueIds(ns)
    ensures UniqueIds(Without(ns, id))
    decreases |ns|
  {
    if ns != [] {
      var x, t := ns[0], ns[1..];
      assert ns == [x] + t;
      assert UniqueIds(t);
      WithoutKeepsUnique(t, id);
      WithoutCons(x, t, id);
      if x.id != id {
        forall k | 0 <= k < |t| ensures x.id != t[k].id {
          assert ns[k + 1] == t[k];
        }
        IdAbsentFromWithout(x.id, t, id);
        UniqueCons(x, Without(t, id));
      }
    }
  }

  /** An id the list does not carry is not carried by what the filter keeps either. */
  lemma IdAbsentFromWithout(other: string, t: seq<Notification>, id: string)
    requires forall k :: 0 <= k < |t| ==> other != t[k].id
    ensures forall j :: 0 <= j < |Without(t, id)| ==> other != Without(t, id)[j].id
  {
    var w := Without(t, id);
    WithoutFromInput(t, id);
    forall j | 0 <= j < |w| ensures other != w[j].id {
      var k :| 0 <= k < |t| && t[k] == w[j];
    }
  }

  /** A head whose id the rest does not carry keeps the ids unique. */
  lemma UniqueCons(x: Notification, w: seq<Notification>)
    requires UniqueIds(w)
    requires forall j :: 0 <= j < |w| ==> x.id != w[j].id
    ensures UniqueIds([x] + w)
  {
    var s := [x] + w;
    forall i, j | 0 <= i < j < |s| ensures s[i].id != s[j].id {
      assert s[j] == w[j - 1];
      if i > 0 {
        assert s[i] == w[i - 1];
      }
    }
  }

  /** `Math.max(0, prev - 1)`: the counter after `markAsRead`, whatever was marked. */
  function CountAfterMarkAsRead(count: int): (c: int)
    ensures c >= 0
    ensures count > 0 ==> c == count - 1
  {
    if count - 1 > 0 then count - 1 else 0
  }

  /** The bell's state. */
  class NotificationCenter {
    var notifications: seq<Notification>
    var unreadCount: int
    var isOpen: bool

    /** The counter agrees with the list. */
    predicate Valid()
      reads this
    {
      unreadCount == CountUnread(notifications)
    }

    constructor()
      ensures notifications == [] && unreadCount == 0 && !isOpen
      ensures Valid()
    {
      notifications, unreadCount, isOpen := [], 0, false;
    }

    /** The mount effect: the list is loaded and the counter set to its unread entries. */
    method Load(initial: seq<Notification>)
      modifies this
      ensures notifications == initial && isOpen == old(isOpen)
      ensures Valid()
    {
      notifications := initial;
      unreadCount := CountUnread(initial);
    }

    /** `markAsRead` as written: the entries with `id` become read, and the counter drops by
        one, floored at zero, even when they were already read. */
    method MarkAsRead(id: string)
      modifies this
      ensures notifications == MarkRead(old(notifications), id)
      ensures unreadCount == CountAfterMarkAsRead(old(unreadCount)) && unreadCount >= 0
      ensures isOpen == old(isOpen)
    {
      notifications := MarkRead(notifications, id);
      unreadCount := if unreadCount - 1 > 0 then unreadCount - 1 else 0;
    }

    /** `markAsRead` as evidently intended: the counter drops by the unread entries marked. */
    method MarkAsReadCorrected(id: string)
      modifies this
      requires Valid()
      ensures notifications == MarkRead(old(notifications), id)
      ensures isOpen == old(isOpen)
      ensures Valid()
    {
      var marked := UnreadWith(notifications, id);
      MarkReadCount(notifications, id);
      notifications := MarkRead(notifications, id);
      unreadCount := unreadCount - marked;
    }

    /** `markAllAsRead`. */
    method MarkAllAsRead()
      modifies this
      ensures notifications == MarkAllRead(old(notifications)) && unreadCount == 0
      ensures isOpen == old(isOpen)
      ensures Valid()
    {
      MarkAllReadCount(notifications);
      notifications := MarkAllRead(notifications);
      unreadCount := 0;
    }

    /** `deleteNotification`: the entries with `id` go, and the counter drops by one, floored
        at zero, when the first of them was unread. With unique ids the counter stays right. */
    method DeleteNotification(id: string)
      modifies this
      ensures notifications == Without(old(notifications), id)
      ensures var f := Find(old(notifications), id);
        unreadCount == (if f.Some? && !f.value.read then CountAfterMarkAsRead(old(unreadCount)) else old(unreadCount))
      ensures old(Valid()) && UniqueIds(old(notifications)) ==> Valid() && UniqueIds(notifications)
      ensures isOpen == old(isOpen)
    {
      var f := Find(notifications, id);
      if UniqueIds(notifications) {
        WithoutCount(notifications, id);
        UniqueUnreadWith(notifications, id);
        WithoutKeepsUnique(notifications, id);
      }
      notifications := Without(notifications, id);
      if f.Some? && !f.value.read {
        unreadCount := if unreadCount - 1 > 0 then unreadCount - 1 else 0;
      }
    }
  }

  /** The counter drift: with one unread and one read notification and a correct counter,
      marking the read one again leaves one unread entry but a counter of zero. */
  lemma MarkAsReadMiscounts()
    ensures var ns := [Notification("1", View, "New View", "", 0, false, None),
                       Notification("3", Upload, "Upload Complete", "", 0, true, None)];
      && CountUnread(ns) == 1
      && CountUnread(MarkRead(ns, "3")) == 1
      && CountAfterMarkAsRead(CountUnread(ns)) == 0
  {
    var ns := [Notification("1", View, "New View", "", 0, false, None),
               Notification("3", Upload, "Upload Complete", "", 0, true, None)];
    MarkReadCount(ns, "3");
    assert ns[1..] == [ns[1]];
  }
}
