/** The client-side notification feed: the newest-first list of pushed
    shift notifications, capped at fifty entries, and the connection flag. */
module Notifications {
  import opened Domain

  datatype NotificationType = NEW_SHIFT | SHIFT_ACCEPTED | SHIFT_CANCELLED

  /** A pushed notification; the optional shift and acceptor details are
      display data and are not modelled. */
  datatype Notification = Notification(kind: NotificationType, shiftId: int, message: string, timestamp: string)

  /** The logged-in user as handed to the hook; `0` and `""` are falsy. */
  datatype SocketUser = SocketUser(userId: int, email: string, role: string)

  const MAX_NOTIFICATIONS: nat := 50

  /** A connection is only opened for a present user whose id, e-mail and
      role are all truthy. */
  function ShouldConnect(user: Option<SocketUser>): (b: bool)
    ensures b <==> user.Some? && user.value.userId != 0 && user.value.email != "" && user.value.role != ""
  {
    match user
    case None => false
    case Some(u) => !(u.userId == 0 || u.email == "" || u.role == "")
  }

  /** The list after `n` arrives: `n` in front, then the previous entries,
      cut to the first fifty. */
  function Prepended(n: Notification, prev: seq<Notification>): (r: seq<Notification>)
    ensures |r| == Min(|prev| + 1, MAX_NOTIFICATIONS)
    ensures r[0] == n
    ensures forall k :: 1 <= k < |r| ==> r[k] == prev[k - 1]
  {
    var all := [n] + prev;
    all[..Min(|all|, MAX_NOTIFICATIONS)]
  }

  /** Only the newest fifty survive: an entry that is already fiftieth
      drops out when another arrives. */
  lemma OldestDroppedWhenFull(n: Notification, prev: seq<Notification>)
    requires |prev| == MAX_NOTIFICATIONS
    ensures |Prepended(n, prev)| == MAX_NOTIFICATIONS
    ensures Prepended(n, prev)[1..] == prev[..MAX_NOTIFICATIONS - 1]
  {
    var r := Prepended(n, prev);
    assert forall k :: 0 <= k < |r[1..]| ==> r[1..][k] == r[k + 1];
  }

  /** The entries whose timestamp differs from `t`, in their original order. */
  function WithoutTimestamp(list: seq<Notification>, t: string): (r: seq<Notification>)
    ensures |r| <= |list|
    ensures forall x :: x in r <==> x in list && x.timestamp != t
  {
    if |list| == 0 then []
    else if list[0].timestamp != t then [list[0]] + WithoutTimestamp(list[1..], t)
    else WithoutTimestamp(list[1..], t)
  }

  /** Removing splits over concatenation, so the surviving entries keep
      their relative order. */
  lemma {:induction false} WithoutTimestampAppend(a: seq<Notification>, b: seq<Notification>, t: string)
    ensures WithoutTimestamp(a + b, t) == WithoutTimestamp(a, t) + WithoutTimestamp(b, t)
  {
    if |a| == 0 {
      assert a + b == b;
    } else {
      assert (a + b)[1..] == a[1..] + b;
      WithoutTimestampAppend(a[1..], b, t);
    }
  }

  /** A list without the timestamp is left as it is. */
  lemma {:induction false} WithoutAbsentTimestamp(list: seq<Notification>, t: string)
    requires forall k :: 0 <= k < |list| ==> list[k].timestamp != t
    ensures WithoutTimestamp(list, t) == list
  {
    if |list| > 0 {
      WithoutAbsentTimestamp(list[1..], t);
      assert [list[0]] + list[1..] == list;
    }
  }

  /** Removing twice removes nothing more. */
  lemma RemoveIdempotent(list: seq<Notification>, t: string)
    ensures WithoutTimestamp(WithoutTimestamp(list, t), t) == WithoutTimestamp(list, t)
  {
    var once := WithoutTimestamp(list, t);
    assert forall k :: 0 <= k < |once| ==> once[k] in once;
    WithoutAbsentTimestamp(once, t);
  }

  /** The hook's state: the notification list and the connection flag. */
  class NotificationFeed {
    var notifications: seq<Notification>
    var isConnected: bool

    ghost predicate Valid()
      reads this
    {
      |notifications| <= MAX_NOTIFICATIONS
    }

    constructor()
      ensures Valid()
      ensures notifications == [] && !isConnected
    {
      notifications := [];
      isConnected := false;
    }

    /** The `notification` event. */
    method Receive(n: Notification)
      requires Valid()
      modifies this
      ensures Valid()
      ensures notifications == Prepended(n, old(notifications))
      ensures isConnected == old(isConnected)
    {
      notifications := Prepended(n, notifications);
    }

    method RemoveNotification(t: string)
      requires Valid()
      modifies this
      ensures Valid()
      ensures notifications == WithoutTimestamp(old(notifications), t)
      ensures isConnected == old(isConnected)
    {
      notifications := WithoutTimestamp(notifications, t);
    }

    method ClearNotifications()
      modifies this
      ensures Valid()
      ensures notifications == []
      ensures isConnected == old(isConnected)
    {
      notifications := [];
    }

    /** The `connect` event. */
    method OnConnect()
      requires Valid()
      modifies this
      ensures Valid()
      ensures isConnected
      ensures notifications == old(notifications)
    {
      isConnected := true;
    }

    /** The `disconnect` event. */
    method OnDisconnect()
      requires Valid()
      modifies this
      ensures Valid()
      ensures !isConnected
      ensures notifications == old(notifications)
    {
      isConnected := false;
    }

    /** The `connect_error` event. */
    method OnConnectError()
      requires Valid()
      modifies this
      ensures Valid()
      ensures !isConnected
      ensures notifications == old(notifications)
    {
      isConnected := false;
    }
  }
}
