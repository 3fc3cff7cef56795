/**
 * The read-state stores: notifications addressed to one user, and messages
 * between two users. Both offer filtered, ordered, limited queries, an
 * unread count, and in-place "mark read" updates (`IsRead` 0 = unread,
 * 1 = read).
 *
 * Each table is a class field. The repositories add and change tracked
 * rows and leave saving to the caller's unit of work; the model shows the
 * table as it is once those changes are saved.
 */
module Notifications {
  import opened Common

  datatype Notification = Notification(
    notificationId: Id, userId: Id, kind: string, title: string, message: string,
    isRead: int, relatedJobId: Option<Id>, relatedApplicationId: Option<Id>, createdAt: int)

  datatype Message = Message(
    messageId: Id, senderUserId: Id, receiverUserId: Id, subject: string, content: string,
    isRead: int, createdAt: int)

  // ---------------------------------------------------------------------
  // Notification queries

  function NotificationKey(n: Notification): Key
  {
    Key(n.createdAt, 0)
  }

  function OfUser(userId: Id): Notification -> bool
  {
    (n: Notification) => n.userId == userId
  }

  /** `GetNotificationsByUserIdAsync(userId, limit)`: the user's notifications, newest first, at most `limit`. */
  function UserNotifications(ns: seq<Notification>, userId: Id, limit: int): (r: seq<Notification>)
    ensures limit >= 0 ==> |r| <= limit
    ensures forall k :: 0 <= k < |r| ==> r[k] in ns && r[k].userId == userId
  {
    TopOfFilter(ns, OfUser(userId), NotificationKey, limit);
    Take(SortDesc(Filter(ns, OfUser(userId)), NotificationKey), limit)
  }

  /**
   * The list is newest first, and it is cut only by the limit: a user with
   * at most `limit` notifications gets all of them.
   */
  lemma UserNotificationsNewestFirst(ns: seq<Notification>, userId: Id, limit: int)
    ensures SortedDesc(UserNotifications(ns, userId, limit), NotificationKey)
    ensures |UserNotifications(ns, userId, limit)| ==
      if limit <= 0 then 0 else Min(limit, CountIf(ns, OfUser(userId)))
  {
    var own := Filter(ns, OfUser(userId));
    SortDescSorted(own, NotificationKey);
    CountIfIsFilterLength(ns, OfUser(userId));
  }

  predicate UnreadOf(userId: Id, n: Notification)
  {
    n.userId == userId && n.isRead == 0
  }

  /** `GetUnreadCountByUserIdAsync`. */
  function UnreadNotifications(ns: seq<Notification>, userId: Id): nat
  {
    CountIf(ns, (n: Notification) => UnreadOf(userId, n))
  }

  /** Marking one unread notification of a user read lowers that user's unread count by exactly one. */
  lemma MarkingOneLowersCount(ns: seq<Notification>, i: int)
    requires 0 <= i < |ns| && ns[i].isRead == 0
    ensures UnreadNotifications(ns[i := ns[i].(isRead := 1)], ns[i].userId) ==
      UnreadNotifications(ns, ns[i].userId) - 1
  {
    CountIfUpdate(ns, i, ns[i].(isRead := 1), (n: Notification) => UnreadOf(ns[i].userId, n));
  }

  // ---------------------------------------------------------------------
  // Message queries

  function MessageKey(m: Message): Key
  {
    Key(m.createdAt, 0)
  }

  /** Ascending time order, as a descending order on the negated time. */
  function OldestFirstKey(m: Message): Key
  {
    Key(-m.createdAt, 0)
  }

  function Involves(userId: Id): Message -> bool
  {
    (m: Message) => m.receiverUserId == userId || m.senderUserId == userId
  }

  /** `GetMessagesByUserIdAsync`: messages the user sent or received, newest first, at most `limit`. */
  function UserMessages(ms: seq<Message>, userId: Id, limit: int): (r: seq<Message>)
    ensures limit >= 0 ==> |r| <= limit
    ensures forall k :: 0 <= k < |r| ==>
      r[k] in ms && (r[k].senderUserId == userId || r[k].receiverUserId == userId)
  {
    TopOfFilter(ms, Involves(userId), MessageKey, limit);
    Take(SortDesc(Filter(ms, Involves(userId)), MessageKey), limit)
  }

  /** Both sent and received messages qualify, so the list is newest first over both directions. */
  lemma UserMessagesNewestFirst(ms: seq<Message>, userId: Id, limit: int)
    ensures SortedDesc(UserMessages(ms, userId, limit), MessageKey)
  {
    SortDescSorted(Filter(ms, Involves(userId)), MessageKey);
  }

  predicate Between(a: Id, b: Id, m: Message)
  {
    (m.senderUserId == a && m.receiverUserId == b) || (m.senderUserId == b && m.receiverUserId == a)
  }

  /** `GetConversationAsync(a, b, limit)`: both directions, oldest first, the first `limit` of them. */
  function Conversation(ms: seq<Message>, a: Id, b: Id, limit: int): (r: seq<Message>)
    ensures limit >= 0 ==> |r| <= limit
    ensures forall k :: 0 <= k < |r| ==> r[k] in ms && Between(a, b, r[k])
  {
    var both := Filter(ms, (m: Message) => Between(a, b, m));
    var sorted := SortDesc(both, OldestFirstKey);
    var r := Take(sorted, limit);
    assert forall k :: 0 <= k < |r| ==> r[k] == sorted[k] && sorted[k] in sorted;
    assert forall x :: x in sorted ==> x in both by {
      forall x
        ensures x in sorted ==> x in both
      {
        SortDescMembers(both, OldestFirstKey, x);
      }
    }
    r
  }

  /** The conversation is oldest first, and it is the same whichever participant asks. */
  lemma ConversationOrderAndSymmetry(ms: seq<Message>, a: Id, b: Id, limit: int)
    ensures forall i, j :: 0 <= i < j < |Conversation(ms, a, b, limit)| ==>
      Conversation(ms, a, b, limit)[i].createdAt <= Conversation(ms, a, b, limit)[j].createdAt
    ensures Conversation(ms, a, b, limit) == Conversation(ms, b, a, limit)
  {
    var both := Filter(ms, (m: Message) => Between(a, b, m));
    SortDescSorted(both, OldestFirstKey);
    var r := Conversation(ms, a, b, limit);
    var sorted := SortDesc(both, OldestFirstKey);
    forall i, j | 0 <= i < j < |r|
      ensures r[i].createdAt <= r[j].createdAt
    {
      assert r[i] == sorted[i] && r[j] == sorted[j];
      assert KeyGe(OldestFirstKey(sorted[i]), OldestFirstKey(sorted[j]));
    }
    FilterSame(ms, (m: Message) => Between(a, b, m), (m: Message) => Between(b, a, m));
  }

  predicate ReceivedUnread(userId: Id, m: Message)
  {
    m.receiverUserId == userId && m.isRead == 0
  }

  /** `GetUnreadCountByUserIdAsync` for messages: only received ones count. */
  function UnreadMessages(ms: seq<Message>, userId: Id): nat
  {
    CountIf(ms, (m: Message) => ReceivedUnread(userId, m))
  }

  /** Sending a message never changes the sender's own unread count (unless sent to oneself). */
  lemma SendingKeepsSenderCount(ms: seq<Message>, m: Message)
    requires m.senderUserId != m.receiverUserId
    ensures UnreadMessages(ms + [m], m.senderUserId) == UnreadMessages(ms, m.senderUserId)
    ensures m.isRead == 0 ==> UnreadMessages(ms + [m], m.receiverUserId) == UnreadMessages(ms, m.receiverUserId) + 1
  {
    CountIfAppend(ms, m, (x: Message) => ReceivedUnread(m.senderUserId, x));
    CountIfAppend(ms, m, (x: Message) => ReceivedUnread(m.receiverUserId, x));
  }

  predicate FromTo(senderUserId: Id, receiverUserId: Id, m: Message)
  {
    m.receiverUserId == receiverUserId && m.senderUserId == senderUserId && m.isRead == 0
  }

  // ---------------------------------------------------------------------
  // The stores

  class NotificationStore {
    var notifications: seq<Notification>

    constructor (ns: seq<Notification>)
      ensures notifications == ns
    {
      notifications := ns;
    }

    /** `CreateNotificationAsync`: exactly one row is added. */
    method Create(n: Notification)
      modifies this
      ensures notifications == old(notifications) + [n]
    {
      notifications := notifications + [n];
    }

    /** `MarkAsReadAsync`: the row with that id becomes read; an unknown id changes nothing. */
    method MarkAsRead(notificationId: Id)
      modifies this
      ensures var i := FindIndex(old(notifications), (n: Notification) => n.notificationId == notificationId);
        notifications == if i < 0 then old(notifications) else old(notifications)[i := old(notifications)[i].(isRead := 1)]
    {
      var i := FindIndex(notifications, (n: Notification) => n.notificationId == notificationId);
      if i >= 0 {
        notifications := notifications[i := notifications[i].(isRead := 1)];
      }
    }

    /** `MarkAllAsReadByUserIdAsync`: the user's unread rows become read, nothing else changes. */
    method MarkAllAsRead(userId: Id)
      modifies this
      ensures |notifications| == |old(notifications)|
      ensures forall i :: 0 <= i < |notifications| ==>
        notifications[i] == if UnreadOf(userId, old(notifications)[i])
          then old(notifications)[i].(isRead := 1) else old(notifications)[i]
      ensures UnreadNotifications(notifications, userId) == 0
      ensures forall u :: u != userId ==> UnreadNotifications(notifications, u) == UnreadNotifications(old(notifications), u)
    {
      var before := notifications;
      var i := 0;
      while i < |notifications|
        invariant 0 <= i <= |notifications| == |before|
        invariant forall k :: 0 <= k < i ==>
          notifications[k] == if UnreadOf(userId, before[k]) then before[k].(isRead := 1) else before[k]
        invariant forall k :: i <= k < |notifications| ==> notifications[k] == before[k]
      {
        if UnreadOf(userId, notifications[i]) {
          notifications := notifications[i := notifications[i].(isRead := 1)];
        }
        i := i + 1;
      }
      CountIfZero(notifications, (n: Notification) => UnreadOf(userId, n));
      forall u | u != userId
        ensures UnreadNotifications(notifications, u) == UnreadNotifications(before, u)
      {
        CountIfSameOn(before, notifications, u);
      }
    }
  }

  /** Marking one user's rows read leaves every other user's unread count alone. */
  lemma {:induction false} CountIfSameOn(before: seq<Notification>, after: seq<Notification>, u: Id)
    requires |before| == |after|
    requires forall k :: 0 <= k < |before| ==>
      after[k] == before[k] || (after[k] == before[k].(isRead := 1) && before[k].userId != u)
    ensures UnreadNotifications(after, u) == UnreadNotifications(before, u)
  {
    if before != [] {
      CountIfSameOn(before[1..], after[1..], u);
    }
  }

  class MessageStore {
    var messages: seq<Message>

    constructor (ms: seq<Message>)
      ensures messages == ms
    {
      messages := ms;
    }

    /** `CreateMessageAsync`. */
    method Create(m: Message)
      modifies this
      ensures messages == old(messages) + [m]
    {
      messages := messages + [m];
    }

    /** `MarkAsReadAsync`: the message with that id becomes read; an unknown id changes nothing. */
    method MarkAsRead(messageId: Id)
      modifies this
      ensures var i := FindIndex(old(messages), (m: Message) => m.messageId == messageId);
        messages == if i < 0 then old(messages) else old(messages)[i := old(messages)[i].(isRead := 1)]
    {
      var i := FindIndex(messages, (m: Message) => m.messageId == messageId);
      if i >= 0 {
        messages := messages[i := messages[i].(isRead := 1)];
      }
    }

    /**
     * `MarkConversationAsReadAsync(receiver, sender)`: only unread messages
     * from `sender` to `receiver` become read; the receiver then has none
     * unread from that sender.
     */
    method MarkConversationAsRead(receiverUserId: Id, senderUserId: Id)
      modifies this
      ensures |messages| == |old(messages)|
      ensures forall i :: 0 <= i < |messages| ==>
        messages[i] == if FromTo(senderUserId, receiverUserId, old(messages)[i])
          then old(messages)[i].(isRead := 1) else old(messages)[i]
      ensures forall i :: 0 <= i < |messages| ==> !FromTo(senderUserId, receiverUserId, messages[i])
    {
      var before := messages;
      var i := 0;
      while i < |messages|
        invariant 0 <= i <= |messages| == |before|
        invariant forall k :: 0 <= k < i ==>
          messages[k] == if FromTo(senderUserId, receiverUserId, before[k]) then before[k].(isRead := 1) else before[k]
        invariant forall k :: i <= k < |messages| ==> messages[k] == before[k]
      {
        if FromTo(senderUserId, receiverUserId, messages[i]) {
          messages := messages[i := messages[i].(isRead := 1)];
        }
        i := i + 1;
      }
    }
  }
}
