/** The notification dropdown's list operations: unread count, mark as read, remove. */
module NotificationDropdown {
  import opened Wrappers
  import Seqs

  datatype Notification = Notification(id: int, title: string, message: string, date: string, read: bool, urgent: Option<bool>)

  function IsUnread(n: Notification): bool
  {
    !n.read
  }

  /** `unreadCount`: the length of the list filtered to unread items. */
  function UnreadCount(ns: seq<Notification>): (n: nat)
    ensures n <= |ns|
  {
    |Seqs.Filter(IsUnread, ns)|
  }

  /** The positions of unread notifications. */
  ghost function UnreadPositions(ns: seq<Notification>): set<int>
  {
    set i | 0 <= i < |ns| && !ns[i].read
  }

  /** Appending one notification adds its position when it is unread. */
  lemma UnreadPositionsSnoc(init: seq<Notification>, last: Notification)
    ensures UnreadPositions(init + [last]) == UnreadPositions(init) + (if last.read then {} else {|init|})
  {
    var ns := init + [last];
    forall i | 0 <= i < |init|
      ensures ns[i] == init[i]
    {
    }
  }

  /** Appending one notification adds one to the count when it is unread. */
  lemma UnreadCountSnoc(init: seq<Notification>, last: Notification)
    ensures UnreadCount(init + [last]) == UnreadCount(init) + (if last.read then 0 else 1)
  {
    Seqs.FilterAppend(IsUnread, init, [last]);
  }

  /** The unread count is the number of positions holding an unread notification. */
  lemma {:induction false} UnreadCountCountsPositions(ns: seq<Notification>)
    ensures UnreadCount(ns) == |UnreadPositions(ns)|
    decreases |ns|
  {
    if ns != [] {
      var k := |ns| - 1;
      var init, last := ns[..k], ns[k];
      assert ns == init + [last];
      UnreadCountSnoc(init, last);
      UnreadPositionsSnoc(init, last);
      assert k !in UnreadPositions(init);
      UnreadCountCountsPositions(init);
    }
  }

  function MarkIfMatches(id: int): Notification -> Notification
  {
    (n: Notification) => if n.id == id then n.(read := true) else n
  }

  /** `markAsRead`: set `read` on the items carrying `id`, leave every other item alone. */
  function MarkAsRead(ns: seq<Notification>, id: int): (r: seq<Notification>)
    ensures |r| == |ns|
    ensures forall i :: 0 <= i < |ns| ==> r[i] == if ns[i].id == id then ns[i].(read := true) else ns[i]
  {
    Seqs.Map(MarkIfMatches(id), ns)
  }

  function HasId(id: int): Notification -> bool
  {
    (n: Notification) => n.id == id
  }

  function LacksId(id: int): Notification -> bool
  {
    (n: Notification) => n.id != id
  }

  /** `removeNotification`: drop exactly the items carrying `id`, keeping the others in order. */
  function RemoveNotification(ns: seq<Notification>, id: int): (r: seq<Notification>)
    ensures forall n :: n in r <==> n in ns && n.id != id
    ensures forall n :: multiset(r)[n] == if n.id != id then multiset(ns)[n] else 0
    ensures Seqs.Subsequence(r, ns)
  {
    Seqs.FilterCounts(LacksId(id), ns);
    Seqs.FilterIsSubsequence(LacksId(id), ns);
    Seqs.Filter(LacksId(id), ns)
  }

  /** Marking the same id twice is the same as marking it once. */
  lemma MarkAsReadIdempotent(ns: seq<Notification>, id: int)
    ensures MarkAsRead(MarkAsRead(ns, id), id) == MarkAsRead(ns, id)
  {
  }

  /** Marking lowers the unread count by exactly the number of unread items carrying `id`. */
  lemma {:induction false} MarkAsReadLowersUnreadCount(ns: seq<Notification>, id: int)
    ensures UnreadCount(MarkAsRead(ns, id)) == UnreadCount(ns) - |Seqs.Filter(HasId(id), Seqs.Filter(IsUnread, ns))|
    ensures UnreadCount(MarkAsRead(ns, id)) <= UnreadCount(ns)
    decreases |ns|
  {
    if ns != [] {
      var head, tail := [ns[0]], ns[1..];
      assert ns == head + tail;
      MarkAsReadLowersUnreadCount(tail, id);
      assert MarkAsRead(ns, id) == MarkAsRead(head, id) + MarkAsRead(tail, id);
      Seqs.FilterAppend(IsUnread, MarkAsRead(head, id), MarkAsRead(tail, id));
      Seqs.FilterAppend(IsUnread, head, tail);
      Seqs.FilterAppend(HasId(id), Seqs.Filter(IsUnread, head), Seqs.Filter(IsUnread, tail));
    }
  }

  /** With an id no item carries, both operations leave the list unchanged. */
  lemma AbsentIdChangesNothing(ns: seq<Notification>, id: int)
    requires forall n :: n in ns ==> n.id != id
    ensures MarkAsRead(ns, id) == ns
    ensures RemoveNotification(ns, id) == ns
  {
    Seqs.FilterKeepsAll(LacksId(id), ns);
  }

  /** After marking, no item carrying `id` is unread. */
  lemma MarkedItemsAreRead(ns: seq<Notification>, id: int)
    ensures forall n :: n in MarkAsRead(ns, id) && n.id == id ==> n.read
  {
  }
}
