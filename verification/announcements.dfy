/**
 Announcements and the order the owners' announcement page shows them in:
 pinned ones first, then newest first. Dates are modelled as integer keys
 (their millisecond timestamps).
 */
module Announcements {

  datatype Announcement = Announcement(id: string, title: string, content: string, date: int, isPinned: bool, author: string)

  /** The sort comparator: negative puts `a` first, positive puts `b` first. */
  function Compare(a: Announcement, b: Announcement): (r: int)
    ensures r < 0 <==> (a.isPinned && !b.isPinned) || (a.isPinned == b.isPinned && a.date > b.date)
    ensures r == 0 <==> a.isPinned == b.isPinned && a.date == b.date
  {
    if a.isPinned && !b.isPinned then -1
    else if !a.isPinned && b.isPinned then 1
    else b.date - a.date
  }

  function Sign(x: int): int
  {
    if x < 0 then -1 else if x > 0 then 1 else 0
  }

  /** The comparator is antisymmetric: swapping the arguments flips the sign. */
  lemma CompareAntisymmetric(a: Announcement, b: Announcement)
    ensures Sign(Compare(a, b)) == -Sign(Compare(b, a))
  {
  }

  /** `a` may come before `b` in the sorted list. */
  predicate Precedes(a: Announcement, b: Announcement)
  {
    Compare(a, b) <= 0
  }

  /** `Precedes` is a total preorder, so sorting by it is well defined. */
  lemma PrecedesTotalPreorder(a: Announcement, b: Announcement, c: Announcement)
    ensures Precedes(a, b) || Precedes(b, a)
    ensures Precedes(a, b) && Precedes(b, c) ==> Precedes(a, c)
  {
  }

  predicate Sorted(s: seq<Announcement>)
  {
    forall i, j :: 0 <= i < j < |s| ==> Precedes(s[i], s[j])
  }

  /** An element that precedes the head of a sorted list precedes all of it. */
  lemma PrecedesHeadPrecedesAll(a: Announcement, s: seq<Announcement>)
    requires Sorted(s) && s != [] && Precedes(a, s[0])
    ensures forall j :: 0 <= j < |s| ==> Precedes(a, s[j])
  {
    forall j | 0 <= j < |s|
      ensures Precedes(a, s[j])
    {
      PrecedesTotalPreorder(a, s[0], s[j]);
    }
  }

  /** An element preceding `a` and every element of `s` precedes every element of a permutation of `s` plus `a`. */
  lemma PrecedesPermutation(h: Announcement, a: Announcement, s: seq<Announcement>, r: seq<Announcement>)
    requires Precedes(h, a)
    requires forall x :: x in s ==> Precedes(h, x)
    requires multiset(r) == multiset(s) + multiset{a}
    ensures forall x :: x in r ==> Precedes(h, x)
  {
    forall x | x in r
      ensures Precedes(h, x)
    {
      assert x in multiset(r);
    }
  }

  /** Inserts `a` before the first element it precedes (so before its equals: the sort is stable). */
  function Insert(a: Announcement, s: seq<Announcement>): (r: seq<Announcement>)
    requires Sorted(s)
    ensures Sorted(r)
    ensures multiset(r) == multiset(s) + multiset{a}
    decreases |s|
  {
    if s == [] then [a]
    else if Precedes(a, s[0]) then
      PrecedesHeadPrecedesAll(a, s);
      [a] + s
    else
      var rest := Insert(a, s[1..]);
      assert s == [s[0]] + s[1..];
      PrecedesTotalPreorder(a, s[0], a);
      PrecedesPermutation(s[0], a, s[1..], rest);
      [s[0]] + rest
  }

  /** `sortedAnnouncements`: an insertion sort by the page's comparator. */
  function SortAnnouncements(s: seq<Announcement>): (r: seq<Announcement>)
    ensures multiset(r) == multiset(s)
    ensures Sorted(r)
    ensures forall i, j :: 0 <= i < j < |r| && r[j].isPinned ==> r[i].isPinned
    ensures forall i, j :: 0 <= i < j < |r| && r[i].isPinned == r[j].isPinned ==> r[i].date >= r[j].date
    decreases |s|
  {
    if s == [] then []
    else
      assert s == [s[0]] + s[1..];
      Insert(s[0], SortAnnouncements(s[1..]))
  }
}
