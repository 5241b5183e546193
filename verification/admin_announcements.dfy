/**
 The administrators' announcement page: publishing a new announcement and
 toggling the pin of an existing one. The new announcement's id and date come
 from the clock and are parameters here.
 */
module AdminAnnouncements {
  import opened Announcements
  import Seqs

  /** The "new announcement" form. */
  datatype Draft = Draft(title: string, content: string, isPinned: bool)

  const EmptyDraft := Draft("", "", false)

  /** Every announcement is published under the demo administrator's name. */
  const Author: string := "Ana García"

  /**
   `handleSubmit`: with a non-empty title and content (not trimmed), put the new
   announcement first and reset the form; otherwise change nothing.
   */
  function Submit(list: seq<Announcement>, draft: Draft, id: string, date: int): (r: (seq<Announcement>, Draft))
    ensures draft.title == "" || draft.content == "" ==> r == (list, draft)
    ensures draft.title != "" && draft.content != "" ==>
      && |r.0| == |list| + 1
      && r.0[1..] == list
      && r.0[0] == Announcement(id, draft.title, draft.content, date, draft.isPinned, Author)
      && r.1 == EmptyDraft
  {
    if draft.title != "" && draft.content != "" then
      var announcement := Announcement(id, draft.title, draft.content, date, draft.isPinned, Author);
      ([announcement] + list, EmptyDraft)
    else (list, draft)
  }

  /** No two announcements share an id. */
  predicate UniqueIds(list: seq<Announcement>)
  {
    forall i, j :: 0 <= i < j < |list| ==> list[i].id != list[j].id
  }

  /** Publishing under an id not yet in use keeps the ids unique. */
  lemma SubmitKeepsIdsUnique(list: seq<Announcement>, draft: Draft, id: string, date: int)
    requires UniqueIds(list)
    requires forall a :: a in list ==> a.id != id
    ensures UniqueIds(Submit(list, draft, id, date).0)
  {
    var r := Submit(list, draft, id, date).0;
    if r != list {
      forall i, j | 0 <= i < j < |r|
        ensures r[i].id != r[j].id
      {
        assert r[j] == list[j - 1];
        if i > 0 {
          assert r[i] == list[i - 1];
        }
      }
    }
  }

  /** Toggling a pin never changes an id, so it keeps the ids unique. */
  lemma TogglePinKeepsIdsUnique(list: seq<Announcement>, id: string)
    requires UniqueIds(list)
    ensures UniqueIds(TogglePin(list, id))
  {
  }

  function FlipIfMatches(id: string): Announcement -> Announcement
  {
    (a: Announcement) => if a.id == id then a.(isPinned := !a.isPinned) else a
  }

  /** `togglePin`: flip `isPinned` on the items carrying `id`, leave every other item alone. */
  function TogglePin(list: seq<Announcement>, id: string): (r: seq<Announcement>)
    ensures |r| == |list|
    ensures forall i :: 0 <= i < |list| ==>
      if list[i].id == id then r[i] == list[i].(isPinned := !list[i].isPinned) else r[i] == list[i]
  {
    Seqs.Map(FlipIfMatches(id), list)
  }

  /** Toggling the same id twice restores the original list. */
  lemma TogglePinInvolution(list: seq<Announcement>, id: string)
    ensures TogglePin(TogglePin(list, id), id) == list
  {
  }

  /** Toggling never changes anything but the pin flag. */
  lemma TogglePinKeepsContent(list: seq<Announcement>, id: string)
    ensures forall i :: 0 <= i < |list| ==> TogglePin(list, id)[i].(isPinned := list[i].isPinned) == list[i]
  {
  }
}
