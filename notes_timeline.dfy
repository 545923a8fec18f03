/**
 * The debrief timeline: the notes, newest first, each with the name of the
 * contact it belongs to when that contact still exists.
 */

module NotesTimeline {
  import opened Wrappers
  import opened Sequences
  import opened Domain

  /** The sort key that puts later notes first (the comparator `b - a` on creation time). */
  function NewestFirst(n: CallNote): int {
    -n.createdAt
  }

  /** A copy of the notes sorted newest first; notes created at the same instant keep their order. */
  function Entries(notes: seq<CallNote>): (r: seq<CallNote>)
    ensures |r| == |notes|
  {
    SortBy(notes, NewestFirst)
  }

  /** The timeline shows every note once, as often as it is stored. */
  lemma EntriesArePermutation(notes: seq<CallNote>)
    ensures multiset(Entries(notes)) == multiset(notes)
  {
    SortByPermutation(notes, NewestFirst);
  }

  /** Each entry was created no earlier than every entry below it. */
  lemma EntriesNewestFirst(notes: seq<CallNote>)
    ensures forall i, j :: 0 <= i < j < |Entries(notes)| ==> Entries(notes)[i].createdAt >= Entries(notes)[j].createdAt
  {
    SortBySorted(notes, NewestFirst);
    forall i, j | 0 <= i < j < |Entries(notes)|
      ensures Entries(notes)[i].createdAt >= Entries(notes)[j].createdAt
    {
      assert NewestFirst(Entries(notes)[i]) <= NewestFirst(Entries(notes)[j]);
    }
  }

  /** Notes created at the same instant appear in their stored order. */
  lemma EntriesAreStable(notes: seq<CallNote>, createdAt: int)
    ensures Filter(Entries(notes), KeyIs(NewestFirst, -createdAt)) == Filter(notes, KeyIs(NewestFirst, -createdAt))
  {
    SortByStable(notes, NewestFirst, -createdAt);
  }

  /** The store prepends notes, so a store whose notes are newest first is shown as stored. */
  lemma EntriesOfNewestFirstNotes(notes: seq<CallNote>)
    requires forall i, j :: 0 <= i < j < |notes| ==> notes[i].createdAt >= notes[j].createdAt
    ensures Entries(notes) == notes
  {
    SortBySortedIsIdentity(notes, NewestFirst);
  }

  function ContactHasId(id: string): ContactRecord -> bool {
    (c: ContactRecord) => c.id == id
  }

  /** The contact a note refers to: the first with its id, if there is one. */
  function ContactFor(contacts: seq<ContactRecord>, id: string): (r: Option<ContactRecord>)
    ensures r.Some? <==> exists k :: 0 <= k < |contacts| && contacts[k].id == id
    ensures r.Some? ==> r.value.id == id && exists k :: (0 <= k < |contacts| && contacts[k] == r.value
      && forall m :: 0 <= m < k ==> contacts[m].id != id)
  {
    Find(contacts, ContactHasId(id))
  }

  /** One line of the timeline: the note, and the contact name shown beside it if any. */
  datatype Entry = Entry(note: CallNote, contactName: Option<string>)

  /** The rendered timeline. */
  function Timeline(notes: seq<CallNote>, contacts: seq<ContactRecord>): (r: seq<Entry>)
    ensures |r| == |notes|
    ensures forall i :: 0 <= i < |r| ==> r[i].note == Entries(notes)[i]
    ensures forall i :: 0 <= i < |r| ==>
      (r[i].contactName.Some? <==> exists k :: 0 <= k < |contacts| && contacts[k].id == r[i].note.contactId)
    ensures forall i :: 0 <= i < |r| && r[i].contactName.Some? ==>
      exists k :: (0 <= k < |contacts| && contacts[k].id == r[i].note.contactId
        && r[i].contactName.value == contacts[k].name
        && forall m :: 0 <= m < k ==> contacts[m].id != r[i].note.contactId)
  {
    var entries := Entries(notes);
    seq(|entries|, i requires 0 <= i < |entries| =>
      Entry(entries[i], match ContactFor(contacts, entries[i].contactId)
        case Some(c) => Some(c.name)
        case None => None))
  }
}
