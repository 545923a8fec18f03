/**
 * The command-queue panel: the upcoming-call selector, the objective
 * descriptions, the scheduling form and its submission into the store.
 */

module UpcomingCalls {
  import opened Wrappers
  import opened Sequences
  import opened Text
  import opened Domain
  import opened CallAssistant

  // ------------------------------------------------------- upcoming calls

  /** A call still to be held: anything not yet completed. */
  predicate IsOpen(t: CallTask) {
    t.status != Completed
  }

  /** The open calls of the queue, earliest first; ties keep their queue order. */
  function Upcoming(queue: seq<CallTask>): (r: seq<CallTask>)
    ensures |r| <= |queue|
  {
    SortBy(Filter(queue, IsOpen), ScheduledKey)
  }

  /** The upcoming calls are exactly the open calls of the queue, each as often as it is queued. */
  lemma UpcomingIsTheOpenCalls(queue: seq<CallTask>)
    ensures multiset(Upcoming(queue)) == multiset(Filter(queue, IsOpen))
    ensures forall i :: 0 <= i < |Upcoming(queue)| ==> Upcoming(queue)[i].status != Completed
    ensures forall i :: 0 <= i < |queue| ==> (queue[i] in Upcoming(queue) <==> queue[i].status != Completed)
  {
    var open := Filter(queue, IsOpen);
    SortByPermutation(open, ScheduledKey);
    forall i | 0 <= i < |Upcoming(queue)|
      ensures Upcoming(queue)[i].status != Completed
    {
      assert Upcoming(queue)[i] in multiset(open);
    }
    forall i | 0 <= i < |queue|
      ensures queue[i] in Upcoming(queue) <==> queue[i].status != Completed
    {
      assert queue[i] in Upcoming(queue) <==> queue[i] in multiset(open);
    }
  }

  /** The upcoming calls are in ascending order of their scheduled time. */
  lemma UpcomingIsSorted(queue: seq<CallTask>)
    ensures SortedBy(Upcoming(queue), ScheduledKey)
  {
    SortBySorted(Filter(queue, IsOpen), ScheduledKey);
  }

  /** Open calls scheduled for the same instant are listed in their queue order. */
  lemma UpcomingIsStable(queue: seq<CallTask>, time: int)
    ensures Filter(Upcoming(queue), KeyIs(ScheduledKey, time)) == Filter(Filter(queue, IsOpen), KeyIs(ScheduledKey, time))
  {
    SortByStable(Filter(queue, IsOpen), ScheduledKey, time);
  }

  /** On a queue the store keeps sorted, the selector's sort changes nothing: it only drops completed calls. */
  lemma UpcomingOfSortedQueue(queue: seq<CallTask>)
    requires SortedBy(queue, ScheduledKey)
    ensures Upcoming(queue) == Filter(queue, IsOpen)
  {
    FilterKeepsSorted(queue, IsOpen, ScheduledKey);
    SortBySortedIsIdentity(Filter(queue, IsOpen), ScheduledKey);
  }

  /** Selects the calls whose contact is on the contact list. */
  function KnownContact(contacts: seq<ContactRecord>): CallTask -> bool {
    (t: CallTask) => exists k :: 0 <= k < |contacts| && contacts[k].id == t.contactId
  }

  /** The calls the panel lists: the upcoming ones whose contact still exists, in the same order. */
  function ShownCalls(queue: seq<CallTask>, contacts: seq<ContactRecord>): (r: seq<CallTask>)
    ensures |r| <= |Upcoming(queue)|
    ensures forall i :: 0 <= i < |r| ==>
      r[i].status != Completed && exists k :: 0 <= k < |contacts| && contacts[k].id == r[i].contactId
    ensures forall i :: 0 <= i < |Upcoming(queue)| ==>
      (Upcoming(queue)[i] in r <==> exists k :: 0 <= k < |contacts| && contacts[k].id == Upcoming(queue)[i].contactId)
  {
    UpcomingIsTheOpenCalls(queue);
    var r := Filter(Upcoming(queue), KnownContact(contacts));
    assert forall i :: 0 <= i < |r| ==> r[i] in Upcoming(queue) && KnownContact(contacts)(r[i]);
    assert forall i :: 0 <= i < |Upcoming(queue)| ==>
      (Upcoming(queue)[i] in r <==> KnownContact(contacts)(Upcoming(queue)[i]));
    r
  }

  /** The listed calls are still earliest first. */
  lemma ShownCallsSorted(queue: seq<CallTask>, contacts: seq<ContactRecord>)
    ensures SortedBy(ShownCalls(queue, contacts), ScheduledKey)
  {
    UpcomingIsSorted(queue);
    FilterKeepsSorted(Upcoming(queue), KnownContact(contacts), ScheduledKey);
  }

  // --------------------------------------------------------- objective copy

  /** The one-line description shown under each objective. */
  function ObjectiveCopy(o: Objective): (r: string)
    ensures |r| > 0
  {
    match o
    case Discovery => "Frame ROI and uncover pains"
    case Qualification => "Confirm budget, authority, need, timing"
    case ProductDemo => "Showcase key differentiators"
    case ProposalReview => "Align on scope and pricing"
    case Negotiation => "Remove risk and close"
  }

  /** No two objectives share a description. */
  lemma ObjectiveCopyDistinct(o1: Objective, o2: Objective)
    requires o1 != o2
    ensures ObjectiveCopy(o1) != ObjectiveCopy(o2)
  {
    assert ObjectiveCopy(o1)[..4] != ObjectiveCopy(o2)[..4] || |ObjectiveCopy(o1)| != |ObjectiveCopy(o2)|;
  }

  // -------------------------------------------------------------- prep notes

  /** A line with something left after trimming. */
  predicate NonEmpty(line: string) {
    line != []
  }

  /** Each line trimmed. */
  function TrimAll(lines: seq<string>): (r: seq<string>)
    ensures |r| == |lines|
    ensures forall i :: 0 <= i < |lines| ==> r[i] == Trim(lines[i])
  {
    seq(|lines|, i requires 0 <= i < |lines| => Trim(lines[i]))
  }

  /** The prep-note textarea as a list: empty text gives none; otherwise its lines, trimmed, blank ones dropped. */
  function ParsePrepNotes(text: string): (r: seq<string>)
    ensures |r| <= CountChar(text, '\n') + 1
    ensures forall i :: 0 <= i < |r| ==> r[i] != []
  {
    if text == [] then [] else Filter(TrimAll(Split(text, '\n')), NonEmpty)
  }

  /**
   * Every prep note is non-blank and already trimmed, is the trim of one of
   * the text's lines, and there are no more notes than lines. Conversely no
   * line with content is lost.
   */
  lemma PrepNotesAreTrimmedLines(text: string)
    ensures var notes := ParsePrepNotes(text);
      && |notes| <= CountChar(text, '\n') + 1
      && (forall i :: 0 <= i < |notes| ==> notes[i] != [] && Trim(notes[i]) == notes[i])
      && (forall i :: 0 <= i < |notes| ==> exists j :: 0 <= j < |Split(text, '\n')| && notes[i] == Trim(Split(text, '\n')[j]))
      && (forall j :: 0 <= j < |Split(text, '\n')| && Trim(Split(text, '\n')[j]) != [] ==> Trim(Split(text, '\n')[j]) in notes)
  {
    var lines := Split(text, '\n');
    var notes := ParsePrepNotes(text);
    if text != [] {
      var trimmed := TrimAll(lines);
      forall i | 0 <= i < |notes|
        ensures notes[i] != [] && Trim(notes[i]) == notes[i]
        ensures exists j :: 0 <= j < |lines| && notes[i] == Trim(lines[j])
      {
        var j :| 0 <= j < |trimmed| && trimmed[j] == notes[i];
        TrimIdempotent(lines[j]);
      }
      forall j | 0 <= j < |lines| && Trim(lines[j]) != []
        ensures Trim(lines[j]) in notes
      {
        assert trimmed[j] == Trim(lines[j]);
      }
    }
  }

  /** The empty-text guard only short-cuts: splitting empty text yields one blank line, which is dropped anyway. */
  lemma PrepNotesGuardIsShortcut(text: string)
    ensures ParsePrepNotes(text) == Filter(TrimAll(Split(text, '\n')), NonEmpty)
  {
    if text == [] {
      var none: string := [];
      assert Split(text, '\n') == [none];
      assert Trim(none) == none;
      assert TrimAll([none]) == [none];
    }
  }

  // ------------------------------------------------------------------ form

  /** The scheduling form's fields, as the user typed them. */
  datatype ScheduleForm = ScheduleForm(
    contactId: string,
    scheduledFor: string,
    objective: Objective,
    channel: Channel,
    prepNotes: string)

  /** The form as it opens and as it resets after a submission. */
  const InitialForm := ScheduleForm("", "", Objective.Discovery, Zoom, "")

  /** A submission is made only when a customer and a time were both chosen. */
  function Submittable(form: ScheduleForm): (ok: bool)
    ensures ok ==> form != InitialForm
  {
    form.contactId != [] && form.scheduledFor != []
  }

  /** What a submission hands to the store; `scheduledAt` is the instant the form's time denotes. */
  function SubmittedPayload(form: ScheduleForm, scheduledAt: int): (r: SchedulePayload)
    ensures r.prepNotes.Some? && forall i :: 0 <= i < |r.prepNotes.value| ==> r.prepNotes.value[i] != []
  {
    PrepNotesAreTrimmedLines(form.prepNotes);
    SchedulePayload(form.contactId, scheduledAt, form.objective, form.channel, Some(ParsePrepNotes(form.prepNotes)))
  }

  /** A freshly opened form is never submittable. */
  lemma InitialFormNotSubmittable()
    ensures !Submittable(InitialForm)
  {
  }

  /** The panel's local state around the store it schedules into. */
  class SchedulePanel {
    const store: Store
    var expanded: bool
    var form: ScheduleForm

    constructor (store: Store)
      ensures this.store == store && !expanded && form == InitialForm
    {
      this.store := store;
      expanded := false;
      form := InitialForm;
    }

    /** The "Schedule new call" / "Close scheduling" button. */
    method Toggle()
      modifies this
      ensures expanded == !old(expanded) && form == old(form)
    {
      expanded := !expanded;
    }

    /** An edit of one of the form's inputs. */
    method Edit(next: ScheduleForm)
      modifies this
      ensures form == next && expanded == old(expanded)
    {
      form := next;
    }

    /**
     * Submitting the form: without a customer or a time nothing happens;
     * otherwise the call is scheduled with the parsed prep notes, the form
     * is reset and the panel collapses.
     */
    method HandleSubmit(scheduledAt: int, freshId: string, now: int)
      requires store.Valid()
      requires Submittable(form) ==> FreshTaskId(store.state.callQueue, freshId)
      modifies this, store
      ensures store.Valid()
      ensures !Submittable(old(form)) ==>
        store.state == old(store.state) && form == old(form) && expanded == old(expanded)
      ensures Submittable(old(form)) ==>
        && store.state == Reduce(old(store.state), Action.ScheduleCall(SubmittedPayload(old(form), scheduledAt)), freshId, now)
        && |store.state.callQueue| == |old(store.state).callQueue| + 1
        && SortedBy(store.state.callQueue, ScheduledKey)
        && form == InitialForm && !expanded
    {
      if !Submittable(form) {
        return;
      }
      store.ScheduleCall(SubmittedPayload(form, scheduledAt), freshId, now);
      form := InitialForm;
      expanded := false;
    }
  }
}
