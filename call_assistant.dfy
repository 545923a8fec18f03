/**
 * The call-assistant store: one state value holding the contacts, the call
 * queue and the call notes, replaced wholesale by a reducer on each of five
 * actions. The reducer reads two things from its environment, a freshly
 * generated id and the current time; both are parameters here.
 */
module CallAssistant {
  import opened Wrappers
  import opened Sequences
  import opened Domain

  datatype SchedulePayload = SchedulePayload(
    contactId: string,
    scheduledFor: int,
    objective: Objective,
    channel: Channel,
    prepNotes: Option<seq<string>>)

  datatype CompletePayload = CompletePayload(
    callId: string,
    summary: string,
    sentiment: Sentiment,
    nextStep: string)

  datatype UpdateContactPayload = UpdateContactPayload(
    contactId: string,
    status: ContactStatus,
    lastInteraction: Option<int>)

  datatype PersonaInsightPayload = PersonaInsightPayload(
    contactId: string,
    persona: string,
    insight: string)

  datatype Action =
    | ScheduleCall(schedule: SchedulePayload)
    | CompleteCall(complete: CompletePayload)
    | UpdateContact(update: UpdateContactPayload)
    | AddNote(note: CallNote)
    | AddPersonaInsight(personaInsight: PersonaInsightPayload)

  datatype State = State(contacts: seq<ContactRecord>, callQueue: seq<CallTask>, notes: seq<CallNote>)

  // ------------------------------------------------------------- helpers

  /** The key the queue is sorted on. */
  function ScheduledKey(t: CallTask): int {
    t.scheduledFor
  }

  /** Selects the calls carrying `id`. */
  function TaskHasId(id: string): CallTask -> bool {
    (t: CallTask) => t.id == id
  }

  /** Each task's id is carried by that task alone. */
  ghost predicate UniqueTaskIds(queue: seq<CallTask>) {
    forall i :: 0 <= i < |queue| ==> |Filter(queue, TaskHasId(queue[i].id))| == 1
  }

  /** No task carries `id` yet. */
  predicate FreshTaskId(queue: seq<CallTask>, id: string) {
    forall i :: 0 <= i < |queue| ==> queue[i].id != id
  }

  // -------------------------------------------------------------- reducer

  /** The queue entry a schedule request creates. */
  function NewTask(p: SchedulePayload, id: string): CallTask {
    CallTask(id, p.contactId, p.scheduledFor, p.objective, p.channel, Scheduled, p.prepNotes.GetOr([]))
  }

  /** SCHEDULE_CALL: append the new task, then sort the whole queue by time. */
  function ReduceSchedule(s: State, p: SchedulePayload, freshId: string): (r: State)
    ensures |r.callQueue| == |s.callQueue| + 1
    ensures r.contacts == s.contacts && r.notes == s.notes
  {
    s.(callQueue := SortBy(s.callQueue + [NewTask(p, freshId)], ScheduledKey))
  }

  /** Every task carrying `callId` becomes Completed; nothing else about any task changes. */
  function CompleteMatching(queue: seq<CallTask>, callId: string): (r: seq<CallTask>)
    ensures |r| == |queue|
    ensures forall i :: 0 <= i < |r| ==> r[i].(status := queue[i].status) == queue[i]
  {
    seq(|queue|, i requires 0 <= i < |queue| =>
      if queue[i].id == callId then queue[i].(status := Completed) else queue[i])
  }

  /** The note that completing `call` logs. */
  function CompletionNote(call: CallTask, p: CompletePayload, freshId: string, now: int): CallNote {
    CallNote(freshId, call.contactId, p.summary, p.sentiment, p.nextStep, now)
  }

  /** COMPLETE_CALL: unknown ids are ignored; otherwise complete the matching calls and prepend a note for the first. */
  function ReduceComplete(s: State, p: CompletePayload, freshId: string, now: int): (r: State)
    ensures |r.callQueue| == |s.callQueue| && r.contacts == s.contacts
    ensures |r.notes| == |s.notes| || |r.notes| == |s.notes| + 1
  {
    match Find(s.callQueue, TaskHasId(p.callId))
    case None => s
    case Some(call) =>
      s.(callQueue := CompleteMatching(s.callQueue, p.callId),
         notes := [CompletionNote(call, p, freshId, now)] + s.notes)
  }

  /** UPDATE_CONTACT on one contact. */
  function WithStatus(c: ContactRecord, p: UpdateContactPayload, now: int): ContactRecord {
    if c.id == p.contactId then c.(status := p.status, lastInteraction := p.lastInteraction.GetOr(now)) else c
  }

  /** UPDATE_CONTACT: matching contacts take the new status and interaction time (by default, now). */
  function ReduceUpdateContact(s: State, p: UpdateContactPayload, now: int): (r: State)
    ensures |r.contacts| == |s.contacts|
  {
    s.(contacts := seq(|s.contacts|, i requires 0 <= i < |s.contacts| => WithStatus(s.contacts[i], p, now)))
  }

  /** The tags after adding a persona and an insight: a union that keeps first-occurrence order. */
  function InsightTags(tags: seq<string>, p: PersonaInsightPayload): seq<string> {
    Dedup(tags + [p.persona, p.insight])
  }

  /** ADD_PERSONA_INSIGHT on one contact. */
  function WithInsight(c: ContactRecord, p: PersonaInsightPayload): ContactRecord {
    if c.id == p.contactId then c.(tags := InsightTags(c.tags, p)) else c
  }

  /** ADD_PERSONA_INSIGHT: matching contacts gain the persona and the insight as tags. */
  function ReducePersonaInsight(s: State, p: PersonaInsightPayload): (r: State)
    ensures |r.contacts| == |s.contacts|
  {
    s.(contacts := seq(|s.contacts|, i requires 0 <= i < |s.contacts| => WithInsight(s.contacts[i], p)))
  }

  /**
   * The reducer. Whatever the action, no contact, task or note is removed or
   * reordered away, and each collection changes only under the actions that
   * concern it.
   */
  function Reduce(s: State, a: Action, freshId: string, now: int): (r: State)
    ensures |r.contacts| == |s.contacts|
    ensures forall i :: 0 <= i < |s.contacts| ==> r.contacts[i].id == s.contacts[i].id
    ensures !(a.UpdateContact? || a.AddPersonaInsight?) ==> r.contacts == s.contacts
    ensures !(a.ScheduleCall? || a.CompleteCall?) ==> r.callQueue == s.callQueue
    ensures !(a.CompleteCall? || a.AddNote?) ==> r.notes == s.notes
    ensures |s.callQueue| <= |r.callQueue| <= |s.callQueue| + 1
    ensures |s.notes| <= |r.notes| <= |s.notes| + 1
  {
    match a
    case ScheduleCall(p) => ReduceSchedule(s, p, freshId)
    case CompleteCall(p) => ReduceComplete(s, p, freshId, now)
    case UpdateContact(p) => ReduceUpdateContact(s, p, now)
    case AddNote(n) => s.(notes := [n] + s.notes)
    case AddPersonaInsight(p) => ReducePersonaInsight(s, p)
  }

  // ----------------------------------------------------------- SCHEDULE_CALL

  /** Scheduling adds exactly the new task to the queue and touches nothing else. */
  lemma ScheduleAddsTask(s: State, p: SchedulePayload, freshId: string, now: int)
    ensures var r := Reduce(s, ScheduleCall(p), freshId, now);
      && |r.callQueue| == |s.callQueue| + 1
      && multiset(r.callQueue) == multiset(s.callQueue) + multiset{CallTask(freshId, p.contactId, p.scheduledFor, p.objective, p.channel, Scheduled, p.prepNotes.GetOr([]))}
      && r.contacts == s.contacts && r.notes == s.notes
  {
    SortByPermutation(s.callQueue + [NewTask(p, freshId)], ScheduledKey);
  }

  /** After scheduling, the queue is in ascending order of scheduled time. */
  lemma ScheduleSortsQueue(s: State, p: SchedulePayload, freshId: string, now: int)
    ensures SortedBy(Reduce(s, ScheduleCall(p), freshId, now).callQueue, ScheduledKey)
  {
    SortBySorted(s.callQueue + [NewTask(p, freshId)], ScheduledKey);
  }

  /**
   * Calls scheduled for the same time keep their order, and a new call goes
   * after those already booked for its time.
   */
  lemma ScheduleIsStable(s: State, p: SchedulePayload, freshId: string, now: int, time: int)
    ensures Filter(Reduce(s, ScheduleCall(p), freshId, now).callQueue, KeyIs(ScheduledKey, time))
         == Filter(s.callQueue, KeyIs(ScheduledKey, time)) + (if p.scheduledFor == time then [NewTask(p, freshId)] else [])
  {
    var q := s.callQueue + [NewTask(p, freshId)];
    SortByStable(q, ScheduledKey, time);
    FilterSnoc(s.callQueue, NewTask(p, freshId), KeyIs(ScheduledKey, time));
  }

  /**
   * On a queue that is already in order, scheduling inserts the new task
   * after every task due no later and before every task due later, and
   * leaves the rest of the queue as it was.
   */
  lemma ScheduleIntoSortedQueue(s: State, p: SchedulePayload, freshId: string, now: int) returns (k: nat)
    requires SortedBy(s.callQueue, ScheduledKey)
    ensures k <= |s.callQueue|
    ensures Reduce(s, ScheduleCall(p), freshId, now).callQueue == s.callQueue[..k] + [NewTask(p, freshId)] + s.callQueue[k..]
    ensures forall i :: 0 <= i < k ==> s.callQueue[i].scheduledFor <= p.scheduledFor
    ensures forall i :: k <= i < |s.callQueue| ==> p.scheduledFor < s.callQueue[i].scheduledFor
  {
    var q, t := s.callQueue, NewTask(p, freshId);
    assert (q + [t])[..|q|] == q;
    SortBySortedIsIdentity(q, ScheduledKey);
    assert SortBy(q + [t], ScheduledKey) == InsertBy(q, t, ScheduledKey);
    k := InsertBySplits(q, t, ScheduledKey);
  }

  /** A call due no earlier than every queued call goes to the end of the queue. */
  lemma ScheduleLatestGoesLast(s: State, p: SchedulePayload, freshId: string, now: int)
    requires forall i :: 0 <= i < |s.callQueue| ==> s.callQueue[i].scheduledFor <= p.scheduledFor
    ensures var q := Reduce(s, ScheduleCall(p), freshId, now).callQueue;
      q[|q| - 1] == NewTask(p, freshId)
  {
    var q, t := s.callQueue, NewTask(p, freshId);
    assert (q + [t])[..|q|] == q;
    var sorted := SortBy(q, ScheduledKey);
    SortByPermutation(q, ScheduledKey);
    if sorted != [] {
      assert sorted[|sorted| - 1] in multiset(q);
    }
    assert SortBy(q + [t], ScheduledKey) == sorted + [t];
  }

  // ----------------------------------------------------------- COMPLETE_CALL

  /** Completing an id that no task carries leaves the whole state as it was. */
  lemma CompleteUnknownCall(s: State, p: CompletePayload, freshId: string, now: int)
    requires FreshTaskId(s.callQueue, p.callId)
    ensures Reduce(s, CompleteCall(p), freshId, now) == s
  {
  }

  /**
   * Completing a known id keeps the queue's length and order, marks exactly
   * the calls carrying that id Completed (every other field kept), leaves the
   * contacts alone, and prepends one note for the first such task, whatever
   * its status was.
   */
  lemma CompleteKnownCall(s: State, p: CompletePayload, freshId: string, now: int, i: nat)
    requires i < |s.callQueue| && s.callQueue[i].id == p.callId
    ensures var r := Reduce(s, CompleteCall(p), freshId, now);
      && |r.callQueue| == |s.callQueue|
      && (forall j :: 0 <= j < |s.callQueue| ==>
            r.callQueue[j] == if s.callQueue[j].id == p.callId then s.callQueue[j].(status := Completed) else s.callQueue[j])
      && r.contacts == s.contacts
      && |r.notes| == |s.notes| + 1 && r.notes[1..] == s.notes
      && exists m :: 0 <= m <= i && s.callQueue[m].id == p.callId
           && (forall j :: 0 <= j < m ==> s.callQueue[j].id != p.callId)
           && r.notes[0] == CallNote(freshId, s.callQueue[m].contactId, p.summary, p.sentiment, p.nextStep, now)
  {
    var found := Find(s.callQueue, TaskHasId(p.callId));
    assert TaskHasId(p.callId)(s.callQueue[i]);
    CompleteFound(s, p, freshId, now, found.value);
    var m :| 0 <= m < |s.callQueue| && s.callQueue[m] == found.value && TaskHasId(p.callId)(s.callQueue[m])
      && forall j :: 0 <= j < m ==> !TaskHasId(p.callId)(s.callQueue[j]);
    assert m <= i;
  }

  /** Once a call with the id is found, the queue is completed and its note prepended. */
  lemma CompleteFound(s: State, p: CompletePayload, freshId: string, now: int, call: CallTask)
    requires Find(s.callQueue, TaskHasId(p.callId)) == Some(call)
    ensures var r := Reduce(s, CompleteCall(p), freshId, now);
      && r.callQueue == CompleteMatching(s.callQueue, p.callId)
      && r.notes == [CompletionNote(call, p, freshId, now)] + s.notes
      && r.contacts == s.contacts
  {
  }

  /** With unique task ids, completing a known id changes exactly that one task, and the note names its contact. */
  lemma CompleteUniqueCall(s: State, p: CompletePayload, freshId: string, now: int, i: nat)
    requires UniqueTaskIds(s.callQueue)
    requires i < |s.callQueue| && s.callQueue[i].id == p.callId
    ensures var r := Reduce(s, CompleteCall(p), freshId, now);
      && r.callQueue == s.callQueue[i := s.callQueue[i].(status := Completed)]
      && r.notes == [CallNote(freshId, s.callQueue[i].contactId, p.summary, p.sentiment, p.nextStep, now)] + s.notes
  {
    CompleteKnownCall(s, p, freshId, now, i);
    forall j | 0 <= j < |s.callQueue| && j != i ensures s.callQueue[j].id != p.callId {
      if s.callQueue[j].id == p.callId {
        if i < j { FilterTwo(s.callQueue, TaskHasId(p.callId), i, j); }
        else { FilterTwo(s.callQueue, TaskHasId(p.callId), j, i); }
      }
    }
  }

  /**
   * Completing the same call again leaves the queue as the first completion
   * left it, but logs a second note: the lookup does not look at status.
   */
  lemma CompleteTwiceLogsTwice(s: State, p: CompletePayload, id1: string, now1: int, id2: string, now2: int, i: nat)
    requires i < |s.callQueue| && s.callQueue[i].id == p.callId
    ensures var once := Reduce(s, CompleteCall(p), id1, now1);
      var twice := Reduce(once, CompleteCall(p), id2, now2);
      && twice.callQueue == once.callQueue
      && |twice.notes| == |s.notes| + 2
  {
    var once := Reduce(s, CompleteCall(p), id1, now1);
    CompleteKnownCall(s, p, id1, now1, i);
    CompleteKnownCall(once, p, id2, now2, i);
  }

  // --------------------------------------------------------- UPDATE_CONTACT

  /**
   * Updating a contact changes, on the contacts carrying the id, only the
   * status and the last-interaction time (now, when none is given); every
   * other contact and the other collections stay as they were.
   */
  lemma UpdateContactEffect(s: State, p: UpdateContactPayload, freshId: string, now: int)
    ensures var r := Reduce(s, UpdateContact(p), freshId, now);
      && |r.contacts| == |s.contacts|
      && (forall i :: 0 <= i < |s.contacts| && s.contacts[i].id != p.contactId ==> r.contacts[i] == s.contacts[i])
      && (forall i :: 0 <= i < |s.contacts| && s.contacts[i].id == p.contactId ==>
            && r.contacts[i].status == p.status
            && r.contacts[i].lastInteraction == (if p.lastInteraction.Some? then p.lastInteraction.value else now)
            && r.contacts[i].(status := s.contacts[i].status, lastInteraction := s.contacts[i].lastInteraction) == s.contacts[i])
      && r.callQueue == s.callQueue && r.notes == s.notes
  {
  }

  /** Updating an id that no contact carries changes nothing. */
  lemma UpdateUnknownContact(s: State, p: UpdateContactPayload, freshId: string, now: int)
    requires forall i :: 0 <= i < |s.contacts| ==> s.contacts[i].id != p.contactId
    ensures Reduce(s, UpdateContact(p), freshId, now) == s
  {
    assert Reduce(s, UpdateContact(p), freshId, now).contacts == s.contacts;
  }

  /** Applying the same update twice at the same time is applying it once. */
  lemma UpdateContactIdempotent(s: State, p: UpdateContactPayload, freshId: string, freshId2: string, now: int)
    ensures var once := Reduce(s, UpdateContact(p), freshId, now);
      Reduce(once, UpdateContact(p), freshId2, now) == once
  {
    var once := Reduce(s, UpdateContact(p), freshId, now);
    assert Reduce(once, UpdateContact(p), freshId2, now).contacts == once.contacts;
  }

  // ---------------------------------------------------------------- ADD_NOTE

  /** Adding a note puts it first and keeps every other note after it. */
  lemma AddNotePrepends(s: State, n: CallNote, freshId: string, now: int)
    ensures var r := Reduce(s, AddNote(n), freshId, now);
      r.notes[0] == n && r.notes[1..] == s.notes && r.contacts == s.contacts && r.callQueue == s.callQueue
  {
  }

  // ---------------------------------------------------- ADD_PERSONA_INSIGHT

  /**
   * The new tags contain the persona and the insight, every old tag, nothing
   * else, and no value twice; other contacts and collections are unchanged.
   */
  lemma PersonaInsightEffect(s: State, p: PersonaInsightPayload, freshId: string, now: int, i: nat)
    requires i < |s.contacts|
    ensures var r := Reduce(s, AddPersonaInsight(p), freshId, now);
      && (s.contacts[i].id != p.contactId ==> r.contacts[i] == s.contacts[i])
      && (s.contacts[i].id == p.contactId ==>
            var tags := r.contacts[i].tags;
            && p.persona in tags && p.insight in tags
            && NoDuplicates(tags)
            && (forall k :: 0 <= k < |s.contacts[i].tags| ==> s.contacts[i].tags[k] in tags)
            && (forall k :: 0 <= k < |tags| ==> tags[k] in s.contacts[i].tags || tags[k] == p.persona || tags[k] == p.insight)
            && r.contacts[i].(tags := s.contacts[i].tags) == s.contacts[i])
      && r.callQueue == s.callQueue && r.notes == s.notes
  {
    var t := s.contacts[i].tags + [p.persona, p.insight];
    assert t[|t| - 2] == p.persona && t[|t| - 1] == p.insight;
    forall k | 0 <= k < |s.contacts[i].tags| ensures s.contacts[i].tags[k] in InsightTags(s.contacts[i].tags, p) {
      assert t[k] == s.contacts[i].tags[k];
    }
  }

  /**
   * Tags that were distinct keep their order; the persona, then the insight,
   * are appended unless already present.
   */
  lemma InsightTagsAppend(tags: seq<string>, p: PersonaInsightPayload)
    requires NoDuplicates(tags)
    ensures InsightTags(tags, p)
         == tags + (if p.persona in tags then [] else [p.persona])
                 + (if p.insight in tags || p.insight == p.persona then [] else [p.insight])
  {
    DistinctSnocTwo(tags, p.persona, p.insight);
  }

  /** Adding the same persona insight twice is adding it once. */
  lemma PersonaInsightIdempotent(s: State, p: PersonaInsightPayload, freshId: string, now: int)
    ensures var once := Reduce(s, AddPersonaInsight(p), freshId, now);
      Reduce(once, AddPersonaInsight(p), freshId, now) == once
  {
    var once := Reduce(s, AddPersonaInsight(p), freshId, now);
    var twice := Reduce(once, AddPersonaInsight(p), freshId, now);
    forall i | 0 <= i < |s.contacts| ensures twice.contacts[i] == once.contacts[i] {
      if s.contacts[i].id == p.contactId {
        var d := once.contacts[i].tags;
        var t := s.contacts[i].tags + [p.persona, p.insight];
        assert t[|t| - 2] == p.persona && t[|t| - 1] == p.insight;
        assert p.persona in d && p.insight in d;
        InsightTagsAppend(d, p);
      }
    }
  }

  // ------------------------------------------------------ task-id invariant

  /** A fresh id selects no task of the queue. */
  lemma FilterFreshId(queue: seq<CallTask>, t: CallTask)
    requires FreshTaskId(queue, t.id)
    ensures |Filter(queue, TaskHasId(t.id))| == 0
  {
  }

  /** Appending a task under a fresh id keeps task ids unique. */
  lemma AppendKeepsTaskIdsUnique(q: seq<CallTask>, t: CallTask)
    requires UniqueTaskIds(q) && FreshTaskId(q, t.id)
    ensures UniqueTaskIds(q + [t])
  {
    var q' := q + [t];
    forall i | 0 <= i < |q'| ensures |Filter(q', TaskHasId(q'[i].id))| == 1 {
      FilterSnoc(q, t, TaskHasId(q'[i].id));
      if i == |q| {
        FilterFreshId(q, t);
      } else {
        assert q'[i] == q[i];
      }
    }
  }

  /** Reordering the queue keeps task ids unique. */
  lemma PermutationKeepsTaskIdsUnique(r: seq<CallTask>, q: seq<CallTask>)
    requires UniqueTaskIds(q) && multiset(r) == multiset(q)
    ensures UniqueTaskIds(r)
  {
    forall i | 0 <= i < |r| ensures |Filter(r, TaskHasId(r[i].id))| == 1 {
      FilterPermutation(r, q, TaskHasId(r[i].id));
      assert r[i] in multiset(q);
      var j :| 0 <= j < |q| && q[j] == r[i];
    }
  }

  /** Scheduling under a fresh id keeps task ids unique. */
  lemma ScheduleKeepsTaskIdsUnique(q: seq<CallTask>, t: CallTask)
    requires UniqueTaskIds(q) && FreshTaskId(q, t.id)
    ensures UniqueTaskIds(SortBy(q + [t], ScheduledKey))
  {
    AppendKeepsTaskIdsUnique(q, t);
    SortByPermutation(q + [t], ScheduledKey);
    PermutationKeepsTaskIdsUnique(SortBy(q + [t], ScheduledKey), q + [t]);
  }

  /** Completing calls keeps task ids unique. */
  lemma CompleteKeepsTaskIdsUnique(q: seq<CallTask>, callId: string)
    requires UniqueTaskIds(q)
    ensures UniqueTaskIds(CompleteMatching(q, callId))
  {
    var r := CompleteMatching(q, callId);
    forall i | 0 <= i < |r| ensures |Filter(r, TaskHasId(r[i].id))| == 1 {
      FilterSameCount(r, q, TaskHasId(r[i].id));
    }
  }

  /** With a fresh id for new tasks, every action keeps task ids unique. */
  lemma ReduceKeepsTaskIdsUnique(s: State, a: Action, freshId: string, now: int)
    requires UniqueTaskIds(s.callQueue)
    requires a.ScheduleCall? ==> FreshTaskId(s.callQueue, freshId)
    ensures UniqueTaskIds(Reduce(s, a, freshId, now).callQueue)
  {
    match a
    case ScheduleCall(p) => ScheduleKeepsTaskIdsUnique(s.callQueue, NewTask(p, freshId));
    case CompleteCall(p) => CompleteKeepsTaskIdsUnique(s.callQueue, p.callId);
    case UpdateContact(_) =>
    case AddNote(_) =>
    case AddPersonaInsight(_) =>
  }

  // ------------------------------------------------------------------ store

  /**
   * The provider's single mutable state cell. Each method dispatches one
   * action, replacing the whole state by the reducer's result; `freshId` and
   * `now` are what id generation and the clock give at that moment.
   */
  class Store {
    var state: State

    /** Task ids are unique: what generating a random UUID per task secures. */
    ghost predicate Valid()
      reads this
    {
      UniqueTaskIds(state.callQueue)
    }

    /** A store seeded with fixture data. */
    constructor (seed: State)
      requires UniqueTaskIds(seed.callQueue)
      ensures Valid() && state == seed
    {
      state := seed;
    }

    method ScheduleCall(p: SchedulePayload, freshId: string, now: int)
      requires Valid() && FreshTaskId(state.callQueue, freshId)
      modifies this
      ensures Valid()
      ensures state == Reduce(old(state), Action.ScheduleCall(p), freshId, now)
      ensures |state.callQueue| == |old(state).callQueue| + 1
      ensures SortedBy(state.callQueue, ScheduledKey)
    {
      ReduceKeepsTaskIdsUnique(state, Action.ScheduleCall(p), freshId, now);
      ScheduleSortsQueue(state, p, freshId, now);
      state := Reduce(state, Action.ScheduleCall(p), freshId, now);
    }

    method CompleteCall(p: CompletePayload, freshId: string, now: int)
      requires Valid()
      modifies this
      ensures Valid()
      ensures state == Reduce(old(state), Action.CompleteCall(p), freshId, now)
    {
      ReduceKeepsTaskIdsUnique(state, Action.CompleteCall(p), freshId, now);
      state := Reduce(state, Action.CompleteCall(p), freshId, now);
    }

    method UpdateContact(p: UpdateContactPayload, freshId: string, now: int)
      requires Valid()
      modifies this
      ensures Valid()
      ensures state == Reduce(old(state), Action.UpdateContact(p), freshId, now)
    {
      state := Reduce(state, Action.UpdateContact(p), freshId, now);
    }

    method AddNote(n: CallNote, freshId: string, now: int)
      requires Valid()
      modifies this
      ensures Valid()
      ensures state == Reduce(old(state), Action.AddNote(n), freshId, now)
    {
      state := Reduce(state, Action.AddNote(n), freshId, now);
    }

    method AddPersonaInsight(p: PersonaInsightPayload, freshId: string, now: int)
      requires Valid()
      modifies this
      ensures Valid()
      ensures state == Reduce(old(state), Action.AddPersonaInsight(p), freshId, now)
    {
      state := Reduce(state, Action.AddPersonaInsight(p), freshId, now);
    }
  }
}
