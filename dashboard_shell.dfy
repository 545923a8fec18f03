/**
 * The dashboard header's three figures: calls today, follow-ups and the
 * value of the active pipeline.
 */

module DashboardShell {
  import opened Sequences
  import opened Domain
  import opened CallAssistant

  /** The number of queued calls whose time falls on today's date; `isToday` is that calendar test. */
  function ScheduledToday(queue: seq<CallTask>, isToday: int -> bool): (r: nat)
    ensures r <= |queue|
  {
    |Filter(queue, (t: CallTask) => isToday(t.scheduledFor))|
  }

  predicate NeedsFollowUpCall(t: CallTask) {
    t.status == NeedsFollowUp
  }

  /** The number of queued calls marked as needing a follow-up. */
  function FollowUps(queue: seq<CallTask>): (r: nat)
    ensures r <= |queue|
    ensures r == 0 <==> forall i :: 0 <= i < |queue| ==> queue[i].status != NeedsFollowUp
  {
    var f := Filter(queue, NeedsFollowUpCall);
    assert f != [] ==> f[0] in queue;
    |f|
  }

  /** Scheduling a call never adds a follow-up: the new call starts out scheduled. */
  lemma ScheduleKeepsFollowUps(s: State, p: SchedulePayload, freshId: string, now: int)
    ensures FollowUps(Reduce(s, Action.ScheduleCall(p), freshId, now).callQueue) == FollowUps(s.callQueue)
  {
    var q := s.callQueue + [NewTask(p, freshId)];
    SortByPermutation(q, ScheduledKey);
    FilterPermutation(SortBy(q, ScheduledKey), q, NeedsFollowUpCall);
    FilterSnoc(s.callQueue, NewTask(p, freshId), NeedsFollowUpCall);
  }

  /** Completing a call can only lower the follow-up count. */
  lemma CompleteNeverAddsFollowUps(s: State, p: CompletePayload, freshId: string, now: int)
    ensures FollowUps(Reduce(s, Action.CompleteCall(p), freshId, now).callQueue) <= FollowUps(s.callQueue)
  {
    var q := CompleteMatching(s.callQueue, p.callId);
    FilterMonotone(s.callQueue, q, NeedsFollowUpCall);
  }

  /** A contact in an active stage of the deal: Discovery, Proposal or Negotiation. */
  predicate IsActive(c: ContactRecord) {
    c.status == ContactStatus.Discovery || c.status == Proposal || c.status == ContactStatus.Negotiation
  }

  function AnnualValue(c: ContactRecord): int {
    c.annualValue
  }

  /** What one contact adds to the pipeline value. */
  function Contribution(c: ContactRecord): int {
    if IsActive(c) then c.annualValue else 0
  }

  /** The summed annual value of the active contacts: every contact's contribution, added up. */
  function PipelineValue(contacts: seq<ContactRecord>): (r: int)
    ensures r == SumBy(contacts, Contribution)
  {
    ActiveValueIsContributions(contacts);
    SumBy(Filter(contacts, IsActive), AnnualValue)
  }

  /** Summing the values of the active contacts is summing every contact's contribution. */
  lemma {:induction false} ActiveValueIsContributions(contacts: seq<ContactRecord>)
    ensures SumBy(Filter(contacts, IsActive), AnnualValue) == SumBy(contacts, Contribution)
  {
    if contacts != [] {
      var init, c := contacts[..|contacts| - 1], contacts[|contacts| - 1];
      ActiveValueIsContributions(init);
      var tail := if IsActive(c) then [c] else [];
      SumByConcat(Filter(init, IsActive), tail, AnnualValue);
      assert SumBy(tail, AnnualValue) == Contribution(c) by {
        if IsActive(c) {
          assert tail[..0] == [];
        }
      }
    }
  }

  /** The pipeline value of a list is the sum of the values of its parts. */
  lemma PipelineValueConcat(a: seq<ContactRecord>, b: seq<ContactRecord>)
    ensures PipelineValue(a + b) == PipelineValue(a) + PipelineValue(b)
  {
    FilterConcat(a, b, IsActive);
    SumByConcat(Filter(a, IsActive), Filter(b, IsActive), AnnualValue);
  }

  /** A contact between two stretches adds its own contribution to theirs. */
  lemma PipelineValueSplit(a: seq<ContactRecord>, c: ContactRecord, b: seq<ContactRecord>)
    ensures PipelineValue(a + [c] + b) == PipelineValue(a) + Contribution(c) + PipelineValue(b)
  {
    PipelineValueConcat(a + [c], b);
    PipelineValueConcat(a, [c]);
    assert Filter([c], IsActive) == if IsActive(c) then [c] else [];
  }

  /** Replacing one contact changes the pipeline value by exactly the change in its contribution. */
  lemma PipelineValueReplace(contacts: seq<ContactRecord>, k: nat, c: ContactRecord)
    requires k < |contacts|
    ensures PipelineValue(contacts[k := c])
      == PipelineValue(contacts) - Contribution(contacts[k]) + Contribution(c)
  {
    var a, b := contacts[..k], contacts[k + 1..];
    assert contacts == a + [contacts[k]] + b;
    assert contacts[k := c] == a + [c] + b;
    PipelineValueSplit(a, contacts[k], b);
    PipelineValueSplit(a, c, b);
  }

  /** The value of a New, Won or Lost contact does not count towards the pipeline. */
  lemma InactiveValueIgnored(contacts: seq<ContactRecord>, k: nat, value: int)
    requires k < |contacts| && !IsActive(contacts[k])
    ensures PipelineValue(contacts[k := contacts[k].(annualValue := value)]) == PipelineValue(contacts)
  {
    PipelineValueReplace(contacts, k, contacts[k].(annualValue := value));
  }

  /** With no negative deal values the pipeline value is never negative. */
  lemma {:induction false} PipelineValueNonNegative(contacts: seq<ContactRecord>)
    requires forall i :: 0 <= i < |contacts| ==> contacts[i].annualValue >= 0
    ensures PipelineValue(contacts) >= 0
  {
    if contacts != [] {
      var init, last := contacts[..|contacts| - 1], contacts[|contacts| - 1];
      assert contacts == init + [last];
      PipelineValueNonNegative(init);
      PipelineValueConcat(init, [last]);
      assert Filter([last], IsActive) == if IsActive(last) then [last] else [];
    }
  }
}
