/**
 * The records the dashboard keeps: contacts, call tasks and call notes.
 * Timestamps are integers (milliseconds since the epoch, as `getTime`
 * would give them); personas, ids and free text are strings.
 */
module Domain {

  /** A contact's place in the pipeline. */
  datatype ContactStatus = New | Discovery | Proposal | Negotiation | Won | Lost

  /** The purpose of a call. */
  datatype Objective = Discovery | Qualification | ProductDemo | ProposalReview | Negotiation

  /** Where a call takes place. */
  datatype Channel = Zoom | Phone | GoogleMeet | Teams

  /** Where a call task stands. */
  datatype CallStatus = Scheduled | NeedsFollowUp | Completed

  /** How a call went. */
  datatype Sentiment = Positive | Neutral | Concerned

  datatype ContactRecord = ContactRecord(
    id: string,
    name: string,
    company: string,
    title: string,
    persona: string,
    status: ContactStatus,
    annualValue: int,
    tags: seq<string>,
    timezone: string,
    lastInteraction: int)

  datatype CallTask = CallTask(
    id: string,
    contactId: string,
    scheduledFor: int,
    objective: Objective,
    channel: Channel,
    status: CallStatus,
    prepNotes: seq<string>)

  datatype CallNote = CallNote(
    id: string,
    contactId: string,
    summary: string,
    sentiment: Sentiment,
    nextStep: string,
    createdAt: int)
}
