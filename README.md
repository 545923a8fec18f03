# Call-assistant dashboard: a Dafny model

This project models the logic behind a sales-call dashboard: a client-side store of contacts, a call queue and call notes, an HTTP endpoint that writes a call playbook, and the selectors that the dashboard panels compute from the store.

- **The store** (`call_assistant.dfy`). A reducer handles five actions: schedule a call, complete a call, update a contact, add a note and add a persona insight. It is written as the pure function `CallAssistant.Reduce`. The provider's single mutable state cell is the class `CallAssistant.Store`, whose five methods each replace the state with what the reducer returns. The UUID generator and the clock are parameters (`freshId`, `now`). The store's invariant is that task ids are unique, which is what a fresh UUID per task secures.
- **The playbook endpoint** (`call_playbook.dfy`). `CallPlaybook.Post` validates the request and composes the five-part playbook from the objective's templates and the contact's persona entry. It fails with "Invalid payload" (400) or "Unable to synthesize plan" (500). Every template phrase is spelled out exactly as the endpoint writes it.
- **The panels.**
  - `upcoming_calls.dfy`: the open calls, earliest first; the prep-note parser; the scheduling form and its submission, as the class `UpcomingCalls.SchedulePanel`.
  - `pipeline_board.dfy`: the six status columns and the lead-count label.
  - `notes_timeline.dfy`: the notes, newest first, each with its contact looked up.
  - `dashboard_shell.dfy`: the follow-up count, the calls-today count and the active pipeline value.
- **Helpers.** `sequences.dfy` models JavaScript's `filter`, `find`, stable `sort`, `Array.from(new Set(...))` and `reduce`. `text.dfy` models `trim`, `split`, `toLowerCase` and `includes`. `domain.dfy` holds the entity records. `wrappers.dfy` holds `Option` and `Result`.

Timestamps are integers; an ISO date string is represented by the instant it denotes. JavaScript's `Array.prototype.sort` is stable. It is modelled as a stable insertion sort, `Sequences.SortBy`, on an integer key. The newest-first sort uses the negated creation time as its key.

Where the intended behaviour and the code differ, the model follows the code. Completing a call that is already completed logs a second note, because the lookup at `src/context/call-assistant-context.tsx:106` does not look at the status (`CallAssistant.CompleteTwiceLogsTwice`).

## Model

| member | source | states |
|---|---|---|
| CallAssistant.Reduce | src/context/call-assistant-context.tsx:83-172 | The contacts keep their number and the ids at each position. The queue and the notes never shrink, and each grows by at most one. Each collection changes only under the actions that concern it. That no task or note is lost or replaced follows from ScheduleAddsTask, CompleteKnownCall and AddNotePrepends. |
| CallAssistant.ReduceSchedule | src/context/call-assistant-context.tsx:85-102 | The queue grows by one and contacts and notes are kept. ScheduleAddsTask gives the new queue's contents and ScheduleSortsQueue its order. |
| CallAssistant.ScheduleAddsTask | src/context/call-assistant-context.tsx:85-102 | Scheduling grows the queue by exactly one. The new queue is a permutation of the old queue plus the new task: status Scheduled, the payload's fields, prep notes defaulting to empty. Contacts and notes are unchanged. |
| CallAssistant.ScheduleSortsQueue | src/context/call-assistant-context.tsx:97-101 | After scheduling, the queue is in ascending order of scheduled time. |
| CallAssistant.ScheduleIsStable | src/context/call-assistant-context.tsx:97-101 | Calls due at the same instant keep their relative order, and the new call goes after the ones already booked for its time. |
| CallAssistant.ScheduleIntoSortedQueue | src/context/call-assistant-context.tsx:95-101 | On an ordered queue, the new task is inserted after every task due no later and before every task due later. The rest of the queue is unchanged. |
| CallAssistant.ScheduleLatestGoesLast | __tests__/call-assistant-context.test.tsx:16-27 | A call due no earlier than every queued call becomes the last entry, carrying the requested objective. |
| CallAssistant.ReduceComplete | src/context/call-assistant-context.tsx:104-132 | The queue keeps its length, contacts are kept, and at most one note is added. CompleteUnknownCall and CompleteKnownCall give the exact result. |
| CallAssistant.CompleteMatching | src/context/call-assistant-context.tsx:109-116 | The queue keeps its length. Each task differs from before in its status at most. |
| CallAssistant.CompleteUnknownCall | src/context/call-assistant-context.tsx:106-107 | Completing an id no task carries returns the state unchanged. |
| CallAssistant.CompleteKnownCall | src/context/call-assistant-context.tsx:104-132 | For a known id, the queue keeps its length and order. Exactly the calls with that id become Completed, every other field kept. Contacts are unchanged. One note is prepended for the first such task: its contact, the payload's summary, sentiment and next step, and the time now. |
| CallAssistant.CompleteUniqueCall | src/context/call-assistant-context.tsx:104-132 | With unique task ids, completing changes exactly that one task, and the queue and notes are given in full. |
| CallAssistant.CompleteTwiceLogsTwice | src/context/call-assistant-context.tsx:106-131 | Completing the same call again leaves the queue as it was, but logs a second note. |
| CallAssistant.UpdateContactEffect | src/context/call-assistant-context.tsx:133-147 | Only contacts with the id change, and only their status and last interaction, which defaults to now. Count and order are preserved, and queue and notes are unchanged. |
| CallAssistant.UpdateUnknownContact | src/context/call-assistant-context.tsx:133-147 | An update for an id no contact carries changes nothing. |
| CallAssistant.UpdateContactIdempotent | src/context/call-assistant-context.tsx:133-147 | Applying the same update twice at one time is applying it once. |
| CallAssistant.AddNotePrepends | src/context/call-assistant-context.tsx:148-153 | The note becomes the first note, the old notes follow it, and nothing else changes. |
| CallAssistant.ReduceUpdateContact | src/context/call-assistant-context.tsx:133-147 | The contact list keeps its length. |
| CallAssistant.ReducePersonaInsight | src/context/call-assistant-context.tsx:154-168 | The contact list keeps its length. |
| CallAssistant.PersonaInsightEffect | src/context/call-assistant-context.tsx:154-168 | For the matching contact, the new tags are exactly: the old tags, the persona and the insight, with no value repeated. Its other fields are kept. Other contacts, the queue and the notes are unchanged. |
| CallAssistant.InsightTagsAppend | src/context/call-assistant-context.tsx:160 | For distinct tags, the old tags keep their order. The persona, then the insight, are appended unless already present. |
| CallAssistant.PersonaInsightIdempotent | src/context/call-assistant-context.tsx:154-168 | Adding the same persona insight twice is the same as adding it once. |
| CallAssistant.AppendKeepsTaskIdsUnique | src/context/call-assistant-context.tsx:86-97 | Appending a task under a fresh id keeps task ids unique. |
| CallAssistant.PermutationKeepsTaskIdsUnique | src/context/call-assistant-context.tsx:97-101 | Reordering the queue keeps task ids unique. |
| CallAssistant.ScheduleKeepsTaskIdsUnique | src/context/call-assistant-context.tsx:85-102 | Scheduling under a fresh id keeps task ids unique. |
| CallAssistant.CompleteKeepsTaskIdsUnique | src/context/call-assistant-context.tsx:109-116 | Completing calls keeps task ids unique. |
| CallAssistant.ReduceKeepsTaskIdsUnique | src/context/call-assistant-context.tsx:83-172 | Every action preserves unique task ids, given a fresh id for a new task. |
| CallAssistant.Store.constructor | src/context/call-assistant-context.tsx:66-70 | The store starts from the seed state, which must have unique task ids. |
| CallAssistant.Store.ScheduleCall | src/context/call-assistant-context.tsx:177-182 | The state becomes the reducer's result and the invariant holds. The queue grew by one and is sorted. |
| CallAssistant.Store.CompleteCall | src/context/call-assistant-context.tsx:184-189 | The state becomes the reducer's result and the invariant holds. |
| CallAssistant.Store.UpdateContact | src/context/call-assistant-context.tsx:191-193 | The state becomes the reducer's result and the invariant holds. |
| CallAssistant.Store.AddNote | src/context/call-assistant-context.tsx:195-197 | The state becomes the reducer's result and the invariant holds. |
| CallAssistant.Store.AddPersonaInsight | src/context/call-assistant-context.tsx:199-201 | The state becomes the reducer's result and the invariant holds. |
| CallPlaybook.LowerOr | src/app/api/call-playbook/route.ts:19 | A given value is lower-cased character by character, keeping its length; a missing one gives the default. |
| CallPlaybook.FirstName | src/app/api/call-playbook/route.ts:17 | The first name is a prefix of the name with no space in it, and it stops at the first space when there is one. |
| CallPlaybook.NormalizeTone | src/app/api/call-playbook/route.ts:150 | A sent tone is lower-cased character by character; no tone gives "calibrated". |
| CallPlaybook.ParseObjective | src/app/api/call-playbook/route.ts:141 | A requested objective is accepted only when it is the table key of the objective it resolves to. |
| CallPlaybook.ParseObjectiveKey | src/app/api/call-playbook/route.ts:5-129 | Each of the five objectives is found under its own key. |
| CallPlaybook.DiscoveryTemplate | src/app/api/call-playbook/route.ts:5-129 | Every objective has exactly three discovery questions; for Discovery, Qualification and Negotiation the first one contains the lower-cased challenge, or the objective's own topic when none is sent. |
| CallPlaybook.DifferentiationTemplate | src/app/api/call-playbook/route.ts:5-129 | Every objective has exactly three differentiation statements. |
| CallPlaybook.OpenerTemplate | src/app/api/call-playbook/route.ts:5-129 | The Discovery opener contains the contact's first name, the tone (default "calibrated") and the company. The Qualification opener contains the tone (default "measured"). Every other opener starts with the contact's full name, and the Negotiation opener also names the company. |
| CallPlaybook.ClosingTemplate | src/app/api/call-playbook/route.ts:5-129 | Every closing names the contact's company and ends with a period. |
| CallPlaybook.NextStepsTemplate | src/app/api/call-playbook/route.ts:5-129 | Every objective has exactly three next steps. |
| CallPlaybook.Compose | src/app/api/call-playbook/route.ts:150-163 | Discovery has four entries, the last the persona insight from the first key point. Differentiation has three, the first the second key point. There are three next steps. The opener carries the persona headline, and the closing carries the persona's closing style. |
| CallPlaybook.Post | src/app/api/call-playbook/route.ts:131-180 | The result is "Invalid payload" exactly when a request object was read but lacks a contact, or names no objective or an unknown one. The result is a playbook exactly when the contact and a known objective are present and the contact's persona is in the table. Every other request, including an unreadable body, ends in the 500 failure. |
| CallPlaybook.PlaybookShape | src/app/api/call-playbook/route.ts:152-163 | The opener is the objective's opener, a space, the persona headline and a period. Discovery holds the objective's three questions, then the persona insight from the first key point. Differentiation holds the second key point, then the objective's first two statements. The closing is the objective's closing, a space and the persona's closing style. The next steps are the objective's own three, verbatim. |
| CallPlaybook.UnknownObjectiveRejected | src/app/api/call-playbook/route.ts:141-146 | An objective outside the five keys gets "Invalid payload" with status 400 and no playbook. |
| CallPlaybook.DiscoveryOpenerGreetsFirstName | src/app/api/call-playbook/route.ts:16-17 | The Discovery opener contains the contact's first name: the part of the name before the first space, which has no space in it. |
| CallPlaybook.DiscoveryNextStepNamesCompany | src/app/api/call-playbook/route.ts:33-34 | The first Discovery next step contains the contact's company. |
| CallPlaybook.OpenerCarriesTone | src/app/api/call-playbook/route.ts:150 | The Discovery and Qualification openers contain the lower-cased tone, or "calibrated" when none was sent. This holds for Qualification too, whose template would otherwise default to "measured". |
| CallPlaybook.FirstQuestionCarriesChallenge | src/app/api/call-playbook/route.ts:18-21 | For Discovery, Qualification and Negotiation, the first question contains the lower-cased challenge, or the objective's default topic. |
| CallPlaybook.ChallengeIgnored | src/app/api/call-playbook/route.ts:66-70 | Product Demo and Proposal Review answers do not depend on the challenge. |
| CallPlaybook.PersonaReachesPlaybook | src/app/api/call-playbook/route.ts:153-162 | The persona's headline, both key points and closing style appear in the playbook. |
| UpcomingCalls.Upcoming | src/components/upcoming-calls.tsx:38-48 | There are never more upcoming calls than queued calls. |
| UpcomingCalls.UpcomingIsTheOpenCalls | src/components/upcoming-calls.tsx:40-41 | The upcoming list is a permutation of the queue's calls that are not Completed. A queued call is listed exactly when it is not Completed. |
| UpcomingCalls.UpcomingIsSorted | src/components/upcoming-calls.tsx:42-46 | The upcoming list is in ascending order of scheduled time. |
| UpcomingCalls.UpcomingIsStable | src/components/upcoming-calls.tsx:42-46 | Open calls due at the same instant keep their queue order. |
| UpcomingCalls.UpcomingOfSortedQueue | src/components/upcoming-calls.tsx:38-48 | On a queue in time order, the list is the queue with completed calls dropped. |
| UpcomingCalls.ShownCalls | src/components/upcoming-calls.tsx:178-180 | Only open calls whose contact exists are listed, and no more than the upcoming calls. An upcoming call is listed exactly when its contact exists. |
| UpcomingCalls.ShownCallsSorted | src/components/upcoming-calls.tsx:178-180 | The listed calls are in ascending order of scheduled time. |
| UpcomingCalls.ObjectiveCopy | src/components/upcoming-calls.tsx:9-15 | Every objective has a non-empty description. |
| UpcomingCalls.ObjectiveCopyDistinct | src/components/upcoming-calls.tsx:9-15 | No two objectives share a description. |
| UpcomingCalls.TrimAll | src/components/upcoming-calls.tsx:60 | Each line is replaced by its trim, one for one. |
| UpcomingCalls.ParsePrepNotes | src/components/upcoming-calls.tsx:59-61 | No note is blank, and there are no more notes than lines. PrepNotesAreTrimmedLines states the rest. |
| UpcomingCalls.PrepNotesAreTrimmedLines | src/components/upcoming-calls.tsx:59-61 | Every parsed prep note is non-blank and already trimmed, and is the trim of some line of the text. There are no more notes than lines, and every line with content yields a note. |
| UpcomingCalls.PrepNotesGuardIsShortcut | src/components/upcoming-calls.tsx:59-61 | The empty-text guard agrees with the general rule: empty text yields no notes either way. |
| UpcomingCalls.SubmittedPayload | src/components/upcoming-calls.tsx:54-62 | A submission always sends a prep-note list, and none of its notes is blank. |
| UpcomingCalls.Submittable | src/components/upcoming-calls.tsx:52 | A submittable form has both a customer and a time, so it is never the initial form. |
| UpcomingCalls.InitialFormNotSubmittable | src/components/upcoming-calls.tsx:25-31 | The initial form has neither a customer nor a time, so submitting it does nothing. |
| UpcomingCalls.SchedulePanel.constructor | src/components/upcoming-calls.tsx:35-36 | The panel starts collapsed with the initial form. |
| UpcomingCalls.SchedulePanel.Toggle | src/components/upcoming-calls.tsx:79 | The toggle flips the panel and keeps the form. |
| UpcomingCalls.SchedulePanel.Edit | src/components/upcoming-calls.tsx:96-98 | An input edit sets the form and keeps the panel as it is. |
| UpcomingCalls.SchedulePanel.HandleSubmit | src/components/upcoming-calls.tsx:50-66 | Without a customer or a time, nothing changes. Otherwise the store schedules the call with the parsed prep notes, so the queue grows by one and stays sorted. The form then resets and the panel collapses. |
| PipelineBoard.StatusOrderIsComplete | src/components/pipeline-board.tsx:9-16 | The board has a column for every status, and no status twice. |
| PipelineBoard.Grouped | src/components/pipeline-board.tsx:30-35 | There are exactly six columns, in the order New, Discovery, Proposal, Negotiation, Won, Lost. Every contact in a column has that column's status. |
| PipelineBoard.ContactInItsColumn | src/components/pipeline-board.tsx:33 | A contact is in a column exactly when the column is for its status. |
| PipelineBoard.ColumnSizesSum | src/components/pipeline-board.tsx:30-35 | The column sizes add up to the number of contacts. |
| PipelineBoard.ColumnsKeepOrder | src/components/pipeline-board.tsx:33 | Within a column, contacts keep their order from the contact list. |
| PipelineBoard.LeadLabel | src/components/pipeline-board.tsx:61 | The label is the count followed by " lead". LeadLabelPlural states the plural. |
| PipelineBoard.LeadLabelPlural | src/components/pipeline-board.tsx:61 | The label starts with the decimal digits of the count, which denote the count, and ends in "s" exactly when the count is not one. For one it reads "1 lead". |
| NotesTimeline.Entries | src/components/notes-timeline.tsx:17-23 | The timeline has as many entries as there are notes. |
| NotesTimeline.EntriesArePermutation | src/components/notes-timeline.tsx:19 | The timeline is a permutation of the notes. |
| NotesTimeline.EntriesNewestFirst | src/components/notes-timeline.tsx:19-21 | Each entry was created no earlier than every entry below it. |
| NotesTimeline.EntriesAreStable | src/components/notes-timeline.tsx:19-21 | Notes created at the same instant keep their stored order. |
| NotesTimeline.EntriesOfNewestFirstNotes | src/components/notes-timeline.tsx:19-21 | Notes already stored newest first are shown as stored. |
| NotesTimeline.ContactFor | src/components/notes-timeline.tsx:35 | A contact is found exactly when some contact carries the note's contact id. The one found is the first such contact. |
| NotesTimeline.Timeline | src/components/notes-timeline.tsx:34-43 | There is one line per note, in timeline order. A contact name is shown exactly when the note's contact exists, and it is the name of the first contact carrying the note's contact id. |
| DashboardShell.ScheduledToday | src/components/dashboard-shell.tsx:16-24 | Calls today never outnumber the queued calls. |
| DashboardShell.FollowUps | src/components/dashboard-shell.tsx:26 | Follow-ups never outnumber the queued calls. The count is zero exactly when no queued call needs a follow-up. |
| DashboardShell.ScheduleKeepsFollowUps | src/components/dashboard-shell.tsx:26 | Scheduling a call leaves the follow-up count unchanged. |
| DashboardShell.CompleteNeverAddsFollowUps | src/components/dashboard-shell.tsx:26 | Completing a call never raises the follow-up count. |
| DashboardShell.PipelineValue | src/components/dashboard-shell.tsx:28-30 | The value of the active contacts equals the sum over all contacts of each one's contribution: its annual value when its status is Discovery, Proposal or Negotiation, otherwise zero. |
| DashboardShell.PipelineValueConcat | src/components/dashboard-shell.tsx:28-30 | The pipeline value adds up over consecutive stretches of contacts. |
| DashboardShell.PipelineValueReplace | src/components/dashboard-shell.tsx:28-30 | Replacing one contact changes the pipeline value by exactly the change in its contribution: its annual value if its status is Discovery, Proposal or Negotiation, otherwise nothing. |
| DashboardShell.InactiveValueIgnored | src/components/dashboard-shell.tsx:29 | Changing a New, Won or Lost contact's annual value leaves the pipeline value unchanged. |
| DashboardShell.PipelineValueNonNegative | src/components/dashboard-shell.tsx:28-30 | With no negative annual values, the pipeline value is not negative. |
| Sequences.Filter | src/components/dashboard-shell.tsx:26 | Every kept element satisfies the test and comes from the input, and an input element is kept exactly when it satisfies the test. FilterConcat and FilterPermutation give order and multiplicity. |
| Sequences.SumBy | src/components/dashboard-shell.tsx:28-30 | With no negative values the sum is not negative. SumByConcat states that the sum adds over concatenation. |
| Sequences.Find | src/context/call-assistant-context.tsx:106 | The result is absent exactly when no element matches. Otherwise it is the first element that matches. |
| Sequences.SortByPermutation | src/context/call-assistant-context.tsx:97-101 | The sort returns a permutation of its input. |
| Sequences.SortBySorted | src/context/call-assistant-context.tsx:97-101 | The sort's result is in ascending order of the key. |
| Sequences.SortByStable | src/context/call-assistant-context.tsx:97-101 | Elements with equal keys keep their relative order, as JavaScript's stable sort does. |
| Sequences.Dedup | src/context/call-assistant-context.tsx:160 | The result has no duplicates and holds exactly the input's values. |
| Sequences.DedupFirstOccurrenceOrder | src/context/call-assistant-context.tsx:160 | The result lists values in the order of their first occurrence in the input, as a `Set` iterates in insertion order. |
| Text.Trim | src/components/upcoming-calls.tsx:60 | The result is a piece of the input that neither starts nor ends with whitespace, and everything before and after that piece is whitespace. |
| Text.TrimEmpty | src/components/upcoming-calls.tsx:60-61 | Trimming leaves nothing exactly when the line is all whitespace, which is when `.filter(Boolean)` drops it. |
| Text.TrimOfTrimmed | src/components/upcoming-calls.tsx:60 | A line that neither starts nor ends with whitespace is its own trim. |
| Text.Split | src/components/upcoming-calls.tsx:60 | There is one more piece than there are separators, no piece holds a separator, and the first piece begins the input and ends at its first separator. |
| Text.NatToStringValue | src/components/pipeline-board.tsx:61 | The decimal rendering of a count denotes that count. |
| Text.JoinSplit | src/components/upcoming-calls.tsx:60 | Joining the pieces of a split restores the text. |
| Text.Lower | src/app/api/call-playbook/route.ts:150 | Lower-casing keeps the length and lowers each character independently. |

## Left out

- JSX rendering, CSS classes and the React hook machinery (`useMemo`, `useCallback`, context creation) are UI plumbing. Only the values the selectors compute are modelled.
- `request.json()`, `NextResponse` and the HTTP transport are not modelled. A body that cannot be read is `None`, and the response is a `Result` carrying a message and a status code.
- The playbook fetch in `src/components/script-workbench.tsx` is network I/O. That component, `metric-grid.tsx`, `action-playbook.tsx` and `call-execution-console.tsx` are thin UI over state already modelled.
- `crypto.randomUUID`, `Math.random` and `new Date()` are nondeterministic. Fresh ids and the current time are parameters, and the fallback id format `id-…` is not modelled.
- CallAssistant.Store.ScheduleCall: requires an id no queued task carries. The source relies on UUIDs not colliding rather than checking.
- ISO-8601 parsing, `toISOString` and `getTime` are not modelled. Timestamps are integers, so an invalid date, whose `NaN` breaks the sort comparator, cannot arise. `toISOString` on an invalid date throws, and that is not modelled either.
- DashboardShell.ScheduledToday: the local calendar-day comparison depends on the platform clock and time zone. It is the parameter `isToday`.
- `Intl.NumberFormat` and the date formatters and `capitalize` of `@/lib/utils` are library formatting. `@/lib/utils` is not part of this model.
- The contents of `@/lib/mock-data` (the seeds and the persona table) are not part of this model. The persona table is an abstract map.
- CallPlaybook.Post: requires every persona entry to have at least two key points. With one key point the source's `differentiation[0]` is `undefined`, which the JSON response carries as `null`. With none, `discovery[3]` also reads "Inject persona insight: undefined".
- CallPlaybook.Post: the request is modelled as four typed optional fields. A body that is JSON `null` makes the destructuring at `route.ts:134` throw (500) and is modelled as an unreadable body (`None`). A truthy `contact` that is not an object, a `tone` that is not a string, or, for Discovery, Qualification and Negotiation, a `challenge` that is not a string, makes the source throw (500); these cannot be expressed here. Product Demo and Proposal Review never read the challenge (`route.ts:66`, `route.ts:87`), so there any challenge is ignored, as `ChallengeIgnored` states.
- CallPlaybook.Post: JavaScript prototype keys are not modelled. An objective such as "constructor" passes the key check at `route.ts:141` and then throws (500); here every string other than the five keys is an unknown objective (400).
- Text.Lower: only ASCII letters are lowered. Full Unicode case mapping of `toLowerCase` is not modelled.
- `console.error` in the endpoint's catch block is logging only.
- DashboardShell.PipelineValue: `annualValue` is a JavaScript number, modelled as an integer. The sums are exact only for integral values whose totals stay below 2^53. Fractional values, which floating-point addition rounds, are not modelled.
- UpcomingCalls.SchedulePanel.Edit: replaces the whole form, where each input handler replaces one field.
- The per-column accent classes and the sentiment colours and upper-casing in the panels are presentation only.
