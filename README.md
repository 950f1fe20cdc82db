# Project management model (capabilities, milestones, plans)

A Dafny model of the planning tool's in-memory project store and the pure routines of its
screens. The store keeps capabilities, milestones, plans, users and notifications. Plans go
through a lifecycle of adding, updating, approving and updating one phase at a time. Each change
appends one entry to the plan's history. Around the store sit:

- the plan form: its phase fields, its validation and the save that updates the latest plan or
  adds a new one;
- the capabilities list: its search and filters, its CSV export and its CSV import;
- the plans timeline: its filters, its latest-plan `reduce`, its JSON/CSV export records, the
  window the timeline spans and the phase bars a plan gets;
- the capability form: its defaults and the record it saves, with milestone snapshots;
- the milestone lists and their CSV download;
- the dashboard's workstream-filtered counts.

The store is a class, `ProjectStore.Store`, with one `seq` field per collection. Each action is a
method that reassigns the fields it changes. The source generates ids with a uuid generator and
reads the clock. Here fresh ids, the current time and the acting user are parameters. The
import takes a function giving the id of the k-th record it adds.

Loops the source runs are methods with loop invariants, proved against a specification
function:

- `PlanForm.ValidateForm` with its helpers `CheckPhase` and `CheckSequence`;
- `CapabilitiesManagement.HandleImport`;
- `PlansView.ExportCsv`;
- `Plans.ComparePhaseSets`.

What the source promises is proved as lemmas about those functions.

Dates are texts. The form's and the timeline's `new Date(a) < new Date(b)` is modelled for
the texts a date input produces: a valid `YYYY-MM-DD` text or the empty text. Two
`YYYY-MM-DD` texts are compared character by character. The empty text is an invalid date, and
a comparison with it is false. Other texts are treated as invalid as well; "## Left out" says
where that departs from the JavaScript engine.

Modules, one per file: `Wrappers`, `Seqs`, `Text`, `Dates`, `Types`, `Records`, `Plans`,
`ProjectStore`, `PlanForm`, `CapabilitiesManagement`, `PlansView`, `CapabilityForm`,
`MilestoneManagement`, `Dashboard`.

## Model

| member | source | states |
|---|---|---|
| ProjectStore.Store.constructor | src/stores/projectStore.ts:115-160 | The initial state: the seeded capability and milestone, no plans, the two seeded users, no notifications, current user `1`. |
| ProjectStore.SeedFacts | src/stores/projectStore.ts:116-159 | The seeded capability counts as in progress, it uses the seeded milestone once, and the seeded users have distinct ids. |
| ProjectStore.Store.AddCapability | src/stores/projectStore.ts:162-164 | The capabilities gain exactly one record at the end: the given fields under the new id; earlier records keep their positions. |
| ProjectStore.Store.UpdateCapability | src/stores/projectStore.ts:166-170 | Every capability with the id becomes the patch spread over it; all others stay. |
| ProjectStore.Store.DeleteCapability | src/stores/projectStore.ts:172-174 | The capabilities become those whose id differs, in order. |
| ProjectStore.Store.AddMilestone | src/stores/projectStore.ts:177-179 | The milestones gain exactly one record at the end, under the new id. |
| ProjectStore.Store.UpdateMilestone | src/stores/projectStore.ts:181-185 | The milestone with the id is overlaid by the patch; the capabilities' milestone snapshots are not touched. |
| ProjectStore.Store.DeleteMilestone | src/stores/projectStore.ts:187-189 | The milestone with the id is removed; the capabilities referring to it are not touched. |
| ProjectStore.Store.AddPlan | src/stores/projectStore.ts:192-210 | The plans gain exactly one plan at the end, built by `Plans.NewPlan` with the acting user. |
| ProjectStore.Store.UpdatePlan | src/stores/projectStore.ts:212-237 | Every plan with the id becomes `Plans.UpdatedPlan` of it; all others stay. |
| ProjectStore.Store.DeletePlan | src/stores/projectStore.ts:239-241 | The plans become those whose id differs, in order. |
| ProjectStore.Store.ApprovePlan | src/stores/projectStore.ts:243-275 | Every plan with the id becomes `Plans.ApprovedPlan` of it; all others stay. |
| ProjectStore.Store.UpdatePlanPhase | src/stores/projectStore.ts:277-309 | Every plan with the id becomes `Plans.PhaseUpdatedPlan` of it; all others stay. |
| ProjectStore.Store.ComparePlans | src/stores/projectStore.ts:333-361 | With either id missing, three empty lists. Otherwise, the comparison of the first plans with the two ids over the five phases. |
| ProjectStore.Store.AddUser | src/stores/projectStore.ts:364-366 | The users gain exactly one record at the end, under the new id. |
| ProjectStore.Store.UpdateUser | src/stores/projectStore.ts:368-372 | Every user with the id is overlaid by the patch; all others stay. |
| ProjectStore.Store.AddNotification | src/stores/projectStore.ts:374-385 | The new notification goes to the front, with the new id, the current time and unread. |
| ProjectStore.Store.MarkNotificationRead | src/stores/projectStore.ts:387-391 | Only notifications with the id become read. |
| ProjectStore.Store.MarkAllNotificationsRead | src/stores/projectStore.ts:393-395 | Every notification becomes read. |
| ProjectStore.StatsBounded | src/stores/projectStore.ts:398-406 | In progress, completed and at risk together never exceed the total. |
| ProjectStore.UsageCountFacts | src/stores/projectStore.ts:494-501 | The usage count is at most the number of capabilities. It equals the technical matches plus the business matches minus those matching both, so a capability is counted once. It is zero exactly when no capability refers to the milestone. |
| ProjectStore.MarkAllReadFacts | src/stores/projectStore.ts:393-395 | After marking all read nothing is unread. Each notification keeps its place and changes only its read flag. |
| ProjectStore.MarkReadByIdUnread | src/stores/projectStore.ts:387-391 | After marking one id read, the unread list is exactly the previously unread notifications with another id, in order. |
| ProjectStore.NewNotificationUnread | src/stores/projectStore.ts:374-385 | A notification just added heads the unread list, before the previously unread ones. |
| Records.AddFresh | src/stores/projectStore.ts:162-164 | Appending a record under an id not in use keeps the ids unique. It adds exactly that id and keeps earlier records in place. |
| Records.UpdateByIdEffect | src/stores/projectStore.ts:166-170 | Update by id keeps the length and the positions. A record with the id becomes the update of it, others stay, and an absent id changes nothing. |
| Records.UpdateByIdKeepsIds | src/stores/projectStore.ts:181-185 | An update that leaves ids alone keeps them unique and keeps the id set. |
| Records.DeleteByIdEffect | src/stores/projectStore.ts:172-174 | After delete no record has the id, and the others remain in order. An absent id changes nothing, and deleting twice is deleting once. |
| Types.OverlayPhase | src/stores/projectStore.ts:286-289 | Overlaying an absent phase gives the update alone; an empty update leaves an existing phase as it was. |
| Plans.NewPlanFacts | src/stores/projectStore.ts:192-210 | A new plan is version 1 and a draft whatever status was passed. It has an empty history, equal creation and update times, and the acting user as creator and last updater. It keeps the caller's capability, type, phases and approval. |
| Plans.SpreadGet | src/stores/projectStore.ts:220 | After spreading a partial plan, a property holds the partial's value when the partial has it, and the plan's own value otherwise. |
| Plans.LookupFinds | src/stores/projectStore.ts:227-231 | A property is found in the partial exactly when the partial lists it, with the listed value. |
| Plans.UpdatedPlanHistory | src/stores/projectStore.ts:212-237 | An update appends exactly one `updated` entry by the acting user at the update time. Its changes hold one item per property of the partial, in order, each with the old and the new value. |
| Plans.UpdatedPlanProperties | src/stores/projectStore.ts:212-237 | After an update, last updater is the acting user and update time is now. Every other property takes the partial's value or keeps its own, so the version moves only when the partial sets it. |
| Plans.ApprovedPlanFacts | src/stores/projectStore.ts:243-275 | Approval makes the plan active and records the approver and comment, approved at the current time, which is also the plan's update time. It appends one `approved` entry by the approver at that time, with the new entry id and the single change `status` from old to active, and leaves the other properties alone. |
| Plans.PhaseUpdatedPlanFacts | src/stores/projectStore.ts:277-309 | A phase update replaces only that phase, by the overlay. Other phases, metadata, version, status, approval, capability, type and creation time stay. One `updated` entry by the acting user at the update time is appended; its single change `phases.<name>` goes from the old phase to the overlaid one. |
| Plans.OverlayPhaseFields | src/stores/projectStore.ts:286-289 | Within the replaced phase, each property the update gives wins and each other keeps the old value. |
| Plans.FirstMaxIndex | src/stores/projectStore.ts:317-322 | Gives a position whose version no plan exceeds, with every earlier plan strictly older. |
| Plans.FirstMax | src/stores/projectStore.ts:317-322 | The first plan of maximal version is one of the plans and no plan exceeds its version. |
| Plans.SortByVersionDesc | src/stores/projectStore.ts:321 | The stable sort by decreasing version is sorted and a permutation of its input. |
| Plans.SortHeadIsFirstMax | src/stores/projectStore.ts:320-321 | The head of the sorted plans is the first plan of maximal version. |
| Plans.LatestPlan | src/stores/projectStore.ts:317-322 | Absent exactly when no plan has the capability and type. Otherwise it is a matching plan of maximal version, and the first such plan in store order. |
| Plans.PlanHistory | src/stores/projectStore.ts:324-331 | Empty when no plan has the id. Otherwise the plan's history in order, each entry named after its capability. |
| Plans.PhaseChangesMembers | src/stores/projectStore.ts:354-356 | A change is listed for a phase exactly when the start date, end date or status differs. |
| Plans.DiffPhase | src/stores/projectStore.ts:347-358 | The loop body for one phase pushes what the phase comparison records: added, removed or its changed properties. |
| Plans.ChangedPaths | src/stores/projectStore.ts:353-357 | The `changed` texts of a phase in both plans are `<phase>.<field>` for the differing fields, in order. |
| Plans.ComparePhaseSets | src/stores/projectStore.ts:347-358 | The loop over the five phases yields the rendered comparison over all phases in order. |
| Plans.ComparePlans | src/stores/projectStore.ts:333-361 | With either id missing, three empty lists. Otherwise, the comparison of the two plans' phases. |
| Plans.CompareSame | src/stores/projectStore.ts:333-361 | A plan compared with itself shows no difference. |
| Plans.CompareMembers | src/stores/projectStore.ts:347-358 | Added means absent in the first plan and present in the second, removed is the mirror, and changed is exactly the differing fields of phases in both, each in both directions. |
| Plans.CompareSwap | src/stores/projectStore.ts:347-358 | Swapping the two plans swaps added and removed. |
| PlanForm.LoadedForm | src/components/PlanForm.tsx:41-56 | Without a latest plan the form is blank. Otherwise it holds the plan's status and phases, with a missing requirements or design phase left blank. |
| PlanForm.ChangePhaseFieldEffect | src/components/PlanForm.tsx:96-107 | A change sets one field of one phase; every other field, every other phase and the status stay. |
| PlanForm.PhaseList | src/components/PlanForm.tsx:61-63 | The phases checked for a type are listed without repetition. |
| PlanForm.PhaseErrorsKeys | src/components/PlanForm.tsx:65-78 | A phase records `Start` exactly when its start is empty and `End` exactly when its end is empty. It records `Dates` exactly when both are set and the start is after the end. |
| PlanForm.CheckPhase | src/components/PlanForm.tsx:65-78 | The `forEach` body appends exactly the errors of one phase to those already found. |
| PlanForm.CheckSequence | src/components/PlanForm.tsx:80-90 | The sequence loop appends, for each listed phase after the first, the error for starting before the previous one ends. |
| PlanForm.ValidateForm | src/components/PlanForm.tsx:58-94 | Validation records every error in one pass, in order, and reports valid exactly when none was recorded. |
| PlanForm.PhaseErrorsOverKeys | src/components/PlanForm.tsx:65-78 | The per-phase errors name only listed phases, each for exactly its violated checks. |
| PlanForm.SequenceErrorsKeys | src/components/PlanForm.tsx:80-90 | `<phase>Sequence` is recorded exactly for a listed phase that starts strictly before the previous listed phase ends, both dates set. |
| PlanForm.ErrorKeysExact | src/components/PlanForm.tsx:58-94 | The recorded error keys are exactly the violated checks, in both directions. |
| PlanForm.ValidIffWellScheduled | src/components/PlanForm.tsx:58-94 | The form is valid exactly when every listed phase has both dates, no start after its end, and no start before the previous end. |
| PlanForm.UnlistedPhasesIgnored | src/components/PlanForm.tsx:61-63 | Phases outside the type's list do not affect validation. |
| PlanForm.ValidFormChronological | src/components/PlanForm.tsx:73-90 | For a valid form with date-input dates, each listed phase ends no earlier than it starts. Every later listed phase starts no earlier than any earlier one ends. |
| PlanForm.HandleSubmit | src/components/PlanForm.tsx:109-156 | An invalid form is rejected with its errors and the plans stay. A valid one updates the latest plan of the capability and type when there is one, and otherwise adds exactly one plan. |
| PlanForm.FormUpdateEffect | src/components/PlanForm.tsx:121-134 | Saving over a plan writes the status and all five phases, keeps the version and sets `createdBy` to `Current User`. The history entry lists capabilityId, type, status, phases and metadata. |
| PlanForm.FormMerged | src/components/PlanForm.tsx:121-131 | Spreading the form's data over a plan sets exactly capability, type, status, phases and metadata. |
| PlanForm.FormChangeFields | src/components/PlanForm.tsx:121-131 | The update's changes name the five properties of the form data, in order. |
| PlanForm.SavedPlanHasAllPhases | src/components/PlanForm.tsx:121-145 | A plan added from the form has requirements and design phases even for an implementation plan. |
| CapabilitiesManagement.FilteredFacts | src/components/CapabilitiesManagement.tsx:43-51 | The filtered list keeps, in order, exactly the capabilities that match the search and every filter. |
| CapabilitiesManagement.ResetShowsAll | src/components/CapabilitiesManagement.tsx:101-106 | With an empty search and every filter `all`, every capability is listed. |
| CapabilitiesManagement.IndexOf | src/components/CapabilitiesManagement.tsx:167-173 | `indexOf` is -1 exactly when the header is missing, and otherwise its first position. |
| CapabilitiesManagement.ExportHeaderPositions | src/components/CapabilitiesManagement.tsx:109 | The export puts the seven columns the import looks up at positions 0 to 6. |
| CapabilitiesManagement.ParseImport | src/components/CapabilitiesManagement.tsx:141-183 | The import fails exactly when the first line lacks a required header. Otherwise every record it accepts has a name and a workstream. |
| CapabilitiesManagement.ParseRowsAccepted | src/components/CapabilitiesManagement.tsx:178-181 | Only rows with a non-empty name and workstream are accepted. |
| CapabilitiesManagement.HandleImport | src/components/CapabilitiesManagement.tsx:141-183 | With a missing header, nothing is added and the header error is reported. Otherwise every accepted row is added in order under a fresh id, and the count is the number added. |
| CapabilitiesManagement.ParseExportedLine | src/components/CapabilitiesManagement.tsx:108-124 | An exported line of a capability with clean fields, a name and a workstream reads back as its seven core fields. |
| CapabilitiesManagement.RowRecordOfExport | src/components/CapabilitiesManagement.tsx:166-175 | The cells of an exported row, found by header name, give the capability's core with the import's defaults. |
| CapabilitiesManagement.SwapColumns | src/components/CapabilitiesManagement.tsx:166-175 | Cells are looked up by header name, so column order does not matter: exchanging two columns of a file with distinct headers, in the header line and the row alike, builds the same record. |
| CapabilitiesManagement.HandleExportLines | src/components/CapabilitiesManagement.tsx:108-124 | The export covers exactly the capabilities the search and filters show, in store order: the header line, then one line per shown capability. |
| CapabilitiesManagement.ExportedLines | src/components/CapabilitiesManagement.tsx:122-124 | The exported text splits into the header line and one line per capability. |
| CapabilitiesManagement.ExportedHeaders | src/components/CapabilitiesManagement.tsx:143-147 | The exported header line reads back as the nine headers and carries every required one. |
| CapabilitiesManagement.ExportImportRoundTrip | src/components/CapabilitiesManagement.tsx:108-183 | Exporting clean capabilities with names and workstreams and importing the text gives back one record per capability, in order, with its seven core fields. |
| PlansView.FilteredCapabilitiesFacts | src/components/PlansView.tsx:40-46 | The filtered list keeps, in order, exactly the capabilities of the chosen workstream and status; `all` disables a test. |
| PlansView.ReduceLatestIsFirstMax | src/components/PlansView.tsx:54-61 | The reduce returns the first plan of maximal version. |
| PlansView.ReduceStep | src/components/PlansView.tsx:57-59 | One reduce step keeps the first maximum. |
| PlansView.SameLatestAsStore | src/components/PlansView.tsx:54-61 | The view's latest plan is the store's for every capability and type. |
| PlansView.LatestPlanFacts | src/components/PlansView.tsx:49-61 | Absent exactly when no plan matches. Otherwise it is a matching plan of maximal version, the first such in store order. |
| PlansView.ExportData | src/components/PlansView.tsx:64-81 | One export item per capability of the store. |
| PlansView.ExportDataFacts | src/components/PlansView.tsx:64-81 | The i-th item describes the i-th capability. Its plan is null exactly when none of that type exists, and otherwise is the latest plan's version and phases. |
| PlansView.ExportCsv | src/components/PlansView.tsx:93-116 | The rows pushed one item at a time and joined give the header line and one quoted line per item. |
| PlansView.CsvTextLines | src/components/PlansView.tsx:93-116 | Without line breaks in the data, the CSV splits back into the header line and exactly one line per item, in order. |
| PlansView.CsvDateColumns | src/components/PlansView.tsx:98-101 | The date columns are the latest aspirational requirements start and UAT end, then the implementation development start and UAT end, empty where missing. |
| PlansView.PlanDatesMembers | src/components/PlansView.tsx:129-134 | The dates collected are exactly the start and end dates of phases having both. |
| PlansView.Earliest | src/components/PlansView.tsx:146 | The minimum is one of the dates and no date precedes it. |
| PlansView.Latest | src/components/PlansView.tsx:147 | The maximum is one of the dates and precedes none. |
| PlansView.TimelineRangeFacts | src/components/PlansView.tsx:127-153 | The window is padded six months each side. Every dated phase's dates lie between its anchors, the anchors are such dates, and with none the window is centred on now. |
| PlansView.BarPhasesFacts | src/components/PlansView.tsx:278-297 | A bar is drawn exactly for a phase of the type's list that the plan has and whose end is not before its start, in list order. An implementation plan never shows requirements or design. |
| CapabilityForm.InitialFormData | src/components/CapabilityForm.tsx:19-30 | A new form has status `Not Started`, RAG `Green` and every other field empty. An edit form shows the capability's fields and milestone ids, with those defaults in place of an empty status or RAG. |
| CapabilityForm.ChosenMilestoneFacts | src/components/CapabilityForm.tsx:32-53 | The chosen milestone is absent exactly when no milestone of that type has the id. Otherwise it is the `{id, name, date}` copy of the first such milestone; the other type never qualifies. |
| CapabilityForm.SaveReplacesAllButId | src/components/CapabilityForm.tsx:41-57 | Saving over a capability replaces every field but its id. The lead's avatar is dropped, and a milestone the form no longer finds is cleared. |
| CapabilityForm.HandleSubmit | src/components/CapabilityForm.tsx:35-64 | One store call. Editing replaces the edited capability's data and keeps its id and every other capability. Adding appends the data under a new id. |
| MilestoneManagement.Partition | src/components/MilestoneManagement.tsx:27-28 | The technical and business lists partition the milestones by type, each keeps store order, and their lengths add up. |
| MilestoneManagement.RowColumns | src/components/MilestoneManagement.tsx:50 | A line splits at its commas into name, date, type, the quoted description, status and usage count. |
| MilestoneManagement.CsvTextLines | src/components/MilestoneManagement.tsx:47-51 | The text splits into the header line and exactly one line per milestone, in store order, each with its usage count. |
| MilestoneManagement.EmptyDownload | src/components/MilestoneManagement.tsx:47-51 | With no milestone the text is the header line and an empty line. |
| Dashboard.FilteredCapabilitiesFacts | src/components/Dashboard.tsx:27-29 | Under `all` the list is the store's. Otherwise it holds exactly the capabilities of the workstream, in order. |
| Dashboard.StatsBounded | src/components/Dashboard.tsx:32-38 | The total is the filtered length. In progress, at risk and completed together never exceed it, and neither does overdue. |
| Dashboard.AllMatchesStore | src/components/Dashboard.tsx:32-38 | Under `all` the four shared counts equal the store's statistics, and overdue is the number of red capabilities. |
| Dashboard.WorkstreamWithinAll | src/components/Dashboard.tsx:27-38 | A single workstream's counts never exceed those under `all`. |

## Left out

- Rendering, dialogs, badges, colour tables, the sidebar and the view switch: they are user interface with no state the model needs.
- Browser input and output is not modelled: Blob, object URLs, anchor clicks, `encodeURI`, the file reader, toasts, `confirm` and `alert`. The model stops at the CSV text and at the file's text handed to the import.
- The JSON export's `JSON.stringify` text: a foreign serialiser. The records it serialises are modelled (`PlansView.ExportData`).
- The uuid generator, the clock and the current user are parameters.
- Store methods do not require their new id to be unused, because the source does not check it. `Records.AddFresh` states what holds when it is.
- `getRecentActivity`, `getUpcomingDeliveries`, `getGanttData` and `getAssignedPhases`: they are not part of this model. They depend on the wall clock or locale-sensitive sorting, and their results only feed the dashboard's rendering.
- `GetCapabilityPlans`, `GetLatestPlan`, `GetPlanHistory`, `GetCapabilitiesStats`, `GetUnreadNotifications` and `GetUsageCount` on `ProjectStore.Store` read the fields and call the value-level functions (`Plans.CapabilityPlans`, `Plans.LatestPlan`, `Plans.PlanHistory`, `ProjectStore.CapabilityStats`, `ProjectStore.Unread`, `ProjectStore.UsageCount`). The properties are stated on those functions.
- In-place sharing of the history array between the old and the new plan object is not modelled: history is a value that grows by one entry. Likewise, when a partial given to `updatePlan` carries `history`, the source records as that change's `newValue` the very array it then pushes the new entry onto, so the recorded value ends up holding that entry; the model (`Plans.RecordedValue`) records the array without it. The plan form never sends `history`.
- In-place sharing of the metadata object is modelled only within one update: the `newValue` recorded for a partial's metadata shows the `lastUpdatedBy` that same update writes into it.
- Plans.UpdatedPlan: a partial's metadata object stays shared with the stored plan. A later update whose partial has no metadata writes `lastUpdatedBy` into that same object, which also rewrites the `newValue` of the earlier history entry. The model keeps the earlier entry as it was recorded. The form always sends a fresh metadata object, so this arises only for other callers of `updatePlan`.
- ProjectStore.Store.UpdatePlanPhase: the source types its phase parameter as `keyof PlanPhase`, a field name such as `startDate`, yet indexes `phases` with it. The model takes a phase name, following the evident intent; nothing in the source calls `updatePlanPhase`.
- The floating-point timeline layout is not modelled: positions, bar widths, the 5% minimum and grid lines.
- `getTimelineHeaders` (calendar loops and locale formatting) is not modelled.
- The six-month padding of the timeline window is kept symbolic: an anchor date and a month shift, without calendar arithmetic.
- PlansView.Earliest / PlansView.Latest: `Math.min`/`Math.max` over parsed times are modelled as the character order of the date texts. That order is the time order only for `YYYY-MM-DD` texts.
- `PlanComparison.tsx` and `PlanHistory.tsx` read fields the store does not return or call it with other arguments; they are not part of this model.
- The dashboard's activity and delivery lists are left out, because they read fields that do not exist.
- `toLowerCase` in the capability search is modelled as ASCII lower-casing; Unicode case folding is left out.
- The CSV writers' naive quoting is reproduced as written: embedded quotes are not doubled as section 2 of RFC 4180 requires. The round-trip lemmas therefore require fields without commas, quotes, line breaks or surrounding white space.
- The milestone search box is not a parameter of the lists, because the lists never read it.
- MilestoneManagement.CsvTextLines: requires at least one milestone. The empty list is stated separately by `MilestoneManagement.EmptyDownload`.
- The milestone CSV header is built by joining its six column names; its single-line shape is proved, not its equality with the literal text.
- The date pickers are not modelled: the form's dates are any texts, and the model's verdicts match the engine's only for the texts a date input produces (empty, or a valid `YYYY-MM-DD`).
- PlanForm.ValidateForm / PlansView.DrawsBar: every date text other than a `YYYY-MM-DD` one is treated as an invalid date, whose comparisons are false. The JavaScript engine parses many other texts ("2025-1-5", "Jan 20, 2025") as real dates and rolls an impossible day such as "2025-02-30" over into the next month; for such texts the source may report an error or skip a bar where the model does not.
- PlanForm.HandleSubmit: the toast and the `try`/`catch` around the store call are not modelled, because the store actions cannot fail.
