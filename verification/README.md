# Rahal in Dafny

A model of the car rental system Rahal, and proofs about it. The parts modelled are the ones whose
behaviour spans several operations:

- **The booking life cycle** (`Reservations`, `ReservationSteps`, `ReservationStore`): the
  transactions of the reservation store, for customers, sales, administrators, the expiry sweep and
  the fleet office. The repository class keeps no state of its own, so each is a function from the
  store to a reply with the new store. A transaction is one step, with its reads and writes together,
  except where blocks, bookings and handovers depend on what comes between: a fleet block is checked
  and inserted in two steps, a confirmation reads and writes in two, and a vehicle edit writes a
  status it read at any earlier time. `ReservationSteps` is about one request's row,
  `ReservationStore` about the tables and whole runs, `FleetBlocks` about blocks and bookings,
  `Handovers` about vehicles out with customers, `WholeRental` follows one rental from its
  submission to its completion, and `ReachedGaps` has runs in which things go wrong.
- **The sales workspace** (`SalesWorkspace`, `SalesRuns`): a class with the queue and the open review
  it caches, the buttons it enables, and how its cache relates to the store while it acts alone or
  among others.
- **The customer's requests** (`CustomerRequests`): replies, answers to offers, filters and the
  progress track, against the same store.
- **The reservation wizard** (`Wizard`): four saved stages, four effects with requests that are
  aborted when their inputs change, buttons whose requests are not, and the draft records of the
  server.
- **Exact algorithms**: the report export (`Csv`), the car list (`FleetList`), the fleet calendar
  (`FleetCalendar`), the hours of a branch (`BranchHours`), the trend chart (`TrendChart`), the image
  list (`VehicleImages`), the location picker (`LocationPicker`).
- **The scene's frame loop** (`DriveScene`), **the API configuration** (`ApiConfig`) and **the
  notification center** (`Inbox`).

`Util` holds optional values, filtering and trimming. Times are integer milliseconds, calendar dates
are UTC midnights, measures and money are exact numbers. Components that change their fields are
classes; each method's `ensures` gives the whole new view as a function of the old one, and the
lemmas are about those functions. `dafny verify dfyconfig.toml` checks the project.

Where the proofs showed that the code does something else than its documentation or its reader might
expect, the code was kept and the exact condition is stated:

- The repository's README asks that every important action is auditable (line 39). An answer to an
  offer that has lapsed moves the request back to review without a timeline entry: the timeline is
  gapless exactly when there is no such answer (`ReservationStore.TimelineGapless`; the run with one
  is `ReachedGaps.LateAnswerLeavesAGap`).
- A document rejected while a request is pending leaves a request that nobody can ever claim and on
  which no sales employee can act; the only staff who can are administrators by their override, and
  it is then completed without a claim. This is the only way a request is completed unclaimed
  (`SalesRuns.StrandedExactly`, `SalesRuns.StrandedForever`, `SalesRuns.ClaimedUnlessRejectedEarly`;
  the run is `SalesRuns.RejectedBeforeClaim`).
- A fleet block and a booking can end up over each other, because no constraint relates them and
  each side looks before it writes: exactly when a block is inserted over a booking confirmed since
  its conflict check, or a confirmation writes its booking under a block inserted since its reads
  (`FleetBlocks.BlocksStayClear`, `FleetBlocks.BlockRace`, `FleetBlocks.ConfirmationRace`; the runs
  are `ReachedGaps.BlockOverBooking` and `ReachedGaps.BookingUnderBlock`). Bookings never overlap
  each other in either case (`ReservationStore.NeverDoubleBooked`).
- A vehicle that is out loses its rented mark exactly by an edit that read it before its delivery,
  and only after that it can be delivered to a second customer (`Handovers.OneCustomerAtATime`; the
  run is `ReachedGaps.OutWithTwoCustomers`).
- The sales queue falls one request behind a reload exactly when a rejection, a completion, a
  cancellation or a due no-show closes one of its first hundred requests while more are listed
  (`SalesWorkspace.QueueRefines`, `SalesWorkspace.LeavesByClosing`; the run is
  `ReachedGaps.QueueFallsBehind`).
- After an answered offer the customer's reply panel stays open, and an accepted one leaves the old
  terms in the list (`CustomerRequests.PanelOutlivesTheOffer`, `CustomerRequests.AnswerList`).
- In the wizard a document list can outlive its consents without any edit
  (`Wizard.UploadOutlivesConsents`). After a draft was resumed with outdated consents, and then only,
  saving the details again clears even consents accepted since (`Wizard.ResavedDetails`; the run is
  `Wizard.StaleResumeDropsConsents`).
- An upload batch is not all-or-nothing when another one ends before it (`VehicleImages.OverlapIsPartial`).
- A preview of a notification that was read elsewhere can empty the badge (`Inbox.StalePreview`).
- Printed branch hours lose days that differ from the first open one (`BranchHours.PrintedWeekRereads`).

## Model

| member | source | states |
|---|---|---|
| ReservationStore.NeverDoubleBooked | packages/database/prisma/migrations/20260718120000_milestone_3_baseline/migration.sql:1039-1047 | from a store without reservations, after any sequence of calls by customers, sales, administrators, the expiry sweep and the fleet office, and whatever comes between the reads and the writes of a confirmation: no two confirmed or active bookings of a vehicle overlap |
| ReservationStore.CompletedInOrder | apps/api/src/reservations/reservations.repository.ts:1517-1680 | in every run a booking carries its request's status, and a completed request shows pre-approval, contract, checklist, confirmation, one delivery, one return and completion, once each and in this order, after the claim if the request was ever assigned |
| ReservationStore.BookedAsAccepted | apps/api/src/reservations/reservations.repository.ts:1988-2014 | in every run a booking has the car, the period and the price of the last alternative offer the customer accepted, when there is one |
| ReservationStore.EightStepsAndReturns | apps/api/src/reservations/reservations.repository.ts:727-1755 | in every run the sales steps on a request number at most eight more than the times it went back to review by a reply, an answer or a lapsed offer |
| WholeRental.EightStepsAreReached | apps/api/src/reservations/reservations.repository.ts:436-1755 | in any store in which the car is ready and the plan passes the checks, nine calls take a request from submission to completion, eight of them sales steps and none back to review, so the bound of eight is reached |
| WholeRental.RowOnTheWay | apps/api/src/reservations/reservations.repository.ts:436-1755 | the columns of that request after each call |
| ReservationStore.StepsBounded | apps/api/src/reservations/reservations.repository.ts:727-1755 | from any reachable store the same bound with the rank of the request's current row in place of eight |
| ReservationStore.TimelineGapless | apps/api/src/reservations/reservations.repository.ts:1954-1963 | in every run each timeline entry starts where the one before ended and the last ends at the current status, exactly when no offer of the request was answered after it lapsed |
| ReservationStore.StepTaken | apps/api/src/reservations/reservations.repository.ts:727-1755 | whatever a call does to the stored requests is one step, enabled in the row it names, and every other row stays as it was |
| ReservationStore.ExecuteKeeps | apps/api/src/reservations/reservations.repository.ts:436-596 | every call keeps the whole store sound: every row, no double booking, receipts unique, the submission order without repetitions, and what a confirmation on its way has read |
| ReservationStore.RunKeeps | apps/api/src/reservations/reservations.repository.ts:436-2280 | the same over any sequence of calls |
| ReservationStore.WriteBookingKeeps | apps/api/src/reservations/reservations.repository.ts:1387-1407 | the writes of a confirmation keep bookings of a vehicle apart by the table's constraint alone, however long ago its reads were |
| ReservationStore.ReadStillHolds | apps/api/src/reservations/reservations.repository.ts:1304-1333 | once a request can be confirmed, it keeps car, period, branch, customer and price for as long as it is pre-approved, so a confirmation may write what it has read; and it never becomes pre-approved again |
| ReservationStore.RecordChecklistKeeps | apps/api/src/reservations/reservations.repository.ts:1064-1216 | the branch checklist never lets two requests hold the same receipt number |
| ReservationStore.OperateKeeps | apps/api/src/reservations/reservations.repository.ts:1634-1690 | every booking operation keeps bookings apart, receipts unique and the order as it was |
| ReservationStore.SubmitKeeps | apps/api/src/reservations/reservations.repository.ts:436-596 | submitting a draft adds one sound request at the end of the order, and submitting again changes nothing |
| FleetBlocks.BlocksStep | apps/api/src/fleet/fleet.service.ts:91-126 | one call keeps fleet blocks clear of confirmed and active bookings exactly when it neither inserts a block over one nor is the writing half of a confirmation over whose period a block lies |
| FleetBlocks.BlocksStayClear | apps/api/src/fleet/fleet.service.ts:91-126 | blocks are clear of bookings after every call of a run exactly when no block is inserted over a booking and no booking written under a block in it |
| FleetBlocks.LiesAfterRun | apps/api/src/reservations/reservations.repository.ts:1367-1395 | after any run a request lies over a given period of a vehicle exactly when it is live and lay there before or was confirmed there in between |
| FleetBlocks.BlockRace | apps/api/src/fleet/fleet.service.ts:109-123 | the first window: a block is inserted over a booking exactly when a booking that is still live was confirmed over its period after its conflict check |
| FleetBlocks.ConfirmationRace | apps/api/src/reservations/reservations.repository.ts:1367-1407 | the second window: the writes of a confirmation put the booking under a block exactly when they go through and a block still on file was inserted over the period after its conflict reads |
| ReachedGaps.BlockOverBooking | apps/api/src/fleet/fleet.service.ts:109-123 | a run through the first window: check, confirmation, insertion, and the block lies over the booking |
| ReachedGaps.BookingUnderBlock | apps/api/src/reservations/reservations.repository.ts:1367-1407 | a run through the second window: the confirmation reads, a block is checked and inserted, the confirmation writes, and the booking lies under the block |
| Handovers.HolderStep | apps/api/src/reservations/reservations.repository.ts:1674-1683 | one call leaves a vehicle with two customers exactly when it delivers one that another customer has |
| Handovers.MarkStep | apps/api/src/vehicles/vehicles.repository.ts:205-226 | one call leaves a vehicle that is out without its rented mark exactly when it is an edit that writes a status read before the delivery; deliveries, completions and all other calls keep the marks |
| Handovers.EditInOneGo | apps/api/src/vehicles/vehicles.repository.ts:211-220 | an edit whose transaction reads the status it overwrites never takes the mark off a vehicle that is out |
| Handovers.OneCustomerAtATime | apps/api/src/reservations/reservations.repository.ts:1674-1689 | in every run from a store without reservations vehicles are with one customer at a time throughout exactly when none is delivered again while it is out, keep their marks exactly when no edit forgets one, and without such an edit there is no such delivery |
| ReachedGaps.OutWithTwoCustomers | apps/api/src/vehicles/vehicles.repository.ts:205-226 | a run that gets there: a delivery, an edit that read the car before it, and the delivery of the same car to a second customer with other days |
| ReachedGaps.LateAnswerLeavesAGap | apps/api/src/reservations/reservations.repository.ts:1954-1963 | a run from any sound store with one answer to a lapsed offer, after which the request is under review and its timeline has a gap |
| ReachedGaps.QueueFallsBehind | apps/web/components/sales-review-workspace.tsx:719-766 | more than a hundred submissions, then a sales employee opens, claims and rejects the oldest request: the queue patched differs from the one reloaded |
| ReservationSteps.FinishedRental | apps/api/src/reservations/reservations.repository.ts:1576-1650 | a completed row has its milestones in order, its contract, deposit and attendance on file, one delivery and one return reading, and the return odometer is not below the delivery odometer |
| ReservationSteps.ColumnsKept | apps/api/src/reservations/reservations.repository.ts:727-2016 | every step keeps the columns of a row in agreement: the booking mirrors status, car and period; papers come in order; only the newest offer is pending, exactly while the request waits for an answer |
| ReservationSteps.PricesKept | apps/api/src/reservations/reservations.repository.ts:1000-1012 | every step keeps every estimate equal to rates times days, and the lines of a confirmed price adding up to the estimate |
| ReservationSteps.TermsKept | apps/api/src/reservations/reservations.repository.ts:1988-2014 | every step keeps the request on the terms of the last accepted offer |
| ReservationSteps.HistoryKept | apps/api/src/reservations/reservations.repository.ts:727-1755 | every step keeps the milestones of the timeline equal to the stage read off the columns |
| ReservationSteps.RankStep | apps/api/src/reservations/reservations.repository.ts:727-2016 | every sales step lowers the rank of the row, and a step back to review raises it by at most one and always ends under review |
| ReservationSteps.GaplessUnlessLate | apps/api/src/reservations/reservations.repository.ts:1954-1963 | a step keeps the timeline gapless exactly when it is not the answer to a lapsed offer, which changes the status without an entry |
| ReservationSteps.SubmittedSound | apps/api/src/reservations/reservations.repository.ts:525-548 | a submitted draft is a sound row, with the rounded and the rounded-up number of days agreeing on whole-day periods |
| SalesWorkspace.Workspace.OpenReview | apps/web/components/sales-review-workspace.tsx:645-687 | opening drops the old review and decision first; a failed load leaves no review open |
| SalesWorkspace.Workspace.ClaimReview | apps/web/components/sales-review-workspace.tsx:689-717 | the new queue and review as the claim handler leaves them, and no change when nothing is open or the claim fails |
| SalesWorkspace.Workspace.SubmitDecision | apps/web/components/sales-review-workspace.tsx:719-766 | the new queue, review and decision: a rejection drops the card and leaves the review, anything else patches both |
| SalesWorkspace.Workspace.SubmitAlternativeOffer | apps/web/components/sales-review-workspace.tsx:768-810 | the new queue and review after an offer, and no change when the form is incomplete or the server refuses |
| SalesWorkspace.Workspace.UploadSignedContract | apps/web/components/sales-review-workspace.tsx:812-849 | the review with the contract signed; the queue is untouched |
| SalesWorkspace.Workspace.RecordBranchRequirements | apps/web/components/sales-review-workspace.tsx:881-937 | the review with attendance, deposit and contract; needs attendance, a signed contract, an expected deposit and a receipt number |
| SalesWorkspace.Workspace.ConfirmFinalBooking | apps/web/components/sales-review-workspace.tsx:939-971 | the queue and review confirmed, with the booking in the review |
| SalesWorkspace.Workspace.SubmitBookingOperation | apps/web/components/sales-review-workspace.tsx:973-1061 | the queue, the booking status and the readings after an operation; closing ones drop the card |
| SalesWorkspace.QueueRefines | apps/web/components/sales-review-workspace.tsx:701-1051 | after any enabled button the patched queue equals a freshly loaded one, in order, exactly unless the button closes a request of the first hundred while more than a hundred are listed |
| SalesWorkspace.LeavesByClosing | apps/web/components/sales-review-workspace.tsx:719-1061 | an enabled button takes the request off the list exactly when it is a rejection, a completion, a cancellation, or a no-show whose pickup is due; the server refuses none of the first three |
| SalesWorkspace.QueueDrop | apps/api/src/reservations/reservations.repository.ts:598-625 | dropping a card equals reloading the queue exactly when no later request moves up into the page |
| SalesWorkspace.PatchRefines | apps/web/components/sales-review-workspace.tsx:950-964 | patching the card of a request that stays listed gives the freshly loaded queue |
| SalesWorkspace.PressServer | apps/web/components/sales-review-workspace.tsx:627-634 | a pressed button changes at most the open request's row, and on its card only the status and the assignee |
| SalesWorkspace.OperationFresh | apps/web/components/sales-review-workspace.tsx:1010-1051 | after a booking operation the open review equals a fresh copy of its row |
| SalesWorkspace.DecisionFresh | apps/web/components/sales-review-workspace.tsx:737-760 | after a decision the open review equals a fresh copy of its row, or is the review of a request just rejected |
| SalesWorkspace.ChecklistFresh | apps/web/components/sales-review-workspace.tsx:904-930 | after the checklist the open review equals a fresh copy of its row |
| SalesRuns.CacheStaysExact | apps/web/components/sales-review-workspace.tsx:645-1061 | with at most a hundred requests listed and nobody else writing, any sequence of opened reviews and pressed buttons keeps queue and review equal to what the server would send |
| SalesRuns.QueueIdsUnique | apps/web/components/sales-review-workspace.tsx:701-711 | no request appears twice in an exact queue |
| SalesRuns.CompletedWasClaimed | apps/web/components/sales-review-workspace.tsx:1380-1909 | a desk with however stale a cache, among customers, colleagues, administrators, the sweep and the fleet office, in any interleaving from a store without reservations: every completed request was claimed, pre-approved, signed, checked, confirmed, delivered, returned and completed, once each and in this order, the claim missing exactly when a document was rejected before it |
| SalesRuns.ClaimedUnlessRejectedEarly | apps/api/src/reservations/reservations.repository.ts:739-759 | in every run from a store without reservations, whoever acts, the claim is among the milestones of a completed request exactly when no call of the run rejected a document of it while it was pending |
| SalesRuns.StrandedExactly | apps/api/src/reservations/reservations.repository.ts:2545-2580 | in every run a request submitted in it is past its pending state without an assignee exactly when a document of it was rejected while it was pending |
| SalesRuns.RefusesSales | apps/api/src/reservations/reservations.repository.ts:739-822 | on such a request every claim, and every decision, offer, contract, checklist, confirmation, operation or document review by anyone but an administrator, is refused and changes nothing |
| SalesRuns.StaysHonest | apps/web/components/sales-review-workspace.tsx:1380-1406 | whoever else acts, an open review that says it is mine belongs to me on the server |
| SalesRuns.ClaimIsExclusive | docs/ARCHITECTURE.md:136 | once claimed, a request is never again listed for, opened by, claimed by or acted on by another sales employee, whatever happens afterwards |
| SalesRuns.StrandedForever | apps/api/src/reservations/reservations.repository.ts:739-759 | whatever happens meanwhile, such a request is never assigned to anybody again, and every later claim and every later sales action by anyone but an administrator is refused and changes nothing |
| SalesRuns.StrandedHasNoButton | apps/web/components/sales-review-workspace.tsx:1380-1909 | no button of the workspace is enabled on such a request |
| SalesRuns.RejectedBeforeClaim | apps/api/src/reservations/reservations.repository.ts:2545-2580 | a document rejected before the claim, replaced and answered leaves the request under review, unassigned, refused to every sales employee and open only to an administrator's override |
| CustomerRequests.Workspace.SendReply | apps/web/components/customer-requests-workspace.tsx:417-458 | the list and the detail after a reply the server took; no change for a text outside 10 to 500 characters or a refused reply |
| CustomerRequests.Workspace.RespondToAlternative | apps/web/components/customer-requests-workspace.tsx:485-526 | the list and the detail after an answered offer, with the detail's request for a response left as it was |
| CustomerRequests.ReplyStaysFresh | apps/web/components/customer-requests-workspace.tsx:430-452 | after a reply, taken or refused, list and detail equal fresh copies of the rows |
| CustomerRequests.ReplyTaken | apps/web/components/customer-requests-workspace.tsx:1094-1115 | a reply sent from a fresh panel is taken exactly when no offer is waiting and no document is rejected, although the panel also shows for an offer |
| CustomerRequests.AnswerList | apps/web/components/customer-requests-workspace.tsx:501-507 | after an answer the list is fresh exactly when the offer was declined, or had the terms already shown, or the request is not listed |
| CustomerRequests.PanelOutlivesTheOffer | apps/web/components/customer-requests-workspace.tsx:508-520 | after every answer the reply panel stays open although the server expects no response, and a reply sent from it changes nothing |
| CustomerRequests.StatusesStay | apps/web/components/customer-requests-workspace.tsx:417-526 | with nobody else writing, a step leaves a wrong status on the page exactly when it answers an offer that has lapsed on the server |
| CustomerRequests.StatusesOverRuns | apps/web/components/customer-requests-workspace.tsx:417-526 | over any sequence of opened requests, replies and answers in time every status shown is the server's |
| CustomerRequests.TrackGoesBack | apps/web/components/customer-requests-workspace.tsx:283-289 | a step moves the progress track back exactly when it cancels the booking or marks a no-show |
| CustomerRequests.TrackOverRuns | apps/web/components/customer-requests-workspace.tsx:283-289 | in any run of the whole store without those two, the track of a request never goes back |
| CustomerRequests.OpenAndClosed | apps/web/components/customer-requests-workspace.tsx:529-539 | the open and the closed filter split the list |
| CustomerRequests.ActionIsOpen | apps/web/components/customer-requests-workspace.tsx:529-540 | what needs an answer is part of the open requests, in the same order, so its count never exceeds the open count |
| Wizard.ChainBroken | apps/web/components/reservation-start.tsx:484-829 | under any interleaving of effects, edits, presses and responses a step breaks the chain of saved stages exactly when a button's response arrives after the stage it builds on was cleared; the effects never break it |
| Wizard.ChainHolds | apps/web/components/reservation-start.tsx:484-829 | in every run without such a response, documents stand on consents, consents on details, details on the draft |
| Wizard.SavedMeansSaved | apps/web/components/reservation-start.tsx:661-829 | from an empty or resuming page, as long as nothing clears a stage under a button's request on its way, everything shown as saved is saved on the server for the draft shown |
| Wizard.SettledStep | apps/web/components/reservation-start.tsx:484-829 | one step of the same, with the requests on their way always about the draft shown |
| Wizard.ResumeChain | apps/web/components/reservation-start.tsx:502-536 | a resumed draft keeps the chain because the server never has consents without details |
| Wizard.ReplyServer | apps/api/src/reservations/reservations.repository.ts:296-341 | every request the wizard sends keeps that promise on the server |
| Wizard.UploadOutlivesConsents | apps/web/components/reservation-start.tsx:565-575 | the chain can break with no edit at all: policies of a newer version clear resumed consents under an upload on its way |
| Wizard.StaleResumeDropsConsents | apps/web/components/reservation-start.tsx:562-576 | a run from a resuming page whose record has consents to an outdated version: they are accepted again in the version in force, the unchanged details are saved again, and the consents are gone from the page while the server has them in the version in force |
| Wizard.ResavedDetails | apps/web/components/reservation-start.tsx:551-577 | consents survive saving the details once more exactly when the draft was not resumed with consents to another version than the one in force, whatever was accepted since, while the server keeps them in either case |
| Wizard.Component.ResumeArrived | apps/web/components/reservation-start.tsx:500-540 | the stages after a resumed draft, with the effects that start again |
| Wizard.Component.PoliciesArrived | apps/web/components/reservation-start.tsx:551-577 | the stages after the policies, and the consents cleared when the resumed version is outdated |
| Wizard.Component.ResetSavedDraft | apps/web/components/reservation-start.tsx:624-637 | everything from the draft on is cleared and its requests aborted |
| Wizard.Component.InvalidateCustomerDetails | apps/web/components/reservation-start.tsx:639-650 | everything from the details on is cleared and its requests aborted |
| Wizard.Component.InvalidateConsents | apps/web/components/reservation-start.tsx:652-659 | everything from the consents on is cleared and its requests aborted |
| Csv.PrintThenRead | apps/web/components/admin-reports-workspace.tsx:691-703 | for every non-empty list of rows of arbitrary cells, quotes, commas, line breaks and empty rows included, the quoted-field reader returns exactly the rows printed |
| Csv.ReadThenPrint | apps/web/components/admin-reports-workspace.tsx:691-703 | every text the reader takes is the printed text of the rows it returns, so printer and reader are inverse to each other |
| Csv.PrintInjective | apps/web/components/admin-reports-workspace.tsx:691-703 | two non-empty lists print alike exactly when they are equal |
| Csv.EmptyPrint | apps/web/components/admin-reports-workspace.tsx:691 | only the empty list and the list of one empty row print as nothing |
| Csv.ExportReport | apps/web/components/admin-reports-workspace.tsx:660-691 | the three loops produce the byte order mark and the printed rows of the report |
| Csv.ExportKeepsTables | apps/web/components/admin-reports-workspace.tsx:669-690 | from the exported text alone the metric, vehicle and sales tables come back whole and apart |
| FleetList.ListedIsTheSort | apps/web/components/public-fleet.tsx:252-256 | a list is a stable sort of the cars that pass exactly when it is the one the model lists |
| FleetList.StableSortUnique | apps/web/components/public-fleet.tsx:252-256 | two sorted lists in which cars of equal key keep the same order are equal |
| FleetList.FilterCommutes | apps/web/components/public-fleet.tsx:243-257 | filtering before or after the sort gives the same list |
| FleetList.TighteningDrops | apps/web/components/public-fleet.tsx:243-257 | tightening filters under an unchanged order only drops cards and moves none |
| FleetList.TighterMeansFewer | apps/web/components/public-fleet.tsx:244-250 | tightening filter by filter is exactly letting no new car through |
| FleetList.ListedIsSorted | apps/web/components/public-fleet.tsx:243-257 | the list is sorted in the chosen order and holds exactly the cars that pass, with their multiplicity |
| FleetCalendar.NoSharedDay | apps/web/components/fleet-calendar-workspace.tsx:525-531 | no position exactly when event and window share no day |
| FleetCalendar.OnTheTrack | apps/web/components/fleet-calendar-workspace.tsx:532-537 | a bar lies on the track and starts and ends on a line between days |
| FleetCalendar.InDays | apps/web/components/fleet-calendar-workspace.tsx:525-538 | position and width count whole days: those before the event and those shared with the window |
| FleetCalendar.MinimumWidthMatters | apps/web/components/fleet-calendar-workspace.tsx:536 | the minimum width changes a result exactly when less than a day is visible, which no aligned anchor allows |
| FleetCalendar.NavigationAligned | apps/web/components/fleet-calendar-workspace.tsx:256-267 | every anchor the buttons reach is the start of a UTC day |
| FleetCalendar.Workspace.Press | apps/web/components/fleet-calendar-workspace.tsx:256-267 | the anchor moves by fourteen days, or to today |
| FleetCalendar.WidthsAddUp | apps/web/components/fleet-calendar-workspace.tsx:525-538 | consecutive windows together show every day of the event they cover once |
| FleetCalendar.LengthConserved | apps/web/components/fleet-calendar-workspace.tsx:525-538 | windows that cover an event show its length in days, at least one |
| FleetCalendar.OneWindowPerDay | apps/web/components/fleet-calendar-workspace.tsx:256-267 | each day lies in exactly one window reached by Previous and Next |
| FleetCalendar.DrawnIsServed | apps/api/src/fleet/fleet.repository.ts:32-57 | whatever the projection would draw is among the events the server sends for the window |
| DriveScene.Loop.OnePending | apps/web/components/cinematic-car-3d.tsx:308-312 | at most one animation callback is pending, and before disposal one is exactly while the component remembers it |
| DriveScene.Loop.Render | apps/web/components/cinematic-car-3d.tsx:215-306 | one frame: emission into the ring, decay, easing, overlay, and a new request exactly while time or smoke is left |
| DriveScene.Loop.EmitSmoke | apps/web/components/cinematic-car-3d.tsx:268-283 | the next particles of the ring come to life and the cursor moves on |
| DriveScene.Loop.ActivateDrive | apps/web/components/cinematic-car-3d.tsx:313-316 | scrolling asks for 520 milliseconds more and resumes a visible, idle loop |
| DriveScene.Loop.Resize | apps/web/components/cinematic-car-3d.tsx:197-209 | resizing asks for 180 milliseconds and resumes a visible, idle loop |
| DriveScene.Loop.Dispose | apps/web/components/cinematic-car-3d.tsx:367-376 | after cleanup nothing is pending |
| DriveScene.LoopLength | apps/web/components/cinematic-car-3d.tsx:286-305 | without scrolling and after the time asked for, the loop is still scheduled after n frames exactly when some life exceeded n decays |
| DriveScene.EndsWithin56Frames | apps/web/components/cinematic-car-3d.tsx:268-305 | then the loop has ended after 56 frames |
| DriveScene.FiftyFiveCanRun | apps/web/components/cinematic-car-3d.tsx:268-305 | and 55 are not always enough |
| DriveScene.StaysOnStage | apps/web/components/cinematic-car-3d.tsx:239-258 | through any interleaving of scrolls, resizes, visibility changes and frames every life stays between 0 and 1 and the car within the bounds of its targets |
| DriveScene.XApproaches | apps/web/components/cinematic-car-3d.tsx:254 | towards a fixed target the distance in x shrinks by 0.87 every frame |
| DriveScene.OverlayFades | apps/web/components/cinematic-car-3d.tsx:227-233 | the overlay stays between its two ends and never gets stronger down the page |
| DriveScene.OverlayWritten | apps/web/components/cinematic-car-3d.tsx:234-237 | the overlay is written to within 0.004 of the true one after every frame, and with its three decimals within 0.0045 |
| BranchHours.PairIsLeftmost | apps/web/components/branch-management-workspace.tsx:846 | the search returns the leftmost start and its nearest second time, and nothing exactly when no pair exists on a line |
| BranchHours.PrintedWeekRereads | apps/web/components/public-branch-surface.tsx:283-312 | printing a week in public and reading it in the editor recovers every closed flag and every open day's times exactly when the six regular days keep the same hours |
| BranchHours.EditorWeekIsProper | apps/web/components/branch-management-workspace.tsx:843-866 | whatever the older strings are, the editor gets seven days in fixed order whose open days have both times |
| BranchHours.EditorIsStable | apps/web/components/branch-management-workspace.tsx:840-866 | reading its own result again, or after showing it in public, changes nothing |
| TrendChart.InThePlot | apps/web/components/admin-reports-workspace.tsx:537-544 | every rounded coordinate lies in the padded plot |
| TrendChart.DrawnInOrder | apps/web/components/admin-reports-workspace.tsx:537-544 | x never goes back along a line and a larger value is never drawn lower, across all series |
| TrendChart.SpansThePlot | apps/web/components/admin-reports-workspace.tsx:537-544 | a line of two points or more runs from the left to the right edge |
| TrendChart.AtMostSevenLabels | apps/web/components/admin-reports-workspace.tsx:545-562 | at most seven dates are labelled, and the first and the last always are |
| TrendChart.SevenLabels | apps/web/components/admin-reports-workspace.tsx:545-562 | seven is reached |
| VehicleImages.OneToSixRows | apps/web/components/fleet-vehicle-manager.tsx:401-487 | however edits, moves, presets and overlapping batches interleave, the list has one to six rows |
| VehicleImages.UploadsAppend | apps/web/components/fleet-vehicle-manager.tsx:477-480 | a finished batch keeps the filled rows in place and adds as many of its rows as fit, all of them exactly when they fit at that moment |
| VehicleImages.LoneBatchIsWhole | apps/web/components/fleet-vehicle-manager.tsx:456-486 | a batch that runs alone is added whole or not at all |
| VehicleImages.OverlapIsPartial | apps/web/components/fleet-vehicle-manager.tsx:456-526 | of two overlapping batches the second can end with a part of its rows |
| VehicleImages.MoveUndone | apps/web/components/fleet-vehicle-manager.tsx:437-445 | a move loses nothing and the opposite move of the moved row undoes it |
| VehicleImages.PresetsOnce | apps/web/components/fleet-vehicle-manager.tsx:447-454 | a preset is listed at most once more by picking it, exactly when there was room, and never replaces a row with a url |
| VehicleImages.Editor.SendFiles | apps/web/components/fleet-vehicle-manager.tsx:462-476 | a batch is given up at its first failed file and otherwise returns one row for each file in order |
| VehicleImages.Editor.MoveImage | apps/web/components/fleet-vehicle-manager.tsx:437-445 | the list after a move, unchanged at its ends |
| VehicleImages.Editor.EndBatch | apps/web/components/fleet-vehicle-manager.tsx:477-486 | the list after a batch, unchanged when the batch failed |
| LocationPicker.PickedInBounds | apps/web/components/branch-location-picker.tsx:18-27 | any pointer position gives coordinates within the bounds |
| LocationPicker.MarkerFollowsPointer | apps/web/components/branch-location-picker.tsx:18-34 | the marker shows the clamped pointer to within half of 10^-7 degrees on each axis |
| LocationPicker.MarkerOnSurface | apps/web/components/branch-location-picker.tsx:28-34 | a marker lies on the surface exactly when its coordinates are within the bounds |
| LocationPicker.PressingTheMarkerKeepsIt | apps/web/components/branch-location-picker.tsx:18-34 | pressing right on the marker of stored coordinates leaves them as they are |
| LocationPicker.PickedStays | apps/web/components/branch-location-picker.tsx:18-34 | whatever was picked, pressing right on its marker later, on a surface of any size, picks the same coordinates |
| ApiConfig.LoadApiConfig | apps/api/src/config.ts:86-361 | a configuration is taken exactly when a conjunction of conditions without any order holds, and the result, with its MFA key decoded and encoded again, is a function of the environment; the check at lines 303-307 never fires |
| ApiConfig.ReadCompleteGroup | apps/api/src/config.ts:55-61 | complete, unset or incomplete, exactly as all, none or some of the keys have a value |
| ApiConfig.ReadStorage | apps/api/src/config.ts:213-261 | document storage is refused exactly outside its conditions, and otherwise the credentials returned are the configured ones |
| ApiConfig.ReadMail | apps/api/src/config.ts:179-212 | mail delivery is refused exactly outside its conditions, and otherwise the senders returned are the configured ones |
| ApiConfig.LaunchPromises | apps/api/src/config.ts:86-361 | every accepted launch configuration has a Brevo or Resend sender, TLS Redis, Web Push, secrets of its own and an MFA key of 32 bytes |
| ApiConfig.ProductionPromises | apps/api/src/config.ts:86-361 | every accepted production configuration has no local document path and no Gmail, speaks https to every hook, and takes uploads exactly when asked for with both S3 and scanning |
| Inbox.BadgeFollowsList | apps/web/components/notification-center.tsx:176-229 | between loads, clicking rows keeps what the badge counts beyond the list and never makes it negative, mark-all brings both to zero, and nothing read becomes unread |
| Inbox.BeyondKept | apps/web/components/notification-center.tsx:181-189 | marking a note keeps that difference exactly when list and badge both lose one or neither does |
| Inbox.ClickStaysExact | apps/web/components/notification-center.tsx:176-194 | after a click on a copy that says unread the page is what the server would send exactly when the note was unread there or nothing was |
| Inbox.ReadAllStaysExact | apps/web/components/notification-center.tsx:206-229 | mark-all leaves page and server equal, also when more is unread than the list shows |
| Inbox.StalePreview | apps/web/components/notification-center.tsx:103-110 | a preview of a note read elsewhere can outlive the next load, and clicking it empties the badge while another note is unread |
| Inbox.LoadedCounts | apps/api/src/notifications/notifications.repository.ts:9-34 | a loaded inbox never counts less than it shows |
| Inbox.NotificationCenter.MarkRead | apps/web/components/notification-center.tsx:176-194 | the inbox and the preview after a click |

## Left out

- Rendering, texts, styling, formatting by `Intl`, focus and scrolling: no logic to prove.
- Delivery of requests and responses, e-mail, notifications, object storage, sessions and permissions other than the assignment and administrator checks: plumbing.
- Transactions are atomic, except a confirmation and a vehicle edit: what another transaction commits between the reads and the writes of one operation is not modelled, nor are serialization failures and retries. Most writes repeat the status they read as a condition; the branch checklist and the signed contract do not (apps/api/src/reservations/reservations.repository.ts:1137-1159 and 1252-1275), so the expiry sweep or a second copy of the same call in between is outside the model.
- ReservationStore.TimelineGapless: is about runs of whole transactions, for the reason above; so are the milestones of ReservationStore.CompletedInOrder.
- ReservationStore.NeverDoubleBooked: does not promise that fleet blocks stay clear of bookings or that a vehicle is with one customer at a time, because both are false of the code; FleetBlocks and Handovers have the exact conditions.
- ReservationStore.ExecuteKeeps: does not keep blocks clear of bookings or vehicles marked, for the same reason.
- FleetBlocks.BlockRace: a block's earliest start and its limit of 366 days are not modelled, nor is the lookup of a vehicle that is switched on, a call before the conflict check.
- The assignment, which the service reads before a document review, is checked with its transaction.
- Customer messages on the server, notes, references, access logs and contract files: carried along, never decided on. The detail of a request keeps its messages, but freshness does not compare them.
- In the open review, the timeline and the current offer are not refreshed by the handlers and are not part of the model.
- The submission checks on policies, verified e-mail, declaration and category are one given truth value; archiving a vehicle counts as switching it off.
- The order of the customer's list by last change: rows are compared one by one, and the page of fifty is not modelled.
- Requests of the sales workspace that are still on their way when another review is opened; a press and its response are one step there.
- In the wizard, a render between a change and the abort of an effect, abandoning the draft in another tab, and what the form fields hold when a response arrives.
- CustomerRequests.TrackOverRuns: assumes no cancellation and no no-show in the run; TrackGoesBack has the exact condition for one step.
- DriveScene.StaysOnStage: sines and cosines are inputs between -1 and 1; rotation, tyre offset, sprite positions and random numbers are not modelled.
- FleetCalendar, TrendChart, LocationPicker and DriveScene use exact arithmetic in place of binary floating point; a surface or box of zero size is not modelled.
- Csv.ExportReport: the rendering of numbers and of metric values is given; the download itself is not modelled.
- BranchHours: stored values other than strings in the older shape, and fields of the week besides the days.
- The phone forms of the branch pages (`dialValue`, `whatsappValue`, the phone pattern), the other fields of the branch form and the branch selection: single expressions.
- ApiConfig.LoadApiConfig: URL parsing, base64url lengths, number parsing, lower-casing, the hash and the address pattern are given functions; which of several faults is reported first is not stated.
- Inbox: polling races, the redirect after a click, push subscriptions; a failed read request is not modelled.
- Login, security and consent gates, campaigns, content and policy editors, the document carousel, the outbox and the other services of the API: mostly single checks that would only add easy members.
