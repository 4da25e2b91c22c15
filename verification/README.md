# Job tracker pages, modelled in Dafny

The system is a browser front end for a garden-floor contracting business; the app's title is ระบบจัดการงานรับเหมาพื้นสวน (src/pages/Login.tsx:45). It tracks jobs through
eight statuses, from `pending` to `completed` or `cancelled`. A job record (src/types/index.ts:78-89)
has a customer and, each optional:

- a site-measurement appointment;
- a quotation;
- a list of payment phases, each numbered by `phase` (documented as 1-5, src/types/index.ts:51);
- a total amount;
- a list of expenses.

Each page adds its own state. The attachment page keeps a list of photo, video, SketchUp and
receipt files. The foreman page keeps an on-site checklist.

Everything runs on mock data. The job list and the dashboard filter module constants (`mockJobs`, src/pages/JobList.tsx:7 and src/pages/Dashboard.tsx:15). The payment, attachment and foreman pages hold their mock data in page state. What the pages compute is small and deterministic:

- filtering and summing job and payment lists;
- appending to, deleting from and grouping an attachment list;
- toggling checklist items;
- deriving a quotation's history from its status;
- gating routes on the signed-in role.

This project models those computations, one module per source file:

| module | source file | form |
|---|---|---|
| `Types` | `src/types/index.ts` | datatypes for the three status unions and the records, with the wire strings of each status |
| `JobList` | `src/pages/JobList.tsx` | the search-and-status filter, the selectable status options, the badge lookup |
| `Payments` | `src/pages/Payment.tsx` | the total/paid/pending sums, the rounded progress, the "record payment" rule, the mock schedule |
| `FileUpload` | `src/pages/FileUpload.tsx` | class `FileBoard` holding the file list and the selected type; upload and delete as methods; the grouping `reduce` as a loop over a map |
| `ForemanView` | `src/pages/ForemanView.tsx` | class `Checklist` with a `Toggle` method; the completed count and progress as functions |
| `Dashboard` | `src/pages/Dashboard.tsx` | the status buckets, today's jobs, the revenue sum, the recent slice, the summary cards, the admin-only panel |
| `QuotationPage` | `src/pages/Quotation.tsx` | class `QuotationForm` for the form state; the timeline, follow-up button and badge as functions of the status |
| `App` | `src/App.tsx` | `Resolve`, which decides per route and role whether to render, show the login screen or redirect; class `Session` for the role state |

Three modules support the others:

- `Seqs`: `filter`, a summing `reduce`, and the subsequence relation, with their lemmas.
- `Ratios`: the bounds of a part over a whole.
- `Wrappers`: `Option`, for optional fields and the `null` role.

Modelling choices:

- **Numbers.** Currency amounts are integers, and so are an appointment's distance and fee.
- **Percentages.** The payment progress is `Math.round` of a real quotient, written as `floor(x + 1/2)`. The checklist progress is the exact real quotient. A zero denominator gives no number in the source: `NaN` for 0/0, and an infinity when the payment total is 0 but the paid sum is not, which takes negative amounts. Both are `None` here.
- **Lower-casing.** `toLowerCase` is a per-character function passed in as `lower`.
- **Clock and event data.** The clock is passed in. An upload takes the clock reading and the date for each picked file as functions of its position, because the source reads the clock inside the per-file `map` callback. The dashboard takes one date per call. The list of picked file names is passed in as well.

The fourth attachment type is `'sketchup'` (src/pages/FileUpload.tsx:5), and the model follows the code.

## Model

| member | source | states |
|---|---|---|
| Types.JobStatusName | src/types/index.ts:1-9 | the wire literal of each job status |
| Types.ParseJobStatus | src/types/index.ts:1-9 | a parsed string is the wire name of the status it yields |
| Types.JobStatusNameRoundTrip | src/types/index.ts:1-9 | every job status has its own wire string, and that string parses back to it |
| Types.JobStatusExactlyEight | src/types/index.ts:1-9 | a string is a job status exactly when it is one of the eight names |
| Types.PaymentStatusName | src/types/index.ts:11 | the wire literal of each payment status |
| Types.ParsePaymentStatus | src/types/index.ts:11 | a string is a payment status exactly when it is `paid`, `pending` or `overdue`, and it names the status it yields |
| Types.PaymentStatusNameRoundTrip | src/types/index.ts:11 | the payment status names round-trip |
| Types.QuotationStatusName | src/types/index.ts:13-17 | the wire literal of each quotation status |
| Types.ParseQuotationStatus | src/types/index.ts:13-17 | a string is a quotation status exactly when it is one of the four names, and it names the status it yields |
| Types.QuotationStatusNameRoundTrip | src/types/index.ts:13-17 | the quotation status names round-trip |
| Types.PhaseInDocumentedRange | src/types/index.ts:51 | a phase number lies in the documented range 1-5, which nothing enforces |
| JobList.Lowered | src/pages/JobList.tsx:70-71 | lowering keeps the length and maps each character by `lower` |
| JobList.Includes | src/pages/JobList.tsx:70-72 | `String.prototype.includes`: the needle matches at some start position, tried from the left |
| JobList.IncludesHasOccurrence | src/pages/JobList.tsx:70-72 | when `includes` succeeds, the needle occurs at some position |
| JobList.OccurrenceIsIncluded | src/pages/JobList.tsx:70-72 | wherever the needle occurs, `includes` succeeds |
| JobList.IncludesIffOccurs | src/pages/JobList.tsx:70-72 | `includes` holds exactly when the needle is a substring |
| JobList.EmptyIncluded | src/pages/JobList.tsx:70-72 | the empty string is included in every string |
| JobList.FilteredJobs | src/pages/JobList.tsx:68-77 | the result is no longer than the list; it holds only list members that match both the search and the status, and every such member |
| JobList.FilteredJobsExactly | src/pages/JobList.tsx:68-77 | the result is an order-preserving subsequence that keeps every copy of a matching job and no copy of any other |
| JobList.MatchesSearch | src/pages/JobList.tsx:69-72 | the lowered query is included in the lowered code or the lowered customer name, or the raw query in the phone |
| JobList.MatchesStatus | src/pages/JobList.tsx:74 | the filter is `'all'` or equals the job's status |
| JobList.MatchesSearchBySubstring | src/pages/JobList.tsx:69-72 | the search matches when the lowered query occurs in the lowered code or lowered name, or the raw query occurs in the phone |
| JobList.EmptyQueryMatches | src/pages/JobList.tsx:69-72 | an empty query matches every job |
| JobList.EmptyQueryAllIsIdentity | src/pages/JobList.tsx:68-77 | an empty query with the `'all'` filter returns the list unchanged |
| JobList.AllFilterIsSearchOnly | src/pages/JobList.tsx:74 | under `'all'`, every job that matches the search is kept |
| JobList.FilteredJobsIdempotent | src/pages/JobList.tsx:68-77 | filtering a filtered list again with the same search and status changes nothing |
| JobList.StatusOptions | src/pages/JobList.tsx:79-88 | there are eight options; `'all'` comes first; `cancelled` is not one of them |
| JobList.StatusOptionsOfferAllButCancelled | src/pages/JobList.tsx:79-88 | a status can be selected on its own exactly when it is not `cancelled` |
| JobList.CancelledOnlyUnderAll | src/pages/JobList.tsx:74-88 | among the offered options, a cancelled job is admitted only by `'all'` |
| JobList.BadgeOf | src/pages/JobList.tsx:50-60 | the badge tone of each of the eight statuses |
| JobList.StatusBadge | src/pages/JobList.tsx:50-62 | the badge of a status string, with the `pending` badge for a string naming no status |
| JobList.StatusBadgeOfEveryStatus | src/pages/JobList.tsx:50-62 | every job status finds its own badge entry |
| JobList.StatusBadgeFallback | src/pages/JobList.tsx:61 | a string that names no status gets the `pending` badge |
| Payments.TotalAmount | src/pages/Payment.tsx:65 | the sum of every phase's amount |
| Payments.PaidAmount | src/pages/Payment.tsx:66 | the sum of the amounts of the `paid` phases |
| Payments.PendingAmount | src/pages/Payment.tsx:67 | the total less the paid amount |
| Payments.PendingIsSumOfUnpaid | src/pages/Payment.tsx:65-67 | the pending amount is the sum over the `pending` and `overdue` phases; paid plus pending is the total |
| Payments.UnpaidPhaseAddsNothingToPaid | src/pages/Payment.tsx:66 | a phase that is not `paid` adds nothing to the paid sum, and adds its amount to the total |
| Payments.PaidWithinTotal | src/pages/Payment.tsx:65-67 | with non-negative amounts, 0 <= paid <= total and pending >= 0 |
| Payments.Round | src/pages/Payment.tsx:206 | the result is the integer within one half of the input, halves rounding up |
| Payments.Progress | src/pages/Payment.tsx:206 | undefined exactly when the total is 0; otherwise within one half of paid/total*100 |
| Payments.ProgressIsPercentage | src/pages/Payment.tsx:206 | if 0 <= paid <= total and total > 0, progress lies in 0..100 |
| Payments.ProgressEnds | src/pages/Payment.tsx:206 | fully paid shows 100; nothing paid shows 0 |
| Payments.RecordablePhases | src/pages/Payment.tsx:187-191 | the button phases are exactly the `pending` phases of the schedule |
| Payments.NoRecordForPaidOrOverdue | src/pages/Payment.tsx:187-191 | a `paid` or `overdue` phase never offers the button |
| Payments.AllPendingAllRecordable | src/pages/Payment.tsx:187-191 | when every phase is pending, every phase offers the button, in order |
| Payments.MockPayments | src/pages/Payment.tsx:23-59 | the five pending phases of the mock schedule, with their amounts and due dates |
| Payments.MockScheduleNumbering | src/pages/Payment.tsx:23-59 | the mock schedule has five phases numbered 1..5, inside the documented range of src/types/index.ts:51 |
| Payments.MockScheduleSums | src/pages/Payment.tsx:23-67 | the mock schedule totals 150000; paid is 0, pending is 150000, progress is 0 |
| Payments.MockScheduleAllRecordable | src/pages/Payment.tsx:187-191 | every mock phase offers the button |
| Payments.ProgressOfOneFifth | src/pages/Payment.tsx:206 | 30000 of 150000 shows 20 |
| Payments.FirstPhasePaidSummary | src/pages/Payment.tsx:65-67 | with the first mock phase paid: paid 30000, pending 120000, progress 20 |
| FileUpload.MockFiles | src/pages/FileUpload.tsx:16-31 | the two files the page starts with |
| FileUpload.Decimal | src/pages/FileUpload.tsx:50 | the printed number has at least one character, and every character is a decimal digit |
| FileUpload.DecimalRoundTrip | src/pages/FileUpload.tsx:50 | reading the printed digits back gives the number |
| FileUpload.DecimalInjective | src/pages/FileUpload.tsx:50 | different numbers print differently |
| FileUpload.BatchId | src/pages/FileUpload.tsx:50 | the id `new-<clock>-<index>` of a new record |
| FileUpload.UpToDashOfField | src/pages/FileUpload.tsx:50 | the field before the first `-` of an id is read back intact |
| FileUpload.BatchIdInjective | src/pages/FileUpload.tsx:50 | equal ids mean equal clock readings and equal batch positions |
| FileUpload.NewFiles | src/pages/FileUpload.tsx:49-55 | one record per picked file, in order; record `i` has the id from the clock reading for file `i` and from `i`, that file's name, the selected type, url `#` and the date read for file `i` |
| FileUpload.BatchIdsDistinct | src/pages/FileUpload.tsx:49-50 | the ids within one batch are pairwise distinct, whatever the clock reads for each file |
| FileUpload.Uploaded | src/pages/FileUpload.tsx:45-58 | existing files stay first and unchanged; a null list adds nothing; otherwise record `|files| + i` is picked file `i`'s, with its name, its id, the selected type, url `#` and its date |
| FileUpload.WithoutId | src/pages/FileUpload.tsx:60-62 | no kept file has the id; every file with another id is kept |
| FileUpload.WithoutIdKeepsOthersInOrder | src/pages/FileUpload.tsx:60-62 | the kept files are an order-preserving subsequence, with every copy of each other-id file kept |
| FileUpload.DeleteUnknownIdIsNoOp | src/pages/FileUpload.tsx:60-62 | an id that no file has leaves the list unchanged |
| FileUpload.OfType | src/pages/FileUpload.tsx:64-68 | a group holds only files of its type taken from the list, and every such file |
| FileUpload.GroupsOf | src/pages/FileUpload.tsx:64-68 | the value of `filesByType`: each type that some file has, mapped to its files in list order |
| FileUpload.GroupByType | src/pages/FileUpload.tsx:64-68 | the accumulating loop builds exactly the map of non-empty types to their files |
| FileUpload.GroupsOfStep | src/pages/FileUpload.tsx:65-66 | one more file extends its type's entry, created if missing, by that file |
| FileUpload.EachFileInItsOwnGroup | src/pages/FileUpload.tsx:64-68 | each file is in its own type's group and in no other group |
| FileUpload.GroupKeepsOrder | src/pages/FileUpload.tsx:64-68 | a group keeps the list order of its files |
| FileUpload.GroupSizesSum | src/pages/FileUpload.tsx:64-68 | the four group sizes add up to the number of files |
| FileUpload.DeletedIdInNoGroup | src/pages/FileUpload.tsx:61-68 | after deleting an id, no group holds a file with that id |
| FileUpload.TypeOrder | src/pages/FileUpload.tsx:33-38 | the key order of `fileTypeConfig`: image, video, SketchUp, receipt |
| FileUpload.TypeInTableOrder | src/pages/FileUpload.tsx:33-38 | every type has a row in the section table |
| FileUpload.Sections | src/pages/FileUpload.tsx:137-139 | the types, in table order, whose group is present and non-empty |
| FileUpload.SectionIffFilesOfType | src/pages/FileUpload.tsx:137-139 | a type gets a section exactly when some file has that type |
| FileUpload.FileBoard.constructor | src/pages/FileUpload.tsx:42-43 | starts with the two mock files and type `image` |
| FileUpload.FileBoard.SelectType | src/pages/FileUpload.tsx:96 | sets the selected type; the files are unchanged |
| FileUpload.FileBoard.Upload | src/pages/FileUpload.tsx:45-58 | the files become the old files followed by the batch, typed with the selected type |
| FileUpload.FileBoard.Delete | src/pages/FileUpload.tsx:60-62 | the files lose every file with the id; the selected type is unchanged |
| ForemanView.Toggled | src/pages/ForemanView.tsx:47-51 | same length, ids and tasks; `completed` is flipped on the items with the id and kept on the others |
| ForemanView.ToggleTwiceRestores | src/pages/ForemanView.tsx:47-51 | toggling the same id twice restores the list |
| ForemanView.ToggleLeavesOthers | src/pages/ForemanView.tsx:48-50 | an item with another id is left identical |
| ForemanView.ToggleUnknownIdIsNoOp | src/pages/ForemanView.tsx:48-50 | an id that no item has changes nothing |
| ForemanView.CompletedCount | src/pages/ForemanView.tsx:53 | the count is at most the list length |
| ForemanView.AllCompletedIffFullCount | src/pages/ForemanView.tsx:53 | the count equals the length exactly when every item is completed |
| ForemanView.ToggleMovesCountByOne | src/pages/ForemanView.tsx:47-53 | when ids are unique, a toggle moves the count by exactly one: down if the item was done, up otherwise |
| ForemanView.Progress | src/pages/ForemanView.tsx:54 | defined exactly when the list is non-empty |
| ForemanView.ProgressIsPercentage | src/pages/ForemanView.tsx:53-54 | progress lies in 0..100 and is 100 exactly when every item is completed |
| ForemanView.InitialChecklist | src/pages/ForemanView.tsx:25-32 | the six tasks the checklist starts with, the first two done |
| ForemanView.InitialChecklistState | src/pages/ForemanView.tsx:25-32 | six items with the first two done: count 2, progress 200/6 |
| ForemanView.Checklist.constructor | src/pages/ForemanView.tsx:25-32 | starts with the initial checklist |
| ForemanView.Checklist.Toggle | src/pages/ForemanView.tsx:47-51 | the checklist becomes its toggled copy |
| Dashboard.Bucket | src/pages/Dashboard.tsx:70-73 | a bucket holds only list members of its status, and every such member |
| Dashboard.BucketExactly | src/pages/Dashboard.tsx:70-73 | a bucket is an order-preserving subsequence holding every copy of each job of its status and nothing else |
| Dashboard.BucketsDisjoint | src/pages/Dashboard.tsx:70-73 | buckets of different statuses share no job |
| Dashboard.BucketSizesSum | src/pages/Dashboard.tsx:70-73 | the eight status buckets' sizes add up to the list length |
| Dashboard.BucketOfOne | src/pages/Dashboard.tsx:70-73 | a status held at exactly one position gives a bucket of that job alone |
| Dashboard.BucketOfNone | src/pages/Dashboard.tsx:70-73 | a status that no job holds gives an empty bucket |
| Dashboard.TodayJobs | src/pages/Dashboard.tsx:65-68 | holds only in-progress jobs and measuring jobs created today, and every such job |
| Dashboard.InProgressAlwaysToday | src/pages/Dashboard.tsx:65-72 | the in-progress bucket is a subsequence of today's jobs |
| Dashboard.TodayIsInProgressPlusMeasuringToday | src/pages/Dashboard.tsx:65-68 | today's jobs are, copy for copy, the in-progress jobs plus the measuring jobs created today |
| Dashboard.TotalRevenue | src/pages/Dashboard.tsx:75-77 | the sum of `totalAmount`, or 0 when it is missing, over the completed and in-progress jobs |
| Dashboard.RevenueOfConcat | src/pages/Dashboard.tsx:75-77 | the revenue of two lists together is the sum of their revenues |
| Dashboard.OtherStatusAddsNoRevenue | src/pages/Dashboard.tsx:76 | a job that is neither completed nor in progress, added at either end, leaves revenue unchanged |
| Dashboard.CountedJobAddsItsAmount | src/pages/Dashboard.tsx:75-77 | a completed or in-progress job adds its amount, or 0 when the amount is missing |
| Dashboard.RevenueIsTwoBuckets | src/pages/Dashboard.tsx:75-77 | revenue is the completed bucket's amounts plus the in-progress bucket's amounts |
| Dashboard.Recent | src/pages/Dashboard.tsx:174 | the first min(5, n) jobs, in order |
| Dashboard.Cards | src/pages/Dashboard.tsx:79-115 | five cards; each card's count is the length of its job list |
| Dashboard.CardsShowBuckets | src/pages/Dashboard.tsx:79-115 | the cards stand for today's jobs and the measuring, quoting, in-progress and pending-follow buckets, in that order |
| Dashboard.StatusCardsWithinList | src/pages/Dashboard.tsx:70-115 | the four status cards together count no more than the list length |
| Dashboard.ShowsNotifications | src/pages/Dashboard.tsx:208 | the panel is shown when the role is `admin` |
| Dashboard.NotificationsOnlyForAdmin | src/pages/Dashboard.tsx:208 | of the roles that reach the dashboard, only `admin` sees the panel |
| Dashboard.MockJobs | src/pages/Dashboard.tsx:15-48 | the four mock jobs, with their statuses, creation dates and amounts |
| Dashboard.MockProfileBuckets | src/pages/Dashboard.tsx:70-73 | a list with the mock list's statuses has one job per status bucket and none completed |
| Dashboard.MockProfileRevenue | src/pages/Dashboard.tsx:75-77 | such a list's revenue is the in-progress job's amount |
| Dashboard.MockProfileToday | src/pages/Dashboard.tsx:65-68 | such a list's today card is job 3, preceded by job 1 when job 1 was created today |
| Dashboard.MockRevenue | src/pages/Dashboard.tsx:15-48 | the mock list's revenue is 300000 |
| Dashboard.MockToday | src/pages/Dashboard.tsx:15-48 | the mock measuring job is on today's card only on 2024-01-15 |
| Dashboard.MockBuckets | src/pages/Dashboard.tsx:15-48 | each mock status bucket holds one job |
| Dashboard.MockRecent | src/pages/Dashboard.tsx:15-48 | all four mock jobs are listed as recent |
| Dashboard.MockCards | src/pages/Dashboard.tsx:79-115 | each mock status card counts one |
| QuotationPage.Timeline | src/pages/Quotation.tsx:131-162 | empty exactly for `not-created`; otherwise it starts with the sent entry; at most two entries; the accepted (rejected) entry appears exactly for `accepted` (`rejected`) |
| QuotationPage.TimelineDeterminesStatus | src/pages/Quotation.tsx:131-162 | the status read back from the timeline is the status it was drawn from |
| QuotationPage.TimelineByStatus | src/pages/Quotation.tsx:131-162 | the four timelines: [], [sent], [sent, accepted], [sent, rejected] |
| QuotationPage.FollowUpOffered | src/pages/Quotation.tsx:118 | the follow-up button is shown when the status is `sent` |
| QuotationPage.FollowUpIffAwaitingAnswer | src/pages/Quotation.tsx:118-141 | the follow-up button is shown exactly when the timeline is the sent entry alone |
| QuotationPage.BadgeOf | src/pages/Quotation.tsx:6-11 | the badge colour of each status |
| QuotationPage.BadgeIdentifiesStatus | src/pages/Quotation.tsx:6-11 | distinct statuses have distinct badges |
| QuotationPage.StatusOptions | src/pages/Quotation.tsx:58-61 | the select has four options |
| QuotationPage.EveryStatusSelectable | src/pages/Quotation.tsx:53-62 | every status is an option, so any status can follow any other |
| QuotationPage.QuotationForm.constructor | src/pages/Quotation.tsx:15-17 | starts at `not-created`, amount 150000, empty notes, with no timeline and no follow-up |
| QuotationPage.QuotationForm.SetStatus | src/pages/Quotation.tsx:55 | any status replaces any other with no guard; follow-up is shown exactly when the new status is `sent`; amount and notes are unchanged |
| QuotationPage.QuotationForm.SetAmount | src/pages/Quotation.tsx:72 | replaces the amount; status and notes are unchanged |
| QuotationPage.QuotationForm.SetNotes | src/pages/Quotation.tsx:104 | replaces the notes; status and amount are unchanged |
| App.SignedInOnly | src/App.tsx:32-115 | a route's page inside the layout when a role is set, else a redirect to `/login` |
| App.PageAt | src/App.tsx:32-127 | the page component each route renders; `/login` renders none inside the layout |
| App.Resolve | src/App.tsx:22-127 | a page inside the layout always carries the current role; `/login` redirects only to `/`, every other route only to `/login`; the login screen appears only at `/login` when signed out |
| App.SignedOutRedirectsToLogin | src/App.tsx:32-127 | with a null role, every protected route redirects to `/login` |
| App.SignedInRendersOrdinaryRoutes | src/App.tsx:32-115 | with any role, the dashboard, jobs, job detail, appointment, files, quotation and payment routes render their page |
| App.ForemanPageGate | src/App.tsx:116-127 | the foreman page renders exactly for `foreman` or `admin`; everyone else is redirected to `/login` |
| App.LoginRouteOutcome | src/App.tsx:22-31 | `/login` redirects to `/` when a role is set, and shows the login screen otherwise |
| App.LayoutShowsTheRoutesPage | src/App.tsx:32-127 | what renders in the layout is the route's own page |
| App.Follow | src/App.tsx:22-127 | following redirects only ever stops at a redirect to `/` or `/login`; a page inside the layout carries the current role |
| App.RedirectsSettle | src/App.tsx:22-127 | two hops from any route reach a screen: the login screen when signed out, a page inside the layout when signed in |
| App.OwnerAtForemanPageLandsOnDashboard | src/App.tsx:116-127 | an owner who opens the foreman page ends on the dashboard by way of `/login` |
| App.Session.constructor | src/App.tsx:17 | the role starts as null |
| App.Session.LogIn | src/App.tsx:28 | the role becomes the chosen one, and `/login` then redirects to `/` |
| App.Session.LogOut | src/App.tsx:36 | the role becomes null, and every protected route then redirects to `/login` |

## Left out

- Presentation: JSX markup, Tailwind classes, icons, Thai labels other than the card titles, and the `toLocaleString` / `toLocaleDateString` formatting. The labels and colours of the badge tables are reduced to a tone per status.
- src/pages/JobDetail.tsx, src/pages/Appointment.tsx, src/pages/Login.tsx and src/components/Layout.tsx are not part of this model. They hold display, form state with `alert`/`navigate`, and menu toggling. The dashboard's own badge table (src/pages/Dashboard.tsx:50-62) is the same table as the job list's, so `JobList.BadgeOf` stands for both.
- JobList.StatusBadge: the lookup is modelled over the eight wire strings and a fallback. The JavaScript quirk is not modelled: a key such as `constructor`, inherited from `Object.prototype`, would find a non-badge entry.
- JobList.Lowered: `toLowerCase` is an arbitrary per-character mapping. Unicode case mappings that change a string's length are not captured.
- Payments.Progress: amounts and percentages are exact integers and reals. The binary floating point of `paid / total * 100` in JavaScript is not modelled, so a quotient that floating point puts just below a half may round differently. The width of the progress bar (src/pages/Payment.tsx:212) is presentation.
- ForemanView.Progress: an exact real, without floating-point rounding. The empty list's `NaN` is `None`.
- The clock: `Date.now()` and `new Date()` (src/pages/FileUpload.tsx:50, 54; src/pages/Dashboard.tsx:67) are parameters. Ids are proved distinct within one batch only. Distinctness across batches depends on the clock and is not claimed.
- Dashboard.TodayJobs: the source evaluates `new Date()` once per job, inside the `filter` callback. The model takes one date per call. So it does not capture a filter that runs across midnight (UTC) and compares different jobs against different dates.
- A picked `File` object is reduced to its name, the only property the upload reads.
- The page-level `useState` re-rendering and React's asynchronous state updates are not modelled. Each handler is a method that replaces the state at once.
- Behaviour the code does not have, which is not modelled:
  - a job-status transition table (job status is only read);
  - an access policy beyond route gating;
  - job-code generation;
  - marking a payment phase paid (`setPayments` is never called, and the record-payment button has no handler);
  - creating daily reports or expenses, which the foreman page shows from a fixed list with no setter.
- Unmatched paths: the router has no catch-all route, and paths are not parsed from strings. A route is a datatype value.
- QuotationPage.QuotationForm.SetAmount: the input's `Number(e.target.value)` may give a fraction or `NaN`. The model takes an integer.

## Findings

None.
