# Visitor list/editor view — a Dafny model

This project models the Visitor list/editor view of a React front end for a
corporate facility-booking system (`src/components/VisitorList.tsx`). The
view keeps an in-memory list of visitor records and shows it five rows a
page. It has one form that serves both create and update, and a detail
popup.

- `wrappers.dfy`: module `Wrappers`, the `Option` type used for the
  nullable state slots.
- `visitor_records.dfy`: module `VisitorRecords`, the visitor record and
  the two pure list updates. One appends the record returned by a create
  (`[...prev, x]`). The other replaces records by id after an update
  (`prev.map(...)`).
- `pagination.dfy`: module `Pagination`. It covers page size 5, ceiling
  division for the number of the last page, JavaScript's `slice` with
  negative and out-of-range bounds, the clamping "Next" and "Previous"
  arithmetic, and when each button is disabled.
- `visitor_list.dfy`: module `VisitorListView`. Class `VisitorList` has
  one field per `useState` slot and one method per event handler. Each
  method's `modifies` clause names exactly the slots that handler sets.

The network is modelled as parameters. Each handler takes the server's
reply as a `Reply<T>`: either `Response(status, data)` or `Threw`. Each
handler also returns the `Request` it would send. A transport failure ends
as `Threw`, and so does every status outside 200-299. The HTTP client
rejects such a status, and the shared client's error interceptor
(`src/services/httpService.ts`) turns every rejection into an `undefined`
response. Reading its `status` or `data` then throws inside the handler's
`try`. The handlers therefore require a `Delivered` reply: a `Response`
carries a 2xx status. The "Failed to …" messages come only from a 2xx
status other than 200 and 201. After a successful update, the
update handler awaits a reload of the list. The model reports this through
the `reloads` result of `EditVisitor`/`Submit`, and the reload itself is a
following `FetchVisitors` call (see `UpdateAndReload`).

Behaviour of the code worth knowing (the model follows the code):

- The Add New Visitor / Cancel button only flips the "adding" flag. The
  fields and the editing id stay as they were. So Edit, then Cancel, then
  Add New Visitor reopens the form still editing that record, and submitting
  it runs an update (`EditThenCancel`).
- Submit routes on JavaScript truthiness of the editing id. An id of 0
  therefore runs the create handler even while editing.
- The page is not revalidated when the list changes. On a page past the
  end, "Next" jumps back to the last page. On an empty list it sets the
  page to 0, whose slice `slice(-5, 0)` is empty.
- Page numbers stay natural numbers: both handlers produce only values
  >= 0, so `currentPage` is a `nat`.

## Model

| member | source | states |
|---|---|---|
| `VisitorRecords.Appended` | src/components/VisitorList.tsx:59 | the list after a create is one longer, keeps every earlier record in place, ends with the returned record, and holds that record exactly once more than before (no other record's count changes) |
| `VisitorRecords.ReplaceById` | src/components/VisitorList.tsx:87-91 | the list after an update has the same length; at every position the record is the returned one if the old record's id equals the editing id, and the old record otherwise |
| `VisitorRecords.ReplaceByIdIdempotent` | src/components/VisitorList.tsx:87-91 | applying the same update twice gives the same list as applying it once |
| `VisitorRecords.ReplaceByIdNoMatch` | src/components/VisitorList.tsx:87-91 | an update whose id matches no record leaves the list unchanged |
| `VisitorRecords.ReplaceByIdKeepsIds` | src/components/VisitorList.tsx:87-91 | when the returned record carries the edited id, every position keeps its id |
| `Pagination.PageCount` | src/components/VisitorList.tsx:128 | `(n + 4) / 5` is the ceiling of n/5: the smallest page count whose pages hold n rows, and 0 exactly for an empty list |
| `Pagination.SliceBound` | src/components/VisitorList.tsx:125 | a normalised slice bound lies in `0..n` and equals the given bound when that is already in range |
| `Pagination.VisibleRows` | src/components/VisitorList.tsx:123-125 | page p >= 1 shows `visitors[min((p-1)*5, n) .. min(p*5, n)]`; row k is record `(p-1)*5 + k`; at most 5 rows; full pages before the last; pages 1 to the last are non-empty; page 0 and pages past the end are empty |
| `Pagination.NextPageNumber` | src/components/VisitorList.tsx:127-129 | "Next" never goes above the last page; below it advances by one; on it stays; past it drops back to the last page; for an empty list gives 0 |
| `Pagination.PreviousPageNumber` | src/components/VisitorList.tsx:131-133 | "Previous" never goes below 1; above page 1 goes back by one; on page 1 stays; from page 0 goes to 1 |
| `Pagination.JsSlice` | src/components/VisitorList.tsx:125 | `slice(start, end)` is the run of the list that begins at the normalised start and is as long as the normalised end exceeds it (empty otherwise) |
| `Pagination.PreviousDisabled` | src/components/VisitorList.tsx:215 | "Previous" is disabled exactly on the page where pressing it would not change the page |
| `Pagination.NextDisabled` | src/components/VisitorList.tsx:217 | "Next" is disabled exactly on the page where pressing it would not change the page |
| `Pagination.NextPreviousInverse` | src/components/VisitorList.tsx:127-133 | within pages 1 to the last, "Previous" undoes "Next" and "Next" undoes "Previous" |
| `Pagination.PagesCoverList` | src/components/VisitorList.tsx:123-125 | pages 1 to the last shown one after another are exactly the list |
| `Pagination.RecordPage` | src/components/VisitorList.tsx:123-125 | record i is row i mod 5 of page i/5 + 1, which is a page in range |
| `Pagination.EmptyListShowsNothing` | src/components/VisitorList.tsx:123-129 | with no visitors every page shows an empty table and "Next" gives page 0 |
| `VisitorListView.Succeeded` | src/components/VisitorList.tsx:57 | a create or update succeeds only on a response; a delivered response that does not succeed carries a 2xx status other than 200 and 201 |
| `VisitorListView.IsTruthy` | src/components/VisitorList.tsx:158 | a truthy editing id is present, so the update handler's null guard passes; the only present id that is not truthy is 0 |
| `VisitorListView.VisitorList.CurrentVisitors` | src/components/VisitorList.tsx:123-125 | the table body holds at most five rows, row k being record `(page-1)*5 + k` of the list |
| `VisitorListView.VisitorList.PopupShown` | src/components/VisitorList.tsx:221 | in a valid state the popup is rendered exactly when it is open |
| `VisitorListView.VisitorList.constructor` | src/components/VisitorList.tsx:13-23 | the initial state: empty list, empty hidden form, no editing id, no notification, page 1, popup closed |
| `VisitorListView.VisitorList.FetchVisitors` | src/components/VisitorList.tsx:26-33 | a reply replaces the whole list with the returned one; an exception leaves it unchanged; nothing else changes |
| `VisitorListView.VisitorList.FetchVisitorDetails` | src/components/VisitorList.tsx:40-48 | requests the visitor by id; a reply puts the returned record in the popup and opens it; an exception changes nothing |
| `VisitorListView.VisitorList.ClosePopup` | src/components/VisitorList.tsx:145-148 | closes the popup and clears the selected visitor |
| `VisitorListView.VisitorList.ResetForm` | src/components/VisitorList.tsx:136-142 | empties the three fields, hides the form and clears the editing id, touching nothing else |
| `VisitorListView.VisitorList.EditClick` | src/components/VisitorList.tsx:109-115 | copies the record's name, email and phone into the form, sets the editing id to its id and shows the form; the list is untouched |
| `VisitorListView.VisitorList.ToggleForm` | src/components/VisitorList.tsx:153 | flips only the "adding" flag; fields, editing id and list are untouched |
| `VisitorListView.VisitorList.SetName` | src/components/VisitorList.tsx:163 | typing sets the name field only |
| `VisitorListView.VisitorList.SetEmail` | src/components/VisitorList.tsx:170 | typing sets the email field only |
| `VisitorListView.VisitorList.SetPhoneNumber` | src/components/VisitorList.tsx:177 | typing sets the phone field only |
| `VisitorListView.VisitorList.AddVisitor` | src/components/VisitorList.tsx:51-71 | sends the three fields; on 200/201 appends the returned record, reports success and resets the form; on another 2xx status or an exception (which includes every non-2xx status) keeps list and form and reports the matching failure message |
| `VisitorListView.VisitorList.EditVisitor` | src/components/VisitorList.tsx:74-106 | with no editing id sends nothing and changes nothing; otherwise sends the id with the fields; on 200/201 replaces the records with that id, reports success, resets the form and asks for a reload; on another 2xx status or an exception keeps list and form and reports the matching failure message |
| `VisitorListView.VisitorList.Submit` | src/components/VisitorList.tsx:158 | only while the form is shown and its required fields are filled; a truthy editing id (present and non-zero) sends an update with that id, anything else a create; list, form, notification and reload follow the handler that ran |
| `VisitorListView.VisitorList.NextPage` | src/components/VisitorList.tsx:127-129 | sets the page to `NextPageNumber` of the old page and the current list length |
| `VisitorListView.VisitorList.PreviousPage` | src/components/VisitorList.tsx:131-133 | sets the page to `PreviousPageNumber` of the old page |
| `VisitorListView.EditThenCancel` | src/components/VisitorList.tsx:109-115 | Edit then Cancel changes only the form slots: the list, page, notification and popup are untouched; the form is hidden but keeps the record's fields and id, so a later submit runs an update |
| `VisitorListView.UpdateAndReload` | src/components/VisitorList.tsx:83-96 | after a successful update the list ends as the reloaded copy, or as the locally patched list if the reload throws; a failed update leaves the list unchanged; the form is reset exactly on success and the notification reports the update's outcome; page and popup are untouched |

The class invariant `VisitorList.Valid` (the popup is open exactly when a
visitor is selected) is kept by every handler.

## Left out

- The `setTimeout` that clears the notification after three seconds (lines 70 and 105). Timers are not modelled, so the notification keeps its last message.
- Concurrency: requests in flight that interleave with other events. Each handler is modelled as one atomic step that runs from the event to the reply.
- The mount effect (lines 35-37). It is just a `FetchVisitors` call on a fresh view.
- Malformed or empty response bodies. A reply's `data` is always a well-formed record or list. The shared HTTP client's `alert` for an empty body is I/O.
- JavaScript numbers such as `NaN` or fractional ids. Ids and statuses are unbounded integers.
- The browser's check that the email field holds a well-formed address (`type="email"`, line 167). `Submit` requires only that the three required fields are non-empty.
- `preventDefault`, console logging, JSX rendering and CSS. Only the derived values are modelled: the visible rows, the disabled buttons and which handler a submit runs.
- `src/services/httpService.ts` and `src/services/api.ts`. These are HTTP plumbing against a library that is not part of this model.
- `src/components/BookingList.tsx`, `src/components/FacilityList.tsx`, `src/components/Visitor.tsx`, `src/App.tsx` and the layout components. They hold fetch-and-render, routing and static markup, with no state transitions of their own.
