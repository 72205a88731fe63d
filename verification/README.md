# Transaction-list coordinator of the `App` component

This project models the selection/view coordinator of the `App` component of
the transaction-browser front end (`src/App.tsx`). The component shows one
list of transactions. The list comes either from a cursor-paginated feed of
all transactions, accumulated page by page as the operator clicks "View More",
or from a per-employee feed chosen in an employee picker.

With React removed, the coordinator is a small state machine:

- `App.Selection` is the selected employee. It is the "All Employees"
  sentinel object itself (`Sentinel`), a directory entry (`Emp`), or `null`
  when a picked id matched no directory entry (`NoMatch`).
- `App.AppState` holds the selection, the accumulated list `allTransactions`
  and the `hasMoreTransactions` flag.
- The two data caches, the paginated page (`data` plus `nextPage`) and the
  by-employee result, belong to hooks whose code is not part of this model.
  Every operation receives the cache snapshot it reads as a parameter. It asks
  the hooks for work by returning `App.Request` values (invalidate, fetch) in
  the order the handler issues them.
- A handler's snapshot parameter is the value its closure captured at the
  last render. It is not the value its awaited fetch produces; that value only
  reaches the next render.

`App.View` is the `transactions` memo. `App.ObservePage` is the effect on the
paginated snapshot. `App.LoadAllTransactions`, `App.LoadMoreTransactions`,
`App.LoadTransactionsByEmployee`, `App.OnChange` and `App.DirectoryEffect`
are the handlers and the mount effect. `Session.Run` applies a sequence of
events (renders, clicks, picks) in order, so properties over many steps can be
stated without simulating the scheduler.

The view and the dispatcher test the sentinel differently. The view compares
by identity, so only `Sentinel` shows the paginated feed. The dispatcher
compares ids, so a directory entry that shares the sentinel's id runs the
load-all path (`App.SentinelIdShadowsDirectoryEntry`).

The model follows the code as written, including these behaviours:

- Returning to "All Employees" resets the list to the page the closure
  captured. It does not reset to a page fetched for this purpose.
- `hasMoreTransactions` is a one-way latch and is never reset, even when
  load-all starts again from page one.
- An id with no directory entry selects `null`, which shows the by-employee
  result.
- Picking an employee leaves `allTransactions` alone. The view ignores it
  off the sentinel, but on the way back to "All Employees" the sentinel is
  selected (line 57) before the list is reset (line 63, after two awaits).
  While those fetches are pending, a non-empty list from before the pick is
  shown again (`App.ReturnToAllShowsOldListWhilePending`).
- The mount effect reads `employeeUtils.loading` from the rest object of the
  `useEmployees` destructuring, which no longer has that field. So only
  `employees === null` decides whether it runs load-all.

The values of the sentinel (`src/utils/constants.ts`) and the record types
(`src/utils/types.ts`) are not part of this model. `Domain.EmptyEmployee`
assumes an empty id. No proof depends on that value except through
`EmptyEmployee.id` itself.

## Model

| member | source | states |
|---|---|---|
| Domain.FirstIndexWithId | src/App.tsx:96 | the position returned holds an employee with the id, and no earlier entry has it; nothing is returned exactly when no entry has the id |
| Domain.FindEmployee | src/App.tsx:96 | the lookup yields the first directory entry with the id; it yields `null` exactly when the directory is not loaded or holds no such id |
| App.View | src/App.tsx:42-53 | under the sentinel, a non-empty accumulated list is shown as is; an empty one falls back to the cached page's data, or `null` when no page is cached; any other selection shows exactly the by-employee result |
| App.ViewSourceIsolation | src/App.tsx:43-47 | under the sentinel the by-employee result never affects the view; off the sentinel neither the accumulated list nor the cached page affects it |
| App.ViewProvenance | src/App.tsx:43-47 | the view is `null` exactly when the source the selection names has nothing loaded, and every record shown comes from that source |
| App.ObservePage | src/App.tsx:36-40 | the flag drops exactly when it was set and the rendered page has a `null` cursor; it never rises; the selection and the list are unchanged |
| App.BeginLoadAll | src/App.tsx:56-61 | before the awaits resolve, the selection is already the sentinel while the list and the flag are unchanged; the by-employee cache is invalidated before the directory and a page are fetched |
| App.LoadAllTransactions | src/App.tsx:55-71 | the selection becomes the sentinel, the list becomes the captured page's data (empty without a page), the flag is kept, and the by-employee cache is invalidated before the directory and a page are fetched |
| App.LoadMoreTransactions | src/App.tsx:73-88 | the old list is a prefix of the new one and the captured page's data is the rest; the flag drops exactly on a captured last page; one page fetch is requested |
| App.LoadTransactionsByEmployee | src/App.tsx:90-108 | the sentinel's id is exactly load-all; any other id keeps the list and the flag, selects the first directory entry carrying that id, or `null` exactly when none matches, and requests paginated invalidation then a fetch for that id |
| App.OnChange | src/App.tsx:133-139 | a `null` picker value changes nothing and requests nothing; any other value dispatches on its id |
| App.DirectoryEffect | src/App.tsx:110-114 | load-all runs exactly when the directory is `null`; otherwise nothing changes |
| App.ViewMoreOnlyOverFeed | src/App.tsx:147 | while "View More" is visible, the view is the accumulated list or the cached page, never the by-employee result |
| App.ReturnToAllShowsFreshPage | src/App.tsx:57-99 | picking an employee invalidates the paginated cache first; returning to the sentinel with that cache empty shows exactly the reloaded page once line 63 has reset the list |
| App.ReturnToAllShowsOldListWhilePending | src/App.tsx:43-99 | after a pick, while the return to the sentinel awaits its fetches, a non-empty list from before the pick is shown again whatever either cache holds |
| App.SentinelIdShadowsDirectoryEntry | src/App.tsx:92-93 | a picked entry with the sentinel's id always ends with the sentinel selected |
| Session.Apply | src/App.tsx:147-153 | a "View More" click while the button is hidden does nothing; no event raises the flag |
| Session.Run | src/App.tsx:34-40 | over any run of events the flag can only go from true to false |
| Session.LastPageLatches | src/App.tsx:36-40 | once any rendered page has a `null` cursor, the flag is false at the end of the run |
| Session.ViewMoreNeverReturns | src/App.tsx:147 | after the flag drops, "View More" is hidden after every later run |
| Session.AppendsCapturedPage | src/App.tsx:82-85 | one load-more yields the old list followed by the captured page's data |
| Session.ClicksAccumulate | src/App.tsx:82-85 | a run of clicks yields the old list followed by every captured page's data in click order, and the selection stays the sentinel |
| Session.ClicksKeepViewMore | src/App.tsx:78-80 | during a run of clicks the button stays visible exactly until a captured page is the last one |
| Session.ClicksRequestPages | src/App.tsx:76 | each accepted click requests exactly one page fetch |
| Session.AccumulationOnlyAppends | src/App.tsx:82-85 | with only renders and clicks, every earlier entry of the list stays in place and the selection is unchanged |
| Corrected.AsWrittenSecondPageNeverShown | src/App.tsx:63-85 | as written, with a two-page feed the view after "View More" holds only the first page and the button is gone |
| Corrected.LoadAllFetched | src/App.tsx:55-71 | the corrected load-all selects the sentinel, sets the list to the delivered page, and latches on that page |
| Corrected.LoadMoreFetched | src/App.tsx:73-88 | the corrected load-more keeps the old list as a prefix and appends the delivered page |
| Corrected.LoadMoreAllAccumulates | src/App.tsx:82-85 | corrected load-more calls yield the old list followed by every delivered page in order |
| Corrected.CorrectedViewShowsEveryPage | src/App.tsx:42-85 | after the corrected load-all and load-more calls, the view is every delivered record in feed order |
| Corrected.CorrectedSecondPageShown | src/App.tsx:63-85 | the same two-page feed through the corrected handlers shows both records and hides the button |

## Left out

- The internals of `useEmployees`, `usePaginatedTransactions` and `useTransactionsByEmployee` are not part of this model. Their snapshots are parameters and their invalidate/fetch calls are `App.Request` values.
- React effect and render scheduling and `async`/`await` ordering are left out. `Session.Run` takes one interleaving as a sequence of events.
- The `isLoading` flag and the per-cache loading flags are left out. `isLoading` is written but never read by the view.
- The button's `disabled={paginatedTransactionsLoading}` (line 150) is left out, so the model accepts "View More" clicks while a page is loading. Such a click appends its captured page again. This over-approximates the clicks the component accepts, so the all-runs lemmas in `Session` still hold of every run the component can take.
- JSX rendering, CSS classes and the `InputSelect`, `Transactions` and `Instructions` components are left out as presentation.
- `src/components/InputCheckbox/index.tsx` is left out. Its only logic is the negation `onChange(!checked)`.
- The network transport and the directory fetch are left out as foreign calls.
- Fetch failures are left out. The model assumes every awaited call at lines 60, 61 and 76 resolves. If one rejects, the rest of the handler is skipped: there is no reset at line 63, no append at lines 82-85, and `isLoading` stays true. `App.LoadAllTransactions` and `App.LoadMoreTransactions` always reset or append, so they do not describe that path.
- App.LoadAllTransactions: merges lines 56-58 and line 63 into one step, so `Session.Run` has no render between them. The interim state, where the old list can reappear, is stated separately by `App.BeginLoadAll` and `App.ReturnToAllShowsOldListWhilePending`.

## Findings

| source | as written | input that shows it | evidently intended | confidence | as-written member | corrected member |
|---|---|---|---|---|---|---|
| src/App.tsx:63-85 | load-all and load-more copy the paginated page their closure captured before the awaited fetch; the `hasMore` effect later latches on the fetched page | mount with an empty list; page 1 (one record, cursor 1) renders; "View More" is clicked; page 2 (cursor `null`) renders. The view still holds page 1 only and the button is gone, so page 2 is never shown | every fetched page is appended and shown in feed order | medium, not executed | Corrected.AsWrittenSecondPageNeverShown | Corrected.CorrectedViewShowsEveryPage |
