/**
 * The selection/view coordinator of the `App` component with React removed.
 *
 * The coordinator's own state is the selected employee, the accumulated
 * list `allTransactions` and the `hasMoreTransactions` flag. The two data
 * caches (`paginatedTransactions`, `transactionsByEmployee`) belong to hooks
 * whose internals are not modelled: every operation receives the snapshot it
 * reads as a parameter, and asks the hooks for work by returning `Request`s.
 * A snapshot passed to a handler is the one its closure captured at the last
 * render, not the value the awaited fetch later produces.
 */
module App {
  import opened Wrappers
  import opened Domain

  /**
   * `selectedEmployee`: the sentinel object itself, a directory entry, or
   * `null` when a picked id matched no directory entry.
   */
  datatype Selection = Sentinel | Emp(employee: Employee) | NoMatch

  datatype AppState = AppState(
    selected: Selection,
    allTransactions: seq<Transaction>,
    hasMoreTransactions: bool
  )

  /** The work a handler asks of the data hooks, in the order it asks. */
  datatype Request =
    | InvalidateByEmployee
    | FetchEmployees
    | FetchPaginated
    | InvalidatePaginated
    | FetchByEmployee(employeeId: string)

  datatype Step = Step(state: AppState, requests: seq<Request>)

  /** The state of the first render. */
  const Initial: AppState := AppState(Sentinel, [], true)

  /**
   * The `transactions` memo: what the list component is given. The sentinel
   * test is by identity, so only `Sentinel` selects the paginated feed; a
   * directory entry and `null` both select the by-employee result.
   */
  function View(s: AppState, paginated: Option<PaginatedResponse>,
                byEmployee: Option<seq<Transaction>>): (r: Option<seq<Transaction>>)
    ensures s.selected.Sentinel? && |s.allTransactions| > 0 ==> r == Some(s.allTransactions)
    ensures s.selected.Sentinel? && s.allTransactions == [] ==>
              (r.Some? <==> paginated.Some?) && (r.Some? ==> r.value == paginated.value.data)
    ensures !s.selected.Sentinel? ==> r == byEmployee
  {
    if s.selected == Sentinel then
      if |s.allTransactions| > 0 then Some(s.allTransactions)
      else if paginated.Some? then Some(paginated.value.data)
      else None
    else byEmployee
  }

  /**
   * The effect on `paginatedTransactions`: once a rendered page carries a
   * `null` cursor the flag drops, and nothing else changes.
   */
  function ObservePage(s: AppState, paginated: Option<PaginatedResponse>): (r: AppState)
    ensures r.selected == s.selected && r.allTransactions == s.allTransactions
    ensures r.hasMoreTransactions ==> s.hasMoreTransactions
    ensures r.hasMoreTransactions <==> s.hasMoreTransactions && !IsLastPage(paginated)
  {
    if IsLastPage(paginated) then s.(hasMoreTransactions := false) else s
  }

  /**
   * The first part of `loadAllTransactions`, up to the awaited fetches:
   * select the sentinel, drop the by-employee cache, fetch the directory and
   * a page. The accumulated list is not touched yet.
   */
  function BeginLoadAll(s: AppState): (r: Step)
    ensures r.state.selected == Sentinel
    ensures r.state.allTransactions == s.allTransactions
    ensures r.state.hasMoreTransactions == s.hasMoreTransactions
    ensures r.requests == [InvalidateByEmployee, FetchEmployees, FetchPaginated]
  {
    Step(s.(selected := Sentinel), [InvalidateByEmployee, FetchEmployees, FetchPaginated])
  }

  /**
   * `loadAllTransactions` once its awaits have resolved: the requests of
   * `BeginLoadAll`, then the accumulated list reset to the data of the page
   * captured before the fetch (empty if none).
   */
  function LoadAllTransactions(s: AppState, captured: Option<PaginatedResponse>): (r: Step)
    ensures r.state.selected == Sentinel
    ensures r.state.allTransactions == PageData(captured)
    ensures r.state.hasMoreTransactions == s.hasMoreTransactions
    ensures r.requests == [InvalidateByEmployee, FetchEmployees, FetchPaginated]
  {
    var begun := BeginLoadAll(s);
    Step(begun.state.(allTransactions := PageData(captured)), begun.requests)
  }

  /**
   * `loadMoreTransactions`: fetch the next page, drop the flag if the
   * captured page was the last one, and append the captured page's data.
   */
  function LoadMoreTransactions(s: AppState, captured: Option<PaginatedResponse>): (r: Step)
    ensures r.state.selected == s.selected
    ensures |r.state.allTransactions| == |s.allTransactions| + |PageData(captured)|
    ensures r.state.allTransactions[..|s.allTransactions|] == s.allTransactions
    ensures r.state.allTransactions[|s.allTransactions|..] == PageData(captured)
    ensures r.state.hasMoreTransactions <==> s.hasMoreTransactions && !IsLastPage(captured)
    ensures r.requests == [FetchPaginated]
  {
    var latched := ObservePage(s, captured);
    Step(latched.(allTransactions := s.allTransactions + PageData(captured)), [FetchPaginated])
  }

  /**
   * `loadTransactionsByEmployee`: the sentinel's id delegates to
   * `loadAllTransactions`; any other id selects the matching directory entry
   * (or `null`), invalidates the paginated cache and fetches that employee.
   */
  function LoadTransactionsByEmployee(s: AppState, employeeId: string,
                                      employees: Option<seq<Employee>>,
                                      captured: Option<PaginatedResponse>): (r: Step)
    ensures employeeId == EmptyEmployee.id ==> r == LoadAllTransactions(s, captured)
    ensures employeeId != EmptyEmployee.id ==>
              && r.state.allTransactions == s.allTransactions
              && r.state.hasMoreTransactions == s.hasMoreTransactions
              && r.requests == [InvalidatePaginated, FetchByEmployee(employeeId)]
              && !r.state.selected.Sentinel?
    ensures employeeId != EmptyEmployee.id && r.state.selected.Emp? ==>
              employees.Some? && r.state.selected.employee in employees.value
              && r.state.selected.employee.id == employeeId
    ensures employeeId != EmptyEmployee.id && r.state.selected.Emp? ==>
              Some(r.state.selected.employee) == FindEmployee(employees, employeeId)
    ensures employeeId != EmptyEmployee.id ==>
              (r.state.selected.NoMatch? <==>
                 employees.None? || forall e :: e in employees.value ==> e.id != employeeId)
  {
    if employeeId == EmptyEmployee.id then
      LoadAllTransactions(s, captured)
    else
      var selected := match FindEmployee(employees, employeeId)
                      case Some(e) => Emp(e)
                      case None => NoMatch;
      Step(s.(selected := selected), [InvalidatePaginated, FetchByEmployee(employeeId)])
  }

  /** The picker's `onChange`: a `null` value is ignored, anything else dispatches on its id. */
  function OnChange(s: AppState, newValue: Option<Employee>, employees: Option<seq<Employee>>,
                    captured: Option<PaginatedResponse>): (r: Step)
    ensures newValue.None? ==> r.state == s && r.requests == []
    ensures newValue.Some? ==> r == LoadTransactionsByEmployee(s, newValue.value.id, employees, captured)
  {
    match newValue
    case None => Step(s, [])
    case Some(e) => LoadTransactionsByEmployee(s, e.id, employees, captured)
  }

  /**
   * The mount effect on the directory. Its second test reads `loading` from
   * the rest object of the `useEmployees` destructuring, which no longer has
   * that field, so the test is always true and only `employees === null`
   * decides.
   */
  function DirectoryEffect(s: AppState, employees: Option<seq<Employee>>,
                           captured: Option<PaginatedResponse>): (r: Step)
    ensures employees.Some? ==> r.state == s && r.requests == []
    ensures employees.None? ==> r == LoadAllTransactions(s, captured)
  {
    if employees.None? then LoadAllTransactions(s, captured) else Step(s, [])
  }

  /** Whether the "View More" button is rendered. */
  predicate ViewMoreVisible(s: AppState) {
    s.selected == Sentinel && s.hasMoreTransactions
  }

  // ---------------------------------------------------------------------
  // Properties of the view
  // ---------------------------------------------------------------------

  /**
   * The view draws on exactly one source at a time: under the sentinel it
   * never shows the by-employee result, and under any other selection it
   * shows neither the accumulated list nor the paginated page.
   */
  lemma ViewSourceIsolation(s: AppState, p1: Option<PaginatedResponse>, p2: Option<PaginatedResponse>,
                            b1: Option<seq<Transaction>>, b2: Option<seq<Transaction>>,
                            all2: seq<Transaction>)
    ensures s.selected.Sentinel? ==> View(s, p1, b1) == View(s, p1, b2)
    ensures !s.selected.Sentinel? ==> View(s, p1, b1) == View(s.(allTransactions := all2), p2, b1)
  {
  }

  /** Every record shown comes from the source the selection names, and `None` means "not loaded". */
  lemma ViewProvenance(s: AppState, paginated: Option<PaginatedResponse>,
                       byEmployee: Option<seq<Transaction>>)
    ensures View(s, paginated, byEmployee).None? <==>
              if s.selected.Sentinel? then s.allTransactions == [] && paginated.None?
              else byEmployee.None?
    ensures forall t :: View(s, paginated, byEmployee).Some? && t in View(s, paginated, byEmployee).value ==>
              if s.selected.Sentinel? then t in s.allTransactions || t in PageData(paginated)
              else t in byEmployee.value
  {
  }

  /** "View More" is offered only while the view is fed by the paginated feed. */
  lemma ViewMoreOnlyOverFeed(s: AppState, paginated: Option<PaginatedResponse>,
                             byEmployee: Option<seq<Transaction>>)
    requires ViewMoreVisible(s)
    ensures View(s, paginated, byEmployee) ==
              if s.allTransactions == [] then (if paginated.Some? then Some(paginated.value.data) else None)
              else Some(s.allTransactions)
  {
  }

  /**
   * Picking an employee and then the sentinel, with the paginated cache
   * already emptied by the first pick: once the list has been reset after
   * the awaited fetches, the view is exactly the reloaded page.
   */
  lemma ReturnToAllShowsFreshPage(s: AppState, employeeId: string, employees: Option<seq<Employee>>,
                                  captured: Option<PaginatedResponse>, reloaded: PaginatedResponse,
                                  byEmployee: Option<seq<Transaction>>)
    requires employeeId != EmptyEmployee.id
    ensures var picked := LoadTransactionsByEmployee(s, employeeId, employees, captured);
            var back := LoadTransactionsByEmployee(picked.state, EmptyEmployee.id, employees, None);
            && picked.requests[0] == InvalidatePaginated
            && View(back.state, Some(reloaded), byEmployee) == Some(reloaded.data)
  {
  }

  /**
   * Until then the old list is back on screen: picking an employee keeps the
   * accumulated list, and while the fetches of the return to the sentinel are
   * pending, a non-empty list from before the pick is shown again, whatever
   * either cache holds.
   */
  lemma ReturnToAllShowsOldListWhilePending(s: AppState, employeeId: string,
                                            employees: Option<seq<Employee>>,
                                            captured: Option<PaginatedResponse>,
                                            paginated: Option<PaginatedResponse>,
                                            byEmployee: Option<seq<Transaction>>)
    requires employeeId != EmptyEmployee.id && s.allTransactions != []
    ensures var picked := LoadTransactionsByEmployee(s, employeeId, employees, captured);
            View(BeginLoadAll(picked.state).state, paginated, byEmployee) == Some(s.allTransactions)
  {
  }

  /**
   * The view tests the sentinel by identity but the dispatcher tests ids: a
   * directory entry that shares the sentinel's id can never be selected, as
   * picking it runs the load-all path instead.
   */
  lemma SentinelIdShadowsDirectoryEntry(s: AppState, e: Employee, employees: Option<seq<Employee>>,
                                        captured: Option<PaginatedResponse>)
    requires e.id == EmptyEmployee.id
    ensures OnChange(s, Some(e), employees, captured).state.selected == Sentinel
  {
  }
}
