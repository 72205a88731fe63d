/**
 * The values the application receives from its data hooks: transaction
 * records, employee identities, one page of the paginated feed, and the
 * "all employees" sentinel. Records are opaque payload here: nothing in the
 * coordinator looks inside them.
 */
module Domain {
  import opened Wrappers

  datatype Employee = Employee(id: string, firstName: string, lastName: string)

  datatype Transaction = Transaction(
    id: string,
    amount: int,
    employee: Employee,
    merchant: string,
    date: string,
    approved: bool
  )

  /** One page of the unfiltered feed; `nextPage == None` is the `null` cursor of the last page. */
  datatype PaginatedResponse = PaginatedResponse(data: seq<Transaction>, nextPage: Option<int>)

  /**
   * The picker's "All Employees" entry. It is not a directory employee; the
   * view tells it apart by identity and the dispatcher by its id.
   */
  const EmptyEmployee: Employee := Employee("", "All", "Employees")

  /** The cache snapshot `paginatedTransactions` says this is the last page. */
  predicate IsLastPage(page: Option<PaginatedResponse>) {
    page.Some? && page.value.nextPage.None?
  }

  /** The records of a cache snapshot, or none when no page is cached. */
  function PageData(page: Option<PaginatedResponse>): seq<Transaction> {
    match page
    case Some(p) => p.data
    case None => []
  }

  /** Position of the first directory entry whose id is `id`, if any. */
  function FirstIndexWithId(employees: seq<Employee>, id: string): (r: Option<nat>)
    ensures r.Some? ==> r.value < |employees| && employees[r.value].id == id
    ensures r.Some? ==> forall j :: 0 <= j < r.value ==> employees[j].id != id
    ensures r.None? <==> forall j :: 0 <= j < |employees| ==> employees[j].id != id
  {
    if |employees| == 0 then None
    else if employees[0].id == id then Some(0)
    else
      match FirstIndexWithId(employees[1..], id)
      case None => None
      case Some(k) => Some(k + 1)
  }

  /**
   * The directory lookup of the picker handler: the first entry with that
   * id, or nothing when the directory is not loaded or has no such entry.
   */
  function FindEmployee(employees: Option<seq<Employee>>, id: string): (r: Option<Employee>)
    ensures r.Some? ==> employees.Some? && r.value in employees.value && r.value.id == id
    ensures r.Some? ==> exists i :: 0 <= i < |employees.value| && employees.value[i] == r.value
                                 && forall j :: 0 <= j < i ==> employees.value[j].id != id
    ensures r.None? <==> employees.None? || forall e :: e in employees.value ==> e.id != id
  {
    match employees
    case None => None
    case Some(es) =>
      match FirstIndexWithId(es, id)
      case None => None
      case Some(i) => Some(es[i])
  }
}
