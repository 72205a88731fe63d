/**
 * Runs of the coordinator: the events the component reacts to, applied in
 * order. Each event carries the snapshots its handler or effect reads, so a
 * run fixes one interleaving of renders without simulating the scheduler.
 */
module Session {
  import opened Wrappers
  import opened Domain
  import opened App

  datatype Event =
      /** A render with a new `paginatedTransactions` runs the `hasMore` effect. */
    | PageRendered(paginated: Option<PaginatedResponse>)
      /** A click on "View More"; the button exists only while it is visible. */
    | ViewMoreClicked(captured: Option<PaginatedResponse>)
      /** The picker reports a value, possibly `null`. */
    | EmployeePicked(newValue: Option<Employee>, employees: Option<seq<Employee>>,
                     captured: Option<PaginatedResponse>)
      /** The mount effect on the directory runs. */
    | DirectoryRendered(employees: Option<seq<Employee>>, captured: Option<PaginatedResponse>)

  function Apply(s: AppState, e: Event): (r: Step)
    ensures r.state.hasMoreTransactions ==> s.hasMoreTransactions
    ensures e.ViewMoreClicked? && !ViewMoreVisible(s) ==> r == Step(s, [])
  {
    match e
    case PageRendered(p) => Step(ObservePage(s, p), [])
    case ViewMoreClicked(c) => if ViewMoreVisible(s) then LoadMoreTransactions(s, c) else Step(s, [])
    case EmployeePicked(v, es, c) => OnChange(s, v, es, c)
    case DirectoryRendered(es, c) => DirectoryEffect(s, es, c)
  }

  /**
   * The state after a run and every request it issued, in order. No event
   * ever raises `hasMoreTransactions` again once it has dropped.
   */
  function Run(s: AppState, events: seq<Event>): (r: Step)
    ensures r.state.hasMoreTransactions ==> s.hasMoreTransactions
    decreases |events|
  {
    if events == [] then Step(s, [])
    else
      var first := Apply(s, events[0]);
      var rest := Run(first.state, events[1..]);
      Step(rest.state, first.requests + rest.requests)
  }

  /** A run starting with `e` continues from the state `e` leads to. */
  lemma RunCons(s: AppState, e: Event, rest: seq<Event>)
    ensures Run(s, [e] + rest).state == Run(Apply(s, e).state, rest).state
  {
    assert ([e] + rest)[1..] == rest;
  }

  /** Once a rendered page has a `null` cursor, the flag is false for the rest of the run. */
  lemma {:induction false} LastPageLatches(s: AppState, events: seq<Event>, i: nat)
    requires i < |events| && events[i].PageRendered? && IsLastPage(events[i].paginated)
    ensures !Run(s, events).state.hasMoreTransactions
    decreases i
  {
    var first := Apply(s, events[0]);
    if i == 0 {
      assert !first.state.hasMoreTransactions;
    } else {
      LastPageLatches(first.state, events[1..], i - 1);
    }
  }

  /** After the flag drops, "View More" never reappears, whatever the operator does. */
  lemma ViewMoreNeverReturns(s: AppState, events: seq<Event>)
    requires !s.hasMoreTransactions
    ensures !ViewMoreVisible(Run(s, events).state)
  {
  }

  /** A run of "View More" clicks, each with the page its closure captured. */
  function Clicks(captured: seq<Option<PaginatedResponse>>): (r: seq<Event>)
    ensures |r| == |captured|
    ensures forall i :: 0 <= i < |r| ==> r[i] == ViewMoreClicked(captured[i])
  {
    if captured == [] then [] else [ViewMoreClicked(captured[0])] + Clicks(captured[1..])
  }

  /** The records of a run of pages, concatenated in order. */
  function Concat(pages: seq<Option<PaginatedResponse>>): seq<Transaction> {
    if pages == [] then [] else PageData(pages[0]) + Concat(pages[1..])
  }

  function Repeat<T>(x: T, n: nat): (r: seq<T>)
    ensures |r| == n
    ensures forall i :: 0 <= i < n ==> r[i] == x
  {
    if n == 0 then [] else [x] + Repeat(x, n - 1)
  }

  /** The first click of a run is handled by `loadMoreTransactions`, then the rest of the run follows. */
  lemma ClicksUnfold(s: AppState, captured: seq<Option<PaginatedResponse>>)
    requires captured != [] && ViewMoreVisible(s)
    ensures var first := LoadMoreTransactions(s, captured[0]);
            var rest := Run(first.state, Clicks(captured[1..]));
            Run(s, Clicks(captured)) == Step(rest.state, first.requests + rest.requests)
  {
    var events := Clicks(captured);
    assert events[0] == ViewMoreClicked(captured[0]);
    assert events[1..] == Clicks(captured[1..]);
  }

  /** The list after one load-more is the list before it followed by the captured page. */
  lemma AppendsCapturedPage(s: AppState, captured: Option<PaginatedResponse>)
    ensures LoadMoreTransactions(s, captured).state.allTransactions == s.allTransactions + PageData(captured)
  {
    var t := LoadMoreTransactions(s, captured).state.allTransactions;
    assert t == t[..|s.allTransactions|] + t[|s.allTransactions|..];
  }

  /**
   * Load more is an order-preserving append: while no captured page but the
   * final one is the last page, a run of clicks leaves the previous list
   * followed by every captured page's data, in click order, and the
   * selection stays on the sentinel.
   */
  lemma {:induction false} ClicksAccumulate(s: AppState, captured: seq<Option<PaginatedResponse>>)
    requires s.selected.Sentinel? && s.hasMoreTransactions
    requires forall i :: 0 <= i < |captured| - 1 ==> !IsLastPage(captured[i])
    ensures Run(s, Clicks(captured)).state.allTransactions == s.allTransactions + Concat(captured)
    ensures Run(s, Clicks(captured)).state.selected == Sentinel
    decreases |captured|
  {
    if captured != [] {
      ClicksUnfold(s, captured);
      var first := LoadMoreTransactions(s, captured[0]);
      AppendsCapturedPage(s, captured[0]);
      if |captured| == 1 {
        assert Clicks(captured[1..]) == [];
        assert Concat(captured[1..]) == [];
      } else {
        ClickKeepsButton(s, captured);
        ClicksAccumulate(first.state, captured[1..]);
      }
      ConcatCons(s.allTransactions, captured);
    }
  }

  /** A click on a page that is not the last keeps the run's preconditions for the remaining clicks. */
  lemma ClickKeepsButton(s: AppState, captured: seq<Option<PaginatedResponse>>)
    requires s.selected.Sentinel? && s.hasMoreTransactions && |captured| > 1
    requires forall i :: 0 <= i < |captured| - 1 ==> !IsLastPage(captured[i])
    ensures var next := LoadMoreTransactions(s, captured[0]).state;
            next.selected.Sentinel? && next.hasMoreTransactions
    ensures forall i :: 0 <= i < |captured[1..]| - 1 ==> !IsLastPage(captured[1..][i])
  {
    assert !IsLastPage(captured[0]);
    forall i | 0 <= i < |captured[1..]| - 1
      ensures !IsLastPage(captured[1..][i])
    {
      assert captured[1..][i] == captured[i + 1];
    }
  }

  lemma ConcatCons(prefix: seq<Transaction>, pages: seq<Option<PaginatedResponse>>)
    requires pages != []
    ensures prefix + PageData(pages[0]) + Concat(pages[1..]) == prefix + Concat(pages)
  {
    ConcatUnfold(pages);
    AppendAssoc(prefix, PageData(pages[0]), Concat(pages[1..]));
  }

  lemma ConcatUnfold(pages: seq<Option<PaginatedResponse>>)
    requires pages != []
    ensures Concat(pages) == PageData(pages[0]) + Concat(pages[1..])
  {
  }

  lemma AppendAssoc<T>(a: seq<T>, b: seq<T>, c: seq<T>)
    ensures a + b + c == a + (b + c)
  {
  }

  /** Under the same conditions, "View More" stays offered exactly until a last page is captured. */
  lemma {:induction false} ClicksKeepViewMore(s: AppState, captured: seq<Option<PaginatedResponse>>)
    requires s.selected.Sentinel? && s.hasMoreTransactions
    requires forall i :: 0 <= i < |captured| - 1 ==> !IsLastPage(captured[i])
    ensures (ViewMoreVisible(Run(s, Clicks(captured)).state)
             <==> captured == [] || !IsLastPage(captured[|captured| - 1]))
    decreases |captured|
  {
    if captured != [] {
      ClicksUnfold(s, captured);
      ClicksAccumulate(s, captured);
      var first := LoadMoreTransactions(s, captured[0]);
      if |captured| == 1 {
        assert Clicks(captured[1..]) == [];
      } else {
        ClicksKeepViewMore(first.state, captured[1..]);
        assert captured[1..][|captured[1..]| - 1] == captured[|captured| - 1];
      }
    }
  }

  /** Each click that the button accepts asks the paginated hook for exactly one page. */
  lemma {:induction false} ClicksRequestPages(s: AppState, captured: seq<Option<PaginatedResponse>>)
    requires s.selected.Sentinel? && s.hasMoreTransactions
    requires forall i :: 0 <= i < |captured| - 1 ==> !IsLastPage(captured[i])
    ensures Run(s, Clicks(captured)).requests == Repeat(FetchPaginated, |captured|)
    decreases |captured|
  {
    if captured != [] {
      ClicksUnfold(s, captured);
      var first := LoadMoreTransactions(s, captured[0]);
      if |captured| == 1 {
        assert Clicks(captured[1..]) == [];
      } else {
        ClicksRequestPages(first.state, captured[1..]);
      }
      assert [FetchPaginated] + Repeat(FetchPaginated, |captured| - 1)
          == Repeat(FetchPaginated, |captured|);
    }
  }

  /**
   * Without a pick or a directory reload in between, the accumulated list
   * only grows at its end: every earlier entry stays, in place.
   */
  lemma {:induction false} AccumulationOnlyAppends(s: AppState, events: seq<Event>)
    requires forall i :: 0 <= i < |events| ==> events[i].PageRendered? || events[i].ViewMoreClicked?
    ensures var t := Run(s, events).state.allTransactions;
            |s.allTransactions| <= |t| && t[..|s.allTransactions|] == s.allTransactions
    ensures Run(s, events).state.selected == s.selected
    decreases |events|
  {
    if events != [] {
      var first := Apply(s, events[0]);
      AccumulationOnlyAppends(first.state, events[1..]);
      var t1 := first.state.allTransactions;
      assert |s.allTransactions| <= |t1| && t1[..|s.allTransactions|] == s.allTransactions;
      var t := Run(s, events).state.allTransactions;
      assert t[..|t1|] == t1;
      assert t[..|s.allTransactions|] == t1[..|s.allTransactions|];
    }
  }
}
