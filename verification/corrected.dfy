/**
 * The stale-page defect of "View More" and its correction.
 *
 * `loadAllTransactions` and `loadMoreTransactions` read the page their
 * closure captured at the last render, while the page their awaited fetch
 * produces only reaches the next render. As written, a click therefore
 * appends the page that was already on screen, and the `hasMore` effect then
 * latches on the page that never gets appended: in a two-page feed the second
 * page is never displayed and the button disappears.
 *
 * The corrected handlers append the page the fetch delivered.
 */
module Corrected {
  import opened Wrappers
  import opened Domain
  import opened App
  import opened Session

  /** Load-all that resets the list to the page its own fetch delivered. */
  function LoadAllFetched(s: AppState, fetched: PaginatedResponse): (r: Step)
    ensures r.state.selected == Sentinel
    ensures r.state.allTransactions == fetched.data
    ensures r.state.hasMoreTransactions <==> s.hasMoreTransactions && fetched.nextPage.Some?
    ensures r.requests == LoadAllTransactions(s, None).requests
  {
    Step(ObservePage(s, Some(fetched)).(selected := Sentinel, allTransactions := fetched.data),
         [InvalidateByEmployee, FetchEmployees, FetchPaginated])
  }

  /** Load-more that appends the page its own fetch delivered. */
  function LoadMoreFetched(s: AppState, fetched: PaginatedResponse): (r: Step)
    ensures r.state.selected == s.selected
    ensures |r.state.allTransactions| == |s.allTransactions| + |fetched.data|
    ensures r.state.allTransactions[..|s.allTransactions|] == s.allTransactions
    ensures r.state.allTransactions[|s.allTransactions|..] == fetched.data
    ensures r.state.hasMoreTransactions <==> s.hasMoreTransactions && fetched.nextPage.Some?
    ensures r.requests == [FetchPaginated]
  {
    LoadMoreTransactions(s, Some(fetched))
  }

  /** Successive corrected load-more calls, one per delivered page. */
  function LoadMoreAll(s: AppState, fetched: seq<PaginatedResponse>): AppState
    decreases |fetched|
  {
    if fetched == [] then s else LoadMoreAll(LoadMoreFetched(s, fetched[0]).state, fetched[1..])
  }

  /** The delivered pages as the snapshots the paginated cache held. */
  function Snapshots(pages: seq<PaginatedResponse>): (r: seq<Option<PaginatedResponse>>)
    ensures |r| == |pages|
    ensures forall i :: 0 <= i < |pages| ==> r[i] == Some(pages[i])
  {
    if pages == [] then [] else [Some(pages[0])] + Snapshots(pages[1..])
  }

  /** The corrected list is the previous list followed by every delivered page, in order. */
  lemma {:induction false} LoadMoreAllAccumulates(s: AppState, fetched: seq<PaginatedResponse>)
    ensures LoadMoreAll(s, fetched).allTransactions == s.allTransactions + Concat(Snapshots(fetched))
    ensures LoadMoreAll(s, fetched).selected == s.selected
    decreases |fetched|
  {
    if fetched != [] {
      var next := LoadMoreFetched(s, fetched[0]).state;
      AppendsCapturedPage(s, Some(fetched[0]));
      LoadMoreAllAccumulates(next, fetched[1..]);
      assert Snapshots(fetched)[1..] == Snapshots(fetched[1..]);
      ConcatCons(s.allTransactions, Snapshots(fetched));
    }
  }

  /**
   * The intended property: after the corrected load-all delivers the first
   * page and corrected load-more calls deliver the rest, the view is every
   * delivered record in feed order, with the last delivered page in the cache.
   */
  lemma CorrectedViewShowsEveryPage(s: AppState, pages: seq<PaginatedResponse>,
                                    byEmployee: Option<seq<Transaction>>)
    requires |pages| > 0
    ensures var st := LoadMoreAll(LoadAllFetched(s, pages[0]).state, pages[1..]);
            View(st, Some(pages[|pages| - 1]), byEmployee) == Some(Concat(Snapshots(pages)))
  {
    var start := LoadAllFetched(s, pages[0]).state;
    LoadMoreAllAccumulates(start, pages[1..]);
    assert Snapshots(pages)[1..] == Snapshots(pages[1..]);
    ConcatCons([], Snapshots(pages));
    if Concat(Snapshots(pages)) == [] {
      EmptyConcatHasEmptyPages(pages, |pages| - 1);
    }
  }

  /** A run of pages with no records has no records on any page. */
  lemma {:induction false} EmptyConcatHasEmptyPages(pages: seq<PaginatedResponse>, i: nat)
    requires i < |pages| && Concat(Snapshots(pages)) == []
    ensures pages[i].data == []
    decreases i
  {
    assert Snapshots(pages)[1..] == Snapshots(pages[1..]);
    ConcatCons([], Snapshots(pages));
    if i > 0 {
      EmptyConcatHasEmptyPages(pages[1..], i - 1);
    }
  }

  /**
   * The defect as written: the directory effect loads the empty list, the
   * first page (with a cursor) renders, "View More" is clicked, and the
   * second, final page renders. The view still holds only the first page's
   * record, and the button is gone, whatever the final cache snapshot holds.
   */
  lemma AsWrittenSecondPageNeverShown(t0: Transaction, final: PaginatedResponse)
    requires final.nextPage.None?
    ensures var page0 := PaginatedResponse([t0], Some(1));
            var st := Run(Initial, [DirectoryRendered(None, None), PageRendered(Some(page0)),
                                    ViewMoreClicked(Some(page0)), PageRendered(Some(final))]).state;
            View(st, Some(final), None) == Some([t0]) && !ViewMoreVisible(st)
  {
    var page0 := PaginatedResponse([t0], Some(1));
    var e0, e1, e2, e3 := DirectoryRendered(None, None), PageRendered(Some(page0)),
                          ViewMoreClicked(Some(page0)), PageRendered(Some(final));
    var s1 := LoadAllTransactions(Initial, None).state;
    assert s1 == AppState(Sentinel, [], true);
    var s3 := LoadMoreTransactions(s1, Some(page0)).state;
    AppendsCapturedPage(s1, Some(page0));
    assert s3 == AppState(Sentinel, [t0], true);
    var s4 := ObservePage(s3, Some(final));
    assert s4 == AppState(Sentinel, [t0], false);
    RunCons(s3, e3, []);
    RunCons(s1, e2, [e3]);
    RunCons(s1, e1, [e2, e3]);
    RunCons(Initial, e0, [e1, e2, e3]);
    assert [e0, e1, e2, e3] == [e0] + [e1, e2, e3];
  }

  /** The same two pages through the corrected handlers: both records are shown. */
  lemma CorrectedSecondPageShown(t0: Transaction, t1: Transaction)
    ensures var page0 := PaginatedResponse([t0], Some(1));
            var page1 := PaginatedResponse([t1], None);
            var st := LoadMoreAll(LoadAllFetched(Initial, page0).state, [page1]);
            View(st, Some(page1), None) == Some([t0, t1]) && !ViewMoreVisible(st)
  {
    var page0 := PaginatedResponse([t0], Some(1));
    var page1 := PaginatedResponse([t1], None);
    CorrectedViewShowsEveryPage(Initial, [page0, page1], None);
    assert [page0, page1][1..] == [page1];
    assert Concat(Snapshots([page0, page1])) == [t0, t1] by {
      assert Snapshots([page0, page1]) == [Some(page0), Some(page1)];
      assert Concat([Some(page1)]) == [t1];
    }
  }
}
