/**
 * The home page: the view mode ("active" or "all") and page number, the fetch
 * parameters derived from them, and the pagination and empty-state conditions.
 * The effect that reloads the polls runs after each change of mode or page.
 */
module Home {
  import opened Wrappers
  import opened PollTypes
  import opened PollSlice

  /** Polls per page requested from the backend. */
  const PageLimit := 9

  /** The view mode the page starts in, and the one that asks for active polls only. */
  const ActiveMode := "active"

  const NoActivePollsText := "There are no active polls at the moment."
  const NoPollsText := "No polls have been created yet."

  /** The `fetchPolls` parameters `{page, limit, active}`. */
  datatype FetchQuery = FetchQuery(page: int, limit: int, active: bool)

  /** The query for a page in a mode: nine polls, active ones only in the "active" mode. */
  function FetchParams(page: int, viewMode: string): (q: FetchQuery)
    ensures q.page == page && q.limit == PageLimit
    ensures q.active <==> viewMode == ActiveMode
  {
    FetchQuery(page, PageLimit, viewMode == ActiveMode)
  }

  /** The page body below the toggle: a spinner while loading, otherwise the poll grid. */
  datatype HomeBody =
    | Spinner
    | Listing(emptyText: Option<string>, pager: bool)

  /**
   * The body for a store state: while loading only the spinner; otherwise the grid,
   * with the empty-state text when there are no polls (its wording chosen by the mode
   * alone) and the pager when there is more than one page.
   */
  function Body(isLoading: bool, pollCount: nat, totalPages: int, viewMode: string): (r: HomeBody)
    ensures r.Spinner? <==> isLoading
    ensures r.Listing? ==> (r.pager <==> totalPages > 1)
    ensures r.Listing? ==> (r.emptyText.Some? <==> pollCount == 0)
    ensures r.Listing? && r.emptyText.Some? ==> (r.emptyText.value == NoActivePollsText <==> viewMode == ActiveMode)
    ensures r.Listing? && r.emptyText.Some? ==> (r.emptyText.value == NoPollsText <==> viewMode != ActiveMode)
  {
    if isLoading then Spinner
    else
      var emptyText := if pollCount != 0 then None
                       else if viewMode == ActiveMode then Some(NoActivePollsText)
                       else Some(NoPollsText);
      Listing(emptyText, totalPages > 1)
  }

  /** The empty-state text does not depend on the page count, and any two non-active modes word it alike. */
  lemma EmptyTextDependsOnlyOnMode(totalPages: int, otherPages: int, mode: string, otherMode: string)
    requires (mode == ActiveMode) == (otherMode == ActiveMode)
    ensures Body(false, 0, totalPages, mode).emptyText == Body(false, 0, otherPages, otherMode).emptyText
  {
  }

  class HomeView {
    var viewMode: string
    var page: int

    constructor ()
      ensures viewMode == ActiveMode && page == 1
    {
      viewMode := ActiveMode;
      page := 1;
    }

    /** A toggle event; `None` (the selected button clicked again) is ignored, any mode resets the page. */
    method HandleViewModeChange(newViewMode: Option<string>)
      modifies this
      ensures newViewMode.None? ==> viewMode == old(viewMode) && page == old(page)
      ensures newViewMode.Some? ==> viewMode == newViewMode.value && page == 1
    {
      if newViewMode.Some? {
        viewMode := newViewMode.value;
        page := 1;
      }
    }

    /** A pager event: the page changes, the mode does not. */
    method HandlePageChange(value: int)
      modifies this
      ensures page == value && viewMode == old(viewMode)
    {
      page := value;
    }

    /** `loadPolls`: dispatches `fetchPolls` with the parameters of the current mode and page. */
    method LoadPolls(store: PollStore, outcome: Outcome<PollPage>) returns (query: FetchQuery)
      modifies store
      ensures query == FetchParams(page, viewMode)
      ensures outcome.Succeeded? ==> store.State() == old(store.State()).(isLoading := false, error := None,
                polls := outcome.value.polls, totalPages := outcome.value.totalPages,
                currentPage := outcome.value.currentPage, totalPolls := outcome.value.totalPolls)
      ensures outcome.Failed? ==> store.State() == old(store.State()).(isLoading := false, error := Some(outcome.error))
    {
      query := FetchParams(page, viewMode);
      FetchPollsThunk(store, outcome);
    }
  }

  /** After any mode change the next load asks for the first page of that mode. */
  method ModeChangeThenLoad(view: HomeView, store: PollStore, mode: string, outcome: Outcome<PollPage>)
    returns (query: FetchQuery)
    modifies view, store
    ensures query == FetchQuery(1, PageLimit, mode == ActiveMode)
  {
    view.HandleViewModeChange(Some(mode));
    query := view.LoadPolls(store, outcome);
  }
}
