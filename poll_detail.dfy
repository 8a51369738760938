/**
 * The poll detail page: its view state (`selectedOption`, `hasVoted`, `showResults`),
 * the effect that reads the ledger when a poll is loaded, the vote handler, and the
 * values the page derives from the store for rendering.
 */
module PollDetail {
  import opened Wrappers
  import opened Text
  import opened PollTypes
  import opened Storage
  import opened VoteLedger
  import opened PollSlice

  /** The arguments of the `vote` request: the route's poll id and `parseInt(selectedOption)`. */
  datatype VoteRequest = VoteRequest(pollId: string, optionId: Option<int>)

  /** Which of the page's mutually exclusive bodies is rendered. */
  datatype Screen =
    | Spinner
    | ErrorPanel
    | NotFound
    | VoteForm
    | Results(thankYou: bool, endedNotice: bool)

  /** `currentPoll?.options?.reduce((sum, o) => sum + o.voteCount, 0) || 0`. */
  function DetailTotalVotes(currentPoll: Option<Poll>): (r: int)
    ensures currentPoll.None? || currentPoll.value.options.None? ==> r == 0
    ensures currentPoll.Some? && currentPoll.value.options.Some? ==> r == SumVotes(currentPoll.value.options.value)
  {
    match currentPoll
    case None => 0
    case Some(poll) =>
      match poll.options
      case None => 0
      case Some(options) => SumVotes(options)
  }

  /** The results' share of one option: `totalVotes > 0 ? voteCount / totalVotes * 100 : 0`. */
  function DetailPercentage(optionVotes: int, totalVotes: int): (r: real)
    ensures totalVotes <= 0 ==> r == 0.0
    ensures totalVotes > 0 ==> r * totalVotes as real == optionVotes as real * 100.0
  {
    if totalVotes > 0 then optionVotes as real / totalVotes as real * 100.0 else 0.0
  }

  /** `if (error)`: the stored rejection value is truthy, that is present and not the empty string. */
  predicate ErrorShown(error: Option<ErrorValue>) {
    error.Some? && error.value != ""
  }

  /**
   * What the page renders: the spinner while loading, then the error panel, then
   * "not found"; with a poll, the vote form exactly when the user neither asked for
   * results nor has voted and the poll is not expired, otherwise the results, which carry
   * the thank-you alert and the ended notice.
   */
  function DetailScreen(isLoading: bool, error: Option<ErrorValue>, currentPoll: Option<Poll>,
                        hasVoted: bool, showResults: bool, now: int): (r: Screen)
    ensures r.Spinner? <==> isLoading
    ensures r.ErrorPanel? <==> !isLoading && error.Some? && error.value != ""
    ensures r.VoteForm? <==> !isLoading && !(error.Some? && error.value != "") && currentPoll.Some?
                             && !showResults && !hasVoted && !IsExpired(currentPoll.value.expiresAt, now)
    ensures r.Results? || r.VoteForm? <==> !isLoading && !(error.Some? && error.value != "") && currentPoll.Some?
    ensures r.Results? ==> currentPoll.Some? && (r.thankYou <==> hasVoted && !IsExpired(currentPoll.value.expiresAt, now))
    ensures r.Results? ==> currentPoll.Some? && (r.endedNotice <==> IsExpired(currentPoll.value.expiresAt, now))
  {
    if isLoading then Spinner
    else if ErrorShown(error) then ErrorPanel
    else if currentPoll.None? then NotFound
    else
      var expired := IsExpired(currentPoll.value.expiresAt, now);
      if !showResults && !hasVoted && !expired then VoteForm
      else Results(hasVoted && !expired, expired)
  }

  /** An empty rejection value is falsy: the page renders as if there were no error. */
  lemma EmptyErrorIsNotShown(isLoading: bool, currentPoll: Option<Poll>, hasVoted: bool, showResults: bool, now: int)
    ensures DetailScreen(isLoading, Some(""), currentPoll, hasVoted, showResults, now)
         == DetailScreen(isLoading, None, currentPoll, hasVoted, showResults, now)
  {
  }

  /** Once the user has voted, the page shows results, thanking them unless the poll has expired. */
  lemma VotedPageShowsResults(poll: Poll, now: int)
    ensures DetailScreen(false, None, Some(poll), true, true, now)
         == Results(!IsExpired(poll.expiresAt, now), IsExpired(poll.expiresAt, now))
  {
  }

  class DetailView {
    const routeId: string
    var selectedOption: string
    var hasVoted: bool
    var showResults: bool

    /** The page's initial view state for the route `/poll/<routeId>`. */
    constructor (routeId: string)
      ensures this.routeId == routeId
      ensures selectedOption == "" && !hasVoted && !showResults
    {
      this.routeId := routeId;
      selectedOption := "";
      hasVoted := false;
      showResults := false;
    }

    /** The radio group's change handler; the values offered are `option.id.toString()`. */
    method SelectOption(value: string)
      modifies this
      ensures selectedOption == value
      ensures hasVoted == old(hasVoted) && showResults == old(showResults)
    {
      selectedOption := value;
    }

    /** The effect on a new current poll: both flags become "a non-empty flag is stored". */
    method OnCurrentPollChanged(store: PollStore, storage: LocalStorage)
      modifies this
      ensures store.currentPoll.Some? ==> hasVoted == DetailHasVoted(storage.items, routeId)
      ensures store.currentPoll.Some? ==> showResults == DetailHasVoted(storage.items, routeId)
      ensures store.currentPoll.None? ==> hasVoted == old(hasVoted) && showResults == old(showResults)
      ensures selectedOption == old(selectedOption)
    {
      if store.currentPoll.Some? {
        var voted := storage.GetItem(VotedKey(routeId));
        var truthy := voted.Some? && voted.value != "";
        hasVoted := truthy;
        showResults := truthy;
      }
    }

    /**
     * The vote handler. With no option selected it does nothing. Otherwise it sends the
     * vote; only when the request succeeds does it write both ledger entries and set both
     * flags. A failed vote changes the store's loading and error fields and nothing else.
     */
    method HandleVote(store: PollStore, storage: LocalStorage, outcome: Outcome<Poll>)
      returns (request: Option<VoteRequest>)
      modifies this, store, storage
      ensures selectedOption == old(selectedOption)
      ensures request == if selectedOption == "" then None
                         else Some(VoteRequest(routeId, ParseInt(selectedOption)))
      ensures request.None? ==> store.State() == old(store.State()) && storage.items == old(storage.items)
                                && hasVoted == old(hasVoted) && showResults == old(showResults)
      ensures request.Some? && outcome.Succeeded? ==>
                storage.items == RecordVote(old(storage.items), routeId, selectedOption)
                && hasVoted && showResults
                && store.State() == old(store.State()).(isLoading := false, error := None,
                     currentPoll := Some(outcome.value), polls := ReplaceFirstById(old(store.polls), outcome.value))
      ensures request.Some? && outcome.Failed? ==>
                storage.items == old(storage.items) && hasVoted == old(hasVoted) && showResults == old(showResults)
                && store.State() == old(store.State()).(isLoading := false, error := Some(outcome.error))
    {
      if selectedOption == "" {
        return None;
      }
      request := Some(VoteRequest(routeId, ParseInt(selectedOption)));
      VoteThunk(store, outcome);
      if outcome.Succeeded? {
        MarkVoted(storage);
      }
    }

    /** The success path of the vote handler: both ledger entries written, both flags set. */
    method MarkVoted(storage: LocalStorage)
      modifies this, storage
      ensures storage.items == RecordVote(old(storage.items), routeId, selectedOption)
      ensures hasVoted && showResults && selectedOption == old(selectedOption)
    {
      storage.SetItem(VotedKey(routeId), "true");
      storage.SetItem(VotedOptionKey(routeId), selectedOption);
      hasVoted := true;
      showResults := true;
    }
  }

  /**
   * A successful vote on a loaded poll leaves the page on the results, whatever it showed
   * before: the store is no longer loading, has no error and holds the returned poll.
   */
  method VoteThenRender(view: DetailView, store: PollStore, storage: LocalStorage, poll: Poll, now: int)
    returns (screen: Screen)
    requires view.selectedOption != ""
    modifies view, store, storage
    ensures screen == Results(!IsExpired(poll.expiresAt, now), IsExpired(poll.expiresAt, now))
  {
    var _ := view.HandleVote(store, storage, Succeeded(poll));
    screen := DetailScreen(store.isLoading, store.error, store.currentPoll, view.hasVoted, view.showResults, now);
  }
}
