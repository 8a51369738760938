/**
 * The poll store: the `polls` slice of the Redux store and its reducers, and the async
 * thunks that drive them. Each request dispatches a pending event, then a fulfilled or a
 * rejected one; every event is reduced to completion before the next, so the store is a
 * class whose methods are the reducers. The HTTP request itself is not modelled: a
 * thunk receives the request's `Outcome` as a parameter.
 */
module PollSlice {
  import opened Wrappers
  import opened Text
  import opened PollTypes
  import opened Storage
  import opened VoteLedger
  import opened Sequences

  /** The five async requests. All five pending cases share one effect, and so do all five rejected cases. */
  datatype Request = FetchPolls | FetchPollById | CreatePoll | Vote | DeletePoll

  /** The slice's state object, field for field. */
  datatype StoreState = StoreState(
    polls: seq<Poll>,
    currentPoll: Option<Poll>,
    isLoading: bool,
    error: Option<ErrorValue>,
    totalPages: int,
    currentPage: int,
    totalPolls: int)

  /** `polls.findIndex(poll => poll.id === id)`: the first index holding `id`, or -1. */
  function FindIndex(polls: seq<Poll>, id: int): (r: int)
    ensures -1 <= r < |polls|
    ensures r >= 0 ==> IsFirstWithId(polls, r, id)
    ensures r == -1 <==> forall j :: 0 <= j < |polls| ==> polls[j].id != id
  {
    if polls == [] then -1
    else if polls[0].id == id then 0
    else
      var k := FindIndex(polls[1..], id);
      if k == -1 then -1 else k + 1
  }

  /** Entry `j` is the first entry of `polls` whose id is `id`. */
  predicate IsFirstWithId(polls: seq<Poll>, j: int, id: int) {
    0 <= j < |polls| && polls[j].id == id && forall i :: 0 <= i < j ==> polls[i].id != id
  }

  /**
   * The list edit of a live push and of a vote response: the first entry with the
   * snapshot's id becomes the snapshot; every other entry, and the length, stay.
   */
  function ReplaceFirstById(polls: seq<Poll>, snapshot: Poll): (r: seq<Poll>)
    ensures |r| == |polls|
    ensures forall j :: 0 <= j < |polls| ==> r[j] == if IsFirstWithId(polls, j, snapshot.id) then snapshot else polls[j]
    ensures forall j :: 0 <= j < |polls| ==> r[j].id == polls[j].id
    ensures (forall j :: 0 <= j < |polls| ==> polls[j].id != snapshot.id) ==> r == polls
  {
    var index := FindIndex(polls, snapshot.id);
    if index == -1 then polls else polls[index := snapshot]
  }

  /** The current-poll edit of a live push: overwrite the slot only when it holds the same id. */
  function ReconcileCurrent(current: Option<Poll>, snapshot: Poll): (r: Option<Poll>)
    ensures current.Some? && current.value.id == snapshot.id ==> r == Some(snapshot)
    ensures !(current.Some? && current.value.id == snapshot.id) ==> r == current
  {
    if current.Some? && current.value.id == snapshot.id then Some(snapshot) else current
  }

  /** `polls.filter(poll => poll.id !== id)`. */
  function RemoveById(polls: seq<Poll>, id: int): (r: seq<Poll>)
    ensures |r| <= |polls|
    ensures forall p :: p in r <==> p in polls && p.id != id
    ensures (forall j :: 0 <= j < |polls| ==> polls[j].id != id) ==> r == polls
  {
    if polls == [] then []
    else (if polls[0].id != id then [polls[0]] else []) + RemoveById(polls[1..], id)
  }

  /** The filter keeps the relative order of the entries it keeps. */
  lemma {:induction false} RemoveByIdKeepsOrder(a: seq<Poll>, b: seq<Poll>, id: int)
    ensures RemoveById(a + b, id) == RemoveById(a, id) + RemoveById(b, id)
  {
    if a == [] {
      assert a + b == b;
    } else {
      SplitFirst(a, b);
      RemoveByIdKeepsOrder(a[1..], b, id);
      Regroup(if a[0].id != id then [a[0]] else [], RemoveById(a[1..], id), RemoveById(b, id));
    }
  }

  /**
   * Last write wins: of two snapshots of the same poll, the one reduced later decides
   * the list entry, whatever order the backend produced them in.
   */
  lemma ReplaceLastWriteWins(polls: seq<Poll>, earlier: Poll, later: Poll)
    requires earlier.id == later.id
    ensures ReplaceFirstById(ReplaceFirstById(polls, earlier), later) == ReplaceFirstById(polls, later)
  {
    var middle := ReplaceFirstById(polls, earlier);
    forall j | 0 <= j < |polls|
      ensures IsFirstWithId(middle, j, later.id) == IsFirstWithId(polls, j, later.id)
    {
    }
  }

  /** Snapshots of different polls touch different entries, so their order does not matter. */
  lemma ReplaceCommutesAcrossPolls(polls: seq<Poll>, a: Poll, b: Poll)
    requires a.id != b.id
    ensures ReplaceFirstById(ReplaceFirstById(polls, a), b) == ReplaceFirstById(ReplaceFirstById(polls, b), a)
  {
    var withA := ReplaceFirstById(polls, a);
    var withB := ReplaceFirstById(polls, b);
    forall j | 0 <= j < |polls|
      ensures IsFirstWithId(withA, j, b.id) == IsFirstWithId(polls, j, b.id)
      ensures IsFirstWithId(withB, j, a.id) == IsFirstWithId(polls, j, a.id)
    {
    }
  }

  /** Last write wins for the current-poll slot too. */
  lemma ReconcileLastWriteWins(current: Option<Poll>, earlier: Poll, later: Poll)
    requires earlier.id == later.id
    ensures ReconcileCurrent(ReconcileCurrent(current, earlier), later) == ReconcileCurrent(current, later)
  {
  }

  class PollStore {
    var polls: seq<Poll>
    var currentPoll: Option<Poll>
    var isLoading: bool
    var error: Option<ErrorValue>
    var totalPages: int
    var currentPage: int
    var totalPolls: int

    function State(): StoreState
      reads this
    {
      StoreState(polls, currentPoll, isLoading, error, totalPages, currentPage, totalPolls)
    }

    /** The slice's `initialState`. */
    constructor ()
      ensures State() == StoreState([], None, false, None, 1, 1, 0)
    {
      polls, currentPoll, isLoading, error := [], None, false, None;
      totalPages, currentPage, totalPolls := 1, 1, 0;
    }

    method ClearError()
      modifies this
      ensures State() == old(State()).(error := None)
    {
      error := None;
    }

    method ClearCurrentPoll()
      modifies this
      ensures State() == old(State()).(currentPoll := None)
    {
      currentPoll := None;
    }

    /** A live push: overwrite the matching list entry and current poll, nothing else. */
    method UpdatePollFromSocket(snapshot: Poll)
      modifies this
      ensures State() == old(State()).(polls := ReplaceFirstById(old(polls), snapshot),
                                       currentPoll := ReconcileCurrent(old(currentPoll), snapshot))
    {
      var index := FindIndex(polls, snapshot.id);
      if index != -1 {
        polls := polls[index := snapshot];
      }
      if currentPoll.Some? && currentPoll.value.id == snapshot.id {
        currentPoll := Some(snapshot);
      }
    }

    /** The pending case of every request: loading, error cleared, nothing else touched. */
    method Pending(request: Request)
      modifies this
      ensures State() == old(State()).(isLoading := true, error := None)
    {
      isLoading := true;
      error := None;
    }

    /** The rejected case of every request: loading ends and the error is kept; the data stays. */
    method Rejected(request: Request, payload: ErrorValue)
      modifies this
      ensures State() == old(State()).(isLoading := false, error := Some(payload))
    {
      isLoading := false;
      error := Some(payload);
    }

    /** A fetched page replaces the list and all three counters wholesale. */
    method FetchPollsFulfilled(page: PollPage)
      modifies this
      ensures State() == old(State()).(isLoading := false, polls := page.polls, totalPages := page.totalPages,
                                       currentPage := page.currentPage, totalPolls := page.totalPolls)
    {
      isLoading := false;
      polls := page.polls;
      totalPages := page.totalPages;
      currentPage := page.currentPage;
      totalPolls := page.totalPolls;
    }

    /** A fetched poll replaces the current poll outright, whatever its id was. */
    method FetchPollByIdFulfilled(poll: Poll)
      modifies this
      ensures State() == old(State()).(isLoading := false, currentPoll := Some(poll))
    {
      isLoading := false;
      currentPoll := Some(poll);
    }

    /** `polls.unshift(poll)` and `totalPolls += 1`. */
    method CreatePollFulfilled(poll: Poll)
      modifies this
      ensures State() == old(State()).(isLoading := false, polls := [poll] + old(polls), totalPolls := old(totalPolls) + 1)
      ensures polls[0] == poll && polls[1..] == old(polls)
    {
      isLoading := false;
      polls := [poll] + polls;
      totalPolls := totalPolls + 1;
    }

    /** A vote response becomes the current poll unconditionally and overwrites the matching list entry. */
    method VoteFulfilled(poll: Poll)
      modifies this
      ensures State() == old(State()).(isLoading := false, currentPoll := Some(poll),
                                       polls := ReplaceFirstById(old(polls), poll))
    {
      isLoading := false;
      currentPoll := Some(poll);
      var index := FindIndex(polls, poll.id);
      if index != -1 {
        polls := polls[index := poll];
      }
    }

    /** Filter the deleted poll out and decrement the count, matched or not; the current poll stays. */
    method DeletePollFulfilled(pollId: int)
      modifies this
      ensures State() == old(State()).(isLoading := false, polls := RemoveById(old(polls), pollId),
                                       totalPolls := old(totalPolls) - 1)
      ensures forall j :: 0 <= j < |polls| ==> polls[j].id != pollId
    {
      isLoading := false;
      polls := RemoveById(polls, pollId);
      totalPolls := totalPolls - 1;
    }
  }

  /** The `fetchPolls` thunk: pending, then the page or the rejection. */
  method FetchPollsThunk(store: PollStore, outcome: Outcome<PollPage>)
    modifies store
    ensures outcome.Succeeded? ==> store.State() == old(store.State()).(isLoading := false, error := None,
              polls := outcome.value.polls, totalPages := outcome.value.totalPages,
              currentPage := outcome.value.currentPage, totalPolls := outcome.value.totalPolls)
    ensures outcome.Failed? ==> store.State() == old(store.State()).(isLoading := false, error := Some(outcome.error))
  {
    store.Pending(FetchPolls);
    match outcome
    case Succeeded(page) => store.FetchPollsFulfilled(page);
    case Failed(e) => store.Rejected(FetchPolls, e);
  }

  /** The `fetchPollById` thunk. */
  method FetchPollByIdThunk(store: PollStore, outcome: Outcome<Poll>)
    modifies store
    ensures outcome.Succeeded? ==> store.State() == old(store.State()).(isLoading := false, error := None,
              currentPoll := Some(outcome.value))
    ensures outcome.Failed? ==> store.State() == old(store.State()).(isLoading := false, error := Some(outcome.error))
  {
    store.Pending(FetchPollById);
    match outcome
    case Succeeded(poll) => store.FetchPollByIdFulfilled(poll);
    case Failed(e) => store.Rejected(FetchPollById, e);
  }

  /** The `createPoll` thunk; `outcome` carries the response's `poll`. */
  method CreatePollThunk(store: PollStore, outcome: Outcome<Poll>)
    modifies store
    ensures outcome.Succeeded? ==> store.State() == old(store.State()).(isLoading := false, error := None,
              polls := [outcome.value] + old(store.polls), totalPolls := old(store.totalPolls) + 1)
    ensures outcome.Failed? ==> store.State() == old(store.State()).(isLoading := false, error := Some(outcome.error))
  {
    store.Pending(CreatePoll);
    match outcome
    case Succeeded(poll) => store.CreatePollFulfilled(poll);
    case Failed(e) => store.Rejected(CreatePoll, e);
  }

  /** The `vote` thunk; `outcome` carries the response's `poll`. */
  method VoteThunk(store: PollStore, outcome: Outcome<Poll>)
    modifies store
    ensures outcome.Succeeded? ==> store.State() == old(store.State()).(isLoading := false, error := None,
              currentPoll := Some(outcome.value), polls := ReplaceFirstById(old(store.polls), outcome.value))
    ensures outcome.Failed? ==> store.State() == old(store.State()).(isLoading := false, error := Some(outcome.error))
  {
    store.Pending(Vote);
    match outcome
    case Succeeded(poll) => store.VoteFulfilled(poll);
    case Failed(e) => store.Rejected(Vote, e);
  }

  /**
   * The `deletePoll` thunk: on success both ledger entries of the poll are removed before
   * the fulfilled event; on failure the ledger is not touched.
   */
  method DeletePollThunk(store: PollStore, storage: LocalStorage, pollId: int, outcome: Outcome<()>)
    modifies store, storage
    ensures outcome.Succeeded? ==> storage.items == ClearVote(old(storage.items), IntText(pollId))
    ensures outcome.Succeeded? ==> store.State() == old(store.State()).(isLoading := false, error := None,
              polls := RemoveById(old(store.polls), pollId), totalPolls := old(store.totalPolls) - 1)
    ensures outcome.Failed? ==> storage.items == old(storage.items)
    ensures outcome.Failed? ==> store.State() == old(store.State()).(isLoading := false, error := Some(outcome.error))
  {
    store.Pending(DeletePoll);
    match outcome
    case Succeeded(_) =>
      storage.RemoveItem(VotedKey(IntText(pollId)));
      storage.RemoveItem(VotedOptionKey(IntText(pollId)));
      store.DeletePollFulfilled(pollId);
    case Failed(e) =>
      store.Rejected(DeletePoll, e);
  }

  /**
   * Requests are asynchronous, so other events can be reduced between a request's pending
   * and fulfilled cases. A vote response that arrives after a newer live push of the same
   * poll overwrites it: neither reducer compares snapshots, so the stale response wins in
   * both the current-poll slot and the list.
   */
  method StaleVoteResponseAfterPush(store: PollStore, newer: Poll, older: Poll)
    requires newer.id == older.id
    modifies store
    ensures store.currentPoll == Some(older)
    ensures store.polls == ReplaceFirstById(old(store.polls), older)
  {
    store.Pending(Vote);
    store.UpdatePollFromSocket(newer);
    store.VoteFulfilled(older);
    ReplaceLastWriteWins(old(store.polls), newer, older);
  }

  /**
   * Two page requests in flight: whichever response is reduced last replaces the list
   * and the counters, even when it is for the page requested first.
   */
  method OutOfOrderPageResponses(store: PollStore, requestedLast: PollPage, requestedFirst: PollPage)
    modifies store
    ensures store.polls == requestedFirst.polls && store.currentPage == requestedFirst.currentPage
    ensures store.totalPages == requestedFirst.totalPages && store.totalPolls == requestedFirst.totalPolls
    ensures !store.isLoading && store.currentPoll == old(store.currentPoll)
  {
    store.Pending(FetchPolls);
    store.Pending(FetchPolls);
    store.FetchPollsFulfilled(requestedLast);
    store.FetchPollsFulfilled(requestedFirst);
  }
}
