/**
 * The values the client receives from the backend: polls with their options, a page of
 * polls, and the outcome of a request (the value a thunk fulfils with, or the value it
 * rejects with).
 */
module PollTypes {
  import opened Wrappers

  /** The rejection value of a request (`error.response?.data || error.message`). */
  type ErrorValue = string

  /** One selectable choice of a poll. */
  datatype PollOption = PollOption(id: int, text: string, voteCount: int)

  /**
   * A poll snapshot as the backend sends it. `options` and `totalVotes` may be missing
   * from a payload; `expiresAt` is a timestamp, absent for a poll that never expires.
   */
  datatype Poll = Poll(
    id: int,
    question: string,
    description: string,
    options: Option<seq<PollOption>>,
    totalVotes: Option<int>,
    expiresAt: Option<int>)

  /** The fulfilled payload of a poll-list request. */
  datatype PollPage = PollPage(polls: seq<Poll>, totalPages: int, currentPage: int, totalPolls: int)

  /** How a request ended: fulfilled with a value, or rejected with an error value. */
  datatype Outcome<+T> = Succeeded(value: T) | Failed(error: ErrorValue)

  /** `options.reduce((sum, option) => sum + option.voteCount, 0)`, folded from the left. */
  function SumVotes(options: seq<PollOption>): (r: int)
    ensures (forall i :: 0 <= i < |options| ==> options[i].voteCount >= 0) ==> r >= 0
    ensures (forall i :: 0 <= i < |options| ==> options[i].voteCount == 0) ==> r == 0
  {
    if options == [] then 0 else SumVotes(options[..|options| - 1]) + options[|options| - 1].voteCount
  }

  lemma {:induction false} SumVotesAppend(a: seq<PollOption>, b: seq<PollOption>)
    ensures SumVotes(a + b) == SumVotes(a) + SumVotes(b)
  {
    if b != [] {
      assert (a + b)[..|a + b| - 1] == a + b[..|b| - 1];
      SumVotesAppend(a, b[..|b| - 1]);
    } else {
      assert a + b == a;
    }
  }

  /**
   * When a snapshot differs from the previous one only by one more vote on one option,
   * the summed total grows by exactly one.
   */
  lemma SumVotesAfterOneVote(options: seq<PollOption>, k: nat)
    requires k < |options|
    ensures var bumped := options[k := options[k].(voteCount := options[k].voteCount + 1)];
            SumVotes(bumped) == SumVotes(options) + 1
  {
    var bumped := options[k := options[k].(voteCount := options[k].voteCount + 1)];
    assert options == options[..k] + [options[k]] + options[k + 1..];
    assert bumped == options[..k] + [bumped[k]] + options[k + 1..];
    SumVotesAppend(options[..k] + [options[k]], options[k + 1..]);
    SumVotesAppend(options[..k], [options[k]]);
    SumVotesAppend(options[..k] + [bumped[k]], options[k + 1..]);
    SumVotesAppend(options[..k], [bumped[k]]);
  }

  /** `expiresAt && new Date(expiresAt) < new Date()`, with `now` the current time. */
  function IsExpired(expiresAt: Option<int>, now: int): (r: bool)
    ensures expiresAt.None? ==> !r
    ensures expiresAt.Some? ==> (r <==> expiresAt.value < now)
  {
    expiresAt.Some? && expiresAt.value < now
  }

  /** A poll without an expiry never expires, and one that has expired stays expired. */
  lemma ExpiryIsPermanent(expiresAt: Option<int>, now: int, later: int)
    requires now <= later
    ensures expiresAt.None? ==> !IsExpired(expiresAt, later)
    ensures IsExpired(expiresAt, now) ==> IsExpired(expiresAt, later)
  {
  }
}
