/**
 * The poll card on the home page: values derived from one poll, the ledger and the
 * current time, and the admin's delete handler.
 */
module PollCard {
  import opened Wrappers
  import opened Text
  import opened PollTypes
  import opened Storage
  import opened VoteLedger
  import opened PollSlice
  import PollDetail

  /** How many options the card lists before it summarises the rest. */
  const ShownOptions := 3

  /**
   * `poll.totalVotes || poll.options?.reduce(...) || 0`: a non-zero reported total wins,
   * otherwise the options' votes are summed, and a poll without options counts 0.
   */
  function CardTotalVotes(poll: Poll): (r: int)
    ensures poll.totalVotes.Some? && poll.totalVotes.value != 0 ==> r == poll.totalVotes.value
    ensures poll.totalVotes.GetOr(0) == 0 ==> r == PollDetail.DetailTotalVotes(Some(poll))
  {
    if poll.totalVotes.Some? && poll.totalVotes.value != 0 then poll.totalVotes.value
    else if poll.options.None? then 0
    else SumVotes(poll.options.value)
  }

  /**
   * The card and the detail page show the same total whenever the reported total is
   * missing, zero, or consistent with the options; a stale non-zero total makes them differ.
   */
  lemma TotalsAgreeUnlessReportedTotalIsStale(poll: Poll)
    ensures poll.totalVotes.None? || poll.totalVotes == Some(0)
            || (poll.options.Some? && poll.totalVotes == Some(SumVotes(poll.options.value)))
            <==> CardTotalVotes(poll) == PollDetail.DetailTotalVotes(Some(poll))
  {
    if poll.options.None? && poll.totalVotes.Some? && poll.totalVotes.value != 0 {
      assert CardTotalVotes(poll) != 0;
    }
  }

  /** Option `k` is the first option whose id is `id`. */
  predicate IsFirstOptionWithId(options: seq<PollOption>, k: int, id: int) {
    0 <= k < |options| && options[k].id == id && forall i :: 0 <= i < k ==> options[i].id != id
  }

  /** `options.find(option => option.id === id)`, where a `NaN` id (`None`) matches nothing. */
  function FindOptionById(options: seq<PollOption>, id: Option<int>): (r: Option<PollOption>)
    ensures r.None? <==> id.None? || forall j :: 0 <= j < |options| ==> options[j].id != id.value
    ensures r.Some? ==> id.Some? && exists k :: IsFirstOptionWithId(options, k, id.value) && options[k] == r.value
  {
    if options == [] || id.None? then None
    else if options[0].id == id.value then
      assert IsFirstOptionWithId(options, 0, id.value);
      Some(options[0])
    else
      var r := FindOptionById(options[1..], id);
      assert r.Some? ==> exists k :: IsFirstOptionWithId(options, k, id.value) && options[k] == r.value by {
        if r.Some? {
          var k :| IsFirstOptionWithId(options[1..], k, id.value) && options[1..][k] == r.value;
          assert IsFirstOptionWithId(options, k + 1, id.value);
        }
      }
      r
  }

  /**
   * `getUserVotedOption()`: nothing unless the flag is exactly `'true'`; otherwise the
   * first option whose id equals `parseInt` of the stored option text (a missing entry
   * reads as `null`, whose text does not parse).
   */
  function UserVotedOption(poll: Poll, items: Items): (r: Option<PollOption>)
    ensures !CardHasVoted(items, poll.id) ==> r.None?
    ensures r.Some? ==> poll.options.Some? && r.value in poll.options.value
    ensures r.Some? ==> VotedOptionKey(IntText(poll.id)) in items
                        && ParseInt(items[VotedOptionKey(IntText(poll.id))]) == Some(r.value.id)
  {
    if !CardHasVoted(items, poll.id) then None
    else
      var key := VotedOptionKey(IntText(poll.id));
      var stored := if key in items then items[key] else "null";
      NullDoesNotParse();
      if poll.options.None? then None
      else FindOptionById(poll.options.value, ParseInt(stored))
  }

  /** `parseInt(null)` reads the text `"null"`, which has no digit: `NaN`. */
  lemma NullDoesNotParse()
    ensures ParseInt("null").None?
  {
    assert TrimStart("null") == "null";
    assert DigitValue('n') >= 10;
    assert DigitPrefix("null", 10) == [];
  }

  /**
   * The round trip through the ledger: after the detail page records a vote for option
   * `optionId` (stored as `optionId.toString()`), the card finds that option again, the
   * first one carrying the id.
   */
  lemma RecordedVoteIsFoundByCard(poll: Poll, items: Items, optionId: int)
    requires poll.options.Some?
    ensures var after := RecordVote(items, IntText(poll.id), IntText(optionId));
            UserVotedOption(poll, after) == FindOptionById(poll.options.value, Some(optionId))
  {
    RecordedVoteIsSeen(items, poll.id, IntText(optionId));
    ParseIntText(optionId);
  }

  /** `userVotedOption?.id === option.id`: the row of the voted option is highlighted. */
  function IsUserChoice(poll: Poll, items: Items, option: PollOption): (r: bool)
    ensures r ==> CardHasVoted(items, poll.id) && poll.options.Some?
    ensures r ==> VotedOptionKey(IntText(poll.id)) in items
                  && ParseInt(items[VotedOptionKey(IntText(poll.id))]) == Some(option.id)
  {
    var voted := UserVotedOption(poll, items);
    voted.Some? && voted.value.id == option.id
  }

  /**
   * After the detail page records a vote for `optionId`, the card highlights exactly the
   * listed options carrying that id.
   */
  lemma RecordedChoiceIsHighlighted(poll: Poll, items: Items, optionId: int, option: PollOption)
    requires poll.options.Some? && option in poll.options.value
    ensures IsUserChoice(poll, RecordVote(items, IntText(poll.id), IntText(optionId)), option) <==> option.id == optionId
  {
    RecordedVoteIsFoundByCard(poll, items, optionId);
    var options := poll.options.value;
    var j :| 0 <= j < |options| && options[j] == option;
    if option.id == optionId {
      assert options[j].id == optionId;
    }
  }

  /** `getOptionPercentage`: 0 for a zero total, otherwise the share of the total in percent. */
  function OptionPercentage(optionVotes: int, totalVotes: int): (r: real)
    ensures totalVotes == 0 ==> r == 0.0
    ensures 0 <= optionVotes <= totalVotes ==> 0.0 <= r <= 100.0
    ensures 0 < totalVotes && optionVotes == totalVotes ==> r == 100.0
  {
    if totalVotes == 0 then 0.0
    else
      var share := optionVotes as real / totalVotes as real;
      assert 0 <= optionVotes <= totalVotes ==> 0.0 <= share <= 1.0 by {
        if 0 <= optionVotes <= totalVotes {
          ShareIsAFraction(optionVotes as real, totalVotes as real);
        }
      }
      share * 100.0
  }

  /**
   * The card guards with `totalVotes === 0`, the detail page with `totalVotes > 0`: they
   * compute the same share except for a negative total, where only the card divides.
   */
  lemma PercentagesAgreeUnlessTotalIsNegative(optionVotes: int, totalVotes: int)
    ensures totalVotes >= 0 ==> OptionPercentage(optionVotes, totalVotes) == PollDetail.DetailPercentage(optionVotes, totalVotes)
    ensures totalVotes < 0 && optionVotes != 0 ==> OptionPercentage(optionVotes, totalVotes) != PollDetail.DetailPercentage(optionVotes, totalVotes)
  {
  }

  lemma ShareIsAFraction(part: real, whole: real)
    requires 0.0 <= part <= whole && whole > 0.0
    ensures 0.0 <= part / whole <= 1.0
    ensures part == whole ==> part / whole == 1.0
  {
    var share := part / whole;
    assert share * whole == part;
  }

  /** `poll.options?.slice(0, 3)`: the options the card lists. */
  function VisibleOptions(poll: Poll): (r: seq<PollOption>)
    ensures |r| <= ShownOptions
    ensures poll.options.None? ==> r == []
    ensures poll.options.Some? ==> r <= poll.options.value
                                   && |r| == if |poll.options.value| < ShownOptions then |poll.options.value| else ShownOptions
  {
    match poll.options
    case None => []
    case Some(options) => if |options| <= ShownOptions then options else options[..ShownOptions]
  }

  /** The "+k more options" note: present only beyond three options, counting the ones not listed. */
  function MoreOptionsNote(poll: Poll): (r: Option<int>)
    ensures r.Some? <==> poll.options.Some? && |poll.options.value| > ShownOptions
    ensures r.Some? ==> r.value > 0 && |VisibleOptions(poll)| + r.value == |poll.options.value|
  {
    if poll.options.Some? && |poll.options.value| > ShownOptions then Some(|poll.options.value| - ShownOptions)
    else None
  }

  /** The listed options and the note together account for every option exactly once. */
  lemma CardAccountsForEveryOption(poll: Poll)
    requires poll.options.Some?
    ensures var options := poll.options.value;
            options == VisibleOptions(poll) + options[|VisibleOptions(poll)|..]
    ensures |poll.options.value| - |VisibleOptions(poll)| == MoreOptionsNote(poll).GetOr(0)
  {
  }

  /**
   * The admin's delete handler: nothing happens unless the confirmation dialog is
   * accepted; then the `deletePoll` thunk runs.
   */
  method HandleDeletePoll(store: PollStore, storage: LocalStorage, poll: Poll, confirmed: bool, outcome: Outcome<()>)
    modifies store, storage
    ensures !confirmed ==> store.State() == old(store.State()) && storage.items == old(storage.items)
    ensures confirmed && outcome.Succeeded? ==>
              storage.items == ClearVote(old(storage.items), IntText(poll.id))
              && store.State() == old(store.State()).(isLoading := false, error := None,
                   polls := RemoveById(old(store.polls), poll.id), totalPolls := old(store.totalPolls) - 1)
    ensures confirmed && outcome.Failed? ==>
              storage.items == old(storage.items)
              && store.State() == old(store.State()).(isLoading := false, error := Some(outcome.error))
  {
    if confirmed {
      DeletePollThunk(store, storage, poll.id, outcome);
    }
  }

  /** After a confirmed delete the card of that poll is gone and no longer reads as voted on. */
  lemma DeletedPollLeavesNoTrace(polls: seq<Poll>, items: Items, poll: Poll)
    ensures poll !in RemoveById(polls, poll.id)
    ensures UserVotedOption(poll, ClearVote(items, IntText(poll.id))).None?
  {
    ClearedVoteIsNotSeen(items, poll.id);
  }
}
