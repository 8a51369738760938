/**
 * The local vote ledger: two `localStorage` entries per poll, `voted_<id>` (the flag,
 * written as `'true'`) and `voted_option_<id>` (the chosen option id as text). The poll
 * detail page writes them after a confirmed vote, the delete thunk removes them, and the
 * detail page and the poll card read the flag, each in its own way.
 *
 * Keys are built from the poll id's text: the card and the delete thunk render the
 * numeric id (`IntText(poll.id)`), the detail page uses its route parameter as written.
 */
module VoteLedger {
  import opened Wrappers
  import opened Text

  type Items = map<string, string>

  /** The flag entry's key: the prefix `voted_`, then the id text, which can be read back. */
  function VotedKey(pollIdText: string): (r: string)
    ensures |r| == 6 + |pollIdText| && r[..6] == "voted_" && r[6..] == pollIdText
  {
    "voted_" + pollIdText
  }

  /** The option entry's key: the prefix `voted_option_`, then the id text, which can be read back. */
  function VotedOptionKey(pollIdText: string): (r: string)
    ensures |r| == 13 + |pollIdText| && r[..13] == "voted_option_" && r[13..] == pollIdText
  {
    "voted_option_" + pollIdText
  }

  /** The detail page's reading, `!!localStorage.getItem('voted_' + id)`: any non-empty value. */
  function DetailHasVoted(items: Items, pollIdText: string): (r: bool)
    ensures VotedKey(pollIdText) !in items ==> !r
    ensures VotedKey(pollIdText) in items ==> (r <==> items[VotedKey(pollIdText)] != "")
  {
    VotedKey(pollIdText) in items && items[VotedKey(pollIdText)] != ""
  }

  /** The poll card's reading, `localStorage.getItem('voted_' + poll.id) === 'true'`. */
  function CardHasVoted(items: Items, pollId: int): (r: bool)
    ensures r ==> DetailHasVoted(items, IntText(pollId))
    ensures VotedKey(IntText(pollId)) in items ==> (r <==> items[VotedKey(IntText(pollId))] == "true")
    ensures VotedKey(IntText(pollId)) !in items ==> !r
  {
    VotedKey(IntText(pollId)) in items && items[VotedKey(IntText(pollId))] == "true"
  }

  /** The two keys of one poll never coincide, whatever the id text. */
  lemma KeysOfOnePollDiffer(pollIdText: string)
    ensures VotedKey(pollIdText) != VotedOptionKey(pollIdText)
  {
    assert |VotedKey(pollIdText)| != |VotedOptionKey(pollIdText)|;
  }

  /**
   * The ledger write after a confirmed vote: the flag becomes `'true'`, the option entry
   * holds the selected option text, every other entry is kept.
   */
  function RecordVote(items: Items, pollIdText: string, optionText: string): (r: Items)
    ensures r.Keys == items.Keys + {VotedKey(pollIdText), VotedOptionKey(pollIdText)}
    ensures r[VotedKey(pollIdText)] == "true" && r[VotedOptionKey(pollIdText)] == optionText
    ensures forall k :: k in items && k != VotedKey(pollIdText) && k != VotedOptionKey(pollIdText) ==> r[k] == items[k]
  {
    KeysOfOnePollDiffer(pollIdText);
    items[VotedKey(pollIdText) := "true"][VotedOptionKey(pollIdText) := optionText]
  }

  /** The ledger cleanup after a confirmed delete: both entries of the poll go, all others stay. */
  function ClearVote(items: Items, pollIdText: string): (r: Items)
    ensures r.Keys == items.Keys - {VotedKey(pollIdText), VotedOptionKey(pollIdText)}
    ensures forall k :: k in r ==> r[k] == items[k]
  {
    items - {VotedKey(pollIdText)} - {VotedOptionKey(pollIdText)}
  }

  /** Recording the same vote twice leaves the ledger as recording it once. */
  lemma RecordVoteIdempotent(items: Items, pollIdText: string, optionText: string)
    ensures RecordVote(RecordVote(items, pollIdText, optionText), pollIdText, optionText)
         == RecordVote(items, pollIdText, optionText)
  {
    var once := RecordVote(items, pollIdText, optionText);
    var twice := RecordVote(once, pollIdText, optionText);
    assert twice.Keys == once.Keys;
    forall k | k in once ensures twice[k] == once[k] {
    }
  }

  /** After a recorded vote both readers report the poll as voted on. */
  lemma RecordedVoteIsSeen(items: Items, pollId: int, optionText: string)
    ensures var after := RecordVote(items, IntText(pollId), optionText);
            CardHasVoted(after, pollId) && DetailHasVoted(after, IntText(pollId))
  {
  }

  /** After the cleanup neither reader reports the poll as voted on. */
  lemma ClearedVoteIsNotSeen(items: Items, pollId: int)
    ensures var after := ClearVote(items, IntText(pollId));
            !CardHasVoted(after, pollId) && !DetailHasVoted(after, IntText(pollId))
  {
  }

  /** The card's reading is the stricter one: it implies the detail page's. */
  lemma CardReadingImpliesDetailReading(items: Items, pollId: int)
    ensures CardHasVoted(items, pollId) ==> DetailHasVoted(items, IntText(pollId))
  {
  }

  /**
   * The readers disagree on a flag value other than `'true'`: the detail page hides the
   * vote form while the card still offers "Vote Now".
   */
  lemma ReadersDisagreeOnOtherFlagValues(items: Items, pollId: int, flag: string)
    requires flag != "" && flag != "true"
    ensures var stored := items[VotedKey(IntText(pollId)) := flag];
            DetailHasVoted(stored, IntText(pollId)) && !CardHasVoted(stored, pollId)
  {
  }

  /** Ledger keys of distinct polls are distinct, and a flag key is never an option key. */
  lemma LedgerKeysAreDistinct(a: int, b: int)
    ensures VotedKey(IntText(a)) != VotedOptionKey(IntText(b))
    ensures a != b ==> VotedKey(IntText(a)) != VotedKey(IntText(b))
    ensures a != b ==> VotedOptionKey(IntText(a)) != VotedOptionKey(IntText(b))
  {
    var x, y := IntText(a), IntText(b);
    assert VotedKey(x)[6] == x[0] && VotedOptionKey(y)[6] == 'o';
    if VotedKey(x) == VotedKey(y) {
      assert x == VotedKey(x)[6..] && y == VotedKey(y)[6..];
      IntTextInjective(a, b);
    }
    if VotedOptionKey(x) == VotedOptionKey(y) {
      assert x == VotedOptionKey(x)[13..] && y == VotedOptionKey(y)[13..];
      IntTextInjective(a, b);
    }
  }

  /** Recording or clearing one poll's vote does not change what the card reads for another poll. */
  lemma LedgerWritesAreIsolated(items: Items, a: int, b: int, optionText: string)
    requires a != b
    ensures CardHasVoted(RecordVote(items, IntText(a), optionText), b) == CardHasVoted(items, b)
    ensures CardHasVoted(ClearVote(items, IntText(a)), b) == CardHasVoted(items, b)
  {
    LedgerKeysAreDistinct(b, a);
  }
}
