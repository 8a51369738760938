# Polling app client: a Dafny model of its poll-state bookkeeping

This project models the state handling of a React/Redux polling client. Users browse
polls, vote on them, watch live result updates and, as administrators, create and
delete polls. The model covers:

- **The poll store** (`PollSlice`). It is a class whose fields are the slice's state:
  `polls`, `currentPoll`, `isLoading`, `error`, `totalPages`, `currentPage` and
  `totalPolls`.
  - Its methods are the reducers: the live push `updatePollFromSocket`,
    `clearError`, `clearCurrentPoll`, and the pending, fulfilled and rejected case
    of each of the five requests.
  - A thunk method runs the pending case, then the fulfilled or the rejected case,
    according to an `Outcome` parameter that stands for the HTTP result.
  - The two list edits are specification functions: replacing the first entry with an
    id, and filtering by id.
    - The replacement is proved to keep the length and every other entry.
    - The filter is proved to keep the order of the entries it keeps.
    - Pushes of the same poll are proved to be last-write-wins.
  - Prepending a created poll is written in its reducer method. The method's contract
    states the new list outright.
- **The local vote ledger** (`Storage`, `VoteLedger`). `localStorage` is a class over a
  string map.
  - The detail page writes `voted_<id>` = `'true'` and `voted_option_<id>` after a
    successful vote.
  - The delete thunk removes both entries.
  - The detail page and the poll card read the flag differently:
    - the detail page counts any non-empty value;
    - the card requires exactly `'true'`.

    The model proves that the card's reading implies the detail page's, and that
    the two disagree on any other non-empty value.
- **The derived display values**:
  - the detail page's render choice (`PollDetail`);
  - the card's vote total with its fallback, the voted-option lookup, the percentage
    guard, the first-three-plus-note split and expiry (`PollCard`).

  The round trip "vote recorded on the detail page, option found again by the card" is
  proved. It runs through the decimal rendering of ids and JavaScript's `parseInt`,
  both modelled in `Text`.
- **The poll-creation form** (`PollForm`). Its option list never falls below two
  entries. Submit drops options that `trim` leaves empty, keeping their order, and
  refuses locally when fewer than two remain. The form is reset only after a
  successful create.
- **Three small UI state machines**:
  - the home page's view mode, page and fetch parameters (`Home`);
  - the registration form's confirmation check and payload (`Register`);
  - the light/dark theme with its persisted value (`ThemeSlice`).

Each reducer runs to completion before the next event is reduced, so every reducer and
every synchronous handler is a method on its component's state. The asynchronous
handlers are different. They suspend between a request's pending case and its
fulfilled or rejected case, and other events can be reduced in the gap. The model shows
such interleavings on the store itself:

- `PollSlice.StaleVoteResponseAfterPush`: a vote response reduced after a newer push
  overwrites it.
- `PollSlice.OutOfOrderPageResponses`: a page response that arrives last replaces a
  newer page.

Other inputs are parameters:

- Time is an integer `now`.
- The result of a request is an `Outcome` parameter.
- The confirmation dialog's answer is a `bool` parameter.

Where the code's behaviour is subtler than its obvious reading, the model follows the
code:

- The detail page's `!!localStorage.getItem(...)` is JavaScript truthiness, so a stored
  empty string counts as "not voted" (`VoteLedger.DetailHasVoted`).
- `toggleTheme` sends every mode other than `'light'` to `'light'`, so toggling twice
  restores only `'light'` and `'dark'`.
- `deletePoll.fulfilled` decrements `totalPolls` even when no entry matched.

## Model

| member | source | states |
|---|---|---|
| PollSlice.FindIndex | src/store/slices/pollSlice.js:92 | the result is -1 exactly when no entry has the id; otherwise it is the first index holding the id |
| PollSlice.ReplaceFirstById | src/store/slices/pollSlice.js:92-95 | only the first entry with the snapshot's id becomes the snapshot; length, ids and every other entry are kept; with no match the list is unchanged |
| PollSlice.ReconcileCurrent | src/store/slices/pollSlice.js:96-98 | the current poll becomes the snapshot only when present with the same id; otherwise it is unchanged |
| PollSlice.RemoveById | src/store/slices/pollSlice.js:177 | a poll is kept exactly when it was in the list with another id; with no match the list is unchanged |
| PollSlice.RemoveByIdKeepsOrder | src/store/slices/pollSlice.js:177 | the filter distributes over concatenation, so survivors keep their relative order |
| PollSlice.ReplaceLastWriteWins | src/store/slices/pollSlice.js:90-95 | of two pushes for the same poll, the later one alone decides the list |
| PollSlice.ReplaceCommutesAcrossPolls | src/store/slices/pollSlice.js:90-95 | pushes for different polls commute |
| PollSlice.ReconcileLastWriteWins | src/store/slices/pollSlice.js:96-98 | of two pushes for the same poll, the later one alone decides the current poll |
| PollSlice.PollStore.constructor | src/store/slices/pollSlice.js:74-82 | empty list, no current poll, not loading, no error, one page of page one, zero polls |
| PollSlice.PollStore.ClearError | src/store/slices/pollSlice.js:84-86 | only the error is cleared |
| PollSlice.PollStore.ClearCurrentPoll | src/store/slices/pollSlice.js:87-89 | only the current poll is cleared |
| PollSlice.PollStore.UpdatePollFromSocket | src/store/slices/pollSlice.js:90-99 | the list becomes ReplaceFirstById and the current poll ReconcileCurrent of the snapshot; every other field is unchanged |
| PollSlice.PollStore.Pending | src/store/slices/pollSlice.js:104-107 | every request's pending case (also lines 121-124, 135-138, 150-153, 170-173) sets loading, clears the error and touches nothing else |
| PollSlice.PollStore.Rejected | src/store/slices/pollSlice.js:115-118 | every request's rejected case (also lines 129-132, 144-147, 164-167, 180-183) ends loading and stores the payload; list, current poll and counters are unchanged |
| PollSlice.PollStore.FetchPollsFulfilled | src/store/slices/pollSlice.js:108-114 | list and all three counters are replaced by the page's; the current poll and error are unchanged |
| PollSlice.PollStore.FetchPollByIdFulfilled | src/store/slices/pollSlice.js:125-128 | the current poll is replaced whatever its previous id |
| PollSlice.PollStore.CreatePollFulfilled | src/store/slices/pollSlice.js:139-143 | the new poll is at index 0, the old list follows it unchanged, and the count grows by exactly one |
| PollSlice.PollStore.VoteFulfilled | src/store/slices/pollSlice.js:154-163 | the returned poll becomes the current poll with no id check and replaces the first list entry with its id |
| PollSlice.PollStore.DeletePollFulfilled | src/store/slices/pollSlice.js:174-179 | no entry with the id remains; others keep their order; the count drops by one even without a match; the current poll stays |
| PollSlice.FetchPollsThunk | src/store/slices/pollSlice.js:5-15 | the store after pending then fulfilled, or after pending then rejected |
| PollSlice.FetchPollByIdThunk | src/store/slices/pollSlice.js:17-27 | the store after pending then fulfilled, or after pending then rejected |
| PollSlice.CreatePollThunk | src/store/slices/pollSlice.js:29-39 | the store after pending then fulfilled, or after pending then rejected |
| PollSlice.VoteThunk | src/store/slices/pollSlice.js:42-52 | the store after pending then fulfilled, or after pending then rejected |
| PollSlice.DeletePollThunk | src/store/slices/pollSlice.js:55-70 | on success both ledger keys of the id are removed and the poll is filtered out; on failure the ledger is untouched and only loading and error change |
| PollSlice.StaleVoteResponseAfterPush | src/store/slices/pollSlice.js:154-163 | a vote response reduced after a newer push of the same poll wins: it becomes the current poll and the list entry (pushes at lines 90-99) |
| PollSlice.OutOfOrderPageResponses | src/store/slices/pollSlice.js:108-114 | of two page requests in flight, the response reduced last decides the list and counters, whichever page was asked for first |
| PollTypes.SumVotes | src/pages/PollDetail.js:83 | the left fold of vote counts is non-negative for non-negative counts and zero when every count is zero |
| PollTypes.SumVotesAppend | src/pages/PollDetail.js:83 | the sum over a concatenation is the sum of the sums |
| PollTypes.SumVotesAfterOneVote | src/pages/PollDetail.js:83 | one more vote on one option raises the total by exactly one |
| PollTypes.IsExpired | src/components/PollCard.js:26 | never expired without an expiry; otherwise expired exactly when the expiry is before `now` (also PollDetail.js:84) |
| PollTypes.ExpiryIsPermanent | src/components/PollCard.js:26 | a poll without an expiry never expires, and an expired poll stays expired as time passes |
| Storage.LocalStorage.GetItem | src/pages/PollDetail.js:53 | the stored value when the key is present, `null` otherwise |
| Storage.LocalStorage.SetItem | src/pages/PollDetail.js:67-68 | the key maps to the value and every other entry is unchanged |
| Storage.LocalStorage.RemoveItem | src/store/slices/pollSlice.js:62-63 | the key is gone and every other entry is unchanged |
| Text.TrimStart | src/components/PollForm.js:57 | the result is a suffix; what was dropped is all whitespace; the result does not start with whitespace |
| Text.TrimEnd | src/components/PollForm.js:57 | the result is a prefix; what was dropped is all whitespace; the result does not end with whitespace |
| Text.Trim | src/components/PollForm.js:57 | a prefix of what `trimStart` leaves, dropping only whitespace; the result neither starts nor ends with whitespace |
| Text.TrimIsEmptyIffBlank | src/components/PollForm.js:57 | `trim()` gives the empty string exactly when every character is whitespace |
| Text.DigitPrefix | src/components/PollCard.js:32 | the longest prefix of digits of the radix |
| Text.ParseInt | src/components/PollCard.js:32 | a blank string gives `NaN` |
| Text.IntText | src/components/PollCard.js:25 | the rendering is non-empty, starts with `-` exactly for negatives, and is digits after that |
| Text.NatTextValue | src/components/PollCard.js:25 | the digits of the rendering denote the number |
| Text.ParseIntText | src/components/PollCard.js:32 | `parseInt` of a rendered integer gives the integer back |
| Text.IntTextInjective | src/components/PollCard.js:25 | distinct ids render to distinct texts |
| VoteLedger.VotedKey | src/pages/PollDetail.js:53 | `voted_` followed by the id text, which can be read back from the key (also PollCard.js:25) |
| VoteLedger.VotedOptionKey | src/pages/PollDetail.js:68 | `voted_option_` followed by the id text, which can be read back from the key (also PollCard.js:31) |
| VoteLedger.DetailHasVoted | src/pages/PollDetail.js:53-55 | the detail page's reading: a missing flag is false, a stored flag counts exactly when it is not the empty string |
| VoteLedger.CardHasVoted | src/components/PollCard.js:25 | the card's reading: true exactly when the stored flag is `'true'`, which implies the detail page's reading |
| VoteLedger.KeysOfOnePollDiffer | src/pages/PollDetail.js:67-68 | a poll's flag key and option key differ |
| VoteLedger.RecordVote | src/pages/PollDetail.js:67-68 | the flag is `'true'`, the option entry holds the selected text, and every other entry is kept |
| VoteLedger.ClearVote | src/store/slices/pollSlice.js:62-63 | exactly the poll's two entries are removed |
| VoteLedger.RecordVoteIdempotent | src/pages/PollDetail.js:67-68 | recording the same vote twice equals recording it once |
| VoteLedger.RecordedVoteIsSeen | src/pages/PollDetail.js:67 | after a recorded vote both the card and the detail page read the poll as voted on |
| VoteLedger.ClearedVoteIsNotSeen | src/store/slices/pollSlice.js:62-63 | after the cleanup neither reader reads the poll as voted on |
| VoteLedger.CardReadingImpliesDetailReading | src/components/PollCard.js:25 | the card's `=== 'true'` reading implies the detail page's truthiness reading |
| VoteLedger.ReadersDisagreeOnOtherFlagValues | src/pages/PollDetail.js:53-55 | a non-empty flag other than `'true'` reads as voted on the detail page and as not voted on the card |
| VoteLedger.LedgerKeysAreDistinct | src/components/PollCard.js:25 | keys of distinct polls differ, and a flag key is never an option key |
| VoteLedger.LedgerWritesAreIsolated | src/pages/PollDetail.js:67-68 | recording or clearing one poll's vote leaves the card's reading of every other poll unchanged |
| PollDetail.DetailTotalVotes | src/pages/PollDetail.js:83 | the sum of the options' votes, and 0 with no poll or no options |
| PollDetail.DetailPercentage | src/pages/PollDetail.js:210 | 0 unless the total is positive; otherwise the share times the total equals the option's votes times 100 |
| PollDetail.DetailScreen | src/pages/PollDetail.js:86-245 | spinner iff loading; then the error panel iff the error is truthy (present and not `""`); then not-found; the vote form iff neither results requested nor voted nor expired; the thank-you alert iff voted and not expired; the ended notice iff expired |
| PollDetail.EmptyErrorIsNotShown | src/pages/PollDetail.js:96 | an empty error string renders exactly as no error |
| PollDetail.VotedPageShowsResults | src/pages/PollDetail.js:166 | with both flags set the page shows results, thanking the user unless the poll has expired |
| PollDetail.DetailView.constructor | src/pages/PollDetail.js:30-32 | nothing selected, not voted, results hidden |
| PollDetail.DetailView.SelectOption | src/pages/PollDetail.js:170 | only the selection changes |
| PollDetail.DetailView.OnCurrentPollChanged | src/pages/PollDetail.js:50-57 | with a poll loaded both flags become "a non-empty flag is stored"; without one nothing changes |
| PollDetail.DetailView.HandleVote | src/pages/PollDetail.js:60-81 | no selection: no request and no change; success: ledger recorded, both flags set, store as the vote thunk leaves it; failure: ledger and flags unchanged |
| PollDetail.DetailView.MarkVoted | src/pages/PollDetail.js:67-71 | the ledger becomes RecordVote for the route and the selection; both flags are set |
| PollDetail.VoteThenRender | src/pages/PollDetail.js:70-71 | after a successful vote the page renders the results, whatever it showed before |
| PollCard.CardTotalVotes | src/components/PollCard.js:24 | a non-zero reported total wins; otherwise the detail page's sum, which is 0 without options |
| PollCard.TotalsAgreeUnlessReportedTotalIsStale | src/components/PollCard.js:24 | card and detail totals agree exactly when the reported total is missing, zero, or equal to the options' sum |
| PollCard.FindOptionById | src/components/PollCard.js:32 | `NaN` matches nothing; otherwise the first option with the id, and none exactly when no option has it |
| PollCard.UserVotedOption | src/components/PollCard.js:29-33 | none unless the flag is exactly `'true'`; a found option belongs to the poll and its id is the parsed stored text |
| PollCard.NullDoesNotParse | src/components/PollCard.js:31-32 | a missing option entry, read as the text `"null"`, parses to `NaN` |
| PollCard.RecordedVoteIsFoundByCard | src/components/PollCard.js:29-33 | after the detail page records a vote for an option id, the card finds the first option with that id |
| PollCard.IsUserChoice | src/components/PollCard.js:141 | a row is highlighted only when the card reads the poll as voted, and its id is the parsed stored option id |
| PollCard.RecordedChoiceIsHighlighted | src/components/PollCard.js:141 | after a vote for an option id is recorded, exactly the listed options with that id are highlighted |
| PollCard.OptionPercentage | src/components/PollCard.js:51-54 | 0 for a zero total; between 0 and 100 when the votes are within the total; 100 when they equal it |
| PollCard.PercentagesAgreeUnlessTotalIsNegative | src/components/PollCard.js:51-54 | the card's share equals the detail page's for every non-negative total and differs for a negative one |
| PollCard.VisibleOptions | src/components/PollCard.js:139 | a prefix of the options of length min(3, count), empty without options |
| PollCard.MoreOptionsNote | src/components/PollCard.js:213-219 | present iff more than three options; listed plus noted equals the option count |
| PollCard.CardAccountsForEveryOption | src/components/PollCard.js:139 | the listed options followed by the rest rebuild the option list, and the rest's size is the note's count |
| PollCard.HandleDeletePoll | src/components/PollCard.js:41-49 | nothing happens unless confirmed; on success the ledger loses the poll's two entries and the whole store state is the delete thunk's, with the current poll untouched; on failure only loading and error change |
| PollCard.DeletedPollLeavesNoTrace | src/components/PollCard.js:41-49 | after the delete the poll is gone from the list and its card shows no voted option |
| PollForm.RemoveAt | src/components/PollForm.js:39 | an index in range drops exactly that entry; any other index leaves the list unchanged |
| PollForm.ReplaceAt | src/components/PollForm.js:47 | an index in range rewrites exactly that entry; any other index leaves the list unchanged |
| PollForm.NonBlankOptions | src/components/PollForm.js:57 | the filtered list is no longer than the form's |
| PollForm.NonBlankOptionsMembers | src/components/PollForm.js:57 | an option is submitted exactly when it is in the form and `trim` does not empty it |
| PollForm.NonBlankOptionsKeepOrder | src/components/PollForm.js:57 | the filter distributes over concatenation, so survivors keep their order |
| PollForm.NonBlankMeansNotAllWhitespace | src/components/PollForm.js:57 | an option survives exactly when it has a non-whitespace character |
| PollForm.BuildPollData | src/components/PollForm.js:54-59 | texts copied, options filtered, and an empty expiry becomes `null` |
| PollForm.OneRealOptionIsRefused | src/components/PollForm.js:57-64 | options `"", "  ", "Yes"` leave one option, below the minimum of two |
| PollForm.PollFormView.constructor | src/components/PollForm.js:21-26 | two empty options and empty texts |
| PollForm.PollFormView.HandleAddOption | src/components/PollForm.js:28-33 | one empty option appended; everything else kept |
| PollForm.PollFormView.HandleRemoveOption | src/components/PollForm.js:35-42 | the entry at the index is removed only when more than two exist; the count never drops below two |
| PollForm.PollFormView.HandleOptionChange | src/components/PollForm.js:44-49 | only the entry at the index changes; the count stays at least two |
| PollForm.PollFormView.HandleClose | src/components/PollForm.js:74-82 | the form returns to its initial state |
| PollForm.PollFormView.HandleSubmit | src/components/PollForm.js:51-72 | fewer than two non-blank options: no request and no change; success: the form is reset and the poll prepended; failure: the form is kept |
| Home.FetchParams | src/pages/Home.js:32-38 | the page as given, a limit of 9, and active polls only in the `'active'` mode |
| Home.Body | src/pages/Home.js:90-128 | spinner iff loading; otherwise the pager iff more than one page, and the empty-state text iff no polls, worded by the mode alone |
| Home.EmptyTextDependsOnlyOnMode | src/pages/Home.js:110-112 | the empty-state text depends on nothing but whether the mode is `'active'` |
| Home.HomeView.constructor | src/pages/Home.js:24-25 | the `'active'` mode on page 1 |
| Home.HomeView.HandleViewModeChange | src/pages/Home.js:40-45 | `null` changes nothing; any mode is set and the page resets to 1 |
| Home.HomeView.HandlePageChange | src/pages/Home.js:47-49 | the page is set and the mode kept |
| Home.HomeView.LoadPolls | src/pages/Home.js:32-38 | the request carries FetchParams of the current state; the whole new store state is the fetch thunk's for either outcome |
| Home.ModeChangeThenLoad | src/pages/Home.js:28-45 | after a mode change the reload asks for page 1 of that mode |
| Register.Field | src/pages/Register.js:53 | a field's value, or `undefined` when the record lacks it |
| Register.PasswordsMatch | src/pages/Register.js:53 | the two fields are both missing, or both present with equal values |
| Register.RegisterPayload | src/pages/Register.js:58 | every field but `confirmPassword`, with unchanged values |
| Register.PayloadLosesOnlyTheConfirmation | src/pages/Register.js:58 | putting the confirmation back into the payload rebuilds the form |
| Register.RegisterView.constructor | src/pages/Register.js:25-31 | empty texts and role `'user'` |
| Register.RegisterView.HandleChange | src/pages/Register.js:43-48 | only the named field changes |
| Register.RegisterView.HandleSubmit | src/pages/Register.js:50-60 | nothing is dispatched iff the passwords differ; otherwise the payload without the confirmation |
| Register.OtherFieldsDoNotAffectTheCheck | src/pages/Register.js:53 | editing a field other than the two passwords does not change whether submit proceeds |
| ThemeSlice.InitialTheme | src/store/slices/themeSlice.js:3-6 | the saved mode if non-empty, otherwise `'light'`; never empty |
| ThemeSlice.Toggled | src/store/slices/themeSlice.js:15 | `'dark'` exactly from `'light'`, and `'light'` from every other mode |
| ThemeSlice.ToggleTwiceRestores | src/store/slices/themeSlice.js:15 | toggling twice restores the mode exactly for `'light'` and `'dark'` |
| ThemeSlice.SetThemeSurvivesReloadIffNonEmpty | src/store/slices/themeSlice.js:19-20 | a mode set and saved is read back at start-up exactly when it is non-empty |
| ThemeSlice.ThemeKeyIsNotALedgerKey | src/store/slices/themeSlice.js:4 | the theme entry never collides with a vote ledger entry |
| ThemeSlice.ThemeState.constructor | src/store/slices/themeSlice.js:10-12 | the mode is InitialTheme of the saved entry |
| ThemeSlice.ThemeState.ToggleTheme | src/store/slices/themeSlice.js:14-17 | the mode is toggled and saved under `theme`; other storage entries are kept |
| ThemeSlice.ThemeState.SetTheme | src/store/slices/themeSlice.js:18-21 | the mode is the payload, unchecked, and is saved under `theme` |
| ThemeSlice.ToggledModeSurvivesReload | src/store/slices/themeSlice.js:14-17 | a toggled mode is what the next start-up reads |

## Left out

- HTTP requests (`src/services/pollService.js`) and the socket transport
  (`src/services/socketService.js`). A request's result is an `Outcome` parameter, and a
  live push is a call of `UpdatePollFromSocket`.
- The error payload (`error.response?.data || error.message`) is a string. Response
  data objects, which are always truthy, are not distinguished. The detail page's
  `if (error)` treats an empty message as no error.
- How pages word the error (`error.error || 'Failed to load poll'`) is not modelled.
- Rendering, styling, icons and layout. Only the choice of what is shown is modelled.
- PollDetail.DetailView.HandleVote, PollForm.PollFormView.HandleSubmit,
  PollCard.HandleDeletePoll, Home.HomeView.LoadPolls: each runs its request's pending
  case and then its outcome case back to back. Events reduced while the request is in
  flight (a live push, another request's cases) are not interleaved inside them. Such
  interleavings are shown only at the store level, by the two scenario methods above.
- Effect scheduling (`useEffect`). The effects are methods that callers invoke in order.
  The `setTimeout` storage event after a vote is I/O.
- `window.confirm`, `alert`, `console.error` and navigation. The confirmation is a
  `bool` parameter; the others have no effect on state.
- Admin and login checks (`isAdmin`, `isLoggedIn`), the register thunk and the auth
  slice. The auth slice is not part of this model.
- The registration page's redirect and its mount-time `clearError`.
- The poll form's question, description and expiry text setters. They are plain field
  assignments.
- The form's `onClose` callback, which belongs to the page that opened the form.
- The form's HTML `required` attributes. Browser-side validation can stop a submit
  before the handler runs.
- Dates. Expiry is an integer timestamp compared with an integer `now`. Parsing date
  strings, invalid dates and `formatDistanceToNow` are left out.
- Polls carry only the fields the modelled logic reads. Creator and creation time are
  left out.
- PollCard.OptionPercentage: computed in exact real arithmetic. IEEE double rounding and
  `toFixed(1)` are not modelled.
- PollDetail.DetailPercentage: computed in exact real arithmetic, for the same reason.
- Text.ParseInt: exact on unbounded integers. The loss of precision above 2^53 in
  JavaScript numbers is not modelled.
- Ids are integers. String ids from the backend are not modelled.
- Text.IntText: the rendering of JavaScript numbers is not modelled beyond integers.
- Ledger keys:
  - The card and the delete thunk build their key from the rendered numeric id.
  - The detail page builds its key from the route text.
  - The lemmas that connect the two take the route to be the rendered id, which is how
    the app's links are built.
