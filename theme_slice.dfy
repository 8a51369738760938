/**
 * The theme slice: the colour mode, read from `localStorage` at start-up, and its two
 * reducers, each of which writes the new mode back under the `theme` key.
 */
module ThemeSlice {
  import opened Wrappers
  import opened Storage
  import VoteLedger

  const ThemeKey := "theme"
  const Light := "light"
  const Dark := "dark"

  /** `savedTheme || 'light'`: the saved mode unless it is missing or empty. */
  function InitialTheme(saved: Option<string>): (mode: string)
    ensures mode != ""
    ensures saved.Some? && saved.value != "" ==> mode == saved.value
    ensures saved.None? || saved.value == "" ==> mode == Light
  {
    if saved.Some? && saved.value != "" then saved.value else Light
  }

  /** `mode === 'light' ? 'dark' : 'light'`. */
  function Toggled(mode: string): (r: string)
    ensures r == Dark <==> mode == Light
    ensures r != Dark ==> r == Light
  {
    if mode == Light then Dark else Light
  }

  /** Toggling twice restores exactly the two known modes; any other mode ends up `'dark'`. */
  lemma ToggleTwiceRestores(mode: string)
    ensures Toggled(Toggled(mode)) == mode <==> mode == Light || mode == Dark
  {
    if mode != Light && mode != Dark {
      assert Toggled(mode) == Light;
    }
  }

  /** A mode written by `setTheme` comes back after a reload exactly when it is non-empty. */
  lemma SetThemeSurvivesReloadIffNonEmpty(payload: string)
    ensures InitialTheme(Some(payload)) == payload <==> payload != ""
  {
  }

  /** The theme entry is never one of the vote ledger's entries. */
  lemma ThemeKeyIsNotALedgerKey(pollIdText: string)
    ensures ThemeKey != VoteLedger.VotedKey(pollIdText) && ThemeKey != VoteLedger.VotedOptionKey(pollIdText)
  {
    assert VoteLedger.VotedKey(pollIdText)[0] == 'v';
    assert VoteLedger.VotedOptionKey(pollIdText)[0] == 'v';
  }

  class ThemeState {
    var mode: string

    /** The slice's initial state, from the saved `theme` entry. */
    constructor (storage: LocalStorage)
      ensures mode == InitialTheme(storage.GetItem(ThemeKey))
    {
      mode := InitialTheme(storage.GetItem(ThemeKey));
    }

    method ToggleTheme(storage: LocalStorage)
      modifies this, storage
      ensures mode == Toggled(old(mode))
      ensures storage.items == old(storage.items)[ThemeKey := mode]
    {
      mode := Toggled(mode);
      storage.SetItem(ThemeKey, mode);
    }

    /** Sets the mode to the payload as given, with no check, and saves it. */
    method SetTheme(storage: LocalStorage, payload: string)
      modifies this, storage
      ensures mode == payload
      ensures storage.items == old(storage.items)[ThemeKey := payload]
    {
      mode := payload;
      storage.SetItem(ThemeKey, payload);
    }
  }

  /** A toggled mode is what the next start-up reads back. */
  lemma ToggledModeSurvivesReload(mode: string)
    ensures InitialTheme(Some(Toggled(mode))) == Toggled(mode)
  {
  }
}
