/**
 * The poll-creation dialog: a form with an ordered list of option strings that never
 * has fewer than two entries, and a submit that drops blank options, refuses locally
 * when fewer than two remain, and resets the form only after a successful create.
 */
module PollForm {
  import opened Wrappers
  import opened Text
  import opened PollTypes
  import opened PollSlice
  import opened Sequences

  /** The dialog's `formData`. `expiresAt` is the date input's text, empty when unset. */
  datatype FormData = FormData(question: string, description: string, options: seq<string>, expiresAt: string)

  /** The `createPoll` payload built on submit. */
  datatype PollData = PollData(question: string, description: string, options: seq<string>, expiresAt: Option<string>)

  /** The state the dialog starts in and returns to: two empty options, every field empty. */
  const EmptyForm := FormData("", "", ["", ""], "")

  /** The fewest options a poll may have, both while editing and on submit. */
  const MinOptions := 2

  /** `options.filter((_, i) => i !== index)`: drops the entry at `index`, if there is one. */
  function RemoveAt(options: seq<string>, index: int): (r: seq<string>)
    ensures 0 <= index < |options| ==> r == options[..index] + options[index + 1..]
    ensures !(0 <= index < |options|) ==> r == options
  {
    if options == [] then []
    else (if index == 0 then [] else [options[0]]) + RemoveAt(options[1..], index - 1)
  }

  /** `options.map((option, i) => i === index ? value : option)`: rewrites the entry at `index`, if there is one. */
  function ReplaceAt(options: seq<string>, index: int, value: string): (r: seq<string>)
    ensures 0 <= index < |options| ==> r == options[index := value]
    ensures !(0 <= index < |options|) ==> r == options
  {
    seq(|options|, i requires 0 <= i < |options| => if i == index then value else options[i])
  }

  /** What the filter keeps of one option: the option itself unless `trim` empties it. */
  function Kept(option: string): seq<string> {
    if Trim(option) != [] then [option] else []
  }

  /** `options.filter(option => option.trim() !== '')`. */
  function NonBlankOptions(options: seq<string>): (r: seq<string>)
    ensures |r| <= |options|
  {
    if options == [] then [] else Kept(options[0]) + NonBlankOptions(options[1..])
  }

  /** An option is submitted exactly when it is in the form and `trim` does not empty it. */
  lemma {:induction false} NonBlankOptionsMembers(options: seq<string>)
    ensures forall o :: o in NonBlankOptions(options) <==> o in options && Trim(o) != []
  {
    if options != [] {
      NonBlankOptionsMembers(options[1..]);
      assert options == [options[0]] + options[1..];
    }
  }

  /** The filter keeps the surviving options in their original order. */
  lemma {:induction false} NonBlankOptionsKeepOrder(a: seq<string>, b: seq<string>)
    ensures NonBlankOptions(a + b) == NonBlankOptions(a) + NonBlankOptions(b)
  {
    if a == [] {
      assert a + b == b;
    } else {
      SplitFirst(a, b);
      NonBlankOptionsKeepOrder(a[1..], b);
      Regroup(Kept(a[0]), NonBlankOptions(a[1..]), NonBlankOptions(b));
    }
  }

  /** An option survives the filter exactly when it is not all whitespace. */
  lemma NonBlankMeansNotAllWhitespace(options: seq<string>, o: string)
    requires o in options
    ensures o in NonBlankOptions(options) <==> !IsBlank(o)
  {
    NonBlankOptionsMembers(options);
    TrimIsEmptyIffBlank(o);
  }

  /** The submit payload: the form's texts, the non-blank options, and `null` for an empty expiry. */
  function BuildPollData(form: FormData): (r: PollData)
    ensures r.question == form.question && r.description == form.description
    ensures r.options == NonBlankOptions(form.options)
    ensures r.expiresAt.None? <==> form.expiresAt == ""
    ensures r.expiresAt.Some? ==> r.expiresAt.value == form.expiresAt
  {
    PollData(form.question, form.description, NonBlankOptions(form.options),
             if form.expiresAt == "" then None else Some(form.expiresAt))
  }

  /** Options `"", "  ", "Yes"` leave one option after the filter, so the submit is refused locally. */
  lemma OneRealOptionIsRefused(question: string, description: string, expiresAt: string)
    ensures BuildPollData(FormData(question, description, ["", "  ", "Yes"], expiresAt)).options == ["Yes"]
  {
    var options := ["", "  ", "Yes"];
    assert Trim("") == [];
    assert Trim("  ") == [] by { TrimIsEmptyIffBlank("  "); }
    assert Trim("Yes") != [] by { TrimIsEmptyIffBlank("Yes"); assert !IsWhitespace("Yes"[0]); }
    assert options[1..][1..][1..] == [];
  }

  class PollFormView {
    var formData: FormData

    /** The option list never has fewer than two entries. */
    ghost predicate Valid()
      reads this
    {
      |formData.options| >= MinOptions
    }

    constructor ()
      ensures Valid() && formData == EmptyForm
    {
      formData := EmptyForm;
    }

    /** Appends one empty option; everything else stays. */
    method HandleAddOption()
      requires Valid()
      modifies this
      ensures Valid()
      ensures formData == old(formData).(options := old(formData.options) + [""])
    {
      formData := formData.(options := formData.options + [""]);
    }

    /** Removes the entry at `index`, but only while there are more than two options. */
    method HandleRemoveOption(index: int)
      requires Valid()
      modifies this
      ensures Valid()
      ensures old(|formData.options|) > MinOptions ==>
                formData == old(formData).(options := RemoveAt(old(formData.options), index))
      ensures old(|formData.options|) <= MinOptions ==> formData == old(formData)
      ensures |formData.options| >= old(|formData.options|) - 1
    {
      if |formData.options| > MinOptions {
        formData := formData.(options := RemoveAt(formData.options, index));
      }
    }

    /** Rewrites the entry at `index`; the length and the other entries stay. */
    method HandleOptionChange(index: int, value: string)
      requires Valid()
      modifies this
      ensures Valid()
      ensures formData == old(formData).(options := ReplaceAt(old(formData.options), index, value))
    {
      formData := formData.(options := ReplaceAt(formData.options, index, value));
    }

    /** Resets the form (the dialog's `onClose` callback belongs to the page that opened it). */
    method HandleClose()
      modifies this
      ensures Valid() && formData == EmptyForm
    {
      formData := EmptyForm;
    }

    /**
     * Submit: with fewer than two non-blank options nothing is dispatched and nothing
     * changes; otherwise `createPoll` runs with the built payload, and the form is reset
     * on success and kept on failure.
     */
    method HandleSubmit(store: PollStore, outcome: Outcome<Poll>) returns (submitted: Option<PollData>)
      requires Valid()
      modifies this, store
      ensures Valid()
      ensures submitted == if |NonBlankOptions(old(formData.options))| < MinOptions then None
                           else Some(BuildPollData(old(formData)))
      ensures submitted.None? ==> formData == old(formData) && store.State() == old(store.State())
      ensures submitted.Some? && outcome.Succeeded? ==>
                formData == EmptyForm
                && store.State() == old(store.State()).(isLoading := false, error := None,
                     polls := [outcome.value] + old(store.polls), totalPolls := old(store.totalPolls) + 1)
      ensures submitted.Some? && outcome.Failed? ==>
                formData == old(formData)
                && store.State() == old(store.State()).(isLoading := false, error := Some(outcome.error))
    {
      var pollData := BuildPollData(formData);
      if |pollData.options| < MinOptions {
        return None;
      }
      submitted := Some(pollData);
      CreatePollThunk(store, outcome);
      if outcome.Succeeded? {
        HandleClose();
      }
    }
  }
}
