/**
 * The topic form of the input screen: one text field, the submit guard,
 * the Enter-key shortcut, the submit button's disabled state and the
 * suggestion chips. `isLoading` is the parent's loading flag, passed in as
 * a prop; a call to `onGenerate` is modelled as the topic a method returns.
 */
module HeroInput {
  import opened Wrappers
  import opened JsText

  /** The suggestion chips, in the order they are rendered. */
  const Suggestions: seq<string> :=
    ["Festa Neon", "Casamento Rústico", "Lançamento Tech", "Churrasco no Domingo"]

  /** `input.trim() && !isLoading`: the trimmed text is truthy, that is,
      the field holds something besides whitespace, and no generation runs. */
  function CanSubmit(input: string, isLoading: bool): (ok: bool)
    ensures ok <==> !Blank(input) && !isLoading
  {
    Trim(input) != [] && !isLoading
  }

  /** Every suggestion chip fills the field with a submittable topic. */
  lemma SuggestionsSubmittable(k: nat)
    requires k < |Suggestions|
    ensures CanSubmit(Suggestions[k], false)
  {
    var s := Suggestions[k];
    assert s[0] in {'F', 'C', 'L'};
    assert !IsSpace(s[0]);
  }

  class HeroInput {
    var input: string

    /** `useState('')`. */
    constructor()
      ensures input == ""
    {
      input := "";
    }

    /** `onChange`: the field takes the typed text as it is. */
    method Change(value: string)
      modifies this
      ensures input == value
    {
      input := value;
    }

    /** `handleSubmit`: the topic is handed on, untrimmed, exactly when the
        guard allows it; the field keeps its text either way. */
    method Submit(isLoading: bool) returns (generated: Option<string>)
      ensures generated.Some? <==> !Blank(input) && !isLoading
      ensures generated.Some? ==> generated.value == input
    {
      if CanSubmit(input, isLoading) {
        generated := Some(input);
      } else {
        generated := None;
      }
    }

    /** `onKeyDown`: Enter without Shift submits the form; Shift+Enter and
        every other key leave submission to the textarea's default handling. */
    method KeyDown(key: string, shiftKey: bool, isLoading: bool) returns (generated: Option<string>)
      ensures generated.Some? <==> key == "Enter" && !shiftKey && !Blank(input) && !isLoading
      ensures generated.Some? ==> generated.value == input
    {
      if key == "Enter" && !shiftKey {
        generated := Submit(isLoading);
      } else {
        generated := None;
      }
    }

    /** A suggestion chip: the field takes the chip's text, and nothing is submitted. */
    method PickSuggestion(k: nat)
      requires k < |Suggestions|
      modifies this
      ensures input == Suggestions[k]
    {
      input := Suggestions[k];
    }

    /** `disabled={!input.trim() || isLoading}`: the button is disabled
        exactly when the submit guard would refuse. */
    function SubmitDisabled(isLoading: bool): (disabled: bool)
      reads this
      ensures disabled <==> !CanSubmit(input, isLoading)
      ensures disabled <==> Blank(input) || isLoading
    {
      Trim(input) == [] || isLoading
    }
  }

  /** Picking a chip and then pressing Enter generates that chip's topic. */
  method ChipThenEnter(k: nat) returns (generated: Option<string>)
    requires k < |Suggestions|
    ensures generated == Some(Suggestions[k])
  {
    var form := new HeroInput();
    form.PickSuggestion(k);
    SuggestionsSubmittable(k);
    generated := form.KeyDown("Enter", false, false);
  }

  /** A field holding only whitespace never submits, whatever the key. */
  method BlankNeverSubmits(value: string, key: string, shiftKey: bool, isLoading: bool)
    returns (generated: Option<string>)
    requires Blank(value)
    ensures generated == None
  {
    var form := new HeroInput();
    form.Change(value);
    generated := form.KeyDown(key, shiftKey, isLoading);
  }
}
