/**
 * The search box (`SearchInput`): its validation rule and the `query` / `error` state that
 * typing, clearing and submitting update.
 */
module SearchInput {
  import opened Types
  import opened Strings

  /** The outcome of `validateInput`: the input passes, or one of the three complaints. */
  datatype Validation = Accepted | EmptyQuery | ContainsNumbers | InvalidCharacters

  /** The text the component shows for a validation outcome ("" when the input passes). */
  function Message(v: Validation): string
  {
    match v
    case Accepted => ""
    case EmptyQuery => "Search cannot be empty"
    case ContainsNumbers => "Search cannot contain numbers"
    case InvalidCharacters => "Search can only contain letters and spaces"
  }

  /** Only an accepted input shows no message, and the three complaints read differently. */
  lemma MessagesAreDistinct(v: Validation, w: Validation)
    ensures Message(v) == "" <==> v == Accepted
    ensures Message(v) == Message(w) ==> v == w
  {
  }

  /** `/^[a-zA-Z\s]*$/.test(s)`. */
  predicate OnlyLettersAndSpaces(s: string)
  {
    forall i :: 0 <= i < |s| ==> IsAsciiLetter(s[i]) || IsSpace(s[i])
  }

  /** `/\d/.test(s)`. */
  predicate HasDigit(s: string)
  {
    exists i :: 0 <= i < |s| && IsDigit(s[i])
  }

  /** `validateInput`: the error message for `value`, or "" when it may be searched for. */
  function ValidateInput(value: string): Validation
  {
    if Trim(value) == "" then EmptyQuery
    else if !OnlyLettersAndSpaces(value) then
      (if HasDigit(value) then ContainsNumbers else InvalidCharacters)
    else Accepted
  }

  /**
   * Each outcome of the validation, with the condition that produces it: blank input is
   * reported first, then a digit, then any other character that is neither a letter nor
   * white space; everything else passes.
   */
  lemma ValidateInputOutcomes(value: string)
    ensures ValidateInput(value) == EmptyQuery <==> IsBlank(value)
    ensures ValidateInput(value) == ContainsNumbers <==>
      !IsBlank(value) && !OnlyLettersAndSpaces(value) && HasDigit(value)
    ensures ValidateInput(value) == InvalidCharacters <==>
      !IsBlank(value) && !OnlyLettersAndSpaces(value) && !HasDigit(value)
    ensures ValidateInput(value) == Accepted <==> !IsBlank(value) && OnlyLettersAndSpaces(value)
  {
    TrimEmptyIffBlank(value);
  }

  /** A query holding a digit is never accepted, and unless it is blank the complaint is about numbers. */
  lemma DigitsAreRejected(value: string, i: int)
    requires 0 <= i < |value| && IsDigit(value[i])
    ensures ValidateInput(value) == ContainsNumbers
  {
    TrimEmptyIffBlank(value);
    assert !IsSpace(value[i]) && !IsAsciiLetter(value[i]);
  }

  /** The `query` and `error` state of the component; `error` is kept as the outcome whose message is shown. */
  class SearchBox {
    var query: string
    var error: Validation

    constructor ()
      ensures query == "" && error == Accepted
    {
      query, error := "", Accepted;
    }

    /** The error text under the input ("" for none). */
    function ErrorText(): string
      reads this
    {
      Message(error)
    }

    /** The clear button is rendered while the query is non-empty. */
    predicate ClearButtonVisible()
      reads this
    {
      query != ""
    }

    /** `handleChange`: take the typed value and drop any error. */
    method HandleChange(value: string)
      modifies this
      ensures query == value && error == Accepted && ErrorText() == ""
    {
      query := value;
      if error != Accepted {
        error := Accepted;
      }
    }

    /** `handleClear`: empty both the query and the error, which also hides the clear button. */
    method HandleClear()
      modifies this
      ensures query == "" && error == Accepted && !ClearButtonVisible()
    {
      query := "";
      error := Accepted;
    }

    /**
     * `handleSearch`: an invalid query sets the error and submits nothing; a valid one clears
     * the error and submits the query exactly as typed (untrimmed).
     */
    method HandleSearch() returns (submitted: Option<string>)
      modifies this`error
      ensures error == ValidateInput(query)
      ensures submitted == (if error == Accepted then Some(query) else None)
    {
      var validationError := ValidateInput(query);
      if validationError != Accepted {
        error := validationError;
        return None;
      }
      error := Accepted;
      submitted := Some(query);
    }

    /** `handleKeyDown`: Enter submits; every other key is left to the input. */
    method HandleKeyDown(key: string) returns (submitted: Option<string>)
      modifies this`error
      ensures key != "Enter" ==> submitted == None && error == old(error)
      ensures key == "Enter" ==> error == ValidateInput(query)
      ensures key == "Enter" ==> submitted == (if error == Accepted then Some(query) else None)
    {
      submitted := None;
      if key == "Enter" {
        submitted := HandleSearch();
      }
    }
  }
}
