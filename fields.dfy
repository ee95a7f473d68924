/** Live validation of a contact-form field as the user types or leaves it
    (js/main.js, `validateInput` and `isValidEmail` inside `initializeAnimations`). */
module FieldValidation {
  import opened Text
  import opened Wrappers

  /** The class `[^\s@]`: neither white space nor `@`. */
  predicate IsAddressChar(c: char) {
    !IsWhitespace(c) && c != '@'
  }

  predicate AllAddressChars(s: string) {
    forall k :: 0 <= k < |s| ==> IsAddressChar(s[k])
  }

  /** `s` splits at an `@` at position `i` and a `.` at position `j` into three non-empty runs
      of `[^\s@]`, as `^[^\s@]+@[^\s@]+\.[^\s@]+$` requires. */
  predicate EmailSplit(s: string, i: int, j: int) {
    0 < i && i + 1 < j && j + 1 < |s| && s[i] == '@' && s[j] == '.'
    && AllAddressChars(s[..i]) && AllAddressChars(s[i + 1..j]) && AllAddressChars(s[j + 1..])
  }

  /** The language of the regular expression `/^[^\s@]+@[^\s@]+\.[^\s@]+$/`. */
  ghost predicate MatchesEmailPattern(s: string) {
    exists i, j :: EmailSplit(s, i, j)
  }

  /** A `.` with at least one character on either side of it. */
  predicate HasInnerDot(d: string) {
    exists j :: 0 < j < |d| - 1 && d[j] == '.'
  }

  /** The decision made by splitting at the first `@`: a non-empty local part and a domain,
      both free of white space and `@`, the domain holding an inner `.`. */
  predicate SplitsAtFirstAt(s: string) {
    var at := FindChar(s, '@');
    0 < at < |s| && AllAddressChars(s[..at]) && AllAddressChars(s[at + 1..]) && HasInnerDot(s[at + 1..])
  }

  /** The split-at-the-first-`@` decision accepts exactly the language of the regular expression. */
  lemma SplitAtFirstAtIff(s: string)
    ensures SplitsAtFirstAt(s) <==> MatchesEmailPattern(s)
  {
    var at := FindChar(s, '@');
    if SplitsAtFirstAt(s) {
      var d := s[at + 1..];
      var j0 :| 0 < j0 < |d| - 1 && d[j0] == '.';
      var j := at + 1 + j0;
      assert s[at + 1..j] == d[..j0];
      assert s[j + 1..] == d[j0 + 1..];
      assert EmailSplit(s, at, j);
    }
    if MatchesEmailPattern(s) {
      var i, j :| EmailSplit(s, i, j);
      assert at == i;
      var d := s[i + 1..];
      forall k | 0 <= k < |d| ensures IsAddressChar(d[k]) {
        if k < j - i - 1 {
          assert d[k] == s[i + 1..j][k];
        } else if k > j - i - 1 {
          assert d[k] == s[j + 1..][k - (j - i)];
        }
      }
      assert d[j - i - 1] == '.';
    }
  }

  /** `isValidEmail(email)`: the regular expression's test, decided by the split at the first `@`. */
  function IsValidEmail(s: string): (ok: bool)
    ensures ok <==> MatchesEmailPattern(s)
  {
    SplitAtFirstAtIff(s);
    SplitsAtFirstAt(s)
  }

  /** An accepted address has no white space and exactly one `@`, which is preceded by
      at least one character. */
  lemma ValidEmailShape(s: string)
    requires IsValidEmail(s)
    ensures forall k :: 0 <= k < |s| ==> !IsWhitespace(s[k])
    ensures forall k :: 0 <= k < |s| ==> (s[k] == '@' <==> k == FindChar(s, '@'))
    ensures 0 < FindChar(s, '@') < |s|
  {
    assert SplitsAtFirstAt(s);
    var at := FindChar(s, '@');
    assert AllAddressChars(s[..at]) && AllAddressChars(s[at + 1..]);
    forall k | 0 <= k < |s| ensures !IsWhitespace(s[k]) && (s[k] == '@' <==> k == at) {
      if k < at {
        assert s[..at][k] == s[k];
      } else if k > at {
        assert s[at + 1..][k - at - 1] == s[k];
      }
    }
  }

  /** The three outcomes of `validateInput`. */
  datatype FieldState = Required | InvalidEmail | Valid

  const RequiredText := "This field is required"
  const InvalidEmailText := "Please enter a valid email"

  /** The rule `validateInput` applies to a field with value `value` and type `inputType`:
      required when the trimmed value is empty, otherwise invalid when an `email` field fails
      the address pattern, otherwise valid. */
  function CheckField(value: string, inputType: string): (st: FieldState)
    ensures st == Required <==> forall k :: 0 <= k < |value| ==> IsWhitespace(value[k])
    ensures st == InvalidEmail <==>
      (exists k :: 0 <= k < |value| && !IsWhitespace(value[k]))
      && inputType == "email" && !MatchesEmailPattern(value)
    ensures st == Valid <==>
      (exists k :: 0 <= k < |value| && !IsWhitespace(value[k]))
      && (inputType == "email" ==> MatchesEmailPattern(value))
  {
    TrimEmptyIff(value);
    if Trim(value) == [] then Required
    else if inputType == "email" && !IsValidEmail(value) then InvalidEmail
    else Valid
  }

  /** The `data-error` text shown for a field state; a valid field has none. */
  function ErrorText(st: FieldState): Option<string> {
    match st
    case Required => Some(RequiredText)
    case InvalidEmail => Some(InvalidEmailText)
    case Valid => None
  }

  /** The `.form-group` element around an input: its `error` class and its `data-error` entry. */
  class FormGroup {
    var hasErrorClass: bool
    var errorData: Option<string>

    constructor ()
      ensures !hasErrorClass && errorData == None
    {
      hasErrorClass := false;
      errorData := None;
    }

    /** `validateInput(input)` on an input of this group. */
    method ValidateInput(value: string, inputType: string)
      modifies this
      ensures hasErrorClass <==> CheckField(value, inputType) != Valid
      ensures errorData == ErrorText(CheckField(value, inputType))
      ensures errorData.None? <==> !hasErrorClass
    {
      if Trim(value) == [] {
        hasErrorClass := true;
        errorData := Some(RequiredText);
      } else if inputType == "email" && !IsValidEmail(value) {
        hasErrorClass := true;
        errorData := Some(InvalidEmailText);
      } else {
        hasErrorClass := false;
        errorData := None;
      }
    }
  }
}
