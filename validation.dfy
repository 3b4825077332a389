/**
 * The field validators of src/app.ts: a string check and a "number" check over the raw text
 * of an input field, each with optional bounds that fall back to fixed defaults.
 */
module Validation {
  import opened Wrappers

  const DEFAULT_REQUIRED := false
  const DEFAULT_MIN_LENGTH := 1
  const DEFAULT_MAX_LENGTH := 1000
  const DEFAULT_MIN := 1
  const DEFAULT_MAX := 1000

  /** `ValidatableInputString`: the value and its optional constraints. */
  datatype StringInput = StringInput(
    value: string,
    required: Option<bool>,
    minLength: Option<int>,
    maxLength: Option<int>)

  /** `ValidatableInputNumber`: the raw text and its optional bounds. */
  datatype NumberInput = NumberInput(
    value: string,
    required: Option<bool>,
    min: Option<int>,
    max: Option<int>)

  // ---------------------------------------------------------------------------------------------
  // JavaScript's `length` of a string: the number of UTF-16 code units.

  /** One code unit per character of the Basic Multilingual Plane, a surrogate pair above it. */
  function CodeUnits(c: char): (n: nat)
    ensures n == 1 <==> (c as int) < 0x1_0000
    ensures n == 2 <==> (c as int) >= 0x1_0000
  {
    if (c as int) < 0x1_0000 then 1 else 2
  }

  /** `s.length` in JavaScript: the UTF-16 length of `s`. */
  function JsLength(s: string): (n: nat)
    ensures |s| <= n <= 2 * |s|
    ensures n == 0 <==> s == []
  {
    if s == [] then 0 else CodeUnits(s[0]) + JsLength(s[1..])
  }

  /** Every character of `s` lies in the Basic Multilingual Plane (below U+10000). */
  predicate IsBmp(s: string) {
    forall i :: 0 <= i < |s| ==> (s[i] as int) < 0x1_0000
  }

  /** Text made only of Basic Multilingual Plane characters has one code unit per character. */
  lemma {:induction false} JsLengthOfBmp(s: string)
    requires IsBmp(s)
    ensures JsLength(s) == |s|
  {
    if s != [] {
      JsLengthOfBmp(s[1..]);
    }
  }

  /** Each character above the Basic Multilingual Plane adds one code unit: "😀😀" has length 4. */
  lemma {:induction false} JsLengthOfAstral(s: string)
    requires forall i :: 0 <= i < |s| ==> (s[i] as int) >= 0x1_0000
    ensures JsLength(s) == 2 * |s|
  {
    if s != [] {
      JsLengthOfAstral(s[1..]);
    }
  }

  // ---------------------------------------------------------------------------------------------
  // parseInt: only whether it yields NaN matters to the validators.

  /** The characters ECMAScript's parseInt strips from the front (WhiteSpace and LineTerminator). */
  predicate IsJsSpace(c: char) {
    var n := c as int;
    (9 <= n <= 13) || n == 0x20 || n == 0xA0 || n == 0x1680 || (0x2000 <= n <= 0x200A)
    || n == 0x2028 || n == 0x2029 || n == 0x202F || n == 0x205F || n == 0x3000 || n == 0xFEFF
  }

  predicate IsDecimalDigit(c: char) { '0' <= c <= '9' }

  predicate IsHexDigit(c: char) {
    IsDecimalDigit(c) || ('a' <= c <= 'f') || ('A' <= c <= 'F')
  }

  /** How many white-space characters the text starts with. */
  function LeadingSpaces(s: string): (n: nat)
    ensures n <= |s|
  {
    if s != [] && IsJsSpace(s[0]) then 1 + LeadingSpaces(s[1..]) else 0
  }

  /** The leading run is all white space, and the character after it (if any) is not. */
  lemma {:induction false} LeadingSpacesRun(s: string)
    ensures forall i :: 0 <= i < LeadingSpaces(s) ==> IsJsSpace(s[i])
    ensures LeadingSpaces(s) < |s| ==> !IsJsSpace(s[LeadingSpaces(s)])
  {
    if s != [] && IsJsSpace(s[0]) {
      LeadingSpacesRun(s[1..]);
    }
  }

  /** Where the digits would start: after the leading white space and one optional sign. */
  function DigitsStart(s: string): (k: nat)
    ensures LeadingSpaces(s) <= k <= LeadingSpaces(s) + 1 && k <= |s|
    ensures k == LeadingSpaces(s) + 1 <==>
      LeadingSpaces(s) < |s| && (s[LeadingSpaces(s)] == '+' || s[LeadingSpaces(s)] == '-')
  {
    var i := LeadingSpaces(s);
    if i < |s| && (s[i] == '+' || s[i] == '-') then i + 1 else i
  }

  /** A `0x` or `0X` prefix at position `k`. */
  predicate HexPrefixAt(s: string, k: nat) {
    k + 1 < |s| && s[k] == '0' && (s[k + 1] == 'x' || s[k + 1] == 'X')
  }

  /**
   * True exactly when `parseInt(s)` (no radix) is a number rather than NaN: after leading white
   * space and an optional sign, a `0x`/`0X` prefix must be followed by a hexadecimal digit, and
   * otherwise the text must go on with a decimal digit.
   */
  predicate ParseIntIsNumber(s: string): (ok: bool)
    ensures ok ==> DigitsStart(s) < |s| && IsDecimalDigit(s[DigitsStart(s)])
  {
    var k := DigitsStart(s);
    if HexPrefixAt(s, k) then k + 2 < |s| && IsHexDigit(s[k + 2])
    else k < |s| && IsDecimalDigit(s[k])
  }

  /** parseInt never finds a number in the empty text, so a parsable text is never empty. */
  lemma ParsableIsNonEmpty(s: string)
    requires ParseIntIsNumber(s)
    ensures |s| >= 1
  {
  }

  /**
   * Text that starts with a decimal digit and has no `0x` prefix parses, whatever follows the
   * digit ("3abc" included).
   */
  lemma LeadingDigitParses(s: string)
    requires s != [] && IsDecimalDigit(s[0]) && !HexPrefixAt(s, 0)
    ensures ParseIntIsNumber(s)
  {
    assert LeadingSpaces(s) == 0;
  }

  /** Text with no decimal digit at all is NaN for parseInt. */
  lemma NoDigitIsNaN(s: string)
    requires forall i :: 0 <= i < |s| ==> !IsDecimalDigit(s[i])
    ensures !ParseIntIsNumber(s)
  {
  }

  /** Texts parseInt turns into a number: a leading digit, whatever follows it. */
  lemma ParseIntAcceptsDigits()
    ensures ParseIntIsNumber("3") && ParseIntIsNumber("3abc")
  {
    LeadingDigitParses("3");
    LeadingDigitParses("3abc");
  }

  /** Texts parseInt turns into a number: a sign after white space, and a hexadecimal prefix. */
  lemma ParseIntAcceptsSignAndHex()
    ensures ParseIntIsNumber(" -7") && ParseIntIsNumber("0x1f")
  {
    assert LeadingSpaces(" -7") == 1 by {
      assert " -7"[1..] == "-7";
    }
    assert LeadingSpaces("0x1f") == 0;
  }

  /** Texts parseInt turns into NaN: the empty text, letters, and a hex prefix with no digit. */
  lemma ParseIntRejectsExamples()
    ensures !ParseIntIsNumber("") && !ParseIntIsNumber("abc") && !ParseIntIsNumber("0x")
  {
    NoDigitIsNaN("abc");
    assert LeadingSpaces("0x") == 0;
  }

  // ---------------------------------------------------------------------------------------------
  // The two validators.

  /**
   * `validateInputString`: rejects an empty value that is required, then a value shorter than
   * `minLength` (default 1), then one longer than `maxLength` (default 1000).
   */
  function ValidateInputString(input: StringInput): (ok: bool)
    ensures ok <==>
      && !(input.value == [] && input.required.GetOr(DEFAULT_REQUIRED))
      && input.minLength.GetOr(DEFAULT_MIN_LENGTH) <= JsLength(input.value)
      && JsLength(input.value) <= input.maxLength.GetOr(DEFAULT_MAX_LENGTH)
  {
    var length := JsLength(input.value);
    if length == 0 && input.required.GetOr(DEFAULT_REQUIRED) then false
    else if length < input.minLength.GetOr(DEFAULT_MIN_LENGTH) then false
    else if length > input.maxLength.GetOr(DEFAULT_MAX_LENGTH) then false
    else true
  }

  /**
   * `validateInputNumber`: rejects an empty value that is required, then a value that parseInt
   * turns into NaN, and then compares the LENGTH of the text (not the parsed number) against
   * `min` (default 1) and `max` (default 1000).
   */
  function ValidateInputNumber(input: NumberInput): (ok: bool)
    ensures !ParseIntIsNumber(input.value) ==> !ok
    ensures ParseIntIsNumber(input.value) ==>
      (ok <==> input.min.GetOr(DEFAULT_MIN) <= JsLength(input.value) <= input.max.GetOr(DEFAULT_MAX))
  {
    var length := JsLength(input.value);
    if length == 0 && input.required.GetOr(DEFAULT_REQUIRED) then false
    else if !ParseIntIsNumber(input.value) then false
    else if length < input.min.GetOr(DEFAULT_MIN) then false
    else if length > input.max.GetOr(DEFAULT_MAX) then false
    else true
  }

  // ---------------------------------------------------------------------------------------------
  // Consequences of the two definitions.

  /**
   * With an effective `minLength` of at least 1 (the default), the `required` flag changes
   * nothing: the length check already rejects the empty value.
   */
  lemma RequiredRedundantForString(input: StringInput, required: Option<bool>)
    requires input.minLength.GetOr(DEFAULT_MIN_LENGTH) >= 1
    ensures ValidateInputString(input.(required := required)) == ValidateInputString(input)
  {
  }

  /** For the number check `required` never matters: parseInt already rejects the empty text. */
  lemma RequiredRedundantForNumber(input: NumberInput, required: Option<bool>)
    ensures ValidateInputNumber(input.(required := required)) == ValidateInputNumber(input)
  {
    if ParseIntIsNumber(input.value) {
      ParsableIsNonEmpty(input.value);
    }
  }

  /**
   * The parsed number plays no part in the bounds: two parsable texts of the same length with the
   * same bounds are accepted or rejected together.
   */
  lemma NumberCheckSeesOnlyLength(a: NumberInput, b: NumberInput)
    requires ParseIntIsNumber(a.value) && ParseIntIsNumber(b.value)
    requires JsLength(a.value) == JsLength(b.value) && a.min == b.min && a.max == b.max
    ensures ValidateInputNumber(a) == ValidateInputNumber(b)
  {
  }

  /**
   * With `min: 1` the number check accepts "0" and "-5", both of which are below 1 as numbers.
   */
  lemma NumberMinIsOnLength()
    ensures ValidateInputNumber(NumberInput("0", None, Some(1), None))
    ensures ValidateInputNumber(NumberInput("-5", None, Some(1), None))
  {
    LeadingDigitParses("0");
    assert LeadingSpaces("-5") == 0;
  }

  /** With `max: 2` the number check rejects "100" and accepts "99": 3 characters against 2. */
  lemma NumberMaxIsOnLength()
    ensures !ValidateInputNumber(NumberInput("100", None, None, Some(2)))
    ensures ValidateInputNumber(NumberInput("99", None, None, Some(2)))
  {
    LeadingDigitParses("100");
    LeadingDigitParses("99");
  }

  /** Loosening the bounds of the string check never turns an accepted value into a rejected one. */
  lemma StringCheckMonotone(input: StringInput, minLength: int, maxLength: int)
    requires ValidateInputString(input)
    requires minLength <= input.minLength.GetOr(DEFAULT_MIN_LENGTH)
    requires maxLength >= input.maxLength.GetOr(DEFAULT_MAX_LENGTH)
    ensures ValidateInputString(input.(minLength := Some(minLength), maxLength := Some(maxLength)))
  {
  }

  /**
   * Lengths are counted in UTF-16 code units: two emoji pass `minLength: 3` and fail
   * `maxLength: 3`, while two Latin letters fail `minLength: 3`.
   */
  lemma StringCheckCountsCodeUnits()
    ensures ValidateInputString(StringInput("\U{1F600}\U{1F600}", None, Some(3), None))
    ensures !ValidateInputString(StringInput("\U{1F600}\U{1F600}", None, None, Some(3)))
    ensures !ValidateInputString(StringInput("ab", None, Some(3), None))
  {
    JsLengthOfAstral("\U{1F600}\U{1F600}");
    JsLengthOfBmp("ab");
  }
}
