/** The JavaScript value conventions the components rely on: values that may be
    `null` or `undefined`, the truthiness of strings (`if (s)`, `s || t`,
    `a?.b`), and the decimal text of a number in a template literal. */
module Js {

  /** A value that may be `null`/`undefined` (None) or present (Some). */
  datatype Option<+T> = None | Some(value: T)

  /** `if (s)` on a string that may be missing: `null`, `undefined` and `""`
      are falsy, every other string is truthy. */
  predicate Truthy(s: Option<string>) {
    s.Some? && s.value != ""
  }

  /** `s || fallback` for a possibly missing string. */
  function Or(s: Option<string>, fallback: string): string {
    if Truthy(s) then s.value else fallback
  }

  /** The first truthy candidate, in priority order: the value that
      `a || b || ...` picks, or None when every candidate is falsy. */
  function FirstTruthy(cands: seq<Option<string>>): (r: Option<string>)
    ensures r.None? <==> forall i :: 0 <= i < |cands| ==> !Truthy(cands[i])
    ensures r.Some? ==> Truthy(r)
    ensures |cands| > 0 && Truthy(cands[|cands| - 1]) ==> r.Some?
    ensures r.Some? ==>
      exists i :: 0 <= i < |cands| && cands[i] == r && forall j :: 0 <= j < i ==> !Truthy(cands[j])
  {
    if cands == [] then None
    else if Truthy(cands[0]) then cands[0]
    else
      var r := FirstTruthy(cands[1..]);
      assert forall i :: 0 < i < |cands| ==> cands[i] == cands[1..][i - 1];
      r
  }

  /** `a || b` on two possibly missing strings with a present fallback is the
      first truthy one of the pair. */
  lemma OrIsFirstTruthy(s: Option<string>, fallback: string)
    requires fallback != ""
    ensures FirstTruthy([s, Some(fallback)]) == Some(Or(s, fallback))
  {
  }

  /** The character of a decimal digit. */
  function DigitChar(d: nat): (c: char)
    requires d < 10
    ensures '0' <= c <= '9' && c as int - '0' as int == d
  {
    ('0' as int + d) as char
  }

  predicate IsDigits(s: string) {
    forall i :: 0 <= i < |s| ==> '0' <= s[i] <= '9'
  }

  /** `${n}` for a non-negative integer: its decimal digits, with no leading zero. */
  function DecimalString(n: nat): (s: string)
    ensures |s| >= 1 && IsDigits(s)
    ensures |s| > 1 ==> s[0] != '0'
  {
    if n < 10 then [DigitChar(n)] else DecimalString(n / 10) + [DigitChar(n % 10)]
  }

  /** The number a string of decimal digits denotes. */
  function DecimalValue(s: string): nat
    requires IsDigits(s)
  {
    if s == [] then 0
    else 10 * DecimalValue(s[..|s| - 1]) + (s[|s| - 1] as int - '0' as int)
  }

  /** The decimal text of a number determines the number. */
  lemma {:induction false} DecimalRoundTrip(n: nat)
    ensures DecimalValue(DecimalString(n)) == n
  {
    var s := DecimalString(n);
    if n >= 10 {
      DecimalRoundTrip(n / 10);
      assert s[..|s| - 1] == DecimalString(n / 10);
    }
  }
}
