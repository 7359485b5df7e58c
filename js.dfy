/**
 * JavaScript's truthiness on the values the scripts test (`a || b`, `!x`),
 * and `Number(s)` on a string.
 */
module Js {
  import opened Wrappers
  import opened Text

  /** A string that is neither `undefined`, `null` nor `""`. */
  predicate Truthy(o: Option<string>) {
    o.Some? && o.value != ""
  }

  /** `a || b` on nullable strings. */
  function Or(a: Option<string>, b: Option<string>): (r: Option<string>)
    ensures Truthy(a) ==> r == a
    ensures !Truthy(a) ==> r == b
  {
    if Truthy(a) then a else b
  }

  /** `a || b` on strings where `""` stands for every falsy value. */
  function Either(a: string, b: string): (r: string)
    ensures a != "" ==> r == a
    ensures a == "" ==> r == b
  {
    if a != "" then a else b
  }

  /** `s || null` */
  function NonEmpty(s: string): (r: Option<string>)
    ensures Truthy(r) <==> s != ""
    ensures r.Some? ==> r.value == s
  {
    if s != "" then Some(s) else None
  }

  /** A number that is neither absent nor `0` (nor NaN). */
  predicate NumTruthy(o: Option<real>) {
    o.Some? && o.value != 0.0
  }

  /** `a || b` on numbers that may be absent. */
  function OrNum(a: Option<real>, b: Option<real>): (r: Option<real>)
    ensures NumTruthy(a) ==> r == a
    ensures !NumTruthy(a) ==> r == b
  {
    if NumTruthy(a) then a else b
  }

  /** `Number(x || 0)` for a number that may be absent: absent and `0` both give `0`. */
  function OrZero(a: Option<real>): (r: real)
    ensures NumTruthy(a) ==> r == a.value
    ensures !NumTruthy(a) ==> r == 0.0
  {
    if NumTruthy(a) then a.value else 0.0
  }

  /** `a ?? b` on numbers: only an absent value falls through, `0` does not. */
  function Nullish(a: Option<real>, b: Option<real>): (r: Option<real>)
    ensures a.Some? ==> r == a
    ensures a.None? ==> r == b
  {
    if a.Some? then a else b
  }

  /** A number in a template literal: `undefined` when absent. */
  function TemplateText(v: Option<real>, numberText: real -> string): (r: string)
    ensures v.None? ==> r == "undefined"
    ensures v.Some? ==> r == numberText(v.value)
  {
    if v.Some? then numberText(v.value) else "undefined"
  }

  /** `v || null` on a number: NaN and `0` both become `null`. */
  function NumOrNull(v: Option<real>): (r: Option<real>)
    ensures r.Some? <==> NumTruthy(v)
    ensures r.Some? ==> r == v
  {
    if NumTruthy(v) then v else None
  }

  predicate IsDigit(c: char) {
    '0' <= c <= '9'
  }

  predicate AllDigits(s: string) {
    forall i :: 0 <= i < |s| ==> IsDigit(s[i])
  }

  function DigitsValue(s: string): (v: nat)
    requires AllDigits(s)
  {
    if s == [] then 0 else DigitsValue(s[..|s| - 1]) * 10 + (s[|s| - 1] as int - '0' as int)
  }

  function Pow10(n: nat): (p: nat)
    ensures p >= 1
  {
    if n == 0 then 1 else 10 * Pow10(n - 1)
  }

  /** An unsigned decimal numeral `123`, `1.5`, `.5` or `2.`; at least one digit. */
  function ParseUnsigned(t: string): Option<real> {
    var k := IndexOf(t, '.');
    var whole := if k < 0 then t else t[..k];
    var frac := if k < 0 then "" else t[k + 1..];
    if AllDigits(whole) && AllDigits(frac) && |whole| + |frac| > 0 then
      Some(DigitsValue(whole) as real + DigitsValue(frac) as real / Pow10(|frac|) as real)
    else None
  }

  /**
   * `Number(s)` for a string in decimal notation: surrounding white space is
   * ignored, a blank string is `0`; `None` stands for NaN.
   */
  function ParseNumber(s: string): (r: Option<real>)
    ensures Trim(s) == "" ==> r == Some(0.0)
  {
    var t := Trim(s);
    if t == "" then Some(0.0)
    else if t[0] == '-' then
      match ParseUnsigned(t[1..])
      case Some(v) => Some(-v)
      case None => None
    else if t[0] == '+' then ParseUnsigned(t[1..])
    else ParseUnsigned(t)
  }

  /** A plain numeral reads as its value. */
  lemma ParseDigits(s: string)
    requires s != [] && AllDigits(s)
    ensures ParseNumber(s) == Some(DigitsValue(s) as real)
  {
    assert IsDigit(s[0]) && IsDigit(s[|s| - 1]);
    TrimOfTrimmed(s);
    assert s[0] != '-' && s[0] != '+';
    UnsignedDigits(s);
  }

  lemma UnsignedDigits(s: string)
    requires s != [] && AllDigits(s)
    ensures ParseUnsigned(s) == Some(DigitsValue(s) as real)
  {
    assert forall i :: 0 <= i < |s| ==> s[i] != '.';
    assert IndexOf(s, '.') == -1;
    assert DigitsValue("") == 0 && Pow10(|""|) == 1;
    assert 0 as real / 1 as real == 0.0;
  }

  /**
   * The value after the flag at `args[i]`, read as `Number(args[++i] || "0")`;
   * `None` stands for NaN, and a flag at the end reads `"0"`.
   */
  function FlagValue(args: seq<string>, i: nat): (r: Option<real>)
    ensures i + 1 >= |args| ==> r == Some(0.0)
  {
    if i + 1 < |args| then ParseNumber(Either(args[i + 1], "0")) else Some(0.0)
  }

  /** `2 ** k` */
  function Pow2(k: nat): (p: nat)
    ensures p >= 1
  {
    if k == 0 then 1 else 2 * Pow2(k - 1)
  }
}
