/** The few JavaScript value rules the controllers rely on: truthiness of optional
    strings and numbers, template-literal rendering of a possibly undefined string,
    `String.prototype.indexOf`, `startsWith` and `substring`, and the decimal
    rendering of a non-negative integer. */
module JsSemantics {
  import opened Wrappers

  /** A possibly undefined string is truthy iff it is present and non-empty. */
  predicate Truthy(o: Option<string>) {
    o.Some? && o.value != ""
  }

  /** `x || ''` */
  function OrEmpty(o: Option<string>): (r: string)
    ensures Truthy(o) ==> r == o.value
    ensures !Truthy(o) ==> r == ""
  {
    if Truthy(o) then o.value else ""
  }

  /** `x || fallback` for strings. */
  function OrElse(o: Option<string>, fallback: string): (r: string)
    ensures Truthy(o) ==> r == o.value
    ensures !Truthy(o) ==> r == fallback
  {
    if Truthy(o) then o.value else fallback
  }

  /** `x || null` for strings: the empty string becomes null as well. */
  function OrNull(o: Option<string>): (r: Option<string>)
    ensures r.Some? <==> Truthy(o)
    ensures r.Some? ==> r == o
  {
    if Truthy(o) then o else None
  }

  /** `n || fallback` for numbers: an absent number and 0 are both falsy. */
  function NumberOr(o: Option<int>, fallback: int): (r: int)
    ensures o.Some? && o.value != 0 ==> r == o.value
    ensures o.None? || o.value == 0 ==> r == fallback
  {
    if o.Some? && o.value != 0 then o.value else fallback
  }

  /** `${x}` for a string that may be undefined. */
  function TemplateText(o: Option<string>): (r: string)
    ensures o.Some? ==> r == o.value
    ensures o.None? ==> r == "undefined"
  {
    if o.Some? then o.value else "undefined"
  }

  /** `s.startsWith(p)` */
  predicate StartsWith(s: string, p: string) {
    |p| <= |s| && s[..|p|] == p
  }

  /** `s.indexOf(c)` for a one-character needle: the first position of `c`, or -1. */
  function IndexOf(s: string, c: char): (i: int)
    ensures -1 <= i < |s|
    ensures i == -1 <==> c !in s
    ensures 0 <= i ==> s[i] == c && c !in s[..i]
  {
    if s == [] then -1
    else if s[0] == c then 0
    else
      var j := IndexOf(s[1..], c);
      assert s[1..][..if j < 0 then 0 else j] == s[1..1 + (if j < 0 then 0 else j)];
      if j == -1 then -1 else j + 1
  }

  /** The argument clamping of `substring`: negative positions become 0 and positions
      past the end become the length. */
  function ClampIndex(i: int, length: nat): (r: nat)
    ensures r <= length
    ensures 0 <= i <= length ==> r == i
  {
    if i < 0 then 0 else if i > length then length else i
  }

  /** `s.substring(start, end)`: both arguments are clamped and swapped when out of order. */
  function Substring(s: string, start: int, end: int): (r: string)
    ensures 0 <= start <= end <= |s| ==> r == s[start..end]
    ensures start < 0 && end < 0 ==> r == ""
    ensures start <= 0 && |s| <= end ==> r == s
  {
    var a := ClampIndex(start, |s|);
    var b := ClampIndex(end, |s|);
    if a <= b then s[a..b] else s[b..a]
  }

  function DigitChar(d: nat): (c: char)
    requires d < 10
    ensures '0' <= c <= '9'
  {
    "0123456789"[d]
  }

  function DigitValue(c: char): (d: nat)
    requires '0' <= c <= '9'
    ensures d < 10 && DigitChar(d) == c
  {
    (c as int - '0' as int) as nat
  }

  predicate IsDecimal(s: string) {
    |s| > 0 && forall i :: 0 <= i < |s| ==> '0' <= s[i] <= '9'
  }

  /** `${n}` for a non-negative integer: its decimal digits, most significant first. */
  function DecimalString(n: nat): (r: string)
    ensures IsDecimal(r)
  {
    if n < 10 then [DigitChar(n)] else DecimalString(n / 10) + [DigitChar(n % 10)]
  }

  /** The value of a string of decimal digits. */
  function DecimalValue(s: string): (n: nat)
    requires IsDecimal(s)
  {
    if |s| == 1 then DigitValue(s[0])
    else DecimalValue(s[..|s| - 1]) * 10 + DigitValue(s[|s| - 1])
  }

  lemma {:induction false} DigitRoundTrip(d: nat)
    requires d < 10
    ensures DigitValue(DigitChar(d)) == d
  {
    assert DigitChar(d) == "0123456789"[d];
  }

  /** Parsing the rendering gives the number back. */
  lemma {:induction false} DecimalRoundTrip(n: nat)
    ensures DecimalValue(DecimalString(n)) == n
  {
    if n < 10 {
      DigitRoundTrip(n);
    } else {
      var s := DecimalString(n);
      assert s[..|s| - 1] == DecimalString(n / 10);
      DecimalRoundTrip(n / 10);
      DigitRoundTrip(n % 10);
    }
  }
}
