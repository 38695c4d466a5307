/**
 * The shape of the identifier the create handler generates: characters 2 to 8 of the
 * base-36 rendering of a random number in [0, 1).
 */
module ShortId {

  /** One digit of a base-36 rendering: `0`-`9`, then lower-case `a`-`z`. */
  predicate IsBase36Char(c: char)
  {
    '0' <= c <= '9' || 'a' <= c <= 'z'
  }

  /** What the create handler may use as a key: at most six base-36 digits. */
  predicate IsShortId(id: string)
  {
    |id| <= 6 && forall k :: 0 <= k < |id| ==> IsBase36Char(id[k])
  }

  /** The character JavaScript's toString(36) writes for the digit value `d`. */
  function Base36Digit(d: nat): (c: char)
    requires d < 36
    ensures IsBase36Char(c)
    ensures DigitValue(c) == d
  {
    if d < 10 then ('0' as int + d) as char else ('a' as int + d - 10) as char
  }

  /** The value of a base-36 digit character. */
  function DigitValue(c: char): (d: nat)
    requires IsBase36Char(c)
    ensures d < 36
  {
    if c <= '9' then c as int - '0' as int else c as int - 'a' as int + 10
  }

  /**
   * Number.prototype.toString(36) of a number in [0, 1) whose base-36 expansion has the
   * fraction digits `digits`: "0" for zero, otherwise "0." followed by the digits.
   */
  function RenderFraction(digits: seq<nat>): (s: string)
    requires forall k :: 0 <= k < |digits| ==> digits[k] < 36
    ensures |digits| == 0 ==> s == "0"
    ensures |digits| > 0 ==> |s| == |digits| + 2 && s[..2] == "0."
    ensures forall k :: 0 <= k < |digits| ==> s[k + 2] == Base36Digit(digits[k])
  {
    if |digits| == 0 then "0" else "0." + DigitString(digits)
  }

  function DigitString(digits: seq<nat>): (s: string)
    requires forall k :: 0 <= k < |digits| ==> digits[k] < 36
    ensures |s| == |digits|
    ensures forall k :: 0 <= k < |s| ==> s[k] == Base36Digit(digits[k])
  {
    if |digits| == 0 then [] else [Base36Digit(digits[0])] + DigitString(digits[1..])
  }

  /**
   * String.prototype.substring(start, end): both bounds clamped to [0, |s|], and swapped
   * when the first is the larger.
   */
  function Substring(s: string, start: int, end: int): (r: string)
    ensures var a, b := Clamp(start, |s|), Clamp(end, |s|);
      var lo := if a <= b then a else b;
      |r| == (if a <= b then b - a else a - b)
      && forall k :: 0 <= k < |r| ==> r[k] == s[lo + k]
  {
    var a, b := Clamp(start, |s|), Clamp(end, |s|);
    if a <= b then s[a..b] else s[b..a]
  }

  function Clamp(i: int, n: nat): (c: nat)
    ensures c <= n
  {
    if i < 0 then 0 else if i > n then n else i
  }

  /**
   * `Math.random().toString(36).substring(2, 8)` for a random number with fraction
   * digits `digits`: the first six digits, fewer when the expansion is shorter, and
   * the empty string when the number is zero.
   */
  function GeneratedId(digits: seq<nat>): (id: string)
    requires forall k :: 0 <= k < |digits| ==> digits[k] < 36
    ensures IsShortId(id)
    ensures |id| == if |digits| < 6 then |digits| else 6
    ensures forall k :: 0 <= k < |id| ==> DigitValue(id[k]) == digits[k]
  {
    var rendered := RenderFraction(digits);
    var id := Substring(rendered, 2, 8);
    assert |digits| > 0 ==> id == DigitString(digits)[..if |digits| < 6 then |digits| else 6];
    id
  }
}
