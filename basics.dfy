// Values shared by every part of the wallet model: optional values, the
// nullable strings of the session record with JavaScript truthiness, and the
// decimal rendering used by account labels.
module Basics {

  datatype Option<+T> = None | Some(value: T) {
    /** The value, or `default` when there is none (JavaScript `x || default` on a slot). */
    function GetOr(default: T): T {
      if Some? then value else default
    }
  }

  /** A string slot that may also hold `null` or `undefined` (both are `None`). */
  type JsString = Option<string>

  /** JavaScript truthiness of a string slot: `null`, `undefined` and "" are falsy. */
  predicate Truthy(v: JsString) {
    v.Some? && |v.value| > 0
  }

  function Min(a: int, b: int): int {
    if a <= b then a else b
  }

  function Max(a: int, b: int): int {
    if a <= b then b else a
  }

  function DigitChar(d: nat): char
    requires d < 10
  {
    (48 + d) as char
  }

  /** The decimal text of `n`, as a JavaScript template literal renders it. */
  function DecimalString(n: nat): (r: string)
    ensures 1 <= |r|
    ensures n < 10 <==> |r| == 1
    decreases n
  {
    if n < 10 then [DigitChar(n)] else DecimalString(n / 10) + [DigitChar(n % 10)]
  }

  /** Different numbers never render the same. */
  lemma {:induction false} DecimalStringInjective(a: nat, b: nat)
    requires DecimalString(a) == DecimalString(b)
    ensures a == b
    decreases a
  {
    var s := DecimalString(a);
    if a < 10 {
      assert b < 10;
      assert s[0] == DigitChar(a) && s[0] == DigitChar(b);
    } else {
      assert b >= 10;
      assert s == DecimalString(a / 10) + [DigitChar(a % 10)];
      assert s == DecimalString(b / 10) + [DigitChar(b % 10)];
      assert DecimalString(a / 10) == s[..|s| - 1] == DecimalString(b / 10);
      assert DigitChar(a % 10) == s[|s| - 1] == DigitChar(b % 10);
      DecimalStringInjective(a / 10, b / 10);
    }
  }
}
