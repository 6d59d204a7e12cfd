/**
 * Decimal rendering of integers, as Rust's `Display` for `usize` and `i32` writes them
 * inside `format!("{}", n)`: base ten, no leading zeros, a leading `-` for negatives.
 * `DecimalValue` and `ParseInt` read the text back and are the partners of the renderers.
 */
module Decimal {
  import opened Wrappers

  /** Rust's `i32`, the type of `restart_count` and `exit_code`. */
  newtype i32 = x: int | -0x8000_0000 <= x < 0x8000_0000

  predicate IsDigit(c: char) {
    '0' <= c <= '9'
  }

  predicate IsDigits(s: string) {
    forall k :: 0 <= k < |s| ==> IsDigit(s[k])
  }

  function DigitChar(d: nat): (c: char)
    requires d < 10
    ensures IsDigit(c) && c as int - '0' as int == d
  {
    ('0' as int + d) as char
  }

  /** The text of a non-negative count, most significant digit first. */
  function NatToString(n: nat): (s: string)
    ensures |s| >= 1 && IsDigits(s)
    ensures s[0] == '0' ==> n == 0 && s == "0"
    ensures n == 0 ==> s == "0"
    decreases n
  {
    if n < 10 then [DigitChar(n)] else NatToString(n / 10) + [DigitChar(n % 10)]
  }

  /** The number a string of digits denotes in base ten. */
  function DecimalValue(s: string): nat
    requires IsDigits(s)
  {
    if s == [] then 0 else DecimalValue(s[..|s| - 1]) * 10 + (s[|s| - 1] as int - '0' as int)
  }

  /** The text of a 32-bit signed integer. */
  function IntToString(x: i32): (s: string)
    ensures |s| >= if x < 0 then 2 else 1
    ensures s[0] == '-' <==> x < 0
    ensures IsDigits(s[if x < 0 then 1 else 0..])
    ensures s[if x < 0 then 1 else 0] == '0' ==> s == "0"
  {
    if x < 0 then "-" + NatToString(-(x as int)) else NatToString(x as int)
  }

  /** Reads an optional `-` followed by digits; anything else is not a number. */
  function ParseInt(s: string): Option<int> {
    if |s| > 1 && s[0] == '-' && IsDigits(s[1..]) then Some(0 - DecimalValue(s[1..]))
    else if |s| > 0 && IsDigits(s) then Some(DecimalValue(s))
    else None
  }

  lemma {:induction false} NatToStringRoundTrip(n: nat)
    ensures DecimalValue(NatToString(n)) == n
  {
    if n >= 10 {
      var front := NatToString(n / 10);
      var s := front + [DigitChar(n % 10)];
      assert s[..|s| - 1] == front;
      NatToStringRoundTrip(n / 10);
    }
  }

  /** Different counts are rendered as different texts. */
  lemma NatToStringInjective(m: nat, n: nat)
    ensures NatToString(m) == NatToString(n) ==> m == n
  {
    NatToStringRoundTrip(m);
    NatToStringRoundTrip(n);
  }

  /** Every `i32` reads back from its own text. */
  lemma IntToStringRoundTrip(x: i32)
    ensures ParseInt(IntToString(x)) == Some(x as int)
  {
    var s := IntToString(x);
    if x < 0 {
      var digits := NatToString(-(x as int));
      assert s[1..] == digits;
      NatToStringRoundTrip(-(x as int));
    } else {
      NatToStringRoundTrip(x as int);
    }
  }
}
