/** Digit strings and the numbers they write. */
module Decimals {

  predicate Digit(c: char) {
    '0' <= c <= '9'
  }

  predicate Digits(s: string) {
    forall i | 0 <= i < |s| :: Digit(s[i])
  }

  /** The number a digit string writes. */
  function Value(s: string): nat
    requires Digits(s)
  {
    if s == [] then 0
    else
      var last := |s| - 1;
      10 * Value(s[..last]) + (s[last] - '0') as nat
  }

  /** A number's digits, with no zero in front. */
  function Decimal(v: nat): string {
    if v < 10 then [('0' as int + v) as char] else Decimal(v / 10) + [('0' as int + v % 10) as char]
  }

  lemma {:induction false} DecimalReads(v: nat)
    ensures
      var s := Decimal(v);
      s != "" && Digits(s) && Value(s) == v && (s[0] == '0' ==> s == "0")
  {
    if v >= 10 {
      DecimalReads(v / 10);
      var s := Decimal(v);
      assert s[..|s| - 1] == Decimal(v / 10);
    }
  }
}
