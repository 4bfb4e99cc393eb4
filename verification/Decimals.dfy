/** Integers in decimal, as JSON numbers. */
module Decimals {
  import opened Wrappers
  import opened Json

  function DigitsOf(n: nat): (s: string)
    ensures s != [] && forall i :: 0 <= i < |s| ==> '0' <= s[i] <= '9'
  {
    (if n < 10 then "" else DigitsOf(n / 10)) + ['0' + (n % 10) as char]
  }

  function IntText(n: int): string {
    if n < 0 then "-" + DigitsOf(-n) else DigitsOf(n)
  }

  function Digits(s: string): Option<nat> {
    if s == [] then None
    else
      var last := s[|s|-1];
      if !('0' <= last <= '9') then None
      else if |s| == 1 then Some(last as int - '0' as int)
      else
        match Digits(s[..|s|-1])
        case None => None
        case Some(n) => Some(10 * n + (last as int - '0' as int))
  }

  function IntOf(text: string): Option<int> {
    var negative := text != [] && text[0] == '-';
    match Digits(if negative then text[1..] else text)
    case None => None
    case Some(n) => Some(if negative then 0 - n else n)
  }

  lemma {:induction false} DigitsBack(n: nat)
    ensures Digits(DigitsOf(n)) == Some(n)
  {
    var s := DigitsOf(n);
    var last := '0' + (n % 10) as char;
    assert s[|s|-1] == last && last as int - '0' as int == n % 10;
    if n >= 10 {
      DigitsBack(n / 10);
      assert s[..|s|-1] == DigitsOf(n / 10);
    }
  }

  lemma {:induction false} IntBack(n: int)
    ensures IntOf(IntText(n)) == Some(n)
    ensures '"' !in IntText(n) && IsNumber(IntText(n))
  {
    hide DigitsOf, Digits;
    DigitsBack(if n < 0 then -n else n);
    if n < 0 { assert IntText(n)[1..] == DigitsOf(-n); }
  }
}
