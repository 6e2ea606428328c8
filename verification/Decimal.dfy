// Decimal printing and parsing of numbers.
module Decimal {
  import opened Text

  predicate IsDigit(c: char) {
    '0' <= c <= '9'
  }

  function DigitOf(d: nat): char
    requires d < 10
  {
    '0' + d as char
  }

  function ValueOf(c: char): nat
    requires IsDigit(c)
  {
    (c - '0') as nat
  }

  function Itoa(n: nat): (s: string)
    ensures s != "" && forall i :: 0 <= i < |s| ==> IsDigit(s[i])
  {
    if n < 10 then [DigitOf(n)] else Itoa(n / 10) + [DigitOf(n % 10)]
  }

  // Reads a string of digits; anything else is no number.
  function Atoi(s: string): Option<nat> {
    if s == "" || !IsDigit(s[|s| - 1]) then None
    else if |s| == 1 then Some(ValueOf(s[0]))
    else match Atoi(s[..|s| - 1])
      case None => None
      case Some(n) => Some(10 * n + ValueOf(s[|s| - 1]))
  }

  lemma {:induction false} AtoiItoa(n: nat)
    ensures Atoi(Itoa(n)) == Some(n)
  {
    if n >= 10 {
      AtoiItoa(n / 10);
      assert Itoa(n)[..|Itoa(n)| - 1] == Itoa(n / 10);
    }
  }

  // Different numbers print differently.
  lemma {:induction false} ItoaInjective(m: nat, n: nat)
    requires Itoa(m) == Itoa(n)
    ensures m == n
  {
    AtoiItoa(m);
    AtoiItoa(n);
  }

  const MAX_INT: nat := 0x7fff_ffff_ffff_ffff

  // strconv.Atoi: an optional sign, then decimal digits, within 64 bits.
  function GoAtoi(s: string): Option<int> {
    if s == "" then None
    else if s[0] == '-' then
      match Atoi(s[1..])
      case Some(n) => if n <= MAX_INT + 1 then Some(0 - n as int) else None
      case None => None
    else
      match Atoi(if s[0] == '+' then s[1..] else s)
      case Some(n) => if n <= MAX_INT then Some(n) else None
      case None => None
  }
}
