/** Integers as decimal text, and back. */
module Decimal {

  predicate IsDigit(c: char) {
    '0' <= c <= '9'
  }

  predicate AllDigits(s: string) {
    forall i :: 0 <= i < |s| ==> IsDigit(s[i])
  }

  function DigitOf(d: nat): (c: char)
    requires d < 10
    ensures IsDigit(c) && c as int - '0' as int == d
  {
    ('0' as int + d) as char
  }

  /** The shortest decimal text of a natural number. */
  function Digits(n: nat): (s: string)
    ensures s != [] && AllDigits(s)
    ensures |s| > 1 ==> s[0] != '0'
  {
    if n < 10 then [DigitOf(n)] else Digits(n / 10) + [DigitOf(n % 10)]
  }

  /** The number digits denote; the empty text denotes zero. */
  function Value(s: string): nat
    requires AllDigits(s)
  {
    if s == [] then 0 else 10 * Value(s[..|s| - 1]) + (s[|s| - 1] as int - '0' as int)
  }

  lemma {:induction false} DigitsDenote(n: nat)
    ensures Value(Digits(n)) == n
  {
    if n >= 10 {
      DigitsDenote(n / 10);
      assert Digits(n)[..|Digits(n)| - 1] == Digits(n / 10);
    } else {
      assert Digits(n)[..0] == [];
    }
  }

  function Itoa(n: int): (s: string)
    ensures s != []
    ensures forall i :: 0 <= i < |s| ==> IsDigit(s[i]) || s[i] == '-'
  {
    if n < 0 then "-" + Digits(-n) else Digits(n)
  }

  lemma ItoaInjective(m: int, n: int)
    ensures Itoa(m) == Itoa(n) <==> m == n
  {
    if Itoa(m) == Itoa(n) {
      DigitsDenote(if m < 0 then -m else m);
      DigitsDenote(if n < 0 then -n else n);
      assert m < 0 ==> Itoa(m)[0] == '-' && Itoa(m)[1..] == Digits(-m);
      assert n < 0 ==> Itoa(n)[0] == '-' && Itoa(n)[1..] == Digits(-n);
      assert m >= 0 ==> IsDigit(Itoa(m)[0]);
      assert n >= 0 ==> IsDigit(Itoa(n)[0]);
    }
  }

  /** Reads what Itoa writes; anything else is refused. */
  function Atoi(s: string): (r: (bool, int))
  {
    if s == [] then (false, 0)
    else if AllDigits(s) then (true, Value(s) as int)
    else if s[0] == '-' && |s| > 1 && AllDigits(s[1..]) then (true, 0 - Value(s[1..]))
    else (false, 0)
  }

  lemma AtoiInverts(n: int)
    ensures Atoi(Itoa(n)) == (true, n)
  {
    if n < 0 {
      DigitsDenote(-n);
      assert Itoa(n)[1..] == Digits(-n);
      assert !IsDigit(Itoa(n)[0]);
    } else {
      DigitsDenote(n);
    }
  }
}
