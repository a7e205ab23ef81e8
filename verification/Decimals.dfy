/** Numbers written in decimal, as `str(int)` writes them. */
module Decimals {

  predicate Digit(c: char) { '0' <= c <= '9' }

  predicate Digits(s: string) {
    s != "" && forall i :: 0 <= i < |s| ==> Digit(s[i])
  }

  function Decimal(n: nat): (d: string)
    ensures Digits(d)
  {
    if n < 10 then [('0' as int + n) as char] else Decimal(n / 10) + [('0' as int + n % 10) as char]
  }

  function DecimalValue(d: string): int {
    if d == "" then 0 else 10 * DecimalValue(d[..|d| - 1]) + (d[|d| - 1] as int - '0' as int)
  }

  /** Reading the digits gives the number back, so different numbers have different digits. */
  lemma {:induction false} DecimalValueOf(n: nat)
    ensures DecimalValue(Decimal(n)) == n
  {
    if n < 10 {
      assert Decimal(n)[..0] == "";
    } else {
      DecimalValueOf(n / 10);
      var d := Decimal(n);
      assert d[..|d| - 1] == Decimal(n / 10);
    }
  }

  function Signed(n: int): string {
    if n < 0 then "-" + Decimal(-n) else Decimal(n)
  }

  lemma SignedInjective(m: int, n: int)
    requires Signed(m) == Signed(n)
    ensures m == n
  {
    assert (m < 0) == (Signed(m)[0] == '-') && (n < 0) == (Signed(n)[0] == '-');
    if m < 0 {
      assert Signed(m)[1..] == Decimal(-m) && Signed(n)[1..] == Decimal(-n);
      DecimalValueOf(-m);
      DecimalValueOf(-n);
    } else {
      DecimalValueOf(m);
      DecimalValueOf(n);
    }
  }

  lemma SignedColonFree(n: int)
    ensures forall i :: 0 <= i < |Signed(n)| ==> Signed(n)[i] != ':'
  {
  }
}
