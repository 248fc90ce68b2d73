/** Decimal rendering of naturals, as `format!("{n}")` produces it. */
module Decimal {

  function Digit(d: nat): (c: char)
    requires d < 10
  {
    ['0', '1', '2', '3', '4', '5', '6', '7', '8', '9'][d]
  }

  function Render(n: nat): (s: string)
    ensures s != []
    ensures forall i :: 0 <= i < |s| ==> '0' <= s[i] <= '9'
  {
    if n < 10 then [Digit(n)] else Render(n / 10) + [Digit(n % 10)]
  }

  lemma RenderParts(n: nat) returns (last: nat)
    ensures last == |Render(n)| - 1 && Render(n)[last] == Digit(n % 10)
    ensures last == 0 <==> n < 10
    ensures n >= 10 ==> Render(n)[..last] == Render(n / 10)
  {
    last := |Render(n)| - 1;
  }

  lemma DigitInjective(a: nat, b: nat)
    requires a < 10 && b < 10 && Digit(a) == Digit(b)
    ensures a == b
  {
  }

  /** Two numbers that print alike are equal. */
  lemma {:induction false} RenderInjective(m: nat, n: nat)
    requires Render(m) == Render(n)
    ensures m == n
    decreases m + n
  {
    var last := RenderParts(m);
    var same := RenderParts(n);
    DigitInjective(m % 10, n % 10);
    if m >= 10 {
      RenderInjective(m / 10, n / 10);
    }
  }

  /** The number a text of digits denotes. */
  function Denotes(s: string): (n: nat)
    requires forall i :: 0 <= i < |s| ==> '0' <= s[i] <= '9'
  {
    if s == "" then 0 else 10 * Denotes(s[..|s| - 1]) + (s[|s| - 1] as int - '0' as int)
  }

  lemma DigitDenotes(d: nat)
    requires d < 10
    ensures Digit(d) as int == '0' as int + d
  {
  }

  /** A number prints as the digits that denote it, without a leading zero. */
  lemma {:induction false} RenderDenotes(n: nat)
    ensures Denotes(Render(n)) == n && (n > 0 ==> Render(n)[0] != '0')
  {
    var last := RenderParts(n);
    DigitDenotes(n % 10);
    if n >= 10 {
      RenderDenotes(n / 10);
      assert Render(n)[..last][0] == Render(n)[0];
    } else {
      assert Render(n)[..last] == "" && Denotes("") == 0;
    }
  }
}
