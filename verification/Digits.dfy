/** Decimal text, as fmt and time.Format print it. */
module Digits {
  import opened Text

  predicate IsDigit(c: char) {
    '0' <= c <= '9'
  }

  predicate AllDigits(s: string) {
    forall i :: 0 <= i < |s| ==> IsDigit(s[i])
  }

  function Digit(d: nat): char
    requires d < 10
  {
    '0' + d as char
  }

  /** fmt's %d for a non-negative number. */
  function Decimal(n: nat): (s: string)
    ensures s != [] && AllDigits(s)
  {
    if n < 10 then [Digit(n)] else Decimal(n / 10) + [Digit(n % 10)]
  }

  function Pow10(k: nat): (p: nat)
    ensures p >= 1
  {
    if k == 0 then 1 else 10 * Pow10(k - 1)
  }

  /** n has at most k digits exactly when it is below 10^k. */
  lemma {:induction false} DecimalLength(n: nat, k: nat)
    requires k >= 1
    ensures |Decimal(n)| <= k <==> n < Pow10(k)
  {
    if n >= 10 {
      if k == 1 {
        assert |Decimal(n / 10)| >= 1 && Pow10(1) == 10;
      } else {
        DecimalLength(n / 10, k - 1);
      }
    } else {
      assert Pow10(k) == 10 * Pow10(k - 1);
    }
  }

  /** The last k decimal digits of n, zero-padded. */
  function Padded(n: nat, k: nat): (s: string)
    ensures |s| == k && AllDigits(s)
  {
    if k == 0 then [] else Padded(n / 10, k - 1) + [Digit(n % 10)]
  }

  /** The number a digit string denotes. */
  function Value(s: string): nat
    requires AllDigits(s)
  {
    if s == [] then 0 else 10 * Value(s[..|s| - 1]) + (s[|s| - 1] - '0') as nat
  }

  lemma {:induction false} ValueOfPadded(n: nat, k: nat)
    requires n < Pow10(k)
    ensures Value(Padded(n, k)) == n
  {
    if k > 0 {
      var s := Padded(n, k);
      assert s[..|s| - 1] == Padded(n / 10, k - 1);
      ValueOfPadded(n / 10, k - 1);
    }
  }

  lemma PaddedIsInjective(a: nat, b: nat, k: nat)
    requires a < Pow10(k) && b < Pow10(k)
    ensures Padded(a, k) == Padded(b, k) <==> a == b
  {
    ValueOfPadded(a, k);
    ValueOfPadded(b, k);
  }

  /** Fixed-width digits sort as the numbers do. */
  lemma {:induction false} PaddedOrder(a: nat, b: nat, k: nat)
    requires a < Pow10(k) && b < Pow10(k)
    ensures Before(Padded(a, k), Padded(b, k)) <==> a < b
  {
    if k > 0 {
      var x, y := Padded(a / 10, k - 1), Padded(b / 10, k - 1);
      PaddedOrder(a / 10, b / 10, k - 1);
      PaddedIsInjective(a / 10, b / 10, k - 1);
      if a / 10 == b / 10 {
        BeforeSharedPrefix(x, [Digit(a % 10)], [Digit(b % 10)]);
      } else {
        BeforeByHead(x, y, [Digit(a % 10)], [Digit(b % 10)]);
      }
    }
  }

  /** A fixed-width field decides the order unless it is equal. */
  lemma FieldDecides(a: nat, b: nat, k: nat, x: string, y: string)
    requires a < Pow10(k) && b < Pow10(k)
    ensures Before(Padded(a, k) + x, Padded(b, k) + y) <==> a < b || (a == b && Before(x, y))
  {
    PaddedOrder(a, b, k);
    PaddedIsInjective(a, b, k);
    if a == b {
      BeforeSharedPrefix(Padded(a, k), x, y);
    } else {
      BeforeByHead(Padded(a, k), Padded(b, k), x, y);
    }
  }
}
