/** Small value types shared by every module of the model. */
module Values {
  datatype Option<+T> = None | Some(value: T)

  /** Wall-clock readings and durations are nanoseconds; the model leaves them unbounded. */
  type Instant = int
  type Duration = int

  const SECOND: Duration := 1_000_000_000

  function Min(a: int, b: int): (m: int)
    ensures m <= a && m <= b && (m == a || m == b)
  {
    if a <= b then a else b
  }

  function Pow2(n: nat): (p: nat)
    ensures p >= 1
  {
    if n == 0 then 1 else 2 * Pow2(n - 1)
  }

  lemma {:induction false} Pow2Monotone(m: nat, n: nat)
    requires m <= n
    ensures Pow2(m) <= Pow2(n)
    decreases n
  {
    if m < n {
      Pow2Monotone(m, n - 1);
    }
  }
}
