/** Instants are integer milliseconds since the epoch; this module holds the
    minute arithmetic date-fns performs on them. */
module Clock {

  const MsPerMinute: int := 60000
  const MsPerHour: int := 3600000

  /** `Math.trunc(a / b)` for a positive divisor: division rounding toward zero.
      (Dafny's own `/` rounds toward minus infinity for a negative dividend.) */
  function TruncDiv(a: int, b: int): (q: int)
    requires b > 0
    ensures a >= 0 ==> 0 <= q && q * b <= a < q * b + b
    ensures a < 0 ==> q <= 0 && q * b - b < a <= q * b
  {
    if a >= 0 then
      DivBounds(a, b);
      a / b
    else
      DivBounds(-a, b);
      NegateProduct((-a) / b, b);
      -((-a) / b)
  }

  /** Dafny's quotient of a non-negative number rounds down. */
  lemma DivBounds(n: int, b: int)
    requires n >= 0 && b > 0
    ensures 0 <= n / b && (n / b) * b <= n < (n / b) * b + b
  {
    assert n == (n / b) * b + n % b;
  }

  lemma NegateProduct(q: int, b: int)
    ensures (-q) * b == -(q * b)
  {
  }

  /** JavaScript's `a % b` for a positive divisor: the remainder of the division
      rounding toward zero, so it takes the sign of `a`. */
  function TruncRem(a: int, b: int): (r: int)
    requires b > 0
    ensures a == TruncDiv(a, b) * b + r
    ensures a >= 0 ==> 0 <= r < b
    ensures a < 0 ==> -b < r <= 0
  {
    a - TruncDiv(a, b) * b
  }

  /** date-fns `differenceInMinutes(later, earlier)`: whole minutes between two
      instants, truncated toward zero, negative when `later` is earlier. */
  function DiffMinutes(later: int, earlier: int): (m: int)
    ensures later >= earlier ==> 0 <= m && m * MsPerMinute <= later - earlier < m * MsPerMinute + MsPerMinute
    ensures later < earlier ==> m <= 0 && m * MsPerMinute - MsPerMinute < later - earlier <= m * MsPerMinute
  {
    TruncDiv(later - earlier, MsPerMinute)
  }

  /** Truncation is symmetric: swapping the instants only flips the sign. */
  lemma DiffMinutesAntisymmetric(a: int, b: int)
    ensures DiffMinutes(a, b) == -DiffMinutes(b, a)
  {
  }
}
