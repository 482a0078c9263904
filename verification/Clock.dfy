/** Monotonic time as the client measures it: signed 64-bit nanoseconds in the
    program, mathematical integers here, with the machine width named where an
    operation could leave it. */
module Clock {
  type Instant = int
  type Duration = int

  const SECOND: Duration := 1_000_000_000
  const MINUTE: Duration := 60 * SECOND

  /** The protocol's "forever", which is a value no real duration takes. */
  const INFINITE: Duration := -1

  const MAX_INT64: int := 0x7FFF_FFFF_FFFF_FFFF
  const TWO_64: int := 0x1_0000_0000_0000_0000

  /** A signed machine word. Arithmetic on it is checked, so a member written
      with it is proved never to wrap. */
  newtype int64 = x: int | -0x8000_0000_0000_0000 <= x <= 0x7FFF_FFFF_FFFF_FFFF
  newtype uint64 = x: int | 0 <= x < 0x1_0000_0000_0000_0000

  type Seconds32 = x: int | 0 <= x < 0x1_0000_0000

  /** The one entropy value a step is given. */
  type Entropy = x: int | 0 <= x < 0x1_0000_0000_0000_0000

  /** What a signed 64-bit register holds after computing x. */
  function Wrap64(x: int): (w: int)
    ensures -0x8000_0000_0000_0000 <= w <= MAX_INT64
    ensures -0x8000_0000_0000_0000 <= x <= MAX_INT64 ==> w == x
  {
    if -0x8000_0000_0000_0000 <= x <= MAX_INT64 then x
    else
      var r := x % TWO_64;
      if r > MAX_INT64 then r - TWO_64 else r
  }

  function SecondsToDuration(secs: Seconds32): Duration {
    if secs == 0xFFFF_FFFF then INFINITE else secs * SECOND
  }

  function Min(a: int, b: int): int { if a <= b then a else b }

  function Max(a: int, b: int): int { if a <= b then b else a }

  function Abs(a: int): nat { if a < 0 then -a else a }

  function Pow2(n: nat): (p: nat)
    ensures p >= 1
  {
    if n == 0 then 1 else 2 * Pow2(n - 1)
  }

  lemma {:induction false} Pow2Monotone(i: nat, j: nat)
    requires i <= j
    ensures Pow2(i) <= Pow2(j)
    decreases j
  {
    if i < j {
      Pow2Monotone(i, j - 1);
    }
  }

  /** The signed quotient of the program's division, which truncates toward zero. */
  function Quot(a: int, b: int): int
    requires b > 0
  {
    if a >= 0 then a / b else -((-a) / b)
  }

  /** A value drawn uniformly from lo to hi. */
  function Uniform(lo: Duration, hi: Duration, rnd: Entropy): (d: Duration)
    ensures lo <= hi ==> lo <= d <= hi
    ensures hi <= lo ==> d == lo
  {
    if hi - lo <= 0 then lo else lo + rnd % (hi - lo + 1)
  }
}
