/**
 * Go's 64-bit integers and time.Duration, as the app-group handlers use them.
 * A time.Duration is an int64 count of nanoseconds; multiplying seconds by
 * time.Second wraps around on overflow, and dividing by time.Second
 * truncates toward zero.
 */
module GoInt {

  const MIN_INT64: int := -0x8000_0000_0000_0000
  const MAX_INT64: int := 0x7FFF_FFFF_FFFF_FFFF
  const TWO_TO_64: int := 0x1_0000_0000_0000_0000

  /** Go's int64 (and int on 64-bit platforms). */
  type int64 = x: int | MIN_INT64 <= x <= MAX_INT64

  /** time.Second, in nanoseconds. */
  const SECOND: int := 1_000_000_000

  /** The largest number of seconds whose Duration does not overflow. */
  const MAX_SECONDS: int := MAX_INT64 / SECOND

  /** Two's-complement truncation to 64 bits, as Go's int64 arithmetic does on overflow. */
  function Wrap64(x: int): (r: int64)
    ensures MIN_INT64 <= x <= MAX_INT64 ==> r == x
    ensures (x - r) % TWO_TO_64 == 0
  {
    var m := x % TWO_TO_64;
    if m <= MAX_INT64 then m else m - TWO_TO_64
  }

  /** time.Duration(s) * time.Second: s seconds as a Duration, wrapping on overflow. */
  function FromSeconds(s: int64): (d: int64)
    ensures -MAX_SECONDS <= s <= MAX_SECONDS ==> d == s * SECOND
    ensures (s * SECOND - d) % TWO_TO_64 == 0
  {
    Wrap64(s * SECOND)
  }

  /** d / time.Second: Go's integer division truncates toward zero. */
  function ToSeconds(d: int64): (s: int64)
    ensures 0 <= d ==> 0 <= s * SECOND <= d < s * SECOND + SECOND
    ensures d < 0 ==> s * SECOND - SECOND < d <= s * SECOND <= 0
  {
    if d >= 0 then d / SECOND else -((-(d as int)) / SECOND)
  }

  /** Storing seconds as a Duration and dividing back gives the seconds, as long as nothing overflows. */
  lemma SecondsRoundTrip(s: int64)
    requires -MAX_SECONDS <= s <= MAX_SECONDS
    ensures FromSeconds(s) == s * SECOND
    ensures ToSeconds(FromSeconds(s)) == s
  {
    assert MAX_SECONDS * SECOND <= MAX_INT64;
    assert MIN_INT64 <= -MAX_SECONDS * SECOND;
  }

  /** One second more than MAX_SECONDS wraps to a negative Duration, which reads back negative. */
  lemma SecondsOverflow()
    ensures MAX_SECONDS == 9223372036
    ensures FromSeconds(9223372037) == -9223372036709551616 < 0
    ensures ToSeconds(FromSeconds(9223372037)) == -9223372036
  {
  }
}
