/** Go's fixed-width integer types, its (value, error) return convention, and
    the arithmetic of package time that the monitor's core relies on. */
module GoLib {

  type int32 = x: int | -0x8000_0000 <= x < 0x8000_0000
  type int64 = x: int | -0x8000_0000_0000_0000 <= x < 0x8000_0000_0000_0000
  type uint64 = x: int | 0 <= x < 0x1_0000_0000_0000_0000

  /** A Go pointer that may be nil. */
  datatype Option<T> = None | Some(value: T)

  /** Go's `error`: nil, or an error carrying its message. */
  datatype GoError = Nil | Error(message: string)

  /** The pair `v, err := f()` that a Go call returns. */
  datatype Ret<T> = Ret(value: T, err: GoError)

  /** A call made while a deferred recover() is in force: either it returned
      its pair, or it panicked and returned nothing. */
  datatype Call<T> = Returned(value: T, err: GoError) | Panicked

  /** What Duration.String() returns: never empty, and always ending in its
      unit's final "s" ("0s", "1m30s", "2h0m5s", "1.5ms", "300ns"). */
  type DurationText = s: string | |s| > 0 && s[|s| - 1] == 's' witness "0s"

  /** time.Millisecond and time.Second, as a time.Duration counts them (nanoseconds). */
  const Millisecond: int := 1_000_000
  const Second: int := 1_000_000_000

  function Min(a: int, b: int): (r: int)
    ensures r <= a && r <= b && (r == a || r == b)
  {
    if a <= b then a else b
  }

  /** Duration.Truncate(time.Second), which Go computes as d - d%time.Second
      with Go's `%` truncating toward zero (the remainder takes the sign of
      d; Dafny's own `%` is Euclidean): d rounded toward zero to whole seconds. */
  function TruncateToSecond(d: int): (r: int)
    ensures r % Second == 0
    ensures d >= 0 ==> 0 <= r <= d < r + Second
    ensures d < 0 ==> r - Second < d <= r <= 0
  {
    var rem := if d >= 0 then d % Second else -((-d) % Second);
    d - rem
  }

  /** `time.Since(time.Unix(0, createMs*int64(time.Millisecond))).Truncate(time.Second)`
      with the wall clock read as `now` nanoseconds since the Unix epoch: the
      age of a process created at `createMs` milliseconds, cut to whole seconds. */
  function ElapsedSince(now: int, createMs: int): (d: int)
    ensures d % Second == 0
    ensures now >= createMs * Millisecond ==> 0 <= d <= now - createMs * Millisecond < d + Second
  {
    TruncateToSecond(now - createMs * Millisecond)
  }
}
