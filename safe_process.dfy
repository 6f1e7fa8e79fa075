/** The fault-to-sentinel wrappers around process accessors. Each wrapper
    calls the accessor under a deferred recover(): an error result is replaced
    by a sentinel, and a panic is recovered, so the wrapper returns the zero
    value of its unnamed result. No error and no panic reaches the caller. */
module SafeProcess {
  import opened GoLib
  import opened Platform

  /** The accessor returned a value and a nil error. */
  predicate Succeeded<T>(f: Call<T>) {
    f.Returned? && f.err == Nil
  }

  /** The shape every wrapper shares: the value on success, `onError` when
      the accessor reports an error, `zero` when it panics. */
  function Guard<T>(f: Call<T>, onError: T, zero: T): (r: T)
    ensures Succeeded(f) ==> r == f.value
    ensures f.Returned? && f.err != Nil ==> r == onError
    ensures f.Panicked? ==> r == zero
  {
    match f
    case Panicked => zero
    case Returned(v, err) => if err != Nil then onError else v
  }

  /** safeProcessString: "Unknown" on error, but "" on a panic, because the
      recovered function returns the zero value of its unnamed string result. */
  function SafeProcessString(f: Call<string>): (s: string)
    ensures Succeeded(f) ==> s == f.value
    ensures f.Returned? && f.err != Nil ==> s == "Unknown"
    ensures f.Panicked? ==> s == ""
  {
    Guard(f, "Unknown", "")
  }

  /** safeProcessFloat64: 0 on error and on panic. */
  function SafeProcessFloat64(f: Call<real>): (x: real)
    ensures Succeeded(f) ==> x == f.value
    ensures !Succeeded(f) ==> x == 0.0
  {
    Guard(f, 0.0, 0.0)
  }

  /** safeProcessFloat32: 0 on error and on panic. */
  function SafeProcessFloat32(f: Call<real>): (x: real)
    ensures Succeeded(f) ==> x == f.value
    ensures !Succeeded(f) ==> x == 0.0
  {
    Guard(f, 0.0, 0.0)
  }

  /** safeProcessInt32: 0 on error and on panic. */
  function SafeProcessInt32(f: Call<int32>): (x: int32)
    ensures Succeeded(f) ==> x == f.value
    ensures !Succeeded(f) ==> x == 0
  {
    Guard(f, 0, 0)
  }

  /** safeProcessInt64: 0 on error and on panic. */
  function SafeProcessInt64(f: Call<int64>): (x: int64)
    ensures Succeeded(f) ==> x == f.value
    ensures !Succeeded(f) ==> x == 0
  {
    Guard(f, 0, 0)
  }

  /** safeMemoryInfo: the accessor's pointer on success (which may itself be
      nil), nil on error and on panic. */
  function SafeMemoryInfo(p: ProcessHandle): (m: Option<MemoryInfoStat>)
    ensures Succeeded(p.MemoryInfo) ==> m == p.MemoryInfo.value
    ensures !Succeeded(p.MemoryInfo) ==> m == None
  {
    Guard(p.MemoryInfo, None, None)
  }

  /** A string wrapper result tells a panic from a reported error, unless the
      accessor itself returned one of the two sentinels. */
  lemma StringSentinelsTellFaultsApart(f: Call<string>)
    requires !(Succeeded(f) && f.value in {"", "Unknown"})
    ensures SafeProcessString(f) == "" <==> f.Panicked?
    ensures SafeProcessString(f) == "Unknown" <==> f.Returned? && f.err != Nil
  {
  }
}
