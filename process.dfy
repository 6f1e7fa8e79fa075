/** The older GetProcess, which the tick handler calls: it reads each
    accessor directly (no recover()), substitutes its own sentinels on error,
    sorts by CPU descending and keeps the top 20. */
module LegacyProcess {
  import opened GoLib
  import opened Platform
  import opened Ranking

  /** How many processes GetProcess keeps. */
  const TopCount: nat := 20


  /** No accessor of `p` panicked. GetProcess has no recover(), so a panic
      would unwind through the tick handler and end the program. */
  predicate NoPanic(p: ProcessHandle) {
    && p.Ppid.Returned? && p.Name.Returned? && p.Username.Returned?
    && p.CPUPercent.Returned? && p.MemoryPercent.Returned?
    && p.MemoryInfo.Returned? && p.CreateTime.Returned?
  }

  /** `v, err := f(); if err != nil { v = d }`. */
  function OrDefault<T>(f: Call<T>, d: T): (v: T)
    requires f.Returned?
    ensures f.err == Nil ==> v == f.value
    ensures f.err != Nil ==> v == d
  {
    if f.err != Nil then d else f.value
  }

  /** The record GetProcess builds for one process. Unlike BuildRecord, the
      memory pointer is used whenever it is non-nil, whatever the error, and
      the running time is "Unknown" only for a creation time of exactly 0. */
  function LegacyRecord(p: ProcessHandle, now: int, durationText: int -> DurationText): (r: ProcessInfo)
    requires NoPanic(p)
    ensures r.PID == p.Pid
    ensures p.Ppid.err == Nil ==> r.ParentPID == p.Ppid.value
    ensures p.Ppid.err != Nil ==> r.ParentPID == 0
    ensures p.Name.err == Nil ==> r.Name == p.Name.value
    ensures p.Name.err != Nil ==> r.Name == "Unknown Process"
    ensures p.Username.err == Nil ==> r.Username == p.Username.value
    ensures p.Username.err != Nil ==> r.Username == "Unknown User"
    ensures p.CPUPercent.err == Nil ==> r.CPUPercent == p.CPUPercent.value
    ensures p.CPUPercent.err != Nil ==> r.CPUPercent == 0.0
    ensures p.MemoryPercent.err == Nil ==> r.MemoryPercent == p.MemoryPercent.value
    ensures p.MemoryPercent.err != Nil ==> r.MemoryPercent == 0.0
    ensures p.MemoryInfo.value.Some? ==> r.MemoryUsage == p.MemoryInfo.value.value.RSS as real / BytesPerMB
    ensures p.MemoryInfo.value.None? ==> r.MemoryUsage == 0.0
    ensures r.RunningTime == "Unknown" <==> OrDefault(p.CreateTime, 0) == 0
    ensures OrDefault(p.CreateTime, 0) != 0 ==>
              r.RunningTime == durationText(ElapsedSince(now, OrDefault(p.CreateTime, 0)))
  {
    var parentPid := OrDefault(p.Ppid, 0);
    var name := OrDefault(p.Name, "Unknown Process");
    var username := OrDefault(p.Username, "Unknown User");
    var cpuPercent := OrDefault(p.CPUPercent, 0.0);
    var memoryPercent := OrDefault(p.MemoryPercent, 0.0);
    var memoryInfo := p.MemoryInfo.value;
    var memoryUsage := if memoryInfo.Some? then memoryInfo.value.RSS as real / BytesPerMB else 0.0;
    var createTime := OrDefault(p.CreateTime, 0);
    var runningTime := if createTime == 0 then "Unknown" else durationText(ElapsedSince(now, createTime));
    ProcessInfo(p.Pid, parentPid, name, username, cpuPercent, memoryPercent, memoryUsage, runningTime)
  }

  /** One legacy record per process, in enumeration order. */
  function LegacyRecords(procs: seq<ProcessHandle>, now: int, durationText: int -> DurationText): (r: seq<ProcessInfo>)
    requires forall i :: 0 <= i < |procs| ==> NoPanic(procs[i])
    ensures |r| == |procs|
    ensures forall i :: 0 <= i < |procs| ==> r[i] == LegacyRecord(procs[i], now, durationText)
  {
    if procs == [] then []
    else LegacyRecords(procs[..|procs| - 1], now, durationText) + [LegacyRecord(procs[|procs| - 1], now, durationText)]
  }

  /** The enumeration loop of GetProcess: one record appended per process. */
  method AppendLegacyRecords(procs: seq<ProcessHandle>, now: int, durationText: int -> DurationText)
    returns (processInfos: seq<ProcessInfo>)
    requires forall i :: 0 <= i < |procs| ==> NoPanic(procs[i])
    ensures processInfos == LegacyRecords(procs, now, durationText)
  {
    processInfos := [];
    var i := 0;
    while i < |procs|
      invariant 0 <= i <= |procs|
      invariant processInfos == LegacyRecords(procs[..i], now, durationText)
    {
      assert procs[..i + 1][..i] == procs[..i];
      processInfos := processInfos + [LegacyRecord(procs[i], now, durationText)];
      i := i + 1;
    }
    assert procs[..i] == procs;
  }

  /** GetProcess(), with `listing` standing for process.Processes(): an error
      only when the enumeration fails; otherwise the 20 busiest processes by
      CPU, busiest first. */
  method GetProcess(listing: Ret<seq<ProcessHandle>>, now: int, durationText: int -> DurationText)
    returns (infos: seq<ProcessInfo>, err: GoError)
    requires listing.err == Nil ==> forall i :: 0 <= i < |listing.value| ==> NoPanic(listing.value[i])
    ensures err == listing.err
    ensures err != Nil ==> infos == []
    ensures err == Nil ==>
              RankedPrefix(SortByCPU, false, TopCount, LegacyRecords(listing.value, now, durationText), infos)
  {
    if listing.err != Nil {
      return [], listing.err;
    }
    var processInfos := AppendLegacyRecords(listing.value, now, durationText);
    ghost var built := processInfos;
    processInfos := SortSlice(processInfos, SortByCPU, false);
    PrefixOfSortedIsRanked(SortByCPU, false, TopCount, built, processInfos);

    if |processInfos| > TopCount {
      processInfos := processInfos[..TopCount];
    }
    return processInfos, Nil;
  }

  /** What GetProcess's ranking means in CPU terms: the kept records are
      busiest first, and each is at least as busy as every record dropped. */
  lemma TopByCpu(built: seq<ProcessInfo>, out: seq<ProcessInfo>)
    requires RankedPrefix(SortByCPU, false, TopCount, built, out)
    ensures |out| == Min(20, |built|)
    ensures forall i, j :: 0 <= i < j < |out| ==> out[i].CPUPercent >= out[j].CPUPercent
    ensures forall x, y :: x in out && y in multiset(built) - multiset(out) ==> x.CPUPercent >= y.CPUPercent
  {
  }

  /** Every kept record is the record of an enumerated process, with its PID
      unchanged; no record appears more often than it was built. */
  lemma {:induction false} KeptComeFromEnumerated(procs: seq<ProcessHandle>, now: int, durationText: int -> DurationText, out: seq<ProcessInfo>)
    requires forall i :: 0 <= i < |procs| ==> NoPanic(procs[i])
    requires multiset(out) <= multiset(LegacyRecords(procs, now, durationText))
    ensures forall k :: 0 <= k < |out| ==>
              exists i :: 0 <= i < |procs| && out[k] == LegacyRecord(procs[i], now, durationText) && out[k].PID == procs[i].Pid
  {
    var built := LegacyRecords(procs, now, durationText);
    forall k | 0 <= k < |out|
      ensures exists i :: 0 <= i < |procs| && out[k] == LegacyRecord(procs[i], now, durationText) && out[k].PID == procs[i].Pid
    {
      assert out[k] in multiset(out);
      assert out[k] in multiset(built);
      var i :| 0 <= i < |built| && built[i] == out[k];
      assert out[k] == LegacyRecord(procs[i], now, durationText);
    }
  }
}
