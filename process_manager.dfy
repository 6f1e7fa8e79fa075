/** DefaultProcessManager.GetProcesses: enumerate the processes, build one
    record per process through the fault-to-sentinel wrappers, sort the
    records by the chosen criterion and direction, and keep the first Limit. */
module ProcessManager {
  import opened GoLib
  import opened Platform
  import opened SafeProcess
  import opened Ranking

  datatype ProcessOptions = ProcessOptions(SortBy: SortCriteria, Limit: int, Ascending: bool)

  /** The options the monitor ranks with unless told otherwise: the top 25 by CPU. */
  function DefaultProcessOptions(): (o: ProcessOptions)
    ensures o.SortBy == SortByCPU && o.Limit == 25 && !o.Ascending
  {
    ProcessOptions(SortByCPU, 25, false)
  }


  /** The record built for one process. Every field comes through its
      wrapper, so a failing accessor costs that field only, never the record.
      `now` is the wall clock and `durationText` stands for Duration.String(). */
  function BuildRecord(p: ProcessHandle, now: int, durationText: int -> DurationText): (r: ProcessInfo)
    ensures r.PID == p.Pid
    ensures r.ParentPID == SafeProcessInt32(p.Ppid)
    ensures r.Name == SafeProcessString(p.Name) && r.Username == SafeProcessString(p.Username)
    ensures r.CPUPercent == SafeProcessFloat64(p.CPUPercent)
    ensures r.MemoryPercent == SafeProcessFloat32(p.MemoryPercent)
    ensures Succeeded(p.MemoryInfo) && p.MemoryInfo.value.Some? ==>
              r.MemoryUsage == p.MemoryInfo.value.value.RSS as real / BytesPerMB
    ensures !(Succeeded(p.MemoryInfo) && p.MemoryInfo.value.Some?) ==> r.MemoryUsage == 0.0
    ensures r.RunningTime == "Unknown" <==> !(Succeeded(p.CreateTime) && p.CreateTime.value > 0)
    ensures Succeeded(p.CreateTime) && p.CreateTime.value > 0 ==>
              r.RunningTime == durationText(ElapsedSince(now, p.CreateTime.value))
  {
    var parentPid := SafeProcessInt32(p.Ppid);
    var name := SafeProcessString(p.Name);
    var username := SafeProcessString(p.Username);
    var cpuPercent := SafeProcessFloat64(p.CPUPercent);
    var memoryPercent := SafeProcessFloat32(p.MemoryPercent);
    var createTime := SafeProcessInt64(p.CreateTime);
    var memoryInfo := SafeMemoryInfo(p);
    var memoryUsage := if memoryInfo.Some? then memoryInfo.value.RSS as real / BytesPerMB else 0.0;
    var runningTime := if createTime > 0 then durationText(ElapsedSince(now, createTime)) else "Unknown";
    ProcessInfo(p.Pid, parentPid, name, username, cpuPercent, memoryPercent, memoryUsage, runningTime)
  }

  /** The records the enumeration loop appends, before sorting: exactly one
      per process, in enumeration order. */
  function BuildRecords(procs: seq<ProcessHandle>, now: int, durationText: int -> DurationText): (r: seq<ProcessInfo>)
    ensures |r| == |procs|
    ensures forall i :: 0 <= i < |procs| ==> r[i] == BuildRecord(procs[i], now, durationText)
  {
    if procs == [] then []
    else BuildRecords(procs[..|procs| - 1], now, durationText) + [BuildRecord(procs[|procs| - 1], now, durationText)]
  }

  /** The enumeration loop: one record appended per process, in order. */
  method AppendRecords(procs: seq<ProcessHandle>, now: int, durationText: int -> DurationText) returns (processInfos: seq<ProcessInfo>)
    ensures processInfos == BuildRecords(procs, now, durationText)
  {
    processInfos := [];
    var i := 0;
    while i < |procs|
      invariant 0 <= i <= |procs|
      invariant processInfos == BuildRecords(procs[..i], now, durationText)
    {
      assert procs[..i + 1][..i] == procs[..i];
      processInfos := processInfos + [BuildRecord(procs[i], now, durationText)];
      i := i + 1;
    }
    assert procs[..i] == procs;
  }

  /** GetProcesses(opts), with the enumeration result `listing` standing for
      process.Processes(). A negative Limit would make the Go slice
      expression panic, so it is excluded. */
  method GetProcesses(opts: ProcessOptions, listing: Ret<seq<ProcessHandle>>, now: int, durationText: int -> DurationText)
    returns (infos: seq<ProcessInfo>, err: GoError)
    requires opts.Limit >= 0
    ensures err == listing.err
    ensures err != Nil ==> infos == []
    ensures err == Nil ==>
              RankedPrefix(opts.SortBy, opts.Ascending, opts.Limit, BuildRecords(listing.value, now, durationText), infos)
    ensures err == Nil && !IsCriterion(opts.SortBy) ==>
              infos == BuildRecords(listing.value, now, durationText)[..Min(opts.Limit, |listing.value|)]
  {
    if listing.err != Nil {
      return [], listing.err;
    }
    var processInfos := AppendRecords(listing.value, now, durationText);
    ghost var built := processInfos;

    if IsCriterion(opts.SortBy) {
      processInfos := SortSlice(processInfos, opts.SortBy, opts.Ascending);
    } else {
      assert Sorted(opts.SortBy, opts.Ascending, processInfos);
    }
    PrefixOfSortedIsRanked(opts.SortBy, opts.Ascending, opts.Limit, built, processInfos);

    if |processInfos| > opts.Limit {
      processInfos := processInfos[..opts.Limit];
    }
    return processInfos, Nil;
  }

  /** What sortedness means for each criterion: with Ascending the key never
      decreases along the list, otherwise it never increases. */
  lemma SortedKeys(sortBy: SortCriteria, ascending: bool, s: seq<ProcessInfo>, i: int, j: int)
    requires Sorted(sortBy, ascending, s) && 0 <= i < j < |s|
    ensures sortBy == SortByCPU ==>
              if ascending then s[i].CPUPercent <= s[j].CPUPercent else s[i].CPUPercent >= s[j].CPUPercent
    ensures sortBy == SortByMemory ==>
              if ascending then s[i].MemoryUsage <= s[j].MemoryUsage else s[i].MemoryUsage >= s[j].MemoryUsage
    ensures sortBy == SortByPID ==>
              if ascending then s[i].PID <= s[j].PID else s[i].PID >= s[j].PID
    ensures sortBy == SortByName ==>
              if ascending then !Text.LexLess(s[j].Name, s[i].Name) else !Text.LexLess(s[i].Name, s[j].Name)
  {
  }

  /** The worked example of the ranking: CPU 10, 30, 20, descending, limit 2
      keeps the 30 and then the 20, whatever order the sort leaves ties in. */
  lemma {:induction false} TopTwoByCpu(p1: ProcessInfo, p2: ProcessInfo, p3: ProcessInfo, out: seq<ProcessInfo>)
    requires p1.CPUPercent == 10.0 && p2.CPUPercent == 30.0 && p3.CPUPercent == 20.0
    requires RankedPrefix(SortByCPU, false, 2, [p1, p2, p3], out)
    ensures out == [p2, p3]
  {
    var built := [p1, p2, p3];
    assert multiset(built) == multiset{p1, p2, p3};
    assert |out| == 2;
    assert multiset(out) == multiset{out[0], out[1]} by { assert out == [out[0], out[1]]; }
    assert out[0] in multiset(built) && out[1] in multiset(built);
    assert out[0] != out[1];
    // The 10% record cannot be kept while a busier one is dropped.
    assert p1 !in multiset(out) by {
      if p1 in multiset(out) {
        var busier := if p2 in multiset(out) then p3 else p2;
        assert busier in multiset(built) - multiset(out);
        assert p1 in out && Less(SortByCPU, false, busier, p1);
      }
    }
  }
}
