/** LiveStatsFetcher: the host, CPU, memory, swap and load readings, each
    taken from one library query whose result is given as a (value, error)
    pair. */
module Stats {
  import opened GoLib
  import opened Platform

  /** The sum of the nine counters the normalisation divides by (GuestNice
      is not among them). */
  function Total(t: TimesStat): (r: real)
    ensures NonNegative(t) ==> r >= 0.0
    ensures NonNegative(t) ==>
              (r == 0.0 <==> (t.User == 0.0 && t.System == 0.0 && t.Idle == 0.0 && t.Nice == 0.0
                              && t.Iowait == 0.0 && t.Irq == 0.0 && t.Softirq == 0.0 && t.Steal == 0.0
                              && t.Guest == 0.0))
  {
    t.User + t.System + t.Idle + t.Nice + t.Iowait + t.Irq + t.Softirq + t.Steal + t.Guest
  }

  /** Each of the nine counters as a percentage of their total. The CPU label
      and GuestNice are kept as read. */
  function Normalized(raw: TimesStat): (r: TimesStat)
    requires Total(raw) != 0.0
    ensures Total(r) == 100.0
    ensures r.CPU == raw.CPU && r.GuestNice == raw.GuestNice
  {
    var total := Total(raw);
    var r := raw.(
      User := raw.User / total * 100.0, System := raw.System / total * 100.0,
      Idle := raw.Idle / total * 100.0, Nice := raw.Nice / total * 100.0,
      Iowait := raw.Iowait / total * 100.0, Irq := raw.Irq / total * 100.0,
      Softirq := raw.Softirq / total * 100.0, Steal := raw.Steal / total * 100.0,
      Guest := raw.Guest / total * 100.0);
    SharesSumTo100(raw, r);
    r
  }

  lemma SharesSumTo100(raw: TimesStat, r: TimesStat)
    requires Total(raw) != 0.0
    requires r.User == raw.User / Total(raw) * 100.0 && r.System == raw.System / Total(raw) * 100.0
    requires r.Idle == raw.Idle / Total(raw) * 100.0 && r.Nice == raw.Nice / Total(raw) * 100.0
    requires r.Iowait == raw.Iowait / Total(raw) * 100.0 && r.Irq == raw.Irq / Total(raw) * 100.0
    requires r.Softirq == raw.Softirq / Total(raw) * 100.0 && r.Steal == raw.Steal / Total(raw) * 100.0
    requires r.Guest == raw.Guest / Total(raw) * 100.0
    ensures Total(r) == 100.0
  {
    var total := Total(raw);
    var k := 100.0 / total;
    Share(raw.User, total); Share(raw.System, total); Share(raw.Idle, total);
    Share(raw.Nice, total); Share(raw.Iowait, total); Share(raw.Irq, total);
    Share(raw.Softirq, total); Share(raw.Steal, total); Share(raw.Guest, total);
    assert Total(r) == total * k;
  }

  /** One counter's share is the counter scaled by 100 / total. */
  lemma Share(x: real, total: real)
    requires total != 0.0
    ensures x / total * 100.0 == x * (100.0 / total)
  {
  }

  /** The CPU reading a query result yields: the zero stat when the query
      failed or returned no entry, the zero stat when the nine counters sum to
      0 ("no data yet"), and otherwise the first entry normalised. */
  function CpuReading(times: Ret<seq<TimesStat>>): (r: TimesStat)
    ensures times.err != Nil || |times.value| == 0 ==> r == ZeroTimes
    ensures times.err == Nil && |times.value| > 0 && Total(times.value[0]) == 0.0 ==> r == ZeroTimes
    ensures times.err == Nil && |times.value| > 0 && Total(times.value[0]) != 0.0 ==>
              Total(r) == 100.0 && r.CPU == times.value[0].CPU && r.GuestNice == times.value[0].GuestNice
  {
    if times.err != Nil || |times.value| == 0 then ZeroTimes
    else if Total(times.value[0]) == 0.0 then ZeroTimes
    else Normalized(times.value[0])
  }

  /** LiveStatsFetcher.CpuUsage, with `times` standing for cpu.Times(false).
      The error returned is always the query's own: on failure it is passed
      through, and an empty list or an all-zero reading gives a nil error. */
  method CpuUsage(times: Ret<seq<TimesStat>>) returns (stat: TimesStat, err: GoError)
    ensures err == times.err
    ensures stat == CpuReading(times)
  {
    if times.err != Nil || |times.value| == 0 {
      return ZeroTimes, times.err;
    }
    var currStats := times.value[0];
    var total := currStats.User + currStats.System + currStats.Idle + currStats.Nice
      + currStats.Iowait + currStats.Irq + currStats.Softirq + currStats.Steal
      + currStats.Guest;
    if total == 0.0 {
      return ZeroTimes, Nil;
    }
    currStats := currStats.(User := currStats.User / total * 100.0);
    currStats := currStats.(System := currStats.System / total * 100.0);
    currStats := currStats.(Idle := currStats.Idle / total * 100.0);
    currStats := currStats.(Nice := currStats.Nice / total * 100.0);
    currStats := currStats.(Iowait := currStats.Iowait / total * 100.0);
    currStats := currStats.(Irq := currStats.Irq / total * 100.0);
    currStats := currStats.(Softirq := currStats.Softirq / total * 100.0);
    currStats := currStats.(Steal := currStats.Steal / total * 100.0);
    currStats := currStats.(Guest := currStats.Guest / total * 100.0);
    return currStats, Nil;
  }

  /** Counters are never negative. */
  predicate NonNegative(t: TimesStat) {
    t.User >= 0.0 && t.System >= 0.0 && t.Idle >= 0.0 && t.Nice >= 0.0 && t.Iowait >= 0.0
    && t.Irq >= 0.0 && t.Softirq >= 0.0 && t.Steal >= 0.0 && t.Guest >= 0.0
  }

  lemma ShareInRange(x: real, total: real)
    requires 0.0 <= x <= total && total > 0.0
    ensures 0.0 <= x / total * 100.0 <= 100.0
  {
    assert x / total <= 1.0 by {
      assert x / total * total == x;
    }
  }

  /** With non-negative counters, each normalised field is a percentage in
      [0, 100]. */
  lemma NormalizedInRange(raw: TimesStat)
    requires NonNegative(raw) && Total(raw) > 0.0
    ensures var r := Normalized(raw);
      && 0.0 <= r.User <= 100.0 && 0.0 <= r.System <= 100.0 && 0.0 <= r.Idle <= 100.0
      && 0.0 <= r.Nice <= 100.0 && 0.0 <= r.Iowait <= 100.0 && 0.0 <= r.Irq <= 100.0
      && 0.0 <= r.Softirq <= 100.0 && 0.0 <= r.Steal <= 100.0 && 0.0 <= r.Guest <= 100.0
  {
    var total := Total(raw);
    ShareInRange(raw.User, total);
    ShareInRange(raw.System, total);
    ShareInRange(raw.Idle, total);
    ShareInRange(raw.Nice, total);
    ShareInRange(raw.Iowait, total);
    ShareInRange(raw.Irq, total);
    ShareInRange(raw.Softirq, total);
    ShareInRange(raw.Steal, total);
    ShareInRange(raw.Guest, total);
  }

  /** Counters {user 10, system 5, idle 85, the rest 0} are already
      percentages and come back unchanged. */
  lemma NormalizedExample(raw: TimesStat)
    requires raw.User == 10.0 && raw.System == 5.0 && raw.Idle == 85.0
    requires raw.Nice == 0.0 && raw.Iowait == 0.0 && raw.Irq == 0.0
    requires raw.Softirq == 0.0 && raw.Steal == 0.0 && raw.Guest == 0.0
    ensures Normalized(raw) == raw
  {
  }

  /** LiveStatsFetcher.HostInfo, with `info` standing for host.Info(): a
      pointer to a zero InfoStat with the error on failure. */
  function HostInfo(info: Ret<InfoStat>): (r: Ret<InfoStat>)
    ensures r.err == info.err
    ensures r.value == if info.err != Nil then ZeroInfo else info.value
  {
    if info.err != Nil then Ret(ZeroInfo, info.err) else Ret(info.value, Nil)
  }

  /** The five fields the memory reading keeps: Total, Used, Free,
      UsedPercent and Available; every other field is zero. */
  function CoreMemory(v: VirtualMemoryStat): (c: VirtualMemoryStat)
    ensures c.Total == v.Total && c.Used == v.Used && c.Free == v.Free
    ensures c.UsedPercent == v.UsedPercent && c.Available == v.Available
    ensures c.Active == 0 && c.Inactive == 0 && c.Buffers == 0 && c.Cached == 0 && c.Shared == 0
  {
    ZeroVirtualMemory.(Total := v.Total, Used := v.Used, Free := v.Free,
                       UsedPercent := v.UsedPercent, Available := v.Available)
  }

  /** Keeping the five fields twice keeps the same thing, and a stat is its
      own core exactly when its other fields are already zero. */
  lemma CoreMemoryIsProjection(v: VirtualMemoryStat)
    ensures CoreMemory(CoreMemory(v)) == CoreMemory(v)
    ensures CoreMemory(v) == v <==>
              v.Active == 0 && v.Inactive == 0 && v.Buffers == 0 && v.Cached == 0 && v.Shared == 0
  {
  }

  /** LiveStatsFetcher.MemUsage, with `vm` standing for mem.VirtualMemory(). */
  function MemUsage(vm: Ret<VirtualMemoryStat>): (r: Ret<VirtualMemoryStat>)
    ensures r.err == vm.err
    ensures vm.err != Nil ==> r.value == ZeroVirtualMemory
    ensures vm.err == Nil ==>
              && r.value.Total == vm.value.Total && r.value.Used == vm.value.Used
              && r.value.Free == vm.value.Free && r.value.UsedPercent == vm.value.UsedPercent
              && r.value.Available == vm.value.Available
              && r.value.Active == 0 && r.value.Inactive == 0 && r.value.Buffers == 0
              && r.value.Cached == 0 && r.value.Shared == 0
  {
    if vm.err != Nil then Ret(ZeroVirtualMemory, vm.err) else Ret(CoreMemory(vm.value), Nil)
  }

  /** LiveStatsFetcher.SwapUsage returns mem.SwapMemory()'s result as it is. */
  function SwapUsage(swap: Ret<SwapMemoryStat>): (r: Ret<SwapMemoryStat>)
    ensures r == swap
  {
    swap
  }

  /** LiveStatsFetcher.LoadAvg returns load.Avg()'s result as it is. */
  function LoadAvg(avg: Ret<AvgStat>): (r: Ret<AvgStat>)
    ensures r == avg
  {
    avg
  }
}
