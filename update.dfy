/** The message handler of the terminal UI: a resize, a key or a tick maps
    the model to a new model and a command. On a tick every reading is
    fetched again; the outcomes of the library queries arrive as inputs. */
module Update {
  import opened GoLib
  import opened Platform
  import opened Text
  import opened Ranking
  import opened Stats
  import opened LegacyProcess
  import opened AppModel

  /** The messages the handler tells apart. A key is named as its String()
      shows it ("q", "ctrl+c", "up", ...); a tick carries its time. */
  datatype Msg =
    | WindowSizeMsg(Width: int, Height: int)
    | KeyMsg(key: string)
    | TickMsg(at: int)
    | OtherMsg

  /** The command returned with the new model: none, quit, or the next tick
      after the given interval. */
  datatype Cmd = NoCmd | Quit | Every(interval: int64)

  /** What the queries of one tick returned, and the wall clock (ns) the
      process ages are measured against. */
  datatype TickInputs = TickInputs(
    host: Ret<InfoStat>,
    cpuTimes: Ret<seq<TimesStat>>,
    vm: Ret<VirtualMemoryStat>,
    swap: Ret<SwapMemoryStat>,
    load: Ret<AvgStat>,
    procs: Ret<seq<ProcessHandle>>,
    now: int)

  /** GetHostInfo, with `info` standing for host.Info(): the zero InfoStat
      with the error on failure, the library's value otherwise. */
  function GetHostInfo(info: Ret<InfoStat>): (r: Ret<InfoStat>)
    ensures r.err == info.err
    ensures info.err != Nil ==> r.value == ZeroInfo
    ensures info.err == Nil ==> r.value == info.value
  {
    HostInfo(info)
  }

  /** GetCPUStats runs the same steps as LiveStatsFetcher.CpuUsage. */
  method GetCPUStats(times: Ret<seq<TimesStat>>) returns (stat: TimesStat, err: GoError)
    ensures err == times.err
    ensures times.err != Nil || |times.value| == 0 ==> stat == ZeroTimes
    ensures times.err == Nil && |times.value| > 0 && Total(times.value[0]) == 0.0 ==> stat == ZeroTimes
    ensures times.err == Nil && |times.value| > 0 && Total(times.value[0]) != 0.0 ==>
              stat == Normalized(times.value[0]) && Total(stat) == 100.0
    ensures stat == CpuReading(times)
  {
    stat, err := CpuUsage(times);
  }

  /** GetMemStats copies Total, Used, Free, UsedPercent and Available and
      leaves the rest zero; on failure, the zero stat and the error. */
  function GetMemStats(vm: Ret<VirtualMemoryStat>): (r: Ret<VirtualMemoryStat>)
    ensures r.err == vm.err
    ensures vm.err != Nil ==> r.value == ZeroVirtualMemory
    ensures vm.err == Nil ==> r.value == CoreMemory(vm.value)
  {
    MemUsage(vm)
  }

  /** The four swap fields GetSwapMemStats keeps: Total, Used, Free and
      UsedPercent; every other field is zero. */
  function CoreSwap(s: SwapMemoryStat): (c: SwapMemoryStat)
    ensures c.Total == s.Total && c.Used == s.Used && c.Free == s.Free && c.UsedPercent == s.UsedPercent
    ensures c.Sin == 0 && c.Sout == 0 && c.PgIn == 0 && c.PgOut == 0 && c.PgFault == 0 && c.PgMajFault == 0
  {
    ZeroSwapMemory.(Total := s.Total, Used := s.Used, Free := s.Free, UsedPercent := s.UsedPercent)
  }

  /** GetSwapMemStats, with `swap` standing for mem.SwapMemory(). */
  function GetSwapMemStats(swap: Ret<SwapMemoryStat>): (r: Ret<SwapMemoryStat>)
    ensures r.err == swap.err
    ensures swap.err != Nil ==> r.value == ZeroSwapMemory
    ensures swap.err == Nil ==>
              && r.value.Total == swap.value.Total && r.value.Used == swap.value.Used
              && r.value.Free == swap.value.Free && r.value.UsedPercent == swap.value.UsedPercent
              && r.value.Sin == 0 && r.value.Sout == 0 && r.value.PgIn == 0 && r.value.PgOut == 0
              && r.value.PgFault == 0 && r.value.PgMajFault == 0
  {
    if swap.err != Nil then Ret(ZeroSwapMemory, swap.err) else Ret(CoreSwap(swap.value), Nil)
  }

  /** A swap reading is kept whole by GetSwapMemStats exactly when the fields
      it drops are already zero; taking the four fields twice changes nothing. */
  lemma CoreSwapIsProjection(s: SwapMemoryStat)
    ensures CoreSwap(CoreSwap(s)) == CoreSwap(s)
    ensures CoreSwap(s) == s <==>
              s.Sin == 0 && s.Sout == 0 && s.PgIn == 0 && s.PgOut == 0 && s.PgFault == 0 && s.PgMajFault == 0
  {
  }

  /** GetLoadAvg, with `avg` standing for load.Avg(): the three averages, or
      0, 0, 0 with the error. */
  function GetLoadAvg(avg: Ret<AvgStat>): (r: (real, real, real, GoError))
    ensures r.3 == avg.err
    ensures avg.err != Nil ==> r.0 == 0.0 && r.1 == 0.0 && r.2 == 0.0
    ensures avg.err == Nil ==> r.0 == avg.value.Load1 && r.1 == avg.value.Load5 && r.2 == avg.value.Load15
  {
    if avg.err != Nil then (0.0, 0.0, 0.0, avg.err)
    else (avg.value.Load1, avg.value.Load5, avg.value.Load15, Nil)
  }

  /** The table row of one process: PID, parent PID, name, CPU%, MEM%,
      memory in MB, user and running time. `fixed2` stands for the %.2f
      formatting of a float. */
  function ProcessRow(p: ProcessInfo, fixed2: real -> string): (row: seq<string>)
    ensures |row| == 8
    ensures row[0] == IntText(p.PID) && row[1] == IntText(p.ParentPID)
    ensures row[2] == p.Name && row[6] == p.Username && row[7] == p.RunningTime
    ensures row[3] == fixed2(p.CPUPercent) + "%" && row[4] == fixed2(p.MemoryPercent) + "%"
    ensures row[5] == fixed2(p.MemoryUsage) + "MB"
  {
    [IntText(p.PID), IntText(p.ParentPID), p.Name,
     fixed2(p.CPUPercent) + "%", fixed2(p.MemoryPercent) + "%", fixed2(p.MemoryUsage) + "MB",
     p.Username, p.RunningTime]
  }

  /** The PID and parent PID cells read back as the numbers they show. */
  lemma RowPidsReadBack(p: ProcessInfo, fixed2: real -> string)
    requires p.PID >= 0 && p.ParentPID >= 0
    ensures ParseDecimal(ProcessRow(p, fixed2)[0]) == p.PID
    ensures ParseDecimal(ProcessRow(p, fixed2)[1]) == p.ParentPID
  {
    DecimalRoundTrip(p.PID);
    DecimalRoundTrip(p.ParentPID);
  }

  /** The rows the tick handler appends: one per process, in the same order. */
  function ProcessRows(ps: seq<ProcessInfo>, fixed2: real -> string): (rows: seq<seq<string>>)
    ensures |rows| == |ps|
    ensures forall i :: 0 <= i < |ps| ==> rows[i] == ProcessRow(ps[i], fixed2)
  {
    if ps == [] then [] else ProcessRows(ps[..|ps| - 1], fixed2) + [ProcessRow(ps[|ps| - 1], fixed2)]
  }

  /** The append loop of the tick handler: one row per process, in order. */
  method TableRows(processes: seq<ProcessInfo>, fixed2: real -> string) returns (rows: seq<seq<string>>)
    ensures rows == ProcessRows(processes, fixed2)
  {
    rows := [];
    var i := 0;
    while i < |processes|
      invariant 0 <= i <= |processes|
      invariant rows == ProcessRows(processes[..i], fixed2)
    {
      assert processes[..i + 1][..i] == processes[..i];
      rows := rows + [ProcessRow(processes[i], fixed2)];
      i := i + 1;
    }
    assert processes[..i] == processes;
  }

  /** The TickMsg case of Model.Update: the time of the tick is recorded,
      each reading is overwritten with its fetch result (the zero value when
      the fetch failed, so nothing from an earlier tick survives), the rows
      are replaced only when the process listing succeeded, and the tick is
      re-armed. `shown` is the ranking the rows were built from. */
  method Tick(m: Model, at: int, inputs: TickInputs, fixed2: real -> string, durationText: int -> DurationText)
    returns (next: Model, cmd: Cmd, ghost shown: seq<ProcessInfo>)
    requires inputs.procs.err == Nil ==>
               forall i :: 0 <= i < |inputs.procs.value| ==> NoPanic(inputs.procs.value[i])
    ensures next.lastUpdate == at
    ensures next.HostInfo == GetHostInfo(inputs.host).value
    ensures next.CpuUsage == CpuReading(inputs.cpuTimes)
    ensures next.MemUsage == GetMemStats(inputs.vm).value
    ensures next.SwapUsage == GetSwapMemStats(inputs.swap).value
    ensures next.Load1 == GetLoadAvg(inputs.load).0
    ensures next.Load5 == GetLoadAvg(inputs.load).1
    ensures next.Load15 == GetLoadAvg(inputs.load).2
    ensures next.width == m.width && next.height == m.height
    ensures next.config == m.config && next.hasLoaded == m.hasLoaded
    ensures cmd == Every(m.config.RefreshInterval)
    ensures inputs.procs.err != Nil ==> next.processTable == m.processTable
    ensures inputs.procs.err == Nil ==>
              && RankedPrefix(SortByCPU, false, TopCount, LegacyRecords(inputs.procs.value, inputs.now, durationText), shown)
              && next.processTable == m.processTable.(rows := ProcessRows(shown, fixed2))
  {
    shown := [];
    var hostInfo := GetHostInfo(inputs.host);
    var cpuUsage, _ := GetCPUStats(inputs.cpuTimes);
    var memUsage := GetMemStats(inputs.vm);
    var swapUsage := GetSwapMemStats(inputs.swap);
    var loadAvg := GetLoadAvg(inputs.load);
    next := m.(lastUpdate := at, HostInfo := hostInfo.value, CpuUsage := cpuUsage,
               MemUsage := memUsage.value, SwapUsage := swapUsage.value,
               Load1 := loadAvg.0, Load5 := loadAvg.1, Load15 := loadAvg.2);

    var processes, err := GetProcess(inputs.procs, inputs.now, durationText);
    if err == Nil {
      var rows := TableRows(processes, fixed2);
      next := next.(processTable := next.processTable.(rows := rows));
      shown := processes;
    }
    cmd := Every(next.config.RefreshInterval);
  }

  /** Model.Update. A resize changes only the screen size; "q" and "ctrl+c"
      quit; "up"/"k" and "down"/"j" move the cursor one row; a tick is
      handled by Tick. Every other key and every other message leaves the
      model as it was and returns no command. */
  method Update(m: Model, msg: Msg, inputs: TickInputs, fixed2: real -> string, durationText: int -> DurationText)
    returns (next: Model, cmd: Cmd, ghost shown: seq<ProcessInfo>)
    requires msg.TickMsg? && inputs.procs.err == Nil ==>
               forall i :: 0 <= i < |inputs.procs.value| ==> NoPanic(inputs.procs.value[i])
    ensures msg.WindowSizeMsg? ==> next == m.(width := msg.Width, height := msg.Height) && cmd == NoCmd
    ensures msg.KeyMsg? && (msg.key == "q" || msg.key == "ctrl+c") ==> next == m && cmd == Quit
    ensures msg.KeyMsg? && (msg.key == "up" || msg.key == "k") ==>
              next == m.(processTable := MoveUp(m.processTable, 1)) && cmd == NoCmd
    ensures msg.KeyMsg? && (msg.key == "down" || msg.key == "j") ==>
              next == m.(processTable := MoveDown(m.processTable, 1)) && cmd == NoCmd
    ensures msg.KeyMsg? && msg.key !in {"q", "ctrl+c", "up", "k", "down", "j"} ==> next == m && cmd == NoCmd
    ensures msg.OtherMsg? ==> next == m && cmd == NoCmd
    ensures msg.TickMsg? ==>
              && next.lastUpdate == msg.at
              && next.HostInfo == GetHostInfo(inputs.host).value
              && next.CpuUsage == CpuReading(inputs.cpuTimes)
              && next.MemUsage == GetMemStats(inputs.vm).value
              && next.SwapUsage == GetSwapMemStats(inputs.swap).value
              && next.Load1 == GetLoadAvg(inputs.load).0
              && next.Load5 == GetLoadAvg(inputs.load).1
              && next.Load15 == GetLoadAvg(inputs.load).2
              && next.width == m.width && next.height == m.height
              && next.config == m.config && next.hasLoaded == m.hasLoaded
              && cmd == Every(m.config.RefreshInterval)
    ensures msg.TickMsg? && inputs.procs.err != Nil ==> next.processTable == m.processTable
    ensures msg.TickMsg? && inputs.procs.err == Nil ==>
              && RankedPrefix(SortByCPU, false, TopCount, LegacyRecords(inputs.procs.value, inputs.now, durationText), shown)
              && next.processTable == m.processTable.(rows := ProcessRows(shown, fixed2))
  {
    next, cmd, shown := m, NoCmd, [];
    match msg
    case WindowSizeMsg(w, h) =>
      next := next.(width := w, height := h);
    case KeyMsg(key) =>
      if key == "q" || key == "ctrl+c" {
        cmd := Quit;
      } else if key == "up" || key == "k" {
        next := next.(processTable := MoveUp(next.processTable, 1));
      } else if key == "down" || key == "j" {
        next := next.(processTable := MoveDown(next.processTable, 1));
      }
    case TickMsg(at) =>
      next, cmd, shown := Tick(m, at, inputs, fixed2, durationText);
    case OtherMsg =>
  }
}
