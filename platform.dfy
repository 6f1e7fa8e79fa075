/** What the operating-system metrics library hands the monitor: one process
    handle per enumerated process, with the outcome of each of its accessors,
    and the records returned by the host, CPU, memory, swap and load queries.
    Only the fields the monitor reads or copies are kept. */
module Platform {
  import opened GoLib

  /** process.MemoryInfoStat: resident and virtual memory in bytes. */
  datatype MemoryInfoStat = MemoryInfoStat(RSS: uint64, VMS: uint64)

  /** A *process.Process: its PID is a plain field; every other accessor is a
      call that may return an error or panic, given here by its outcome. */
  datatype ProcessHandle = ProcessHandle(
    Pid: int32,
    Ppid: Call<int32>,
    Name: Call<string>,
    Username: Call<string>,
    CPUPercent: Call<real>,
    MemoryPercent: Call<real>,
    CreateTime: Call<int64>,
    MemoryInfo: Call<Option<MemoryInfoStat>>)

  /** cpu.TimesStat: cumulative CPU time per category, plus the CPU label and
      GuestNice, which the normalisation leaves alone. */
  datatype TimesStat = TimesStat(
    CPU: string,
    User: real, System: real, Idle: real, Nice: real, Iowait: real,
    Irq: real, Softirq: real, Steal: real, Guest: real, GuestNice: real)

  const ZeroTimes := TimesStat("", 0.0, 0.0, 0.0, 0.0, 0.0, 0.0, 0.0, 0.0, 0.0, 0.0)

  /** mem.VirtualMemoryStat (ten of its fields). */
  datatype VirtualMemoryStat = VirtualMemoryStat(
    Total: uint64, Available: uint64, Used: uint64, UsedPercent: real, Free: uint64,
    Active: uint64, Inactive: uint64, Buffers: uint64, Cached: uint64, Shared: uint64)

  const ZeroVirtualMemory := VirtualMemoryStat(0, 0, 0, 0.0, 0, 0, 0, 0, 0, 0)

  /** mem.SwapMemoryStat. */
  datatype SwapMemoryStat = SwapMemoryStat(
    Total: uint64, Used: uint64, Free: uint64, UsedPercent: real,
    Sin: uint64, Sout: uint64, PgIn: uint64, PgOut: uint64, PgFault: uint64, PgMajFault: uint64)

  const ZeroSwapMemory := SwapMemoryStat(0, 0, 0, 0.0, 0, 0, 0, 0, 0, 0)

  /** host.InfoStat. */
  datatype InfoStat = InfoStat(
    Hostname: string, Uptime: uint64, BootTime: uint64, Procs: uint64,
    OS: string, Platform: string, PlatformFamily: string, PlatformVersion: string,
    KernelVersion: string, KernelArch: string,
    VirtualizationSystem: string, VirtualizationRole: string, HostID: string)

  const ZeroInfo := InfoStat("", 0, 0, 0, "", "", "", "", "", "", "", "", "")

  /** load.AvgStat. */
  datatype AvgStat = AvgStat(Load1: real, Load5: real, Load15: real)

  const ZeroAvg := AvgStat(0.0, 0.0, 0.0)
}
