# mintop: a verified model of the metrics-refresh path

mintop is a terminal system monitor written in Go. On every tick it asks
the operating-system metrics library for the host information, the CPU
counters, the virtual and swap memory figures, the load averages and the
list of processes. It shapes each reading, ranks the processes, and stores
everything in the model that the terminal UI draws.

This project models that path in Dafny, with every library query turned into
an input value:

- **Process ranking** (`ProcessManager`, `LegacyProcess`, `Ranking`). Each
  enumerated process handle becomes one `ProcessInfo` record. Every accessor
  of a handle has an outcome: it returns a value and an error, or it panics
  (`Call<T>`). The records are sorted in place by an insertion sort over an
  array, which stands for `sort.Slice`, and then cut to a prefix. The newer
  `GetProcesses` takes a criterion, a direction and a limit. The older
  `GetProcess` always sorts by CPU, descending, and keeps 20; it is the one the
  tick handler calls.
- **Fault-to-sentinel wrappers** (`SafeProcess`). These are total functions
  from an accessor outcome to a value. A panic in the string wrapper yields
  `""`, not `"Unknown"`.
- **Stat shaping** (`Stats`, and the `Get*` helpers in `Update`). This covers
  the CPU-counter normalisation over `real`, and the field projections of the
  memory, swap, load and host readings.
- **The message handler** (`Update`, `AppModel`). A resize, a key or a tick
  maps the model to a new model and a command. The initial state comes from
  `NewModel`.
- **Formatters** (`Utils`, `Formatters`). These cover the byte-unit choice of
  `convertBytes`, the day/hour/minute split of `timeToHuman`, and the bar
  count of `ProgressBar`.
- **Configuration** (`AppConfig`). `Config` is a class whose `With*` setters
  change the receiver and return a copy of it.

Supporting modules:

- `GoLib` holds the Go integer widths, `(value, error)` pairs, nil pointers,
  and `Duration.Truncate(time.Second)` with Go's truncating remainder.
- `Text` holds `%d` and `%02d`, reading digits back, and Go's byte-order
  comparison of strings.
- `Platform` holds the records the metrics library returns.

## Model

| member | source | states |
|---|---|---|
| `GoLib.TruncateToSecond` | internal/process_manager.go:61 | The duration is rounded toward zero to a whole number of seconds. The result is a multiple of a second, never further from zero than the input, and less than a second away from it, for either sign. |
| `GoLib.ElapsedSince` | internal/process.go:66 | A process age is a whole number of seconds. When the creation time is not in the future, the age is between 0 and the true elapsed time, and less than a second short of it. |
| `Text.Decimal` | internal/utils.go:21 | `%d` of a natural number is a non-empty run of digits. It starts with '0' only for 0, and it has one digit exactly when the number is below 10. |
| `Text.DecimalRoundTrip` | internal/update.go:77 | Parsing the `%d` text of a natural number gives back that number. |
| `Text.IntText` | internal/update.go:78 | `%d` of a signed integer: the digits of a non-negative value, or a '-' followed by the digits of its magnitude. |
| `Text.Pad2` | internal/formatters.go:36 | `%02d` gives only digits, at least two of them, and exactly two below 100. |
| `Text.Pad2RoundTrip` | internal/formatters.go:38 | The zero-padded text parses back to the number. |
| `Ranking.Less` | internal/process_manager.go:80-106 | Only the four known criteria order anything. Under any other criterion no record is less than another. |
| `Ranking.LessFlipsDirection` | internal/process_manager.go:80-106 | For each criterion, the descending comparator is the ascending one with its arguments swapped. |
| `Text.LexLess` | internal/process_manager.go:89-91 | Go's `<` on strings. Nothing is below the empty string, and a proper prefix comes before every longer string it begins. |
| `Text.LexLessTransitive` | internal/process_manager.go:89 | Go's `<` on strings is transitive. |
| `Text.LexLessTotal` | internal/process_manager.go:91 | Any two distinct strings are ordered one way or the other by Go's `<`. |
| `Ranking.NotLessTransitive` | internal/process_manager.go:80-106 | For all four criteria and both directions, "not after" is transitive. This is the property the sort relies on. |
| `Ranking.SortInPlace` | internal/process_manager.go:80-85 | After sorting in place, no record in the array is strictly less than one before it. The array holds the same multiset of records. Ties may end in any order. |
| `Ranking.SortSlice` | internal/process.go:85-87 | `sort.Slice` on a slice gives an ordered permutation of its records. |
| `Ranking.PrefixOfSortedIsRanked` | internal/process_manager.go:109-111 | Cutting an ordered permutation to `min(limit, n)` records yields a ranked prefix. It is ordered and a sub-multiset of the input, and no dropped record is strictly less than a kept one. |
| `SafeProcess.Guard` | internal/safe_process.go:10-86 | Every wrapper is total. It gives the value on success, its error sentinel on an error, and its zero value on a panic. No error or panic reaches the caller. |
| `SafeProcess.SafeProcessString` | internal/safe_process.go:10-21 | The value on success, "Unknown" on an error, and "" on a panic. |
| `SafeProcess.SafeProcessFloat64` | internal/safe_process.go:23-34 | The value on success, and 0 on an error or a panic. |
| `SafeProcess.SafeProcessFloat32` | internal/safe_process.go:36-47 | The value on success, and 0 on an error or a panic. |
| `SafeProcess.SafeProcessInt32` | internal/safe_process.go:49-60 | The value on success, and 0 on an error or a panic. |
| `SafeProcess.SafeProcessInt64` | internal/safe_process.go:62-73 | The value on success, and 0 on an error or a panic. |
| `SafeProcess.SafeMemoryInfo` | internal/safe_process.go:75-86 | The library's pointer on success, and nil on an error or a panic. |
| `SafeProcess.StringSentinelsTellFaultsApart` | internal/safe_process.go:11-20 | Unless the accessor itself returned "" or "Unknown", the string wrapper's result is "" exactly when the accessor panicked. It is "Unknown" exactly when the accessor reported an error. |
| `ProcessManager.DefaultProcessOptions` | internal/process_manager.go:116-122 | The default options rank by CPU, descending, with a limit of 25. |
| `ProcessManager.BuildRecord` | internal/process_manager.go:46-73 | The PID is copied from the handle, and every other field comes through its wrapper. MemoryUsage is RSS/(1024*1024) when a memory stat is available and 0 otherwise. RunningTime is "Unknown" exactly when the wrapped creation time is not positive (the text of a duration always ends in "s", so it is never "Unknown"); otherwise it is the text of the elapsed time. |
| `ProcessManager.BuildRecords` | internal/process_manager.go:43-74 | There is exactly one record per enumerated process, in enumeration order. |
| `ProcessManager.AppendRecords` | internal/process_manager.go:44-74 | The append loop produces the records of `BuildRecords`. |
| `ProcessManager.GetProcesses` | internal/process_manager.go:37-114 | The error is the enumeration's own, and it comes with no records. Accessor faults never cause an error. On success the output is a ranked prefix of the built records: `min(Limit, n)` records, ordered by the criterion, a sub-multiset of the built records, with no dropped record ahead of a kept one. An unrecognised criterion keeps the first `Limit` records in enumeration order. |
| `ProcessManager.SortedKeys` | internal/process_manager.go:78-106 | In a sorted output the key of each criterion (CPU, memory usage, PID, name in byte order) never decreases when ascending. It never increases when descending. |
| `ProcessManager.TopTwoByCpu` | internal/process_manager.go:78-111 | Records with CPU 10, 30 and 20, ranked descending with limit 2, come out as the 30 record and then the 20 record. |
| `LegacyProcess.OrDefault` | internal/process.go:30-33 | An accessor's value when it reports no error, and the default otherwise. |
| `LegacyProcess.LegacyRecord` | internal/process.go:29-80 | Field by field, each accessor's value is kept when that accessor reports no error. An error falls back to ParentPID 0, "Unknown Process", "Unknown User", or a CPU or memory percentage of 0, for that field only. MemoryUsage is RSS/(1024*1024) whenever the memory pointer is non-nil, whatever the error. RunningTime is "Unknown" exactly when the defaulted creation time is 0. |
| `LegacyProcess.LegacyRecords` | internal/process.go:27-81 | There is exactly one legacy record per enumerated process, in order. |
| `LegacyProcess.AppendLegacyRecords` | internal/process.go:28-81 | The append loop produces the records of `LegacyRecords`. |
| `LegacyProcess.GetProcess` | internal/process.go:21-93 | The error is the enumeration's own, and it comes with no records. On success the output is the ranked prefix of length `min(20, n)`, by CPU, descending. |
| `LegacyProcess.TopByCpu` | internal/process.go:85-90 | The output has `min(20, n)` records and is non-increasing in CPUPercent. Every kept record is at least as busy as every dropped one. |
| `LegacyProcess.KeptComeFromEnumerated` | internal/process.go:71-72 | Every kept record is the record of an enumerated process, with its PID unchanged. |
| `Stats.CpuReading` | internal/stats.go:35-61 | A failed query, an empty list or a zero total gives the zero stat. Otherwise the reading's nine counters sum to 100, and the CPU label and GuestNice are those of the first entry. |
| `Stats.CoreMemory` | internal/stats.go:72-78 | Total, Used, Free, UsedPercent and Available are copied, and Active, Inactive, Buffers, Cached and Shared are zero. |
| `Stats.Total` | internal/stats.go:44-46 | For non-negative counters the total of the nine counters is non-negative, and it is 0 exactly when all nine are 0, which is the case `CpuUsage` reports as the zero stat. |
| `Stats.Normalized` | internal/stats.go:53-61 | The nine normalised counters sum to 100. The CPU label and GuestNice are kept as read. |
| `Stats.CpuUsage` | internal/stats.go:34-64 | The error is always the query's own. A failed query or an empty list gives the zero stat. A zero total gives the zero stat with no error. Otherwise the first entry is normalised. |
| `Stats.NormalizedInRange` | internal/stats.go:44-61 | With non-negative counters and a positive total, each normalised field lies in [0, 100]. |
| `Stats.NormalizedExample` | internal/stats.go:53-61 | Counters user 10, system 5 and idle 85, with the rest 0, are returned unchanged. |
| `Stats.HostInfo` | internal/stats.go:25-32 | On failure the result is the zero InfoStat with the error. On success it is the library's value. |
| `Stats.MemUsage` | internal/stats.go:66-79 | On success it copies exactly Total, Used, Free, UsedPercent and Available, and every other field is zero. On failure it gives the zero stat and the error. |
| `Stats.CoreMemoryIsProjection` | internal/stats.go:72-78 | The memory projection is idempotent. It keeps a stat whole exactly when the dropped fields are already zero. |
| `Stats.SwapUsage` | internal/stats.go:81-83 | The swap query's result is passed through unchanged. |
| `Stats.LoadAvg` | internal/stats.go:85-87 | The load query's result is passed through unchanged. |
| `Update.GetHostInfo` | internal/update.go:97-104 | On failure the result is the zero InfoStat with the error. On success it is the library's value. |
| `Update.GetCPUStats` | internal/update.go:106-136 | The error is the query's own. A failed query, an empty list or a zero total gives the zero stat. Otherwise the result is the normalised first entry, whose nine counters sum to 100. |
| `Update.GetMemStats` | internal/update.go:138-151 | On failure it gives the zero stat and the error. On success it gives the five-field projection of the reading. |
| `Update.GetSwapMemStats` | internal/update.go:153-165 | On success it copies only Total, Used, Free and UsedPercent, and every other field is zero. On failure it gives the zero stat and the error. |
| `Update.CoreSwap` | internal/update.go:159-164 | Total, Used, Free and UsedPercent are copied, and the six paging and swapping counters are zero. |
| `Update.CoreSwapIsProjection` | internal/update.go:159-164 | The swap projection is idempotent. It keeps a stat whole exactly when the dropped fields are zero. |
| `Update.GetLoadAvg` | internal/update.go:167-174 | On success it gives the three averages. On failure it gives 0, 0, 0 and the error. |
| `Update.ProcessRow` | internal/update.go:76-85 | A row has 8 cells: the PID first and the running time last. The percentages end in "%" and the memory ends in "MB". |
| `Update.RowPidsReadBack` | internal/update.go:77-78 | The PID and parent-PID cells parse back to the numbers they show. |
| `Update.ProcessRows` | internal/update.go:74-86 | There is one row per process, in the same order. |
| `Update.TableRows` | internal/update.go:74-87 | The append loop produces the rows of `ProcessRows`. |
| `Update.Tick` | internal/update.go:38-91 | A tick sets lastUpdate to the tick time. It overwrites the host, CPU, memory and swap readings and the three load averages with the fetch results, using zero values on failure, so no earlier reading survives. It replaces the rows with those of the CPU ranking only when the listing succeeds, and keeps them otherwise. It returns the re-arm command for the configured interval. |
| `Update.Update` | internal/update.go:16-95 | A resize changes only width and height and returns no command. "q" and "ctrl+c" return Quit with the model unchanged. "up"/"k" and "down"/"j" only move the cursor. A tick behaves as `Update.Tick`. Any other key or message leaves the model unchanged and returns no command. |
| `AppModel.Clamp` | internal/update.go:29-34 | When low ≤ high the result lies in [low, high]: a value already in range is kept, a value above high becomes high, and a value below low becomes low. When the range is empty (low > high) the result is high. |
| `AppModel.MoveUp` | internal/update.go:29-31 | Only the cursor changes. On an empty table, such as the initial one, it becomes -1. Otherwise it moves to cursor - n, clamped to the first row when that falls below 0 and to the last row when it lies past the end, from any starting cursor. |
| `AppModel.MoveDown` | internal/update.go:32-34 | Only the cursor changes. On an empty table it becomes -1. Otherwise it moves to cursor + n, clamped to the last row when that lies past the end and to the first row when it falls below 0, from any starting cursor. |
| `AppModel.MoveDownUndoesMoveUp` | internal/update.go:29-34 | Away from the table's edges, one step up and one step down cancel out. |
| `AppModel.NewModel` | internal/model.go:23-48 | The model starts with an empty, focused table under the five columns, zero CPU and memory readings, and width and height 0. |
| `AppModel.ColumnTitles` | internal/model.go:26-32 | There are five columns, in order: PID of width 10, User of width 20, CPU% of width 10, MEM% of width 10 and Command of width 50. |
| `AppConfig.Config.DefaultConfig` | internal/config.go:22-33 | The defaults are a refresh interval of 1 second, a process limit of 25, a table height of 25, and the colours "62", "#aad700" and "#e7e3db". |
| `AppConfig.Config.WithRefreshInterval` | internal/config.go:35-38 | Sets the receiver's RefreshInterval and leaves its other fields unchanged. Returns a copy equal to the updated receiver. |
| `AppConfig.Config.WithProcessLimit` | internal/config.go:40-43 | Sets ProcessLimit in the same way. |
| `AppConfig.Config.WithProcessTableHeight` | internal/config.go:45-48 | Sets ProcessTableHeight in the same way. |
| `AppConfig.SetterCopiesAreSnapshots` | internal/config.go:35-48 | Each returned copy is a snapshot of the receiver at the time of the call, and later setters do not reach it. The receiver accumulates every change. |
| `Utils.ConvertBytes` | internal/utils.go:6-23 | The unit is one of GB, MB, KB and B, and it is the largest unit that fits: except for B, the count is at least one of that unit, and except for GB, it is fewer than 1024 of it. The number shown is the count measured in that unit, or the plain decimal count for B. |
| `Utils.UnitRanges` | internal/utils.go:13-22 | GB for at least 1073741824 bytes, MB from 1048576, KB from 1024, and B below that. Exactly one unit applies, and the number shown is the count in that unit. |
| `Utils.ScaledInRange` | internal/utils.go:16-19 | In the KB and MB branches the scaled quantity lies in [1, 1024). |
| `Utils.BytesReadBack` | internal/utils.go:20-21 | Below 1024 bytes the value is the unpadded decimal count, and it reads back as the count. |
| `Formatters.Split` | internal/formatters.go:30-33 | The hours shown are below 24 and the minutes below 60. |
| `Formatters.TimeToHuman` | internal/formatters.go:29-39 | The text is at least 15 characters and ends with "HH hrs, MM mins". When a day or more has passed, it starts with the unpadded day count followed by " days, ". |
| `Formatters.SplitBounds` | internal/formatters.go:29-33 | Minutes are below 60 and hours below 24, and days is s/86400. The three parts account for all of s except the last, fewer than 60, seconds. |
| `Formatters.HoursMinutes` | internal/formatters.go:36-38 | For hours and minutes below 100, `%02d hrs, %02d mins` is 15 characters: two digits, " hrs, ", two digits and " mins". |
| `Formatters.HoursMinutesReadBack` | internal/formatters.go:36-38 | The "HH hrs, MM mins" tail is 15 characters long, and its fields read back as the hours and the minutes. |
| `Formatters.TimeToHumanReadsBack` | internal/formatters.go:29-39 | The "N days, " prefix appears exactly when s is at least 86400. The hour, minute and unpadded day fields read back as the split, and the day count never starts with 0. |
| `Formatters.FillBars` | internal/formatters.go:13 | The filled-bar count is the percentage over 4, rounded toward zero: for pct ≥ 0, 4·f ≤ pct < 4·f + 4, and symmetrically below 0. |
| `Formatters.Repeat` | internal/formatters.go:18 | `strings.Repeat` of a one-character string n times gives exactly n copies of that character. |
| `Formatters.ProgressBar` | internal/formatters.go:11-26 | The bar is drawn exactly when the filled count lies in [0, 25]. Then the filled run has that many bar characters, and the two runs together have 25, all of them bar characters. |
| `Formatters.TruncToInt` | internal/formatters.go:13 | Converting a float to int drops the fraction, rounding toward zero. |
| `Formatters.BarText` | internal/formatters.go:25 | The bar text is "[", the filled run, the empty run, then "]", and it is two characters longer than the two runs. |
| `Formatters.ProgressBarShape` | internal/formatters.go:11-26 | For 0 ≤ pct ≤ 100 the bar is drawn with 0 to 25 filled cells, one per whole 4%. The filled and empty runs total exactly 25 bar characters between "[" and "]". |
| `Formatters.ProgressBarPanics` | internal/formatters.go:17-23 | `strings.Repeat` gets a negative count, and the program panics, exactly when pct ≤ -4 or pct ≥ 104. |

## Left out

- The metrics-library queries (`process.Processes`, the per-process accessors, `cpu.Times`, `mem.VirtualMemory`, `mem.SwapMemory`, `host.Info`, `load.Avg`) are not modelled. Their outcomes are inputs to the model.
- `slog` logging is left out because it has no effect on state.
- Float formatting (`%6.2f`, `%.2f`) and `Duration.String()` are function parameters (`fixed62`, `fixed2`, `durationText`), not interpreted. The only thing known of `durationText` is what `Duration.String()` always produces: a non-empty text ending in "s" (`GoLib.DurationText`).
- Float arithmetic is modelled over `real`. IEEE rounding, float32 narrowing of MemoryPercent, and overflow of `createTime * 1e6` in int64 are not modelled.
- The wall clock is one parameter `now` for a whole enumeration. In the program each `time.Since` reads the clock anew.
- `sort.Slice` is modelled by an insertion sort. Only sortedness and permutation are promised, as Go promises. The order among equal keys is not modelled: `sort.Slice` is not stable, so ties may end in any order.
- `ProcessManager.GetProcesses` requires `Limit >= 0`. A negative limit makes the Go slice expression panic, so that input is excluded rather than modelled. A limit of 0 yields no records.
- `LegacyProcess.GetProcess` requires that no accessor panics. It has no `recover()`, so a panic would end the program. The same requirement is on `LegacyProcess.LegacyRecord`, `LegacyProcess.LegacyRecords`, `LegacyProcess.AppendLegacyRecords`, `Update.Tick`, and `Update.Update` for a tick.
- `Update.Update` does not model the loaded flag changing. `hasLoaded` is read by internal/header_view.go:26, but none of the source files this model covers sets it, so a tick leaves it as it was.
- `Update.Tick` ranks processes with the legacy `GetProcess`, which uses CPU order, descending, and keeps 20, because the handler calls that function. The configured criterion and `ProcessLimit` are not used on this path.
- The table's columns (5, in `NewModel`) and the rows built on a tick (8 cells) do not match. Both facts are stated separately and not reconciled.
- The bubbles table internals are not modelled: viewport, key map, styles, and any cursor adjustment inside `SetRows`. `SetRows` replaces the rows. `MoveUp`/`MoveDown` clamp the cursor into the rows, as `min(max(c, 0), len-1)`.
- The tick command is the value `Every(interval)`. The `tea.Every` timer and the message it later delivers (internal/init.go) are not modelled. In update.go, `tickEvery()` is called without a receiver, unlike its definition in init.go. It is modelled as re-arming with the model's configured interval.
- The model's `config` starts as the zero Config, because `NewModel` sets none.
- Rendering is not modelled: header_view.go, process_view.go, view.go, `listItem`, and all lipgloss styling. `ProgressBar` is modelled up to its two runs of bars, without colours.
- `convertBytes` is defined twice, in utils.go and in update.go:177-194, with the same code. It is modelled once, as `Utils.ConvertBytes`.
- `Update.GetCPUStats` runs the same steps as `Stats.CpuUsage`, and the model calls that method rather than restating it.
- `cmd/mintop/main.go` and `main.go` are not part of this model. They contain goroutines, signal handling, flag parsing and program launch.
- Process names and user names are assumed to be valid UTF-8. Go's `<` compares strings byte by byte, while a Dafny string is a sequence of Unicode scalar values, so `Text.LexLess` compares code points. For valid UTF-8 the two orders agree. Invalid byte sequences cannot be represented.
- Fields of the library records that the monitor never reads are not modelled.
