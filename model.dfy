/** The terminal UI's state: the process table (its columns, rows and cursor)
    and the latest readings. The state is every field the message handler
    assigns together with every field the Model declares; lipgloss styles are
    left out. */
module AppModel {
  import opened GoLib
  import opened Platform
  import opened AppConfig

  /** table.Column. */
  datatype Column = Column(Title: string, Width: int)

  /** What of a bubbles table.Model the monitor touches: columns, rows of
      cells, the highlighted row and whether the table has focus. */
  datatype Table = Table(columns: seq<Column>, rows: seq<seq<string>>, cursor: int, focused: bool)

  /** min(max(v, low), high), the clamp the table applies to its cursor. */
  function Clamp(v: int, low: int, high: int): (r: int)
    ensures low <= high ==> low <= r <= high
    ensures low <= v <= high ==> r == v
    ensures v > high ==> r == high
    ensures v < low && low <= high ==> r == low
    ensures low > high ==> r == high
  {
    if v < low then Min(low, high) else Min(v, high)
  }

  /** table.MoveUp(n): the cursor moves n rows up, stopping at the first row. */
  function MoveUp(t: Table, n: int): (r: Table)
    ensures r.columns == t.columns && r.rows == t.rows && r.focused == t.focused
    ensures |t.rows| > 0 ==> 0 <= r.cursor < |t.rows|
    ensures 0 <= n && 0 <= t.cursor < |t.rows| ==> r.cursor == if t.cursor >= n then t.cursor - n else 0
    ensures |t.rows| == 0 ==> r.cursor == -1
    ensures |t.rows| > 0 && t.cursor - n < 0 ==> r.cursor == 0
    ensures 0 <= t.cursor - n < |t.rows| ==> r.cursor == t.cursor - n
    ensures |t.rows| > 0 && t.cursor - n >= |t.rows| ==> r.cursor == |t.rows| - 1
  {
    t.(cursor := Clamp(t.cursor - n, 0, |t.rows| - 1))
  }

  /** table.MoveDown(n): the cursor moves n rows down, stopping at the last row. */
  function MoveDown(t: Table, n: int): (r: Table)
    ensures r.columns == t.columns && r.rows == t.rows && r.focused == t.focused
    ensures |t.rows| > 0 ==> 0 <= r.cursor < |t.rows|
    ensures 0 <= n && 0 <= t.cursor < |t.rows| ==>
              r.cursor == if t.cursor + n < |t.rows| then t.cursor + n else |t.rows| - 1
    ensures |t.rows| == 0 ==> r.cursor == -1
    ensures |t.rows| > 0 && t.cursor + n < 0 ==> r.cursor == 0
    ensures 0 <= t.cursor + n < |t.rows| ==> r.cursor == t.cursor + n
    ensures |t.rows| > 0 && t.cursor + n >= |t.rows| ==> r.cursor == |t.rows| - 1
  {
    t.(cursor := Clamp(t.cursor + n, 0, |t.rows| - 1))
  }

  /** Away from the last row, one step down undoes one step up, and away from
      the first row one step up undoes one step down. */
  lemma MoveDownUndoesMoveUp(t: Table)
    ensures 1 <= t.cursor < |t.rows| ==> MoveDown(MoveUp(t, 1), 1) == t
    ensures 0 <= t.cursor < |t.rows| - 1 ==> MoveUp(MoveDown(t, 1), 1) == t
  {
  }

  /** The Model: screen size, process table, the five readings, the load
      averages, the time of the last tick, the configuration and the loaded
      flag the header reads. */
  datatype Model = Model(
    width: int,
    height: int,
    processTable: Table,
    CpuUsage: TimesStat,
    MemUsage: VirtualMemoryStat,
    HostInfo: InfoStat,
    SwapUsage: SwapMemoryStat,
    Load1: real,
    Load5: real,
    Load15: real,
    lastUpdate: int,
    config: ConfigValue,
    hasLoaded: bool)

  /** The five columns NewModel declares, in order. */
  const TableColumns: seq<Column> :=
    [Column("PID", 10), Column("User", 20), Column("CPU%", 10), Column("MEM%", 10), Column("Command", 50)]

  /** NewModel: an empty, focused table under the five columns and zero
      readings. Width and height are never set, so they start at 0, and every
      field NewModel leaves out holds its zero value. */
  function NewModel(): (m: Model)
    ensures m.processTable.columns == TableColumns
    ensures m.processTable.rows == [] && m.processTable.focused && m.processTable.cursor == 0
    ensures m.CpuUsage == ZeroTimes && m.MemUsage == ZeroVirtualMemory
    ensures m.width == 0 && m.height == 0
    ensures m.HostInfo == ZeroInfo && m.SwapUsage == ZeroSwapMemory
    ensures m.Load1 == 0.0 && m.Load5 == 0.0 && m.Load15 == 0.0
    ensures m.lastUpdate == 0 && m.config == ZeroConfig && !m.hasLoaded
  {
    Model(
      width := 0, height := 0,
      processTable := Table(TableColumns, [], 0, true),
      CpuUsage := ZeroTimes, MemUsage := ZeroVirtualMemory,
      HostInfo := ZeroInfo, SwapUsage := ZeroSwapMemory,
      Load1 := 0.0, Load5 := 0.0, Load15 := 0.0,
      lastUpdate := 0, config := ZeroConfig, hasLoaded := false)
  }

  /** The columns, left to right, with their widths. */
  lemma ColumnTitles()
    ensures |TableColumns| == 5
    ensures TableColumns[0].Title == "PID" && TableColumns[0].Width == 10
    ensures TableColumns[1].Title == "User" && TableColumns[1].Width == 20
    ensures TableColumns[2].Title == "CPU%" && TableColumns[2].Width == 10
    ensures TableColumns[3].Title == "MEM%" && TableColumns[3].Width == 10
    ensures TableColumns[4].Title == "Command" && TableColumns[4].Width == 50
  {
  }
}
