/** The monitor's configuration: a record the setters change through a
    pointer receiver, each returning a copy of the changed record. */
module AppConfig {
  import opened GoLib

  /** ColorConfig: three lipgloss colour names, kept as their strings. */
  datatype ColorConfig = ColorConfig(
    TableSelectionBackground: string,
    ProgressBarFilled: string,
    ProgressBarEmpty: string)

  /** A Config as a value: what `*c` copies out. RefreshInterval is a
      time.Duration in nanoseconds. */
  datatype ConfigValue = ConfigValue(
    RefreshInterval: int64,
    ProcessLimit: int64,
    Colors: ColorConfig,
    ProcessTableHeight: int64)

  /** The zero Config, which a Model holds until one is given to it. */
  const ZeroConfig := ConfigValue(0, 0, ColorConfig("", "", ""), 0)

  class Config {
    var RefreshInterval: int64
    var ProcessLimit: int64
    var Colors: ColorConfig
    var ProcessTableHeight: int64

    /** `*c`: the current field values, copied. */
    function Value(): ConfigValue
      reads this
    {
      ConfigValue(RefreshInterval, ProcessLimit, Colors, ProcessTableHeight)
    }

    /** DefaultConfig: refresh every second, 25 processes, a 25-row table,
        and the selection, filled-bar and empty-bar colours. */
    constructor DefaultConfig()
      ensures RefreshInterval == Second
      ensures ProcessLimit == 25 && ProcessTableHeight == 25
      ensures Colors == ColorConfig("62", "#aad700", "#e7e3db")
    {
      RefreshInterval := Second;
      ProcessLimit := 25;
      Colors := ColorConfig("62", "#aad700", "#e7e3db");
      ProcessTableHeight := 25;
    }

    method WithRefreshInterval(d: int64) returns (copy: ConfigValue)
      modifies this
      ensures RefreshInterval == d
      ensures ProcessLimit == old(ProcessLimit) && Colors == old(Colors)
      ensures ProcessTableHeight == old(ProcessTableHeight)
      ensures copy == Value()
    {
      RefreshInterval := d;
      copy := Value();
    }

    method WithProcessLimit(limit: int64) returns (copy: ConfigValue)
      modifies this
      ensures ProcessLimit == limit
      ensures RefreshInterval == old(RefreshInterval) && Colors == old(Colors)
      ensures ProcessTableHeight == old(ProcessTableHeight)
      ensures copy == Value()
    {
      ProcessLimit := limit;
      copy := Value();
    }

    method WithProcessTableHeight(height: int64) returns (copy: ConfigValue)
      modifies this
      ensures ProcessTableHeight == height
      ensures RefreshInterval == old(RefreshInterval) && ProcessLimit == old(ProcessLimit)
      ensures Colors == old(Colors)
      ensures copy == Value()
    {
      ProcessTableHeight := height;
      copy := Value();
    }
  }

  /** Chaining setters on a default config: each returned copy is a snapshot
      of the receiver at that moment, which later setters on the receiver do
      not reach, while the receiver itself accumulates every change. */
  method SetterCopiesAreSnapshots(interval: int64, limit: int64, height: int64)
    returns (first: ConfigValue, second: ConfigValue, last: ConfigValue)
    ensures first == ConfigValue(interval, 25, ColorConfig("62", "#aad700", "#e7e3db"), 25)
    ensures second == first.(ProcessLimit := limit)
    ensures last == second.(ProcessTableHeight := height)
  {
    var c := new Config.DefaultConfig();
    first := c.WithRefreshInterval(interval);
    second := c.WithProcessLimit(limit);
    last := c.WithProcessTableHeight(height);
  }
}
