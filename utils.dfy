/** convertBytes: a byte count as a number and the unit it is counted in. */
module Utils {
  import opened GoLib
  import opened Text

  const KB: nat := 1024
  const MB: nat := 1024 * 1024
  const GB: nat := 1024 * 1024 * 1024

  /** The largest unit that still leaves at least one of it. `fixed62`
      stands for the %6.2f formatting of a float; below one kilobyte the
      count is printed with %d. */
  function ConvertBytes(bytes: uint64, fixed62: real -> string): (r: (string, string))
    ensures r.1 in {"GB", "MB", "KB", "B"}
    ensures r.1 == "B" ==> r.0 == Decimal(bytes)
    ensures r.1 != "B" ==> UnitSize(r.1) <= bytes && r.0 == fixed62(bytes as real / UnitSize(r.1) as real)
    ensures r.1 != "GB" ==> bytes < 1024 * UnitSize(r.1)
  {
    if bytes >= GB then (fixed62(bytes as real / GB as real), "GB")
    else if bytes >= MB then (fixed62(bytes as real / MB as real), "MB")
    else if bytes >= KB then (fixed62(bytes as real / KB as real), "KB")
    else (Decimal(bytes), "B")
  }

  /** How many bytes one of `unit` holds. */
  function UnitSize(unit: string): nat {
    if unit == "GB" then GB else if unit == "MB" then MB else if unit == "KB" then KB else 1
  }

  /** Each unit is chosen on exactly its range of counts, and the number
      shown is the count measured in that unit. */
  lemma UnitRanges(bytes: uint64, fixed62: real -> string)
    ensures ConvertBytes(bytes, fixed62).1 == "GB" <==> bytes >= 1073741824
    ensures ConvertBytes(bytes, fixed62).1 == "MB" <==> 1048576 <= bytes < 1073741824
    ensures ConvertBytes(bytes, fixed62).1 == "KB" <==> 1024 <= bytes < 1048576
    ensures ConvertBytes(bytes, fixed62).1 == "B" <==> bytes < 1024
    ensures var (value, unit) := ConvertBytes(bytes, fixed62);
            unit != "B" ==> value == fixed62(bytes as real / UnitSize(unit) as real)
  {
  }

  /** In the KB and MB ranges the number shown lies in [1, 1024): a count is
      never shown as 1024 or more of a unit when a larger unit would fit. */
  lemma ScaledInRange(bytes: uint64, fixed62: real -> string)
    requires ConvertBytes(bytes, fixed62).1 in {"KB", "MB"}
    ensures var q := bytes as real / UnitSize(ConvertBytes(bytes, fixed62).1) as real;
            1.0 <= q < 1024.0
  {
    var unit := ConvertBytes(bytes, fixed62).1;
    var size := UnitSize(unit) as real;
    assert size > 0.0;
    assert size <= bytes as real < 1024.0 * size;
    var q := bytes as real / size;
    assert q * size == bytes as real;
  }

  /** Below one kilobyte the value is the unpadded decimal count, which reads
      back as the count itself. */
  lemma BytesReadBack(bytes: uint64, fixed62: real -> string)
    requires bytes < 1024
    ensures var value := ConvertBytes(bytes, fixed62).0;
            AllDigits(value) && (|value| > 1 ==> value[0] != '0') && ParseDecimal(value) == bytes
  {
    DecimalRoundTrip(bytes);
  }
}
