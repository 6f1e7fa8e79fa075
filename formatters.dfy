/** The two formatters of the header whose arithmetic matters: the uptime in
    days, hours and minutes, and the number of bars a percentage fills. */
module Formatters {
  import opened GoLib
  import opened Text

  /** The days, hours and minutes timeToHuman shows for `seconds`: whole
      hours first, minutes from the remainder, then the hours split into
      days and the hours left over. Leftover seconds are dropped. */
  function Split(seconds: nat): (dhm: (nat, nat, nat))
    ensures dhm.1 < 24 && dhm.2 < 60
  {
    var hours := seconds / 3600;
    var minutes := (seconds % 3600) / 60;
    var days := hours / 24;
    (days, hours % 24, minutes)
  }

  /** timeToHuman: "D days, HH hrs, MM mins", or "HH hrs, MM mins" when less
      than a day has passed. Hours and minutes are zero-padded to two digits,
      days are not padded. */
  function TimeToHuman(seconds: uint64): (t: string)
    ensures |t| >= 15
    ensures t[|t| - 13..|t| - 7] == " hrs, " && t[|t| - 5..] == " mins"
    ensures Split(seconds).0 > 0 ==> t[..|t| - 15] == Decimal(Split(seconds).0) + " days, "
  {
    var (days, hours, minutes) := Split(seconds);
    var tail := HoursMinutes(hours, minutes);
    assert |tail| == 15 && tail[2..8] == " hrs, " && tail[10..] == " mins";
    if days > 0 then Decimal(days) + " days, " + tail
    else tail
  }

  /** The three parts are a proper days/hours/minutes reading of the count:
      minutes below 60, hours below 24, days the whole days elapsed, and
      together they account for all but the last (under 60) seconds. */
  lemma {:induction false} SplitBounds(seconds: nat)
    ensures var (days, hours, minutes) := Split(seconds);
      && minutes < 60 && hours < 24
      && days == seconds / 86400
      && days * 86400 + hours * 3600 + minutes * 60 <= seconds < days * 86400 + hours * 3600 + minutes * 60 + 60
  {
    var h := seconds / 3600;
    var r := seconds % 3600;
    assert seconds == h * 3600 + r && 0 <= r < 3600;
    var minutes := r / 60;
    assert r == minutes * 60 + r % 60 && 0 <= r % 60 < 60;
    var days := h / 24;
    var hours := h % 24;
    assert h == days * 24 + hours && 0 <= hours < 24;
    assert seconds == days * 86400 + hours * 3600 + minutes * 60 + r % 60;
    assert minutes < 60;
    DivByDay(seconds, days, hours * 3600 + minutes * 60 + r % 60);
  }

  /** If n = q*86400 + r with 0 <= r < 86400 then n / 86400 == q. */
  lemma DivByDay(n: nat, q: nat, r: nat)
    requires 0 <= r < 86400 && n == q * 86400 + r
    ensures n / 86400 == q
  {
  }

  /** The "HH hrs, MM mins" part, which both forms end with. */
  function HoursMinutes(hours: nat, minutes: nat): (t: string)
    ensures hours < 100 && minutes < 100 ==>
              |t| == 15 && AllDigits(t[0..2]) && t[2..8] == " hrs, " && AllDigits(t[8..10]) && t[10..] == " mins"
  {
    Pad2(hours) + " hrs, " + Pad2(minutes) + " mins"
  }

  /** Hours and minutes below 100 make a 15-character tail whose two number
      fields read back as the hours and the minutes. */
  lemma HoursMinutesReadBack(hours: nat, minutes: nat)
    requires hours < 100 && minutes < 100
    ensures var t := HoursMinutes(hours, minutes);
      |t| == 15 && ParseDecimal(t[0..2]) == hours && ParseDecimal(t[8..10]) == minutes
  {
    Pad2RoundTrip(hours);
    Pad2RoundTrip(minutes);
    var t := HoursMinutes(hours, minutes);
    assert t[0..2] == Pad2(hours);
    assert t[8..10] == Pad2(minutes);
  }

  /** Reading the text back: the days prefix is there exactly when at least
      a day has passed, and the hour, minute and day fields are the two-digit
      hours, the two-digit minutes and the unpadded days of the split, whose
      first digit is never 0. */
  lemma {:induction false} TimeToHumanReadsBack(seconds: uint64)
    ensures var t := TimeToHuman(seconds);
      && |t| >= 15
      && (|t| == 15 <==> seconds < 86400)
      && ParseDecimal(t[|t| - 15..|t| - 13]) == Split(seconds).1
      && ParseDecimal(t[|t| - 7..|t| - 5]) == Split(seconds).2
      && (seconds >= 86400 ==>
            t[0] != '0' && ParseDecimal(t[..|t| - 22]) == Split(seconds).0
            && t[|t| - 22..|t| - 15] == " days, ")
  {
    var days, hours, minutes := Split(seconds).0, Split(seconds).1, Split(seconds).2;
    SplitBounds(seconds);
    if days > 0 {
      DaysFormReadBack(days, hours, minutes);
    } else {
      HoursMinutesReadBack(hours, minutes);
    }
  }

  /** The days form reads back field by field: the unpadded days with no
      leading zero, the separator, then the two-digit hours and minutes. */
  lemma DaysFormReadBack(days: nat, hours: nat, minutes: nat)
    requires days > 0 && hours < 100 && minutes < 100
    ensures var t := Decimal(days) + " days, " + HoursMinutes(hours, minutes);
      && |t| > 15 && t[0] != '0'
      && ParseDecimal(t[..|t| - 22]) == days && t[|t| - 22..|t| - 15] == " days, "
      && ParseDecimal(t[|t| - 15..|t| - 13]) == hours && ParseDecimal(t[|t| - 7..|t| - 5]) == minutes
  {
    var tail := HoursMinutes(hours, minutes);
    HoursMinutesReadBack(hours, minutes);
    DaysPrefixSplits(days, tail);
    DecimalRoundTrip(days);
  }

  /** The days form splits back into its three parts: the unpadded days,
      the separator and the 15-character tail, whose number fields sit at
      the same offsets from the end as in the tail alone. */
  lemma DaysPrefixSplits(days: nat, tail: string)
    requires days > 0 && |tail| == 15
    ensures var t := Decimal(days) + " days, " + tail;
      && |t| == |Decimal(days)| + 22 && t[0] != '0'
      && t[..|t| - 22] == Decimal(days) && t[|t| - 22..|t| - 15] == " days, "
      && t[|t| - 15..|t| - 13] == tail[0..2] && t[|t| - 7..|t| - 5] == tail[8..10]
  {
    var t := Decimal(days) + " days, " + tail;
    assert t[..|t| - 22] == Decimal(days);
    assert t[0] == Decimal(days)[0];
  }

  /** The bar has 25 cells. */
  const TotalBars: int := 25

  /** Go's conversion of a float to an integer: the fraction is discarded,
      rounding toward zero. */
  function TruncToInt(x: real): (i: int)
    ensures x >= 0.0 ==> i as real <= x < i as real + 1.0
    ensures x < 0.0 ==> i as real - 1.0 < x <= i as real
  {
    if x >= 0.0 then x.Floor else -((-x).Floor)
  }

  /** fillBars = int(percentage / 100 * totalBars). */
  function FillBars(percentage: real): (f: int)
    ensures percentage >= 0.0 ==> f as real * 4.0 <= percentage < f as real * 4.0 + 4.0
    ensures percentage < 0.0 ==> f as real * 4.0 - 4.0 < percentage <= f as real * 4.0
  {
    var x := percentage / 100.0 * TotalBars as real;
    assert x == percentage / 4.0;
    TruncToInt(x)
  }

  /** strings.Repeat(string(c), n) for n >= 0: n copies of c. */
  function Repeat(c: char, n: nat): (r: string)
    ensures |r| == n
    ensures forall k :: 0 <= k < n ==> r[k] == c
  {
    if n == 0 then [] else Repeat(c, n - 1) + [c]
  }

  /** The two runs of '|' inside the brackets, before the colours are
      applied: the filled one and the empty one. */
  datatype Bar = Bar(filled: string, empty: string)

  /** ProgressBar with the styling left out. strings.Repeat panics on a
      negative count, which happens for the filled run when fillBars < 0 and
      for the empty run when fillBars > 25; such a percentage gives None. */
  function ProgressBar(percentage: real): (r: Option<Bar>)
    ensures r.Some? <==> 0 <= FillBars(percentage) <= TotalBars
    ensures r.Some? ==> |r.value.filled| == FillBars(percentage) && |r.value.filled| + |r.value.empty| == TotalBars
    ensures r.Some? ==> forall k :: 0 <= k < |r.value.filled| ==> r.value.filled[k] == '|'
    ensures r.Some? ==> forall k :: 0 <= k < |r.value.empty| ==> r.value.empty[k] == '|'
  {
    var fillBars := FillBars(percentage);
    if fillBars < 0 || TotalBars - fillBars < 0 then None
    else Some(Bar(Repeat('|', fillBars), Repeat('|', TotalBars - fillBars)))
  }

  /** The bar text between its brackets. */
  function BarText(b: Bar): (t: string)
    ensures |t| == |b.filled| + |b.empty| + 2
    ensures t[0] == '[' && t[|t| - 1] == ']' && t[1..|t| - 1] == b.filled + b.empty
  {
    "[" + b.filled + b.empty + "]"
  }

  /** For a percentage in [0, 100] the bar is drawn, its filled run has one
      cell per whole 4% (between 0 and 25 cells), and the two runs together
      make exactly 25 '|' between "[" and "]". */
  lemma ProgressBarShape(percentage: real)
    requires 0.0 <= percentage <= 100.0
    ensures ProgressBar(percentage).Some?
    ensures var b := ProgressBar(percentage).value;
      && 0 <= |b.filled| <= 25
      && |b.filled| as real * 4.0 <= percentage < |b.filled| as real * 4.0 + 4.0
      && |b.filled| + |b.empty| == 25
      && |BarText(b)| == 27 && BarText(b)[0] == '[' && BarText(b)[26] == ']'
      && forall k :: 1 <= k < 26 ==> BarText(b)[k] == '|'
  {
    var fill := FillBars(percentage);
    var x := percentage / 100.0 * 25.0;
    assert x == percentage / 4.0;
    assert 0.0 <= x <= 25.0;
    assert 0 <= fill <= 25;
    var b := ProgressBar(percentage).value;
    var t := BarText(b);
    assert t == ['['] + b.filled + b.empty + [']'];
    forall k | 1 <= k < 26
      ensures t[k] == '|'
    {
      if k < 1 + |b.filled| {
        assert t[k] == b.filled[k - 1];
      } else {
        assert t[k] == b.empty[k - 1 - |b.filled|];
      }
    }
  }

  /** The percentages for which ProgressBar panics: exactly those at or
      below -4% and at or above 104%. */
  lemma ProgressBarPanics(percentage: real)
    ensures ProgressBar(percentage).None? <==> percentage <= -4.0 || percentage >= 104.0
  {
    var x := percentage / 100.0 * 25.0;
    assert x == percentage / 4.0;
  }
}
