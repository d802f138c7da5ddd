/**
 * Hour-of-day binning of dump times (`get_time_idx`).
 *
 * The Python code formats each timestamp as local `%H:%M:%S`, reads the
 * three fields back and rounds `H + M/60 + S/3600` with Python 3's `round`
 * (nearest integer, ties to even). Only the single-file variant maps a
 * result of 24 back to 0; the parameter `wrap` selects the variant.
 */
module HourBinning {

  /** A local wall-clock time, as read back from `%H:%M:%S`. */
  datatype LocalTime = LocalTime(hour: nat, minute: nat, second: nat)

  /** What `strftime('%H:%M:%S')` can produce for a `fromtimestamp` result. */
  predicate ValidTime(t: LocalTime) {
    t.hour < 24 && t.minute < 60 && t.second < 60
  }

  /** Python 3 `round(x)` for a number without `ndigits`: nearest integer, halves to even. */
  function PyRound(x: real): (r: int)
    ensures x - 0.5 <= r as real <= x + 0.5
    ensures (r as real == x - 0.5 || r as real == x + 0.5) ==> r % 2 == 0
  {
    var f := x.Floor;
    var d := x - f as real;
    if d < 0.5 then f
    else if d > 0.5 then f + 1
    else if f % 2 == 0 then f else f + 1
  }

  /** `H + M/60 + S/3600`, exactly. */
  function HourValue(t: LocalTime): real {
    t.hour as real + t.minute as real / 60.0 + t.second as real / 3600.0
  }

  /** The hour bin of one time; `wrap` maps 24 to 0 (single-file variant only). */
  function HourBin(t: LocalTime, wrap: bool): int
    requires ValidTime(t)
  {
    var h := PyRound(HourValue(t));
    if wrap && h == 24 then 0 else h
  }

  /** Seconds past the full hour. */
  function PastHour(t: LocalTime): nat {
    60 * t.minute + t.second
  }

  /**
   * The rounding in whole seconds: the hour itself below 30:00 past the hour,
   * the next hour above it, and at exactly 30:00 whichever of the two is even.
   */
  lemma HourBinCases(t: LocalTime, wrap: bool)
    requires ValidTime(t)
    ensures var up := PastHour(t) > 1800 || (PastHour(t) == 1800 && t.hour % 2 == 1);
            var h := if up then t.hour + 1 else t.hour;
            HourBin(t, wrap) == if wrap && h == 24 then 0 else h
  {
    var x := HourValue(t);
    var p := PastHour(t);
    assert x == t.hour as real + p as real / 3600.0;
    assert 0.0 <= p as real / 3600.0 < 1.0;
    assert x.Floor == t.hour;
    var d := x - t.hour as real;
    assert d == p as real / 3600.0;
    assert d < 0.5 <==> p < 1800;
    assert d == 0.5 <==> p == 1800;
  }

  /** With the wrap every bin lies on the 24-long time axis. */
  lemma HourBinWrapInRange(t: LocalTime)
    requires ValidTime(t)
    ensures 0 <= HourBin(t, true) < 24
  {
    HourBinCases(t, true);
  }

  /**
   * Without the wrap the bin is in [0, 24], and it is 24 exactly from 23:30:00
   * onwards: one past the last index of the 24-long time axis.
   */
  lemma HourBinNoWrapRange(t: LocalTime)
    requires ValidTime(t)
    ensures 0 <= HourBin(t, false) <= 24
    ensures HourBin(t, false) == 24 <==> t.hour == 23 && PastHour(t) >= 1800
  {
    HourBinCases(t, false);
  }

  /** The two bins agree except where the unwrapped bin is 24. */
  lemma HourBinVariants(t: LocalTime)
    requires ValidTime(t)
    ensures HourBin(t, true) == if HourBin(t, false) == 24 then 0 else HourBin(t, false)
  {
    HourBinCases(t, true);
    HourBinCases(t, false);
  }

  /** 23:45:00 falls in bin 24 without the wrap (kathprfiUHF.py, kathprfi.py). */
  lemma LateEveningOutsideTimeAxis()
    ensures HourBin(LocalTime(23, 45, 0), false) == 24
    ensures HourBin(LocalTime(23, 45, 0), true) == 0
  {
    HourBinCases(LocalTime(23, 45, 0), false);
    HourBinCases(LocalTime(23, 45, 0), true);
  }

  /** `get_time_idx`: one bin per dump, in dump order. */
  method GetTimeIdx(times: seq<LocalTime>, wrap: bool) returns (hour: seq<int>)
    requires forall i :: 0 <= i < |times| ==> ValidTime(times[i])
    ensures |hour| == |times|
    ensures forall i :: 0 <= i < |times| ==> hour[i] == HourBin(times[i], wrap)
  {
    hour := [];
    var i := 0;
    while i < |times|
      invariant 0 <= i <= |times|
      invariant |hour| == i
      invariant forall n :: 0 <= n < i ==> hour[n] == HourBin(times[n], wrap)
    {
      var h := PyRound(HourValue(times[i]));
      if wrap && h == 24 {
        hour := hour + [0];
      } else {
        hour := hour + [h];
      }
      i := i + 1;
    }
  }
}
