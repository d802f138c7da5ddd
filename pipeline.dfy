/**
 * The index pipeline of the driver for one file: the hour, baseline and
 * angle indices computed for MeerKAT's standard setting, and the premises
 * under which they fit the kernel's arrays.
 */
module Pipeline {
  import opened Histogram
  import HourBinning
  import AngleBinning
  import Baselines

  /** The hour bins of the driver's dumps, with or without the wrap. */
  function HourBins(times: seq<HourBinning.LocalTime>, wrap: bool): (r: seq<int>)
    requires forall n :: 0 <= n < |times| ==> HourBinning.ValidTime(times[n])
    ensures |r| == |times|
    ensures forall n :: 0 <= n < |times| ==> r[n] == HourBinning.HourBin(times[n], wrap)
  {
    seq(|times|, n requires 0 <= n < |times| => HourBinning.HourBin(times[n], wrap))
  }

  /** The premises under which the driver's indices fit MeerKAT's arrays. */
  predicate StandardFile(times: seq<HourBinning.LocalTime>, az: seq<real>, el: seq<real>,
                         corrProds: seq<Baselines.Label>, flags: seq<seq<seq<bool>>>)
  {
    |az| == |times| && |el| == |times| && |flags| == |times| &&
    (forall n :: 0 <= n < |times| ==> HourBinning.ValidTime(times[n])) &&
    (forall n :: 0 <= n < |times| ==> 0.0 <= az[n] < 360.0 && 10.0 <= el[n] < 90.0) &&
    Baselines.BlIdx(corrProds, 64).Success? &&
    (forall j :: 0 <= j < |flags| ==> |flags[j]| == NCHAN && forall k :: 0 <= k < NCHAN ==> |flags[j][k]| == |corrProds|)
  }

  /** The kernel arguments the driver builds for a file: wrapped hour bins, table positions, standard angle bins. */
  function StandardBatch(times: seq<HourBinning.LocalTime>, az: seq<real>, el: seq<real>,
                         corrProds: seq<Baselines.Label>, flags: seq<seq<seq<bool>>>): Batch
    requires StandardFile(times, az, el, corrProds, flags)
  {
    Batch(HourBins(times, true), Baselines.BlIdx(corrProds, 64).value,
          AngleBinning.ElIdx(el, AngleBinning.StdElBins()), AngleBinning.AzIdx(az, AngleBinning.StdAzBins()), flags)
  }

  /**
   * The indices the driver computes for a file with MeerKAT's 64 antennas
   * and the standard angle edges fit the `[24, 4096, 2016, 8, 24]` arrays:
   * every dump keeps its elevation and azimuth (all elevations in [10, 90),
   * all azimuths in [0, 360)), every baseline is in the table, and every
   * hour bin is wrapped.
   */
  lemma StandardBatchInBounds(times: seq<HourBinning.LocalTime>, az: seq<real>, el: seq<real>,
                              corrProds: seq<Baselines.Label>, flags: seq<seq<seq<bool>>>)
    requires StandardFile(times, az, el, corrProds, flags)
    ensures Aligned(StandardBatch(times, az, el, corrProds, flags))
    ensures InBounds(StandardBatch(times, az, el, corrProds, flags), 2016, 8, 24)
  {
    var x := StandardBatch(times, az, el, corrProds, flags);
    AngleBinning.StdAzIdxTotal(az);
    AngleBinning.StdElIdxTotal(el);
    assert Aligned(x);
    Baselines.MeerKatTableSize();
    forall n | 0 <= n < |times|
      ensures 0 <= x.time[n] < HOURS && 0 <= x.el[n] < 8 && 0 <= x.az[n] < 24
    {
      HourBinning.HourBinWrapInRange(times[n]);
    }
  }

  /**
   * Without the wrap (kathprfiUHF.py, kathprfi.py) a dump at 23:45 gets hour
   * bin 24, and the kernel's arguments leave the 24-long time axis.
   */
  lemma UnwrappedHourLeavesAxis(x: Batch, j: nat, nb: nat, ne: nat, na: nat)
    requires Aligned(x) && j < |x.time|
    requires x.time[j] == HourBinning.HourBin(HourBinning.LocalTime(23, 45, 0), false)
    ensures !InBounds(x, nb, ne, na)
  {
    HourBinning.LateEveningOutsideTimeAxis();
  }
}
