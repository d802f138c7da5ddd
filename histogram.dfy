/**
 * The histogram kernel (`update_arrays`).
 *
 * `Master` and `Counter` are `uint16` arrays of shape
 * `[hour, channel, baseline, elevation, azimuth]`, with 24 hours and 4096
 * channels. For every channel `k`, baseline position `i` and dump `j` of a
 * chunk, the voxel `(Time_idx[j], k, Bl_idx[i], El_idx[j], Az_idx[j])` gains
 * the flag `Good_flags[j, k, i]` (0 or 1) in `Master` and 1 in `Counter`.
 * Every `+=` stores into a `uint16`, so it wraps modulo 65536. The channels
 * are visited in blocks of 128; the blocks run in parallel (`prange`) but
 * touch disjoint channels, so the result is that of the sequential order
 * modelled here.
 */
module Histogram {

  const HOURS: nat := 24
  const NCHAN: nat := 4096
  const CSTEP: nat := 128
  const WRAP: nat := 0x1_0000

  /** `np.uint16`. */
  type u16 = x: int | 0 <= x < 0x1_0000

  /** One cell of the histogram. */
  datatype Voxel = Voxel(t: int, k: int, b: int, e: int, a: int)

  /** The arguments of one call: per-dump indices, baseline indices and the flag chunk `[dump][channel][baseline]`. */
  datatype Batch = Batch(time: seq<int>, bl: seq<int>, el: seq<int>, az: seq<int>, flags: seq<seq<seq<bool>>>)

  /** Every index the kernel reads exists: one elevation, azimuth and flag plane per dump, 4096 channels, one flag per baseline. */
  predicate Aligned(x: Batch) {
    |x.el| >= |x.time| && |x.az| >= |x.time| && |x.flags| >= |x.time| &&
    forall j :: 0 <= j < |x.time| ==>
      |x.flags[j]| >= NCHAN && forall k :: 0 <= k < NCHAN ==> |x.flags[j][k]| >= |x.bl|
  }

  /** Every voxel the kernel writes lies inside arrays with `nb` baselines, `ne` elevations and `na` azimuths. */
  predicate InBounds(x: Batch, nb: nat, ne: nat, na: nat)
    requires Aligned(x)
  {
    (forall j :: 0 <= j < |x.time| ==> 0 <= x.time[j] < HOURS && 0 <= x.el[j] < ne && 0 <= x.az[j] < na) &&
    (forall i :: 0 <= i < |x.bl| ==> 0 <= x.bl[i] < nb)
  }

  /** Dump `j` and baseline position `i` land in voxel `v` (whatever the channel). */
  predicate Hit(x: Batch, j: nat, i: nat, v: Voxel)
    requires Aligned(x) && j < |x.time| && i < |x.bl|
  {
    x.time[j] == v.t && x.bl[i] == v.b && x.el[j] == v.e && x.az[j] == v.a
  }

  /** What one visit adds: the flag as 0 or 1 for `Master`, 1 for `Counter`. */
  function Weight(x: Batch, j: nat, k: nat, i: nat, flagged: bool): nat
    requires Aligned(x) && j < |x.time| && k < NCHAN && i < |x.bl|
  {
    if !flagged || x.flags[j][k][i] then 1 else 0
  }

  predicate InChannels(v: Voxel) {
    0 <= v.k < NCHAN
  }

  /** What the dumps `lo .. hi-1` of baseline position `i` add to voxel `v`. */
  function SumJ(x: Batch, v: Voxel, i: nat, lo: nat, hi: nat, flagged: bool): nat
    requires Aligned(x) && InChannels(v) && i < |x.bl| && lo <= hi <= |x.time|
    decreases hi - lo
  {
    if lo == hi then 0
    else SumJ(x, v, i, lo, hi - 1, flagged) + (if Hit(x, hi - 1, i, v) then Weight(x, hi - 1, v.k, i, flagged) else 0)
  }

  /** What the dumps `lo .. hi-1` of the baseline positions `0 .. n-1` add to voxel `v`. */
  function SumI(x: Batch, v: Voxel, n: nat, lo: nat, hi: nat, flagged: bool): nat
    requires Aligned(x) && InChannels(v) && n <= |x.bl| && lo <= hi <= |x.time|
  {
    if n == 0 then 0 else SumI(x, v, n - 1, lo, hi, flagged) + SumJ(x, v, n - 1, lo, hi, flagged)
  }

  /** What one call adds to voxel `v` before wrap-around: flagged visits for `Master`, all visits for `Counter`. */
  function Increment(x: Batch, v: Voxel, flagged: bool): nat
    requires Aligned(x) && InChannels(v)
  {
    SumI(x, v, |x.bl|, 0, |x.time|, flagged)
  }

  /** Splitting the dumps at `mid` splits the sum. */
  lemma {:induction false} SumJSplit(x: Batch, v: Voxel, i: nat, lo: nat, mid: nat, hi: nat, flagged: bool)
    requires Aligned(x) && InChannels(v) && i < |x.bl| && lo <= mid <= hi <= |x.time|
    ensures SumJ(x, v, i, lo, hi, flagged) == SumJ(x, v, i, lo, mid, flagged) + SumJ(x, v, i, mid, hi, flagged)
    decreases hi
  {
    if hi > mid {
      SumJSplit(x, v, i, lo, mid, hi - 1, flagged);
    }
  }

  /** Splitting the dumps at `mid` splits the sum over all baselines. */
  lemma {:induction false} SumISplit(x: Batch, v: Voxel, n: nat, lo: nat, mid: nat, hi: nat, flagged: bool)
    requires Aligned(x) && InChannels(v) && n <= |x.bl| && lo <= mid <= hi <= |x.time|
    ensures SumI(x, v, n, lo, hi, flagged) == SumI(x, v, n, lo, mid, flagged) + SumI(x, v, n, mid, hi, flagged)
  {
    if n > 0 {
      SumISplit(x, v, n - 1, lo, mid, hi, flagged);
      SumJSplit(x, v, n - 1, lo, mid, hi, flagged);
    }
  }

  /** A flagged visit is a visit: `Master` never gains more than `Counter`. */
  lemma {:induction false} SumJFlaggedAtMost(x: Batch, v: Voxel, i: nat, lo: nat, hi: nat)
    requires Aligned(x) && InChannels(v) && i < |x.bl| && lo <= hi <= |x.time|
    ensures SumJ(x, v, i, lo, hi, true) <= SumJ(x, v, i, lo, hi, false)
    decreases hi - lo
  {
    if lo < hi {
      SumJFlaggedAtMost(x, v, i, lo, hi - 1);
    }
  }

  lemma {:induction false} SumIFlaggedAtMost(x: Batch, v: Voxel, n: nat, lo: nat, hi: nat)
    requires Aligned(x) && InChannels(v) && n <= |x.bl| && lo <= hi <= |x.time|
    ensures SumI(x, v, n, lo, hi, true) <= SumI(x, v, n, lo, hi, false)
  {
    if n > 0 {
      SumIFlaggedAtMost(x, v, n - 1, lo, hi);
      SumJFlaggedAtMost(x, v, n - 1, lo, hi);
    }
  }

  lemma FlaggedAtMostVisits(x: Batch, v: Voxel)
    requires Aligned(x) && InChannels(v)
    ensures Increment(x, v, true) <= Increment(x, v, false)
  {
    SumIFlaggedAtMost(x, v, |x.bl|, 0, |x.time|);
  }

  /** Some dump of `lo .. hi-1` and baseline position below `n` land in `v`. */
  ghost predicate Visited(x: Batch, v: Voxel, n: nat, lo: nat, hi: nat)
    requires Aligned(x) && n <= |x.bl| && lo <= hi <= |x.time|
  {
    exists j: nat, i: nat :: lo <= j < hi && i < n && Hit(x, j, i, v)
  }

  lemma {:induction false} SumJVisited(x: Batch, v: Voxel, i: nat, lo: nat, hi: nat)
    requires Aligned(x) && InChannels(v) && i < |x.bl| && lo <= hi <= |x.time|
    ensures SumJ(x, v, i, lo, hi, false) > 0 <==> exists j: nat :: lo <= j < hi && Hit(x, j, i, v)
    decreases hi - lo
  {
    if lo < hi {
      SumJVisited(x, v, i, lo, hi - 1);
    }
  }

  lemma {:induction false} SumIVisited(x: Batch, v: Voxel, n: nat, lo: nat, hi: nat)
    requires Aligned(x) && InChannels(v) && n <= |x.bl| && lo <= hi <= |x.time|
    ensures SumI(x, v, n, lo, hi, false) > 0 <==> Visited(x, v, n, lo, hi)
  {
    if n > 0 {
      SumIVisited(x, v, n - 1, lo, hi);
      SumJVisited(x, v, n - 1, lo, hi);
      if Visited(x, v, n, lo, hi) {
        var j: nat, i: nat :| lo <= j < hi && i < n && Hit(x, j, i, v);
        if i < n - 1 {
          assert Visited(x, v, n - 1, lo, hi);
        }
      }
      if Visited(x, v, n - 1, lo, hi) {
        var j: nat, i: nat :| lo <= j < hi && i < n - 1 && Hit(x, j, i, v);
        assert Visited(x, v, n, lo, hi);
      }
    }
  }

  /** `Counter` gains something at `v` exactly when some dump and baseline of the chunk land in `v`; otherwise neither array changes there. */
  lemma CountedIffVisited(x: Batch, v: Voxel)
    requires Aligned(x) && InChannels(v)
    ensures Increment(x, v, false) > 0 <==> Visited(x, v, |x.bl|, 0, |x.time|)
    ensures !Visited(x, v, |x.bl|, 0, |x.time|) ==> Increment(x, v, true) == 0
  {
    SumIVisited(x, v, |x.bl|, 0, |x.time|);
    FlaggedAtMostVisits(x, v);
  }

  /** Channel `k` is flagged on every baseline of every dump. */
  predicate AllFlagged(x: Batch, k: nat)
    requires Aligned(x) && k < NCHAN
  {
    forall j, i :: 0 <= j < |x.time| && 0 <= i < |x.bl| ==> x.flags[j][k][i]
  }

  lemma {:induction false} SumJAllFlagged(x: Batch, v: Voxel, i: nat, lo: nat, hi: nat)
    requires Aligned(x) && InChannels(v) && i < |x.bl| && lo <= hi <= |x.time| && AllFlagged(x, v.k)
    ensures SumJ(x, v, i, lo, hi, true) == SumJ(x, v, i, lo, hi, false)
    decreases hi - lo
  {
    if lo < hi {
      SumJAllFlagged(x, v, i, lo, hi - 1);
    }
  }

  lemma {:induction false} SumIAllFlagged(x: Batch, v: Voxel, n: nat, lo: nat, hi: nat)
    requires Aligned(x) && InChannels(v) && n <= |x.bl| && lo <= hi <= |x.time| && AllFlagged(x, v.k)
    ensures SumI(x, v, n, lo, hi, true) == SumI(x, v, n, lo, hi, false)
  {
    if n > 0 {
      SumIAllFlagged(x, v, n - 1, lo, hi);
      SumJAllFlagged(x, v, n - 1, lo, hi);
    }
  }

  /** A channel flagged throughout gains as much in `Master` as in `Counter`. */
  lemma FullyFlaggedChannel(x: Batch, v: Voxel)
    requires Aligned(x) && InChannels(v) && AllFlagged(x, v.k)
    ensures Increment(x, v, true) == Increment(x, v, false)
  {
    SumIAllFlagged(x, v, |x.bl|, 0, |x.time|);
  }

  /** Channel `k` is flagged nowhere. */
  predicate NoneFlagged(x: Batch, k: nat)
    requires Aligned(x) && k < NCHAN
  {
    forall j, i :: 0 <= j < |x.time| && 0 <= i < |x.bl| ==> !x.flags[j][k][i]
  }

  lemma {:induction false} SumJNoneFlagged(x: Batch, v: Voxel, i: nat, lo: nat, hi: nat)
    requires Aligned(x) && InChannels(v) && i < |x.bl| && lo <= hi <= |x.time| && NoneFlagged(x, v.k)
    ensures SumJ(x, v, i, lo, hi, true) == 0
    decreases hi - lo
  {
    if lo < hi {
      SumJNoneFlagged(x, v, i, lo, hi - 1);
    }
  }

  lemma {:induction false} SumINoneFlagged(x: Batch, v: Voxel, n: nat, lo: nat, hi: nat)
    requires Aligned(x) && InChannels(v) && n <= |x.bl| && lo <= hi <= |x.time| && NoneFlagged(x, v.k)
    ensures SumI(x, v, n, lo, hi, true) == 0
  {
    if n > 0 {
      SumINoneFlagged(x, v, n - 1, lo, hi);
      SumJNoneFlagged(x, v, n - 1, lo, hi);
    }
  }

  /** A channel never flagged leaves `Master` unchanged. */
  lemma CleanChannel(x: Batch, v: Voxel)
    requires Aligned(x) && InChannels(v) && NoneFlagged(x, v.k)
    ensures Increment(x, v, true) == 0
  {
    SumINoneFlagged(x, v, |x.bl|, 0, |x.time|);
  }

  /**
   * The occupancy `Master / Counter` stays a fraction: a voxel whose
   * flagged count was at most its visit count keeps that property while
   * the visit count does not wrap.
   */
  lemma MasterWithinCounter(x: Batch, v: Voxel, m0: u16, c0: u16)
    requires Aligned(x) && InChannels(v)
    requires m0 <= c0 && c0 + Increment(x, v, false) < WRAP
    ensures Wrap(m0 + Increment(x, v, true)) <= Wrap(c0 + Increment(x, v, false))
  {
    FlaggedAtMostVisits(x, v);
  }

  /** The `uint16` store. */
  function Wrap(n: int): u16 {
    n % WRAP
  }

  lemma WrapAdd(n: int, d: int)
    ensures Wrap(Wrap(n) + d) == Wrap(n + d)
  {
  }

  /** The voxel the kernel writes at dump `j`, channel `k`, baseline position `i`. */
  function Target(x: Batch, j: nat, k: nat, i: nat): Voxel
    requires Aligned(x) && j < |x.time| && i < |x.bl|
  {
    Voxel(x.time[j], k, x.bl[i], x.el[j], x.az[j])
  }

  /** The arrays the kernel expects: `[24, 4096, nb, ne, na]`, both of the same shape. */
  predicate Shaped(master: array5<u16>, counter: array5<u16>)
    reads {}
  {
    master.Length0 == HOURS && master.Length1 == NCHAN &&
    counter.Length0 == HOURS && counter.Length1 == NCHAN &&
    counter.Length2 == master.Length2 && counter.Length3 == master.Length3 && counter.Length4 == master.Length4
  }

  /** Voxel `v` is one of the arrays' cells. */
  predicate InArrays(master: array5<u16>, v: Voxel)
    reads {}
  {
    0 <= v.t < master.Length0 && 0 <= v.k < master.Length1 && 0 <= v.b < master.Length2 &&
    0 <= v.e < master.Length3 && 0 <= v.a < master.Length4
  }

  /** The count stored in voxel `v`. */
  function Cell(m: array5<u16>, v: Voxel): u16
    reads m
    requires InArrays(m, v)
  {
    m[v.t, v.k, v.b, v.e, v.a]
  }

  /** What visit `(j, k, i)` adds to `v`. */
  function Delta(x: Batch, v: Voxel, k: nat, i: nat, j: nat, flagged: bool): nat
    requires Aligned(x) && k < NCHAN && i < |x.bl| && j < |x.time|
  {
    if v == Target(x, j, k, i) then Weight(x, j, k, i, flagged) else 0
  }

  /** What the first `j` dumps of channel `k` and baseline position `i` add to `v`. */
  function BaselinePart(x: Batch, v: Voxel, k: nat, i: nat, j: nat, flagged: bool): nat
    requires Aligned(x) && InChannels(v) && i < |x.bl| && j <= |x.time|
  {
    if v.k == k then SumJ(x, v, i, 0, j, flagged) else 0
  }

  /** What the first `i` baseline positions of channel `k` add to `v`. */
  function ChannelPart(x: Batch, v: Voxel, k: nat, i: nat, flagged: bool): nat
    requires Aligned(x) && InChannels(v) && i <= |x.bl|
  {
    if v.k == k then SumI(x, v, i, 0, |x.time|, flagged) else 0
  }

  /** What the channels `lo .. hi-1` add to `v`. */
  function BlockPart(x: Batch, v: Voxel, lo: nat, hi: nat, flagged: bool): nat
    requires Aligned(x) && InChannels(v)
  {
    if lo <= v.k < hi then Increment(x, v, flagged) else 0
  }

  lemma BaselinePartStep(x: Batch, v: Voxel, k: nat, i: nat, j: nat, flagged: bool)
    requires Aligned(x) && InChannels(v) && k < NCHAN && i < |x.bl| && j < |x.time|
    ensures BaselinePart(x, v, k, i, j + 1, flagged) == BaselinePart(x, v, k, i, j, flagged) + Delta(x, v, k, i, j, flagged)
  {
  }

  lemma ChannelPartStep(x: Batch, v: Voxel, k: nat, i: nat, flagged: bool)
    requires Aligned(x) && InChannels(v) && i < |x.bl|
    ensures ChannelPart(x, v, k, i + 1, flagged) == ChannelPart(x, v, k, i, flagged) + BaselinePart(x, v, k, i, |x.time|, flagged)
  {
  }

  lemma BlockPartStep(x: Batch, v: Voxel, lo: nat, k: nat, flagged: bool)
    requires Aligned(x) && InChannels(v) && lo <= k
    ensures BlockPart(x, v, lo, k + 1, flagged) == BlockPart(x, v, lo, k, flagged) + ChannelPart(x, v, k, |x.bl|, flagged)
  {
  }

  lemma BlockPartSplit(x: Batch, v: Voxel, lo: nat, mid: nat, hi: nat, flagged: bool)
    requires Aligned(x) && InChannels(v) && lo <= mid <= hi
    ensures BlockPart(x, v, lo, hi, flagged) == BlockPart(x, v, lo, mid, flagged) + BlockPart(x, v, mid, hi, flagged)
  {
  }

  /** Two successive `uint16` stores are one store of the sum. */
  lemma WrapStep(cur: int, mid: int, o: int, p: nat, d: nat, q: nat)
    requires mid == Wrap(o + p) && cur == Wrap(mid + d) && q == p + d
    ensures cur == Wrap(o + q)
  {
    WrapAdd(o + p, d);
  }

  /** A voxel holding its first `j` dumps' visits holds `j + 1` after the `+=` of dump `j`. */
  lemma BaselineStepAt(x: Batch, v: Voxel, k: nat, i: nat, j: nat, cur: int, mid: int, o: int, flagged: bool)
    requires Aligned(x) && InChannels(v) && k < NCHAN && i < |x.bl| && j < |x.time|
    requires mid == Wrap(o + BaselinePart(x, v, k, i, j, flagged)) && cur == Wrap(mid + Delta(x, v, k, i, j, flagged))
    ensures cur == Wrap(o + BaselinePart(x, v, k, i, j + 1, flagged))
  {
    BaselinePartStep(x, v, k, i, j, flagged);
    WrapStep(cur, mid, o, BaselinePart(x, v, k, i, j, flagged), Delta(x, v, k, i, j, flagged), BaselinePart(x, v, k, i, j + 1, flagged));
  }

  /** A voxel holding its first `i` baselines' visits holds `i + 1` after the dump loop of baseline `i`. */
  lemma ChannelStepAt(x: Batch, v: Voxel, k: nat, i: nat, cur: int, mid: int, o: int, flagged: bool)
    requires Aligned(x) && InChannels(v) && i < |x.bl|
    requires mid == Wrap(o + ChannelPart(x, v, k, i, flagged)) && cur == Wrap(mid + BaselinePart(x, v, k, i, |x.time|, flagged))
    ensures cur == Wrap(o + ChannelPart(x, v, k, i + 1, flagged))
  {
    ChannelPartStep(x, v, k, i, flagged);
    WrapStep(cur, mid, o, ChannelPart(x, v, k, i, flagged), BaselinePart(x, v, k, i, |x.time|, flagged), ChannelPart(x, v, k, i + 1, flagged));
  }

  /** A voxel holding the visits of channels `lo .. k-1` holds `lo .. k` after channel `k`. */
  lemma BlockStepAt(x: Batch, v: Voxel, lo: nat, k: nat, cur: int, mid: int, o: int, flagged: bool)
    requires Aligned(x) && InChannels(v) && lo <= k
    requires mid == Wrap(o + BlockPart(x, v, lo, k, flagged)) && cur == Wrap(mid + ChannelPart(x, v, k, |x.bl|, flagged))
    ensures cur == Wrap(o + BlockPart(x, v, lo, k + 1, flagged))
  {
    BlockPartStep(x, v, lo, k, flagged);
    WrapStep(cur, mid, o, BlockPart(x, v, lo, k, flagged), ChannelPart(x, v, k, |x.bl|, flagged), BlockPart(x, v, lo, k + 1, flagged));
  }

  /** A voxel holding the visits of the channels below `mid` holds those below `hi` after the block `mid .. hi-1`. */
  lemma BlockSplitAt(x: Batch, v: Voxel, mid: nat, hi: nat, cur: int, before: int, o: int, flagged: bool)
    requires Aligned(x) && InChannels(v) && mid <= hi
    requires before == Wrap(o + BlockPart(x, v, 0, mid, flagged)) && cur == Wrap(before + BlockPart(x, v, mid, hi, flagged))
    ensures cur == Wrap(o + BlockPart(x, v, 0, hi, flagged))
  {
    BlockPartSplit(x, v, 0, mid, hi, flagged);
    WrapStep(cur, before, o, BlockPart(x, v, 0, mid, flagged), BlockPart(x, v, mid, hi, flagged), BlockPart(x, v, 0, hi, flagged));
  }

  /**
   * `update_arrays`: every voxel of `Master` gains its flagged visits and
   * every voxel of `Counter` all its visits, modulo 65536.
   */
  method UpdateArrays(timeIdx: seq<int>, blIdx: seq<int>, elIdx: seq<int>, azIdx: seq<int>,
                      goodFlags: seq<seq<seq<bool>>>, master: array5<u16>, counter: array5<u16>)
    requires master != counter && Shaped(master, counter)
    requires Aligned(Batch(timeIdx, blIdx, elIdx, azIdx, goodFlags))
    requires InBounds(Batch(timeIdx, blIdx, elIdx, azIdx, goodFlags), master.Length2, master.Length3, master.Length4)
    modifies master, counter
    ensures forall v: Voxel {:trigger Cell(master, v)} | InArrays(master, v) ::
              Cell(master, v) == Wrap(old(Cell(master, v)) + Increment(Batch(timeIdx, blIdx, elIdx, azIdx, goodFlags), v, true))
    ensures forall v: Voxel {:trigger Cell(counter, v)} | InArrays(counter, v) ::
              Cell(counter, v) == Wrap(old(Cell(counter, v)) + Increment(Batch(timeIdx, blIdx, elIdx, azIdx, goodFlags), v, false))
  {
    var x := Batch(timeIdx, blIdx, elIdx, azIdx, goodFlags);
    var cstep := CSTEP;
    var cblocks := (NCHAN + cstep - 1) / cstep;
    for cblock := 0 to cblocks
      invariant cblock * cstep <= NCHAN
      invariant forall v: Voxel {:trigger Cell(master, v)} | InArrays(master, v) ::
                  Cell(master, v) == Wrap(old(Cell(master, v)) + BlockPart(x, v, 0, cblock * cstep, true))
      invariant forall v: Voxel {:trigger Cell(counter, v)} | InArrays(counter, v) ::
                  Cell(counter, v) == Wrap(old(Cell(counter, v)) + BlockPart(x, v, 0, cblock * cstep, false))
    {
      var cStart := cblock * cstep;
      var cEnd := if NCHAN < cStart + cstep then NCHAN else cStart + cstep;
      assert cEnd == (cblock + 1) * cstep;
      label before:
      UpdateBlock(x, master, counter, cStart, cEnd);
      forall v: Voxel {:trigger Cell(master, v)} | InArrays(master, v)
        ensures Cell(master, v) == Wrap(old(Cell(master, v)) + BlockPart(x, v, 0, cEnd, true))
      {
        BlockSplitAt(x, v, cStart, cEnd, Cell(master, v), old@before(Cell(master, v)), old(Cell(master, v)), true);
      }
      forall v: Voxel {:trigger Cell(counter, v)} | InArrays(counter, v)
        ensures Cell(counter, v) == Wrap(old(Cell(counter, v)) + BlockPart(x, v, 0, cEnd, false))
      {
        BlockSplitAt(x, v, cStart, cEnd, Cell(counter, v), old@before(Cell(counter, v)), old(Cell(counter, v)), false);
      }
    }
  }

  /** One block of the `prange` loop: the channels `cStart .. cEnd-1` gain their visits, no other channel changes. */
  method UpdateBlock(x: Batch, master: array5<u16>, counter: array5<u16>, cStart: nat, cEnd: nat)
    requires master != counter && Shaped(master, counter)
    requires Aligned(x) && InBounds(x, master.Length2, master.Length3, master.Length4)
    requires cStart <= cEnd <= NCHAN
    modifies master, counter
    ensures forall v: Voxel {:trigger Cell(master, v)} | InArrays(master, v) ::
              Cell(master, v) == Wrap(old(Cell(master, v)) + BlockPart(x, v, cStart, cEnd, true))
    ensures forall v: Voxel {:trigger Cell(counter, v)} | InArrays(counter, v) ::
              Cell(counter, v) == Wrap(old(Cell(counter, v)) + BlockPart(x, v, cStart, cEnd, false))
  {
    for k := cStart to cEnd
      invariant forall v: Voxel {:trigger Cell(master, v)} | InArrays(master, v) ::
                  Cell(master, v) == Wrap(old(Cell(master, v)) + BlockPart(x, v, cStart, k, true))
      invariant forall v: Voxel {:trigger Cell(counter, v)} | InArrays(counter, v) ::
                  Cell(counter, v) == Wrap(old(Cell(counter, v)) + BlockPart(x, v, cStart, k, false))
    {
      label before:
      UpdateChannel(x, master, counter, k);
      forall v: Voxel {:trigger Cell(master, v)} | InArrays(master, v)
        ensures Cell(master, v) == Wrap(old(Cell(master, v)) + BlockPart(x, v, cStart, k + 1, true))
      {
        BlockStepAt(x, v, cStart, k, Cell(master, v), old@before(Cell(master, v)), old(Cell(master, v)), true);
      }
      forall v: Voxel {:trigger Cell(counter, v)} | InArrays(counter, v)
        ensures Cell(counter, v) == Wrap(old(Cell(counter, v)) + BlockPart(x, v, cStart, k + 1, false))
      {
        BlockStepAt(x, v, cStart, k, Cell(counter, v), old@before(Cell(counter, v)), old(Cell(counter, v)), false);
      }
    }
  }

  /** The baseline and dump loops for channel `k`: the voxels of channel `k` gain their visits, no other voxel changes. */
  method UpdateChannel(x: Batch, master: array5<u16>, counter: array5<u16>, k: nat)
    requires master != counter && Shaped(master, counter)
    requires Aligned(x) && InBounds(x, master.Length2, master.Length3, master.Length4)
    requires k < NCHAN
    modifies master, counter
    ensures forall v: Voxel {:trigger Cell(master, v)} | InArrays(master, v) ::
              Cell(master, v) == Wrap(old(Cell(master, v)) + ChannelPart(x, v, k, |x.bl|, true))
    ensures forall v: Voxel {:trigger Cell(counter, v)} | InArrays(counter, v) ::
              Cell(counter, v) == Wrap(old(Cell(counter, v)) + ChannelPart(x, v, k, |x.bl|, false))
  {
    for i := 0 to |x.bl|
      invariant forall v: Voxel {:trigger Cell(master, v)} | InArrays(master, v) ::
                  Cell(master, v) == Wrap(old(Cell(master, v)) + ChannelPart(x, v, k, i, true))
      invariant forall v: Voxel {:trigger Cell(counter, v)} | InArrays(counter, v) ::
                  Cell(counter, v) == Wrap(old(Cell(counter, v)) + ChannelPart(x, v, k, i, false))
    {
      label before:
      UpdateBaseline(x, master, counter, k, i);
      forall v: Voxel {:trigger Cell(master, v)} | InArrays(master, v)
        ensures Cell(master, v) == Wrap(old(Cell(master, v)) + ChannelPart(x, v, k, i + 1, true))
      {
        ChannelStepAt(x, v, k, i, Cell(master, v), old@before(Cell(master, v)), old(Cell(master, v)), true);
      }
      forall v: Voxel {:trigger Cell(counter, v)} | InArrays(counter, v)
        ensures Cell(counter, v) == Wrap(old(Cell(counter, v)) + ChannelPart(x, v, k, i + 1, false))
      {
        ChannelStepAt(x, v, k, i, Cell(counter, v), old@before(Cell(counter, v)), old(Cell(counter, v)), false);
      }
    }
  }

  /** The dump loop for channel `k` and baseline position `i`. */
  method UpdateBaseline(x: Batch, master: array5<u16>, counter: array5<u16>, k: nat, i: nat)
    requires master != counter && Shaped(master, counter)
    requires Aligned(x) && InBounds(x, master.Length2, master.Length3, master.Length4)
    requires k < NCHAN && i < |x.bl|
    modifies master, counter
    ensures forall v: Voxel {:trigger Cell(master, v)} | InArrays(master, v) ::
              Cell(master, v) == Wrap(old(Cell(master, v)) + BaselinePart(x, v, k, i, |x.time|, true))
    ensures forall v: Voxel {:trigger Cell(counter, v)} | InArrays(counter, v) ::
              Cell(counter, v) == Wrap(old(Cell(counter, v)) + BaselinePart(x, v, k, i, |x.time|, false))
  {
    for j := 0 to |x.time|
      invariant forall v: Voxel {:trigger Cell(master, v)} | InArrays(master, v) ::
                  Cell(master, v) == Wrap(old(Cell(master, v)) + BaselinePart(x, v, k, i, j, true))
      invariant forall v: Voxel {:trigger Cell(counter, v)} | InArrays(counter, v) ::
                  Cell(counter, v) == Wrap(old(Cell(counter, v)) + BaselinePart(x, v, k, i, j, false))
    {
      label before:
      UpdateVoxel(x, master, counter, k, i, j);
      forall v: Voxel {:trigger Cell(master, v)} | InArrays(master, v)
        ensures Cell(master, v) == Wrap(old(Cell(master, v)) + BaselinePart(x, v, k, i, j + 1, true))
      {
        BaselineStepAt(x, v, k, i, j, Cell(master, v), old@before(Cell(master, v)), old(Cell(master, v)), true);
      }
      forall v: Voxel {:trigger Cell(counter, v)} | InArrays(counter, v)
        ensures Cell(counter, v) == Wrap(old(Cell(counter, v)) + BaselinePart(x, v, k, i, j + 1, false))
      {
        BaselineStepAt(x, v, k, i, j, Cell(counter, v), old@before(Cell(counter, v)), old(Cell(counter, v)), false);
      }
    }
  }

  /** The body of the innermost loop: one `+=` on each array. */
  method UpdateVoxel(x: Batch, master: array5<u16>, counter: array5<u16>, k: nat, i: nat, j: nat)
    requires master != counter && Shaped(master, counter)
    requires Aligned(x) && InBounds(x, master.Length2, master.Length3, master.Length4)
    requires k < NCHAN && i < |x.bl| && j < |x.time|
    modifies master, counter
    ensures forall v: Voxel {:trigger Cell(master, v)} | InArrays(master, v) ::
              Cell(master, v) == Wrap(old(Cell(master, v)) + Delta(x, v, k, i, j, true))
    ensures forall v: Voxel {:trigger Cell(counter, v)} | InArrays(counter, v) ::
              Cell(counter, v) == Wrap(old(Cell(counter, v)) + Delta(x, v, k, i, j, false))
  {
    var t0, b0, e0, a0 := x.time[j], x.bl[i], x.el[j], x.az[j];
    master[t0, k, b0, e0, a0] := Wrap(master[t0, k, b0, e0, a0] + (if x.flags[j][k][i] then 1 else 0));
    counter[t0, k, b0, e0, a0] := Wrap(counter[t0, k, b0, e0, a0] + 1);
  }
}
