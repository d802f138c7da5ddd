/**
 * The per-file driver: once the indices of a file are known, the dumps are
 * fed to the kernel in chunks of eight (`for tm in range(0, ntime, 8)`),
 * each chunk being the slice `[tm : tm + 8]` of the time, elevation and
 * azimuth indices and of the flags, while the baseline indices stay whole.
 */
module Driver {
  import opened Histogram

  function Min(a: nat, b: nat): nat {
    if a <= b then a else b
  }

  /** Python's `s[lo : hi]` for `0 <= lo <= hi`: both ends are clamped to the length. */
  function Slice<T>(s: seq<T>, lo: nat, hi: nat): (r: seq<T>)
    requires lo <= hi
    ensures |r| == Min(hi, |s|) - Min(lo, |s|)
    ensures forall n :: 0 <= n < |r| ==> r[n] == s[lo + n]
  {
    s[Min(lo, |s|)..Min(hi, |s|)]
  }

  /** The arguments of the kernel call for the dumps `lo .. hi-1`. */
  function Chunk(x: Batch, lo: nat, hi: nat): Batch
    requires lo <= hi
  {
    Batch(Slice(x.time, lo, hi), x.bl, Slice(x.el, lo, hi), Slice(x.az, lo, hi), Slice(x.flags, lo, hi))
  }

  /** A chunk of well-formed arguments is well-formed, and its indices stay in bounds. */
  lemma ChunkWellFormed(x: Batch, lo: nat, hi: nat, nb: nat, ne: nat, na: nat)
    requires lo <= hi && Aligned(x)
    ensures Aligned(Chunk(x, lo, hi))
    ensures InBounds(x, nb, ne, na) ==> InBounds(Chunk(x, lo, hi), nb, ne, na)
  {
  }

  /** The dump sums of a chunk are the sums over its range of the whole file. */
  lemma {:induction false} ChunkSumJ(x: Batch, v: Voxel, i: nat, lo: nat, hi: nat, m: nat, flagged: bool)
    requires lo <= hi && lo <= |x.time| && Aligned(x) && InChannels(v) && i < |x.bl|
    requires m <= |Chunk(x, lo, hi).time|
    ensures Aligned(Chunk(x, lo, hi)) && lo + m <= |x.time|
    ensures SumJ(Chunk(x, lo, hi), v, i, 0, m, flagged) == SumJ(x, v, i, lo, lo + m, flagged)
  {
    ChunkWellFormed(x, lo, hi, 0, 0, 0);
    if m > 0 {
      ChunkSumJ(x, v, i, lo, hi, m - 1, flagged);
    }
  }

  lemma {:induction false} ChunkSumI(x: Batch, v: Voxel, n: nat, lo: nat, hi: nat, flagged: bool)
    requires lo <= hi && Aligned(x) && InChannels(v) && n <= |x.bl|
    ensures Aligned(Chunk(x, lo, hi))
    ensures SumI(Chunk(x, lo, hi), v, n, 0, |Chunk(x, lo, hi).time|, flagged) ==
            SumI(x, v, n, Min(lo, |x.time|), Min(hi, |x.time|), flagged)
  {
    ChunkWellFormed(x, lo, hi, 0, 0, 0);
    if lo >= |x.time| {
      SumIEmpty(Chunk(x, lo, hi), v, n, 0, flagged);
      SumIEmpty(x, v, n, |x.time|, flagged);
    } else if n > 0 {
      ChunkSumI(x, v, n - 1, lo, hi, flagged);
      ChunkSumJ(x, v, n - 1, lo, hi, |Chunk(x, lo, hi).time|, flagged);
    }
  }

  /** What the kernel adds for one chunk is the file's sum over the chunk's dumps. */
  lemma ChunkIncrement(x: Batch, v: Voxel, lo: nat, hi: nat, flagged: bool)
    requires lo <= hi && Aligned(x) && InChannels(v)
    ensures Aligned(Chunk(x, lo, hi))
    ensures Increment(Chunk(x, lo, hi), v, flagged) == SumI(x, v, |x.bl|, Min(lo, |x.time|), Min(hi, |x.time|), flagged)
  {
    ChunkSumI(x, v, |x.bl|, lo, hi, flagged);
  }

  lemma {:induction false} SumIEmpty(x: Batch, v: Voxel, n: nat, lo: nat, flagged: bool)
    requires Aligned(x) && InChannels(v) && n <= |x.bl| && lo <= |x.time|
    ensures SumI(x, v, n, lo, lo, flagged) == 0
  {
    if n > 0 {
      SumIEmpty(x, v, n - 1, lo, flagged);
    }
  }

  /** What the dumps before `tm` add to `v`. */
  function Done(x: Batch, v: Voxel, tm: nat, flagged: bool): nat
    requires Aligned(x) && InChannels(v)
  {
    SumI(x, v, |x.bl|, 0, Min(tm, |x.time|), flagged)
  }

  /** The contents of `a`, voxel by voxel. */
  ghost function Snapshot(a: array5<u16>): (r: imap<Voxel, u16>)
    reads a
    ensures forall v: Voxel {:trigger Cell(a, v)} | InArrays(a, v) :: v in r && r[v] == Cell(a, v)
  {
    imap v: Voxel | InArrays(a, v) :: Cell(a, v)
  }

  /** Voxel `v` of `a` holds its snapshot value `a0[v]` plus what the dumps before `tm` add to it. */
  ghost predicate AccumulatedAt(x: Batch, a: array5<u16>, a0: imap<Voxel, u16>, v: Voxel, tm: nat, flagged: bool)
    reads a
    requires Aligned(x) && a.Length1 == NCHAN && InArrays(a, v)
  {
    v in a0 && Cell(a, v) == Wrap(a0[v] + Done(x, v, tm, flagged))
  }

  /** The array `a` holds its snapshot `a0` plus everything the dumps before `tm` add to it. */
  ghost predicate Accumulated(x: Batch, a: array5<u16>, a0: imap<Voxel, u16>, tm: nat, flagged: bool)
    reads a
    requires Aligned(x) && a.Length1 == NCHAN
  {
    forall v: Voxel {:trigger AccumulatedAt(x, a, a0, v, tm, flagged)} | InArrays(a, v) :: AccumulatedAt(x, a, a0, v, tm, flagged)
  }

  /** Before the first chunk the array holds exactly its snapshot. */
  lemma AccumulatedStart(x: Batch, a: array5<u16>, flagged: bool)
    requires Aligned(x) && a.Length1 == NCHAN
    ensures Accumulated(x, a, Snapshot(a), 0, flagged)
  {
    forall v: Voxel | InArrays(a, v)
      ensures AccumulatedAt(x, a, Snapshot(a), v, 0, flagged)
    {
      SumIEmpty(x, v, |x.bl|, 0, flagged);
      assert Wrap(Cell(a, v) + 0) == Cell(a, v);
    }
  }

  /** Entry `v` of a map `m` holds `a0[v]` plus what the dumps before `tm` add to it. */
  ghost predicate HeldAt(x: Batch, m: imap<Voxel, u16>, a0: imap<Voxel, u16>, v: Voxel, tm: nat, flagged: bool)
    requires Aligned(x) && InChannels(v)
  {
    v in m && v in a0 && m[v] == Wrap(a0[v] + Done(x, v, tm, flagged))
  }

  /** What `Accumulated` says of `a`, stated of a snapshot `m` of `a`. */
  ghost predicate AccumulatedIn(x: Batch, a: array5<u16>, m: imap<Voxel, u16>, a0: imap<Voxel, u16>, tm: nat, flagged: bool)
    requires Aligned(x) && a.Length1 == NCHAN
  {
    forall v: Voxel {:trigger HeldAt(x, m, a0, v, tm, flagged)} | InArrays(a, v) :: HeldAt(x, m, a0, v, tm, flagged)
  }

  /** A snapshot of an array keeps what the array has accumulated. */
  lemma AccumulatedSnapshot(x: Batch, a: array5<u16>, a0: imap<Voxel, u16>, tm: nat, flagged: bool)
    requires Aligned(x) && a.Length1 == NCHAN
    requires Accumulated(x, a, a0, tm, flagged)
    ensures AccumulatedIn(x, a, Snapshot(a), a0, tm, flagged)
  {
    forall v: Voxel | InArrays(a, v)
      ensures HeldAt(x, Snapshot(a), a0, v, tm, flagged)
    {
      assert AccumulatedAt(x, a, a0, v, tm, flagged);
      assert Snapshot(a)[v] == Cell(a, v);
    }
  }

  /**
   * A kernel call on the chunk `lo .. hi-1`, applied to an array whose
   * snapshot `before` holds the dumps before `lo`, leaves it holding the
   * dumps before `hi`.
   */
  lemma AccumulatedStep(x: Batch, a: array5<u16>, before: imap<Voxel, u16>, a0: imap<Voxel, u16>, lo: nat, hi: nat, flagged: bool)
    requires Aligned(x) && a.Length1 == NCHAN && lo <= hi
    requires AccumulatedIn(x, a, before, a0, lo, flagged)
    requires forall v: Voxel {:trigger Cell(a, v)} | InArrays(a, v) ::
               v in before && Cell(a, v) == Wrap(before[v] + Increment(Chunk(x, lo, hi), v, flagged))
    ensures Accumulated(x, a, a0, hi, flagged)
  {
    forall v: Voxel | InArrays(a, v)
      ensures AccumulatedAt(x, a, a0, v, hi, flagged)
    {
      var c := Cell(a, v);
      assert v in before && c == Wrap(before[v] + Increment(Chunk(x, lo, hi), v, flagged));
      assert HeldAt(x, before, a0, v, lo, flagged);
      DoneStep(x, v, lo, hi, c, before[v], a0[v], flagged);
    }
  }

  /** One voxel of `AccumulatedStep`: the chunk's increment moves the dumps counted from `lo` to `hi`. */
  lemma DoneStep(x: Batch, v: Voxel, lo: nat, hi: nat, cur: int, mid: int, start: int, flagged: bool)
    requires Aligned(x) && InChannels(v) && lo <= hi
    requires mid == Wrap(start + Done(x, v, lo, flagged))
    requires Aligned(Chunk(x, lo, hi)) && cur == Wrap(mid + Increment(Chunk(x, lo, hi), v, flagged))
    ensures cur == Wrap(start + Done(x, v, hi, flagged))
  {
    var p, q := Min(lo, |x.time|), Min(hi, |x.time|);
    ChunkIncrement(x, v, lo, hi, flagged);
    SumISplit(x, v, |x.bl|, 0, p, q, flagged);
    WrapStep(cur, mid, start, SumI(x, v, |x.bl|, 0, p, flagged), SumI(x, v, |x.bl|, p, q, flagged), SumI(x, v, |x.bl|, 0, q, flagged));
  }

  /** Past the last dump, further chunks add nothing. */
  lemma AccumulatedPast(x: Batch, a: array5<u16>, a0: imap<Voxel, u16>, tm: nat, tm': nat, flagged: bool)
    requires Aligned(x) && a.Length1 == NCHAN && |x.time| <= tm && |x.time| <= tm'
    requires Accumulated(x, a, a0, tm, flagged)
    ensures Accumulated(x, a, a0, tm', flagged)
  {
    forall v: Voxel | InArrays(a, v) ensures AccumulatedAt(x, a, a0, v, tm', flagged) {
      assert AccumulatedAt(x, a, a0, v, tm, flagged);
      assert Min(tm, |x.time|) == Min(tm', |x.time|);
    }
  }

  /** Once `tm` has passed every dump, the array holds its starting contents plus the whole file's increment. */
  lemma AccumulatedEnd(x: Batch, a: array5<u16>, a0: imap<Voxel, u16>, tm: nat, flagged: bool)
    requires Aligned(x) && a.Length1 == NCHAN && |x.time| <= tm
    requires Accumulated(x, a, a0, tm, flagged)
    ensures forall v: Voxel {:trigger Cell(a, v)} | InArrays(a, v) ::
              v in a0 && Cell(a, v) == Wrap(a0[v] + Increment(x, v, flagged))
  {
    forall v: Voxel | InArrays(a, v) ensures v in a0 && Cell(a, v) == Wrap(a0[v] + Increment(x, v, flagged)) {
      assert AccumulatedAt(x, a, a0, v, tm, flagged);
      assert Min(tm, |x.time|) == |x.time|;
    }
  }

  /**
   * The chunk loop of one file: the arrays end up as after a single kernel
   * call over all dumps, so every dump is counted exactly once.
   */
  method AccumulateFile(x: Batch, master: array5<u16>, counter: array5<u16>)
    requires master != counter && Shaped(master, counter)
    requires Aligned(x) && InBounds(x, master.Length2, master.Length3, master.Length4)
    modifies master, counter
    ensures forall v: Voxel {:trigger Cell(master, v)} | InArrays(master, v) ::
              Cell(master, v) == Wrap(old(Cell(master, v)) + Increment(x, v, true))
    ensures forall v: Voxel {:trigger Cell(counter, v)} | InArrays(counter, v) ::
              Cell(counter, v) == Wrap(old(Cell(counter, v)) + Increment(x, v, false))
  {
    ghost var m0, c0 := Snapshot(master), Snapshot(counter);
    AccumulatedStart(x, master, true);
    AccumulatedStart(x, counter, false);
    AccumulateChunks(x, master, counter, m0, c0);
    AccumulatedEnd(x, master, m0, |x.flags|, true);
    AccumulatedEnd(x, counter, c0, |x.flags|, false);
  }

  /** `for tm in range(0, ntime, 8)`: the chunks in turn, until every dump has been handed to the kernel. */
  method AccumulateChunks(x: Batch, master: array5<u16>, counter: array5<u16>,
                          ghost m0: imap<Voxel, u16>, ghost c0: imap<Voxel, u16>)
    requires master != counter && Shaped(master, counter)
    requires Aligned(x) && InBounds(x, master.Length2, master.Length3, master.Length4)
    requires Accumulated(x, master, m0, 0, true) && Accumulated(x, counter, c0, 0, false)
    modifies master, counter
    ensures Accumulated(x, master, m0, |x.flags|, true) && Accumulated(x, counter, c0, |x.flags|, false)
  {
    var ntime := |x.flags|;
    var timeStep := 8;
    var tm: nat := 0;
    while tm < ntime
      invariant Accumulated(x, master, m0, tm, true) && Accumulated(x, counter, c0, tm, false)
      decreases ntime - tm
    {
      AccumulateChunk(x, master, counter, tm, tm + timeStep, m0, c0);
      tm := tm + timeStep;
    }
    AccumulatedPast(x, master, m0, tm, |x.flags|, true);
    AccumulatedPast(x, counter, c0, tm, |x.flags|, false);
  }

  /**
   * One pass of the chunk loop: the arrays after the chunk loop's body ran
   * with `tm == lo`, starting from the snapshots `m0`, `c0` plus the dumps
   * before `lo`, hold the snapshots plus the dumps before `hi`.
   */
  method AccumulateChunk(x: Batch, master: array5<u16>, counter: array5<u16>, lo: nat, hi: nat,
                         ghost m0: imap<Voxel, u16>, ghost c0: imap<Voxel, u16>)
    requires master != counter && Shaped(master, counter)
    requires Aligned(x) && InBounds(x, master.Length2, master.Length3, master.Length4) && lo <= hi
    requires Accumulated(x, master, m0, lo, true) && Accumulated(x, counter, c0, lo, false)
    modifies master, counter
    ensures Accumulated(x, master, m0, hi, true) && Accumulated(x, counter, c0, hi, false)
  {
    ghost var mb, cb := Snapshot(master), Snapshot(counter);
    AccumulatedSnapshot(x, master, m0, lo, true);
    AccumulatedSnapshot(x, counter, c0, lo, false);
    KernelChunk(x, master, counter, lo, hi);
    AccumulatedStep(x, master, mb, m0, lo, hi, true);
    AccumulatedStep(x, counter, cb, c0, lo, hi, false);
  }

  /** The slices `[lo : hi]` of the flags and the index arrays, handed to the kernel. */
  method KernelChunk(x: Batch, master: array5<u16>, counter: array5<u16>, lo: nat, hi: nat)
    requires master != counter && Shaped(master, counter)
    requires Aligned(x) && InBounds(x, master.Length2, master.Length3, master.Length4) && lo <= hi
    modifies master, counter
    ensures Aligned(Chunk(x, lo, hi))
    ensures forall v: Voxel {:trigger Cell(master, v)} | InArrays(master, v) ::
              Cell(master, v) == Wrap(old(Cell(master, v)) + Increment(Chunk(x, lo, hi), v, true))
    ensures forall v: Voxel {:trigger Cell(counter, v)} | InArrays(counter, v) ::
              Cell(counter, v) == Wrap(old(Cell(counter, v)) + Increment(Chunk(x, lo, hi), v, false))
  {
    var flagChunk := Slice(x.flags, lo, hi);
    var tmChunk := Slice(x.time, lo, hi);
    var elChunk := Slice(x.el, lo, hi);
    var azChunk := Slice(x.az, lo, hi);
    ChunkWellFormed(x, lo, hi, master.Length2, master.Length3, master.Length4);
    assert Batch(tmChunk, x.bl, elChunk, azChunk, flagChunk) == Chunk(x, lo, hi);
    UpdateArrays(tmChunk, x.bl, elChunk, azChunk, flagChunk, master, counter);
  }
}
