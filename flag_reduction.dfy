/**
 * Channel averaging of flags (`NewFlagChunk`).
 *
 * A chunk of flags is a cube `[time][channel][baseline]` of booleans.
 * `skimage.measure.block_reduce(chunk, (1, 8, 1), np.any)` groups the
 * channels eight at a time and flags a group when any of its channels is
 * flagged. A channel count that is not a multiple of 8 is padded with
 * `False`, so the last group holds the remaining channels only and there
 * are `ceil(f / 8)` groups.
 */
module FlagReduction {

  const GROUP: nat := 8

  /** `x` has the shape `(|x|, f, b)`. */
  predicate Cube(x: seq<seq<seq<bool>>>, f: nat, b: nat) {
    forall t :: 0 <= t < |x| ==> |x[t]| == f && forall k :: 0 <= k < f ==> |x[t][k]| == b
  }

  /** Whether baseline `i` is flagged in any of the channels `lo .. hi-1` of one dump. */
  function AnyFlag(rows: seq<seq<bool>>, i: nat, lo: nat, hi: nat): (r: bool)
    requires lo <= hi <= |rows|
    requires forall k :: lo <= k < hi ==> i < |rows[k]|
    ensures r <==> exists k :: lo <= k < hi && rows[k][i]
    decreases hi - lo
  {
    lo < hi && (rows[lo][i] || AnyFlag(rows, i, lo + 1, hi))
  }

  /** The channels of group `g`: `8 g .. min(8 g + 8, f) - 1`. */
  function GroupEnd(g: nat, f: nat): (e: nat)
    ensures e <= f
    ensures g < Groups(f) ==> GROUP * g < e
  {
    if GROUP * g + GROUP <= f then GROUP * g + GROUP else f
  }

  /** The number of groups, `ceil(f / 8)`. */
  function Groups(f: nat): nat {
    (f + GROUP - 1) / GROUP
  }

  /** Group `g` of one dump: one flag per baseline. */
  function GroupFlags(rows: seq<seq<bool>>, f: nat, b: nat, g: nat): (r: seq<bool>)
    requires |rows| == f && forall k :: 0 <= k < f ==> |rows[k]| == b
    requires g < Groups(f)
    ensures |r| == b
    ensures forall i :: 0 <= i < b ==> (r[i] <==> exists k :: GROUP * g <= k < GroupEnd(g, f) && rows[k][i])
  {
    seq(b, (i: nat) requires i < b => AnyFlag(rows, i, GROUP * g, GroupEnd(g, f)))
  }

  /** The reduction of one dump `[channel][baseline]`. */
  function ReduceDump(rows: seq<seq<bool>>, f: nat, b: nat): (r: seq<seq<bool>>)
    requires |rows| == f && forall k :: 0 <= k < f ==> |rows[k]| == b
    ensures |r| == Groups(f)
    ensures forall g :: 0 <= g < Groups(f) ==> |r[g]| == b
    ensures forall g, i :: 0 <= g < Groups(f) && 0 <= i < b ==>
              (r[g][i] <==> exists k :: GROUP * g <= k < GroupEnd(g, f) && rows[k][i])
  {
    seq(Groups(f), (g: nat) requires g < Groups(f) => GroupFlags(rows, f, b, g))
  }

  /** `NewFlagChunk`: every dump reduced. */
  function NewFlagChunk(x: seq<seq<seq<bool>>>, f: nat, b: nat): (r: seq<seq<seq<bool>>>)
    requires Cube(x, f, b)
    ensures |r| == |x| && Cube(r, Groups(f), b)
    ensures forall t, g, i :: 0 <= t < |x| && 0 <= g < Groups(f) && 0 <= i < b ==>
              (r[t][g][i] <==> exists k :: GROUP * g <= k < GroupEnd(g, f) && x[t][k][i])
  {
    seq(|x|, (t: nat) requires t < |x| => ReduceDump(x[t], f, b))
  }

  /** Every channel belongs to group `k / 8`. */
  lemma ChannelGroup(k: nat, f: nat)
    requires k < f
    ensures k / GROUP < Groups(f)
    ensures GROUP * (k / GROUP) <= k < GroupEnd(k / GROUP, f)
  {
  }

  /** A flagged channel flags its group: `np.any` loses no flag. */
  lemma FlagKept(x: seq<seq<seq<bool>>>, f: nat, b: nat, t: nat, k: nat, i: nat)
    requires Cube(x, f, b) && t < |x| && k < f && i < b && x[t][k][i]
    ensures k / GROUP < Groups(f) && NewFlagChunk(x, f, b)[t][k / GROUP][i]
  {
    ChannelGroup(k, f);
  }

  /** A group is flagged only when one of its own channels is. */
  lemma FlagFromGroup(x: seq<seq<seq<bool>>>, f: nat, b: nat, t: nat, g: nat, i: nat)
    requires Cube(x, f, b) && t < |x| && g < Groups(f) && i < b && NewFlagChunk(x, f, b)[t][g][i]
    ensures exists k :: 0 <= k < f && k / GROUP == g && x[t][k][i]
  {
    var k :| GROUP * g <= k < GroupEnd(g, f) && x[t][k][i];
    assert k / GROUP == g;
  }

  /** Without a single flag in the chunk there is none after the reduction. */
  lemma NoFlagsStayUnflagged(x: seq<seq<seq<bool>>>, f: nat, b: nat)
    requires Cube(x, f, b)
    requires forall t, k, i :: 0 <= t < |x| && 0 <= k < f && 0 <= i < b ==> !x[t][k][i]
    ensures forall t, g, i :: 0 <= t < |x| && 0 <= g < Groups(f) && 0 <= i < b ==> !NewFlagChunk(x, f, b)[t][g][i]
  {
    forall t, g, i | 0 <= t < |x| && 0 <= g < Groups(f) && 0 <= i < b
      ensures !NewFlagChunk(x, f, b)[t][g][i]
    {
      if NewFlagChunk(x, f, b)[t][g][i] {
        FlagFromGroup(x, f, b, t, g, i);
        assert false;
      }
    }
  }

  /** 32768 channels reduce to the 4096 of the histogram's channel axis, eight apiece. */
  lemma FullResolution(x: seq<seq<seq<bool>>>, b: nat)
    requires Cube(x, 32768, b)
    ensures Cube(NewFlagChunk(x, 32768, b), 4096, b)
    ensures forall g :: 0 <= g < 4096 ==> GroupEnd(g, 32768) == GROUP * g + GROUP
  {
  }
}
