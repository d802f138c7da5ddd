/**
 * Azimuth and elevation binning (`get_az_idx`, `get_el_idx`).
 *
 * Both are a linear scan over the bin edges that appends every matching
 * index: azimuth bin j is `[bins[j], bins[j+1])`, elevation bin j is
 * `[bins[j], bins[j] + 10)` with the width 10 written into the code. A value
 * that matches no bin appends nothing, so the result can be shorter than
 * the input.
 */
module AngleBinning {

  /** Edges that strictly increase. */
  predicate Increasing(bins: seq<real>) {
    forall j, j' :: 0 <= j < j' < |bins| ==> bins[j] < bins[j']
  }

  /** Indices that strictly increase. */
  predicate Ascending(s: seq<nat>) {
    forall n, n' :: 0 <= n < n' < |s| ==> s[n] < s[n']
  }

  /** Azimuth bin `j` holds `az`. */
  predicate InAzBin(az: real, bins: seq<real>, j: nat) {
    j + 1 < |bins| && bins[j] <= az < bins[j + 1]
  }

  /** The inner scan of `get_az_idx` for one azimuth, from edge `j` on. */
  function AzMatchesFrom(az: real, bins: seq<real>, j: nat): seq<nat>
    decreases |bins| - j
  {
    if j + 1 >= |bins| then []
    else (if bins[j] <= az < bins[j + 1] then [j] else []) + AzMatchesFrom(az, bins, j + 1)
  }

  /** What `get_az_idx` appends for one azimuth. */
  function AzMatches(az: real, bins: seq<real>): seq<nat> {
    AzMatchesFrom(az, bins, 0)
  }

  /** `get_az_idx` over a whole sequence: the matches of each azimuth, in input order. */
  function AzIdx(azimuth: seq<real>, bins: seq<real>): seq<nat>
    decreases |azimuth|
  {
    if azimuth == [] then []
    else AzIdx(azimuth[..|azimuth| - 1], bins) + AzMatches(azimuth[|azimuth| - 1], bins)
  }

  /** Elevation bin `j` holds `el`: `bins[j] <= el < bins[j] + 10`. */
  predicate InElBin(el: real, bins: seq<real>, j: nat) {
    j < |bins| && bins[j] <= el < bins[j] + 10.0
  }

  /** The inner scan of `get_el_idx` for one elevation, from edge `j` on. */
  function ElMatchesFrom(el: real, bins: seq<real>, j: nat): seq<nat>
    decreases |bins| - j
  {
    if j >= |bins| then []
    else (if bins[j] <= el < bins[j] + 10.0 then [j] else []) + ElMatchesFrom(el, bins, j + 1)
  }

  /** What `get_el_idx` appends for one elevation. */
  function ElMatches(el: real, bins: seq<real>): seq<nat> {
    ElMatchesFrom(el, bins, 0)
  }

  /** `get_el_idx` over a whole sequence. */
  function ElIdx(elevation: seq<real>, bins: seq<real>): seq<nat>
    decreases |elevation|
  {
    if elevation == [] then []
    else ElIdx(elevation[..|elevation| - 1], bins) + ElMatches(elevation[|elevation| - 1], bins)
  }

  // ----------------------------------------------------- one value, any edges

  /** Every index the azimuth scan emits from `j` on names a bin holding the azimuth. */
  lemma {:induction false} AzMatchesSound(az: real, bins: seq<real>, j: nat)
    ensures forall n :: 0 <= n < |AzMatchesFrom(az, bins, j)| ==>
              j <= AzMatchesFrom(az, bins, j)[n] && InAzBin(az, bins, AzMatchesFrom(az, bins, j)[n])
    decreases |bins| - j
  {
    if j + 1 < |bins| {
      AzMatchesSound(az, bins, j + 1);
    }
  }

  /** Every bin from `j` on that holds the azimuth is emitted. */
  lemma {:induction false} AzMatchesComplete(az: real, bins: seq<real>, j: nat, j': nat)
    requires j <= j' && InAzBin(az, bins, j')
    ensures j' in AzMatchesFrom(az, bins, j)
    decreases |bins| - j
  {
    if j < j' {
      AzMatchesComplete(az, bins, j + 1, j');
    }
  }

  /** The azimuth scan emits indices in ascending order. */
  lemma {:induction false} AzMatchesAscending(az: real, bins: seq<real>, j: nat)
    ensures Ascending(AzMatchesFrom(az, bins, j))
    decreases |bins| - j
  {
    if j + 1 < |bins| {
      AzMatchesAscending(az, bins, j + 1);
      AzMatchesSound(az, bins, j + 1);
    }
  }

  /** Some bin holds every azimuth between the first and the last edge. */
  lemma {:induction false} AzBinExists(az: real, bins: seq<real>, j: nat)
    requires j + 1 < |bins| && bins[j] <= az < bins[|bins| - 1]
    ensures exists j' :: j <= j' && InAzBin(az, bins, j')
    decreases |bins| - j
  {
    if az >= bins[j + 1] {
      AzBinExists(az, bins, j + 1);
    } else {
      assert InAzBin(az, bins, j);
    }
  }

  /** With strictly increasing edges at most one bin holds an azimuth. */
  lemma AzBinUnique(az: real, bins: seq<real>, a: nat, b: nat)
    requires Increasing(bins) && InAzBin(az, bins, a) && InAzBin(az, bins, b)
    ensures a == b
  {
  }

  /** With strictly increasing edges a bin that holds the azimuth lies inside the outer edges. */
  lemma AzBinWithinEdges(az: real, bins: seq<real>, a: nat)
    requires Increasing(bins) && InAzBin(az, bins, a)
    ensures bins[0] <= az < bins[|bins| - 1]
  {
    if a > 0 {
      assert bins[0] < bins[a];
    }
    if a + 1 < |bins| - 1 {
      assert bins[a + 1] < bins[|bins| - 1];
    }
  }

  /**
   * With strictly increasing edges `get_az_idx` emits exactly one index, the
   * bin holding the azimuth, when `bins[0] <= az < bins[-1]`, and nothing otherwise.
   */
  lemma AzMatchesIncreasing(az: real, bins: seq<real>)
    requires Increasing(bins)
    ensures |AzMatches(az, bins)| <= 1
    ensures |bins| >= 2 && bins[0] <= az < bins[|bins| - 1] ==>
              |AzMatches(az, bins)| == 1 && InAzBin(az, bins, AzMatches(az, bins)[0])
    ensures !(|bins| >= 2 && bins[0] <= az < bins[|bins| - 1]) ==> AzMatches(az, bins) == []
  {
    var r := AzMatches(az, bins);
    AzMatchesSound(az, bins, 0);
    AzMatchesAscending(az, bins, 0);
    if |r| >= 2 {
      AzBinUnique(az, bins, r[0], r[1]);
    }
    if |bins| >= 2 && bins[0] <= az < bins[|bins| - 1] {
      AzBinExists(az, bins, 0);
      var j' :| 0 <= j' && InAzBin(az, bins, j');
      AzMatchesComplete(az, bins, 0, j');
    } else if |r| == 1 {
      AzBinWithinEdges(az, bins, r[0]);
    }
  }

  /** Every index the elevation scan emits from `j` on names a bin holding the elevation. */
  lemma {:induction false} ElMatchesSound(el: real, bins: seq<real>, j: nat)
    ensures forall n :: 0 <= n < |ElMatchesFrom(el, bins, j)| ==>
              j <= ElMatchesFrom(el, bins, j)[n] && InElBin(el, bins, ElMatchesFrom(el, bins, j)[n])
    decreases |bins| - j
  {
    if j < |bins| {
      ElMatchesSound(el, bins, j + 1);
    }
  }

  /** Every bin from `j` on that holds the elevation is emitted. */
  lemma {:induction false} ElMatchesComplete(el: real, bins: seq<real>, j: nat, j': nat)
    requires j <= j' && InElBin(el, bins, j')
    ensures j' in ElMatchesFrom(el, bins, j)
    decreases |bins| - j
  {
    if j < j' {
      ElMatchesComplete(el, bins, j + 1, j');
    }
  }

  /** The elevation scan emits indices in ascending order. */
  lemma {:induction false} ElMatchesAscending(el: real, bins: seq<real>, j: nat)
    ensures Ascending(ElMatchesFrom(el, bins, j))
    decreases |bins| - j
  {
    if j < |bins| {
      ElMatchesAscending(el, bins, j + 1);
      ElMatchesSound(el, bins, j + 1);
    }
  }

  /** Edges at least the hard-coded width 10 apart: the elevation bins do not overlap. */
  predicate SpacedByWidth(bins: seq<real>) {
    forall j, j' :: 0 <= j < j' < |bins| ==> bins[j] + 10.0 <= bins[j']
  }

  /** With non-overlapping bins at most one bin holds an elevation. */
  lemma ElBinUnique(el: real, bins: seq<real>, a: nat, b: nat)
    requires SpacedByWidth(bins) && InElBin(el, bins, a) && InElBin(el, bins, b)
    ensures a == b
  {
  }

  /** With non-overlapping bins `get_el_idx` emits at most one index per elevation. */
  lemma ElMatchesSpaced(el: real, bins: seq<real>)
    requires SpacedByWidth(bins)
    ensures |ElMatches(el, bins)| <= 1
    ensures forall n :: 0 <= n < |ElMatches(el, bins)| ==> InElBin(el, bins, ElMatches(el, bins)[n])
  {
    var r := ElMatches(el, bins);
    ElMatchesSound(el, bins, 0);
    ElMatchesAscending(el, bins, 0);
    if |r| >= 2 {
      ElBinUnique(el, bins, r[0], r[1]);
    }
  }

  /** An ascending sequence whose every entry is `x` and which holds `x` is `[x]`. */
  lemma AscendingConstant(r: seq<nat>, x: nat)
    requires Ascending(r) && x in r
    requires forall n :: 0 <= n < |r| ==> r[n] == x
    ensures r == [x]
  {
    AscendingFirstTwo(r);
  }

  /** The first two entries of an ascending sequence are in order. */
  lemma AscendingFirstTwo(s: seq<nat>)
    requires Ascending(s)
    ensures |s| >= 2 ==> s[0] < s[1]
  {
  }

  // ------------------------------------------------- the edges the drivers pass

  /** `np.arange(0, 370, 15)`: 25 edges 0, 15, ..., 360 (24 bins). */
  function StdAzBins(): seq<real> {
    seq(25, j => 15.0 * j as real)
  }

  /** `np.arange(10, 90, 10)`: 8 edges 10, 20, ..., 80. */
  function StdElBins(): seq<real> {
    seq(8, j => 10.0 * (j + 1) as real)
  }

  /**
   * With the standard edges an azimuth in [0, 360) gets exactly the bin
   * `floor(az / 15)`, which lies in [0, 23]; any other azimuth gets none.
   */
  lemma StdAzMatches(az: real)
    ensures 0.0 <= az < 360.0 ==> AzMatches(az, StdAzBins()) == [(az / 15.0).Floor as nat]
    ensures 0.0 <= az < 360.0 ==> 0 <= (az / 15.0).Floor < 24
    ensures !(0.0 <= az < 360.0) ==> AzMatches(az, StdAzBins()) == []
    ensures AzMatches(az, StdAzBins()) == StdAzOf(az)
  {
    var bins := StdAzBins();
    var r := AzMatches(az, bins);
    AzMatchesSound(az, bins, 0);
    AzMatchesAscending(az, bins, 0);
    if 0.0 <= az < 360.0 {
      var j0 := (az / 15.0).Floor;
      forall n | 0 <= n < |r| ensures r[n] == j0 {
        StdAzBin(az, r[n]);
      }
      StdAzBin(az, j0 as nat);
      AzMatchesComplete(az, bins, 0, j0 as nat);
      AscendingConstant(r, j0 as nat);
    } else if r != [] {
      StdAzBin(az, r[0]);
      assert false;
    }
  }

  /** Bin `j` of the standard azimuth edges is `[15 j, 15 (j + 1))` for `j < 24`. */
  lemma StdAzBin(az: real, j: nat)
    ensures InAzBin(az, StdAzBins(), j) <==> j < 24 && 15.0 * j as real <= az < 15.0 * (j + 1) as real
    ensures InAzBin(az, StdAzBins(), j) <==> 0.0 <= az < 360.0 && j == (az / 15.0).Floor
  {
    var bins := StdAzBins();
    if j < 24 {
      assert bins[j] == 15.0 * j as real && bins[j + 1] == 15.0 * (j + 1) as real;
    }
  }

  /**
   * With the standard edges an elevation in [10, 90) gets exactly the bin
   * `floor(el / 10) - 1`, which lies in [0, 7]; any other elevation gets none.
   */
  lemma StdElMatches(el: real)
    ensures 10.0 <= el < 90.0 ==> ElMatches(el, StdElBins()) == [((el / 10.0).Floor - 1) as nat]
    ensures 10.0 <= el < 90.0 ==> 0 <= (el / 10.0).Floor - 1 < 8
    ensures !(10.0 <= el < 90.0) ==> ElMatches(el, StdElBins()) == []
    ensures ElMatches(el, StdElBins()) == StdElOf(el)
  {
    var bins := StdElBins();
    var r := ElMatches(el, bins);
    ElMatchesSound(el, bins, 0);
    ElMatchesAscending(el, bins, 0);
    if 10.0 <= el < 90.0 {
      var j0 := (el / 10.0).Floor - 1;
      forall n | 0 <= n < |r| ensures r[n] == j0 {
        StdElBin(el, r[n]);
      }
      StdElBin(el, j0 as nat);
      ElMatchesComplete(el, bins, 0, j0 as nat);
      AscendingConstant(r, j0 as nat);
    } else if r != [] {
      assert false;
    }
  }

  /** Bin `j` of the standard elevation edges is `[10 (j + 1), 10 (j + 2))` for `j < 8`. */
  lemma StdElBin(el: real, j: nat)
    ensures InElBin(el, StdElBins(), j) <==> 10.0 <= el < 90.0 && j == (el / 10.0).Floor - 1
  {
    var bins := StdElBins();
    if j < 8 {
      assert bins[j] == 10.0 * (j + 1) as real;
    }
  }

  // ------------------------------------------------- whole sequences of values

  /** What the standard azimuth edges give one azimuth: `floor(az / 15)` inside [0, 360), nothing outside. */
  function StdAzOf(az: real): seq<nat> {
    if 0.0 <= az < 360.0 then [(az / 15.0).Floor as nat] else []
  }

  /** What the standard elevation edges give one elevation: `floor(el / 10) - 1` inside [10, 90), nothing outside. */
  function StdElOf(el: real): seq<nat> {
    if 10.0 <= el < 90.0 then [((el / 10.0).Floor - 1) as nat] else []
  }

  /**
   * The standard-edge azimuth binning as a filter and a map: the azimuths in
   * [0, 360), in input order, each replaced by `floor(az / 15)`.
   */
  function StdAzReference(azimuth: seq<real>): seq<nat>
    decreases |azimuth|
  {
    if azimuth == [] then []
    else
      var az := azimuth[|azimuth| - 1];
      StdAzReference(azimuth[..|azimuth| - 1]) + StdAzOf(az)
  }

  /** The standard-edge elevation binning as a filter and a map. */
  function StdElReference(elevation: seq<real>): seq<nat>
    decreases |elevation|
  {
    if elevation == [] then []
    else
      var el := elevation[|elevation| - 1];
      StdElReference(elevation[..|elevation| - 1]) + StdElOf(el)
  }

  /** `get_az_idx(az, np.arange(0, 370, 15))` drops out-of-range azimuths and keeps the order. */
  lemma {:induction false} StdAzIdx(azimuth: seq<real>)
    ensures AzIdx(azimuth, StdAzBins()) == StdAzReference(azimuth)
    decreases |azimuth|
  {
    if azimuth != [] {
      StdAzIdx(azimuth[..|azimuth| - 1]);
      StdAzMatches(azimuth[|azimuth| - 1]);
    }
  }

  /** `get_el_idx(el, np.arange(10, 90, 10))` drops out-of-range elevations and keeps the order. */
  lemma {:induction false} StdElIdx(elevation: seq<real>)
    ensures ElIdx(elevation, StdElBins()) == StdElReference(elevation)
    decreases |elevation|
  {
    if elevation != [] {
      StdElIdx(elevation[..|elevation| - 1]);
      StdElMatches(elevation[|elevation| - 1]);
    }
  }

  /**
   * When every azimuth is in [0, 360), the standard
   * binning keeps one index per dump: same length, bin `floor(az / 15)` < 24.
   */
  lemma StdAzIdxTotal(azimuth: seq<real>)
    requires forall n :: 0 <= n < |azimuth| ==> 0.0 <= azimuth[n] < 360.0
    ensures |AzIdx(azimuth, StdAzBins())| == |azimuth|
    ensures forall n :: 0 <= n < |azimuth| ==>
              AzIdx(azimuth, StdAzBins())[n] == (azimuth[n] / 15.0).Floor < 24
  {
    StdAzIdx(azimuth);
    StdAzReferenceTotal(azimuth);
  }

  /** With every azimuth in [0, 360) the reference keeps one bin per azimuth. */
  lemma {:induction false} StdAzReferenceTotal(azimuth: seq<real>)
    requires forall n :: 0 <= n < |azimuth| ==> 0.0 <= azimuth[n] < 360.0
    ensures |StdAzReference(azimuth)| == |azimuth|
    ensures forall n :: 0 <= n < |azimuth| ==> StdAzReference(azimuth)[n] == (azimuth[n] / 15.0).Floor < 24
    decreases |azimuth|
  {
    if azimuth != [] {
      var init, last := azimuth[..|azimuth| - 1], azimuth[|azimuth| - 1];
      var r, ri := StdAzReference(azimuth), StdAzReference(init);
      StdAzReferenceTotal(init);
      assert r == ri + [(last / 15.0).Floor as nat];
      forall n | 0 <= n < |azimuth| ensures r[n] == (azimuth[n] / 15.0).Floor < 24 {
        if n < |init| {
          assert r[n] == ri[n] && init[n] == azimuth[n];
        }
      }
    }
  }

  /**
   * An elevation outside [10, 90) shortens the standard elevation index
   * sequence: it is then strictly shorter than the input.
   */
  lemma {:induction false} StdElIdxLength(elevation: seq<real>)
    ensures |ElIdx(elevation, StdElBins())| <= |elevation|
    ensures (exists n :: 0 <= n < |elevation| && !(10.0 <= elevation[n] < 90.0)) ==>
              |ElIdx(elevation, StdElBins())| < |elevation|
    decreases |elevation|
  {
    if elevation != [] {
      var init := elevation[..|elevation| - 1];
      StdElIdxLength(init);
      StdElMatches(elevation[|elevation| - 1]);
      if exists n :: 0 <= n < |elevation| && !(10.0 <= elevation[n] < 90.0) {
        var n :| 0 <= n < |elevation| && !(10.0 <= elevation[n] < 90.0);
        if n < |elevation| - 1 {
          assert init[n] == elevation[n];
        }
      }
    }
  }

  /**
   * When every elevation is in [10, 90) the standard binning keeps one
   * index per dump: same length, bin `floor(el / 10) - 1` < 8.
   */
  lemma StdElIdxTotal(elevation: seq<real>)
    requires forall n :: 0 <= n < |elevation| ==> 10.0 <= elevation[n] < 90.0
    ensures |ElIdx(elevation, StdElBins())| == |elevation|
    ensures forall n :: 0 <= n < |elevation| ==>
              ElIdx(elevation, StdElBins())[n] == (elevation[n] / 10.0).Floor - 1 < 8
  {
    StdElIdx(elevation);
    StdElReferenceTotal(elevation);
  }

  /** With every elevation in [10, 90) the reference keeps one bin per elevation. */
  lemma {:induction false} StdElReferenceTotal(elevation: seq<real>)
    requires forall n :: 0 <= n < |elevation| ==> 10.0 <= elevation[n] < 90.0
    ensures |StdElReference(elevation)| == |elevation|
    ensures forall n :: 0 <= n < |elevation| ==> StdElReference(elevation)[n] == (elevation[n] / 10.0).Floor - 1 < 8
    decreases |elevation|
  {
    if elevation != [] {
      var init, last := elevation[..|elevation| - 1], elevation[|elevation| - 1];
      var r, ri := StdElReference(elevation), StdElReference(init);
      StdElReferenceTotal(init);
      assert r == ri + [((last / 10.0).Floor - 1) as nat];
      forall n | 0 <= n < |elevation| ensures r[n] == (elevation[n] / 10.0).Floor - 1 < 8 {
        if n < |init| {
          assert r[n] == ri[n] && init[n] == elevation[n];
        }
      }
    }
  }

  // ---------------------------------------------------------------- the loops

  /** `get_az_idx`: the nested scan, appending each matching edge index. */
  method GetAzIdx(azimuth: seq<real>, bins: seq<real>) returns (azIdx: seq<nat>)
    ensures azIdx == AzIdx(azimuth, bins)
  {
    azIdx := [];
    var n := 0;
    while n < |azimuth|
      invariant 0 <= n <= |azimuth|
      invariant azIdx == AzIdx(azimuth[..n], bins)
    {
      var az := azimuth[n];
      ghost var before := azIdx;
      var j := 0;
      while j + 1 < |bins|
        invariant 0 <= j
        invariant azIdx + AzMatchesFrom(az, bins, j) == before + AzMatches(az, bins)
        decreases |bins| - j
      {
        ghost var hit := if bins[j] <= az < bins[j + 1] then [j] else [];
        assert AzMatchesFrom(az, bins, j) == hit + AzMatchesFrom(az, bins, j + 1);
        ghost var prev := azIdx;
        if bins[j] <= az < bins[j + 1] {
          azIdx := azIdx + [j];
        }
        assert azIdx == prev + hit;
        j := j + 1;
      }
      assert azimuth[..n + 1][..n] == azimuth[..n];
      n := n + 1;
    }
    assert azimuth[..n] == azimuth;
  }

  /** `get_el_idx`: the nested scan with the fixed width 10. */
  method GetElIdx(elevation: seq<real>, bins: seq<real>) returns (elIdx: seq<nat>)
    ensures elIdx == ElIdx(elevation, bins)
  {
    elIdx := [];
    var n := 0;
    while n < |elevation|
      invariant 0 <= n <= |elevation|
      invariant elIdx == ElIdx(elevation[..n], bins)
    {
      var el := elevation[n];
      ghost var before := elIdx;
      var j := 0;
      while j < |bins|
        invariant 0 <= j <= |bins|
        invariant elIdx + ElMatchesFrom(el, bins, j) == before + ElMatches(el, bins)
      {
        ghost var hit := if bins[j] <= el < bins[j] + 10.0 then [j] else [];
        assert ElMatchesFrom(el, bins, j) == hit + ElMatchesFrom(el, bins, j + 1);
        ghost var prev := elIdx;
        if bins[j] <= el < bins[j] + 10.0 {
          elIdx := elIdx + [j];
        }
        assert elIdx == prev + hit;
        j := j + 1;
      }
      assert elevation[..n + 1][..n] == elevation[..n];
      n := n + 1;
    }
    assert elevation[..n] == elevation;
  }
}
