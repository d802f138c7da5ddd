/**
 * Pairing flag files with visibility files (`get_files`).
 *
 * The two directory listings are passed in as sequences of entry names
 * (reading a directory is left to the caller). With flag files present
 * (`'y'`, any case) a file is named by its first ten characters, its
 * timestamp: the stems of all visibility entries are intersected with the
 * stems of the flag entries matching `*.h5`, and each common stem gives a
 * visibility name `<stem>_sdp_l0.full.rdb` and a flag name
 * `<stem>_sdp_l0_flags.h5`. Otherwise both results are the distinct
 * visibility entries themselves. The order of a Python `set` turned into a
 * list is not specified; the model picks the order arbitrarily.
 */
module FileListing {
  import opened Common

  const FULL_SUFFIX: string := "_sdp_l0.full.rdb"
  const FLAGS_SUFFIX: string := "_sdp_l0_flags.h5"

  /** `answer.lower() == 'y'`. */
  predicate IsYes(answer: string) {
    answer == "y" || answer == "Y"
  }

  /** `entry[0:10]`. */
  function Stem(entry: string): (r: string)
    ensures |r| <= 10 && |r| <= |entry| && r == entry[..|r|]
    ensures |entry| >= 10 ==> |r| == 10
    ensures |entry| < 10 ==> r == entry
  {
    if |entry| <= 10 then entry else entry[..10]
  }

  predicate EndsWith(s: string, suffix: string) {
    |suffix| <= |s| && s[|s| - |suffix|..] == suffix
  }

  /** `fnmatch(entry, '*.h5')`. */
  predicate MatchesH5(entry: string) {
    EndsWith(entry, ".h5")
  }

  /** `fnmatch(entry, '*.rdb*')`. */
  predicate MatchesRdb(entry: string) {
    exists k :: 0 <= k <= |entry| && PartAt(entry, k, ".rdb")
  }

  /** `part` occurs in `s` at position `k`. */
  predicate PartAt(s: string, k: int, part: string) {
    0 <= k && k + |part| <= |s| && s[k..k + |part|] == part
  }

  /** The stems of the visibility entries. */
  function FullStems(fullEntries: seq<string>): set<string> {
    set e | e in fullEntries :: Stem(e)
  }

  /** The stems of the flag entries that are HDF5 files. */
  function FlagStems(flagEntries: seq<string>): set<string> {
    set e | e in flagEntries && MatchesH5(e) :: Stem(e)
  }

  /** `s` lists the elements of `elems`, each once. */
  ghost predicate Enumerates(s: seq<string>, elems: set<string>) {
    Distinct(s) && forall x :: x in s <==> x in elems
  }

  /** The file names built from an enumeration of `stems`, pairwise. */
  ghost predicate NamedPairs(flags: seq<string>, fullvis: seq<string>, stems: set<string>) {
    |flags| == |fullvis| &&
    exists data: seq<string> :: Enumerates(data, stems) && |data| == |fullvis| &&
      forall i :: 0 <= i < |data| ==> fullvis[i] == data[i] + FULL_SUFFIX && flags[i] == data[i] + FLAGS_SUFFIX
  }

  lemma StemsSnoc(s: seq<string>, x: string)
    ensures FullStems(s + [x]) == FullStems(s) + {Stem(x)}
  {
    assert forall e :: e in s + [x] <==> e in s || e == x;
  }

  lemma H5StemsSnoc(s: seq<string>, x: string)
    ensures FlagStems(s + [x]) == FlagStems(s) + (if MatchesH5(x) then {Stem(x)} else {})
  {
    assert forall e :: e in s + [x] <==> e in s || e == x;
  }

  lemma ElemsSnoc(s: seq<string>, x: string)
    ensures Elems(s + [x]) == Elems(s) + {x}
  {
    assert forall e :: e in s + [x] <==> e in s || e == x;
  }

  /** `list(s)` for a set: its elements in some order. */
  method SetToSeq(elems: set<string>) returns (r: seq<string>)
    ensures Enumerates(r, elems)
  {
    r := [];
    var rest := elems;
    while rest != {}
      invariant rest <= elems
      invariant Distinct(r)
      invariant forall x :: x in r <==> x in elems && x !in rest
      decreases |rest|
    {
      var x :| x in rest;
      r := r + [x];
      rest := rest - {x};
    }
  }

  /** Appends a suffix to every name: the last loop of `get_files`. */
  method NameFiles(data: seq<string>) returns (flags: seq<string>, fullvis: seq<string>)
    ensures |flags| == |fullvis| == |data|
    ensures forall i :: 0 <= i < |data| ==> fullvis[i] == data[i] + FULL_SUFFIX && flags[i] == data[i] + FLAGS_SUFFIX
  {
    fullvis := [];
    flags := [];
    for i := 0 to |data|
      invariant |flags| == |fullvis| == i
      invariant forall j :: 0 <= j < i ==> fullvis[j] == data[j] + FULL_SUFFIX && flags[j] == data[j] + FLAGS_SUFFIX
    {
      fullvis := fullvis + [data[i] + FULL_SUFFIX];
      flags := flags + [data[i] + FLAGS_SUFFIX];
    }
  }

  /** The distinct elements of a list: `set(s)`. */
  function Elems(s: seq<string>): set<string> {
    set x | x in s
  }

  /** The flag entries matching `*.rdb*`. */
  function RdbEntries(flagEntries: seq<string>): set<string> {
    set e | e in flagEntries && MatchesRdb(e)
  }

  lemma RdbSnoc(s: seq<string>, x: string)
    ensures RdbEntries(s + [x]) == RdbEntries(s) + (if MatchesRdb(x) then {x} else {})
  {
    assert forall e :: e in s + [x] <==> e in s || e == x;
  }

  /** The inner loop of `get_files`: one scan of the flag listing, appending the matches. */
  method ScanFlags(dataflags: seq<string>, flagEntries: seq<string>, yes: bool) returns (r: seq<string>)
    ensures yes ==> Elems(r) == Elems(dataflags) + FlagStems(flagEntries)
    ensures !yes ==> Elems(r) == Elems(dataflags) + RdbEntries(flagEntries)
  {
    r := dataflags;
    for m := 0 to |flagEntries|
      invariant yes ==> Elems(r) == Elems(dataflags) + FlagStems(flagEntries[..m])
      invariant !yes ==> Elems(r) == Elems(dataflags) + RdbEntries(flagEntries[..m])
    {
      var entry := flagEntries[m];
      assert flagEntries[..m + 1] == flagEntries[..m] + [entry];
      H5StemsSnoc(flagEntries[..m], entry);
      RdbSnoc(flagEntries[..m], entry);
      if (yes && MatchesH5(entry)) || (!yes && MatchesRdb(entry)) {
        ElemsSnoc(r, if yes then Stem(entry) else entry);
        r := r + [if yes then Stem(entry) else entry];
      }
    }
    assert flagEntries[..|flagEntries|] == flagEntries;
  }

  /**
   * `get_files` of the UHF pipeline. The flag listing is scanned once per
   * visibility entry, so its matches are appended again and again; only
   * their set is used.
   */
  method GetFiles(flagEntries: seq<string>, fullEntries: seq<string>, flagsPresent: string)
    returns (flags: seq<string>, fullvis: seq<string>)
    ensures IsYes(flagsPresent) ==> NamedPairs(flags, fullvis, FullStems(fullEntries) * FlagStems(flagEntries))
    ensures !IsYes(flagsPresent) ==> flags == fullvis && Enumerates(fullvis, Elems(fullEntries))
  {
    var yes := IsYes(flagsPresent);
    var dataflags: seq<string> := [];
    var datafull: seq<string> := [];
    for k := 0 to |fullEntries|
      invariant yes ==> Elems(datafull) == FullStems(fullEntries[..k])
      invariant !yes ==> Elems(datafull) == Elems(fullEntries[..k])
      invariant yes && k > 0 ==> Elems(dataflags) == FlagStems(flagEntries)
      invariant yes && k == 0 ==> dataflags == []
    {
      assert fullEntries[..k + 1] == fullEntries[..k] + [fullEntries[k]];
      StemsSnoc(fullEntries[..k], fullEntries[k]);
      ElemsSnoc(fullEntries[..k], fullEntries[k]);
      ElemsSnoc(datafull, if yes then Stem(fullEntries[k]) else fullEntries[k]);
      datafull := datafull + [if yes then Stem(fullEntries[k]) else fullEntries[k]];
      dataflags := ScanFlags(dataflags, flagEntries, yes);
    }
    assert fullEntries[..|fullEntries|] == fullEntries;
    if yes {
      var common := Elems(datafull) * Elems(dataflags);
      assert common == FullStems(fullEntries) * FlagStems(flagEntries);
      var data := SetToSeq(common);
      flags, fullvis := NameFiles(data);
    } else {
      var data := SetToSeq(Elems(datafull));
      fullvis := data;
      flags := data;
    }
  }

  /** `get_files` of the earlier pipeline: the two listings scanned one after the other. */
  method GetFilesH5(flagEntries: seq<string>, fullEntries: seq<string>) returns (flags: seq<string>, fullvis: seq<string>)
    ensures NamedPairs(flags, fullvis, FullStems(fullEntries) * FlagStems(flagEntries))
  {
    var dataflags: seq<string> := [];
    var datafull: seq<string> := [];
    for k := 0 to |fullEntries|
      invariant Elems(datafull) == FullStems(fullEntries[..k])
    {
      assert fullEntries[..k + 1] == fullEntries[..k] + [fullEntries[k]];
      StemsSnoc(fullEntries[..k], fullEntries[k]);
      ElemsSnoc(datafull, Stem(fullEntries[k]));
      datafull := datafull + [Stem(fullEntries[k])];
    }
    for m := 0 to |flagEntries|
      invariant Elems(dataflags) == FlagStems(flagEntries[..m])
    {
      var entry := flagEntries[m];
      assert flagEntries[..m + 1] == flagEntries[..m] + [entry];
      H5StemsSnoc(flagEntries[..m], entry);
      if MatchesH5(entry) {
        ElemsSnoc(dataflags, Stem(entry));
        dataflags := dataflags + [Stem(entry)];
      }
    }
    assert fullEntries[..|fullEntries|] == fullEntries;
    assert flagEntries[..|flagEntries|] == flagEntries;
    var data := SetToSeq(Elems(datafull) * Elems(dataflags));
    flags, fullvis := NameFiles(data);
  }

  /** Every visibility file is named once, and so is every flag file. */
  lemma NamedPairsDistinct(flags: seq<string>, fullvis: seq<string>, stems: set<string>)
    requires NamedPairs(flags, fullvis, stems)
    ensures Distinct(fullvis) && Distinct(flags)
  {
    var data: seq<string> :| Enumerates(data, stems) && |data| == |fullvis| &&
      forall i :: 0 <= i < |data| ==> fullvis[i] == data[i] + FULL_SUFFIX && flags[i] == data[i] + FLAGS_SUFFIX;
    forall i, j | 0 <= i < j < |data| ensures fullvis[i] != fullvis[j] && flags[i] != flags[j] {
      if fullvis[i] == fullvis[j] {
        SuffixCancel(data[i], data[j], FULL_SUFFIX);
      }
      if flags[i] == flags[j] {
        SuffixCancel(data[i], data[j], FLAGS_SUFFIX);
      }
    }
  }

  lemma SuffixCancel(a: string, b: string, suffix: string)
    requires a + suffix == b + suffix
    ensures a == b
  {
    assert |a| == |b|;
    assert a == (a + suffix)[..|a|];
    assert b == (b + suffix)[..|b|];
  }

  /**
   * A pair of files is listed exactly when its timestamp starts both a
   * visibility entry and an HDF5 flag entry.
   */
  lemma NamedPairsMember(flags: seq<string>, fullvis: seq<string>, fullEntries: seq<string>, flagEntries: seq<string>, x: string)
    requires NamedPairs(flags, fullvis, FullStems(fullEntries) * FlagStems(flagEntries))
    ensures (exists i :: 0 <= i < |fullvis| && fullvis[i] == x + FULL_SUFFIX && flags[i] == x + FLAGS_SUFFIX) <==>
            (exists e :: e in fullEntries && Stem(e) == x) && (exists e :: e in flagEntries && MatchesH5(e) && Stem(e) == x)
  {
    var stems := FullStems(fullEntries) * FlagStems(flagEntries);
    var data: seq<string> :| Enumerates(data, stems) && |data| == |fullvis| &&
      forall i :: 0 <= i < |data| ==> fullvis[i] == data[i] + FULL_SUFFIX && flags[i] == data[i] + FLAGS_SUFFIX;
    if x in stems {
      var i :| 0 <= i < |data| && data[i] == x;
      assert fullvis[i] == x + FULL_SUFFIX && flags[i] == x + FLAGS_SUFFIX;
    }
    if exists i :: 0 <= i < |fullvis| && fullvis[i] == x + FULL_SUFFIX && flags[i] == x + FLAGS_SUFFIX {
      var i :| 0 <= i < |fullvis| && fullvis[i] == x + FULL_SUFFIX && flags[i] == x + FLAGS_SUFFIX;
      SuffixCancel(data[i], x, FULL_SUFFIX);
      assert data[i] in data;
    }
  }
}
