# RFI occupancy histograms for MeerKAT observations

The repository builds radio-frequency-interference (RFI) statistics from
MeerKAT observation files. Per file it works out, for every correlator dump:

- the local hour of day;
- the mean azimuth and elevation of the dish pointing, as bin indices;
- the index of every baseline.

The RFI flags of the file are then added into two `uint16` count arrays of
shape `[hour, channel, baseline, elevation, azimuth]`:

- `Master` counts the flagged visits of each voxel;
- `Counter` counts all visits.

`Master / Counter` is the RFI occupancy. The same helper functions appear,
with small differences, in `kathprfi_single_file.py`, `kathprfiUHF.py` and
`kathprfi.py`. This project models them and proves what they compute. One
Dafny module stands for each concern:

- `HourBinning` (`get_time_idx`): the hour bin of a local `H:M:S`, rounded
  with Python 3's `round` (halves to even). A flag `wrap` selects between the
  single-file variant, which maps 24 to 0, and the other two, which do not.
- `AngleBinning` (`get_az_idx`, `get_el_idx`): the linear scans over bin
  edges, for any edges, and the standard edges `np.arange(0, 370, 15)` and
  `np.arange(10, 90, 10)` that the drivers pass.
- `Baselines` (`get_corrprods`, `get_bl_idx`): the product labels, the
  table of `m{:03d}m{:03d}` labels in `np.triu_indices(nant, 1)` order, and
  the `pandas` lookup with its `KeyError`.
- `FlagReduction` (`NewFlagChunk`): `block_reduce(..., (1, 8, 1), np.any)`.
- `Antennas` (`remove_bad_ants`): dropping antennas whose activity sensor
  ever reads `stop`, with `list.remove`.
- `Config` (`config2dic`): the `key = value` text reader, including its
  `IndexError` on a line of blanks or a line without `=`.
- `FileListing` (`get_files`): pairing visibility and flag file names from
  two directory listings.
- `Histogram` (`update_arrays`): the kernel, as nested methods over two
  5-dimensional `array5<u16>` arrays updated in place, with every `+=`
  wrapping modulo 65536.
- `Driver`: the chunk loop `for tm in range(0, ntime, 8)` that feeds the
  kernel slices of eight dumps.
- `Pipeline`: the driver's index computations for the standard setting (64
  antennas, standard edges), and the proof that they fit the
  `[24, 4096, 2016, 8, 24]` arrays once the hour is wrapped.
- `Common`: `Option`, `Result` and `Distinct`.

The kernel methods are proved against `Histogram.Increment`, the sum over
all `(dump, channel, baseline)` visits that land in a voxel. Each method
states the new contents of both arrays in terms of that function, and the
lemmas beside it state what the function means. The driver's loop is
proved to leave the arrays exactly as one kernel call over the whole file
would, so every dump is counted once.

`kathprfi.py` does not parse as Python 3: it has a Python 2 `print e` and a
mis-indented block in its command-line part. Its helper functions are read
as Python 3 (true division in `m/60`, banker's rounding), like the other
two files.

A configuration line made only of blanks is not skipped: `line.replace(' ','')[0]`
raises `IndexError`; `Config.ClassifyLine` marks it `Malformed`.

## Model

| member | source | states |
|---|---|---|
| HourBinning.PyRound | kathprfi_single_file.py:197-198 | the result is within 0.5 of the argument, and at an exact half it is even (Python 3 `round`) |
| HourBinning.HourBinCases | kathprfi_single_file.py:196-202 | the bin is the hour itself below 30:00 past the hour, the next hour above it, the even one of the two at exactly 30:00, and 24 becomes 0 only with the wrap |
| HourBinning.HourBinWrapInRange | kathprfi_single_file.py:199-202 | with the wrap every bin is in [0, 23] |
| HourBinning.HourBinNoWrapRange | kathprfiUHF.py:134-137 | without the wrap the bin is in [0, 24], and it is 24 exactly from 23:30:00 on |
| HourBinning.HourBinVariants | kathprfi.py:119-122 | the wrapping and non-wrapping variants agree except that the first maps 24 to 0 |
| HourBinning.LateEveningOutsideTimeAxis | kathprfiUHF.py:136 | 23:45:00 gets bin 24 without the wrap and 0 with it |
| HourBinning.GetTimeIdx | kathprfi_single_file.py:195-203 | one bin per dump, in dump order, each the bin of that dump's time |
| AngleBinning.AzMatchesSound | kathprfi_single_file.py:224-226 | every index the azimuth scan emits names a bin `[bins[j], bins[j+1])` that holds the azimuth |
| AngleBinning.AzMatchesComplete | kathprfi_single_file.py:224-226 | every bin that holds the azimuth is emitted |
| AngleBinning.AzMatchesAscending | kathprfi_single_file.py:224-226 | the emitted indices are strictly ascending |
| AngleBinning.AzBinExists | kathprfi_single_file.py:224-225 | an azimuth between the first and the last edge lies in some bin |
| AngleBinning.AzBinUnique | kathprfi_single_file.py:225 | with strictly increasing edges at most one bin holds an azimuth |
| AngleBinning.AzBinWithinEdges | kathprfi_single_file.py:225 | with strictly increasing edges an azimuth that lies in a bin is within the outer edges |
| AngleBinning.AzMatchesIncreasing | kathprfi_single_file.py:222-227 | with strictly increasing edges an azimuth gets exactly one index, its bin, inside `[bins[0], bins[-1])` and none outside |
| AngleBinning.ElMatchesSound | kathprfi_single_file.py:247-249 | every index the elevation scan emits names a bin `[bins[j], bins[j] + 10)` that holds the elevation |
| AngleBinning.ElMatchesComplete | kathprfi_single_file.py:247-249 | every bin that holds the elevation is emitted |
| AngleBinning.ElMatchesAscending | kathprfi_single_file.py:247-249 | the emitted indices are strictly ascending |
| AngleBinning.ElBinUnique | kathprfi_single_file.py:248 | with edges at least 10 apart at most one bin holds an elevation |
| AngleBinning.ElMatchesSpaced | kathprfi_single_file.py:244-250 | with edges at least 10 apart an elevation gets at most one index, and that bin holds it |
| AngleBinning.StdAzMatches | kathprfiUHF.py:149-155 | with the edges `np.arange(0, 370, 15)` an azimuth in [0, 360) gets exactly `floor(az / 15)`, which is below 24, and any other azimuth gets nothing |
| AngleBinning.StdAzBin | kathprfiUHF.py:152 | bin `j` of the standard azimuth edges is `[15 j, 15 (j + 1))` for `j < 24` and holds exactly the azimuths whose floor of `az / 15` is `j` |
| AngleBinning.StdElMatches | kathprfiUHF.py:170-173 | with the edges `np.arange(10, 90, 10)` an elevation in [10, 90) gets exactly `floor(el / 10) - 1`, which is below 8, and any other elevation gets nothing |
| AngleBinning.StdElBin | kathprfiUHF.py:172 | bin `j` of the standard elevation edges holds exactly the elevations in [10, 90) whose floor of `el / 10` is `j + 1` |
| AngleBinning.StdAzIdx | kathprfiUHF.py:149-155 | with the standard edges `get_az_idx` is a filter and a map: the azimuths in [0, 360), in input order, each replaced by its bin |
| AngleBinning.StdElIdx | kathprfiUHF.py:168-175 | with the standard edges `get_el_idx` keeps the elevations in [10, 90), in input order, each replaced by its bin |
| AngleBinning.StdAzIdxTotal | kathprfiUHF.py:149-155 | azimuths in [0, 360) keep one index per dump: same length, entry `n` is `floor(az[n] / 15)` < 24 |
| AngleBinning.StdAzReferenceTotal | kathprfiUHF.py:149-155 | the filter-and-map reference keeps one bin per azimuth when every azimuth is in [0, 360) |
| AngleBinning.StdElIdxLength | kathprfiUHF.py:168-175 | the elevation indices are never longer than the elevations, and strictly shorter once one elevation is outside [10, 90) |
| AngleBinning.StdElIdxTotal | kathprfiUHF.py:168-175 | elevations all in [10, 90) keep one index per dump: same length, entry `n` is `floor(el[n] / 10) - 1` < 8 |
| AngleBinning.StdElReferenceTotal | kathprfiUHF.py:168-175 | the filter-and-map reference keeps one bin per elevation when every elevation is in [10, 90) |
| AngleBinning.GetAzIdx | kathprfi_single_file.py:222-227 | the nested append loop returns, in order, every matching edge index of every azimuth |
| AngleBinning.GetElIdx | kathprfi_single_file.py:244-250 | the nested append loop with the fixed width 10 returns every matching edge index of every elevation |
| Baselines.Decimal | kathprfi_single_file.py:293 | the decimal spelling of a number is a non-empty digit string without leading zero, of at most three digits below 1000 |
| Baselines.Pad3 | kathprfi_single_file.py:293 | `{:03d}` gives at least three digits, exactly three below 1000 |
| Baselines.ValueDecimal | kathprfi_single_file.py:293 | reading the decimal spelling back gives the number |
| Baselines.ValueLeadingZeros | kathprfi_single_file.py:293 | leading zeros do not change the value of a digit string |
| Baselines.ValuePad3 | kathprfi_single_file.py:293 | the zero-padded field reads back as the number it was formatted from |
| Baselines.SecondName | kathprfi_single_file.py:293 | in `m{i:03d}m{j:03d}` the second `m` follows the digits of `i`, and the two fields are the two padded numbers |
| Baselines.LabelInjective | kathprfi_single_file.py:293 | two antenna pairs with the same label are the same pair, for any number of digits |
| Baselines.TriuLength | kathprfi_single_file.py:291 | `np.triu_indices(n, 1)` has `n (n - 1) / 2` pairs |
| Baselines.TriuEntry | kathprfi_single_file.py:291 | every pair of the triangle is `i < j < n`, at its row-major position |
| Baselines.TriuAt | kathprfi_single_file.py:291 | every pair `i < j < n` occurs in the triangle, at its row-major position |
| Baselines.TriuDistinct | kathprfi_single_file.py:291 | no pair occurs twice |
| Baselines.CanonicalLabels | kathprfi_single_file.py:293 | the table has one label per pair of the triangle |
| Baselines.LabelInTableIff | kathprfi_single_file.py:291-293 | the label of `(i, j)` is in the table exactly when `i < j < nant` |
| Baselines.TableEntry | kathprfi_single_file.py:291-294 | every table entry is the label of a pair `i < j < nant` whose position is that entry's column |
| Baselines.CanonicalDistinct | kathprfi_single_file.py:293-294 | the table has no duplicate label, so the lookup is unambiguous |
| Baselines.MeerKatTableSize | kathprfiUHF.py:423 | 64 antennas give 2016 labels, the length of the arrays' baseline axis |
| Baselines.IndexOf | kathprfi_single_file.py:296 | the lookup returns the first position holding the label, and none exactly when the label is absent |
| Baselines.Missing | kathprfi_single_file.py:296 | the labels reported missing are exactly the products not in the table |
| Baselines.BlIdx | kathprfi_single_file.py:290-297 | `get_bl_idx` succeeds exactly when every product is in the table, with one index per product whose column holds that product; otherwise its `KeyError` names exactly the missing products |
| Baselines.IndexOfDistinct | kathprfi_single_file.py:294-296 | in a table without duplicates the lookup of an entry finds that entry's own position |
| Baselines.IndexOfPair | kathprfi_single_file.py:291-296 | a product naming `i < j < nant` resolves to the position of `(i, j)` in `np.triu_indices(nant, 1)` |
| Baselines.BlIdxOfPairs | kathprfi_single_file.py:290-297 | when every product names a pair `i < j < nant`, `get_bl_idx` returns those pairs' row-major positions |
| Baselines.BlIdxFound | kathprfi_single_file.py:296 | when the lookup finds every product, the result lists the positions it found |
| Baselines.BlIdxRejects | kathprfi_single_file.py:296 | an autocorrelation, a reversed pair or an antenna index of at least `nant` raises `KeyError` with that label |
| Baselines.BlIdxDistinct | kathprfi_single_file.py:290-297 | distinct products get distinct indices, each below `nant (nant - 1) / 2` |
| Baselines.DropLast | kathprfi_single_file.py:270 | `s[0:-1]` drops exactly the last character |
| Baselines.CorrProdOfInputs | kathprfi_single_file.py:270 | the inputs `m{i:03d}` and `m{j:03d}` with a polarisation letter each give the label of `(i, j)` |
| Baselines.GetCorrProds | kathprfi_single_file.py:267-271 | one label per correlation product, in order |
| Config.Split | kathprfi_single_file.py:53 | `split` on a one-character separator gives pieces without the separator, more than one exactly when the separator occurs, the first being the text before its first occurrence |
| Config.JoinSplit | kathprfi_single_file.py:53 | joining the pieces with the separator gives the text back |
| Config.SplitJoin | kathprfi_single_file.py:56 | splitting the join of separator-free pieces gives the pieces back |
| Config.SplitFirst | kathprfi_single_file.py:56 | a separator-free first piece is the first piece split off |
| Config.StripLeft | kathprfi_single_file.py:57 | `lstrip` removes a whitespace prefix and leaves a text not starting with whitespace |
| Config.StripRight | kathprfi_single_file.py:57 | `rstrip` removes a whitespace suffix and leaves a text not ending with whitespace |
| Config.StripPadded | kathprfi_single_file.py:57-58 | `strip` recovers a text whose ends are not whitespace from any whitespace padding |
| Config.StripEnds | kathprfi_single_file.py:57-58 | a stripped text has no whitespace at either end |
| Config.StripIdempotent | kathprfi_single_file.py:57-58 | stripping twice is stripping once |
| Config.RemoveSpaces | kathprfi_single_file.py:54 | `replace(' ', '')` leaves no blank |
| Config.RemoveSpacesHead | kathprfi_single_file.py:54 | removing blanks leaves nothing exactly for a line of blanks, and otherwise starts with the line's first non-blank character |
| Config.ClassifyLineCases | kathprfi_single_file.py:54-58 | a line is skipped exactly when empty or commented; it raises exactly when made of blanks, or neither empty nor commented and without `=`; an entry's key is the stripped text before the first `=`, and its value the stripped text between the first `=` and the next `=` or the end of the line |
| Config.Config2Dic | kathprfi_single_file.py:50-61 | the line loop returns the dictionary of `ParseConfig`, or the `IndexError` of its first malformed line |
| Config.ParseKindsKeys | kathprfi_single_file.py:53-59 | the keys of the dictionary are exactly the keys of the entry lines |
| Config.ParseKindsLast | kathprfi_single_file.py:59 | a key holds the value of the last line that sets it |
| Config.ParseKindsError | kathprfi_single_file.py:53-58 | reading fails exactly when some line is malformed, and reports the first one |
| Config.ParseConfigError | kathprfi_single_file.py:53-58 | `config2dic` of a text fails exactly when one of its lines is malformed and reports the first such line |
| Antennas.RemoveFirst | kathprfi_single_file.py:91 | `list.remove` deletes one occurrence: one element shorter, multiset minus that element |
| Antennas.RemoveFirstAfter | kathprfi_single_file.py:91 | the occurrence removed is the first one |
| Antennas.RemoveBadAnts | kathprfi_single_file.py:79-94 | the three loops return exactly the antennas never stopped, in input order, and no `remove` fails |
| Antennas.RemoveBadAntsStep | kathprfi_single_file.py:89-93 | each pass of the removal loop moves the next antenna from the rest to the kept antennas, or removes its first copy when it was stopped |
| Antennas.StoppedRemoved | kathprfi_single_file.py:90-91 | the first copy of a stopped antenna is the one right after the antennas already kept |
| Antennas.RunningKept | kathprfi_single_file.py:92-93 | an antenna that never stopped stays in place and joins the kept antennas |
| Antennas.GoodAntsSnoc | kathprfi_single_file.py:89-93 | one more antenna is kept after the others exactly when it never stopped |
| Antennas.GoodAntsMember | kathprfi_single_file.py:79-94 | an antenna is kept exactly when it is listed and never stopped |
| Antennas.NoneStopped | kathprfi_single_file.py:79-94 | with no stopped antenna the list is returned whole |
| Antennas.GoodAntsSplit | kathprfi_single_file.py:79-94 | the filter distributes over concatenation, so the kept antennas keep their relative order |
| FileListing.Stem | kathprfiUHF.py:273 | `entry[0:10]` is the prefix of length `min(10, len(entry))` |
| FileListing.SetToSeq | kathprfiUHF.py:285 | `list(set)` lists every element of the set exactly once |
| FileListing.NameFiles | kathprfiUHF.py:296-299 | every stem gives `<stem>_sdp_l0.full.rdb` and `<stem>_sdp_l0_flags.h5`, pairwise by index |
| FileListing.ScanFlags | kathprfiUHF.py:274-282 | one scan of the flag listing adds the stems of the `*.h5` entries, or the `*.rdb*` entries without flag files |
| FileListing.GetFiles | kathprfiUHF.py:254-305 | with flag files the pairs are named from an enumeration of the stems common to both listings; without, both results list the distinct visibility entries |
| FileListing.GetFilesH5 | kathprfi.py:210-234 | the pairs are named from an enumeration of the stems common to the visibility entries and the `*.h5` flag entries |
| FileListing.NamedPairsDistinct | kathprfi.py:226-232 | no visibility file and no flag file is named twice |
| FileListing.NamedPairsMember | kathprfiUHF.py:284-299 | a pair is listed exactly when its stem begins both a visibility entry and an `*.h5` flag entry |
| FlagReduction.AnyFlag | kathprfi_single_file.py:152 | `np.any` over a group of channels is true exactly when one of them is flagged |
| FlagReduction.NewFlagChunk | kathprfi_single_file.py:135-153 | dumps and baselines are kept, there are `ceil(f / 8)` channel groups, and a group is flagged exactly when one of its channels `8 g .. min(8 g + 8, f) - 1` is |
| FlagReduction.ChannelGroup | kathprfi_single_file.py:152 | channel `k` belongs to group `k / 8` |
| FlagReduction.FlagKept | kathprfi_single_file.py:152 | a flagged channel flags its group |
| FlagReduction.FlagFromGroup | kathprfi_single_file.py:152 | a group is flagged only when one of its own channels is |
| FlagReduction.NoFlagsStayUnflagged | kathprfi_single_file.py:152 | a chunk without flags reduces to one without flags |
| FlagReduction.FullResolution | kathprfi_single_file.py:136-152 | 32768 channels reduce to 4096 full groups of eight |
| Histogram.SumJSplit | kathprfi_single_file.py:333-335 | the visits of consecutive dump ranges add up |
| Histogram.SumISplit | kathprfi_single_file.py:332-335 | the visits of consecutive dump ranges add up over all baselines |
| Histogram.FlaggedAtMostVisits | kathprfi_single_file.py:334-335 | with 0/1 flags a voxel never gains more in `Master` than in `Counter` |
| Histogram.CountedIffVisited | kathprfi_single_file.py:331-335 | `Counter` gains at a voxel exactly when some dump and baseline land there; a voxel nobody lands in gains nothing in either array |
| Histogram.FullyFlaggedChannel | kathprfi_single_file.py:334-335 | a channel flagged throughout gains as much in `Master` as in `Counter` |
| Histogram.CleanChannel | kathprfi_single_file.py:334 | a channel never flagged leaves `Master` unchanged |
| Histogram.MasterWithinCounter | kathprfi_single_file.py:334-335 | a voxel whose flagged count is at most its visit count keeps that property while the visit count does not wrap |
| Histogram.UpdateArrays | kathprfi_single_file.py:326-336 | every voxel of `Master` gains its flagged visits and every voxel of `Counter` all its visits, modulo 65536; all other cells are unchanged |
| Histogram.UpdateBlock | kathprfi_single_file.py:328-331 | one 128-channel block adds the visits of its channels and changes no other channel |
| Histogram.UpdateChannel | kathprfi_single_file.py:331-335 | the baseline loop of channel `k` adds the visits of channel `k` and changes no other voxel |
| Histogram.UpdateBaseline | kathprfi_single_file.py:333-335 | the dump loop of channel `k` and baseline `i` adds exactly those visits |
| Histogram.UpdateVoxel | kathprfi_single_file.py:334-335 | one visit adds the flag to `Master` and 1 to `Counter` at its voxel, wrapping modulo 65536, and nothing elsewhere |
| Driver.Slice | kathprfiUHF.py:434-438 | a slice `[lo : hi]` has the clamped length and starts at element `lo` |
| Driver.ChunkWellFormed | kathprfiUHF.py:434-439 | a chunk of well-formed kernel arguments is well-formed, with its indices still in bounds |
| Driver.ChunkIncrement | kathprfiUHF.py:434-440 | what the kernel adds for a chunk is the file's visits over the chunk's dumps |
| Driver.AccumulatedStep | kathprfiUHF.py:439-440 | a kernel call on dumps `lo .. hi-1`, applied to arrays holding the dumps before `lo`, leaves them holding the dumps before `hi` |
| Driver.AccumulatedEnd | kathprfiUHF.py:431 | once the loop has passed the last dump the arrays hold their start plus the whole file's increment |
| Driver.AccumulateFile | kathprfiUHF.py:428-440 | the chunk loop leaves both arrays as one kernel call over all dumps would: each dump is counted exactly once |
| Driver.AccumulateChunks | kathprfiUHF.py:431-440 | `range(0, ntime, 8)` hands every dump to the kernel, chunk after chunk |
| Driver.AccumulateChunk | kathprfi.py:331-336 | one pass of the loop body moves the arrays from holding the dumps before `tm` to holding those before `tm + 8` |
| Driver.KernelChunk | kathprfiUHF.py:434-440 | the kernel call on the slices adds the chunk's own increment to both arrays |
| Pipeline.StandardBatchInBounds | kathprfiUHF.py:415-423 | with 64 antennas, the standard edges, azimuths in [0, 360), elevations in [10, 90) and wrapped hours, every index fits the `[24, 4096, 2016, 8, 24]` arrays |
| Pipeline.UnwrappedHourLeavesAxis | kathprfiUHF.py:134-137 | without the wrap a dump at 23:45 gives kernel arguments outside the 24-long time axis |

## Left out

- Reading the observation with `katdal`, `h5py` and `dask` is not modelled: `readfile`, `select_and_apply_with_good_ants`, `selection`, `vis.sensor` and `vis.corr_products` are calls into libraries. The antenna names with their activity lists, the correlation products and the flag cube are parameters.
- `get_az_and_el` is not modelled: it is a floating-point `mean`/`nanmean` over antennas. The mean angles are parameters, and a NaN angle is not represented.
- Turning Unix timestamps into local time is not modelled (`datetime.fromtimestamp` depends on the time zone). `get_time_idx` starts from the `(H, M, S)` fields that `strftime` produces.
- Numba's `prange` runs the channel blocks in parallel. The model runs them in order, which gives the same result because the blocks touch disjoint channels.
- AngleBinning.StdAzIdxTotal: assumes every azimuth is in [0, 360). The floating-point `% 360` at kathprfiUHF.py:111 can return exactly 360.0 for a mean just below 0; such a dump falls in no standard bin and gets no azimuth index, which shortens `az_idx` against `time_idx` and `el_idx`. Pipeline.StandardBatchInBounds takes the same premise.
- Antennas.RemoveBadAnts: requires every antenna to have an `<name>_activity` sensor; the `KeyError` that `vis.sensor[AntName+'_activity']` raises for an antenna without one is not modelled.
- Driver.AccumulateFile: requires, through `Aligned`, one elevation index and one azimuth index per dump, as does Histogram.UpdateArrays. The source runs on a file where some angle was dropped: the slices `el_idx[tm:tm+8]` and `az_idx[tm:tm+8]` then pair every dump from the dropped one on with the next dump's bin, and in the last chunk the kernel reads one entry past the end of the shorter slice, which numba does not check. Such a file is not modelled, so Pipeline.StandardBatchInBounds assumes every elevation is in [10, 90) and every azimuth in [0, 360).
- HourBinning.HourValue: `H + M/60 + S/3600` is a floating-point sum in Python and an exact rational here. The rounded hour is the same: the only tie, 30 minutes past the hour, is exact in binary, and every other time is at least 1/3600 of an hour away from a half.
- FileListing.MatchesH5 and FileListing.MatchesRdb are case-sensitive, as `fnmatch.fnmatch` is on POSIX; on Windows `os.path.normcase` makes it ignore case, which is not modelled.
- Histogram.UpdateArrays: requires every index it writes to be inside the arrays and the flag cube to have 4096 channels. The compiled kernel checks neither, and an out-of-range write has no defined result.
- Histogram.UpdateArrays: flags are booleans; the driver's `astype(int)` turns them into 0 and 1, which is what `Weight` adds.
- Reading the configuration file (`open`, `read`, `close`) and `os.listdir` in `get_files` are not modelled: the text and the listings are parameters.
- `get_token_files` (`np.genfromtxt`) is not modelled: it only reads a file.
- The command-line parts are not modelled: argument parsing, the loop over files with its `try`/`except`, the `len(fullvis.freqs) == 4096` and empty-shape guards, `goodfiles`/`badfiles`, timing prints and saving the arrays.
- Driver.AccumulateFile: models the chunk loop for one file; the arrays are not reset between files, and accumulating over several files is the same step repeated.
- kathprfi_tester.py, script/kathprfi_script.py, kathprfi/stack.py, kathprfi/2Dhist.py, setup.py and the offline flagger are not part of this model: they are callers, downstream plotting and packaging.
- FileListing.GetFiles: the order of `list(set(...))` is not specified by Python; the model picks any enumeration and states only that each element appears once.
- `print` calls inside the functions are left out: they only log.

## Findings

| source | as written | input that shows it | evidently intended | confidence | as-written member | corrected member |
|---|---|---|---|---|---|---|
| kathprfiUHF.py:134-137 | the hour is `round(H + M/60 + S/3600)` with no mapping of 24 back to 0 (also kathprfi.py:119-122) | a dump at local time 23:45:00 gets hour 24, one past the last index of the 24-long time axis allocated at kathprfiUHF.py:370, and the kernel writes outside `Master` and `Counter` | map 24 to 0 as kathprfi_single_file.py:199-202 does, so every hour bin is in [0, 23] | not executed; follows from the rounding for every time from 23:30:00 on | HourBinning.HourBinNoWrapRange, Pipeline.UnwrappedHourLeavesAxis | HourBinning.HourBinWrapInRange, Pipeline.StandardBatchInBounds |
