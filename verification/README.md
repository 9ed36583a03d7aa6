# Radio-astronomy reduction scripts: the text, table and array core

This project models, in Dafny, the data-handling core of a collection of
radio-astronomy data-reduction scripts. It covers five parts.

- **CASA parameter files.** `load_paramfile` reads `key = "value"` lines into a dict (`paramfile.dfy`).
- **tclean summaries.** `create_tclean_output_table` and the stand-alone
  `gather_tclean_outputs.py` script both gather the per-channel result dicts
  of a tclean run into the columns of one table. Each stop code is then
  decoded into the message that explains it (`tclean.dfy`).
- **Calibrator fluxes.** `parse_logfile` scans a VLA pipeline log for the power-law fits of
  each calibrator, keyed by source and frequency. `get_date_from_listobs` reads the observing date
  from a listobs summary. `process_weblog` and `process_all_weblogs` key each weblog's fluxes by
  that date and merge them (`cal_fluxes.dfy`).
- **The VLA calibrator manual.** `parse_cal_man` reads the manual's text into one record per calibrator.
  Each record holds the calibrator's position code, coordinates and per-band qualities and fluxes.
  `dicts_to_table` lays the records out in 39 columns (`cal_manual.dfy`).
- **Weight density.** The array bookkeeping of `plot_weight_density` covers:
  - the channel-0 slice of the flag cube;
  - its reconciliation with the weight array's shape, including the transpose;
  - the in-place zeroing of flagged weights;
  - the bin edges, bin centres and annular bin areas (`weight_density.dfy`).

Shared Python behaviour lives in three support modules:
- `pytext.dfy`: `in` on str, `str.split(sep)`, `str.split()`, `str.strip`, the ordering of `list.sort()` on str, and POSIX `os.path.join`;
- `pydict.dfy`: the insertion order of `dict`;
- `wrappers.dfy`: `Option` and `Result`.

Each Python exception the core can raise is a constructor of an error datatype, returned through `Result`.

Every loop over lines, files, sources or bands is a method with a loop, proved equal to a specification function. The two loops that set each key of `all_dict` (to an empty list, and then to a table column) are comprehensions: `Tclean.EmptyColumns` and the column map of `Tclean.Tabulate`.
- **Line scanners.** The line is first read into the facts the loop body tests (`ReadLine`, `ReadLogLine`, `ReadCalLine`). A fold over those facts (`Store`, `Scan`, `DateScan`, `CalScan`) is the specification. The properties of the scan are lemmas about that fold.
- **Table builders** are checked against `Gather`, `SourceRow` and `ColumnNames`.
- **Weights.** The masking modifies an `array2<real>` in place.

Inputs the scripts read from disk, the network or CASA are parameters:
- glob results and directory walks: the file names found;
- `np.load`: a function from file name to dict;
- file contents: their decoded lines or text.

Python's `float()`, `np.nan` and the `SkyCoord` degree conversions are also parameters (`parseNum`, `nan`, `raDeg`, `decDeg`). `parseNum` yields nothing where `float()` raises ValueError.

Where the code and its description disagree, the model follows the code.
- **Shape mismatches.** A flag/weight shape mismatch raises the script's own ValueError only when the flags' first dimension differs from the weights' second. Flags whose transpose has the weights' shape pass that test and are transposed (`WeightDensity.ReconcileResult`). A mismatch that passes the test but whose transpose still does not fit fails later at the mask assignment (`WeightDensity.OneDimensionPassesMismatch`).
- **The calibrator manual.** It is parsed by whitespace tokens, not by the two regular expressions `parse_cal_man` compiles and never uses.

## Model

| member | source | states |
|---|---|---|
| ParamFile.ReadLine | single_channel_imaging/sequential_clean_submission.py:46-52 | A line is skipped exactly when its first character is `#` or it is a bare newline; an empty line is the IndexError of `line[0]`; any other line is malformed exactly when `split(" = ")` gives other than two parts. |
| ParamFile.ReadLineEntry | single_channel_imaging/sequential_clean_submission.py:49-52 | A stored line is a raw key, one ` = ` and a raw value, where neither the raw key nor the raw value contains ` = `; the stored key is the raw key stripped, with no whitespace at either end; the stored value is stripped of whitespace then of `"`, with no `"` at either end. |
| ParamFile.ReadLines | single_channel_imaging/sequential_clean_submission.py:45-46 | Every line of the file is read, in order. |
| ParamFile.StoreLine | single_channel_imaging/sequential_clean_submission.py:47-52 | One pass of the loop body skips the line, stores its entry, or raises, exactly as one step of `Store`. |
| ParamFile.StoreFirst | single_channel_imaging/sequential_clean_submission.py:46-52 | Loading lines stores the first one, then the rest into the result; an exception stops the loading. |
| ParamFile.LoadParamfile | single_channel_imaging/sequential_clean_submission.py:38-54 | The loop over the file's lines returns the dict (or the exception) of the fold `Store` over the read lines, starting from `{}`. |
| ParamFile.StoreSucceedsIff | single_channel_imaging/sequential_clean_submission.py:47-49 | Loading succeeds exactly when no line is empty or splits into other than two parts. |
| ParamFile.StoreFailsAtFirstMalformed | single_channel_imaging/sequential_clean_submission.py:47-49 | A failed load reports the exception of the first malformed line, all lines before it being well formed. |
| ParamFile.StoreKeys | single_channel_imaging/sequential_clean_submission.py:47-52 | The loaded keys are exactly the keys of the entry lines; comments and blank lines contribute none. |
| ParamFile.StoreKeepsUnmentioned | single_channel_imaging/sequential_clean_submission.py:52 | A key no later line mentions keeps its value. |
| ParamFile.StoreLastWins | single_channel_imaging/sequential_clean_submission.py:52 | A key given on several lines holds the value of its last line. |
| PyText.FindFrom | vla_cal/parse_calibrator_manual.py:34 | Finds the first occurrence of a substring at or after a position, or reports that there is none. |
| PyText.ContainsIff | vla_cal/parse_cal_fluxes.py:25-27 | `sub in s` holds exactly when `sub` occurs at some index of `s`. |
| PyText.Split | single_channel_imaging/sequential_clean_submission.py:49 | `s.split(sep)` has at least one piece. |
| PyText.SplitJoin | single_channel_imaging/sequential_clean_submission.py:49 | Joining the pieces of `s.split(sep)` with `sep` gives `s` back. |
| PyText.PrefixBeforeFirstIsFree | single_channel_imaging/sequential_clean_submission.py:49 | The text before the first occurrence of `sep` does not contain `sep`. |
| PyText.SplitPiecesAreFree | single_channel_imaging/sequential_clean_submission.py:49 | No piece of `s.split(sep)` contains `sep`. |
| PyText.SplitSingle | single_channel_imaging/sequential_clean_submission.py:49 | `s.split(sep)` is `[s]` exactly when `sep` does not occur in `s`. |
| PyText.AfterLastIsFree | vla_cal/parse_cal_fluxes.py:34 | `s.split(sep)[-1]` contains no `sep`, and is all of `s` when `sep` does not occur. |
| PyText.WordEnd | vla_cal/parse_cal_fluxes.py:34 | A run of non-whitespace characters ends at whitespace or at the end of the text. |
| PyText.Tokens | vla_cal/parse_cal_fluxes.py:34 | Every token of `s.split()` is non-empty and free of whitespace. |
| PyText.TokensOfWordThenSpace | vla_cal/parse_cal_fluxes.py:34 | A word then a space then text splits into the word followed by the tokens of the text. |
| PyText.TokensOfJoin | vla_cal/parse_calibrator_manual.py:32 | `split()` of words joined by single spaces gives the words back. |
| PyText.LeadingRun | single_channel_imaging/sequential_clean_submission.py:52 | The characters `lstrip` removes are exactly the leading run of stripped characters. |
| PyText.TrailingStart | single_channel_imaging/sequential_clean_submission.py:52 | The characters `rstrip` removes are exactly the trailing run of stripped characters. |
| PyText.Strip | single_channel_imaging/sequential_clean_submission.py:52 | `strip` keeps a contiguous middle of the text, removing only stripped characters before and after it, and a non-empty result neither starts nor ends with a stripped character. |
| PyText.StrLessIrreflexive | single_channel_imaging/sequential_clean_submission.py:83 | No string sorts before itself. |
| PyText.StrLessTotal | single_channel_imaging/sequential_clean_submission.py:83 | Any two distinct strings are ordered one way or the other. |
| PyText.StrLessTransitive | single_channel_imaging/sequential_clean_submission.py:83 | String order is transitive. |
| PyText.StrLessEqTransitive | single_channel_imaging/sequential_clean_submission.py:83 | Non-strict string order is transitive. |
| PyText.StrLessAfterCommonPrefix | single_channel_imaging/sequential_clean_submission.py:83 | Prefixing both strings with the same text keeps their order. |
| PyText.Insert | single_channel_imaging/sequential_clean_submission.py:83 | Inserting an element adds exactly that element. |
| PyText.InsertAscending | single_channel_imaging/sequential_clean_submission.py:83 | Inserting into an ascending list keeps it ascending. |
| PyText.SortStrings | single_channel_imaging/sequential_clean_submission.py:83 | `files.sort()` yields a permutation of the files in ascending string order. |
| PyText.PathJoin | single_channel_imaging/gather_tclean_outputs.py:27 | `os.path.join(a, b)` ends with `b`; unless `b` is absolute it is `a` and `b` with at most a `/` between them. |
| PyDict.Dict.Set | vla_cal/parse_calibrator_manual.py:39 | `d[k] = v` keeps the dict well formed, maps `k` to `v`, keeps an existing key in its place and puts a new key last. |
| PyDict.EmptyDict | vla_cal/parse_calibrator_manual.py:29 | `{}` has no keys. |
| Tclean.EmptyColumns | single_channel_imaging/sequential_clean_submission.py:90-94 | The first dict's keys each start with an empty column, and no other key has one. |
| Tclean.GatherColumns | single_channel_imaging/sequential_clean_submission.py:85-97 | The gather loop computes `Gather` of the loaded dicts, including its NameError and KeyError cases. |
| Tclean.AppendDictOk | single_channel_imaging/sequential_clean_submission.py:96-97 | Appending a dict whose keys all have columns grows each of its keys' columns by its value and leaves the other columns alone. |
| Tclean.AppendDictStray | single_channel_imaging/sequential_clean_submission.py:96-97 | The first key of a dict without a column raises KeyError for that key. |
| Tclean.AppendDictsOk | single_channel_imaging/sequential_clean_submission.py:85-97 | When every dict's keys have columns, each column grows by that key's values over the dicts, in file order. |
| Tclean.AppendDictsStray | single_channel_imaging/sequential_clean_submission.py:85-97 | When some dict has a key without a column, gathering raises KeyError for such a key. |
| Tclean.StrayInFirst | single_channel_imaging/sequential_clean_submission.py:96-97 | A key of the first remaining dict without a column raises KeyError for a key without a column. |
| Tclean.StrayLater | single_channel_imaging/sequential_clean_submission.py:85-97 | When the first dict's keys all have columns, a key without one in a later dict raises KeyError for such a key. |
| Tclean.FirstStrayKey | single_channel_imaging/sequential_clean_submission.py:96-97 | A dict with a key that has no column has a first such key. |
| Tclean.GatherResult | single_channel_imaging/gather_tclean_outputs.py:32-44 | Gathering fails with NameError exactly when there are no files; it succeeds exactly when every dict's keys are among the first dict's keys; the columns are then the first dict's keys in its order, each holding its values over all files; otherwise a KeyError names a key the first dict lacks. |
| Tclean.ColumnOfSameKeys | single_channel_imaging/sequential_clean_submission.py:85-105 | When every file has a key, its column holds one value per file, in file order. |
| Tclean.StopCodesTable | single_channel_imaging/sequential_clean_submission.py:107-116 | The stop-code table covers exactly the codes 0..8, with distinct messages, the longest being the 39 characters of the `S39` buffer. |
| Tclean.FirstOutOfRange | single_channel_imaging/sequential_clean_submission.py:120-124 | The first code outside 0..8 is found exactly when there is one: it is out of range and every code before it is in range. |
| Tclean.ExplainStopCodes | single_channel_imaging/sequential_clean_submission.py:118-126 | The message list is built exactly when every code is in 0..8, each message explaining the code at its place; otherwise the ValueError names the first code outside the range. |
| Tclean.Each | single_channel_imaging/sequential_clean_submission.py:85-87 | Each sorted file is loaded, and each value of the `stopcode` column read as a code, one result per element in order. |
| Tclean.Tabulate | single_channel_imaging/gather_tclean_outputs.py:49-76 | The table is built exactly when the `nsigma` and `stopcode` columns exist and every code is in 0..8. It keeps every gathered column in order and adds `stopcode_exp` explaining `stopcode`. A missing `nsigma` raises KeyError first, then a missing `stopcode`, then the first out-of-range code. |
| Tclean.CreateTcleanOutputTable | single_channel_imaging/sequential_clean_submission.py:57-130 | No file found means no table and no exception. Otherwise the sorted, loaded files are gathered: a gathering exception is raised as is, for gathered columns of equal length, a table is returned exactly when they are decodable, and it is their output table; otherwise the decoding exception is raised: KeyError for a missing `nsigma`, then for a missing `stopcode`, then the ValueError of the first out-of-range code. |
| Tclean.SearchPatternIsOwnComponent | single_channel_imaging/gather_tclean_outputs.py:27 | For a `filename` not ending in `/`, the glob pattern puts `_channel_*` in its own path component under `path/filename`. |
| Tclean.OutputPathShape | single_channel_imaging/gather_tclean_outputs.py:80 | The output file ends in `.h5` and lies under `path`, unless `filename` is absolute. |
| Tclean.ChannelTenBeforeTwo | single_channel_imaging/gather_tclean_outputs.py:29-30 | The string sort puts channel 10 before channel 2, whatever follows the numbers. |
| Tclean.GatherTcleanOutputs | single_channel_imaging/gather_tclean_outputs.py:27-80 | With no file the script raises NameError. Otherwise it raises the gathering exception, or, for gathered columns of equal length, produces the output table exactly when they are decodable, written to `path/filename.h5`; otherwise it raises the decoding exception: KeyError for a missing `nsigma`, then for a missing `stopcode`, then the ValueError of the first out-of-range code. |
| CalFluxes.MarkerText | vla_cal/parse_cal_fluxes.py:30-31 | Both splitters are non-empty. |
| CalFluxes.ReadLogLines | vla_cal/parse_cal_fluxes.py:22-23 | Every log line is read, in order. |
| CalFluxes.StartLineSplitter | vla_cal/parse_cal_fluxes.py:25-31 | A start line selects the casa splitter exactly when it holds it, the pipeline splitter otherwise; the selected splitter occurs in the line. |
| CalFluxes.ParseAll | vla_cal/parse_cal_fluxes.py:40 | The list of floats exists exactly when every token converts, and holds their values in order. |
| CalFluxes.ParseQuad | vla_cal/parse_cal_fluxes.py:40-43 | The four values are unpacked exactly when there are four tokens that all convert; anything else is skipped like the caught ValueError. |
| CalFluxes.Initial | vla_cal/parse_cal_fluxes.py:19-21 | The scan starts idle with an empty table. |
| CalFluxes.StartCheck | vla_cal/parse_cal_fluxes.py:25-31 | The start check keeps the current source in the table. |
| CalFluxes.HeaderCheck | vla_cal/parse_cal_fluxes.py:33-35 | The header check keeps the current source in the table. |
| CalFluxes.DataCheck | vla_cal/parse_cal_fluxes.py:37-45 | The data check keeps the current source in the table. |
| CalFluxes.Step | vla_cal/parse_cal_fluxes.py:25-45 | One pass of the loop body keeps the current source in the table. |
| CalFluxes.ScanVars.State | vla_cal/parse_cal_fluxes.py:21-35 | The script's variables as a scan state keep the current source in the table. |
| CalFluxes.SplitterText | vla_cal/parse_cal_fluxes.py:37-38 | Testing and splitting by the splitter string is testing and splitting by its marker. |
| CalFluxes.StartLine | vla_cal/parse_cal_fluxes.py:25-31 | The first `if` of the loop body is the start check. |
| CalFluxes.HeaderLine | vla_cal/parse_cal_fluxes.py:33-35 | The second `if` is the header check, including the IndexError of a header without a name. |
| CalFluxes.DataLine | vla_cal/parse_cal_fluxes.py:37-45 | The third `if` is the data check, including the unbound `source_name` of a data line before any header. |
| CalFluxes.ScanLine | vla_cal/parse_cal_fluxes.py:22-45 | The loop body is one step of the scan. |
| CalFluxes.ParseLogfile | vla_cal/parse_cal_fluxes.py:9-47 | `parse_logfile` returns the table, or the exception, of the scan over the read lines. |
| CalFluxes.ScanIdleBeforeStart | vla_cal/parse_cal_fluxes.py:25-37 | Before any start line, no line changes anything. |
| CalFluxes.ScanKeepsRecording | vla_cal/parse_cal_fluxes.py:28 | Once recording has started it never stops. |
| CalFluxes.ScanKeysAreNamed | vla_cal/parse_cal_fluxes.py:33-35 | Every source in the table is the first token after the splitter in force at some header line, that splitter being the one the last start line at or before it selected. |
| CalFluxes.StepHeader | vla_cal/parse_cal_fluxes.py:33-35 | A header line that is not also a data line makes its first token the current source with an emptied entry, or raises IndexError when it has no token. |
| CalFluxes.StepHeaderData | vla_cal/parse_cal_fluxes.py:33-45 | A line that is both a header and a data line makes its first token the current source, with an entry holding only this line's triple at its frequency. |
| CalFluxes.StepData | vla_cal/parse_cal_fluxes.py:37-45 | A data line that is not also a header stores `(flux, eflux, fitflux)` under the current source at its frequency, replacing an earlier triple there and changing nothing else; before any header it raises. |
| CalFluxes.StepSkips | vla_cal/parse_cal_fluxes.py:37-43 | While recording, a line that is neither a header nor four numbers changes neither the source nor the table. |
| CalFluxes.GetDateFromListobs | vla_cal/parse_cal_fluxes.py:49-63 | The loop returns the date, or the exception, of the date scan over the lines. |
| CalFluxes.DateScanErrors | vla_cal/parse_cal_fluxes.py:59-63 | An `Observed from` line with nothing after it raises IndexError, and a summary without such a line leaves the date unbound; each holds exactly then. |
| CalFluxes.DateScanUndated | vla_cal/parse_cal_fluxes.py:59-63 | Lines without `Observed from` leave the date as it was: unbound when none was read. |
| CalFluxes.DateScanValue | vla_cal/parse_cal_fluxes.py:59-63 | When the date is read, it is the first token after `Observed from` on the last line that holds it. |
| CalFluxes.ProcessWeblog | vla_cal/parse_cal_fluxes.py:65-88 | `process_weblog` calls the two readers in its branch's order and returns `{date: fluxes}`. |
| CalFluxes.WeblogTableResult | vla_cal/parse_cal_fluxes.py:65-88 | A weblog yields `{date: fluxes}` exactly when its listobs exists and both readers succeed. When both fail, an archive reports the listobs error and a directory the flux-log error. |
| CalFluxes.WeblogTables | vla_cal/parse_cal_fluxes.py:97-103 | Each weblog found is processed, in order. |
| CalFluxes.ProcessAllWeblogs | vla_cal/parse_cal_fluxes.py:90-106 | The loop returns the merge, by `update`, of the weblogs' tables in the order found. |
| CalFluxes.MergeKeys | vla_cal/parse_cal_fluxes.py:103 | A merge succeeds only when every weblog was read, and its dates are those of the weblogs. |
| CalFluxes.MergeKeepsUntouched | vla_cal/parse_cal_fluxes.py:103 | A date no later weblog has keeps its fluxes. |
| CalFluxes.MergeLastWins | vla_cal/parse_cal_fluxes.py:103 | A date shared by several weblogs holds the fluxes of the last of them. |
| CalManual.ReadCalLines | vla_cal/parse_calibrator_manual.py:30-32 | Every line of `text.split("\n")` is read, in order. |
| CalManual.InitialCal | vla_cal/parse_calibrator_manual.py:27-29 | The scan starts not recording, with no source and an empty table. |
| CalManual.J2000Check | vla_cal/parse_calibrator_manual.py:34-40 | The J2000 check keeps `source` the record the table holds under its jname. |
| CalManual.BandCheck | vla_cal/parse_calibrator_manual.py:42-59 | The BAND and row checks keep `source` the record the table holds under its jname. |
| CalManual.CalStep | vla_cal/parse_calibrator_manual.py:32-59 | One pass of the loop body keeps `source` the record the table holds under its jname. |
| CalManual.J2000Line | vla_cal/parse_calibrator_manual.py:34-40 | The first `if` of the loop body is the J2000 check, including the IndexError of a short line. |
| CalManual.BandLine | vla_cal/parse_calibrator_manual.py:42-59 | The BAND `if` with its `continue`, and the row `if`, are the band check, including the unbound `source`. |
| CalManual.ParseCalMan | vla_cal/parse_calibrator_manual.py:22-61 | `parse_cal_man` returns the table, or the exception, of the scan over the lines. |
| CalManual.StepJ2000 | vla_cal/parse_calibrator_manual.py:34-40 | A J2000 line raises IndexError exactly when it has fewer than five tokens. Otherwise it registers a fresh source under its first token (an existing name keeps its place), makes it current and stops recording. |
| CalManual.StepBandMarker | vla_cal/parse_calibrator_manual.py:42-44 | A BAND line starts recording and is not read as a row. |
| CalManual.StepJ2000Band | vla_cal/parse_calibrator_manual.py:34-44 | A line holding both J2000 and BAND raises IndexError exactly when it has fewer than five tokens; otherwise it registers its source as a J2000 line does, makes it current, and leaves recording on. |
| CalManual.StepBandRow | vla_cal/parse_calibrator_manual.py:46-59 | While recording, a row of at least seven tokens adds its band to the current source, replacing a band of the same name, and changes nothing else; without a source it raises. Short rows, and rows while not recording, change nothing. |
| CalManual.RowBandFields | vla_cal/parse_calibrator_manual.py:48-57 | A band's name is its first two tokens joined by a space; its quality fields A to D are the third to sixth tokens; its flux is the seventh token as a float, or NaN when that does not convert. |
| CalManual.CalScanKeys | vla_cal/parse_calibrator_manual.py:34-39 | The sources of the table are exactly those the J2000 lines of at least five tokens open. |
| CalManual.CalScanBandKeys | vla_cal/parse_calibrator_manual.py:48-59 | Every band of every source is stored under its own name, which holds a space. |
| CalManual.BandKeysAreNotFixedKeys | vla_cal/parse_calibrator_manual.py:36-38 | A band name can never overwrite `jname`, `PC` or `coordinates`. |
| CalManual.ColumnNames | vla_cal/parse_calibrator_manual.py:66 | There are 39 column names. |
| CalManual.ColumnNamesLayout | vla_cal/parse_calibrator_manual.py:65-66 | The names are the four fixed ones, then `band:suffix` for each of the 7 bands and 5 suffixes, with band `ii` and suffix `k` at column `4 + 5*ii + k`. |
| CalManual.BandCells | vla_cal/parse_calibrator_manual.py:77-89 | A band contributes five cells. |
| CalManual.SourceRow | vla_cal/parse_calibrator_manual.py:70-89 | A source contributes one cell to each of the 39 columns. |
| CalManual.SourceRowBands | vla_cal/parse_calibrator_manual.py:77-89 | Columns `4+5*ii` to `8+5*ii` of a source hold the four qualities and the flux of band `ii`, or four blanks and NaN when the source lacks that band. |
| CalManual.SourceRowIgnoresOtherBands | vla_cal/parse_calibrator_manual.py:77 | Bands outside the seven listed ones do not change a source's row. |
| CalManual.AppendBand | vla_cal/parse_calibrator_manual.py:78-89 | The five appends of one band add one cell at the end of each of its five columns and change no other column. |
| CalManual.AppendSource | vla_cal/parse_calibrator_manual.py:70-89 | One pass of the source loop appends the source's row, one cell per column. |
| CalManual.DictsToTable | vla_cal/parse_calibrator_manual.py:63-93 | The table has 39 columns, named as `ColumnNames`, each with one cell per source in the table's order, the cell of source `r` in column `c` being `SourceRow(...)[c]`. |
| WeightDensity.ChannelZero | casa_7m12m_tools/weight_density_uv_plot.py:26 | The flags are the channel-0 plane of the flag cube, of shape (polarizations, rows); a cube without channels raises IndexError. |
| WeightDensity.Transpose | casa_7m12m_tools/weight_density_uv_plot.py:37 | `flags.T` swaps the shape and the indices. |
| WeightDensity.TransposeTwice | casa_7m12m_tools/weight_density_uv_plot.py:37 | Transposing twice gives the flags back. |
| WeightDensity.ReconcileResult | casa_7m12m_tools/weight_density_uv_plot.py:35-41 | The shape check passes exactly when the shapes are equal or the flags' first dimension equals the weights' second. Equal shapes keep the flags; otherwise they are transposed; a failure is the ValueError naming both shapes. |
| WeightDensity.ReconcileFitsIff | casa_7m12m_tools/weight_density_uv_plot.py:35-45 | The checked flags fit the weights exactly when the flags had the weights' shape or its transpose. |
| WeightDensity.OneDimensionPassesMismatch | casa_7m12m_tools/weight_density_uv_plot.py:36-37 | Flags of shape (3, 4) against weights of shape (2, 3) pass the check and become (4, 3), which does not fit. |
| WeightDensity.ZeroFlagged | casa_7m12m_tools/weight_density_uv_plot.py:45 | `wt[flags] = 0` sets every flagged weight to 0 and leaves every other weight unchanged. |
| WeightDensity.SeqMin | casa_7m12m_tools/weight_density_uv_plot.py:33 | `uvd.min()` is a UV distance no greater than any other. |
| WeightDensity.SeqMax | casa_7m12m_tools/weight_density_uv_plot.py:33 | `uvd.max()` is a UV distance no less than any other. |
| WeightDensity.Linspace | casa_7m12m_tools/weight_density_uv_plot.py:33 | `np.linspace` gives exactly `nbins` edges. |
| WeightDensity.LinspaceAt | casa_7m12m_tools/weight_density_uv_plot.py:33 | Each default edge lies between the least and greatest distance and does not exceed the next. |
| WeightDensity.LinspaceEdges | casa_7m12m_tools/weight_density_uv_plot.py:33 | The default edges start at the least distance, end at the greatest, and climb in between. |
| WeightDensity.Midbins | casa_7m12m_tools/weight_density_uv_plot.py:52 | There is one bin centre fewer than there are edges. |
| WeightDensity.BinArea | casa_7m12m_tools/weight_density_uv_plot.py:54 | There is one annular area fewer than there are edges. |
| WeightDensity.MidbinsWithin | casa_7m12m_tools/weight_density_uv_plot.py:52 | Each bin centre lies between its bin's edges. |
| WeightDensity.AnnulusNonNegative | casa_7m12m_tools/weight_density_uv_plot.py:54 | An annulus between non-negative radii, inner first, has non-negative area. |
| WeightDensity.BinAreaNonNegative | casa_7m12m_tools/weight_density_uv_plot.py:54 | Climbing non-negative edges give non-negative annular areas. |
| WeightDensity.AnnuliAdd | casa_7m12m_tools/weight_density_uv_plot.py:54 | Two adjacent annuli make up the ring they span. |
| WeightDensity.BinAreaTotal | casa_7m12m_tools/weight_density_uv_plot.py:54 | The annular areas add up to the area of the ring between the first and the last edge. |
| WeightDensity.Edges | casa_7m12m_tools/weight_density_uv_plot.py:32-33 | Given bins are used as they are. Default bins need a UV distance (else ValueError) and a non-negative count (else ValueError); they are `nbins` edges starting at the least distance and ending at the greatest. |
| WeightDensity.Prepare | casa_7m12m_tools/weight_density_uv_plot.py:26-45 | When nothing before the masking raises, the flags it yields fit the weights. |
| WeightDensity.PlotWeightDensity | casa_7m12m_tools/weight_density_uv_plot.py:4-54 | The function raises the first exception of the slice, the bins, the shape check or the mask, leaving the weights untouched. Otherwise it zeroes exactly the flagged weights in place and returns the edges with their centres and annular areas. |
| WeightDensity.DefaultBinCounts | casa_7m12m_tools/weight_density_uv_plot.py:33-54 | Default bins are `nbins` edges, with one centre and one area fewer. |
| WeightDensity.PreparedFlags | casa_7m12m_tools/weight_density_uv_plot.py:26-45 | The flags that mask the weights are the channel-0 plane when it has the weights' shape, and otherwise its transpose. |

## Left out

- Disk, network and CASA access are left out; their results are inputs. This covers:
  - `open` and `readlines`;
  - `glob`, `os.walk` and `np.load`;
  - `tarfile` and member extraction;
  - `requests` and BeautifulSoup (`get_page`);
  - `msmdtool` and `mstool` (`getdata`, channel selection);
  - the HDF5 write.

  Missing files and unreadable archives are not modelled.
- The glob result is given as the list of names found, so the pattern of `create_tclean_output_table` (`filename + "_channel_*.results_dict.npy"`) is not evaluated.
- Calls into external programs and concurrency are left out: `run_casa`, `os.system`, the `multiprocessing.Pool` fan-out and the `__main__` block of sequential_clean_submission.py.
- The `warn` call of `create_tclean_output_table` is left out; only its effect (no table) is modelled.
- The `print` of `process_all_weblogs` is left out.
- Plotting is left out: `pylab`, `plot_cal_fluxes`, `write_cal_man` and the histograms of `plot_weight_density`.
- mangum_ngc253/CubeLineMoment.py is not part of this model. It is floating-point spectral-cube numerics.
- single_channel_imaging/image_concat.py is not part of this model. It is a glob and a CASA call.
- UTF-8 decoding is not modelled; lines arrive decoded.
- Python's `float()` is the parameter `parseNum`. Which strings convert, and to what value, is not modelled.
- Floating point is not modelled. Flux values are of an abstract type `F`. Bin edges, centres and areas are exact reals, and `pi` is a parameter.
- The UV distance `sqrt(u**2 + v**2)` is not computed; the distances are an input.
- NaN frequencies are not modelled. Python would store each under a key of its own; here equal values of `F` share a key.
- `SkyCoord` is not modelled. A source's coordinates are its two tokens, `.ra.deg` / `.dec.deg` are the parameters `raDeg` / `decDeg`, and the errors of malformed coordinates are not modelled.
- The `.tgz` test (`os.path.splitext`) of `process_weblog` is the input `archived`.
- Which listobs member or file is picked is not modelled. The weblog's listobs is given, or absent, which raises IndexError.
- `list.sort()` on the found files is modelled as a function on values (`SortStrings`), not as an in-place sort.
- The dead `np.empty(table['nsigma'].shape, dtype='S39')` buffer is not modelled. Its `table['nsigma']` lookup, which raises KeyError without an `nsigma` column, is.
- astropy `Table` and `Column` are modelled as an insertion-ordered dict of columns, and `dicts_to_table` as a list of named columns; column types are not modelled.
- Tclean.Tabulate, Tclean.CreateTcleanOutputTable, Tclean.GatherTcleanOutputs: astropy's ValueError for gathered columns of unequal length (files whose dicts have different keys) is not modelled. The table is built from the columns as gathered.
- Tclean.Each: stop codes are integers (`codeOf`). A non-integer code inside 0..8 would raise KeyError in `stop_codes`, which is not modelled.
- WeightDensity.PlotWeightDensity: the histogram lines, including the IndexError of a weight array with fewer than two polarizations, are not modelled.
- WeightDensity.PlotWeightDensity: the bins argument is always a list of edges, never a bin count.
