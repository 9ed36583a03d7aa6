/**
 * The VLA calibrator manual of vla_cal/parse_calibrator_manual.py:
 * `parse_cal_man` reads the manual's text into one record per calibrator
 * with its per-band qualities and fluxes, and `dicts_to_table` lays the
 * records out as a table of 39 columns.
 *
 * Python's `float()` is the parameter `parseNum` (nothing where it raises
 * ValueError) and `np.nan` the parameter `nan`; a `SkyCoord` is kept as the
 * two tokens it is built from, and its `.ra.deg` / `.dec.deg` are the
 * parameters `raDeg` / `decDeg`.
 */
module CalManual {
  import opened Wrappers
  import opened PyText
  import opened PyDict

  /** The exceptions `parse_cal_man` can raise. */
  datatype CalError =
    | J2000LineTooShort  // IndexError: a J2000 line with fewer than five tokens
    | SourceUnbound      // UnboundLocalError: a band row before any J2000 line

  /** One band row: `Name`, the four `Quality` letters and `Flux`. */
  datatype Band<F> = Band(name: string, a: string, b: string, c: string, d: string, flux: F)

  /**
   * One calibrator: the fixed keys `jname`, `PC` and `coordinates`, and its
   * bands under their names (which never clash with the fixed keys, see
   * `BandKeysAreNotFixedKeys`).
   */
  datatype Source<F> = Source(jname: string, pc: string, coordinates: (string, string), bands: map<string, Band<F>>)

  const J2000: string := "J2000"
  const BandMarker: string := "BAND"

  /** What the loop looks at in one line: its tokens and whether it holds `J2000` or `BAND`. */
  datatype CalLine = CalLine(toks: seq<string>, j2000: bool, band: bool)

  function ReadCalLine(line: string): CalLine {
    CalLine(Tokens(line), Contains(line, J2000), Contains(line, BandMarker))
  }

  /** `text.split("\n")`, each line read. */
  function ReadCalLines(text: string): (ls: seq<CalLine>)
    ensures |ls| == |Split(text, "\n")|
    ensures forall i | 0 <= i < |ls| :: ls[i] == ReadCalLine(Split(text, "\n")[i])
  {
    var lines := Split(text, "\n");
    seq(|lines|, i requires 0 <= i < |lines| => ReadCalLine(lines[i]))
  }

  /** The loop's variables: `start_recording`, the jname of `source` once bound, and `table`. */
  datatype CalState<F> = CalState(recording: bool, current: Option<string>, table: Dict<string, Source<F>>) {
    /** `source` is always the record `table` holds under its jname. */
    ghost predicate Inv() {
      && table.Valid()
      && (current.Some? ==> current.value in table.items)
      && (forall k | k in table.items :: table.items[k].jname == k)
    }
  }

  function InitialCal<F>(): (st: CalState<F>)
    ensures st.Inv()
  {
    CalState(false, None, EmptyDict())
  }

  /** The band record of a row of at least seven tokens. */
  function RowBand<F>(toks: seq<string>, parseNum: string -> Option<F>, nan: F): Band<F>
    requires |toks| >= 7
  {
    Band(toks[0] + " " + toks[1], toks[2], toks[3], toks[4], toks[5],
         if parseNum(toks[6]).Some? then parseNum(toks[6]).value else nan)
  }

  /** The first check of the loop body: a J2000 line opens and registers a new source and stops recording. */
  function J2000Check<F>(st: CalState<F>, l: CalLine): (r: Result<CalState<F>, CalError>)
    requires st.Inv()
    ensures r.Ok? ==> r.value.Inv()
  {
    if !l.j2000 then Ok(st)
    else if |l.toks| < 5 then Err(J2000LineTooShort)
    else
      var source := Source(l.toks[0], l.toks[2], (l.toks[3], l.toks[4]), map[]);
      Ok(CalState(false, Some(source.jname), st.table.Set(source.jname, source)))
  }

  /** The remaining checks: a BAND line starts recording; while recording, a long row adds a band to `source`. */
  function BandCheck<F>(st: CalState<F>, l: CalLine, parseNum: string -> Option<F>, nan: F): (r: Result<CalState<F>, CalError>)
    requires st.Inv()
    ensures r.Ok? ==> r.value.Inv()
  {
    if l.band then Ok(st.(recording := true))
    else if !st.recording || |l.toks| < 7 then Ok(st)
    else if st.current.None? then Err(SourceUnbound)
    else
      var band := RowBand(l.toks, parseNum, nan);
      var source := st.table.items[st.current.value];
      Ok(st.(table := st.table.Set(st.current.value, source.(bands := source.bands[band.name := band]))))
  }

  /** One pass of the loop body. */
  function CalStep<F>(st: CalState<F>, l: CalLine, parseNum: string -> Option<F>, nan: F): (r: Result<CalState<F>, CalError>)
    requires st.Inv()
    ensures r.Ok? ==> r.value.Inv()
  {
    match J2000Check(st, l)
    case Err(e) => Err(e)
    case Ok(next) => BandCheck(next, l, parseNum, nan)
  }

  /** The loop over the remaining lines. */
  function CalScan<F>(st: CalState<F>, ls: seq<CalLine>, parseNum: string -> Option<F>, nan: F): Result<CalState<F>, CalError>
    requires st.Inv()
    decreases |ls|
  {
    if ls == [] then Ok(st)
    else match CalStep(st, ls[0], parseNum, nan)
      case Err(e) => Err(e)
      case Ok(next) => CalScan(next, ls[1..], parseNum, nan)
  }

  /** What `parse_cal_man` returns for `text`, or its exception. */
  function CalTable<F>(text: string, parseNum: string -> Option<F>, nan: F): Result<Dict<string, Source<F>>, CalError> {
    match CalScan(InitialCal(), ReadCalLines(text), parseNum, nan)
    case Err(e) => Err(e)
    case Ok(st) => Ok(st.table)
  }

  /** The first `if` of the loop body. */
  method J2000Line<F>(st: CalState<F>, line: string) returns (r: Result<CalState<F>, CalError>)
    requires st.Inv()
    ensures r == J2000Check(st, ReadCalLine(line))
  {
    var lsplit := Tokens(line);
    if Contains(line, J2000) {
      if |lsplit| < 5 {
        return Err(J2000LineTooShort);
      }
      var source := Source(lsplit[0], lsplit[2], (lsplit[3], lsplit[4]), map[]);
      return Ok(CalState(false, Some(source.jname), st.table.Set(source.jname, source)));
    }
    r := Ok(st);
  }

  /** The second and third `if` of the loop body; the `continue` skips the third. */
  method BandLine<F>(st: CalState<F>, line: string, parseNum: string -> Option<F>, nan: F) returns (r: Result<CalState<F>, CalError>)
    requires st.Inv()
    ensures r == BandCheck(st, ReadCalLine(line), parseNum, nan)
  {
    var lsplit := Tokens(line);
    if Contains(line, BandMarker) {
      return Ok(st.(recording := true));
    }
    if st.recording && |lsplit| >= 7 {
      var flux := parseNum(lsplit[6]);
      var band := Band(lsplit[0] + " " + lsplit[1], lsplit[2], lsplit[3], lsplit[4], lsplit[5],
                       if flux.Some? then flux.value else nan);
      if st.current.None? {
        return Err(SourceUnbound);
      }
      var source := st.table.items[st.current.value];
      return Ok(st.(table := st.table.Set(st.current.value, source.(bands := source.bands[band.name := band]))));
    }
    r := Ok(st);
  }

  /** `parse_cal_man`: the loop over the lines of the manual. */
  method ParseCalMan<F>(text: string, parseNum: string -> Option<F>, nan: F) returns (r: Result<Dict<string, Source<F>>, CalError>)
    ensures r == CalTable(text, parseNum, nan)
  {
    var lines := Split(text, "\n");
    ghost var ls := ReadCalLines(text);
    var st: CalState<F> := InitialCal();
    for i := 0 to |lines|
      invariant st.Inv()
      invariant CalScan(st, ls[i..], parseNum, nan) == CalScan(InitialCal(), ls, parseNum, nan)
    {
      assert ls[i..][0] == ReadCalLine(lines[i]) && ls[i..][1..] == ls[i + 1..];
      var afterJ2000 := J2000Line(st, lines[i]);
      if afterJ2000.Err? {
        return Err(afterJ2000.error);
      }
      var next := BandLine(afterJ2000.value, lines[i], parseNum, nan);
      if next.Err? {
        return Err(next.error);
      }
      st := next.value;
    }
    assert ls[|lines|..] == [];
    r := Ok(st.table);
  }

  /**
   * A J2000 line (not also a BAND line) with five tokens registers a new
   * source under its first token, replacing any earlier one of that name
   * in place, makes it the current source and stops recording.
   */
  lemma StepJ2000<F>(st: CalState<F>, l: CalLine, parseNum: string -> Option<F>, nan: F)
    requires st.Inv()
    requires l.j2000 && !l.band
    ensures |l.toks| < 5 <==> CalStep(st, l, parseNum, nan) == Err(J2000LineTooShort)
    ensures |l.toks| >= 5 ==>
      var r := CalStep(st, l, parseNum, nan);
      && r.Ok? && !r.value.recording && r.value.current == Some(l.toks[0])
      && r.value.table.items == st.table.items[l.toks[0] := Source(l.toks[0], l.toks[2], (l.toks[3], l.toks[4]), map[])]
      && (l.toks[0] in st.table.items ==> r.value.table.keys == st.table.keys)
      && (l.toks[0] !in st.table.items ==> r.value.table.keys == st.table.keys + [l.toks[0]])
  {
  }

  /**
   * A line holding both J2000 and BAND first registers its source as a J2000
   * line does, then turns recording back on; it is not read as a band row.
   */
  lemma StepJ2000Band<F>(st: CalState<F>, l: CalLine, parseNum: string -> Option<F>, nan: F)
    requires st.Inv()
    requires l.j2000 && l.band
    ensures |l.toks| < 5 <==> CalStep(st, l, parseNum, nan) == Err(J2000LineTooShort)
    ensures |l.toks| >= 5 ==>
      var r := CalStep(st, l, parseNum, nan);
      && r.Ok? && r.value.recording && r.value.current == Some(l.toks[0])
      && r.value.table.items == st.table.items[l.toks[0] := Source(l.toks[0], l.toks[2], (l.toks[3], l.toks[4]), map[])]
      && (l.toks[0] in st.table.items ==> r.value.table.keys == st.table.keys)
      && (l.toks[0] !in st.table.items ==> r.value.table.keys == st.table.keys + [l.toks[0]])
  {
  }

  /** A BAND line (without J2000) starts recording and is not read as a band row. */
  lemma StepBandMarker<F>(st: CalState<F>, l: CalLine, parseNum: string -> Option<F>, nan: F)
    requires st.Inv()
    requires !l.j2000 && l.band
    ensures CalStep(st, l, parseNum, nan) == Ok(st.(recording := true))
  {
  }

  /**
   * While recording, a row of seven or more tokens adds its band to the
   * current source (replacing a band of the same name) and changes nothing
   * else; before any J2000 line it raises. Shorter rows, and any row while
   * not recording, change nothing.
   */
  lemma StepBandRow<F>(st: CalState<F>, l: CalLine, parseNum: string -> Option<F>, nan: F)
    requires st.Inv()
    requires !l.j2000 && !l.band
    ensures !st.recording || |l.toks| < 7 ==> CalStep(st, l, parseNum, nan) == Ok(st)
    ensures st.recording && |l.toks| >= 7 && st.current.None? ==> CalStep(st, l, parseNum, nan) == Err(SourceUnbound)
    ensures st.recording && |l.toks| >= 7 && st.current.Some? ==>
      var r := CalStep(st, l, parseNum, nan);
      var cur := st.current.value;
      var band := RowBand(l.toks, parseNum, nan);
      && r.Ok? && r.value.recording && r.value.current == st.current
      && r.value.table.keys == st.table.keys
      && r.value.table.items.Keys == st.table.items.Keys
      && (forall k | k in st.table.items && k != cur :: r.value.table.items[k] == st.table.items[k])
      && r.value.table.items[cur].jname == st.table.items[cur].jname
      && r.value.table.items[cur].pc == st.table.items[cur].pc
      && r.value.table.items[cur].coordinates == st.table.items[cur].coordinates
      && r.value.table.items[cur].bands == st.table.items[cur].bands[band.name := band]
  {
  }

  /** The flux of a band row is its seventh token as a number, or NaN when that does not convert. */
  lemma RowBandFields<F>(toks: seq<string>, parseNum: string -> Option<F>, nan: F)
    requires |toks| >= 7
    ensures RowBand(toks, parseNum, nan).name == toks[0] + " " + toks[1]
    ensures ' ' in RowBand(toks, parseNum, nan).name
    ensures var b := RowBand(toks, parseNum, nan); b.a == toks[2] && b.b == toks[3] && b.c == toks[4] && b.d == toks[5]
    ensures parseNum(toks[6]).Some? ==> RowBand(toks, parseNum, nan).flux == parseNum(toks[6]).value
    ensures parseNum(toks[6]).None? ==> RowBand(toks, parseNum, nan).flux == nan
  {
    assert (toks[0] + " " + toks[1])[|toks[0]|] == ' ';
  }

  /** The line opens a source named `k`. */
  predicate OpensSource(l: CalLine, k: string) {
    l.j2000 && |l.toks| >= 5 && l.toks[0] == k
  }

  /** The sources of the table are those there before and those the J2000 lines open; no other line adds one. */
  lemma {:induction false} CalScanKeys<F>(st: CalState<F>, ls: seq<CalLine>, parseNum: string -> Option<F>, nan: F)
    requires st.Inv()
    requires CalScan(st, ls, parseNum, nan).Ok?
    ensures forall k :: k in CalScan(st, ls, parseNum, nan).value.table.items <==>
      k in st.table.items || exists i | 0 <= i < |ls| :: OpensSource(ls[i], k)
    decreases |ls|
  {
    if ls != [] {
      var next := CalStep(st, ls[0], parseNum, nan).value;
      assert forall k :: k in next.table.items <==> k in st.table.items || OpensSource(ls[0], k);
      CalScanKeys(next, ls[1..], parseNum, nan);
      forall k ensures k in CalScan(st, ls, parseNum, nan).value.table.items <==>
        k in st.table.items || exists i | 0 <= i < |ls| :: OpensSource(ls[i], k)
      {
        if exists i | 0 <= i < |ls[1..]| :: OpensSource(ls[1..][i], k) {
          var i :| 0 <= i < |ls[1..]| && OpensSource(ls[1..][i], k);
          assert OpensSource(ls[i + 1], k);
        }
        if exists i | 0 <= i < |ls| :: OpensSource(ls[i], k) {
          var i :| 0 <= i < |ls| && OpensSource(ls[i], k);
          if i > 0 {
            assert OpensSource(ls[1..][i - 1], k);
          }
        }
      }
    }
  }

  /** Every band key holds a space, and names its own band. */
  ghost predicate BandKeysSpaced<F>(table: map<string, Source<F>>) {
    forall s, n | s in table && n in table[s].bands :: ' ' in n && table[s].bands[n].name == n
  }

  /** The scan only ever stores bands under their own names, which hold a space. */
  lemma {:induction false} CalScanBandKeys<F>(st: CalState<F>, ls: seq<CalLine>, parseNum: string -> Option<F>, nan: F)
    requires st.Inv() && BandKeysSpaced(st.table.items)
    requires CalScan(st, ls, parseNum, nan).Ok?
    ensures BandKeysSpaced(CalScan(st, ls, parseNum, nan).value.table.items)
    decreases |ls|
  {
    if ls != [] {
      var l := ls[0];
      if !l.j2000 && !l.band && |l.toks| >= 7 {
        RowBandFields(l.toks, parseNum, nan);
      }
      var next := CalStep(st, l, parseNum, nan).value;
      assert BandKeysSpaced(next.table.items);
      CalScanBandKeys(next, ls[1..], parseNum, nan);
    }
  }

  /** The fixed keys of a source dict hold no space, so no band key can overwrite them. */
  lemma BandKeysAreNotFixedKeys(n: string)
    requires ' ' in n
    ensures n != "jname" && n != "PC" && n != "coordinates"
  {
  }

  // ---------------------------------------------------------------------------
  // dicts_to_table
  // ---------------------------------------------------------------------------

  /** The seven bands of the table, in column order. */
  const BandNames: seq<string> := ["90cm P", "20cm L", "6cm C", "3.7cm X", "2cm U", "1.3cm K", "0.7cm Q"]

  /** The five columns of each band. */
  const Suffixes: seq<string> := ["A", "B", "C", "D", "Flux"]

  /** The four columns before the band columns. */
  const FixedColumns: seq<string> := ["Source Name", "RA2000", "Dec2000", "PC"]

  /** Column `4 + 5 * ii + k` belongs to band `ii` and suffix `k`. */
  lemma BandIndex(ii: nat, k: nat)
    requires k < 5
    ensures (4 + 5 * ii + k - 4) / 5 == ii && (4 + 5 * ii + k - 4) % 5 == k
  {
  }

  /**
   * The 39 column names: the fixed four, then
   * `[band + ":" + suffix for band in BandNames for suffix in Suffixes]`.
   */
  function ColumnNames(): (names: seq<string>)
    ensures |names| == 39
  {
    seq(39, c requires 0 <= c < 39 =>
      if c < 4 then FixedColumns[c] else BandNames[(c - 4) / 5] + ":" + Suffixes[(c - 4) % 5])
  }

  /** Data index `4 + 5 * ii + k` is the column of band `ii`, suffix `k`; there are 4 + 5 * 7 columns. */
  lemma ColumnNamesLayout(ii: nat, k: nat)
    requires ii < 7 && k < 5
    ensures |ColumnNames()| == |FixedColumns| + |BandNames| * |Suffixes|
    ensures ColumnNames()[..4] == FixedColumns
    ensures ColumnNames()[4 + 5 * ii + k] == BandNames[ii] + ":" + Suffixes[k]
  {
    BandIndex(ii, k);
  }

  /** A table cell: text, or a number (a coordinate in degrees, or a flux). */
  datatype Cell<F> = Text(text: string) | Number(num: F)

  /** The five cells of one band: its qualities and flux, or blanks and NaN when the source lacks it. */
  function BandCells<F>(source: Source<F>, band: string, nan: F): (cells: seq<Cell<F>>)
    ensures |cells| == 5
  {
    if band in source.bands then
      var b := source.bands[band];
      [Text(b.a), Text(b.b), Text(b.c), Text(b.d), Number(b.flux)]
    else [Text(" "), Text(" "), Text(" "), Text(" "), Number(nan)]
  }

  /** The 39 cells a source contributes, one per column. */
  function SourceRow<F>(name: string, source: Source<F>, raDeg: ((string, string)) -> F, decDeg: ((string, string)) -> F, nan: F)
    : (row: seq<Cell<F>>)
    ensures |row| == 39
  {
    var fixed := [Text(name), Number(raDeg(source.coordinates)), Number(decDeg(source.coordinates)), Text(source.pc)];
    seq(39, c requires 0 <= c < 39 =>
      if c < 4 then fixed[c] else BandCells(source, BandNames[(c - 4) / 5], nan)[(c - 4) % 5])
  }

  /**
   * Columns `4+5*ii` to `4+5*ii+4` of a row are the qualities and flux of band
   * `BandNames[ii]`; a band the source lacks gives blanks and NaN.
   */
  lemma SourceRowBands<F>(name: string, source: Source<F>, raDeg: ((string, string)) -> F, decDeg: ((string, string)) -> F, nan: F,
                          ii: nat)
    requires ii < 7
    ensures var row := SourceRow(name, source, raDeg, decDeg, nan);
      && (BandNames[ii] in source.bands ==>
            var b := source.bands[BandNames[ii]];
            row[4 + 5 * ii .. 9 + 5 * ii] == [Text(b.a), Text(b.b), Text(b.c), Text(b.d), Number(b.flux)])
      && (BandNames[ii] !in source.bands ==>
            row[4 + 5 * ii .. 9 + 5 * ii] == [Text(" "), Text(" "), Text(" "), Text(" "), Number(nan)])
  {
    var row := SourceRow(name, source, raDeg, decDeg, nan);
    forall k | 0 <= k < 5 ensures row[4 + 5 * ii + k] == BandCells(source, BandNames[ii], nan)[k] {
      BandIndex(ii, k);
    }
    assert row[4 + 5 * ii .. 9 + 5 * ii] == BandCells(source, BandNames[ii], nan);
  }

  /** Bands outside the seven listed ones do not reach the table. */
  lemma SourceRowIgnoresOtherBands<F>(name: string, source: Source<F>, raDeg: ((string, string)) -> F, decDeg: ((string, string)) -> F, nan: F,
                                      other: string, b: Band<F>)
    requires other !in BandNames
    ensures SourceRow(name, source.(bands := source.bands[other := b]), raDeg, decDeg, nan)
         == SourceRow(name, source, raDeg, decDeg, nan)
  {
    var s' := source.(bands := source.bands[other := b]);
    forall i | 0 <= i < 7 ensures BandCells(s', BandNames[i], nan) == BandCells(source, BandNames[i], nan) {
      assert BandNames[i] != other;
    }
  }

  /** The five appends of one band: `cells[k]` goes to the end of column `base + k`. */
  method AppendBand<F>(coldata: seq<seq<Cell<F>>>, base: nat, cells: seq<Cell<F>>) returns (out: seq<seq<Cell<F>>>)
    requires base + 5 <= |coldata| && |cells| == 5
    ensures |out| == |coldata|
    ensures forall c | base <= c < base + 5 :: out[c] == coldata[c] + [cells[c - base]]
    ensures forall c | 0 <= c < |coldata| && !(base <= c < base + 5) :: out[c] == coldata[c]
  {
    out := coldata;
    out := out[base := out[base] + [cells[0]]];
    out := out[base + 1 := out[base + 1] + [cells[1]]];
    out := out[base + 2 := out[base + 2] + [cells[2]]];
    out := out[base + 3 := out[base + 3] + [cells[3]]];
    out := out[base + 4 := out[base + 4] + [cells[4]]];
  }

  /** The body of `dicts_to_table`'s loop for one source: its value appended to every column list. */
  method AppendSource<F>(coldata: seq<seq<Cell<F>>>, sourcename: string, source: Source<F>,
                         raDeg: ((string, string)) -> F, decDeg: ((string, string)) -> F, nan: F)
    returns (out: seq<seq<Cell<F>>>)
    requires |coldata| == 39
    ensures |out| == 39
    ensures forall c | 0 <= c < 39 :: out[c] == coldata[c] + [SourceRow(sourcename, source, raDeg, decDeg, nan)[c]]
  {
    ghost var row := SourceRow(sourcename, source, raDeg, decDeg, nan);
    out := coldata;
    out := out[0 := out[0] + [Text(sourcename)]];
    out := out[1 := out[1] + [Number(raDeg(source.coordinates))]];
    out := out[2 := out[2] + [Number(decDeg(source.coordinates))]];
    out := out[3 := out[3] + [Text(source.pc)]];
    for ii := 0 to 7
      invariant |out| == 39
      invariant forall c | 0 <= c < 4 + 5 * ii :: out[c] == coldata[c] + [row[c]]
      invariant forall c | 4 + 5 * ii <= c < 39 :: out[c] == coldata[c]
    {
      var band := BandNames[ii];
      var cells;
      if band in source.bands {
        var b := source.bands[band];
        cells := [Text(b.a), Text(b.b), Text(b.c), Text(b.d), Number(b.flux)];
      } else {
        cells := [Text(" "), Text(" "), Text(" "), Text(" "), Number(nan)];
      }
      SourceRowBands(sourcename, source, raDeg, decDeg, nan, ii);
      assert forall c | 4 + 5 * ii <= c < 9 + 5 * ii :: row[c] == row[4 + 5 * ii .. 9 + 5 * ii][c - (4 + 5 * ii)];
      out := AppendBand(out, 4 + 5 * ii, cells);
    }
  }

  /**
   * `dicts_to_table`: one value per source, in the table's order, appended to
   * every one of the 39 column lists; then the columns zipped with their names.
   */
  method DictsToTable<F>(data: Dict<string, Source<F>>, raDeg: ((string, string)) -> F, decDeg: ((string, string)) -> F, nan: F)
    returns (tbl: seq<(string, seq<Cell<F>>)>)
    requires data.Valid()
    ensures |tbl| == 39
    ensures forall c | 0 <= c < 39 :: tbl[c].0 == ColumnNames()[c]
    ensures forall c | 0 <= c < 39 :: |tbl[c].1| == |data.keys|
    ensures forall c, r | 0 <= c < 39 && 0 <= r < |data.keys| ::
      tbl[c].1[r] == SourceRow(data.keys[r], data.items[data.keys[r]], raDeg, decDeg, nan)[c]
  {
    var columns := ColumnNames();
    var coldata: seq<seq<Cell<F>>> := seq(39, _ => []);
    for r := 0 to |data.keys|
      invariant |coldata| == 39
      invariant forall c | 0 <= c < 39 :: |coldata[c]| == r
      invariant forall c, r' | 0 <= c < 39 && 0 <= r' < r ::
        coldata[c][r'] == SourceRow(data.keys[r'], data.items[data.keys[r']], raDeg, decDeg, nan)[c]
    {
      var sourcename := data.keys[r];
      coldata := AppendSource(coldata, sourcename, data.items[sourcename], raDeg, decDeg, nan);
    }
    tbl := seq(39, c requires 0 <= c < 39 => (columns[c], coldata[c]));
  }
}
