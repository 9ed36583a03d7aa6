/**
 * The calibrator flux scanner of vla_cal/parse_cal_fluxes.py: `parse_logfile`
 * reads the fitted fluxes of each calibrator out of a VLA pipeline log,
 * `get_date_from_listobs` reads the observing date out of a listobs summary,
 * and `process_weblog` / `process_all_weblogs` key the fluxes of each weblog
 * by that date and merge them.
 *
 * Log lines are given already decoded; Python's `float()` is the parameter
 * `parseNum`, which yields nothing where `float()` raises ValueError.
 */
module CalFluxes {
  import opened Wrappers
  import opened PyText

  /** The exceptions the scanners can raise. */
  datatype FluxError =
    | NoSourceToken   // IndexError: a source header with nothing after the splitter
    | SourceUnbound   // UnboundLocalError: a data line before any source header
    | NoDateToken     // IndexError: an `Observed from` line with nothing after it
    | DateUnbound     // UnboundLocalError: no `Observed from` line at all
    | NoListobs       // IndexError: a weblog without a listobs file

  // ---------------------------------------------------------------------------
  // The markers of the pipeline log
  // ---------------------------------------------------------------------------

  /** The two log prefixes the fitted fluxes can follow. */
  datatype Marker = Pipeline | Casa

  const PipelineMarker: string := "fluxscale::pipeline.hifv.tasks.fluxscale.fluxboot::"
  const CasaMarker: string := "fluxscale::::casa"
  const PowerLawFit: string := "Fitting data with power law"
  const SpectralIndexHeader: string := "fitted spectral index & SNR"

  function MarkerText(m: Marker): (t: string)
    ensures t != []
  {
    match m
    case Pipeline => PipelineMarker
    case Casa => CasaMarker
  }

  /** What the scanner looks at in one line, for either splitter it may be using. */
  datatype LogLine = LogLine(
    start: Option<Marker>,   // a start line, and the splitter it selects
    header: bool,            // holds the spectral-index header text
    hasPipeline: bool, afterPipeline: string,
    hasCasa: bool, afterCasa: string)
  {
    /** `splitter in line`. */
    predicate Has(m: Marker) {
      match m
      case Pipeline => hasPipeline
      case Casa => hasCasa
    }

    /** `line.split(splitter)[-1]`. */
    function After(m: Marker): string {
      match m
      case Pipeline => afterPipeline
      case Casa => afterCasa
    }
  }

  /**
   * Reading one line: it starts the recording when it holds either marker and
   * the power-law text, and then selects the casa marker when present.
   */
  function ReadLogLine(line: string): LogLine {
    var pipeline := Contains(line, PipelineMarker);
    var casa := Contains(line, CasaMarker);
    LogLine(
      if (pipeline || casa) && Contains(line, PowerLawFit) then Some(if casa then Casa else Pipeline) else None,
      Contains(line, SpectralIndexHeader),
      pipeline, AfterLast(line, PipelineMarker),
      casa, AfterLast(line, CasaMarker))
  }

  /** The read line of each line. */
  function ReadLogLines(text: seq<string>): (ls: seq<LogLine>)
    ensures |ls| == |text|
    ensures forall i | 0 <= i < |text| :: ls[i] == ReadLogLine(text[i])
  {
    seq(|text|, i requires 0 <= i < |text| => ReadLogLine(text[i]))
  }

  /** A start line selects the casa marker whenever it holds it, the pipeline marker otherwise. */
  lemma StartLineSplitter(line: string)
    ensures ReadLogLine(line).start == Some(Casa) <==>
      Contains(line, CasaMarker) && Contains(line, PowerLawFit)
    ensures ReadLogLine(line).start == Some(Pipeline) <==>
      Contains(line, PipelineMarker) && !Contains(line, CasaMarker) && Contains(line, PowerLawFit)
    ensures ReadLogLine(line).start.Some? ==> Contains(line, MarkerText(ReadLogLine(line).start.value))
  {
  }

  // ---------------------------------------------------------------------------
  // Parsing the four numbers of a data line
  // ---------------------------------------------------------------------------

  /** `[float(x) for x in toks]`: nothing when some token does not convert. */
  function ParseAll<F>(toks: seq<string>, parseNum: string -> Option<F>): (r: Option<seq<F>>)
    ensures r.Some? <==> forall i | 0 <= i < |toks| :: parseNum(toks[i]).Some?
    ensures r.Some? ==> |r.value| == |toks| && forall i | 0 <= i < |toks| :: r.value[i] == parseNum(toks[i]).value
    decreases |toks|
  {
    if toks == [] then Some([])
    else match parseNum(toks[0])
      case None => None
      case Some(x) =>
        var rest := ParseAll(toks[1..], parseNum);
        assert forall i | 1 <= i < |toks| :: toks[i] == toks[1..][i - 1];
        if rest.None? then None else Some([x] + rest.value)
  }

  /** One fitted flux: frequency, flux, flux error and fitted flux. */
  datatype Quad<F> = Quad(freq: F, flux: F, eflux: F, fitflux: F)

  /** `freq, flux, eflux, fitflux = [float(x) ...]`: exactly four tokens, all numbers, or nothing. */
  function ParseQuad<F>(toks: seq<string>, parseNum: string -> Option<F>): (q: Option<Quad<F>>)
    ensures q.Some? <==> |toks| == 4 && forall i | 0 <= i < 4 :: parseNum(toks[i]).Some?
    ensures q.Some? ==> q.value == Quad(parseNum(toks[0]).value, parseNum(toks[1]).value,
                                         parseNum(toks[2]).value, parseNum(toks[3]).value)
  {
    match ParseAll(toks, parseNum)
    case None => None
    case Some(vals) => if |vals| != 4 then None else Some(Quad(vals[0], vals[1], vals[2], vals[3]))
  }

  // ---------------------------------------------------------------------------
  // parse_logfile
  // ---------------------------------------------------------------------------

  /** Fluxes by source name, then by frequency: `(flux, eflux, fitflux)`. */
  type FluxTable<F(==)> = map<string, map<F, (F, F, F)>>

  /**
   * The scanner's variables: `splitter` is bound exactly when recording has
   * started, `source_name` once a header has been read, and `table`.
   */
  datatype ScanState<F(==)> = ScanState(splitter: Option<Marker>, source: Option<string>, table: FluxTable<F>) {
    /** The current source always has an entry. */
    predicate Inv() {
      source.Some? ==> source.value in table
    }
  }

  function Initial<F(==)>(): (st: ScanState<F>)
    ensures st.Inv()
  {
    ScanState(None, None, map[])
  }

  /** The line is a data line for `m`: it holds `m` and exactly four numbers follow its last `m`. */
  predicate IsData<F>(l: LogLine, m: Marker, parseNum: string -> Option<F>) {
    l.Has(m) && ParseQuad(Tokens(l.After(m)), parseNum).Some?
  }

  /** The first check of the loop body: a start line starts the recording and (re)selects the splitter. */
  function StartCheck<F(==)>(st: ScanState<F>, l: LogLine): (r: ScanState<F>)
    requires st.Inv()
    ensures r.Inv()
  {
    if l.start.Some? then st.(splitter := l.start) else st
  }

  /** The second check: while recording, a header line names the current source and empties its entry. */
  function HeaderCheck<F(==)>(st: ScanState<F>, l: LogLine): (r: Result<ScanState<F>, FluxError>)
    requires st.Inv()
    ensures r.Ok? ==> r.value.Inv()
  {
    if st.splitter.None? || !l.header then Ok(st)
    else
      var names := Tokens(l.After(st.splitter.value));
      if names == [] then Err(NoSourceToken)
      else Ok(st.(source := Some(names[0]), table := st.table[names[0] := map[]]))
  }

  /** The third check: while recording, a data line stores its triple under the current source and frequency. */
  function DataCheck<F(==)>(st: ScanState<F>, l: LogLine, parseNum: string -> Option<F>): (r: Result<ScanState<F>, FluxError>)
    requires st.Inv()
    ensures r.Ok? ==> r.value.Inv()
  {
    if st.splitter.None? || !l.Has(st.splitter.value) then Ok(st)
    else match ParseQuad(Tokens(l.After(st.splitter.value)), parseNum)
      case None => Ok(st)
      case Some(q) =>
        if st.source.None? then Err(SourceUnbound)
        else
          var s := st.source.value;
          Ok(st.(table := st.table[s := st.table[s][q.freq := (q.flux, q.eflux, q.fitflux)]]))
  }

  /** One pass of the loop body: the three checks in turn, on the same line. */
  function Step<F(==)>(st: ScanState<F>, l: LogLine, parseNum: string -> Option<F>): (r: Result<ScanState<F>, FluxError>)
    requires st.Inv()
    ensures r.Ok? ==> r.value.Inv()
  {
    match HeaderCheck(StartCheck(st, l), l)
    case Err(e) => Err(e)
    case Ok(h) => DataCheck(h, l, parseNum)
  }

  /** The loop over the remaining lines. */
  function Scan<F(==)>(st: ScanState<F>, ls: seq<LogLine>, parseNum: string -> Option<F>): Result<ScanState<F>, FluxError>
    requires st.Inv()
    decreases |ls|
  {
    if ls == [] then Ok(st)
    else match Step(st, ls[0], parseNum)
      case Err(e) => Err(e)
      case Ok(next) => Scan(next, ls[1..], parseNum)
  }

  /** The table `parse_logfile` returns for the log `text`, or its exception. */
  function LogTable<F(==)>(text: seq<string>, parseNum: string -> Option<F>): Result<FluxTable<F>, FluxError> {
    match Scan(Initial(), ReadLogLines(text), parseNum)
    case Err(e) => Err(e)
    case Ok(st) => Ok(st.table)
  }

  /** The splitter variable of `parse_logfile` as the marker it holds. */
  function MarkerOf(splitter: string): Marker {
    if splitter == CasaMarker then Casa else Pipeline
  }

  /** The variables of `parse_logfile` between two lines: `splitter` means something only once recording. */
  datatype ScanVars<F(==)> = ScanVars(startRecording: bool, splitter: string, sourceName: Option<string>, table: FluxTable<F>) {
    predicate Valid() {
      && (startRecording ==> splitter == CasaMarker || splitter == PipelineMarker)
      && (sourceName.Some? ==> sourceName.value in table)
    }

    function State(): (st: ScanState<F>)
      requires Valid()
      ensures st.Inv()
    {
      ScanState(if startRecording then Some(MarkerOf(splitter)) else None, sourceName, table)
    }
  }

  /** What the read line says about the splitter in use is what the raw line says about its text. */
  lemma SplitterText(line: string, splitter: string)
    requires splitter == CasaMarker || splitter == PipelineMarker
    ensures MarkerText(MarkerOf(splitter)) == splitter
    ensures ReadLogLine(line).Has(MarkerOf(splitter)) == Contains(line, splitter)
    ensures ReadLogLine(line).After(MarkerOf(splitter)) == AfterLast(line, splitter)
  {
  }

  /** The first `if` of the loop body. */
  method StartLine<F(==)>(v: ScanVars<F>, line: string) returns (r: ScanVars<F>)
    requires v.Valid()
    ensures r.Valid() && r.State() == StartCheck(v.State(), ReadLogLine(line))
  {
    r := v;
    if (Contains(line, PipelineMarker) || Contains(line, CasaMarker)) && Contains(line, PowerLawFit) {
      r := r.(startRecording := true, splitter := if Contains(line, CasaMarker) then CasaMarker else PipelineMarker);
    }
  }

  /** The second `if` of the loop body. */
  method HeaderLine<F(==)>(v: ScanVars<F>, line: string) returns (r: Result<ScanVars<F>, FluxError>)
    requires v.Valid()
    ensures r.Ok? ==> r.value.Valid()
    ensures match HeaderCheck(v.State(), ReadLogLine(line))
      case Err(e) => r == Err(e)
      case Ok(st) => r.Ok? && r.value.State() == st
  {
    if v.startRecording && Contains(line, SpectralIndexHeader) {
      SplitterText(line, v.splitter);
      var names := Tokens(AfterLast(line, v.splitter));
      if names == [] {
        return Err(NoSourceToken);
      }
      return Ok(v.(sourceName := Some(names[0]), table := v.table[names[0] := map[]]));
    }
    r := Ok(v);
  }

  /** The third `if` of the loop body; `None` stands for its `continue`. */
  method DataLine<F(==)>(v: ScanVars<F>, line: string, parseNum: string -> Option<F>) returns (r: Result<ScanVars<F>, FluxError>)
    requires v.Valid()
    ensures r.Ok? ==> r.value.Valid()
    ensures match DataCheck(v.State(), ReadLogLine(line), parseNum)
      case Err(e) => r == Err(e)
      case Ok(st) => r.Ok? && r.value.State() == st
  {
    if v.startRecording && Contains(line, v.splitter) {
      SplitterText(line, v.splitter);
      var lineData := AfterLast(line, v.splitter);
      var q := ParseQuad(Tokens(lineData), parseNum);
      if q.None? {
        return Ok(v);
      }
      if v.sourceName.None? {
        return Err(SourceUnbound);
      }
      var s := v.sourceName.value;
      return Ok(v.(table := v.table[s := v.table[s][q.value.freq := (q.value.flux, q.value.eflux, q.value.fitflux)]]));
    }
    if v.startRecording {
      SplitterText(line, v.splitter);
    }
    r := Ok(v);
  }

  /** The body of the line loop of `parse_logfile`, on one line. */
  method ScanLine<F(==)>(v: ScanVars<F>, line: string, parseNum: string -> Option<F>) returns (r: Result<ScanVars<F>, FluxError>)
    requires v.Valid()
    ensures r.Ok? ==> r.value.Valid()
    ensures match Step(v.State(), ReadLogLine(line), parseNum)
      case Err(e) => r == Err(e)
      case Ok(st) => r.Ok? && r.value.State() == st
  {
    var started := StartLine(v, line);
    var headed := HeaderLine(started, line);
    if headed.Err? {
      return headed;
    }
    r := DataLine(headed.value, line, parseNum);
  }

  /** `parse_logfile`: the line loop updating `start_recording`, `splitter`, `source_name` and `table`. */
  method ParseLogfile<F(==)>(text: seq<string>, parseNum: string -> Option<F>) returns (r: Result<FluxTable<F>, FluxError>)
    ensures r == LogTable(text, parseNum)
  {
    ghost var ls := ReadLogLines(text);
    var v: ScanVars<F> := ScanVars(false, "", None, map[]);
    for i := 0 to |text|
      invariant v.Valid()
      invariant Scan(v.State(), ls[i..], parseNum) == Scan(Initial(), ls, parseNum)
    {
      assert ls[i..][0] == ReadLogLine(text[i]) && ls[i..][1..] == ls[i + 1..];
      var next := ScanLine(v, text[i], parseNum);
      if next.Err? {
        return Err(next.error);
      }
      v := next.value;
    }
    assert ls[|text|..] == [];
    r := Ok(v.table);
  }

  /** Before any start line nothing is recorded: the lines change nothing. */
  lemma {:induction false} ScanIdleBeforeStart<F>(st: ScanState<F>, ls: seq<LogLine>, parseNum: string -> Option<F>)
    requires st.Inv() && st.splitter.None?
    requires forall i | 0 <= i < |ls| :: ls[i].start.None?
    ensures Scan(st, ls, parseNum) == Ok(st)
    decreases |ls|
  {
    if ls != [] {
      assert Step(st, ls[0], parseNum) == Ok(st);
      assert forall i | 0 <= i < |ls[1..]| :: ls[1..][i] == ls[i + 1];
      ScanIdleBeforeStart(st, ls[1..], parseNum);
    }
  }

  /** Once started, recording never stops: a scan that has started, or meets a start line, ends recording. */
  lemma {:induction false} ScanKeepsRecording<F>(st: ScanState<F>, ls: seq<LogLine>, parseNum: string -> Option<F>)
    requires st.Inv()
    requires Scan(st, ls, parseNum).Ok?
    requires st.splitter.Some? || exists i | 0 <= i < |ls| :: ls[i].start.Some?
    ensures Scan(st, ls, parseNum).value.splitter.Some?
    decreases |ls|
  {
    if ls != [] {
      var next := Step(st, ls[0], parseNum).value;
      if next.splitter.None? {
        var i :| 0 <= i < |ls| && ls[i].start.Some?;
        assert ls[1..][i - 1] == ls[i];
      }
      ScanKeepsRecording(next, ls[1..], parseNum);
    }
  }

  /**
   * The splitter in force at each line, starting from `sp`: the one selected
   * by the last start line at or before it, or `sp` when there is none.
   */
  function Splitters(sp: Option<Marker>, ls: seq<LogLine>): (r: seq<Option<Marker>>)
    decreases |ls|
    ensures |r| == |ls|
  {
    if ls == [] then []
    else
      var s := if ls[0].start.Some? then ls[0].start else sp;
      [s] + Splitters(s, ls[1..])
  }

  /** The line is a header whose first token after the splitter `m` is `k`. */
  predicate NamesSource(l: LogLine, m: Option<Marker>, k: string) {
    l.header && m.Some? && Tokens(l.After(m.value)) != [] && Tokens(l.After(m.value))[0] == k
  }

  /** Only sources named on header lines, after the splitter in force there, become keys of the table. */
  lemma {:induction false} ScanKeysAreNamed<F>(st: ScanState<F>, ls: seq<LogLine>, parseNum: string -> Option<F>)
    requires st.Inv()
    requires Scan(st, ls, parseNum).Ok?
    ensures forall k | k in Scan(st, ls, parseNum).value.table ::
      k in st.table || exists i | 0 <= i < |ls| :: NamesSource(ls[i], Splitters(st.splitter, ls)[i], k)
    decreases |ls|
  {
    if ls != [] {
      var next := Step(st, ls[0], parseNum).value;
      var sps := Splitters(st.splitter, ls);
      assert next.splitter == sps[0];
      assert sps[1..] == Splitters(next.splitter, ls[1..]);
      assert forall k | k in next.table :: k in st.table || NamesSource(ls[0], sps[0], k);
      ScanKeysAreNamed(next, ls[1..], parseNum);
      forall k | k in Scan(st, ls, parseNum).value.table && k !in st.table && k !in next.table
        ensures exists i | 0 <= i < |ls| :: NamesSource(ls[i], sps[i], k)
      {
        var i :| 0 <= i < |ls[1..]| && NamesSource(ls[1..][i], Splitters(next.splitter, ls[1..])[i], k);
        assert ls[i + 1] == ls[1..][i] && sps[i + 1] == sps[1..][i];
      }
    }
  }

  /** A header line (not itself a data line) makes its first token the current source, with an empty entry. */
  lemma StepHeader<F>(st: ScanState<F>, l: LogLine, m: Marker, parseNum: string -> Option<F>)
    requires st.Inv()
    requires (if l.start.Some? then l.start else st.splitter) == Some(m)
    requires l.header && !IsData(l, m, parseNum)
    ensures Tokens(l.After(m)) == [] ==> Step(st, l, parseNum) == Err(NoSourceToken)
    ensures Tokens(l.After(m)) != [] ==>
      var name := Tokens(l.After(m))[0];
      Step(st, l, parseNum) == Ok(ScanState(Some(m), Some(name), st.table[name := map[]]))
  {
  }

  /**
   * A data line (not a header) stores its triple under the current source at
   * its frequency, replacing any triple stored there before, and changes
   * nothing else; with no source read yet it raises.
   */
  lemma StepData<F>(st: ScanState<F>, l: LogLine, m: Marker, parseNum: string -> Option<F>)
    requires st.Inv()
    requires (if l.start.Some? then l.start else st.splitter) == Some(m)
    requires !l.header && IsData(l, m, parseNum)
    ensures st.source.None? ==> Step(st, l, parseNum) == Err(SourceUnbound)
    ensures st.source.Some? ==>
      var q := ParseQuad(Tokens(l.After(m)), parseNum).value;
      var r := Step(st, l, parseNum);
      && r.Ok? && r.value.splitter == Some(m) && r.value.source == st.source
      && r.value.table.Keys == st.table.Keys
      && (forall k | k in st.table && k != st.source.value :: r.value.table[k] == st.table[k])
      && r.value.table[st.source.value].Keys == st.table[st.source.value].Keys + {q.freq}
      && r.value.table[st.source.value][q.freq] == (q.flux, q.eflux, q.fitflux)
      && (forall f | f in st.table[st.source.value] && f != q.freq ::
            r.value.table[st.source.value][f] == st.table[st.source.value][f])
  {
  }

  /**
   * A line that is both a header and a data line first names its source with
   * an emptied entry, then stores its triple there.
   */
  lemma StepHeaderData<F>(st: ScanState<F>, l: LogLine, m: Marker, parseNum: string -> Option<F>)
    requires st.Inv()
    requires (if l.start.Some? then l.start else st.splitter) == Some(m)
    requires l.header && IsData(l, m, parseNum)
    ensures var toks := Tokens(l.After(m));
      var q := ParseQuad(toks, parseNum).value;
      Step(st, l, parseNum) == Ok(ScanState(Some(m), Some(toks[0]), st.table[toks[0] := map[q.freq := (q.flux, q.eflux, q.fitflux)]]))
  {
    var toks := Tokens(l.After(m));
    var q := ParseQuad(toks, parseNum).value;
    var h := HeaderCheck(StartCheck(st, l), l).value;
    assert h == ScanState(Some(m), Some(toks[0]), st.table[toks[0] := map[]]);
    var entry := map[q.freq := (q.flux, q.eflux, q.fitflux)];
    assert h.table[toks[0]][q.freq := (q.flux, q.eflux, q.fitflux)] == entry;
    assert h.table[toks[0] := entry] == st.table[toks[0] := entry];
  }

  /** While recording, a line that is neither a header nor a data line leaves the source and the table as they were. */
  lemma StepSkips<F>(st: ScanState<F>, l: LogLine, m: Marker, parseNum: string -> Option<F>)
    requires st.Inv()
    requires (if l.start.Some? then l.start else st.splitter) == Some(m)
    requires !l.header && !IsData(l, m, parseNum)
    ensures Step(st, l, parseNum) == Ok(ScanState(Some(m), st.source, st.table))
  {
  }

  // ---------------------------------------------------------------------------
  // get_date_from_listobs
  // ---------------------------------------------------------------------------

  const ObservedFrom: string := "Observed from"

  /** The line gives a date. */
  predicate Dated(line: string) {
    Contains(line, ObservedFrom)
  }

  /** `line.split('Observed from')[-1].split()`. */
  function DateTokens(line: string): seq<string> {
    Tokens(AfterLast(line, ObservedFrom))
  }

  /** The date loop over the remaining lines, `date` being the last date read. */
  function DateScan(date: Option<string>, text: seq<string>): Result<string, FluxError>
    decreases |text|
  {
    if text == [] then (if date.None? then Err(DateUnbound) else Ok(date.value))
    else if !Dated(text[0]) then DateScan(date, text[1..])
    else if DateTokens(text[0]) == [] then Err(NoDateToken)
    else DateScan(Some(DateTokens(text[0])[0]), text[1..])
  }

  /** `get_date_from_listobs`: every `Observed from` line overwrites `startdate`. */
  method GetDateFromListobs(text: seq<string>) returns (r: Result<string, FluxError>)
    ensures r == DateScan(None, text)
  {
    var startdate: Option<string> := None;
    for i := 0 to |text|
      invariant DateScan(startdate, text[i..]) == DateScan(None, text)
    {
      var line := text[i];
      assert text[i..][0] == line && text[i..][1..] == text[i + 1..];
      if Contains(line, ObservedFrom) {
        var toks := Tokens(AfterLast(line, ObservedFrom));
        if toks == [] {
          return Err(NoDateToken);
        }
        startdate := Some(toks[0]);
      }
    }
    assert text[|text|..] == [];
    if startdate.None? {
      return Err(DateUnbound);
    }
    r := Ok(startdate.value);
  }

  /** A dated line with no token raises, and so does a summary with no dated line (and no date before it). */
  lemma {:induction false} DateScanErrors(date: Option<string>, text: seq<string>)
    ensures DateScan(date, text) == Err(NoDateToken) <==>
      exists i | 0 <= i < |text| :: Dated(text[i]) && DateTokens(text[i]) == []
    ensures DateScan(date, text) == Err(DateUnbound) <==>
      date.None? && forall i | 0 <= i < |text| :: !Dated(text[i])
    decreases |text|
  {
    if text != [] {
      var next := if Dated(text[0]) && DateTokens(text[0]) != [] then Some(DateTokens(text[0])[0]) else date;
      DateScanErrors(next, text[1..]);
      assert forall i | 1 <= i < |text| :: text[1..][i - 1] == text[i];
    }
  }

  /** Lines without a date keep the date read before them. */
  lemma {:induction false} DateScanUndated(date: Option<string>, text: seq<string>)
    requires forall i | 0 <= i < |text| :: !Dated(text[i])
    ensures DateScan(date, text) == if date.None? then Err(DateUnbound) else Ok(date.value)
    decreases |text|
  {
    if text != [] {
      assert forall i | 0 <= i < |text[1..]| :: text[1..][i] == text[i + 1];
      DateScanUndated(date, text[1..]);
    }
  }

  /** The date read is the first token after `Observed from` on the last line that has it. */
  lemma {:induction false} DateScanValue(date: Option<string>, text: seq<string>, i: nat)
    requires DateScan(date, text).Ok?
    requires i < |text| && Dated(text[i]) && forall j | i < j < |text| :: !Dated(text[j])
    ensures DateTokens(text[i]) != [] && DateScan(date, text).value == DateTokens(text[i])[0]
    decreases |text|
  {
    if i == 0 {
      assert DateTokens(text[0]) != [];
      assert forall j | 0 <= j < |text[1..]| :: text[1..][j] == text[j + 1];
      DateScanUndated(Some(DateTokens(text[0])[0]), text[1..]);
    } else {
      var next := if Dated(text[0]) then Some(DateTokens(text[0])[0]) else date;
      assert DateScan(next, text[1..]) == DateScan(date, text);
      assert text[1..][i - 1] == text[i];
      assert forall j | i - 1 < j < |text[1..]| :: text[1..][j] == text[j + 1];
      DateScanValue(next, text[1..], i - 1);
    }
  }

  // ---------------------------------------------------------------------------
  // process_weblog and process_all_weblogs
  // ---------------------------------------------------------------------------

  /**
   * One weblog as `process_weblog` finds it: whether it is a `.tgz` archive,
   * the lines of its listobs summary (none when no member or file matches),
   * and the lines of its flux log.
   */
  datatype Weblog = Weblog(archived: bool, listobs: Option<seq<string>>, fluxLog: seq<string>)

  /** `process_weblog`: `{date: fluxes}`, reading the date first from an archive and last from a directory. */
  function WeblogTable<F(==)>(w: Weblog, parseNum: string -> Option<F>): Result<map<string, FluxTable<F>>, FluxError> {
    if w.listobs.None? then Err(NoListobs)
    else if w.archived then
      match DateScan(None, w.listobs.value)
      case Err(e) => Err(e)
      case Ok(date) =>
        match LogTable(w.fluxLog, parseNum)
        case Err(e) => Err(e)
        case Ok(fluxes) => Ok(map[date := fluxes])
    else
      match LogTable(w.fluxLog, parseNum)
      case Err(e) => Err(e)
      case Ok(fluxes) =>
        match DateScan(None, w.listobs.value)
        case Err(e) => Err(e)
        case Ok(date) => Ok(map[date := fluxes])
  }

  /** `process_weblog`, calling the two readers in the order of its branch. */
  method ProcessWeblog<F(==)>(w: Weblog, parseNum: string -> Option<F>) returns (r: Result<map<string, FluxTable<F>>, FluxError>)
    ensures r == WeblogTable(w, parseNum)
  {
    if w.listobs.None? {
      return Err(NoListobs);
    }
    var date: Result<string, FluxError>;
    var fluxes: Result<FluxTable<F>, FluxError>;
    if w.archived {
      date := GetDateFromListobs(w.listobs.value);
      if date.Err? {
        return Err(date.error);
      }
      fluxes := ParseLogfile(w.fluxLog, parseNum);
      if fluxes.Err? {
        return Err(fluxes.error);
      }
    } else {
      fluxes := ParseLogfile(w.fluxLog, parseNum);
      if fluxes.Err? {
        return Err(fluxes.error);
      }
      date := GetDateFromListobs(w.listobs.value);
      if date.Err? {
        return Err(date.error);
      }
    }
    r := Ok(map[date.value := fluxes.value]);
  }

  /**
   * A weblog yields one entry, its date mapped to its fluxes; when both
   * readers fail, an archive reports the listobs error and a directory the
   * flux-log error.
   */
  lemma WeblogTableResult<F>(w: Weblog, parseNum: string -> Option<F>)
    ensures WeblogTable(w, parseNum).Ok? <==>
      w.listobs.Some? && DateScan(None, w.listobs.value).Ok? && LogTable(w.fluxLog, parseNum).Ok?
    ensures WeblogTable(w, parseNum).Ok? ==>
      WeblogTable(w, parseNum).value == map[DateScan(None, w.listobs.value).value := LogTable(w.fluxLog, parseNum).value]
    ensures w.listobs.Some? && DateScan(None, w.listobs.value).Err? && LogTable(w.fluxLog, parseNum).Err? ==>
      WeblogTable(w, parseNum) == Err(if w.archived then DateScan(None, w.listobs.value).error
                                      else LogTable(w.fluxLog, parseNum).error)
  {
  }

  /** `table.update(t)` for each table `t` in turn; the first exception stops the merge. */
  function Merge<X>(table: map<string, X>, ts: seq<Result<map<string, X>, FluxError>>): Result<map<string, X>, FluxError>
    decreases |ts|
  {
    if ts == [] then Ok(table)
    else match ts[0]
      case Err(e) => Err(e)
      case Ok(t) => Merge(table + t, ts[1..])
  }

  /** What `process_weblog` makes of each weblog. */
  function WeblogTables<F(==)>(ws: seq<Weblog>, parseNum: string -> Option<F>): (ts: seq<Result<map<string, FluxTable<F>>, FluxError>>)
    ensures |ts| == |ws|
    ensures forall i | 0 <= i < |ws| :: ts[i] == WeblogTable(ws[i], parseNum)
  {
    seq(|ws|, i requires 0 <= i < |ws| => WeblogTable(ws[i], parseNum))
  }

  /** `process_all_weblogs` over the weblogs found, in the order found. */
  method ProcessAllWeblogs<F(==)>(ws: seq<Weblog>, parseNum: string -> Option<F>) returns (r: Result<map<string, FluxTable<F>>, FluxError>)
    ensures r == Merge(map[], WeblogTables(ws, parseNum))
  {
    ghost var ts := WeblogTables(ws, parseNum);
    var table: map<string, FluxTable<F>> := map[];
    for i := 0 to |ws|
      invariant Merge(table, ts[i..]) == Merge(map[], ts)
    {
      assert ts[i..][0] == WeblogTable(ws[i], parseNum) && ts[i..][1..] == ts[i + 1..];
      var t := ProcessWeblog(ws[i], parseNum);
      if t.Err? {
        return Err(t.error);
      }
      table := table + t.value;
    }
    assert ts[|ws|..] == [];
    r := Ok(table);
  }

  /** A merge succeeds only when every table was read, and its keys are those of the tables added to those before. */
  lemma {:induction false} MergeKeys<X>(table: map<string, X>, ts: seq<Result<map<string, X>, FluxError>>)
    requires Merge(table, ts).Ok?
    ensures forall i | 0 <= i < |ts| :: ts[i].Ok?
    ensures forall d :: d in Merge(table, ts).value <==> d in table || exists i | 0 <= i < |ts| :: d in ts[i].value
    decreases |ts|
  {
    if ts != [] {
      MergeKeys(table + ts[0].value, ts[1..]);
      assert forall i | 1 <= i < |ts| :: ts[i] == ts[1..][i - 1];
      forall d ensures d in Merge(table, ts).value <==> d in table || exists i | 0 <= i < |ts| :: d in ts[i].value {
        if exists i | 0 <= i < |ts[1..]| :: d in ts[1..][i].value {
          var i :| 0 <= i < |ts[1..]| && d in ts[1..][i].value;
          assert d in ts[i + 1].value;
        }
      }
    }
  }

  /** A key that no remaining table has keeps its value through the merge. */
  lemma {:induction false} MergeKeepsUntouched<X>(table: map<string, X>, ts: seq<Result<map<string, X>, FluxError>>, d: string)
    requires Merge(table, ts).Ok? && d in table
    requires forall i | 0 <= i < |ts| :: ts[i].Ok? ==> d !in ts[i].value
    ensures d in Merge(table, ts).value && Merge(table, ts).value[d] == table[d]
    decreases |ts|
  {
    if ts != [] {
      assert forall i | 0 <= i < |ts[1..]| :: ts[1..][i] == ts[i + 1];
      MergeKeepsUntouched(table + ts[0].value, ts[1..], d);
    }
  }

  /**
   * The merged value of a key is that of the last table holding it: a later
   * weblog of the same date replaces an earlier one.
   */
  lemma {:induction false} MergeLastWins<X>(table: map<string, X>, ts: seq<Result<map<string, X>, FluxError>>, i: nat, d: string)
    requires Merge(table, ts).Ok?
    requires i < |ts| && ts[i].Ok? && d in ts[i].value
    requires forall j | i < j < |ts| :: ts[j].Ok? ==> d !in ts[j].value
    ensures d in Merge(table, ts).value && Merge(table, ts).value[d] == ts[i].value[d]
    decreases |ts|
  {
    assert forall j | 0 <= j < |ts[1..]| :: ts[1..][j] == ts[j + 1];
    if i == 0 {
      MergeKeepsUntouched(table + ts[0].value, ts[1..], d);
    } else {
      MergeLastWins(table + ts[0].value, ts[1..], i - 1, d);
    }
  }
}
