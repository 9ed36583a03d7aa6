/**
 * Gathering the per-channel tclean summaries into one table and decoding the
 * stop codes: `create_tclean_output_table` of sequential_clean_submission.py
 * and the module-level code of gather_tclean_outputs.py.
 *
 * The result files are given as the names the glob found and a `load`
 * function standing for `np.load(fil).item()`; the stop-code column's values
 * are read as integers through `codeOf`.
 */
module Tclean {
  import opened Wrappers
  import opened PyText
  import opened PyDict

  /** A dict as Python builds it: keys listed once, in insertion order. */
  type PyDictOf<V> = d: Dict<string, V> | d.Valid() witness Dict([], map[])

  /** The exceptions the gathering can raise. */
  datatype TcleanError =
    | Unbound              // NameError: `all_dict` was never bound because no file was found
    | KeyError(key: string)
    | CodeOutOfRange(code: int)  // ValueError: a stop code outside 0..8

  /**
   * `f` applied to each element, in order: `np.load` of each sorted file
   * name, and the code of each value of the `stopcode` column.
   */
  function Each<A, B>(xs: seq<A>, f: A -> B): (ys: seq<B>)
    ensures |ys| == |xs|
    ensures forall i | 0 <= i < |xs| :: ys[i] == f(xs[i])
  {
    seq(|xs|, i requires 0 <= i < |xs| => f(xs[i]))
  }

  // ---------------------------------------------------------------------------
  // Gathering the per-channel dicts into columns
  // ---------------------------------------------------------------------------

  /** `dict.fromkeys(out_dict)` followed by setting every key to `[]`. */
  function EmptyColumns<V>(keys: seq<string>): (cols: map<string, seq<V>>)
    ensures forall k :: k in cols <==> k in keys
    ensures forall k | k in cols :: cols[k] == []
  {
    map k | k in keys :: []
  }

  /** Appending the values of `d` under the keys `ks`, in order; a key without a column raises KeyError. */
  function AppendDict<V>(cols: map<string, seq<V>>, d: PyDictOf<V>, ks: seq<string>): Result<map<string, seq<V>>, TcleanError>
    requires forall i | 0 <= i < |ks| :: ks[i] in d.items
    decreases |ks|
  {
    if ks == [] then Ok(cols)
    else if ks[0] !in cols then Err(KeyError(ks[0]))
    else AppendDict(cols[ks[0] := cols[ks[0]] + [d.items[ks[0]]]], d, ks[1..])
  }

  /** Appending each dict of `ds` in turn, each in its own key order. */
  function AppendDicts<V>(cols: map<string, seq<V>>, ds: seq<PyDictOf<V>>): Result<map<string, seq<V>>, TcleanError>
    decreases |ds|
  {
    if ds == [] then Ok(cols)
    else match AppendDict(cols, ds[0], ds[0].keys)
      case Err(e) => Err(e)
      case Ok(next) => AppendDicts(next, ds[1..])
  }

  /**
   * The columns of the gather loop. The first dict fixes the keys and their
   * order (appending never adds a key), and every dict, the first included,
   * is then appended in turn.
   */
  function Gather<V>(ds: seq<PyDictOf<V>>): Result<Dict<string, seq<V>>, TcleanError> {
    if ds == [] then Err(Unbound)
    else match AppendDicts(EmptyColumns(ds[0].keys), ds)
      case Err(e) => Err(e)
      case Ok(cols) => Ok(Dict(ds[0].keys, cols))
  }

  /** The values a key takes over the dicts that have it, in order. */
  function Column<V>(ds: seq<PyDictOf<V>>, k: string): seq<V>
    decreases |ds|
  {
    if ds == [] then []
    else (if k in ds[0].items then [ds[0].items[k]] else []) + Column(ds[1..], k)
  }

  /** Every key of every dict is one of `keys`. */
  predicate Covered<V>(keys: set<string>, ds: seq<PyDictOf<V>>) {
    forall i, k | 0 <= i < |ds| && k in ds[i].items :: k in keys
  }

  /**
   * The gather loop over the loaded dicts: the first one binds `all_dict`
   * with its keys, and `all_dict[key]` is then looked up for each key of each
   * dict in turn. With no dicts `all_dict` is never bound.
   */
  method GatherColumns<V>(ds: seq<PyDictOf<V>>) returns (r: Result<Dict<string, seq<V>>, TcleanError>)
    ensures r == Gather(ds)
  {
    var allDict: Option<map<string, seq<V>>> := None;
    var order: seq<string> := [];
    for i := 0 to |ds|
      invariant i == 0 <==> allDict.None?
      invariant i > 0 ==> order == ds[0].keys
      invariant i > 0 ==> AppendDicts(allDict.value, ds[i..]) == AppendDicts(EmptyColumns(ds[0].keys), ds)
    {
      var outDict := ds[i];
      if i == 0 {
        allDict := Some(EmptyColumns(outDict.keys));
        order := outDict.keys;
        assert ds[0..] == ds;
      }
      var cols := allDict.value;
      ghost var before := cols;
      assert ds[i..][0] == outDict && ds[i..][1..] == ds[i + 1..];
      for j := 0 to |outDict.keys|
        invariant AppendDict(cols, outDict, outDict.keys[j..]) == AppendDict(before, outDict, outDict.keys)
      {
        var key := outDict.keys[j];
        assert outDict.keys[j..][0] == key && outDict.keys[j..][1..] == outDict.keys[j + 1..];
        if key !in cols {
          return Err(KeyError(key));
        }
        cols := cols[key := cols[key] + [outDict.items[key]]];
      }
      assert outDict.keys[|outDict.keys|..] == [];
      allDict := Some(cols);
    }
    if allDict.None? {
      return Err(Unbound);
    }
    assert ds[|ds|..] == [];
    r := Ok(Dict(order, allDict.value));
  }

  /** Appending one dict whose keys all have columns: each of its keys' columns grows by its value. */
  lemma {:induction false} AppendDictOk<V>(cols: map<string, seq<V>>, d: PyDictOf<V>, ks: seq<string>)
    requires forall i | 0 <= i < |ks| :: ks[i] in d.items && ks[i] in cols
    requires forall i, j :: 0 <= i < j < |ks| ==> ks[i] != ks[j]
    ensures AppendDict(cols, d, ks).Ok?
    ensures AppendDict(cols, d, ks).value.Keys == cols.Keys
    ensures forall k | k in cols ::
      AppendDict(cols, d, ks).value[k] == cols[k] + (if k in ks then [d.items[k]] else [])
    decreases |ks|
  {
    if ks != [] {
      var next := cols[ks[0] := cols[ks[0]] + [d.items[ks[0]]]];
      AppendDictOk(next, d, ks[1..]);
      assert forall k :: k in ks <==> k == ks[0] || k in ks[1..];
    }
  }

  /** The first of the keys `ks` (in their order) that has no column raises KeyError. */
  lemma {:induction false} AppendDictStray<V>(cols: map<string, seq<V>>, d: PyDictOf<V>, ks: seq<string>, i: nat)
    requires forall j | 0 <= j < |ks| :: ks[j] in d.items
    requires i < |ks| && ks[i] !in cols
    requires forall j | 0 <= j < i :: ks[j] in cols
    ensures AppendDict(cols, d, ks) == Err(KeyError(ks[i]))
    decreases |ks|
  {
    if i > 0 {
      var next := cols[ks[0] := cols[ks[0]] + [d.items[ks[0]]]];
      assert forall j | 0 <= j < i - 1 :: ks[1..][j] == ks[j + 1];
      AppendDictStray(next, d, ks[1..], i - 1);
    }
  }

  /** Appending dicts whose keys all have columns extends each column by that key's `Column`. */
  lemma {:induction false} AppendDictsOk<V>(cols: map<string, seq<V>>, ds: seq<PyDictOf<V>>)
    requires Covered(cols.Keys, ds)
    ensures AppendDicts(cols, ds).Ok?
    ensures AppendDicts(cols, ds).value.Keys == cols.Keys
    ensures forall k | k in cols :: AppendDicts(cols, ds).value[k] == cols[k] + Column(ds, k)
    decreases |ds|
  {
    if ds != [] {
      var d := ds[0];
      assert forall k :: k in d.keys <==> k in d.items;
      AppendDictOk(cols, d, d.keys);
      var next := AppendDict(cols, d, d.keys).value;
      assert Covered(next.Keys, ds[1..]) by {
        assert forall i | 0 <= i < |ds[1..]| :: ds[1..][i] == ds[i + 1];
      }
      AppendDictsOk(next, ds[1..]);
    }
  }

  /** `k` is a key of some dict of `ds` but not one of `keys`. */
  predicate Stray<V>(keys: set<string>, ds: seq<PyDictOf<V>>, k: string) {
    k !in keys && exists i | 0 <= i < |ds| :: k in ds[i].items
  }

  /** Appending dicts fails with the KeyError of a key some dict has and `cols` lacks, as soon as there is one. */
  lemma {:induction false} AppendDictsStray<V>(cols: map<string, seq<V>>, ds: seq<PyDictOf<V>>)
    requires !Covered(cols.Keys, ds)
    ensures AppendDicts(cols, ds).Err? && AppendDicts(cols, ds).error.KeyError?
    ensures Stray(cols.Keys, ds, AppendDicts(cols, ds).error.key)
    decreases |ds|
  {
    if k :| k in ds[0].items && k !in cols {
      StrayInFirst(cols, ds, k);
    } else {
      StrayLater(cols, ds);
    }
  }

  /** A key of the first dict without a column stops the appending at that dict. */
  lemma StrayInFirst<V>(cols: map<string, seq<V>>, ds: seq<PyDictOf<V>>, k: string)
    requires ds != [] && k in ds[0].items && k !in cols
    ensures AppendDicts(cols, ds).Err? && AppendDicts(cols, ds).error.KeyError?
    ensures Stray(cols.Keys, ds, AppendDicts(cols, ds).error.key)
  {
    var d := ds[0];
    assert k in d.keys;
    var m := FirstStrayKey(cols, d.keys, k);
    AppendDictStray(cols, d, d.keys, m);
    assert AppendDicts(cols, ds) == Err(KeyError(d.keys[m]));
    assert d.keys[m] in ds[0].items;
  }

  /** When the first dict's keys all have columns, a stray key of a later dict stops the appending there. */
  lemma {:induction false} StrayLater<V>(cols: map<string, seq<V>>, ds: seq<PyDictOf<V>>)
    requires !Covered(cols.Keys, ds)
    requires forall k | k in ds[0].items :: k in cols
    ensures AppendDicts(cols, ds).Err? && AppendDicts(cols, ds).error.KeyError?
    ensures Stray(cols.Keys, ds, AppendDicts(cols, ds).error.key)
    decreases |ds|, 0
  {
    var d := ds[0];
    assert forall k :: k in d.keys <==> k in d.items;
    AppendDictOk(cols, d, d.keys);
    var next := AppendDict(cols, d, d.keys).value;
    assert !Covered(next.Keys, ds[1..]) by {
      var i, k :| 0 <= i < |ds| && k in ds[i].items && k !in cols;
      assert 0 < i && ds[1..][i - 1] == ds[i];
    }
    AppendDictsStray(next, ds[1..]);
    var k := AppendDicts(next, ds[1..]).error.key;
    var i :| 0 <= i < |ds[1..]| && k in ds[1..][i].items;
    assert ds[i + 1] == ds[1..][i];
  }

  /** A key of `ks` without a column means there is a first one, at `m`. */
  lemma {:induction false} FirstStrayKey<V>(cols: map<string, seq<V>>, ks: seq<string>, k: string) returns (m: nat)
    requires k in ks && k !in cols
    ensures m < |ks| && ks[m] !in cols && forall j | 0 <= j < m :: ks[j] in cols
    decreases |ks|
  {
    if ks[0] in cols {
      var m' := FirstStrayKey(cols, ks[1..], k);
      assert forall j | 1 <= j < m' + 1 :: ks[j] == ks[1..][j - 1];
      m := m' + 1;
    } else {
      m := 0;
    }
  }

  /**
   * What gathering computes: no dicts leave `all_dict` unbound; a key missing
   * from the first dict raises KeyError; otherwise the columns are the first
   * dict's keys in its order, each holding that key's values over all dicts.
   */
  lemma GatherResult<V>(ds: seq<PyDictOf<V>>)
    ensures ds == [] <==> Gather(ds) == Err(Unbound)
    ensures Gather(ds).Ok? <==> ds != [] && Covered(ds[0].items.Keys, ds)
    ensures Gather(ds).Ok? ==>
      && Gather(ds).value.Valid()
      && Gather(ds).value.keys == ds[0].keys
      && Gather(ds).value.items.Keys == ds[0].items.Keys
      && forall k | k in ds[0].items :: Gather(ds).value.items[k] == Column(ds, k)
    ensures ds != [] && !Covered(ds[0].items.Keys, ds) ==>
      Gather(ds).Err? && Gather(ds).error.KeyError? && Stray(ds[0].items.Keys, ds, Gather(ds).error.key)
  {
    if ds != [] {
      var cols: map<string, seq<V>> := EmptyColumns(ds[0].keys);
      assert cols.Keys == ds[0].items.Keys;
      if Covered(ds[0].items.Keys, ds) {
        AppendDictsOk(cols, ds);
      } else {
        AppendDictsStray(cols, ds);
      }
    }
  }

  /** When every dict has the same keys, each column holds one value per file, in file order. */
  lemma {:induction false} ColumnOfSameKeys<V>(ds: seq<PyDictOf<V>>, k: string)
    requires forall i | 0 <= i < |ds| :: k in ds[i].items
    ensures |Column(ds, k)| == |ds|
    ensures forall i | 0 <= i < |ds| :: Column(ds, k)[i] == ds[i].items[k]
    decreases |ds|
  {
    if ds != [] {
      ColumnOfSameKeys(ds[1..], k);
      assert forall i | 1 <= i < |ds| :: ds[1..][i - 1] == ds[i];
    }
  }

  // ---------------------------------------------------------------------------
  // Stop codes
  // ---------------------------------------------------------------------------

  /** The meaning of each tclean stop code. */
  const StopCodes: map<int, string> := map[
    0 := "Not reached",
    1 := "Reached niter",
    2 := "Reached threshold",
    3 := "Stop flag",
    4 := "No change after cycle",
    5 := "Diverging. Peak residual increase.",
    6 := "Diverging. Peak min. residual increase.",
    7 := "Empty clean mask",
    8 := "Reached nsigma threshold"]

  /** The table covers exactly the codes 0..8, with nine distinct messages of at most 39 characters. */
  lemma StopCodesTable()
    ensures forall c: int :: c in StopCodes <==> 0 <= c <= 8
    ensures forall c1, c2 | c1 in StopCodes && c2 in StopCodes && c1 != c2 :: StopCodes[c1] != StopCodes[c2]
    ensures forall c | c in StopCodes :: |StopCodes[c]| <= 39
    ensures |StopCodes[6]| == 39
  {
  }

  /** Each message is `StopCodes` of the code at the same place. */
  predicate Explains(codes: seq<int>, msgs: seq<string>) {
    && |msgs| == |codes|
    && forall i | 0 <= i < |codes| :: codes[i] in StopCodes && msgs[i] == StopCodes[codes[i]]
  }

  /** The index of the first code outside 0..8, if there is one. */
  function FirstOutOfRange(codes: seq<int>): (r: Option<nat>)
    decreases |codes|
    ensures r.None? <==> forall i | 0 <= i < |codes| :: 0 <= codes[i] <= 8
    ensures r.Some? ==> r.value < |codes| && (codes[r.value] < 0 || codes[r.value] > 8)
    ensures r.Some? ==> forall j | 0 <= j < r.value :: 0 <= codes[j] <= 8
  {
    if codes == [] then None
    else if codes[0] < 0 || codes[0] > 8 then Some(0)
    else
      var rest := FirstOutOfRange(codes[1..]);
      assert forall i | 1 <= i < |codes| :: codes[i] == codes[1..][i - 1];
      if rest.None? then None else Some(rest.value + 1)
  }

  /** The loop building `str_outs`: a code outside 0..8 raises ValueError, the first one met. */
  method ExplainStopCodes(codes: seq<int>) returns (r: Result<seq<string>, TcleanError>)
    ensures r.Ok? <==> FirstOutOfRange(codes).None?
    ensures r.Ok? ==> Explains(codes, r.value)
    ensures r.Err? ==> r.error == CodeOutOfRange(codes[FirstOutOfRange(codes).value])
  {
    var strOuts: seq<string> := [];
    for i := 0 to |codes|
      invariant forall j | 0 <= j < i :: 0 <= codes[j] <= 8
      invariant Explains(codes[..i], strOuts)
    {
      var code := codes[i];
      if code < 0 || code > 8 {
        ghost var f := FirstOutOfRange(codes).value;
        assert f == i;
        return Err(CodeOutOfRange(code));
      }
      strOuts := strOuts + [StopCodes[code]];
    }
    assert codes[..|codes|] == codes;
    r := Ok(strOuts);
  }

  // ---------------------------------------------------------------------------
  // The table
  // ---------------------------------------------------------------------------

  /** An astropy Column: the gathered values, or the decoded stop-code messages. */
  datatype TableColumn<V> = Values(vals: seq<V>) | Messages(msgs: seq<string>)

  type Table<V> = Dict<string, TableColumn<V>>

  /** The columns have the `nsigma` and `stopcode` columns the decoding reads, and every stop code is in 0..8. */
  predicate Decodable<V>(cols: Dict<string, seq<V>>, codeOf: V -> int) {
    && "nsigma" in cols.items
    && "stopcode" in cols.items
    && forall i | 0 <= i < |cols.items["stopcode"]| :: 0 <= codeOf(cols.items["stopcode"][i]) <= 8
  }

  /**
   * The exception decoding raises on columns that are not decodable: KeyError
   * for a missing `nsigma`, then for a missing `stopcode`, then the ValueError
   * of the first code outside 0..8.
   */
  function DecodeError<V>(cols: Dict<string, seq<V>>, codeOf: V -> int): (e: TcleanError)
    requires !Decodable(cols, codeOf)
    ensures e.CodeOutOfRange? ==> e.code < 0 || e.code > 8
  {
    if "nsigma" !in cols.items then KeyError("nsigma")
    else if "stopcode" !in cols.items then KeyError("stopcode")
    else
      var codes := Each(cols.items["stopcode"], codeOf);
      CodeOutOfRange(codes[FirstOutOfRange(codes).value])
  }

  /**
   * `t` is the output table of `cols`: every gathered column in its order,
   * then `stopcode_exp` (which takes the place of a gathered column of that
   * name), explaining the `stopcode` column element for element.
   */
  ghost predicate IsOutputTable<V>(cols: Dict<string, seq<V>>, codeOf: V -> int, t: Table<V>) {
    && "stopcode" in cols.items
    && t.Valid()
    && t.keys == (if "stopcode_exp" in cols.items then cols.keys else cols.keys + ["stopcode_exp"])
    && (forall k | k in cols.items && k != "stopcode_exp" :: k in t.items && t.items[k] == Values(cols.items[k]))
    && "stopcode_exp" in t.items
    && t.items["stopcode_exp"].Messages?
    && Explains(Each(cols.items["stopcode"], codeOf), t.items["stopcode_exp"].msgs)
  }

  /**
   * The common tail of both entry points: one table column per gathered
   * column, the `nsigma` lookup, the stop-code loop and the `stopcode_exp`
   * column.
   */
  method Tabulate<V>(cols: Dict<string, seq<V>>, codeOf: V -> int) returns (r: Result<Table<V>, TcleanError>)
    requires cols.Valid()
    ensures r.Ok? <==> Decodable(cols, codeOf)
    ensures r.Ok? ==> IsOutputTable(cols, codeOf, r.value)
    ensures "nsigma" !in cols.items ==> r == Err(KeyError("nsigma"))
    ensures "nsigma" in cols.items && "stopcode" !in cols.items ==> r == Err(KeyError("stopcode"))
    ensures r.Err? && "nsigma" in cols.items && "stopcode" in cols.items ==>
      exists i | 0 <= i < |cols.items["stopcode"]| ::
        var c := codeOf(cols.items["stopcode"][i]);
        && (c < 0 || c > 8) && r.error == CodeOutOfRange(c)
        && forall j | 0 <= j < i :: 0 <= codeOf(cols.items["stopcode"][j]) <= 8
    ensures r.Err? ==> r.error == DecodeError(cols, codeOf)
  {
    var table: Table<V> := Dict(cols.keys, map k | k in cols.items :: Values(cols.items[k]));
    if "nsigma" !in table.items {
      return Err(KeyError("nsigma"));
    }
    if "stopcode" !in table.items {
      return Err(KeyError("stopcode"));
    }
    var codes := Each(cols.items["stopcode"], codeOf);
    var strOuts := ExplainStopCodes(codes);
    if strOuts.Err? {
      return Err(strOuts.error);
    }
    r := Ok(table.Set("stopcode_exp", Messages(strOuts.value)));
  }

  /**
   * `create_tclean_output_table`: `found` is what the glob for
   * `<filename>_channel_*.results_dict.npy` returned. No file means a warning
   * and no table; otherwise the files are sorted, loaded, gathered and
   * tabulated.
   */
  method CreateTcleanOutputTable<V>(found: seq<string>, load: string -> PyDictOf<V>, codeOf: V -> int)
    returns (r: Result<Option<Table<V>>, TcleanError>)
    ensures found == [] <==> r == Ok(None)
    ensures found != [] ==>
      var g := Gather(Each(SortStrings(found), load));
      && (g.Err? ==> r == Err(g.error))
      && (g.Ok? ==> (r.Ok? <==> Decodable(g.value, codeOf)))
      && (g.Ok? && !Decodable(g.value, codeOf) ==> r == Err(DecodeError(g.value, codeOf)))
      && (r.Ok? ==> g.Ok? && IsOutputTable(g.value, codeOf, r.value.value))
  {
    if |found| == 0 {
      return Ok(None);
    }
    var files := SortStrings(found);
    var ds := Each(files, load);
    var cols := GatherColumns(ds);
    if cols.Err? {
      return Err(cols.error);
    }
    GatherResult(ds);
    var table := Tabulate(cols.value, codeOf);
    if table.Err? {
      return Err(table.error);
    }
    r := Ok(Some(table.value));
  }

  /** The glob pattern of gather_tclean_outputs.py: `os.path.join(path, filename, "_channel_*")`. */
  function SearchPattern(path: string, filename: string): string {
    PathJoin(PathJoin(path, filename), "_channel_*")
  }

  /** The output file: `os.path.join(path, filename + ".h5")`. */
  function OutputPath(path: string, filename: string): string {
    PathJoin(path, filename + ".h5")
  }

  /**
   * The pattern puts `_channel_*` in a path component of its own: it matches
   * files inside a directory named after `filename`, not files whose names
   * begin with `filename`.
   */
  lemma SearchPatternIsOwnComponent(path: string, filename: string)
    requires filename != [] && filename[|filename| - 1] != '/'
    ensures SearchPattern(path, filename) == PathJoin(path, filename) + "/_channel_*"
    ensures var p := SearchPattern(path, filename); p[|p| - 11] == '/'
  {
    var dir := PathJoin(path, filename);
    JoinKeepsLast(path, filename);
    var p := dir + "/_channel_*";
    assert p[|dir|] == '/';
  }

  /** A join ends with the last character of its second part. */
  lemma JoinKeepsLast(a: string, b: string)
    requires b != []
    ensures var r := PathJoin(a, b); r != [] && r[|r| - 1] == b[|b| - 1]
  {
    var r := PathJoin(a, b);
    assert r[|r| - |b|..][|b| - 1] == r[|r| - 1];
  }

  /** The output file sits in `path` (or is `filename.h5` itself when `filename` is absolute) and ends in `.h5`. */
  lemma OutputPathShape(path: string, filename: string)
    ensures var o := OutputPath(path, filename); |o| >= 3 && o[|o| - 3..] == ".h5"
    ensures filename == [] || filename[0] != '/' ==>
      var o := OutputPath(path, filename); |path| <= |o| && o[..|path|] == path
    ensures filename != [] && filename[0] == '/' ==> OutputPath(path, filename) == filename + ".h5"
  {
    var b := filename + ".h5";
    assert b[|b| - 3..] == ".h5";
  }

  /** Files are sorted as strings, so channel 10 comes before channel 2 whatever follows the number. */
  lemma ChannelTenBeforeTwo(prefix: string, rest10: string, rest2: string)
    ensures StrLess(prefix + "_channel_1" + "0" + rest10, prefix + "_channel_2" + rest2)
  {
    var p := prefix + "_channel_";
    assert StrLess("1" + "0" + rest10, "2" + rest2);
    StrLessAfterCommonPrefix(p, "1" + "0" + rest10, "2" + rest2);
    assert prefix + "_channel_1" + "0" + rest10 == p + ("1" + "0" + rest10);
    assert prefix + "_channel_2" + rest2 == p + ("2" + rest2);
  }

  /**
   * The module-level code of gather_tclean_outputs.py: `found` is what the
   * glob for `SearchPattern(path, filename)` returned. There is no check for
   * an empty result; the table is written to `OutputPath(path, filename)`.
   */
  method GatherTcleanOutputs<V>(path: string, filename: string, found: seq<string>,
                                 load: string -> PyDictOf<V>, codeOf: V -> int)
    returns (r: Result<(string, Table<V>), TcleanError>)
    ensures found == [] ==> r == Err(Unbound)
    ensures var g := Gather(Each(SortStrings(found), load));
      && (g.Err? ==> r == Err(g.error))
      && (g.Ok? ==> (r.Ok? <==> Decodable(g.value, codeOf)))
      && (g.Ok? && !Decodable(g.value, codeOf) ==> r == Err(DecodeError(g.value, codeOf)))
      && (r.Ok? ==> g.Ok? && r.value.0 == OutputPath(path, filename) && IsOutputTable(g.value, codeOf, r.value.1))
  {
    var files := SortStrings(found);
    var ds := Each(files, load);
    var cols := GatherColumns(ds);
    if cols.Err? {
      return Err(cols.error);
    }
    GatherResult(ds);
    var table := Tabulate(cols.value, codeOf);
    if table.Err? {
      return Err(table.error);
    }
    r := Ok((OutputPath(path, filename), table.value));
  }
}
