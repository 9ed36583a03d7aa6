/**
 * `load_paramfile` of sequential_clean_submission.py: read a CASA parameter
 * file, one `key = "value"` line at a time, into a dict. The file's lines are
 * given as decoded text; each keeps its trailing newline, as Python's file
 * iteration yields it.
 */
module ParamFile {
  import opened Wrappers
  import opened PyText

  /** The exceptions the reader can raise. */
  datatype ParamError =
    | EmptyLine               // `line[0]` of an empty line raises IndexError
    | NotOnePair(parts: nat)  // `key, val = line.split(" = ")` raises ValueError unless there are two parts

  /** What one line contributes. */
  datatype LineKind = Skipped | Entry(key: string, val: string) | Malformed(error: ParamError)

  const Separator: string := " = "

  /**
   * One line: a comment (first character `#`) or a bare newline is skipped;
   * any other line must be exactly one key and one value around a single
   * ` = `; the key is stripped of whitespace, the value of whitespace and then
   * of surrounding double quotes.
   */
  function ReadLine(line: string): (k: LineKind)
    ensures k.Skipped? <==> line != [] && (line[0] == '#' || line == "\n")
    ensures k == Malformed(EmptyLine) <==> line == []
    ensures k.Malformed? <==> line == [] || (line[0] != '#' && line != "\n" && |Split(line, Separator)| != 2)
  {
    if line == [] then Malformed(EmptyLine)
    else if line[0] == '#' || line == "\n" then Skipped
    else
      var parts := Split(line, Separator);
      if |parts| != 2 then Malformed(NotOnePair(|parts|))
      else Entry(Strip(parts[0], IsSpace), Strip(Strip(parts[1], IsSpace), IsQuote))
  }

  /**
   * An entry line is its raw key, one ` = ` and its raw value, neither
   * containing ` = `; the stored key has no surrounding whitespace and the
   * stored value no surrounding double quotes.
   */
  lemma ReadLineEntry(line: string)
    requires ReadLine(line).Entry?
    ensures exists a, b :: line == a + Separator + b && !Contains(a, Separator) && !Contains(b, Separator)
                           && ReadLine(line).key == Strip(a, IsSpace)
                           && ReadLine(line).val == Strip(Strip(b, IsSpace), IsQuote)
    ensures var key := ReadLine(line).key; key != [] ==> !IsSpace(key[0]) && !IsSpace(key[|key| - 1])
    ensures var val := ReadLine(line).val; val != [] ==> !IsQuote(val[0]) && !IsQuote(val[|val| - 1])
  {
    var parts := Split(line, Separator);
    SplitJoin(line, Separator);
    SplitPiecesAreFree(line, Separator);
    assert line == parts[0] + Separator + parts[1];
    assert !Contains(parts[0], Separator) && !Contains(parts[1], Separator);
  }

  /** Each line of the file read on its own. */
  function ReadLines(lines: seq<string>): (kinds: seq<LineKind>)
    ensures |kinds| == |lines|
    ensures forall i :: 0 <= i < |lines| ==> kinds[i] == ReadLine(lines[i])
  {
    seq(|lines|, i requires 0 <= i < |lines| => ReadLine(lines[i]))
  }

  /** The dict after storing the read lines into `d` in order, or the exception of the first malformed line. */
  function Store(d: map<string, string>, kinds: seq<LineKind>): Result<map<string, string>, ParamError>
    decreases |kinds|
  {
    if kinds == [] then Ok(d)
    else match kinds[0]
      case Skipped => Store(d, kinds[1..])
      case Entry(k, v) => Store(d[k := v], kinds[1..])
      case Malformed(e) => Err(e)
  }

  /** The body of the line loop: skip the line, store its entry in `d`, or raise. */
  method StoreLine(d: map<string, string>, line: string) returns (r: Result<map<string, string>, ParamError>)
    ensures r == Store(d, [ReadLine(line)])
  {
    if line == [] {
      return Err(EmptyLine);
    }
    if line[0] == '#' || line == "\n" {
      return Ok(d);
    }
    var parts := Split(line, Separator);
    if |parts| != 2 {
      return Err(NotOnePair(|parts|));
    }
    r := Ok(d[Strip(parts[0], IsSpace) := Strip(Strip(parts[1], IsSpace), IsQuote)]);
  }

  /** Storing lines is storing the first one, then the rest into the result. */
  lemma StoreFirst(d: map<string, string>, kinds: seq<LineKind>)
    requires kinds != []
    ensures Store(d, kinds) == match Store(d, [kinds[0]])
      case Err(e) => Err(e)
      case Ok(d') => Store(d', kinds[1..])
  {
    assert [kinds[0]][1..] == [];
  }

  /** `load_paramfile`: the loop over the file's lines filling `d`. */
  method LoadParamfile(lines: seq<string>) returns (r: Result<map<string, string>, ParamError>)
    ensures r == Store(map[], ReadLines(lines))
  {
    ghost var kinds := ReadLines(lines);
    var d: map<string, string> := map[];
    for i := 0 to |lines|
      invariant Store(d, kinds[i..]) == Store(map[], kinds)
    {
      assert kinds[i..][0] == ReadLine(lines[i]) && kinds[i..][1..] == kinds[i + 1..];
      StoreFirst(d, kinds[i..]);
      var next := StoreLine(d, lines[i]);
      if next.Err? {
        return Err(next.error);
      }
      d := next.value;
    }
    assert kinds[|lines|..] == [];
    r := Ok(d);
  }

  /** The read line stores a value under key `k`. */
  predicate EntryFor(kind: LineKind, k: string) {
    kind.Entry? && kind.key == k
  }

  /** Storing succeeds exactly when no line is malformed. */
  lemma {:induction false} StoreSucceedsIff(d: map<string, string>, kinds: seq<LineKind>)
    ensures Store(d, kinds).Ok? <==> forall i :: 0 <= i < |kinds| ==> !kinds[i].Malformed?
    decreases |kinds|
  {
    if kinds != [] {
      assert forall i :: 1 <= i < |kinds| ==> kinds[i] == kinds[1..][i - 1];
      match kinds[0]
      case Skipped => StoreSucceedsIff(d, kinds[1..]);
      case Entry(k, v) => StoreSucceedsIff(d[k := v], kinds[1..]);
      case Malformed(e) =>
    }
  }

  /** On failure the exception is that of the first malformed line. */
  lemma {:induction false} StoreFailsAtFirstMalformed(d: map<string, string>, kinds: seq<LineKind>)
    requires Store(d, kinds).Err?
    ensures exists i :: 0 <= i < |kinds| && kinds[i] == Malformed(Store(d, kinds).error)
                        && forall j :: 0 <= j < i ==> !kinds[j].Malformed?
    decreases |kinds|
  {
    if !kinds[0].Malformed? {
      var d' := if kinds[0].Entry? then d[kinds[0].key := kinds[0].val] else d;
      assert Store(d', kinds[1..]) == Store(d, kinds);
      StoreFailsAtFirstMalformed(d', kinds[1..]);
      var i :| 0 <= i < |kinds[1..]| && kinds[1..][i] == Malformed(Store(d', kinds[1..]).error)
                && forall j :: 0 <= j < i ==> !kinds[1..][j].Malformed?;
      assert forall j :: 1 <= j < i + 1 ==> kinds[j] == kinds[1..][j - 1];
      assert kinds[i + 1] == Malformed(Store(d, kinds).error);
    }
  }

  /** The stored keys are the keys of entry lines, plus those present before: skipped lines add none. */
  lemma {:induction false} StoreKeys(d: map<string, string>, kinds: seq<LineKind>, m: map<string, string>)
    requires Store(d, kinds) == Ok(m)
    ensures forall k :: k in m <==> (k in d || exists i :: 0 <= i < |kinds| && EntryFor(kinds[i], k))
    decreases |kinds|
  {
    if kinds != [] {
      var d' := if kinds[0].Entry? then d[kinds[0].key := kinds[0].val] else d;
      assert Store(d', kinds[1..]) == Ok(m);
      StoreKeys(d', kinds[1..], m);
      forall k ensures k in m <==> (k in d || exists i :: 0 <= i < |kinds| && EntryFor(kinds[i], k)) {
        if exists i :: 0 <= i < |kinds[1..]| && EntryFor(kinds[1..][i], k) {
          var i :| 0 <= i < |kinds[1..]| && EntryFor(kinds[1..][i], k);
          assert EntryFor(kinds[i + 1], k);
        }
        if exists i :: 0 <= i < |kinds| && EntryFor(kinds[i], k) {
          var i :| 0 <= i < |kinds| && EntryFor(kinds[i], k);
          if i > 0 {
            assert EntryFor(kinds[1..][i - 1], k);
          }
        }
      }
    }
  }

  /** A key that no line mentions keeps the value it had before. */
  lemma {:induction false} StoreKeepsUnmentioned(d: map<string, string>, kinds: seq<LineKind>, m: map<string, string>, k: string)
    requires Store(d, kinds) == Ok(m) && k in d
    requires forall i :: 0 <= i < |kinds| ==> !EntryFor(kinds[i], k)
    ensures k in m && m[k] == d[k]
    decreases |kinds|
  {
    if kinds != [] {
      assert !EntryFor(kinds[0], k);
      var d' := if kinds[0].Entry? then d[kinds[0].key := kinds[0].val] else d;
      assert Store(d', kinds[1..]) == Ok(m);
      assert forall i :: 0 <= i < |kinds[1..]| ==> kinds[1..][i] == kinds[i + 1];
      StoreKeepsUnmentioned(d', kinds[1..], m, k);
    }
  }

  /** A key given on several lines holds the value of its last line. */
  lemma {:induction false} StoreLastWins(d: map<string, string>, kinds: seq<LineKind>, m: map<string, string>, i: nat)
    requires Store(d, kinds) == Ok(m)
    requires i < |kinds| && kinds[i].Entry?
    requires forall j :: i < j < |kinds| ==> !EntryFor(kinds[j], kinds[i].key)
    ensures kinds[i].key in m && m[kinds[i].key] == kinds[i].val
    decreases |kinds|
  {
    var d' := if kinds[0].Entry? then d[kinds[0].key := kinds[0].val] else d;
    assert Store(d', kinds[1..]) == Ok(m);
    if i == 0 {
      assert forall j :: 0 <= j < |kinds[1..]| ==> kinds[1..][j] == kinds[j + 1];
      StoreKeepsUnmentioned(d', kinds[1..], m, kinds[0].key);
    } else {
      assert kinds[1..][i - 1] == kinds[i];
      StoreLastWins(d', kinds[1..], m, i - 1);
    }
  }
}
