/**
 * The array bookkeeping of `plot_weight_density` in
 * casa_7m12m_tools/weight_density_uv_plot.py: the channel-0 slice of the
 * measurement set's flag cube, its reconciliation with the shape of the
 * weight array (possibly by transposing it), the in-place zeroing of flagged
 * weights, and the bin edges, bin centres and annular bin areas of the plot.
 * Numbers are exact reals; the UV distances are given.
 */
module WeightDensity {
  import opened Wrappers

  /** The exceptions the bookkeeping can raise. */
  datatype WeightError =
    | NoChannel                                              // `flag[:, 0, :]` on a cube without channels: IndexError
    | EmptyUvDistance                                        // `uvd.min()` of no rows: ValueError
    | NegativeBinCount(nbins: int)                           // `np.linspace` with a negative count: ValueError
    | ShapeMismatch(flagShape: (nat, nat), wtShape: (nat, nat))     // the explicit ValueError
    | MaskShapeMismatch(flagShape: (nat, nat), wtShape: (nat, nat)) // `wt[flags]` with a mask of another shape: IndexError

  /** A two-dimensional boolean array: `at[i][j]` for `i < rows`, `j < cols`. */
  datatype Mask = Mask(rows: nat, cols: nat, at: seq<seq<bool>>) {
    ghost predicate Valid() {
      |at| == rows && forall i | 0 <= i < rows :: |at[i]| == cols
    }

    function Shape(): (nat, nat) {
      (rows, cols)
    }
  }

  // ---------------------------------------------------------------------------
  // The flags

  /**
   * `datadict['flag'][:, 0, :]`: the plane of channel 0 of the flag cube,
   * indexed by polarization and row.
   */
  function ChannelZero(flag: array3<bool>): (r: Result<Mask, WeightError>)
    reads flag
    ensures r.Err? <==> flag.Length1 == 0
    ensures r.Err? ==> r.error == NoChannel
    ensures r.Ok? ==> r.value.Valid() && r.value.Shape() == (flag.Length0, flag.Length2)
    ensures r.Ok? ==> forall i, k | 0 <= i < flag.Length0 && 0 <= k < flag.Length2 :: r.value.at[i][k] == flag[i, 0, k]
  {
    if flag.Length1 == 0 then Err(NoChannel)
    else Ok(Mask(flag.Length0, flag.Length2,
                 seq(flag.Length0, i requires 0 <= i < flag.Length0 reads flag =>
                   seq(flag.Length2, k requires 0 <= k < flag.Length2 reads flag => flag[i, 0, k]))))
  }

  /** `flags.T`. */
  function Transpose(m: Mask): (t: Mask)
    requires m.Valid()
    ensures t.Valid() && t.Shape() == (m.cols, m.rows)
    ensures forall j, i | 0 <= j < m.cols && 0 <= i < m.rows :: t.at[j][i] == m.at[i][j]
  {
    Mask(m.cols, m.rows, seq(m.cols, j requires 0 <= j < m.cols => seq(m.rows, i requires 0 <= i < m.rows => m.at[i][j])))
  }

  /** Transposing twice gives the flags back. */
  lemma TransposeTwice(m: Mask)
    requires m.Valid()
    ensures Transpose(Transpose(m)) == m
  {
    var t := Transpose(Transpose(m));
    forall i | 0 <= i < m.rows ensures t.at[i] == m.at[i] {
    }
  }

  /**
   * The shape check: flags of the weights' shape are kept; otherwise, when
   * the flags' first dimension equals the weights' second, they are
   * transposed; otherwise a ValueError names both shapes.
   */
  function Reconcile(flags: Mask, wtShape: (nat, nat)): Result<Mask, WeightError>
    requires flags.Valid()
  {
    if flags.Shape() == wtShape then Ok(flags)
    else if flags.rows == wtShape.1 then Ok(Transpose(flags))
    else Err(ShapeMismatch(flags.Shape(), wtShape))
  }

  /** What the shape check lets through, and what it does to the flags. */
  lemma ReconcileResult(flags: Mask, wtShape: (nat, nat))
    requires flags.Valid()
    ensures Reconcile(flags, wtShape).Ok? <==> flags.Shape() == wtShape || flags.rows == wtShape.1
    ensures flags.Shape() == wtShape ==> Reconcile(flags, wtShape) == Ok(flags)
    ensures flags.Shape() != wtShape && flags.rows == wtShape.1 ==>
      && Reconcile(flags, wtShape).Ok?
      && var t := Reconcile(flags, wtShape).value;
         t.Valid() && t.Shape() == (flags.cols, flags.rows)
         && forall j, i | 0 <= j < flags.cols && 0 <= i < flags.rows :: t.at[j][i] == flags.at[i][j]
    ensures Reconcile(flags, wtShape).Err? ==> Reconcile(flags, wtShape).error == ShapeMismatch(flags.Shape(), wtShape)
  {
  }

  /**
   * Since the check compares one dimension only, the reconciled flags have
   * the weights' shape exactly when the flags had it already or had it
   * transposed.
   */
  lemma ReconcileFitsIff(flags: Mask, wtShape: (nat, nat))
    requires flags.Valid()
    ensures (Reconcile(flags, wtShape).Ok? && Reconcile(flags, wtShape).value.Shape() == wtShape)
        <==> (flags.Shape() == wtShape || flags.Shape() == (wtShape.1, wtShape.0))
  {
    if flags.Shape() != wtShape && flags.rows == wtShape.1 {
      assert Reconcile(flags, wtShape).value.Shape() == (flags.cols, flags.rows);
    }
  }

  /**
   * Flags of shape (3, 4) against weights of shape (2, 3) pass the check and
   * are transposed to (4, 3), which still does not fit the weights.
   */
  lemma OneDimensionPassesMismatch()
    ensures var flags := Mask(3, 4, [[false, false, false, false], [false, false, false, false], [false, false, false, false]]);
      && flags.Valid()
      && Reconcile(flags, (2, 3)).Ok?
      && Reconcile(flags, (2, 3)).value.Shape() == (4, 3)
  {
    var flags := Mask(3, 4, [[false, false, false, false], [false, false, false, false], [false, false, false, false]]);
    assert flags.Valid();
  }

  /** `wt[flags] = 0`: every flagged weight becomes 0, every other is kept. */
  method ZeroFlagged(wt: array2<real>, flags: Mask)
    requires flags.Valid() && flags.Shape() == (wt.Length0, wt.Length1)
    modifies wt
    ensures forall i, j | 0 <= i < wt.Length0 && 0 <= j < wt.Length1 ::
      wt[i, j] == if flags.at[i][j] then 0.0 else old(wt[i, j])
  {
    forall i, j | 0 <= i < wt.Length0 && 0 <= j < wt.Length1 && flags.at[i][j] {
      wt[i, j] := 0.0;
    }
  }

  // ---------------------------------------------------------------------------
  // The bins

  /** The least UV distance, `uvd.min()`. */
  function SeqMin(s: seq<real>): (m: real)
    requires s != []
    ensures m in s && forall x | x in s :: m <= x
  {
    if |s| == 1 then s[0]
    else
      var rest := SeqMin(s[1..]);
      assert forall x | x in s :: x == s[0] || x in s[1..];
      if s[0] <= rest then s[0] else rest
  }

  /** The greatest UV distance, `uvd.max()`. */
  function SeqMax(s: seq<real>): (m: real)
    requires s != []
    ensures m in s && forall x | x in s :: x <= m
  {
    if |s| == 1 then s[0]
    else
      var rest := SeqMax(s[1..]);
      assert forall x | x in s :: x == s[0] || x in s[1..];
      if rest <= s[0] then s[0] else rest
  }

  /**
   * `np.linspace(lo, hi, n)`: `n` edges `lo + i * step` with
   * `step = (hi - lo) / (n - 1)`, the last one set to `hi` itself; one edge
   * is `lo` alone.
   */
  function Linspace(lo: real, hi: real, n: nat): (edges: seq<real>)
    ensures |edges| == n
  {
    if n <= 1 then seq(n, _ => lo)
    else
      var step := (hi - lo) / ((n - 1) as real);
      seq(n, i requires 0 <= i < n => if i == n - 1 then hi else lo + (i as real) * step)
  }

  /** For `0 <= x <= y` and `s >= 0`, `0 <= x * s <= y * s`. */
  lemma ScaleNonNegative(x: real, y: real, s: real)
    requires 0.0 <= x <= y && 0.0 <= s
    ensures 0.0 <= x * s <= y * s
  {
    assert y * s - x * s == (y - x) * s;
  }

  /** `d` steps of `span / d` cover `span`. */
  lemma StepsCoverSpan(d: real, span: real)
    requires d > 0.0
    ensures d * (span / d) == span
  {
  }

  /** Each edge lies between `lo` and `hi` and is no greater than the next one. */
  lemma LinspaceAt(lo: real, hi: real, n: nat, i: nat)
    requires lo <= hi && 2 <= n && i < n
    ensures lo <= Linspace(lo, hi, n)[i] <= hi
    ensures i < n - 1 ==> Linspace(lo, hi, n)[i] <= Linspace(lo, hi, n)[i + 1]
  {
    var d := (n - 1) as real;
    var step := (hi - lo) / d;
    var e := Linspace(lo, hi, n);
    assert 0.0 <= step;
    StepsCoverSpan(d, hi - lo);
    if i < n - 1 {
      assert e[i] == lo + (i as real) * step;
      ScaleNonNegative(i as real, d, step);
      if i + 1 < n - 1 {
        assert e[i + 1] == lo + ((i + 1) as real) * step;
        ScaleNonNegative(i as real, (i + 1) as real, step);
      }
    }
  }

  /** The edges start at `lo`, end at `hi`, and climb from one to the next between them when `lo <= hi`. */
  lemma LinspaceEdges(lo: real, hi: real, n: nat)
    ensures n >= 1 ==> Linspace(lo, hi, n)[0] == lo
    ensures n >= 2 ==> Linspace(lo, hi, n)[n - 1] == hi
    ensures lo <= hi ==> forall i | 0 <= i < n - 1 :: Linspace(lo, hi, n)[i] <= Linspace(lo, hi, n)[i + 1]
    ensures lo <= hi ==> forall i | 0 <= i < n :: lo <= Linspace(lo, hi, n)[i] <= hi
  {
    if n >= 2 {
      assert Linspace(lo, hi, n)[0] == lo + (0 as real) * ((hi - lo) / ((n - 1) as real));
      if lo <= hi {
        forall i | 0 <= i < n ensures lo <= Linspace(lo, hi, n)[i] <= hi
                                 && (i < n - 1 ==> Linspace(lo, hi, n)[i] <= Linspace(lo, hi, n)[i + 1]) {
          LinspaceAt(lo, hi, n, i);
        }
      }
    }
  }

  /** `(bins[:-1] + bins[1:]) / 2.`: the centre of each bin. */
  function Midbins(bins: seq<real>): (mid: seq<real>)
    ensures |mid| == if bins == [] then 0 else |bins| - 1
  {
    if bins == [] then []
    else seq(|bins| - 1, i requires 0 <= i < |bins| - 1 => (bins[i] + bins[i + 1]) / 2.0)
  }

  /** The area of the annulus between radii `a` and `b`. */
  function Annulus(a: real, b: real, pi: real): real
  {
    (b * b - a * a) * pi
  }

  /** `(bins[1:]**2 - bins[:-1]**2) * pi`: the area of the annulus of each bin. */
  function BinArea(bins: seq<real>, pi: real): (area: seq<real>)
    ensures |area| == if bins == [] then 0 else |bins| - 1
  {
    if bins == [] then []
    else seq(|bins| - 1, i requires 0 <= i < |bins| - 1 => Annulus(bins[i], bins[i + 1], pi))
  }

  /** Each centre lies between its bin's edges, when the edges climb. */
  lemma MidbinsWithin(bins: seq<real>)
    requires forall i | 0 <= i < |bins| - 1 :: bins[i] <= bins[i + 1]
    ensures forall i | 0 <= i < |Midbins(bins)| :: bins[i] <= Midbins(bins)[i] <= bins[i + 1]
  {
  }

  /** For `0 <= a <= b`, the annulus from radius `a` to `b` has non-negative area. */
  lemma AnnulusNonNegative(a: real, b: real, pi: real)
    requires 0.0 <= a <= b && pi >= 0.0
    ensures 0.0 <= Annulus(a, b, pi)
  {
    ScaleNonNegative(a, b, a);
    ScaleNonNegative(a, b, b);
    ScaleNonNegative(0.0, b * b - a * a, pi);
  }

  /** Climbing, non-negative edges give annuli of non-negative area. */
  lemma BinAreaNonNegative(bins: seq<real>, pi: real)
    requires pi >= 0.0
    requires forall i | 0 <= i < |bins| :: 0.0 <= bins[i]
    requires forall i | 0 <= i < |bins| - 1 :: bins[i] <= bins[i + 1]
    ensures forall i | 0 <= i < |BinArea(bins, pi)| :: 0.0 <= BinArea(bins, pi)[i]
  {
    forall i | 0 <= i < |bins| - 1 ensures 0.0 <= Annulus(bins[i], bins[i + 1], pi) {
      AnnulusNonNegative(bins[i], bins[i + 1], pi);
    }
  }

  function Sum(s: seq<real>): real
  {
    if s == [] then 0.0 else s[0] + Sum(s[1..])
  }

  /** Adjacent annuli make up the ring from the inner radius of the first to the outer radius of the second. */
  lemma AnnuliAdd(a: real, b: real, c: real, pi: real)
    ensures Annulus(a, b, pi) + Annulus(b, c, pi) == Annulus(a, c, pi)
  {
    assert (b * b - a * a) * pi + (c * c - b * b) * pi == ((b * b - a * a) + (c * c - b * b)) * pi;
  }

  /** The annuli tile the ring between the first and the last edge: their areas add up to its area. */
  lemma {:induction false} BinAreaTotal(bins: seq<real>, pi: real)
    requires bins != []
    ensures Sum(BinArea(bins, pi)) == Annulus(bins[0], bins[|bins| - 1], pi)
    decreases |bins|
  {
    if |bins| == 1 {
      assert Annulus(bins[0], bins[0], pi) == 0.0 * pi;
    } else {
      var rest := bins[1..];
      BinAreaTotal(rest, pi);
      var area := BinArea(bins, pi);
      assert area[1..] == BinArea(rest, pi);
      assert rest[|rest| - 1] == bins[|bins| - 1];
      AnnuliAdd(bins[0], bins[1], bins[|bins| - 1], pi);
    }
  }

  // ---------------------------------------------------------------------------
  // The whole bookkeeping

  /** The bin edges of the plot, their centres and their annular areas. */
  datatype Binning = Binning(edges: seq<real>, midbins: seq<real>, binArea: seq<real>)

  /**
   * The bin edges: the given ones, or by default `nbins` edges spanning the
   * UV distances, which needs at least one distance and a count of at least 0.
   */
  function Edges(uvd: seq<real>, nbins: int, bins: Option<seq<real>>): (r: Result<seq<real>, WeightError>)
    ensures bins.Some? ==> r == Ok(bins.value)
    ensures bins.None? && uvd == [] ==> r == Err(EmptyUvDistance)
    ensures bins.None? && uvd != [] && nbins < 0 ==> r == Err(NegativeBinCount(nbins))
    ensures bins.None? && r.Ok? ==> |r.value| == nbins
    ensures bins.None? && r.Ok? && nbins >= 1 ==> r.value[0] in uvd && forall x | x in uvd :: r.value[0] <= x
    ensures bins.None? && r.Ok? && nbins >= 2 ==> r.value[nbins - 1] in uvd && forall x | x in uvd :: x <= r.value[nbins - 1]
  {
    if bins.Some? then Ok(bins.value)
    else if uvd == [] then Err(EmptyUvDistance)
    else if nbins < 0 then Err(NegativeBinCount(nbins))
    else
      LinspaceEdges(SeqMin(uvd), SeqMax(uvd), nbins);
      Ok(Linspace(SeqMin(uvd), SeqMax(uvd), nbins))
  }

  /**
   * Everything before the masking: the flag slice, the bin edges and the
   * shape check, giving the edges and flags that fit the weights, or the
   * first exception raised.
   */
  function Prepare(flagSlice: Result<Mask, WeightError>, wtShape: (nat, nat), uvd: seq<real>, nbins: int, bins: Option<seq<real>>)
    : (r: Result<(seq<real>, Mask), WeightError>)
    requires flagSlice.Ok? ==> flagSlice.value.Valid()
    ensures r.Ok? ==> r.value.1.Valid() && r.value.1.Shape() == wtShape
  {
    if flagSlice.Err? then Err(flagSlice.error)
    else
      var edges :- Edges(uvd, nbins, bins);
      var flags :- Reconcile(flagSlice.value, wtShape);
      if flags.Shape() != wtShape then Err(MaskShapeMismatch(flags.Shape(), wtShape))
      else Ok((edges, flags))
  }

  /**
   * `plot_weight_density` without the measurement set I/O, the histograms
   * and the plot: the weights are zeroed in place where the reconciled flags
   * are set, and the binning is returned; on an exception the weights are
   * untouched.
   */
  method PlotWeightDensity(flag: array3<bool>, wt: array2<real>, uvd: seq<real>, nbins: int, bins: Option<seq<real>>, pi: real)
    returns (r: Result<Binning, WeightError>)
    modifies wt
    ensures var p := Prepare(ChannelZero(flag), (wt.Length0, wt.Length1), uvd, nbins, bins);
      && (p.Err? ==> r == Err(p.error) && unchanged(wt))
      && (p.Ok? ==>
            && r == Ok(Binning(p.value.0, Midbins(p.value.0), BinArea(p.value.0, pi)))
            && forall i, j | 0 <= i < wt.Length0 && 0 <= j < wt.Length1 ::
                 wt[i, j] == if p.value.1.at[i][j] then 0.0 else old(wt[i, j]))
  {
    var sliced := ChannelZero(flag);
    if sliced.Err? {
      return Err(sliced.error);
    }
    var flags := sliced.value;
    var edges: seq<real>;
    if bins.Some? {
      edges := bins.value;
    } else {
      if uvd == [] {
        return Err(EmptyUvDistance);
      }
      if nbins < 0 {
        return Err(NegativeBinCount(nbins));
      }
      edges := Linspace(SeqMin(uvd), SeqMax(uvd), nbins);
    }
    if flags.Shape() != (wt.Length0, wt.Length1) {
      if flags.rows == wt.Length1 {
        flags := Transpose(flags);
      } else {
        return Err(ShapeMismatch(flags.Shape(), (wt.Length0, wt.Length1)));
      }
    }
    if flags.Shape() != (wt.Length0, wt.Length1) {
      return Err(MaskShapeMismatch(flags.Shape(), (wt.Length0, wt.Length1)));
    }
    ZeroFlagged(wt, flags);
    var midbins := Midbins(edges);
    var binArea := BinArea(edges, pi);
    r := Ok(Binning(edges, midbins, binArea));
  }

  /** With default bins there are `nbins` edges and one centre and one area fewer. */
  lemma DefaultBinCounts(flagSlice: Result<Mask, WeightError>, wtShape: (nat, nat), uvd: seq<real>, nbins: int, pi: real)
    requires flagSlice.Ok? ==> flagSlice.value.Valid()
    requires Prepare(flagSlice, wtShape, uvd, nbins, None).Ok?
    ensures var edges := Prepare(flagSlice, wtShape, uvd, nbins, None).value.0;
      && |edges| == nbins
      && |Midbins(edges)| == |BinArea(edges, pi)| == if nbins == 0 then 0 else nbins - 1
  {
  }

  /** The flags that mask the weights: the channel-0 plane, or its transpose when only that fits. */
  lemma PreparedFlags(flag: array3<bool>, wtShape: (nat, nat), uvd: seq<real>, nbins: int, bins: Option<seq<real>>)
    requires Prepare(ChannelZero(flag), wtShape, uvd, nbins, bins).Ok?
    ensures var flags := Prepare(ChannelZero(flag), wtShape, uvd, nbins, bins).value.1;
      || ((flag.Length0, flag.Length2) == wtShape
          && forall i, k | 0 <= i < flag.Length0 && 0 <= k < flag.Length2 :: flags.at[i][k] == flag[i, 0, k])
      || ((flag.Length2, flag.Length0) == wtShape && (flag.Length0, flag.Length2) != wtShape
          && forall k, i | 0 <= k < flag.Length2 && 0 <= i < flag.Length0 :: flags.at[k][i] == flag[i, 0, k])
  {
    var m := ChannelZero(flag).value;
    ReconcileFitsIff(m, wtShape);
    ReconcileResult(m, wtShape);
  }
}
