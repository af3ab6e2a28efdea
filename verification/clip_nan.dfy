/** Clipping unmeasured points from shaped 2-D data before drawing a
    heatmap. A sweep fills its grid row by row, so a not-yet-measured
    setpoint shows up as a missing value (NaN, here `None`) in the first
    column of `x` or the first row of `y`; such rows and columns are dropped
    and the remaining `z` values are transposed into the layout the heatmap
    expects (one row per `y` value). */
module ClipNan {

  import opened Outcomes

  type Matrix<T> = seq<seq<T>>

  /** `m` has `rows` rows of `cols` entries each. */
  predicate Shaped<T>(m: Matrix<T>, rows: nat, cols: nat) {
    |m| == rows && forall i :: 0 <= i < rows ==> |m[i]| == cols
  }

  /** Column `j` of a matrix whose rows are all long enough. */
  function Column<T>(m: Matrix<T>, j: nat): (col: seq<T>)
    requires forall i :: 0 <= i < |m| ==> j < |m[i]|
    ensures |col| == |m| && forall i :: 0 <= i < |m| ==> col[i] == m[i][j]
  {
    seq(|m|, i requires 0 <= i < |m| => m[i][j])
  }

  /** The positions, from `from` on, whose entry is defined: in increasing
      order, and every defined position is among them. */
  function KeptFrom<R>(s: seq<Option<R>>, from: nat): (ks: seq<nat>)
    requires from <= |s|
    ensures forall a :: 0 <= a < |ks| ==> from <= ks[a] < |s| && s[ks[a]].Some?
    ensures forall a, b :: 0 <= a < b < |ks| ==> ks[a] < ks[b]
    ensures forall i :: from <= i < |s| && s[i].Some? ==> i in ks
    decreases |s| - from
  {
    if from == |s| then []
    else (if s[from].Some? then [from] else []) + KeptFrom(s, from + 1)
  }

  /** The positions of a sequence whose entry is defined (the boolean mask
      `~isnan(s)` used as an index). */
  function Kept<R>(s: seq<Option<R>>): (ks: seq<nat>)
    ensures forall a :: 0 <= a < |ks| ==> ks[a] < |s| && s[ks[a]].Some?
    ensures forall a, b :: 0 <= a < b < |ks| ==> ks[a] < ks[b]
    ensures forall i :: 0 <= i < |s| ==> (s[i].Some? <==> i in ks)
  {
    KeptFrom(s, 0)
  }

  /** Reference definition: the defined values of a sequence, in order. */
  function Somes<R>(s: seq<Option<R>>): seq<R> {
    if s == [] then [] else (if s[0].Some? then [s[0].value] else []) + Somes(s[1..])
  }

  /** The values at the given defined positions. */
  function ValuesAt<R>(s: seq<Option<R>>, ks: seq<nat>): (vs: seq<R>)
    requires forall a :: 0 <= a < |ks| ==> ks[a] < |s| && s[ks[a]].Some?
    ensures |vs| == |ks| && forall a :: 0 <= a < |ks| ==> Some(vs[a]) == s[ks[a]]
  {
    seq(|ks|, a requires 0 <= a < |ks| => s[ks[a]].value)
  }

  lemma ValuesAtAppend<R>(s: seq<Option<R>>, ks: seq<nat>, ls: seq<nat>)
    requires forall a :: 0 <= a < |ks| ==> ks[a] < |s| && s[ks[a]].Some?
    requires forall a :: 0 <= a < |ls| ==> ls[a] < |s| && s[ls[a]].Some?
    ensures ValuesAt(s, ks + ls) == ValuesAt(s, ks) + ValuesAt(s, ls)
  {
    var both := ks + ls;
    assert forall a :: |ks| <= a < |both| ==> both[a] == ls[a - |ks|];
  }

  lemma {:induction false} KeptFromValues<R>(s: seq<Option<R>>, from: nat)
    requires from <= |s|
    ensures ValuesAt(s, KeptFrom(s, from)) == Somes(s[from..])
    decreases |s| - from
  {
    if from < |s| {
      KeptFromValues(s, from + 1);
      var head: seq<nat> := if s[from].Some? then [from] else [];
      var rest := KeptFrom(s, from + 1);
      assert KeptFrom(s, from) == head + rest;
      ValuesAtAppend(s, head, rest);
      assert ValuesAt(s, head) == if s[from].Some? then [s[from].value] else [];
      assert s[from..][1..] == s[from + 1..];
      assert s[from..][0] == s[from];
    }
  }

  /** Masking with the defined positions keeps exactly the defined values. */
  lemma KeptValuesAreSomes<R>(s: seq<Option<R>>)
    ensures ValuesAt(s, Kept(s)) == Somes(s)
  {
    KeptFromValues(s, 0);
    assert s[0..] == s;
  }

  /** With nothing missing, every position is kept. */
  lemma {:induction false} KeptFromAll<R>(s: seq<Option<R>>, from: nat)
    requires from <= |s|
    requires forall i :: 0 <= i < |s| ==> s[i].Some?
    ensures |KeptFrom(s, from)| == |s| - from
    ensures forall a :: 0 <= a < |s| - from ==> KeptFrom(s, from)[a] == from + a
    decreases |s| - from
  {
    if from < |s| {
      KeptFromAll(s, from + 1);
      var rest := KeptFrom(s, from + 1);
      assert KeptFrom(s, from) == [from] + rest;
    }
  }

  /** What the clip hands to the heatmap: the kept `x` setpoints (one per
      row), the kept `y` setpoints (one per column) and `z`, with one row per
      kept `y` and one column per kept `x`. */
  datatype Clipped<R, Z> = Clipped(xs: seq<R>, ys: seq<R>, zt: Matrix<Z>)

  /** `_clip_nan_from_shaped_data` on data found to be on a rectilinear
      grid: rows are kept exactly when their `x[i][0]` is defined, columns
      exactly when their `y[0][j]` is defined, and `z` is restricted to the
      kept rows and columns and transposed. */
  function ClipNanFromShapedData<R, Z>(x: Matrix<Option<R>>, y: Matrix<Option<R>>, z: Matrix<Z>): (c: Clipped<R, Z>)
    requires |x| >= 1 && |x[0]| >= 1
    requires Shaped(x, |x|, |x[0]|) && Shaped(y, |x|, |x[0]|) && Shaped(z, |x|, |x[0]|)
    ensures var rows := Kept(Column(x, 0));
      && |c.xs| == |rows|
      && forall a :: 0 <= a < |rows| ==> Some(c.xs[a]) == x[rows[a]][0]
    ensures var cols := Kept(y[0]);
      && |c.ys| == |cols|
      && forall b :: 0 <= b < |cols| ==> Some(c.ys[b]) == y[0][cols[b]]
    ensures Shaped(c.zt, |c.ys|, |c.xs|)
    ensures var rows := Kept(Column(x, 0)); var cols := Kept(y[0]);
      forall b, a :: 0 <= b < |cols| && 0 <= a < |rows| ==> c.zt[b][a] == z[rows[a]][cols[b]]
  {
    var rows := Kept(Column(x, 0));
    var cols := Kept(y[0]);
    var zt := seq(|cols|, b requires 0 <= b < |cols| =>
      seq(|rows|, a requires 0 <= a < |rows| => z[rows[a]][cols[b]]));
    Clipped(ValuesAt(Column(x, 0), rows), ValuesAt(y[0], cols), zt)
  }

  /** `m` transposed: column `j` of `m` becomes row `j`. */
  function Transpose<T>(m: Matrix<T>, rows: nat, cols: nat): (t: Matrix<T>)
    requires Shaped(m, rows, cols)
    ensures Shaped(t, cols, rows)
    ensures forall j, i :: 0 <= j < cols && 0 <= i < rows ==> t[j][i] == m[i][j]
  {
    seq(cols, j requires 0 <= j < cols => seq(rows, i requires 0 <= i < rows => m[i][j]))
  }

  /** The setpoints handed on are the defined entries of the first column of
      `x` and of the first row of `y`, in order. */
  lemma ClipKeepsDefinedSetpoints<R, Z>(x: Matrix<Option<R>>, y: Matrix<Option<R>>, z: Matrix<Z>)
    requires |x| >= 1 && |x[0]| >= 1
    requires Shaped(x, |x|, |x[0]|) && Shaped(y, |x|, |x[0]|) && Shaped(z, |x|, |x[0]|)
    ensures ClipNanFromShapedData(x, y, z).xs == Somes(Column(x, 0))
    ensures ClipNanFromShapedData(x, y, z).ys == Somes(y[0])
  {
    KeptValuesAreSomes(Column(x, 0));
    KeptValuesAreSomes(y[0]);
  }

  /** With no setpoint missing, nothing is clipped and `z` is only
      transposed. */
  lemma ClipWithoutNan<R, Z>(x: Matrix<Option<R>>, y: Matrix<Option<R>>, z: Matrix<Z>)
    requires |x| >= 1 && |x[0]| >= 1
    requires Shaped(x, |x|, |x[0]|) && Shaped(y, |x|, |x[0]|) && Shaped(z, |x|, |x[0]|)
    requires forall i :: 0 <= i < |x| ==> x[i][0].Some?
    requires forall j :: 0 <= j < |x[0]| ==> y[0][j].Some?
    ensures |ClipNanFromShapedData(x, y, z).xs| == |x|
    ensures |ClipNanFromShapedData(x, y, z).ys| == |x[0]|
    ensures ClipNanFromShapedData(x, y, z).zt == Transpose(z, |x|, |x[0]|)
  {
    var col := Column(x, 0);
    KeptFromAll(col, 0);
    KeptFromAll(y[0], 0);
    var c := ClipNanFromShapedData(x, y, z);
    var t := Transpose(z, |x|, |x[0]|);
    assert forall b :: 0 <= b < |x[0]| ==> c.zt[b] == t[b];
  }
}
