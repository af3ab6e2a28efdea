/** The bookkeeping of `plot_dataset`: validating the complex-plot options,
    splitting complex records, providing one axes object per plot, deciding
    per group whether a line plot, a heatmap or nothing is drawn, and
    returning one colorbar slot per axes object.

    Drawing, tick rescaling, colour scaling and the plot-type detection of
    the data-export layer are uninterpreted: they are the fields of a
    `Backend`. */
module PlotDataset {
  import opened Outcomes
  import opened PlotRecords
  import opened ComplexSplit
  import opened PlotKwargs
  import opened AxisLabels

  /** The plotting library as seen by the bookkeeping:
      `subplotKeys` are the keywords that belong to figure and subplot
      creation; `createAxes(i, kw)` is the axes object created for plot `i`
      from those keywords; `plotType1D` and `plotType2D` name the plot type
      the data-export layer detects for a group; `drawColorbar(ax, cb, data)`
      is the colorbar of the heatmap of `data` drawn on `ax`, reusing `cb`
      when given;
      `defaultCmap` is the configured default colormap. */
  datatype Backend<!C, !R, !A, !B, !V> = Backend(
    subplotKeys: set<string>,
    createAxes: (nat, map<string, V>) -> A,
    plotType1D: Group<C, R> -> string,
    plotType2D: Group<C, R> -> string,
    drawColorbar: (A, Option<B>, Group<C, R>) -> B,
    ops: ComplexOps<C, R>,
    defaultCmap: V)

  /** What one iteration of the plotting loop did with a group. */
  datatype Panel<A, B, V> =
    | Drawn(axes: A, plottype: string, kwargs: map<string, V>, labels: AxesLabels, colorbar: Option<B>)
    | NotDrawn

  /** The colorbar slot a panel contributes to the returned list. */
  function NewColorbar<A, B, V>(p: Panel<A, B, V>): Option<B> {
    if p.Drawn? then p.colorbar else None
  }

  predicate IsLinePlotName(t: string) {
    t == "1D_line" || t == "1D_point" || t == "1D_bar"
  }

  /** The plot types a 2-D group can be drawn as; others have no drawing
      function. */
  predicate IsHeatmapPlotName(t: string) {
    t == "2D_grid" || t == "2D_equidistant" || t == "2D_point" || t == "2D_unknown"
  }

  /** A group with shape information is always drawn on a grid. */
  function PlotType2D<C, R, A, B, V>(data: Group<C, R>, be: Backend<C, R, A, B, V>): string
    requires |data| == 3
  {
    if data[2].shape.None? then be.plotType2D(data) else "2D_grid"
  }

  /** The keywords a drawn panel receives agree with the caller's on every
      key but the colormap. */
  ghost predicate KeepsAllButColormap<V>(given: map<string, V>, passed: map<string, V>) {
    && (forall k :: k != ColormapKey ==> (k in passed <==> k in given))
    && (forall k :: k in passed && k in given ==> passed[k] == given[k])
  }

  /** One iteration of the plotting loop. Two records make a line plot (an
      unknown 1-D plot type raises `ValueError`), three make a heatmap with a
      colorbar (a 2-D plot type without drawing function raises
      `KeyError`), and any other number is skipped with a warning that reads
      the last record, which raises `IndexError` for an empty group. */
  function PlotPanel<C, R, A, B, V>(data: Group<C, R>, ax: A, colorbar: Option<B>, kwargs: map<string, V>, be: Backend<C, R, A, B, V>)
    : (r: Result<Panel<A, B, V>>)
    ensures r.Err? <==>
      || |data| == 0
      || (|data| == 2 && !IsLinePlotName(be.plotType1D(data)))
      || (|data| == 3 && !IsHeatmapPlotName(PlotType2D(data, be)))
    ensures r.Err? && |data| == 0 ==> r.error == IndexError
    ensures r.Err? && |data| == 2 ==> r.error == ValueError
    ensures r.Err? && |data| == 3 ==> r.error == KeyError
    ensures r.Ok? ==> (r.value.Drawn? <==> |data| == 2 || |data| == 3)
    ensures r.Ok? && r.value.Drawn? ==>
      && r.value.axes == ax
      && KeepsAllButColormap(kwargs, r.value.kwargs)
      && (r.value.colorbar.Some? <==> |data| == 3)
      && Ok(r.value.labels.xLabel) == LabelForDataAxis(data, 0)
      && Ok(r.value.labels.yLabel) == LabelForDataAxis(data, 1)
      && (r.value.labels.colorbarLabel.Some? <==> |data| == 3)
    ensures r.Ok? && r.value.Drawn? && |data| == 2 ==> r.value.plottype == be.plotType1D(data)
    ensures r.Ok? && r.value.Drawn? && |data| == 3 && data[2].shape.None? ==> r.value.plottype == be.plotType2D(data)
    ensures |data| == 3 && data[2].shape.Some? ==> r.Ok? && r.value.Drawn? && r.value.plottype == "2D_grid"
    ensures r.Ok? && r.value.Drawn? ==>
      Ok(r.value.kwargs) == AppropriateKwargs(r.value.plottype, colorbar.Some?, kwargs, be.defaultCmap)
    ensures r.Ok? && r.value.Drawn? && ColormapKey in r.value.kwargs && ColormapKey !in kwargs ==>
      r.value.kwargs[ColormapKey] == be.defaultCmap
    ensures r.Ok? && |data| == 2 ==> ColormapKey !in r.value.kwargs
    ensures r.Ok? && |data| == 3 && colorbar.None? ==> ColormapKey in r.value.kwargs
    ensures r.Ok? && |data| == 3 ==> r.value.colorbar == Some(be.drawColorbar(ax, colorbar, data))
  {
    if |data| == 2 then
      var t := be.plotType1D(data);
      if !IsLinePlotName(t) then Err(ValueError)
      else
        var k := AppropriateKwargs(t, colorbar.Some?, kwargs, be.defaultCmap).value;
        var labels := DataAxesLabels(data, false).value;
        Ok(Drawn(ax, t, k, labels, None))
    else if |data| == 3 then
      var t := PlotType2D(data, be);
      if !IsHeatmapPlotName(t) then Err(KeyError)
      else
        var k := AppropriateKwargs(t, colorbar.Some?, kwargs, be.defaultCmap).value;
        var cb := be.drawColorbar(ax, colorbar, data);
        var labels := DataAxesLabels(data, true).value;
        Ok(Drawn(ax, t, k, labels, Some(cb)))
    else if |data| == 0 then Err(IndexError)
    else Ok(NotDrawn)
  }

  function Min(a: nat, b: nat): nat {
    if a <= b then a else b
  }

  /** The loop over the groups, the axes objects and the colorbar slots
      taken together: it stops at the shortest of the three, and the first
      failing panel's exception escapes. */
  function PlotLoop<C, R, A, B, V>(alldata: seq<Group<C, R>>, axes: seq<A>, colorbars: seq<Option<B>>, kwargs: map<string, V>, be: Backend<C, R, A, B, V>)
    : (r: Result<seq<Panel<A, B, V>>>)
    ensures r.Ok? ==> |r.value| == Min(|alldata|, Min(|axes|, |colorbars|))
    ensures r.Ok? ==> forall i :: 0 <= i < |r.value| ==>
      PlotPanel(alldata[i], axes[i], colorbars[i], kwargs, be) == Ok(r.value[i])
    ensures r.Err? ==>
      exists i :: (&& 0 <= i < Min(|alldata|, Min(|axes|, |colorbars|))
                   && PlotPanel(alldata[i], axes[i], colorbars[i], kwargs, be) == Err(r.error)
                   && forall j :: 0 <= j < i ==> PlotPanel(alldata[j], axes[j], colorbars[j], kwargs, be).Ok?)
    decreases |alldata|
  {
    if alldata == [] || axes == [] || colorbars == [] then Ok([])
    else
      var p :- PlotPanel(alldata[0], axes[0], colorbars[0], kwargs, be);
      var rest := PlotLoop(alldata[1..], axes[1..], colorbars[1..], kwargs, be);
      if rest.Err? then
        assert exists i :: (&& 0 <= i < Min(|alldata|, Min(|axes|, |colorbars|))
                            && PlotPanel(alldata[i], axes[i], colorbars[i], kwargs, be) == Err(rest.error)
                            && forall j :: 0 <= j < i ==> PlotPanel(alldata[j], axes[j], colorbars[j], kwargs, be).Ok?) by {
          var i :| && 0 <= i < Min(|alldata[1..]|, Min(|axes[1..]|, |colorbars[1..]|))
                   && PlotPanel(alldata[1..][i], axes[1..][i], colorbars[1..][i], kwargs, be) == Err(rest.error)
                   && forall j :: 0 <= j < i ==> PlotPanel(alldata[1..][j], axes[1..][j], colorbars[1..][j], kwargs, be).Ok?;
          forall j | 0 <= j < i + 1 ensures PlotPanel(alldata[j], axes[j], colorbars[j], kwargs, be).Ok? {
            if j > 0 {
              assert alldata[j] == alldata[1..][j - 1] && axes[j] == axes[1..][j - 1] && colorbars[j] == colorbars[1..][j - 1];
            }
          }
          assert alldata[i + 1] == alldata[1..][i] && axes[i + 1] == axes[1..][i] && colorbars[i + 1] == colorbars[1..][i];
        }
        Err(rest.error)
      else
        Ok([p] + rest.value)
  }

  /** The two complex-plot options `plot_dataset` accepts. */
  predicate ValidOptions(complexPlotType: string, complexPlotPhase: string) {
    && ParseConversion(complexPlotType).Some?
    && (complexPlotPhase == "radians" || complexPlotPhase == "degrees")
  }

  /** The groups after complex records are split, for valid options. */
  function Prepared<C, R>(groups: seq<Group<C, R>>, complexPlotType: string, complexPlotPhase: string, ops: ComplexOps<C, R>)
    : seq<Group<C, R>>
    requires ValidOptions(complexPlotType, complexPlotPhase)
  {
    SplitAll(groups, Converter(ParseConversion(complexPlotType).value, complexPlotPhase == "degrees", ops))
  }

  /** The caller's keywords that belong to figure and subplot creation, and
      those left for the plotting functions. */
  function SubplotKwargs<V>(kwargs: map<string, V>, subplotKeys: set<string>): (sub: map<string, V>)
    ensures sub.Keys == kwargs.Keys * subplotKeys
    ensures forall k :: k in sub ==> sub[k] == kwargs[k]
  {
    map k | k in kwargs && k in subplotKeys :: kwargs[k]
  }

  function PlotKwargsOf<V>(kwargs: map<string, V>, subplotKeys: set<string>): (rest: map<string, V>)
    ensures rest.Keys == kwargs.Keys - subplotKeys
    ensures forall k :: k in rest ==> rest[k] == kwargs[k]
  {
    map k | k in kwargs && k !in subplotKeys :: kwargs[k]
  }

  /** The axes objects to plot on: `nplots` new ones when none are given;
      the given ones, unless creation keywords were also passed or their
      number is not `nplots` (both raise `RuntimeError`). */
  function AxesList<A, V>(axes: Option<seq<A>>, nplots: nat, subplotKwargs: map<string, V>, createAxes: (nat, map<string, V>) -> A)
    : (r: Result<seq<A>>)
    ensures axes.None? ==>
      && r.Ok? && |r.value| == nplots
      && forall i :: 0 <= i < nplots ==> r.value[i] == createAxes(i, subplotKwargs)
    ensures axes.Some? ==> (r.Ok? <==> |subplotKwargs| == 0 && |axes.value| == nplots)
    ensures axes.Some? && r.Ok? ==> r.value == axes.value
    ensures r.Err? ==> r.error == RuntimeError
  {
    match axes
    case None => Ok(seq(nplots, i requires 0 <= i < nplots => createAxes(i, subplotKwargs)))
    case Some(given) =>
      if |subplotKwargs| != 0 then Err(RuntimeError)
      else if |given| != nplots then Err(RuntimeError)
      else Ok(given)
  }

  /** The returned axes objects, their colorbar slots, and what was drawn. */
  datatype Figure<A, B, V> = Figure(axes: seq<A>, colorbars: seq<Option<B>>, panels: seq<Panel<A, B, V>>)

  /** A returned figure fits the split groups: one axes object, one colorbar
      slot and one panel per group, a colorbar exactly for the groups of
      three records, each slot the colorbar its panel drew, and each panel
      what the loop draws for its group. */
  ghost predicate FigureFits<C, R, A, B, V>(
    f: Figure<A, B, V>, alldata: seq<Group<C, R>>, colorbars: Option<seq<Option<B>>>,
    plotKwargs: map<string, V>, be: Backend<C, R, A, B, V>)
  {
    && |f.axes| == |alldata|
    && |f.colorbars| == |alldata|
    && |f.panels| == |alldata|
    && (colorbars.Some? ==> |colorbars.value| >= |alldata|)
    && (forall i :: 0 <= i < |alldata| ==> (f.colorbars[i].Some? <==> |alldata[i]| == 3))
    && (forall i :: 0 <= i < |alldata| ==> f.colorbars[i] == NewColorbar(f.panels[i]))
    && (forall i :: 0 <= i < |alldata| ==>
          PlotPanel(alldata[i], f.axes[i], if colorbars.Some? then colorbars.value[i] else None, plotKwargs, be)
          == Ok(f.panels[i]))
  }

  /** The colorbar slots of the panels drawn. */
  function NewColorbars<A, B, V>(panels: seq<Panel<A, B, V>>): (cbs: seq<Option<B>>)
    ensures |cbs| == |panels|
    ensures forall i :: 0 <= i < |panels| ==> cbs[i] == NewColorbar(panels[i])
  {
    seq(|panels|, i requires 0 <= i < |panels| => NewColorbar(panels[i]))
  }

  /** What follows the option checks and the complex split: providing the
      axes objects, the plotting loop, and the final check that as many
      colorbar slots as axes objects come back (`RuntimeError` otherwise).
      That check fails only when fewer colorbars than plots were given. */
  function Render<C, R, A, B, V>(
    alldata: seq<Group<C, R>>,
    axes: Option<seq<A>>,
    colorbars: Option<seq<Option<B>>>,
    subplotKwargs: map<string, V>,
    plotKwargs: map<string, V>,
    be: Backend<C, R, A, B, V>)
    : (r: Result<Figure<A, B, V>>)
    ensures axes.Some? && |subplotKwargs| != 0 ==> r == Err(RuntimeError)
    ensures axes.Some? && |subplotKwargs| == 0 && |axes.value| != |alldata| ==> r == Err(RuntimeError)
    ensures r.Ok? ==> FigureFits(r.value, alldata, colorbars, plotKwargs, be)
    ensures r.Ok? && axes.Some? ==> r.value.axes == axes.value
    ensures r.Ok? && axes.None? ==>
      forall i :: 0 <= i < |r.value.axes| ==> r.value.axes[i] == be.createAxes(i, subplotKwargs)
    ensures r.Err? && r.error == RuntimeError && axes.None? ==> colorbars.Some? && |colorbars.value| < |alldata|
  {
    var axesList :- AxesList(axes, |alldata|, subplotKwargs, be.createAxes);
    var slots := if colorbars.Some? then colorbars.value else seq(|axesList|, i => None);
    var panels :- PlotLoop(alldata, axesList, slots, plotKwargs, be);
    var newColorbars := NewColorbars(panels);
    if |axesList| != |newColorbars| then Err(RuntimeError)
    else
      assert forall i :: 0 <= i < |alldata| ==> (newColorbars[i].Some? <==> |alldata[i]| == 3) by {
        forall i | 0 <= i < |alldata| ensures newColorbars[i].Some? <==> |alldata[i]| == 3 {
          assert PlotPanel(alldata[i], axesList[i], slots[i], plotKwargs, be) == Ok(panels[i]);
        }
      }
      Ok(Figure(axesList, newColorbars, panels))
  }

  /** `plot_dataset` with every dependent parameter plotted: an unknown
      complex-plot type, then an unknown phase unit, raise `ValueError`;
      the caller's keywords are split into creation keywords and plotting
      keywords; the rest is `Render` on the split groups. */
  function PlotDatasetAll<C, R, A, B, V>(
    groups: seq<Group<C, R>>,
    axes: Option<seq<A>>,
    colorbars: Option<seq<Option<B>>>,
    complexPlotType: string,
    complexPlotPhase: string,
    kwargs: map<string, V>,
    be: Backend<C, R, A, B, V>)
    : (r: Result<Figure<A, B, V>>)
    ensures ParseConversion(complexPlotType).None? ==> r == Err(ValueError)
    ensures ParseConversion(complexPlotType).Some? && !ValidOptions(complexPlotType, complexPlotPhase) ==> r == Err(ValueError)
    ensures ValidOptions(complexPlotType, complexPlotPhase) ==>
      r == Render(Prepared(groups, complexPlotType, complexPlotPhase, be.ops), axes, colorbars,
                  SubplotKwargs(kwargs, be.subplotKeys), PlotKwargsOf(kwargs, be.subplotKeys), be)
    ensures r.Ok? ==> |r.value.axes| == |groups| + SplitCount(groups)
  {
    if ParseConversion(complexPlotType).None? then Err(ValueError)
    else if complexPlotPhase != "radians" && complexPlotPhase != "degrees" then Err(ValueError)
    else
      var alldata := ComplexToRealPreparser(groups, complexPlotType, complexPlotPhase == "degrees", be.ops).value;
      Render(alldata, axes, colorbars, SubplotKwargs(kwargs, be.subplotKeys), PlotKwargsOf(kwargs, be.subplotKeys), be)
  }

  /** Passing axes together with figure or subplot keywords raises
      `RuntimeError`, as does passing a number of axes other than the number
      of plots after complex records are split. */
  lemma GivenAxesChecked<C, R, A, B, V>(
    groups: seq<Group<C, R>>, axes: seq<A>, colorbars: Option<seq<Option<B>>>,
    complexPlotType: string, complexPlotPhase: string, kwargs: map<string, V>, be: Backend<C, R, A, B, V>)
    requires ValidOptions(complexPlotType, complexPlotPhase)
    requires kwargs.Keys * be.subplotKeys != {} || |axes| != |groups| + SplitCount(groups)
    ensures PlotDatasetAll(groups, Some(axes), colorbars, complexPlotType, complexPlotPhase, kwargs, be) == Err(RuntimeError)
  {
    var sub := SubplotKwargs(kwargs, be.subplotKeys);
    var alldata := Prepared(groups, complexPlotType, complexPlotPhase, be.ops);
    var rendered := Render(alldata, Some(axes), colorbars, sub, PlotKwargsOf(kwargs, be.subplotKeys), be);
    assert PlotDatasetAll(groups, Some(axes), colorbars, complexPlotType, complexPlotPhase, kwargs, be) == rendered;
    if kwargs.Keys * be.subplotKeys != {} {
      var k :| k in kwargs.Keys * be.subplotKeys;
      assert k in sub;
      assert |sub| != 0;
    } else {
      assert |alldata| == |groups| + SplitCount(groups);
    }
  }
}
