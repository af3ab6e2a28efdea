/** The keyword arguments handed to each plotting call. A plot of the whole
    dataset may mix line plots and heatmaps, and the caller's keywords are
    adjusted per plot type: line plots cannot take a colormap, and a heatmap
    without a colorbar to reuse gets the configured default colormap. The
    caller's own map is never changed; each plot gets an adjusted copy. */
module PlotKwargs {
  import opened Outcomes

  /** The plot types the adjustment knows about. */
  datatype PlotType =
    | Line1D | Point1D | Bar1D
    | Point2D | Grid2D | Scatter2D | Equidistant2D | Unknown2D

  function PlotTypeName(t: PlotType): string {
    match t
    case Line1D => "1D_line"
    case Point1D => "1D_point"
    case Bar1D => "1D_bar"
    case Point2D => "2D_point"
    case Grid2D => "2D_grid"
    case Scatter2D => "2D_scatter"
    case Equidistant2D => "2D_equidistant"
    case Unknown2D => "2D_unknown"
  }

  /** The plot type a name stands for; the inverse of `PlotTypeName`. */
  function ParsePlotType(s: string): (t: Option<PlotType>)
    ensures t.Some? ==> PlotTypeName(t.value) == s
    ensures t.None? ==> forall p: PlotType :: PlotTypeName(p) != s
  {
    if s == "1D_line" then Some(Line1D)
    else if s == "1D_point" then Some(Point1D)
    else if s == "1D_bar" then Some(Bar1D)
    else if s == "2D_point" then Some(Point2D)
    else if s == "2D_grid" then Some(Grid2D)
    else if s == "2D_scatter" then Some(Scatter2D)
    else if s == "2D_equidistant" then Some(Equidistant2D)
    else if s == "2D_unknown" then Some(Unknown2D)
    else None
  }

  /** Every plot type is known by its name. */
  lemma PlotTypeNamesParse(t: PlotType)
    ensures ParsePlotType(PlotTypeName(t)) == Some(t)
  {
  }

  /** Line, point and bar plots are handled as lines; the rest as heatmaps. */
  predicate IsLineType(t: PlotType) {
    t.Line1D? || t.Point1D? || t.Bar1D?
  }

  const ColormapKey: string := "cmap"

  /** `_appropriate_kwargs`: an unknown plot type raises `KeyError`. For a
      line type the colormap is dropped and every other keyword is kept.
      For a heatmap every keyword is kept, and the default colormap is added
      exactly when no colorbar is present and none was given. */
  function AppropriateKwargs<V>(plottype: string, colorbarPresent: bool, kwargs: map<string, V>, defaultCmap: V)
    : (r: Result<map<string, V>>)
    ensures r.Err? <==> ParsePlotType(plottype).None?
    ensures r.Err? ==> r.error == KeyError
    ensures r.Ok? ==> forall k :: k in r.value && k in kwargs ==> r.value[k] == kwargs[k]
    ensures r.Ok? ==> forall k :: k != ColormapKey ==> (k in r.value <==> k in kwargs)
    ensures r.Ok? && IsLineType(ParsePlotType(plottype).value) ==> ColormapKey !in r.value
    ensures r.Ok? && !IsLineType(ParsePlotType(plottype).value) ==>
      && (ColormapKey in r.value <==> ColormapKey in kwargs || !colorbarPresent)
      && (ColormapKey in r.value && ColormapKey !in kwargs ==> r.value[ColormapKey] == defaultCmap)
  {
    match ParsePlotType(plottype)
    case None => Err(KeyError)
    case Some(t) =>
      if IsLineType(t) then Ok(kwargs - {ColormapKey})
      else if !colorbarPresent && ColormapKey !in kwargs then Ok(kwargs[ColormapKey := defaultCmap])
      else Ok(kwargs)
  }

  /** Adjusting an already adjusted map changes nothing. */
  lemma AppropriateKwargsIdempotent<V>(plottype: string, colorbarPresent: bool, kwargs: map<string, V>, defaultCmap: V)
    requires AppropriateKwargs(plottype, colorbarPresent, kwargs, defaultCmap).Ok?
    ensures
      var once := AppropriateKwargs(plottype, colorbarPresent, kwargs, defaultCmap).value;
      AppropriateKwargs(plottype, colorbarPresent, once, defaultCmap) == Ok(once)
  {
    var once := AppropriateKwargs(plottype, colorbarPresent, kwargs, defaultCmap).value;
    var t := ParsePlotType(plottype).value;
    if IsLineType(t) {
      assert once - {ColormapKey} == once;
    }
  }

  /** A heatmap always gets a colormap when no colorbar is reused, and a
      caller's own colormap is always the one used. */
  lemma HeatmapColormap<V>(t: PlotType, colorbarPresent: bool, kwargs: map<string, V>, defaultCmap: V)
    requires !IsLineType(t)
    ensures var r := AppropriateKwargs(PlotTypeName(t), colorbarPresent, kwargs, defaultCmap);
      && r.Ok?
      && (!colorbarPresent ==> ColormapKey in r.value)
      && (ColormapKey in kwargs ==> r.value[ColormapKey] == kwargs[ColormapKey])
  {
    PlotTypeNamesParse(t);
  }
}
