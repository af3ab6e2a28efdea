/** The text written on the axes of a plot: each axis is labelled with a
    record's label (or its name, when the label is empty), followed by its
    unit in parentheses when it has one. */
module AxisLabels {
  import opened Outcomes
  import opened PlotRecords
  import opened ComplexSplit

  /** `_get_label_of_data`: the text a record is known by on an axis. */
  function LabelOfData<C, R>(r: Record<C, R>): (text: string)
    ensures r.labelText != "" ==> text == r.labelText
    ensures r.labelText == "" ==> text == r.name
    ensures text == "" <==> r.labelText == "" && r.name == ""
  {
    if r.labelText != "" then r.labelText else r.name
  }

  /** A unit is shown when it is present and not empty. */
  predicate ShowsUnit(unit: Option<string>) {
    unit.Some? && unit.value != ""
  }

  /** Reading an axis label back, given the caption it starts with: the unit
      in the trailing parentheses, or `None` when nothing follows the
      caption. */
  function UnitOf(text: string, caption: string): (unit: Option<string>)
    ensures unit.Some? ==> |text| == |caption| + |unit.value| + 3
  {
    if |text| >= |caption| + 3 && text[|caption|..|caption| + 2] == " (" && text[|text| - 1] == ')' then
      Some(text[|caption| + 2..|text| - 1])
    else None
  }

  /** `_make_axis_label`: the caption, followed by ` (unit)` exactly when there
      is a unit to show; the unit can be read back from the result. */
  function MakeAxisLabel(caption: string, unit: Option<string>): (text: string)
    ensures |text| >= |caption| && text[..|caption|] == caption
    ensures |text| == |caption| <==> !ShowsUnit(unit)
    ensures ShowsUnit(unit) ==> UnitOf(text, caption) == unit
  {
    if ShowsUnit(unit) then
      var text := caption + " (" + unit.value + ")";
      assert text[|caption|..|caption| + 2] == " (";
      assert text[|caption| + 2..|text| - 1] == unit.value;
      text
    else caption
  }

  /** `_make_label_for_data_axis`: the axis label of record `axis`; an index
      past the end of the group raises `IndexError`. */
  function LabelForDataAxis<C, R>(data: Group<C, R>, axis: nat): (r: Result<string>)
    ensures r.Err? <==> axis >= |data|
    ensures r.Err? ==> r.error == IndexError
    ensures r.Ok? ==>
      var shown := LabelOfData(data[axis]);
      && |r.value| >= |shown| && r.value[..|shown|] == shown
      && (ShowsUnit(data[axis].unit) ==> UnitOf(r.value, shown) == data[axis].unit)
      && (!ShowsUnit(data[axis].unit) ==> r.value == shown)
  {
    if axis >= |data| then Err(IndexError)
    else Ok(MakeAxisLabel(LabelOfData(data[axis]), data[axis].unit))
  }

  /** The labels `_set_data_axes_labels` writes: the x axis from the first
      record, the y axis from the second and, when a colorbar is given and
      the group has a third record, the colorbar from the third. */
  datatype AxesLabels = AxesLabels(xLabel: string, yLabel: string, colorbarLabel: Option<string>)

  function DataAxesLabels<C, R>(data: Group<C, R>, hasColorbar: bool): (r: Result<AxesLabels>)
    ensures r.Err? <==> |data| < 2
    ensures r.Err? ==> r.error == IndexError
    ensures r.Ok? ==> Ok(r.value.xLabel) == LabelForDataAxis(data, 0) && Ok(r.value.yLabel) == LabelForDataAxis(data, 1)
    ensures r.Ok? ==> (r.value.colorbarLabel.Some? <==> hasColorbar && |data| > 2)
    ensures r.Ok? && r.value.colorbarLabel.Some? ==> Ok(r.value.colorbarLabel.value) == LabelForDataAxis(data, 2)
  {
    var x :- LabelForDataAxis(data, 0);
    var y :- LabelForDataAxis(data, 1);
    if hasColorbar && |data| > 2 then
      var c := LabelForDataAxis(data, 2).value;
      Ok(AxesLabels(x, y, Some(c)))
    else Ok(AxesLabels(x, y, None))
  }

  /** The axis of a phase component plotted in degrees reads
      `<caption> [phase] (deg)`. */
  lemma PhaseAxisLabel<C, R>(p: Record<C, R>, ops: ComplexOps<C, R>)
    requires IsComplex(p)
    ensures LabelForDataAxis([ConvertComplexToReal(p, Converter(MagAndPhase, true, ops)).1], 0)
      == Ok(p.labelText + " [phase] (deg)")
  {
    var q := ConvertComplexToReal(p, Converter(MagAndPhase, true, ops)).1;
    assert q.labelText == p.labelText + " [phase]";
    assert q.unit == Some("deg");
    assert LabelOfData(q) == q.labelText;
    assert MakeAxisLabel(q.labelText, q.unit) == p.labelText + " [phase]" + " (" + "deg" + ")";
    assert " [phase]" + " (" + "deg" + ")" == " [phase] (deg)";
    assert [q][0] == q;
    assert LabelForDataAxis([q], 0) == Ok(MakeAxisLabel(q.labelText, q.unit));
    assert p.labelText + " [phase]" + " (" + "deg" + ")" == p.labelText + (" [phase]" + " (" + "deg" + ")");
  }

  /** A component of a complex record always has a non-empty label, so its
      axis never falls back to the name: a complex record without a label
      gives axes that show only the bracketed component. */
  lemma ComponentLabelHidesName<C, R>(p: Record<C, R>, cv: Converter<C, R>)
    requires IsComplex(p) && p.labelText == ""
    ensures LabelOfData(ConvertComplexToReal(p, cv).0) == LabelSuffixes(cv.conversion).0
    ensures LabelOfData(ConvertComplexToReal(p, cv).1) == LabelSuffixes(cv.conversion).1
  {
  }
}
