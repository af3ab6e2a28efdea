/** The complex-value splitter that runs before any plotting: every complex
    record becomes two real records (real and imaginary part, or magnitude and
    phase). A complex setpoint is replaced in place by its two components; a
    complex dependent parameter (the last record of a group) splits the whole
    group into two groups. */
module ComplexSplit {
  import opened Outcomes
  import opened PlotRecords

  /** How complex records are converted: the conversion, whether phases are
      in degrees, and the numeric functions that do the work. */
  datatype Converter<!C, R> = Converter(conversion: Conversion, degrees: bool, ops: ComplexOps<C, R>)

  /** Suffixes appended to the names of the first and second component. */
  function NameSuffixes(c: Conversion): (string, string) {
    match c
    case RealAndImag => ("_real", "_imag")
    case MagAndPhase => ("_mag", "_phase")
  }

  /** Suffixes appended to the labels of the first and second component. */
  function LabelSuffixes(c: Conversion): (string, string) {
    match c
    case RealAndImag => (" [real]", " [imag]")
    case MagAndPhase => (" [mag]", " [phase]")
  }

  function PhaseUnit(degrees: bool): string {
    if degrees then "deg" else "rad"
  }

  /** Units of the first and second component: a real and an imaginary part
      keep the unit; a magnitude keeps it and a phase is in degrees or
      radians. */
  function Units(c: Conversion, unit: Option<string>, degrees: bool): (Option<string>, Option<string>) {
    match c
    case RealAndImag => (unit, unit)
    case MagAndPhase => (unit, Some(PhaseUnit(degrees)))
  }

  /** Reading a converted name or label back: which text it was made from and
      which component (0 or 1) it is, given the pair of suffixes in use. */
  function ComponentOf(text: string, suffixes: (string, string)): Option<(string, nat)> {
    var (s1, s2) := suffixes;
    if |text| >= |s1| && text[|text| - |s1|..] == s1 then Some((text[..|text| - |s1|], 0))
    else if |text| >= |s2| && text[|text| - |s2|..] == s2 then Some((text[..|text| - |s2|], 1))
    else None
  }

  /** Both suffix tables can be read back: neither suffix of a pair is a
      tail of the other, so every converted text names its origin and its
      component. */
  lemma SuffixesReadBack(c: Conversion, text: string)
    ensures ComponentOf(text + NameSuffixes(c).0, NameSuffixes(c)) == Some((text, 0))
    ensures ComponentOf(text + NameSuffixes(c).1, NameSuffixes(c)) == Some((text, 1))
    ensures ComponentOf(text + LabelSuffixes(c).0, LabelSuffixes(c)) == Some((text, 0))
    ensures ComponentOf(text + LabelSuffixes(c).1, LabelSuffixes(c)) == Some((text, 1))
  {
    ReadBackOne(text, NameSuffixes(c), 0);
    ReadBackOne(text, NameSuffixes(c), 1);
    ReadBackOne(text, LabelSuffixes(c), 0);
    ReadBackOne(text, LabelSuffixes(c), 1);
  }

  lemma ReadBackOne(text: string, suffixes: (string, string), k: nat)
    requires k < 2
    requires suffixes == ("_real", "_imag") || suffixes == ("_mag", "_phase")
          || suffixes == (" [real]", " [imag]") || suffixes == (" [mag]", " [phase]")
    ensures ComponentOf(text + (if k == 0 then suffixes.0 else suffixes.1), suffixes) == Some((text, k))
  {
    var s := if k == 0 then suffixes.0 else suffixes.1;
    var t := text + s;
    assert t[..|text|] == text;
    assert t[|t| - |s|..] == s;
    if k == 1 && |suffixes.0| <= |s| {
      assert t[|t| - |suffixes.0|..] == s[|s| - |suffixes.0|..];
    }
  }

  /** `_convert_complex_to_real`: one complex record becomes two real records
      with the same number of samples and the same shape, whose names and
      labels read back as the original's first and second component. */
  function ConvertComplexToReal<C, R>(p: Record<C, R>, cv: Converter<C, R>): (pair: (Record<C, R>, Record<C, R>))
    requires IsComplex(p)
    ensures !IsComplex(pair.0) && !IsComplex(pair.1)
    ensures Size(pair.0.data) == Size(p.data) && Size(pair.1.data) == Size(p.data)
    ensures pair.0.shape == p.shape && pair.1.shape == p.shape
    ensures ComponentOf(pair.0.name, NameSuffixes(cv.conversion)) == Some((p.name, 0))
    ensures ComponentOf(pair.1.name, NameSuffixes(cv.conversion)) == Some((p.name, 1))
    ensures ComponentOf(pair.0.labelText, LabelSuffixes(cv.conversion)) == Some((p.labelText, 0))
    ensures ComponentOf(pair.1.labelText, LabelSuffixes(cv.conversion)) == Some((p.labelText, 1))
    ensures pair.0.unit == p.unit
    ensures pair.1.unit == if cv.conversion == RealAndImag then p.unit else Some(PhaseUnit(cv.degrees))
    ensures forall i :: 0 <= i < Size(p.data) ==>
      var x := p.data.complexValues[i];
      && pair.0.data.realValues[i] == (if cv.conversion == RealAndImag then cv.ops.realPart(x) else cv.ops.magnitude(x))
      && pair.1.data.realValues[i] == (if cv.conversion == RealAndImag then cv.ops.imagPart(x) else cv.ops.angle(x, cv.degrees))
  {
    var xs := p.data.complexValues;
    var ops := cv.ops;
    var data := match cv.conversion
      case RealAndImag =>
        (seq(|xs|, i requires 0 <= i < |xs| => ops.realPart(xs[i])), seq(|xs|, i requires 0 <= i < |xs| => ops.imagPart(xs[i])))
      case MagAndPhase =>
        (seq(|xs|, i requires 0 <= i < |xs| => ops.magnitude(xs[i])), seq(|xs|, i requires 0 <= i < |xs| => ops.angle(xs[i], cv.degrees)));
    var names := NameSuffixes(cv.conversion);
    var labels := LabelSuffixes(cv.conversion);
    var units := Units(cv.conversion, p.unit, cv.degrees);
    SuffixesReadBack(cv.conversion, p.name);
    SuffixesReadBack(cv.conversion, p.labelText);
    (Record(p.name + names.0, p.labelText + labels.0, units.0, RealData(data.0), p.shape),
     Record(p.name + names.1, p.labelText + labels.1, units.1, RealData(data.1), p.shape))
  }

  /** What one record turns into: its two components if it is complex, else
      itself. */
  function Expand<C, R>(r: Record<C, R>, cv: Converter<C, R>): (rs: seq<Record<C, R>>)
    ensures forall i :: 0 <= i < |rs| ==> !IsComplex(rs[i])
  {
    if IsComplex(r) then
      var (p1, p2) := ConvertComplexToReal(r, cv);
      [p1, p2]
    else [r]
  }

  function ComplexCount<C, R>(rs: seq<Record<C, R>>): (n: nat)
    ensures n <= |rs|
  {
    if rs == [] then 0 else (if IsComplex(rs[0]) then 1 else 0) + ComplexCount(rs[1..])
  }

  /** Every record expanded in place, in order. */
  function ExpandAll<C, R>(rs: seq<Record<C, R>>, cv: Converter<C, R>): (out: seq<Record<C, R>>)
    ensures |out| == |rs| + ComplexCount(rs)
    ensures forall i :: 0 <= i < |out| ==> !IsComplex(out[i])
  {
    if rs == [] then []
    else
      var head := Expand(rs[0], cv);
      var tail := ExpandAll(rs[1..], cv);
      assert forall i :: |head| <= i < |head| + |tail| ==> (head + tail)[i] == tail[i - |head|];
      head + tail
  }

  lemma {:induction false} ExpandAllAppend<C, R>(a: seq<Record<C, R>>, b: seq<Record<C, R>>, cv: Converter<C, R>)
    ensures ExpandAll(a + b, cv) == ExpandAll(a, cv) + ExpandAll(b, cv)
  {
    if a == [] {
      assert a + b == b;
    } else {
      assert (a + b)[1..] == a[1..] + b;
      ExpandAllAppend(a[1..], b, cv);
    }
  }

  /** A complex record is replaced in place by its two components: what comes
      before it and after it is expanded on its own. */
  lemma ExpandInPlace<C, R>(rs: seq<Record<C, R>>, i: nat, cv: Converter<C, R>)
    requires i < |rs|
    ensures ExpandAll(rs, cv) == ExpandAll(rs[..i], cv) + Expand(rs[i], cv) + ExpandAll(rs[i + 1..], cv)
  {
    assert rs == rs[..i] + ([rs[i]] + rs[i + 1..]);
    ExpandAllAppend(rs[..i], [rs[i]] + rs[i + 1..], cv);
    ExpandAllAppend([rs[i]], rs[i + 1..], cv);
    assert ExpandAll([rs[i]], cv) == Expand(rs[i], cv) + ExpandAll([], cv);
  }

  /** A group without complex records is left as it is. */
  lemma {:induction false} ExpandAllReal<C, R>(rs: seq<Record<C, R>>, cv: Converter<C, R>)
    requires forall i :: 0 <= i < |rs| ==> !IsComplex(rs[i])
    ensures ExpandAll(rs, cv) == rs
  {
    if rs != [] {
      ExpandAllReal(rs[1..], cv);
      assert [rs[0]] + rs[1..] == rs;
    }
  }

  /** Reference definition of what one group becomes: one group with its
      setpoints expanded, or two such groups when the last record is
      complex, one ending in each component. */
  function SplitGroup<C, R>(g: Group<C, R>, cv: Converter<C, R>): (gs: seq<Group<C, R>>)
    ensures |gs| == if g != [] && IsComplex(g[|g| - 1]) then 2 else 1
  {
    if g != [] && IsComplex(g[|g| - 1]) then
      var prefix := ExpandAll(g[..|g| - 1], cv);
      var (p1, p2) := ConvertComplexToReal(g[|g| - 1], cv);
      [prefix + [p1], prefix + [p2]]
    else [ExpandAll(g, cv)]
  }

  /** The loop over one group in `_complex_to_real_preparser`, from position
      `index`, with the group built so far and the pair of split groups
      (both empty until the last record turns out to be complex). */
  function GroupLoop<C, R>(g: Group<C, R>, cv: Converter<C, R>, index: nat, newGroup: Group<C, R>, newGroups: (Group<C, R>, Group<C, R>)): seq<Group<C, R>>
    requires index <= |g|
    decreases |g| - index
  {
    if index == |g| then
      if |newGroups.0| == 0 && |newGroups.1| == 0 then [newGroup] else [newGroups.0, newGroups.1]
    else
      var parameter := g[index];
      if IsComplex(parameter) then
        var (p1, p2) := ConvertComplexToReal(parameter, cv);
        if index < |g| - 1 then GroupLoop(g, cv, index + 1, newGroup + [p1, p2], newGroups)
        else GroupLoop(g, cv, index + 1, newGroup, (newGroup + [p1], newGroup + [p2]))
      else GroupLoop(g, cv, index + 1, newGroup + [parameter], newGroups)
  }

  /** The loop computes the reference split: before the last record the
      group built so far is the expansion of the records seen. */
  lemma {:induction false} GroupLoopSplits<C, R>(g: Group<C, R>, cv: Converter<C, R>, index: nat)
    requires index < |g|
    ensures GroupLoop(g, cv, index, ExpandAll(g[..index], cv), ([], [])) == SplitGroup(g, cv)
    decreases |g| - index
  {
    var parameter := g[index];
    var before := ExpandAll(g[..index], cv);
    assert g[..index + 1] == g[..index] + [parameter];
    ExpandAllAppend(g[..index], [parameter], cv);
    assert ExpandAll([parameter], cv) == Expand(parameter, cv) + ExpandAll([], cv);
    assert ExpandAll(g[..index + 1], cv) == before + Expand(parameter, cv);
    if index < |g| - 1 {
      GroupLoopSplits(g, cv, index + 1);
      if IsComplex(parameter) {
        var (p1, p2) := ConvertComplexToReal(parameter, cv);
        assert Expand(parameter, cv) == [p1, p2];
        assert GroupLoop(g, cv, index, before, ([], [])) == GroupLoop(g, cv, index + 1, before + [p1, p2], ([], []));
      } else {
        assert GroupLoop(g, cv, index, before, ([], [])) == GroupLoop(g, cv, index + 1, before + [parameter], ([], []));
      }
    } else {
      assert g[..index] == g[..|g| - 1];
      assert g[..index + 1] == g;
    }
  }

  lemma GroupLoopIsSplitGroup<C, R>(g: Group<C, R>, cv: Converter<C, R>)
    ensures GroupLoop(g, cv, 0, [], ([], [])) == SplitGroup(g, cv)
  {
    if g != [] {
      assert g[..0] == [];
      GroupLoopSplits(g, cv, 0);
    }
  }

  /** Number of groups whose last record is complex. */
  function SplitCount<C, R>(groups: seq<Group<C, R>>): nat {
    if groups == [] then 0
    else
      var g := groups[0];
      (if g != [] && IsComplex(g[|g| - 1]) then 1 else 0) + SplitCount(groups[1..])
  }

  /** Reference definition of the whole pass: every group split in order. */
  function SplitAll<C, R>(groups: seq<Group<C, R>>, cv: Converter<C, R>): (out: seq<Group<C, R>>)
    ensures |out| == |groups| + SplitCount(groups)
    ensures forall i, j :: 0 <= i < |out| && 0 <= j < |out[i]| ==> !IsComplex(out[i][j])
  {
    if groups == [] then []
    else
      var head := SplitGroup(groups[0], cv);
      var tail := SplitAll(groups[1..], cv);
      assert forall i :: |head| <= i < |head| + |tail| ==> (head + tail)[i] == tail[i - |head|];
      head + tail
  }

  /** The outer loop of `_complex_to_real_preparser`. */
  function PreparseGroups<C, R>(groups: seq<Group<C, R>>, cv: Converter<C, R>): (out: seq<Group<C, R>>)
    ensures out == SplitAll(groups, cv)
  {
    if groups == [] then []
    else
      GroupLoopIsSplitGroup(groups[0], cv);
      GroupLoop(groups[0], cv, 0, [], ([], [])) + PreparseGroups(groups[1..], cv)
  }

  /** `_complex_to_real_preparser`: an unknown conversion raises
      `ValueError`; otherwise no complex record is left, group order is kept,
      and there is one more group for every group whose last record is
      complex. */
  function ComplexToRealPreparser<C, R>(groups: seq<Group<C, R>>, conversion: string, degrees: bool, ops: ComplexOps<C, R>)
    : (r: Result<seq<Group<C, R>>>)
    ensures r.Err? <==> conversion != "real_and_imag" && conversion != "mag_and_phase"
    ensures r.Err? ==> r.error == ValueError
    ensures r.Ok? ==> r.value == SplitAll(groups, Converter(ParseConversion(conversion).value, degrees, ops))
    ensures r.Ok? ==> |r.value| == |groups| + SplitCount(groups)
    ensures r.Ok? ==> forall i, j :: 0 <= i < |r.value| && 0 <= j < |r.value[i]| ==> !IsComplex(r.value[i][j])
  {
    match ParseConversion(conversion)
    case None => Err(ValueError)
    case Some(c) => Ok(PreparseGroups(groups, Converter(c, degrees, ops)))
  }

  /** Data without complex records passes through unchanged. */
  lemma {:induction false} RealDataUnchanged<C, R>(groups: seq<Group<C, R>>, cv: Converter<C, R>)
    requires forall i, j :: 0 <= i < |groups| && 0 <= j < |groups[i]| ==> !IsComplex(groups[i][j])
    ensures SplitAll(groups, cv) == groups
  {
    if groups != [] {
      ExpandAllReal(groups[0], cv);
      RealDataUnchanged(groups[1..], cv);
      assert [groups[0]] + groups[1..] == groups;
    }
  }

  /** Each resulting group of a split grows by one record for every complex
      setpoint. */
  lemma GroupGrowth<C, R>(g: Group<C, R>, cv: Converter<C, R>, k: nat)
    requires g != [] && k < |SplitGroup(g, cv)|
    ensures |SplitGroup(g, cv)[k]| == |g| + ComplexCount(g[..|g| - 1])
  {
    if !IsComplex(g[|g| - 1]) {
      ExpandInPlace(g, |g| - 1, cv);
      assert g[|g|..] == [];
    }
  }
}
