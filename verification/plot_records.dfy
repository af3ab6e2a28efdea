/** The records the plotting layer works on. A record is one named, labelled,
    unit-tagged array of samples; a group is the records of one dependent
    parameter (its setpoints first, the dependent parameter last). Sample
    values are abstract: `C` for complex values and `R` for real (or string)
    values. */
module PlotRecords {
  import opened Outcomes

  /** An array of samples; only whether its element kind is complex matters
      here. A 2-D array is represented by its flattened samples and the
      record's `shape`. */
  datatype Data<C, R> = ComplexData(complexValues: seq<C>) | RealData(realValues: seq<R>)

  datatype Record<C, R> = Record(
    name: string,
    labelText: string,
    unit: Option<string>,
    data: Data<C, R>,
    shape: Option<seq<nat>>)

  type Group<C, R> = seq<Record<C, R>>

  predicate IsComplex<C, R>(r: Record<C, R>) {
    r.data.ComplexData?
  }

  function Size<C, R>(d: Data<C, R>): nat {
    match d
    case ComplexData(cs) => |cs|
    case RealData(rs) => |rs|
  }

  /** The numeric library's real part, imaginary part, magnitude and angle
      (in degrees when the flag is set), left uninterpreted. */
  datatype ComplexOps<!C, R> = ComplexOps(
    realPart: C -> R,
    imagPart: C -> R,
    magnitude: C -> R,
    angle: (C, bool) -> R)

  /** The two ways of turning a complex array into two real ones. */
  datatype Conversion = RealAndImag | MagAndPhase

  /** The conversion a caller's string names; any other string is invalid. */
  function ParseConversion(s: string): (c: Option<Conversion>)
    ensures c == Some(RealAndImag) <==> s == "real_and_imag"
    ensures c == Some(MagAndPhase) <==> s == "mag_and_phase"
  {
    if s == "real_and_imag" then Some(RealAndImag)
    else if s == "mag_and_phase" then Some(MagAndPhase)
    else None
  }
}
