/** `runPondingAnalysis`: one rain-rate lookup, a threshold severity, a
    clamped 0..1 ponding index and the overlay style of that severity. */
module PondingEngine {
  import opened Wrappers
  import opened AlertTypes

  /** Severity rule: red from 50 mm/h, orange from 30 mm/h, yellow below. */
  function SeverityForRain(rain: real): (s: Severity)
    ensures s == Red <==> rain >= 50.0
    ensures s == Orange <==> 30.0 <= rain < 50.0
    ensures s == Yellow <==> rain < 30.0
  {
    if rain >= 50.0 then Red
    else if rain >= 30.0 then Orange
    else Yellow
  }

  /** `Math.max(0, Math.min(1, (rain - 10) / 60))`. */
  function PondingIndex(rain: real): (p: real)
    ensures 0.0 <= p <= 1.0
    ensures rain <= 10.0 ==> p == 0.0
    ensures 10.0 <= rain <= 70.0 ==> p == (rain - 10.0) / 60.0
    ensures rain >= 70.0 ==> p == 1.0
  {
    var x := (rain - 10.0) / 60.0;
    var upper := if x < 1.0 then x else 1.0;
    if upper > 0.0 then upper else 0.0
  }

  /** More rain never lowers the severity or the index. */
  lemma RainMonotone(r1: real, r2: real)
    requires r1 <= r2
    ensures SeverityRank(SeverityForRain(r1)) <= SeverityRank(SeverityForRain(r2))
    ensures PondingIndex(r1) <= PondingIndex(r2)
  {
  }

  /** The inclusive boundaries at 30 and 50 mm/h and sample index values. */
  lemma Boundaries()
    ensures SeverityForRain(29.9) == Yellow && SeverityForRain(30.0) == Orange
    ensures SeverityForRain(49.9) == Orange && SeverityForRain(50.0) == Red
    ensures PondingIndex(0.0) == 0.0 && PondingIndex(40.0) == 0.5 && PondingIndex(1000.0) == 1.0
  {
  }

  datatype Palette = Palette(stroke: string, fill: string)

  /** The three-entry palette. */
  function PaletteFor(s: Severity): (p: Palette)
    ensures s == Red ==> p.stroke == "rgba(239,68,68,0.9)" && p.fill == "rgba(239,68,68,0.28)"
    ensures s == Orange ==> p.stroke == "rgba(245,158,11,0.9)" && p.fill == "rgba(245,158,11,0.28)"
    ensures s == Yellow ==> p.stroke == "rgba(234,179,8,0.9)" && p.fill == "rgba(234,179,8,0.28)"
  {
    match s
    case Red => Palette("rgba(239,68,68,0.9)", "rgba(239,68,68,0.28)")
    case Orange => Palette("rgba(245,158,11,0.9)", "rgba(245,158,11,0.28)")
    case Yellow => Palette("rgba(234,179,8,0.9)", "rgba(234,179,8,0.28)")
  }

  lemma PaletteDistinct(s1: Severity, s2: Severity)
    requires s1 != s2
    ensures PaletteFor(s1).stroke != PaletteFor(s2).stroke
    ensures PaletteFor(s1).fill != PaletteFor(s2).fill
  {
  }

  datatype Center = Center(lat: real, lon: real)
  datatype Summary = Summary(center: Center, rainMmH: real, pondingIndex: real, severity: Severity)
  datatype OverlayStyle = OverlayStyle(radiusM: real, fill: string, stroke: string)
  datatype Analysis = Analysis(summary: Summary, overlay: OverlayStyle)

  const DefaultRadiusM: real := 500.0

  /** `runPondingAnalysis({ lat, lon, getRainMmH, radiusM })`. The lookup is
      applied once to (lat, lon); a rejected lookup rejects the analysis with
      the same error. */
  function RunPondingAnalysis<E>(lat: real, lon: real, getRainMmH: (real, real) -> Result<real, E>,
                                 radiusM: Option<real>): (r: Result<Analysis, E>)
    ensures getRainMmH(lat, lon).Failure? ==> r == Failure(getRainMmH(lat, lon).error)
    ensures getRainMmH(lat, lon).Success? ==>
              var rain := getRainMmH(lat, lon).value;
              && r.Success?
              && r.value.summary.center == Center(lat, lon)
              && r.value.summary.rainMmH == rain
              && r.value.summary.severity == SeverityForRain(rain)
              && 0.0 <= r.value.summary.pondingIndex <= 1.0
              && r.value.summary.pondingIndex == PondingIndex(rain)
              && r.value.overlay.radiusM == radiusM.GetOr(DefaultRadiusM)
              && r.value.overlay.stroke == PaletteFor(r.value.summary.severity).stroke
              && r.value.overlay.fill == PaletteFor(r.value.summary.severity).fill
  {
    match getRainMmH(lat, lon)
    case Failure(e) => Failure(e)
    case Success(rain) =>
      var severity := SeverityForRain(rain);
      var palette := PaletteFor(severity);
      Success(Analysis(
        Summary(Center(lat, lon), rain, PondingIndex(rain), severity),
        OverlayStyle(radiusM.GetOr(DefaultRadiusM), palette.fill, palette.stroke)))
  }
}
