/**
 * The farm evaluators (packages/decision-engine/src/rules.farm.ts): spraying
 * (three checks folded into one overall verdict), field access, hay, and the
 * spray instance of the window finder.
 */
module FarmRules {
  import opened Numbers
  import opened Decisions
  import opened Derive
  import opened Windows

  datatype FarmConditions = FarmConditions(
    windSpeedKmh: real,
    windGustKmh: real,
    tempC: real,
    dewpointC: real,
    precipitationMm: real,       // current hour
    rainfall24hMm: real,         // last 24 hours
    forecastRainNext6hMm: real,  // next 6 hours
    cloudCoverPct: real,         // carried, read by no rule
    humidity: real)

  /**
   * Spray limits. Only the two wind limits are read: the delta-T band of the
   * drift rule is fixed at 2..10 degC inside `SprayDriftRisk`, and no rule
   * reads the rain-free period.
   */
  datatype SprayLimits = SprayLimits(
    maxWindKmh: real,
    minWindKmh: real,
    maxDeltaT: real,
    minDeltaT: real,
    rainFreeHours: real)

  const DEFAULT_SPRAY_LIMITS := SprayLimits(15.0, 3.0, 10.0, 2.0, 4.0)

  // ---------------------------------------------------------------------
  // Spraying

  datatype SprayDetails = SprayDetails(deltaT: real, driftRisk: Risk)

  datatype SprayAssessment = SprayAssessment(
    overall: Decision,
    wind: Decision,
    drift: Decision,
    rain: Decision,
    details: SprayDetails)
  {
    /** The three sub-decisions in evaluation order. */
    function SubDecisions(): seq<Decision>
    {
      [wind, drift, rain]
    }
  }

  const SPRAY_ALL_CLEAR := Lit("Spray conditions are good — get it done")

  /**
   * Wind: NO_GO above the maximum, with gusts above 1.3 times the maximum,
   * or below the minimum (an inversion); CAUTION above 0.8 times the
   * maximum; GO otherwise.
   */
  function SprayWindDecision(c: FarmConditions, limits: SprayLimits): (d: Decision)
    ensures d.verdict == NoGo <==>
      c.windSpeedKmh > limits.maxWindKmh || c.windGustKmh > limits.maxWindKmh * 1.3 || c.windSpeedKmh < limits.minWindKmh
    ensures d.verdict == Caution <==>
      && !(c.windSpeedKmh > limits.maxWindKmh || c.windGustKmh > limits.maxWindKmh * 1.3)
      && limits.minWindKmh <= c.windSpeedKmh
      && c.windSpeedKmh > limits.maxWindKmh * 0.8
  {
    if c.windSpeedKmh > limits.maxWindKmh || c.windGustKmh > limits.maxWindKmh * 1.3 then
      Decision(NoGo, Reason("Wind {} km/h (gusts {}) — too windy to spray",
                            [Number(Fin(c.windSpeedKmh)), Number(Fin(c.windGustKmh))]))
    else if c.windSpeedKmh < limits.minWindKmh then
      Decision(NoGo, Reason("Wind {} km/h — inversion conditions, spray will hang", [Number(Fin(c.windSpeedKmh))]))
    else if c.windSpeedKmh > limits.maxWindKmh * 0.8 then
      Decision(Caution, Reason("Wind {} km/h — approaching limit", [Number(Fin(c.windSpeedKmh))]))
    else
      Decision(Go, Reason("Wind {} km/h within spray window", [Number(Fin(c.windSpeedKmh))]))
  }

  /** Drift: the drift-risk category as a verdict, with the drift rule's own reason. */
  function DriftDecision(drift: RiskAssessment): (d: Decision)
    ensures d.verdict == RiskVerdict(drift.risk) && d.reason == drift.reason
  {
    match drift.risk
    case High => Decision(NoGo, drift.reason)
    case Moderate => Decision(Caution, drift.reason)
    case Low => Decision(Go, drift.reason)
  }

  /**
   * Rain wash-off: NO_GO while it rains more than 0.5 mm or when more than
   * 5 mm is forecast for the next 6 hours; CAUTION when more than 1 mm is;
   * GO otherwise.
   */
  function RainDecision(c: FarmConditions): (d: Decision)
    ensures d.verdict == NoGo <==> c.precipitationMm > 0.5 || c.forecastRainNext6hMm > 5.0
    ensures d.verdict == Caution <==> c.precipitationMm <= 0.5 && 1.0 < c.forecastRainNext6hMm <= 5.0
  {
    if c.precipitationMm > 0.5 then
      Decision(NoGo, Lit("Active rain — spray will wash off"))
    else if c.forecastRainNext6hMm > 5.0 then
      Decision(NoGo, Reason("{}mm forecast in 6h — spray won't hold", [Number(Fin(c.forecastRainNext6hMm))]))
    else if c.forecastRainNext6hMm > 1.0 then
      Decision(Caution, Reason("{}mm possible in 6h — check timing", [Number(Fin(c.forecastRainNext6hMm))]))
    else
      Decision(Go, Lit("No rain expected in spray window"))
  }

  /** `assessSpray`: the three checks and the worst of them. */
  function AssessSpray(c: FarmConditions, limits: SprayLimits): (r: SprayAssessment)
    ensures OverallIsWorst(r.overall, r.SubDecisions(), SPRAY_ALL_CLEAR)
    ensures r.wind == SprayWindDecision(c, limits) && r.rain == RainDecision(c)
    ensures r.details == SprayDetails(c.tempC - c.dewpointC, SprayDriftRisk(c.windSpeedKmh, c.tempC, c.dewpointC).risk)
    ensures r.drift.verdict == RiskVerdict(r.details.driftRisk)
    ensures r.drift.reason == SprayDriftRisk(c.windSpeedKmh, c.tempC, c.dewpointC).reason
  {
    var drift := SprayDriftRisk(c.windSpeedKmh, c.tempC, c.dewpointC);
    var wind := SprayWindDecision(c, limits);
    var driftDecision := DriftDecision(drift);
    var rain := RainDecision(c);
    var overall := WorstOf([wind, driftDecision, rain], SPRAY_ALL_CLEAR);
    SprayAssessment(overall, wind, driftDecision, rain, SprayDetails(c.tempC - c.dewpointC, drift.risk))
  }

  /**
   * Spraying is GO exactly when all three checks are: the wind within
   * 0.8 times the maximum and not below the minimum, the drift risk LOW and
   * no rain now or forecast beyond 1 mm.
   */
  lemma SprayGoExactly(c: FarmConditions, limits: SprayLimits)
    ensures AssessSpray(c, limits).overall.verdict == Go <==>
      && limits.minWindKmh <= c.windSpeedKmh <= limits.maxWindKmh * 0.8
      && c.windSpeedKmh <= limits.maxWindKmh && c.windGustKmh <= limits.maxWindKmh * 1.3
      && SprayDriftRisk(c.windSpeedKmh, c.tempC, c.dewpointC).risk == Low
      && c.precipitationMm <= 0.5 && c.forecastRainNext6hMm <= 1.0
  {
    SprayGoIffPartsGo(AssessSpray(c, limits));
    SprayWindGo(c, limits);
    SprayRainGo(c);
  }

  /** An overall spray decision is GO exactly when its three checks are. */
  lemma SprayGoIffPartsGo(r: SprayAssessment)
    requires OverallIsWorst(r.overall, r.SubDecisions(), SPRAY_ALL_CLEAR)
    requires r.drift.verdict == RiskVerdict(r.details.driftRisk)
    ensures r.overall.verdict == Go <==>
      r.wind.verdict == Go && r.details.driftRisk == Low && r.rain.verdict == Go
  {
    var ds := r.SubDecisions();
    WorstIsGoIffAllGo(r.overall, ds, SPRAY_ALL_CLEAR);
    assert (forall j :: 0 <= j < |ds| ==> ds[j].verdict == Go) <==>
      ds[0].verdict == Go && ds[1].verdict == Go && ds[2].verdict == Go;
    assert ds[1].verdict == Go <==> r.details.driftRisk == Low;
  }

  /** The wind check is GO exactly inside the band from the minimum to 0.8 times the maximum, gusts within limit. */
  lemma SprayWindGo(c: FarmConditions, limits: SprayLimits)
    ensures SprayWindDecision(c, limits).verdict == Go <==>
      && limits.minWindKmh <= c.windSpeedKmh <= limits.maxWindKmh * 0.8
      && c.windSpeedKmh <= limits.maxWindKmh && c.windGustKmh <= limits.maxWindKmh * 1.3
  {
  }

  /** The rain check is GO exactly with at most 0.5 mm falling and at most 1 mm forecast. */
  lemma SprayRainGo(c: FarmConditions)
    ensures RainDecision(c).verdict == Go <==> c.precipitationMm <= 0.5 && c.forecastRainNext6hMm <= 1.0
  {
  }

  /** A HIGH drift risk makes spraying NO_GO, with whatever other checks say. */
  lemma HighDriftIsNoGo(c: FarmConditions, limits: SprayLimits)
    requires SprayDriftRisk(c.windSpeedKmh, c.tempC, c.dewpointC).risk == High
    ensures AssessSpray(c, limits).overall.verdict == NoGo
  {
    var r := AssessSpray(c, limits);
    NoGoDominates(r.overall, r.SubDecisions(), SPRAY_ALL_CLEAR, 1);
  }

  /** The drift check depends on the delta-T limits not at all, nor on the rain-free period. */
  lemma SprayIgnoresDeltaTLimits(c: FarmConditions, limits: SprayLimits, maxDeltaT: real, minDeltaT: real,
                                 rainFreeHours: real)
    ensures AssessSpray(c, limits) ==
      AssessSpray(c, limits.(maxDeltaT := maxDeltaT, minDeltaT := minDeltaT, rainFreeHours := rainFreeHours))
  {
    var other := limits.(maxDeltaT := maxDeltaT, minDeltaT := minDeltaT, rainFreeHours := rainFreeHours);
    assert SprayWindDecision(c, limits) == SprayWindDecision(c, other);
  }

  /**
   * An 8 km/h breeze gusting to 10 km/h at 18/14 degC (delta-T 4 degC) with
   * no rain now or forecast is a GO for spraying with the default limits.
   */
  lemma GoodSprayDay(c: FarmConditions)
    requires c.windSpeedKmh == 8.0 && c.windGustKmh == 10.0 && c.tempC == 18.0 && c.dewpointC == 14.0
    requires c.precipitationMm == 0.0 && c.forecastRainNext6hMm == 0.0
    ensures AssessSpray(c, DEFAULT_SPRAY_LIMITS).overall == Decision(Go, SPRAY_ALL_CLEAR)
    ensures AssessSpray(c, DEFAULT_SPRAY_LIMITS).details == SprayDetails(4.0, Low)
  {
    SprayGoExactly(c, DEFAULT_SPRAY_LIMITS);
  }

  // ---------------------------------------------------------------------
  // Field access

  datatype FieldAccessDetails = FieldAccessDetails(rainfall24hMm: real, bogRisk: Risk)

  datatype FieldAccessAssessment = FieldAccessAssessment(overall: Decision, details: FieldAccessDetails)

  /**
   * `assessFieldAccess`: the bog risk as a verdict (HIGH above 20 mm in
   * 24 hours, MODERATE above 10 mm), with the bog rule's reason; a LOW risk
   * gives its own all-clear reason.
   */
  function AssessFieldAccess(c: FarmConditions): (r: FieldAccessAssessment)
    ensures r.overall.verdict == RiskVerdict(FieldBogRisk(c.rainfall24hMm).risk)
    ensures r.overall.verdict == NoGo <==> c.rainfall24hMm > 20.0
    ensures r.overall.verdict == Caution <==> 10.0 < c.rainfall24hMm <= 20.0
    ensures r.overall.verdict != Go ==> r.overall.reason == FieldBogRisk(c.rainfall24hMm).reason
    ensures r.overall.verdict == Go ==> r.overall.reason == Lit("Ground firm — drive on")
    ensures r.details == FieldAccessDetails(c.rainfall24hMm, FieldBogRisk(c.rainfall24hMm).risk)
  {
    var bog := FieldBogRisk(c.rainfall24hMm);
    var overall :=
      match bog.risk
      case High => Decision(NoGo, bog.reason)
      case Moderate => Decision(Caution, bog.reason)
      case Low => Decision(Go, Lit("Ground firm — drive on"));
    FieldAccessAssessment(overall, FieldAccessDetails(c.rainfall24hMm, bog.risk))
  }

  /** After 25 mm in 24 hours the paddocks are NO_GO, and the reason says how much fell. */
  lemma BoggyPaddocks(c: FarmConditions)
    requires c.rainfall24hMm == 25.0
    ensures AssessFieldAccess(c).overall ==
      Decision(NoGo, Reason("{}mm in 24h — paddocks will be boggy", [Number(Fin(25.0))]))
  {
  }

  /** More rain in the last 24 hours never makes field access less severe. */
  lemma FieldAccessMonotone(c1: FarmConditions, c2: FarmConditions)
    requires c1.rainfall24hMm <= c2.rainfall24hMm
    ensures Rank(AssessFieldAccess(c1).overall.verdict) <= Rank(AssessFieldAccess(c2).overall.verdict)
  {
    FieldBogRiskMonotone(c1.rainfall24hMm, c2.rainfall24hMm);
  }

  // ---------------------------------------------------------------------
  // Hay

  /** A hay decision and its short reason. */
  datatype HayAssessment = HayAssessment(overall: Decision, reason: string)

  /**
   * `assessHay`: NO_GO when it rains or more than 2 mm is forecast; then
   * CAUTION above 70 % humidity or when more than 0.5 mm is forecast; GO
   * otherwise.
   */
  function AssessHay(c: FarmConditions): (r: HayAssessment)
    ensures r.overall.verdict == NoGo <==> c.precipitationMm > 0.0 || c.forecastRainNext6hMm > 2.0
    ensures r.overall.verdict == Caution <==>
      c.precipitationMm <= 0.0 && c.forecastRainNext6hMm <= 2.0 && (c.humidity > 70.0 || c.forecastRainNext6hMm > 0.5)
    ensures r.overall.verdict == Caution && c.humidity > 70.0 ==> r.reason == "High humidity"
    ensures r.overall.verdict == Caution && c.humidity <= 70.0 ==> r.reason == "Light rain possible"
  {
    if c.precipitationMm > 0.0 || c.forecastRainNext6hMm > 2.0 then
      HayAssessment(Decision(NoGo, Lit("Rain active or imminent — hay will spoil")), "Rain active or imminent")
    else if c.humidity > 70.0 then
      HayAssessment(Decision(Caution, Reason("Humidity {}% — hay may not dry properly", [Number(Fin(c.humidity))])),
                    "High humidity")
    else if c.forecastRainNext6hMm > 0.5 then
      HayAssessment(Decision(Caution, Lit("Light rain possible — monitor closely")), "Light rain possible")
    else
      HayAssessment(Decision(Go, Lit("Dry and clear — good hay conditions")), "Conditions clear")
  }

  // ---------------------------------------------------------------------
  // Spray windows

  function SprayAssessor(limits: SprayLimits): FarmConditions -> SprayAssessment
  {
    c => AssessSpray(c, limits)
  }

  function SprayVerdict(a: SprayAssessment): Verdict
  {
    a.overall.verdict
  }

  /** A spray window's summary names its first and last slot times. */
  function SpraySummary(start: string, end: string, assessments: seq<SprayAssessment>): Reason
  {
    Reason("Spray window {}–{}", [Text(start), Text(end)])
  }

  /**
   * `findSprayWindows`: one window per maximal run of non-NO_GO slots, in
   * order, each summarised by its start and end times.
   */
  method FindSprayWindows(slots: seq<Slot<FarmConditions>>, limits: SprayLimits)
    returns (windows: seq<Window<Reason>>)
    ensures var runs := Runs(Verdicts(slots, SprayAssessor(limits), SprayVerdict), 0);
      && WindowsOfRuns(windows, slots, runs, SprayAssessor(limits), SprayVerdict, SpraySummary)
      && forall k :: 0 <= k < |runs| ==>
           && windows[k].start == slots[runs[k].lo].time
           && windows[k].end == slots[runs[k].hi].time
           && windows[k].summary == Reason("Spray window {}–{}", [Text(windows[k].start), Text(windows[k].end)])
  {
    windows := FindWindows(slots, SprayAssessor(limits), SprayVerdict, SpraySummary);
    ghost var runs := Runs(Verdicts(slots, SprayAssessor(limits), SprayVerdict), 0);
    forall k | 0 <= k < |runs|
      ensures windows[k].start == slots[runs[k].lo].time && windows[k].end == slots[runs[k].hi].time
    {
      WindowOfRunAt(windows, slots, runs, SprayAssessor(limits), SprayVerdict, SpraySummary, k);
    }
  }
}
