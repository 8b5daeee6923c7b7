/**
 * The flight evaluator (packages/decision-engine/src/rules.flight.ts): six
 * three-tier checks folded into one overall verdict, a distinguished
 * no-runway result, and the flight instance of the window finder.
 */
module FlightRules {
  import opened Numbers
  import opened Decisions
  import opened Derive
  import opened Windows

  datatype FlightConditions = FlightConditions(
    windDir: real,            // degrees true
    windSpeedKts: real,
    gustSpeedKts: real,
    tempC: real,
    dewpointC: real,
    qnhHpa: real,
    visibilityKm: real,
    precipitationMm: real,
    cloudCoverPct: real,      // carried, read by no rule
    runways: seq<Runway>,
    fieldElevationM: real)

  datatype FlightLimits = FlightLimits(
    maxCrosswindKts: real,
    maxGustKts: real,
    maxGustFactor: real,
    minVisibilityKm: real,
    minCloudBaseFt: real,
    maxDensityAltFt: real,
    maxTailwindKts: real)

  /** Light general-aviation defaults under visual flight rules. */
  const DEFAULT_FLIGHT_LIMITS := FlightLimits(12.0, 25.0, 1.5, 5.0, 1500.0, 3000.0, 5.0)

  datatype FlightDetails = FlightDetails(cloudBaseFt: int, densityAltFt: int, gustFactor: Num, fogRisk: Risk)

  datatype FlightAssessment = FlightAssessment(
    overall: Decision,
    runway: RunwayWind,
    wind: Decision,
    visibility: Decision,
    ceiling: Decision,
    densityAlt: Decision,
    fog: Decision,
    precipitation: Decision,
    details: FlightDetails)
  {
    /** The six sub-decisions in evaluation order. */
    function SubDecisions(): seq<Decision>
    {
      [wind, visibility, ceiling, densityAlt, fog, precipitation]
    }
  }

  const NO_RUNWAY_REASON := Lit("No runway data available")
  const ALL_CLEAR := Lit("All checks passed — conditions are good")

  // ---------------------------------------------------------------------
  // The six checks

  /**
   * Wind: NO_GO when the crosswind or the gust exceeds its limit or the
   * tailwind exceeds its limit; CAUTION above three quarters of the crosswind
   * limit or above the gust-factor limit; GO otherwise. The comparisons are
   * JavaScript's, so a NaN component satisfies none of them.
   */
  function WindDecision(xw: Num, hw: Num, gustKts: real, gf: Num, runwayId: string, limits: FlightLimits): (d: Decision)
    ensures d.verdict == NoGo <==>
      Greater(xw, Fin(limits.maxCrosswindKts)) || gustKts > limits.maxGustKts || Less(hw, Fin(-limits.maxTailwindKts))
    ensures d.verdict == Caution <==>
      !(Greater(xw, Fin(limits.maxCrosswindKts)) || gustKts > limits.maxGustKts || Less(hw, Fin(-limits.maxTailwindKts))) &&
      (Greater(xw, Fin(limits.maxCrosswindKts * 0.75)) || Greater(gf, Fin(limits.maxGustFactor)))
  {
    if Greater(xw, Fin(limits.maxCrosswindKts)) || gustKts > limits.maxGustKts then
      Decision(NoGo, Reason("Crosswind {}kt / gusts {}kt exceed limits", [Number(xw), Number(Fin(gustKts))]))
    else if Less(hw, Fin(-limits.maxTailwindKts)) then
      Decision(NoGo, Reason("Tailwind {}kt on best runway {}", [Number(Abs(hw)), Text(runwayId)]))
    else if Greater(xw, Fin(limits.maxCrosswindKts * 0.75)) || Greater(gf, Fin(limits.maxGustFactor)) then
      Decision(Caution, Reason("Crosswind {}kt on RWY {}, gust factor {}", [Number(xw), Text(runwayId), Number(gf)]))
    else
      Decision(Go, Reason("RWY {}: {}kt headwind, {}kt crosswind", [Text(runwayId), Number(hw), Number(xw)]))
  }

  /** Visibility: NO_GO below the minimum, CAUTION below one and a half times it, GO otherwise. */
  function VisibilityDecision(visibilityKm: real, limits: FlightLimits): (d: Decision)
    ensures d.verdict == NoGo <==> visibilityKm < limits.minVisibilityKm
    ensures d.verdict == Caution <==> limits.minVisibilityKm <= visibilityKm < limits.minVisibilityKm * 1.5
    ensures d.verdict == Go <==> visibilityKm >= limits.minVisibilityKm && visibilityKm >= limits.minVisibilityKm * 1.5
  {
    if visibilityKm < limits.minVisibilityKm then
      Decision(NoGo, Reason("Visibility {}km below VFR minimum", [Number(Fin(visibilityKm))]))
    else if visibilityKm < limits.minVisibilityKm * 1.5 then
      Decision(Caution, Reason("Visibility {}km — marginal VFR", [Number(Fin(visibilityKm))]))
    else
      Decision(Go, Reason("Visibility {}km", [Number(Fin(visibilityKm))]))
  }

  /** Ceiling: NO_GO below the minimum cloud base, CAUTION below one and a half times it, GO otherwise. */
  function CeilingDecision(cloudBaseFt: int, limits: FlightLimits): (d: Decision)
    ensures d.verdict == NoGo <==> (cloudBaseFt as real) < limits.minCloudBaseFt
    ensures d.verdict == Caution <==> limits.minCloudBaseFt <= cloudBaseFt as real < limits.minCloudBaseFt * 1.5
    ensures d.verdict == Go <==>
      cloudBaseFt as real >= limits.minCloudBaseFt && cloudBaseFt as real >= limits.minCloudBaseFt * 1.5
  {
    var base := cloudBaseFt as real;
    if base < limits.minCloudBaseFt then
      Decision(NoGo, Reason("Estimated cloud base {}ft below minimum", [Number(Fin(base))]))
    else if base < limits.minCloudBaseFt * 1.5 then
      Decision(Caution, Reason("Cloud base ~{}ft — watch for lowering", [Number(Fin(base))]))
    else
      Decision(Go, Reason("Cloud base ~{}ft", [Number(Fin(base))]))
  }

  /** Density altitude: NO_GO above the maximum, CAUTION above three quarters of it, GO otherwise. */
  function DensityAltDecision(densityAltFt: int, limits: FlightLimits): (d: Decision)
    ensures d.verdict == NoGo <==> densityAltFt as real > limits.maxDensityAltFt
    ensures d.verdict == Caution <==> limits.maxDensityAltFt * 0.75 < densityAltFt as real <= limits.maxDensityAltFt
    ensures d.verdict == Go <==>
      densityAltFt as real <= limits.maxDensityAltFt && densityAltFt as real <= limits.maxDensityAltFt * 0.75
  {
    var da := densityAltFt as real;
    if da > limits.maxDensityAltFt then
      Decision(NoGo, Reason("Density altitude {}ft — performance degraded", [Number(Fin(da))]))
    else if da > limits.maxDensityAltFt * 0.75 then
      Decision(Caution, Reason("Density altitude {}ft — be aware", [Number(Fin(da))]))
    else
      Decision(Go, Reason("Density altitude {}ft", [Number(Fin(da))]))
  }

  /** Fog: the fog-risk category mapped to a verdict of the same severity. */
  function FogDecision(fogRisk: Risk): (d: Decision)
    ensures d.verdict == RiskVerdict(fogRisk)
  {
    match fogRisk
    case High => Decision(NoGo, Lit("High fog risk — temp/dewpoint spread < 2°C"))
    case Moderate => Decision(Caution, Lit("Moderate fog risk — spread narrowing"))
    case Low => Decision(Go, Lit("Fog risk low"))
  }

  /** Precipitation: NO_GO above 2 mm, CAUTION above 0 mm, GO otherwise. */
  function PrecipitationDecision(precipitationMm: real): (d: Decision)
    ensures d.verdict == NoGo <==> precipitationMm > 2.0
    ensures d.verdict == Caution <==> 0.0 < precipitationMm <= 2.0
    ensures d.verdict == Go <==> precipitationMm <= 0.0
  {
    if precipitationMm > 2.0 then
      Decision(NoGo, Reason("Active precipitation {}mm", [Number(Fin(precipitationMm))]))
    else if precipitationMm > 0.0 then
      Decision(Caution, Reason("Light precipitation {}mm", [Number(Fin(precipitationMm))]))
    else
      Decision(Go, Lit("No precipitation"))
  }

  // ---------------------------------------------------------------------
  // The assessment

  /** The numeric details, computed on both paths. */
  function Details(c: FlightConditions): FlightDetails
  {
    FlightDetails(EstimateCloudBase(c.tempC, c.dewpointC),
                  DensityAltitude(c.fieldElevationM, c.tempC, c.qnhHpa),
                  GustFactor(c.windSpeedKts, c.gustSpeedKts),
                  FogRisk(c.tempC, c.dewpointC))
  }

  /** The result for an empty runway list: every decision NO_GO for lack of runway data. */
  function NoRunwayAssessment(c: FlightConditions): (r: FlightAssessment)
    ensures OverallIsWorst(r.overall, r.SubDecisions(), ALL_CLEAR)
  {
    var noRunway := Decision(NoGo, NO_RUNWAY_REASON);
    assert IsFirst([noRunway, noRunway, noRunway, noRunway, noRunway, noRunway], NoGo, 0);
    FlightAssessment(noRunway, RunwayWind("UNKNOWN", Fin(0.0), Fin(0.0)),
                     noRunway, noRunway, noRunway, noRunway, noRunway, noRunway, Details(c))
  }

  /** The normal path, given the best runway and the crosswind and headwind the wind check compares. */
  function Evaluate(c: FlightConditions, limits: FlightLimits, rwy: RunwayWind, xw: Num, hw: Num): (r: FlightAssessment)
    ensures OverallIsWorst(r.overall, r.SubDecisions(), ALL_CLEAR)
  {
    var details := Details(c);
    var wind := WindDecision(xw, hw, c.gustSpeedKts, details.gustFactor, rwy.id, limits);
    var visibility := VisibilityDecision(c.visibilityKm, limits);
    var ceiling := CeilingDecision(details.cloudBaseFt, limits);
    var densityAlt := DensityAltDecision(details.densityAltFt, limits);
    var fog := FogDecision(details.fogRisk);
    var precipitation := PrecipitationDecision(c.precipitationMm);
    var overall := WorstOf([wind, visibility, ceiling, densityAlt, fog, precipitation], ALL_CLEAR);
    FlightAssessment(overall, rwy, wind, visibility, ceiling, densityAlt, fog, precipitation, details)
  }

  /**
   * `assessFlight` as the source writes it. The wind components are
   * recomputed from `rwy.heading_deg`, a field the best-runway record does
   * not have: the heading is undefined, the angle NaN, and so both components
   * are NaN.
   */
  function AssessFlightAsWritten(c: FlightConditions, limits: FlightLimits, trig: Trig): (r: FlightAssessment)
    ensures OverallIsWorst(r.overall, r.SubDecisions(), ALL_CLEAR)
    ensures |c.runways| == 0 ==> r.runway == RunwayWind("UNKNOWN", Fin(0.0), Fin(0.0))
    ensures |c.runways| > 0 ==> r.runway == PickBest(c.windDir, c.windSpeedKts, trig, c.runways)
  {
    if |c.runways| == 0 then NoRunwayAssessment(c)
    else
      var rwy := PickBest(c.windDir, c.windSpeedKts, trig, c.runways);
      Evaluate(c, limits, rwy, NaN, NaN)
  }

  /**
   * `assessFlight` as evidently intended: the wind check compares the
   * absolute crosswind and the headwind of the best runway.
   */
  function AssessFlight(c: FlightConditions, limits: FlightLimits, trig: Trig): (r: FlightAssessment)
    ensures OverallIsWorst(r.overall, r.SubDecisions(), ALL_CLEAR)
    ensures r.details == FlightDetails(EstimateCloudBase(c.tempC, c.dewpointC),
                                       DensityAltitude(c.fieldElevationM, c.tempC, c.qnhHpa),
                                       GustFactor(c.windSpeedKts, c.gustSpeedKts),
                                       FogRisk(c.tempC, c.dewpointC))
    ensures |c.runways| == 0 ==>
      var noRunway := Decision(NoGo, Lit("No runway data available"));
      && r.runway == RunwayWind("UNKNOWN", Fin(0.0), Fin(0.0))
      && r.overall == noRunway && r.wind == noRunway && r.visibility == noRunway && r.ceiling == noRunway
      && r.densityAlt == noRunway && r.fog == noRunway && r.precipitation == noRunway
    ensures |c.runways| > 0 ==> r.runway == PickBest(c.windDir, c.windSpeedKts, trig, c.runways)
  {
    if |c.runways| == 0 then NoRunwayAssessment(c)
    else
      var rwy := PickBest(c.windDir, c.windSpeedKts, trig, c.runways);
      Evaluate(c, limits, rwy, rwy.crosswind, rwy.headwind)
  }

  /**
   * On the normal path the other five checks read the visibility, the
   * estimated cloud base, the density altitude, the fog risk and the
   * precipitation against their limits.
   */
  lemma OtherChecks(c: FlightConditions, limits: FlightLimits, trig: Trig)
    requires |c.runways| > 0
    ensures var r := AssessFlight(c, limits, trig);
      && (r.visibility.verdict == NoGo <==> c.visibilityKm < limits.minVisibilityKm)
      && (r.visibility.verdict == Caution <==>
            limits.minVisibilityKm <= c.visibilityKm < limits.minVisibilityKm * 1.5)
      && (r.ceiling.verdict == NoGo <==> (r.details.cloudBaseFt as real) < limits.minCloudBaseFt)
      && (r.ceiling.verdict == Caution <==>
            limits.minCloudBaseFt <= r.details.cloudBaseFt as real < limits.minCloudBaseFt * 1.5)
      && (r.densityAlt.verdict == NoGo <==> r.details.densityAltFt as real > limits.maxDensityAltFt)
      && (r.densityAlt.verdict == Caution <==>
            limits.maxDensityAltFt * 0.75 < r.details.densityAltFt as real <= limits.maxDensityAltFt)
      && r.fog.verdict == RiskVerdict(FogRisk(c.tempC, c.dewpointC))
      && (r.precipitation.verdict == NoGo <==> c.precipitationMm > 2.0)
      && (r.precipitation.verdict == Caution <==> 0.0 < c.precipitationMm <= 2.0)
  {
    var r := AssessFlight(c, limits, trig);
    var rwy := PickBest(c.windDir, c.windSpeedKts, trig, c.runways);
    assert r == Evaluate(c, limits, rwy, rwy.crosswind, rwy.headwind);
  }

  /**
   * On the normal path the wind check reads the best runway's finite
   * components: NO_GO exactly when its crosswind exceeds the limit, the gust
   * exceeds the limit or its tailwind exceeds the limit; otherwise CAUTION
   * exactly when the crosswind exceeds three quarters of the limit or the gust
   * factor exceeds its limit; otherwise GO.
   */
  lemma WindRules(c: FlightConditions, limits: FlightLimits, trig: Trig)
    requires |c.runways| > 0
    ensures var r := AssessFlight(c, limits, trig);
      var xw := r.runway.crosswind;
      var hw := r.runway.headwind;
      && xw.Fin? && hw.Fin? && xw.v >= 0.0
      && (r.wind.verdict == NoGo <==>
            xw.v > limits.maxCrosswindKts || c.gustSpeedKts > limits.maxGustKts || hw.v < -limits.maxTailwindKts)
      && (r.wind.verdict == Caution <==>
            !(xw.v > limits.maxCrosswindKts || c.gustSpeedKts > limits.maxGustKts || hw.v < -limits.maxTailwindKts) &&
            (xw.v > limits.maxCrosswindKts * 0.75 || Greater(r.details.gustFactor, Fin(limits.maxGustFactor))))
  {
    PickBestIsBest(c.windDir, c.windSpeedKts, trig, c.runways);
    var r := AssessFlight(c, limits, trig);
    assert r.runway.crosswind.Fin? && r.runway.headwind.Fin?;
    assert r.wind == WindDecision(r.runway.crosswind, r.runway.headwind, c.gustSpeedKts, r.details.gustFactor,
                                  r.runway.id, limits);
    FiniteComparisons(r.runway.crosswind.v, limits.maxCrosswindKts);
    FiniteComparisons(r.runway.crosswind.v, limits.maxCrosswindKts * 0.75);
    FiniteComparisons(r.runway.headwind.v, -limits.maxTailwindKts);
  }

  /**
   * A calm wind with a gust within the gust limit is CAUTION: the gust
   * factor is +Infinity, which exceeds any gust-factor limit.
   */
  lemma CalmGustIsCaution(c: FlightConditions, limits: FlightLimits, trig: Trig)
    requires |c.runways| > 0
    requires c.windSpeedKts == 0.0 && 0.0 < c.gustSpeedKts <= limits.maxGustKts
    requires limits.maxCrosswindKts >= 0.0 && limits.maxTailwindKts >= 0.0
    ensures AssessFlight(c, limits, trig).wind.verdict == Caution
  {
    CalmWindBestRunway(c.windDir, trig, c.runways);
    var rwy := PickBest(c.windDir, c.windSpeedKts, trig, c.runways);
    var r := AssessFlight(c, limits, trig);
    assert r.details.gustFactor == PosInf;
    assert r.wind == WindDecision(Fin(0.0), Fin(0.0), c.gustSpeedKts, PosInf, rwy.id, limits);
    FiniteComparisons(0.0, limits.maxCrosswindKts);
    FiniteComparisons(0.0, limits.maxCrosswindKts * 0.75);
    FiniteComparisons(0.0, -limits.maxTailwindKts);
    InfinityExceedsFinite(limits.maxGustFactor);
  }

  // ---------------------------------------------------------------------
  // The heading_deg finding

  /**
   * As written, the wind check ignores crosswind and tailwind altogether:
   * it is NO_GO exactly when the gust exceeds its limit, CAUTION exactly when
   * otherwise the gust factor exceeds its limit, GO otherwise.
   */
  lemma AsWrittenWindIgnoresComponents(c: FlightConditions, limits: FlightLimits, trig: Trig)
    requires |c.runways| > 0
    ensures var r := AssessFlightAsWritten(c, limits, trig);
      && (r.wind.verdict == NoGo <==> c.gustSpeedKts > limits.maxGustKts)
      && (r.wind.verdict == Caution <==>
            c.gustSpeedKts <= limits.maxGustKts && Greater(r.details.gustFactor, Fin(limits.maxGustFactor)))
  {
    NaNComparesFalse(Fin(limits.maxCrosswindKts));
    NaNComparesFalse(Fin(-limits.maxTailwindKts));
    NaNComparesFalse(Fin(limits.maxCrosswindKts * 0.75));
  }

  /** A 20 kt wind straight across runway 17, otherwise a fine day. */
  function CrosswindDay(): FlightConditions
  {
    FlightConditions(260.0, 20.0, 6.0, 20.0, 15.0, 1013.0, 10.0, 0.0, 20.0, [Runway("17", 170.0)], 27.0)
  }

  /** With the wind at 90 degrees to runway 17, its record is 0 kt headwind and 20 kt crosswind. */
  lemma CrosswindDayRunway(trig: Trig)
    requires trig.sinDeg(90.0) == 1.0 && trig.cosDeg(90.0) == 0.0
    ensures PickBest(260.0, 20.0, trig, [Runway("17", 170.0)]) == RunwayWind("17", Fin(0.0), Fin(20.0))
  {
    var runways := [Runway("17", 170.0)];
    assert HeadwindComponent(260.0, 20.0, 170.0, trig) == 0.0 by {
      assert 260.0 - 170.0 == 90.0;
      assert Round(0.0) == 0;
    }
    assert CrosswindComponent(260.0, 20.0, 170.0, trig) == 20.0 by {
      assert 260.0 - 170.0 == 90.0;
      assert Round(200.0) == 200;
    }
    assert runways[..0] == [];
    assert PickBest(260.0, 20.0, trig, runways) == Consider(260.0, 20.0, trig, NO_RUNWAY, runways[0]);
  }

  /**
   * On a 20 kt direct crosswind (more than the 12 kt limit) the wind check
   * as written says GO.
   */
  lemma CrosswindIgnoredAsWritten(trig: Trig)
    ensures AssessFlightAsWritten(CrosswindDay(), DEFAULT_FLIGHT_LIMITS, trig).wind.verdict == Go
  {
    var c := CrosswindDay();
    AsWrittenWindIgnoresComponents(c, DEFAULT_FLIGHT_LIMITS, trig);
    assert GustFactor(20.0, 6.0) == Fin(0.3) by {
      assert Round(30.0) == 30;
    }
  }

  /** On the same day the corrected check says NO_GO for the crosswind, and so does the overall verdict. */
  lemma CrosswindDayIsNoGo(trig: Trig)
    requires trig.sinDeg(90.0) == 1.0 && trig.cosDeg(90.0) == 0.0
    ensures AssessFlight(CrosswindDay(), DEFAULT_FLIGHT_LIMITS, trig).wind.verdict == NoGo
    ensures AssessFlight(CrosswindDay(), DEFAULT_FLIGHT_LIMITS, trig).overall ==
      Decision(NoGo, Reason("Crosswind {}kt / gusts {}kt exceed limits", [Number(Fin(20.0)), Number(Fin(6.0))]))
  {
    CrosswindDayRunway(trig);
    var r := AssessFlight(CrosswindDay(), DEFAULT_FLIGHT_LIMITS, trig);
    assert r.runway == RunwayWind("17", Fin(0.0), Fin(20.0));
    assert r.wind == Decision(NoGo, Reason("Crosswind {}kt / gusts {}kt exceed limits", [Number(Fin(20.0)), Number(Fin(6.0))]));
    assert IsFirst(r.SubDecisions(), NoGo, 0);
  }

  /**
   * On a calm day (see `CalmDay`) the wind is GO, but
   * the 2000 ft estimated cloud base is below one and a half times the
   * 1500 ft minimum, so the overall verdict is CAUTION for the ceiling.
   */
  lemma CalmDayIsCautionForCeiling(c: FlightConditions, trig: Trig)
    requires c == CalmDay()
    requires trig.sinDeg(0.0) == 0.0 && trig.cosDeg(0.0) == 1.0
    ensures var r := AssessFlight(c, DEFAULT_FLIGHT_LIMITS, trig);
      && r.runway == RunwayWind("17", Fin(5.0), Fin(0.0))
      && r.wind.verdict == Go
      && r.overall == Decision(Caution, Reason("Cloud base ~{}ft — watch for lowering", [Number(Fin(2000.0))]))
  {
    CalmDayWind(c, trig);
    CalmDayOtherChecks(c, trig);
    var r := AssessFlight(c, DEFAULT_FLIGHT_LIMITS, trig);
    WorstIsFirstCaution(r.overall, r.SubDecisions(), ALL_CLEAR, 2);
  }

  lemma CalmDayWind(c: FlightConditions, trig: Trig)
    requires c == CalmDay()
    requires trig.sinDeg(0.0) == 0.0 && trig.cosDeg(0.0) == 1.0
    ensures var r := AssessFlight(c, DEFAULT_FLIGHT_LIMITS, trig);
      r.runway == RunwayWind("17", Fin(5.0), Fin(0.0)) && r.wind.verdict == Go
  {
    CalmDayRunway(trig);
    CalmDayDetails();
    assert c.windDir == 170.0 && c.windSpeedKts == 5.0 && c.runways == [Runway("17", 170.0)];
    var r := AssessFlight(c, DEFAULT_FLIGHT_LIMITS, trig);
    assert r.runway == RunwayWind("17", Fin(5.0), Fin(0.0));
    assert r.details.gustFactor == Fin(1.2);
    assert r.wind == WindDecision(Fin(0.0), Fin(5.0), 6.0, Fin(1.2), "17", DEFAULT_FLIGHT_LIMITS);
    CalmDayWindDecision();
  }

  lemma CalmDayWindDecision()
    ensures WindDecision(Fin(0.0), Fin(5.0), 6.0, Fin(1.2), "17", DEFAULT_FLIGHT_LIMITS).verdict == Go
  {
    assert !Greater(Fin(0.0), Fin(12.0)) && !Less(Fin(5.0), Fin(-5.0));
    assert !Greater(Fin(0.0), Fin(9.0)) && !Greater(Fin(1.2), Fin(1.5));
  }

  lemma CalmDayOtherChecks(c: FlightConditions, trig: Trig)
    requires c == CalmDay()
    ensures var r := AssessFlight(c, DEFAULT_FLIGHT_LIMITS, trig);
      && r.visibility.verdict == Go
      && r.ceiling == Decision(Caution, Reason("Cloud base ~{}ft — watch for lowering", [Number(Fin(2000.0))]))
      && r.densityAlt.verdict == Go
      && r.fog.verdict == Go
      && r.precipitation.verdict == Go
  {
    CalmDayDetails();
  }

  /** A 5 kt wind straight down runway 17 at 20/15 degC, 1013 hPa, field elevation 27 m. */
  function CalmDay(): FlightConditions
  {
    FlightConditions(170.0, 5.0, 6.0, 20.0, 15.0, 1013.0, 10.0, 0.0, 20.0, [Runway("17", 170.0)], 27.0)
  }

  /** With the wind straight down runway 17, its record is 5 kt headwind and no crosswind. */
  lemma CalmDayRunway(trig: Trig)
    requires trig.sinDeg(0.0) == 0.0 && trig.cosDeg(0.0) == 1.0
    ensures PickBest(170.0, 5.0, trig, [Runway("17", 170.0)]) == RunwayWind("17", Fin(5.0), Fin(0.0))
  {
    var runways := [Runway("17", 170.0)];
    assert HeadwindComponent(170.0, 5.0, 170.0, trig) == 5.0 by {
      assert 170.0 - 170.0 == 0.0;
      assert Round(50.0) == 50;
    }
    assert CrosswindComponent(170.0, 5.0, 170.0, trig) == 0.0 by {
      assert 170.0 - 170.0 == 0.0;
      assert Round(0.0) == 0;
    }
    assert runways[..0] == [];
    assert PickBest(170.0, 5.0, trig, runways) == Consider(170.0, 5.0, trig, NO_RUNWAY, runways[0]);
  }

  /** At 20/15 degC the cloud base is 2000 ft and the fog risk low; the density altitude is at most 2250 ft. */
  lemma CalmDayDetails()
    ensures Details(CalmDay()).cloudBaseFt == 2000
    ensures Details(CalmDay()).densityAltFt <= 2250
    ensures Details(CalmDay()).gustFactor == Fin(1.2)
    ensures Details(CalmDay()).fogRisk == Low
  {
    assert Round(2000.0) == 2000;
    assert Round(120.0) == 120;
  }

  // ---------------------------------------------------------------------
  // Flight windows

  /**
   * What a flight window's summary text is built from: the runway of the
   * run's first assessment, and every assessment's crosswind and gust factor
   * in order (the text averages the one and takes the maximum of the other).
   */
  datatype FlightSummary = FlightSummary(runwayId: string, crosswinds: seq<Num>, gustFactors: seq<Num>)

  /** `buildWindowSummary`; the scan never calls it on an empty run. */
  function SummariseFlight(start: string, end: string, assessments: seq<FlightAssessment>): (r: FlightSummary)
    ensures |assessments| > 0 ==> r.runwayId == assessments[0].runway.id
    ensures |r.crosswinds| == |assessments| &&
      forall i :: 0 <= i < |assessments| ==> r.crosswinds[i] == assessments[i].runway.crosswind
    ensures |r.gustFactors| == |assessments| &&
      forall i :: 0 <= i < |assessments| ==> r.gustFactors[i] == assessments[i].details.gustFactor
  {
    FlightSummary(if |assessments| > 0 then assessments[0].runway.id else "",
                  seq(|assessments|, i requires 0 <= i < |assessments| => assessments[i].runway.crosswind),
                  seq(|assessments|, i requires 0 <= i < |assessments| => assessments[i].details.gustFactor))
  }

  function FlightAssessor(limits: FlightLimits, trig: Trig): FlightConditions -> FlightAssessment
  {
    c => AssessFlight(c, limits, trig)
  }

  function OverallVerdict(a: FlightAssessment): Verdict
  {
    a.overall.verdict
  }

  /**
   * `findFlightWindows`: one window per maximal run of non-NO_GO slots, in
   * order, each named after the best runway of its first slot.
   */
  method FindFlightWindows(slots: seq<Slot<FlightConditions>>, limits: FlightLimits, trig: Trig)
    returns (windows: seq<Window<FlightSummary>>)
    ensures var runs := Runs(Verdicts(slots, FlightAssessor(limits, trig), OverallVerdict), 0);
      && WindowsOfRuns(windows, slots, runs, FlightAssessor(limits, trig), OverallVerdict, SummariseFlight)
      && forall k :: 0 <= k < |runs| ==>
           && windows[k].start == slots[runs[k].lo].time
           && windows[k].end == slots[runs[k].hi].time
           && windows[k].summary.runwayId == AssessFlight(slots[runs[k].lo].conditions, limits, trig).runway.id
  {
    windows := FindWindows(slots, FlightAssessor(limits, trig), OverallVerdict, SummariseFlight);
    ghost var runs := Runs(Verdicts(slots, FlightAssessor(limits, trig), OverallVerdict), 0);
    forall k | 0 <= k < |runs|
      ensures windows[k].start == slots[runs[k].lo].time && windows[k].end == slots[runs[k].hi].time
      ensures windows[k].summary.runwayId == AssessFlight(slots[runs[k].lo].conditions, limits, trig).runway.id
    {
      WindowOfRunAt(windows, slots, runs, FlightAssessor(limits, trig), OverallVerdict, SummariseFlight, k);
    }
  }

  function FlightAssessorAsWritten(limits: FlightLimits, trig: Trig): FlightConditions -> FlightAssessment
  {
    c => AssessFlightAsWritten(c, limits, trig)
  }

  /**
   * `findFlightWindows` as the source writes it: the same scan over the
   * as-written evaluator, whose wind check ignores crosswind and tailwind.
   */
  method FindFlightWindowsAsWritten(slots: seq<Slot<FlightConditions>>, limits: FlightLimits, trig: Trig)
    returns (windows: seq<Window<FlightSummary>>)
    ensures var runs := Runs(Verdicts(slots, FlightAssessorAsWritten(limits, trig), OverallVerdict), 0);
      && WindowsOfRuns(windows, slots, runs, FlightAssessorAsWritten(limits, trig), OverallVerdict, SummariseFlight)
      && forall k :: 0 <= k < |runs| ==>
           && windows[k].start == slots[runs[k].lo].time
           && windows[k].end == slots[runs[k].hi].time
           && windows[k].summary.runwayId == AssessFlightAsWritten(slots[runs[k].lo].conditions, limits, trig).runway.id
  {
    windows := FindWindows(slots, FlightAssessorAsWritten(limits, trig), OverallVerdict, SummariseFlight);
    ghost var runs := Runs(Verdicts(slots, FlightAssessorAsWritten(limits, trig), OverallVerdict), 0);
    forall k | 0 <= k < |runs|
      ensures windows[k].start == slots[runs[k].lo].time && windows[k].end == slots[runs[k].hi].time
      ensures windows[k].summary.runwayId == AssessFlightAsWritten(slots[runs[k].lo].conditions, limits, trig).runway.id
    {
      WindowOfRunAt(windows, slots, runs, FlightAssessorAsWritten(limits, trig), OverallVerdict, SummariseFlight, k);
    }
  }
}
