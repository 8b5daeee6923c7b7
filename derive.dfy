/**
 * The derivation library: stateless aviation and meteorology rules that the
 * evaluators build on (packages/decision-engine/src/derive.ts).
 *
 * Sine and cosine are not available to the verifier; the wind components take
 * them as a parameter (`Trig`), so every fact proved here holds for whatever
 * trigonometry the runtime supplies.
 */
module Derive {
  import opened Numbers
  import opened Decisions

  /** Sine and cosine of an angle given in degrees. */
  datatype Trig = Trig(sinDeg: real -> real, cosDeg: real -> real)

  datatype Runway = Runway(id: string, headingDeg: real)

  /** The best-runway record: its id and its headwind and absolute crosswind. */
  datatype RunwayWind = RunwayWind(id: string, headwind: Num, crosswind: Num)

  datatype Risk = High | Moderate | Low

  function RiskRank(r: Risk): nat
  {
    match r
    case Low => 0
    case Moderate => 1
    case High => 2
  }

  /** The verdict the evaluators give a risk category: HIGH is NO_GO, MODERATE is CAUTION, LOW is GO. */
  function RiskVerdict(r: Risk): (v: Verdict)
    ensures Rank(v) == RiskRank(r)
  {
    match r
    case High => NoGo
    case Moderate => Caution
    case Low => Go
  }

  /** A risk category with the reason the library gives for it. */
  datatype RiskAssessment = RiskAssessment(risk: Risk, reason: Reason)

  // ---------------------------------------------------------------------
  // Wind components

  /** Crosswind in knots, to one decimal; positive when from the right. */
  function CrosswindComponent(windDir: real, windSpeed: real, runwayHeading: real, trig: Trig): (r: real)
    ensures var exact := windSpeed * trig.sinDeg(windDir - runwayHeading);
      exact - 0.05 < r <= exact + 0.05
    ensures (r * 10.0).Floor as real == r * 10.0
  {
    Round1(windSpeed * trig.sinDeg(windDir - runwayHeading))
  }

  /** Headwind in knots, to one decimal; negative for a tailwind. */
  function HeadwindComponent(windDir: real, windSpeed: real, runwayHeading: real, trig: Trig): (r: real)
    ensures var exact := windSpeed * trig.cosDeg(windDir - runwayHeading);
      exact - 0.05 < r <= exact + 0.05
    ensures (r * 10.0).Floor as real == r * 10.0
  {
    Round1(windSpeed * trig.cosDeg(windDir - runwayHeading))
  }

  /** A calm wind has no component on any runway. */
  lemma CalmWindHasNoComponents(windDir: real, runwayHeading: real, trig: Trig)
    ensures CrosswindComponent(windDir, 0.0, runwayHeading, trig) == 0.0
    ensures HeadwindComponent(windDir, 0.0, runwayHeading, trig) == 0.0
  {
    assert Round(0.0) == 0;
  }

  // ---------------------------------------------------------------------
  // Best runway

  /** The headwind on `rwy`, as the best-runway search computes it. */
  function RunwayHeadwind(windDir: real, windSpeed: real, trig: Trig, rwy: Runway): real
  {
    HeadwindComponent(windDir, windSpeed, rwy.headingDeg, trig)
  }

  /** The absolute crosswind on `rwy`, as the best-runway search computes it. */
  function RunwayCrosswind(windDir: real, windSpeed: real, trig: Trig, rwy: Runway): (r: real)
    ensures r >= 0.0
    ensures var xw := CrosswindComponent(windDir, windSpeed, rwy.headingDeg, trig);
      r == xw || r == -xw
  {
    var xw := CrosswindComponent(windDir, windSpeed, rwy.headingDeg, trig);
    if xw < 0.0 then -xw else xw
  }

  /** The search's starting record: no id, -Infinity headwind, +Infinity crosswind. */
  const NO_RUNWAY := RunwayWind("", NegInf, PosInf)

  /** One step of the search: replace `best` when `rwy` has more headwind, or as much with less crosswind. */
  function Consider(windDir: real, windSpeed: real, trig: Trig, best: RunwayWind, rwy: Runway): RunwayWind
  {
    var hw := RunwayHeadwind(windDir, windSpeed, trig, rwy);
    var xw := RunwayCrosswind(windDir, windSpeed, trig, rwy);
    if Greater(Fin(hw), best.headwind) || (StrictEq(Fin(hw), best.headwind) && Less(Fin(xw), Abs(best.crosswind)))
    then RunwayWind(rwy.id, Fin(hw), Fin(xw))
    else best
  }

  /** The record the search holds after visiting `runways` in order. */
  function PickBest(windDir: real, windSpeed: real, trig: Trig, runways: seq<Runway>): RunwayWind
  {
    if |runways| == 0 then NO_RUNWAY
    else Consider(windDir, windSpeed, trig, PickBest(windDir, windSpeed, trig, runways[..|runways| - 1]), runways[|runways| - 1])
  }

  /**
   * `b` is the record of runway `k`, no runway has more headwind, no runway
   * with the same headwind has less crosswind, and every earlier runway with
   * the same headwind has strictly more crosswind.
   */
  ghost predicate IsBestAt(windDir: real, windSpeed: real, trig: Trig, runways: seq<Runway>, k: int, b: RunwayWind)
  {
    && 0 <= k < |runways|
    && b == RunwayWind(runways[k].id, Fin(RunwayHeadwind(windDir, windSpeed, trig, runways[k])),
                                      Fin(RunwayCrosswind(windDir, windSpeed, trig, runways[k])))
    && (forall j :: 0 <= j < |runways| ==>
          RunwayHeadwind(windDir, windSpeed, trig, runways[j]) <= b.headwind.v)
    && (forall j :: 0 <= j < |runways| && RunwayHeadwind(windDir, windSpeed, trig, runways[j]) == b.headwind.v ==>
          b.crosswind.v <= RunwayCrosswind(windDir, windSpeed, trig, runways[j]))
    && (forall j :: 0 <= j < k && RunwayHeadwind(windDir, windSpeed, trig, runways[j]) == b.headwind.v ==>
          b.crosswind.v < RunwayCrosswind(windDir, windSpeed, trig, runways[j]))
  }

  /** On a non-empty list the search ends on a runway that maximises headwind, then minimises crosswind. */
  lemma {:induction false} PickBestIsBest(windDir: real, windSpeed: real, trig: Trig, runways: seq<Runway>)
    requires |runways| > 0
    ensures exists k :: IsBestAt(windDir, windSpeed, trig, runways, k, PickBest(windDir, windSpeed, trig, runways))
  {
    var n := |runways|;
    var last := runways[n - 1];
    var hw := RunwayHeadwind(windDir, windSpeed, trig, last);
    var xw := RunwayCrosswind(windDir, windSpeed, trig, last);
    var b := PickBest(windDir, windSpeed, trig, runways);
    if n == 1 {
      assert runways[..0] == [];
      assert PickBest(windDir, windSpeed, trig, runways[..0]) == NO_RUNWAY;
      assert b == RunwayWind(last.id, Fin(hw), Fin(xw));
      assert IsBestAt(windDir, windSpeed, trig, runways, 0, b);
    } else {
      var init := runways[..n - 1];
      PickBestIsBest(windDir, windSpeed, trig, init);
      var prev := PickBest(windDir, windSpeed, trig, init);
      var k :| IsBestAt(windDir, windSpeed, trig, init, k, prev);
      if hw > prev.headwind.v || (hw == prev.headwind.v && xw < prev.crosswind.v) {
        assert b == RunwayWind(last.id, Fin(hw), Fin(xw));
        BestIsLast(windDir, windSpeed, trig, runways, k, prev);
      } else {
        assert b == prev;
        BestIsKept(windDir, windSpeed, trig, runways, k, prev);
      }
    }
  }

  /** A last runway that beats the best of the others is the best of all. */
  lemma BestIsLast(windDir: real, windSpeed: real, trig: Trig, runways: seq<Runway>, k: int, prev: RunwayWind)
    requires |runways| >= 2 && IsBestAt(windDir, windSpeed, trig, runways[..|runways| - 1], k, prev)
    requires var hw := RunwayHeadwind(windDir, windSpeed, trig, runways[|runways| - 1]);
      var xw := RunwayCrosswind(windDir, windSpeed, trig, runways[|runways| - 1]);
      hw > prev.headwind.v || (hw == prev.headwind.v && xw < prev.crosswind.v)
    ensures var last := runways[|runways| - 1];
      IsBestAt(windDir, windSpeed, trig, runways, |runways| - 1,
               RunwayWind(last.id, Fin(RunwayHeadwind(windDir, windSpeed, trig, last)),
                          Fin(RunwayCrosswind(windDir, windSpeed, trig, last))))
  {
    var init := runways[..|runways| - 1];
    assert forall j :: 0 <= j < |init| ==> init[j] == runways[j];
  }

  /** A last runway that does not beat the best of the others leaves that best in place. */
  lemma BestIsKept(windDir: real, windSpeed: real, trig: Trig, runways: seq<Runway>, k: int, prev: RunwayWind)
    requires |runways| >= 2 && IsBestAt(windDir, windSpeed, trig, runways[..|runways| - 1], k, prev)
    requires var hw := RunwayHeadwind(windDir, windSpeed, trig, runways[|runways| - 1]);
      var xw := RunwayCrosswind(windDir, windSpeed, trig, runways[|runways| - 1]);
      !(hw > prev.headwind.v || (hw == prev.headwind.v && xw < prev.crosswind.v))
    ensures IsBestAt(windDir, windSpeed, trig, runways, k, prev)
  {
    var init := runways[..|runways| - 1];
    assert forall j :: 0 <= j < |init| ==> init[j] == runways[j];
  }

  /** In a calm the best runway has neither headwind nor crosswind. */
  lemma CalmWindBestRunway(windDir: real, trig: Trig, runways: seq<Runway>)
    requires |runways| > 0
    ensures PickBest(windDir, 0.0, trig, runways).headwind == Fin(0.0)
    ensures PickBest(windDir, 0.0, trig, runways).crosswind == Fin(0.0)
  {
    PickBestIsBest(windDir, 0.0, trig, runways);
    var k :| IsBestAt(windDir, 0.0, trig, runways, k, PickBest(windDir, 0.0, trig, runways));
    CalmWindHasNoComponents(windDir, runways[k].headingDeg, trig);
  }

  /**
   * `bestRunway`: a loop over the runways that keeps the best record so far.
   * An empty list leaves the starting record.
   */
  method BestRunway(windDir: real, windSpeed: real, trig: Trig, runways: seq<Runway>) returns (best: RunwayWind)
    ensures best == PickBest(windDir, windSpeed, trig, runways)
    ensures |runways| == 0 ==> best == NO_RUNWAY
    ensures |runways| > 0 ==> exists k :: IsBestAt(windDir, windSpeed, trig, runways, k, best)
  {
    best := NO_RUNWAY;
    for i := 0 to |runways|
      invariant best == PickBest(windDir, windSpeed, trig, runways[..i])
    {
      var rwy := runways[i];
      var hw := RunwayHeadwind(windDir, windSpeed, trig, rwy);
      var xw := RunwayCrosswind(windDir, windSpeed, trig, rwy);
      if Greater(Fin(hw), best.headwind) || (StrictEq(Fin(hw), best.headwind) && Less(Fin(xw), Abs(best.crosswind))) {
        best := RunwayWind(rwy.id, Fin(hw), Fin(xw));
      }
      assert runways[..i + 1][..i] == runways[..i];
    }
    assert runways[..|runways|] == runways;
    if |runways| > 0 {
      PickBestIsBest(windDir, windSpeed, trig, runways);
    }
  }

  // ---------------------------------------------------------------------
  // Cloud base, density altitude, gust factor

  /** Henley's spread method: about 1000 ft of cloud base per 2.5 degC of spread, clamped at 0. */
  function EstimateCloudBase(tempC: real, dewpointC: real): (r: int)
    ensures r >= 0
    ensures tempC <= dewpointC ==> r == 0
    ensures tempC >= dewpointC ==>
      (tempC - dewpointC) * 400.0 - 0.5 < r as real <= (tempC - dewpointC) * 400.0 + 0.5
  {
    var spread := tempC - dewpointC;
    if spread < 0.0 then 0
    else Round((spread / 2.5) * 1000.0)
  }

  /** A wider temperature/dewpoint spread never lowers the estimated cloud base. */
  lemma CloudBaseMonotone(spread1: real, spread2: real, dewpointC: real)
    requires spread1 <= spread2
    ensures EstimateCloudBase(dewpointC + spread1, dewpointC) <= EstimateCloudBase(dewpointC + spread2, dewpointC)
  {
    if spread1 >= 0.0 {
      RoundMonotone((spread1 / 2.5) * 1000.0, (spread2 / 2.5) * 1000.0);
    }
  }

  /** Pressure altitude in feet: 30 ft per hPa below 1013.25, plus the field elevation in feet. */
  function PressureAltitude(fieldElevationM: real, qnhHpa: real): real
  {
    (1013.25 - qnhHpa) * 30.0 + fieldElevationM * 3.28084
  }

  /** Density altitude in feet: pressure altitude plus 120 ft per degC above the ISA temperature. */
  function DensityAltitude(fieldElevationM: real, tempC: real, qnhHpa: real): (r: int)
    ensures var pa := PressureAltitude(fieldElevationM, qnhHpa);
      var exact := pa + 120.0 * (tempC - (15.0 - (pa / 1000.0) * 1.98));
      exact - 0.5 < r as real <= exact + 0.5
  {
    var pressureAlt := PressureAltitude(fieldElevationM, qnhHpa);
    var isaTemp := 15.0 - (pressureAlt / 1000.0) * 1.98;
    var da := pressureAlt + 120.0 * (tempC - isaTemp);
    Round(da)
  }

  /** At sea level in the standard atmosphere (15 degC, 1013.25 hPa) density altitude is zero. */
  lemma DensityAltitudeStandardAtmosphere()
    ensures DensityAltitude(0.0, 15.0, 1013.25) == 0
  {
  }

  /** Warmer air, higher ground and lower pressure never lower density altitude. */
  lemma DensityAltitudeMonotone(elev1: real, elev2: real, temp1: real, temp2: real, qnh1: real, qnh2: real)
    requires elev1 <= elev2 && temp1 <= temp2 && qnh1 >= qnh2
    ensures DensityAltitude(elev1, temp1, qnh1) <= DensityAltitude(elev2, temp2, qnh2)
  {
    var pa1 := PressureAltitude(elev1, qnh1);
    var pa2 := PressureAltitude(elev2, qnh2);
    assert pa1 <= pa2;
    RoundMonotone(pa1 + 120.0 * (temp1 - (15.0 - (pa1 / 1000.0) * 1.98)),
                  pa2 + 120.0 * (temp2 - (15.0 - (pa2 / 1000.0) * 1.98)));
  }

  /**
   * Gust factor, gust over mean wind to two decimals. A calm (or negative)
   * mean wind with any gust is +Infinity; a calm wind without gust is 1.
   */
  function GustFactor(windSpeed: real, gustSpeed: real): (r: Num)
    ensures windSpeed <= 0.0 && gustSpeed > 0.0 ==> r == PosInf
    ensures windSpeed <= 0.0 && gustSpeed <= 0.0 ==> r == Fin(1.0)
    ensures windSpeed > 0.0 ==> r.Fin? && gustSpeed / windSpeed - 0.005 < r.v <= gustSpeed / windSpeed + 0.005
    ensures windSpeed > 0.0 ==> (r.v * 100.0).Floor as real == r.v * 100.0
  {
    if windSpeed <= 0.0 then (if gustSpeed > 0.0 then PosInf else Fin(1.0))
    else Fin(Round2(gustSpeed / windSpeed))
  }

  /** The gust factor is never NaN and never -Infinity, so threshold checks against it are meaningful. */
  lemma GustFactorIsOrdered(windSpeed: real, gustSpeed: real)
    ensures !GustFactor(windSpeed, gustSpeed).NaN? && !GustFactor(windSpeed, gustSpeed).NegInf?
  {
  }

  // ---------------------------------------------------------------------
  // Risk cascades

  /** Fog risk from the temperature/dewpoint spread: below 2 HIGH, below 4 MODERATE, else LOW. */
  function FogRisk(tempC: real, dewpointC: real): (r: Risk)
    ensures r == High <==> tempC - dewpointC < 2.0
    ensures r == Moderate <==> 2.0 <= tempC - dewpointC < 4.0
    ensures r == Low <==> tempC - dewpointC >= 4.0
  {
    var spread := tempC - dewpointC;
    if spread < 2.0 then High
    else if spread < 4.0 then Moderate
    else Low
  }

  /** Fog risk never rises as the spread widens. */
  lemma FogRiskMonotone(temp1: real, dew1: real, temp2: real, dew2: real)
    requires temp1 - dew1 <= temp2 - dew2
    ensures RiskRank(FogRisk(temp2, dew2)) <= RiskRank(FogRisk(temp1, dew1))
  {
  }

  /**
   * Spray drift risk. The clauses are tried in order: wind above 15 km/h,
   * wind below 3 km/h, delta-T above 10 give HIGH; delta-T below 2, delta-T
   * above 8, wind above 12 km/h give MODERATE; otherwise LOW.
   */
  function SprayDriftRisk(windSpeedKmh: real, tempC: real, dewpointC: real): (r: RiskAssessment)
    ensures windSpeedKmh > 15.0 || windSpeedKmh < 3.0 ==> r.risk == High
    ensures r.risk == High <==> windSpeedKmh > 15.0 || windSpeedKmh < 3.0 || tempC - dewpointC > 10.0
    ensures r.risk == Low <==>
      3.0 <= windSpeedKmh <= 12.0 && 2.0 <= tempC - dewpointC <= 8.0
    ensures r.risk == Moderate <==>
      3.0 <= windSpeedKmh <= 15.0 && tempC - dewpointC <= 10.0 &&
      (tempC - dewpointC < 2.0 || tempC - dewpointC > 8.0 || windSpeedKmh > 12.0)
    ensures windSpeedKmh > 15.0 ==>
      r.reason == Reason("Wind {} km/h exceeds 15 km/h spray limit", [Number(Fin(windSpeedKmh))])
    ensures windSpeedKmh < 3.0 ==> r.reason == Lit("Wind below 3 km/h — inversion likely, spray will hang")
    ensures 3.0 <= windSpeedKmh <= 15.0 && tempC - dewpointC > 10.0 ==>
      r.reason == Reason("Delta-T {}°C — rapid evaporation, droplets won't reach target", [Fixed1(tempC - dewpointC)])
    ensures 3.0 <= windSpeedKmh <= 15.0 && tempC - dewpointC < 2.0 ==>
      r.reason == Reason("Delta-T {}°C — too humid, slow drying", [Fixed1(tempC - dewpointC)])
    ensures 3.0 <= windSpeedKmh <= 15.0 && 8.0 < tempC - dewpointC <= 10.0 ==>
      r.reason == Reason("Delta-T {}°C — getting dry, watch for drift", [Fixed1(tempC - dewpointC)])
    ensures 12.0 < windSpeedKmh <= 15.0 && 2.0 <= tempC - dewpointC <= 8.0 ==>
      r.reason == Reason("Wind {} km/h approaching limit", [Number(Fin(windSpeedKmh))])
    ensures r.risk == Low ==> r.reason == Lit("Conditions within ideal spray window")
  {
    var deltaT := tempC - dewpointC;
    if windSpeedKmh > 15.0 then
      RiskAssessment(High, Reason("Wind {} km/h exceeds 15 km/h spray limit", [Number(Fin(windSpeedKmh))]))
    else if windSpeedKmh < 3.0 then
      RiskAssessment(High, Lit("Wind below 3 km/h — inversion likely, spray will hang"))
    else if deltaT > 10.0 then
      RiskAssessment(High, Reason("Delta-T {}°C — rapid evaporation, droplets won't reach target", [Fixed1(deltaT)]))
    else if deltaT < 2.0 then
      RiskAssessment(Moderate, Reason("Delta-T {}°C — too humid, slow drying", [Fixed1(deltaT)]))
    else if deltaT > 8.0 then
      RiskAssessment(Moderate, Reason("Delta-T {}°C — getting dry, watch for drift", [Fixed1(deltaT)]))
    else if windSpeedKmh > 12.0 then
      RiskAssessment(Moderate, Reason("Wind {} km/h approaching limit", [Number(Fin(windSpeedKmh))]))
    else
      RiskAssessment(Low, Lit("Conditions within ideal spray window"))
  }

  /** Bog risk from the last 24 hours of rain: above 20 mm HIGH, above 10 mm MODERATE, else LOW. */
  function FieldBogRisk(rainfall24hMm: real): (r: RiskAssessment)
    ensures r.risk == High <==> rainfall24hMm > 20.0
    ensures r.risk == Moderate <==> 10.0 < rainfall24hMm <= 20.0
    ensures r.risk == Low <==> rainfall24hMm <= 10.0
    ensures r.risk != Low ==> r.reason.args == [Number(Fin(rainfall24hMm))]
  {
    if rainfall24hMm > 20.0 then
      RiskAssessment(High, Reason("{}mm in 24h — paddocks will be boggy", [Number(Fin(rainfall24hMm))]))
    else if rainfall24hMm > 10.0 then
      RiskAssessment(Moderate, Reason("{}mm in 24h — soft patches likely", [Number(Fin(rainfall24hMm))]))
    else
      RiskAssessment(Low, Lit("Ground should be firm"))
  }

  /** More rain never lowers the bog risk. */
  lemma FieldBogRiskMonotone(rain1: real, rain2: real)
    requires rain1 <= rain2
    ensures RiskRank(FieldBogRisk(rain1).risk) <= RiskRank(FieldBogRisk(rain2).risk)
  {
  }

  // ---------------------------------------------------------------------
  // Unit conversions

  /** Knots to km/h, to one decimal. */
  function KtsToKmh(kts: real): (r: real)
    ensures kts * 1.852 - 0.05 < r <= kts * 1.852 + 0.05
    ensures (r * 10.0).Floor as real == r * 10.0
  {
    Round1(kts * 1.852)
  }

  /** km/h to knots, to one decimal. */
  function KmhToKts(kmh: real): (r: real)
    ensures kmh / 1.852 - 0.05 < r <= kmh / 1.852 + 0.05
    ensures (r * 10.0).Floor as real == r * 10.0
  {
    Round1(kmh / 1.852)
  }

  /** Metres to whole feet. */
  function MToFt(m: real): (r: int)
    ensures m * 3.28084 - 0.5 < r as real <= m * 3.28084 + 0.5
  {
    Round(m * 3.28084)
  }

  /** Feet to whole metres. */
  function FtToM(ft: real): (r: int)
    ensures ft / 3.28084 - 0.5 < r as real <= ft / 3.28084 + 0.5
  {
    Round(ft / 3.28084)
  }

  /** Converting knots to km/h and back loses less than 0.08 kt. */
  lemma KnotsRoundTrip(kts: real)
    ensures -0.08 < KmhToKts(KtsToKmh(kts)) - kts < 0.08
  {
    var kmh := KtsToKmh(kts);
    assert kmh / 1.852 - kts < 0.05 / 1.852 + 0.000001;
    assert kts - kmh / 1.852 < 0.05 / 1.852 + 0.000001;
  }

  /** Converting metres to feet and back loses less than 0.66 m. */
  lemma MetresRoundTrip(m: real)
    ensures -0.66 < FtToM(MToFt(m) as real) as real - m < 0.66
  {
    var ft := MToFt(m) as real;
    assert ft / 3.28084 - m <= 0.5 / 3.28084 + 0.000001;
    assert m - ft / 3.28084 < 0.5 / 3.28084 + 0.000001;
  }

  /** Both speed conversions preserve order. */
  lemma SpeedConversionsMonotone(a: real, b: real)
    requires a <= b
    ensures KtsToKmh(a) <= KtsToKmh(b)
    ensures KmhToKts(a) <= KmhToKts(b)
  {
    RoundMonotone(a * 1.852 * 10.0, b * 1.852 * 10.0);
    RoundMonotone(a / 1.852 * 10.0, b / 1.852 * 10.0);
  }
}
