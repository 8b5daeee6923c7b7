# Horse-in-the-sky decision engine, modelled in Dafny

This project models the Farm & Flight Command Centre decision engine, which turns weather conditions into GO / CAUTION / NO_GO verdicts. It covers four parts:

- The derivation library (`derive.ts`):
  - runway wind components and the best-runway pick;
  - cloud base, density altitude and gust factor;
  - the fog, spray-drift and bog risk cascades;
  - unit conversions.
- The flight evaluator (`rules.flight.ts`):
  - six three-tier checks (wind, visibility, ceiling, density altitude, fog, precipitation) folded into one overall verdict by "first NO_GO, else first CAUTION, else GO";
  - the no-runway branch;
  - the flight-window scan.
- The farm evaluator (`rules.farm.ts`):
  - spraying (wind, drift, rain, with the same worst-of fold);
  - field access;
  - hay;
  - the spray-window scan.
- The keyword classification of Bureau of Meteorology warning titles into a severity and a type, and the pick of the highest severity among active warnings (`bom.provider.ts`).

Files and modules:

- `numbers.dfy`, module `Numbers`:
  - JavaScript numbers as `Num`: a finite `real`, ±Infinity or NaN, with IEEE comparisons where every comparison with NaN is false;
  - `Math.round` (half up) and the rounding to one and two decimals.
- `decisions.dfy`, modules `Options` and `Decisions`:
  - verdicts and their severity rank;
  - reasons as a template plus the values filling its holes;
  - the shared worst-of aggregation `WorstOf`, specified by the predicate `OverallIsWorst`.
- `derive.dfy`, module `Derive`: the derivation library. Trigonometry is a parameter `Trig` holding sine and cosine in degrees.
- `windows.dfy`, module `Windows`: the window scan shared by flights and spraying.
  - `FindWindows` is a loop with an open window, as in the source.
  - It is proved against `Runs`, a recursive definition of the maximal runs of non-NO_GO slots.
  - The properties of the windows are lemmas about `Runs`.
- `flight.dfy`, module `FlightRules`: `assessFlight`, both as written and corrected (see Findings), plus `findFlightWindows`, also in both forms. `FindFlightWindowsAsWritten` scans with the as-written evaluator, as the source does. `FindFlightWindows` scans with the corrected one.
- `farm.dfy`, module `FarmRules`: `assessSpray`, `assessFieldAccess`, `assessHay` and `findSprayWindows`.
- `bom.dfy`, module `BomWarnings`: ASCII lower-casing, `includes`, `classifySeverity`, `classifyType` and the highest-severity selection.

Take a calm day: 5 kt wind straight down runway 17, 20/15 °C, visibility 10 km, no rain. The estimated cloud base is 2000 ft, which is below 1.5 times the 1500 ft minimum. So the ceiling check is CAUTION, and so is the overall verdict. `FlightRules.CalmDayIsCautionForCeiling` proves this.

## Model

All source paths below are relative to the repository root.

| member | source | states |
|---|---|---|
| Numbers.Abs | packages/decision-engine/src/derive.ts:37 | `Math.abs` on a JavaScript number: the magnitude of a finite value, +Infinity for either infinity, NaN stays NaN |
| Numbers.Round | packages/decision-engine/src/derive.ts:53 | `Math.round` lands within half a unit of its argument (ties go up) |
| Numbers.Round1 | packages/decision-engine/src/derive.ts:14 | rounding to one decimal lands within 0.05 of the value, on the 0.1 grid |
| Numbers.Round2 | packages/decision-engine/src/derive.ts:81 | rounding to two decimals lands within 0.005 of the value, on the 0.01 grid |
| Numbers.RoundMonotone | packages/decision-engine/src/derive.ts:53 | rounding never reverses the order of two values |
| Numbers.RoundOfInteger | packages/decision-engine/src/derive.ts:72 | rounding an integer gives it back |
| Numbers.FiniteComparisons | packages/decision-engine/src/rules.flight.ts:114-118 | on finite numbers, the JavaScript comparisons are the real ones |
| Numbers.NaNComparesFalse | packages/decision-engine/src/rules.flight.ts:114-118 | every `<`, `>` and `===` with NaN on either side is false |
| Numbers.InfinityExceedsFinite | packages/decision-engine/src/rules.flight.ts:118 | +Infinity exceeds every finite number and -Infinity is below it |
| Decisions.Matching | packages/decision-engine/src/rules.flight.ts:178 | `filter` by verdict: keeps only decisions with that verdict, is empty exactly when none has it, and starts with the first one that does |
| Decisions.WorstOf | packages/decision-engine/src/rules.flight.ts:174-185 | the overall decision is as severe as the worst sub-decision, carries the reason of the first sub-decision with its verdict, and is GO with the all-clear reason otherwise |
| Decisions.WorstIsFirstCaution | packages/decision-engine/src/rules.flight.ts:180-182 | with no NO_GO, the overall decision is the first CAUTION, reason included |
| Decisions.WorstIsGoIffAllGo | packages/decision-engine/src/rules.flight.ts:183-184 | the overall verdict is GO exactly when every sub-decision is GO |
| Decisions.NoGoDominates | packages/decision-engine/src/rules.flight.ts:177-179 | a single NO_GO sub-decision makes the overall verdict NO_GO |
| Decisions.OverallIsWorstUnique | packages/decision-engine/src/rules.farm.ts:95-105 | the worst-of specification pins down exactly one overall decision |
| Derive.RiskVerdict | packages/decision-engine/src/rules.flight.ts:155-162 | a HIGH / MODERATE / LOW risk becomes a verdict of the same severity rank |
| Derive.CrosswindComponent | packages/decision-engine/src/derive.ts:7-15 | the crosswind lies within 0.05 kt of speed × sin(wind − heading) and is a whole number of tenths |
| Derive.HeadwindComponent | packages/decision-engine/src/derive.ts:18-26 | the headwind lies within 0.05 kt of speed × cos(wind − heading) and is a whole number of tenths |
| Derive.CalmWindHasNoComponents | packages/decision-engine/src/derive.ts:12-25 | with no wind, both components are zero whatever the runway |
| Derive.RunwayCrosswind | packages/decision-engine/src/derive.ts:37 | the crosswind a runway is judged by is the runway's crosswind component or its negation, and never negative |
| Derive.PickBestIsBest | packages/decision-engine/src/derive.ts:29-43 | over a non-empty runway list, the pick is one of the runways with its own components; no runway has more headwind, or as much headwind and less crosswind; and every earlier runway with the same headwind has strictly more crosswind, so the first of equals wins |
| Derive.BestIsLast | packages/decision-engine/src/derive.ts:38-39 | a runway that beats the best so far becomes the best |
| Derive.BestIsKept | packages/decision-engine/src/derive.ts:38 | a runway that does not beat the best so far leaves it the best |
| Derive.CalmWindBestRunway | packages/decision-engine/src/derive.ts:34-41 | in calm air the chosen runway has zero headwind and zero crosswind |
| Derive.BestRunway | packages/decision-engine/src/derive.ts:29-43 | the loop returns the initial sentinel (empty id, −Infinity headwind, +Infinity crosswind) for no runways, and otherwise a best runway in the sense of `PickBestIsBest` |
| Derive.EstimateCloudBase | packages/decision-engine/src/derive.ts:50-54 | the cloud base is never negative, is 0 when the dewpoint is at or above the temperature, and is otherwise the spread × 400 ft, rounded |
| Derive.CloudBaseMonotone | packages/decision-engine/src/derive.ts:50-54 | a wider spread never lowers the cloud base |
| Derive.DensityAltitude | packages/decision-engine/src/derive.ts:63-73 | the density altitude is the pressure altitude plus 120 ft for each degree above ISA temperature at that altitude, rounded |
| Derive.DensityAltitudeStandardAtmosphere | packages/decision-engine/src/derive.ts:63-73 | at sea level at 15 °C and 1013.25 hPa the density altitude is 0 ft |
| Derive.DensityAltitudeMonotone | packages/decision-engine/src/derive.ts:63-73 | higher ground, a warmer day or a lower QNH never lowers the density altitude |
| Derive.GustFactor | packages/decision-engine/src/derive.ts:79-82 | with no wind, the gust factor is +Infinity if there are gusts and exactly 1 if not; otherwise it lies within 0.005 of gust/wind and is a whole number of hundredths |
| Derive.GustFactorIsOrdered | packages/decision-engine/src/derive.ts:79-82 | the gust factor is never NaN and never −Infinity |
| Derive.FogRisk | packages/decision-engine/src/derive.ts:90-95 | fog risk is HIGH iff the spread is < 2, MODERATE iff 2 ≤ spread < 4, and LOW iff spread ≥ 4 |
| Derive.FogRiskMonotone | packages/decision-engine/src/derive.ts:90-95 | a wider spread never raises the fog risk |
| Derive.SprayDriftRisk | packages/decision-engine/src/derive.ts:102-129 | drift risk is HIGH iff the wind is outside 3–15 km/h or delta-T > 10; LOW iff the wind is 3–12 km/h and delta-T is 2–8; MODERATE otherwise; in each branch of the cascade the reason is the source's template with the wind or delta-T filled in, and LOW carries the fixed ideal-window message |
| Derive.FieldBogRisk | packages/decision-engine/src/derive.ts:137-147 | bog risk is HIGH iff there was > 20 mm, MODERATE iff 10 < rain ≤ 20, and LOW otherwise; the reason quotes the rainfall |
| Derive.FieldBogRiskMonotone | packages/decision-engine/src/derive.ts:137-147 | more rain never lowers the bog risk |
| Derive.KtsToKmh | packages/decision-engine/src/derive.ts:150-152 | lies within 0.05 of knots × 1.852 and is a whole number of tenths |
| Derive.KmhToKts | packages/decision-engine/src/derive.ts:155-157 | lies within 0.05 of km/h ÷ 1.852 and is a whole number of tenths |
| Derive.MToFt | packages/decision-engine/src/derive.ts:160-162 | metres × 3.28084, rounded to a whole foot |
| Derive.FtToM | packages/decision-engine/src/derive.ts:165-167 | feet ÷ 3.28084, rounded to a whole metre |
| Derive.KnotsRoundTrip | packages/decision-engine/src/derive.ts:150-157 | knots to km/h and back is within 0.08 kt of the start |
| Derive.MetresRoundTrip | packages/decision-engine/src/derive.ts:160-167 | metres to feet and back is within 0.66 m of the start |
| Derive.SpeedConversionsMonotone | packages/decision-engine/src/derive.ts:150-157 | both speed conversions preserve order |
| Windows.Verdicts | packages/decision-engine/src/rules.flight.ts:229-230 | one verdict per slot: the verdict of that slot's assessment |
| Windows.Assessments | packages/decision-engine/src/rules.flight.ts:244-247 | one assessment per slot, in order |
| Windows.RunEnd | packages/decision-engine/src/rules.flight.ts:242-251 | a run starting at a non-NO_GO slot extends over non-NO_GO slots only, and stops before a NO_GO or at the end |
| Windows.FindWindows | packages/decision-engine/src/rules.flight.ts:221-265 | the scan emits exactly one window per maximal run of non-NO_GO slots, in order, each with its run's start and end times, its verdict and the summary of its run's assessments |
| Windows.WindowOfRunAt | packages/decision-engine/src/rules.flight.ts:234-239 | the k-th window spans the k-th run's times, and its summary is built from the run's assessments, starting with that of its first slot |
| Windows.RunsOfEmpty | packages/decision-engine/src/rules.flight.ts:225-264 | no slots give no windows |
| Windows.RunsAreMaximal | packages/decision-engine/src/rules.flight.ts:232-252 | every run holds only non-NO_GO slots and cannot be extended on either side |
| Windows.NoGoSlotIsInNoRun | packages/decision-engine/src/rules.flight.ts:232-241 | a window never spans a NO_GO slot |
| Windows.RunsAreOrdered | packages/decision-engine/src/rules.flight.ts:228-253 | windows come in time order and are separated by at least one NO_GO slot |
| Windows.RunsCoverEveryOpenSlot | packages/decision-engine/src/rules.flight.ts:242-252 | every non-NO_GO slot lies in some window |
| Windows.TrailingRunIsEmitted | packages/decision-engine/src/rules.flight.ts:255-262 | a window still open after the last slot is emitted and ends at the last slot |
| Windows.WindowVerdictIsCautionIffSomeSlotIs | packages/decision-engine/src/rules.flight.ts:244-250 | a window's verdict is GO or CAUTION, and is CAUTION exactly when one of its slots is |
| Windows.CautionSlotJoinsRun | packages/decision-engine/src/rules.flight.ts:248-250 | a CAUTION slot lies in a window whose verdict is CAUTION |
| FlightRules.WindDecision | packages/decision-engine/src/rules.flight.ts:112-122 | wind is NO_GO iff the crosswind or gusts exceed their limits or the tailwind exceeds its limit; CAUTION iff not NO_GO and the crosswind exceeds 75 % of its limit or the gust factor exceeds its limit |
| FlightRules.VisibilityDecision | packages/decision-engine/src/rules.flight.ts:124-132 | visibility is NO_GO below the minimum, CAUTION below 1.5 × the minimum, GO otherwise |
| FlightRules.CeilingDecision | packages/decision-engine/src/rules.flight.ts:134-142 | the ceiling is NO_GO below the minimum cloud base, CAUTION below 1.5 × the minimum, GO otherwise |
| FlightRules.DensityAltDecision | packages/decision-engine/src/rules.flight.ts:144-152 | density altitude is NO_GO above the maximum, CAUTION above 75 % of it, GO otherwise |
| FlightRules.FogDecision | packages/decision-engine/src/rules.flight.ts:154-162 | the fog verdict has the severity of the fog risk |
| FlightRules.PrecipitationDecision | packages/decision-engine/src/rules.flight.ts:164-172 | precipitation is NO_GO above 2 mm, CAUTION above 0 mm, GO otherwise |
| FlightRules.NoRunwayAssessment | packages/decision-engine/src/rules.flight.ts:79-102 | the no-runway result is consistent with the worst-of rule |
| FlightRules.Evaluate | packages/decision-engine/src/rules.flight.ts:107-202 | the overall decision is the worst of the six checks in the order wind, visibility, ceiling, density altitude, fog, precipitation |
| FlightRules.AssessFlightAsWritten | packages/decision-engine/src/rules.flight.ts:104-106 | the assessment as written, where the wind components are NaN; the overall decision is still the worst of the six checks, and the runway is the best runway (or UNKNOWN with none) |
| FlightRules.AssessFlight | packages/decision-engine/src/rules.flight.ts:75-203 | the overall decision is the worst of the six checks; the details are the derived cloud base, density altitude, gust factor and fog risk; with no runways, the runway is UNKNOWN with 0/0 and every decision is NO_GO "No runway data available"; otherwise the runway is the best one |
| FlightRules.OtherChecks | packages/decision-engine/src/rules.flight.ts:124-172 | visibility, ceiling, density altitude, fog and precipitation in `AssessFlight` follow their thresholds against the conditions and the derived values |
| FlightRules.WindRules | packages/decision-engine/src/rules.flight.ts:112-122 | in `AssessFlight` the wind check judges the best runway's finite, non-negative crosswind and its headwind against the limits |
| FlightRules.CalmGustIsCaution | packages/decision-engine/src/rules.flight.ts:118 | gusts in calm air (an infinite gust factor) within the gust limit make the wind CAUTION |
| FlightRules.AsWrittenWindIgnoresComponents | packages/decision-engine/src/rules.flight.ts:105-106 | as written, the wind check depends only on the gusts and the gust factor, never on crosswind or tailwind |
| FlightRules.CrosswindDayRunway | packages/decision-engine/src/derive.ts:29-43 | a 20 kt wind at 90° to runway 17 gives 0 kt headwind and 20 kt crosswind on it |
| FlightRules.CrosswindIgnoredAsWritten | packages/decision-engine/src/rules.flight.ts:104-122 | as written, that 20 kt crosswind is judged GO |
| FlightRules.CrosswindDayIsNoGo | packages/decision-engine/src/rules.flight.ts:112-115 | corrected, that 20 kt crosswind (limit 12 kt) is NO_GO, with the crosswind reason as the overall reason |
| FlightRules.CalmDayIsCautionForCeiling | packages/decision-engine/src/rules.flight.ts:134-142 | the calm day is CAUTION overall, with the reason "Cloud base ~2000ft — watch for lowering" |
| FlightRules.CalmDayWind | packages/decision-engine/src/rules.flight.ts:104-122 | on the calm day, runway 17 has 5 kt headwind and the wind check is GO |
| FlightRules.CalmDayWindDecision | packages/decision-engine/src/rules.flight.ts:112-122 | 0 kt crosswind, 5 kt headwind, 6 kt gusts and gust factor 1.2 are a GO wind |
| FlightRules.CalmDayOtherChecks | packages/decision-engine/src/rules.flight.ts:124-172 | on the calm day only the ceiling is CAUTION; the other checks are GO |
| FlightRules.CalmDayRunway | packages/decision-engine/src/derive.ts:29-43 | a 5 kt wind straight down runway 17 gives 5 kt headwind and no crosswind |
| FlightRules.CalmDayDetails | packages/decision-engine/src/derive.ts:50-95 | on the calm day the cloud base is 2000 ft, the density altitude is at most 2250 ft, the gust factor is 1.2 and the fog risk is LOW |
| FlightRules.FindFlightWindows | packages/decision-engine/src/rules.flight.ts:221-272 | one window per maximal run of flyable slots, in order, with the run's start and end, each naming the best runway of its first slot; the slots are judged by the corrected evaluator |
| FlightRules.FindFlightWindowsAsWritten | packages/decision-engine/src/rules.flight.ts:221-264 | the same scan as the source calls it, with the as-written evaluator: one window per maximal run of slots that evaluator does not call NO_GO, with start, end and first-slot runway |
| FlightRules.SummariseFlight | packages/decision-engine/src/rules.flight.ts:267-271 | the summary names the first assessment's runway and keeps every assessment's crosswind and gust factor, in order |
| FarmRules.SprayWindDecision | packages/decision-engine/src/rules.farm.ts:61-71 | wind is NO_GO above the maximum, with gusts above 1.3 × the maximum, or below the minimum; CAUTION above 0.8 × the maximum; GO otherwise |
| FarmRules.DriftDecision | packages/decision-engine/src/rules.farm.ts:73-81 | the drift verdict has the drift risk's severity and keeps the drift rule's reason |
| FarmRules.RainDecision | packages/decision-engine/src/rules.farm.ts:83-93 | rain is NO_GO above 0.5 mm now or above 5 mm forecast; CAUTION above 1 mm forecast; GO otherwise |
| FarmRules.AssessSpray | packages/decision-engine/src/rules.farm.ts:54-117 | the overall decision is the worst of wind, drift and rain with the spray all-clear reason; the details are delta-T and the drift risk; the drift decision carries the drift rule's reason |
| FarmRules.SprayGoExactly | packages/decision-engine/src/rules.farm.ts:63-104 | spraying is GO exactly when the wind is in the band, the gusts are within limit, the drift risk is LOW and no rain is falling or forecast beyond 1 mm |
| FarmRules.SprayGoIffPartsGo | packages/decision-engine/src/rules.farm.ts:95-105 | the spray verdict is GO exactly when all three checks are GO |
| FarmRules.SprayWindGo | packages/decision-engine/src/rules.farm.ts:63-71 | the wind check is GO exactly inside its band |
| FarmRules.SprayRainGo | packages/decision-engine/src/rules.farm.ts:85-93 | the rain check is GO exactly with ≤ 0.5 mm falling and ≤ 1 mm forecast |
| FarmRules.HighDriftIsNoGo | packages/decision-engine/src/rules.farm.ts:75-76 | a HIGH drift risk makes spraying NO_GO whatever the other checks say |
| FarmRules.SprayIgnoresDeltaTLimits | packages/decision-engine/src/rules.farm.ts:27-41 | the spray assessment does not depend on the delta-T limits or on the rain-free period |
| FarmRules.GoodSprayDay | packages/decision-engine/src/rules.farm.ts:54-117 | 8 km/h gusting 10 at 18/14 °C with no rain is GO with delta-T 4 and LOW drift |
| FarmRules.AssessFieldAccess | packages/decision-engine/src/rules.farm.ts:127-146 | field access is NO_GO iff > 20 mm fell in 24 h and CAUTION iff 10–20 mm did, with the bog rule's reason; otherwise it is GO "Ground firm — drive on"; the details are the rainfall and the bog risk |
| FarmRules.BoggyPaddocks | packages/decision-engine/src/rules.farm.ts:127-132 | after 25 mm the paddocks are NO_GO, with a reason quoting 25 mm |
| FarmRules.FieldAccessMonotone | packages/decision-engine/src/rules.farm.ts:127-137 | more rain never makes field access less severe |
| FarmRules.AssessHay | packages/decision-engine/src/rules.farm.ts:153-164 | hay is NO_GO iff it rains or > 2 mm is forecast; CAUTION iff not NO_GO and humidity > 70 % or > 0.5 mm forecast; the short reason names humidity first |
| FarmRules.FindSprayWindows | packages/decision-engine/src/rules.farm.ts:181-224 | one window per maximal run of sprayable slots, in order, with the run's start and end and the summary "Spray window start–end" |
| BomWarnings.Lower | apps/web/src/server/providers/bom.provider.ts:100 | `toLowerCase` keeps the length and lower-cases every character |
| BomWarnings.Includes | apps/web/src/server/providers/bom.provider.ts:101 | `includes` is true exactly when the keyword occurs at some position |
| BomWarnings.ClassifySeverity | apps/web/src/server/providers/bom.provider.ts:99-106 | the first matching group on the lower-cased title decides: EXTREME iff extreme/emergency; SEVERE iff severe/dangerous without those; MODERATE iff "warning" without any of them; UNKNOWN iff no keyword at all |
| BomWarnings.ClassifyType | apps/web/src/server/providers/bom.provider.ts:108-117 | the first matching group decides: STORM iff storm/thunder; FLOOD iff flood without those; FIRE iff fire/bushfire without those; WIND iff wind/gale without those; HEAT iff heat without any earlier keyword; FROST iff frost without any earlier keyword; OTHER iff no keyword at all |
| BomWarnings.LowerIdempotent | apps/web/src/server/providers/bom.provider.ts:100 | lower-casing twice is lower-casing once |
| BomWarnings.LowerOfUpper | apps/web/src/server/providers/bom.provider.ts:100 | upper-casing does not change the lower-cased form |
| BomWarnings.LowerConcat | apps/web/src/server/providers/bom.provider.ts:100 | lower-casing distributes over concatenation |
| BomWarnings.ClassificationIgnoresCase | apps/web/src/server/providers/bom.provider.ts:99-117 | lower- or upper-casing a title changes neither its severity nor its type |
| BomWarnings.KeywordFound | apps/web/src/server/providers/bom.provider.ts:100-101 | a keyword in any letter case, anywhere in a title, is found |
| BomWarnings.ExtremeKeywordWins | apps/web/src/server/providers/bom.provider.ts:101 | a title containing "extreme" or "emergency" in any case is EXTREME, whatever else it says |
| BomWarnings.StormKeywordWins | apps/web/src/server/providers/bom.provider.ts:110 | a title containing "storm" or "thunder" in any case is a STORM, whatever else it says |
| BomWarnings.StormWindIsStorm | apps/web/src/server/providers/bom.provider.ts:110-113 | "storm wind" is a STORM, not WIND |
| BomWarnings.SevereOutranksWarning | apps/web/src/server/providers/bom.provider.ts:101-103 | a title with "severe" in any case and no "extreme"/"emergency" is SEVERE even if it also says "warning" |
| BomWarnings.FirstPresent | apps/web/src/server/providers/bom.provider.ts:35 | `find` over the severity order returns the first severity some warning carries, or nothing if none does |
| BomWarnings.HighestSeverity | apps/web/src/server/providers/bom.provider.ts:33-36 | the result is null iff there are no active warnings; otherwise some warning carries it and none carries a more severe one |
| BomWarnings.HighestSeverityIgnoresOrder | apps/web/src/server/providers/bom.provider.ts:33-36 | reordering the active warnings does not change the highest severity |

## Left out

- Trigonometry: `Math.sin`/`Math.cos` of degrees are a parameter `Trig` and are left uninterpreted. The scenario lemmas assume only sin/cos of 0° and 90°.
- Floating point:
  - numbers are exact reals, so IEEE rounding error inside the arithmetic is not modelled;
  - ±Infinity and NaN are modelled only where the source can produce them (gust factor, runway sentinel, missing heading).
- Number-to-string and `toFixed(1)` in reason texts: a reason is its template plus the values that fill it, and the rendering of those values is not modelled.
- FlightRules.SummariseFlight: the flight window summary keeps the first runway id and the crosswinds and gust factors it is built from. The averaging, `Math.max` and text rendering are not modelled.
- FlightRules.SummariseFlight: its empty-run result (id "") is never used, because the scan always passes at least one assessment.
- FarmRules.FindSprayWindows: the generic scan also collects each window's assessments, which the source's spray scan does not keep. The emitted windows are the same.
- SprayLimits.maxDeltaT, minDeltaT and rainFreeHours are carried but read by no rule, as in the source. `SprayIgnoresDeltaTLimits` states this.
- FarmConditions.cloudCoverPct is carried but read by no rule.
- BomWarnings.Lower: `toLowerCase` is modelled on ASCII letters only; Unicode case mapping is not modelled.
- The following parts of bom.provider.ts are not modelled:
  - the network fetch, its error handling and `fetchedAt`;
  - the `Date`-based expiry filter (the active warnings are an input);
  - RSS/CDATA parsing with regular expressions (`parseRssWarnings`, `extractTag`, `extractAreas`);
  - the radar URLs.
- Other data providers, API routes, the UI, timers and local storage are outside the decision engine.

## Findings

| source | as written | input that shows it | evidently intended | confidence | as-written member | corrected member |
|---|---|---|---|---|---|---|
| packages/decision-engine/src/rules.flight.ts:104-106 | The crosswind and headwind are recomputed from `rwy.heading_deg`, but the best-runway record carries only id, headwind and crosswind. The heading is undefined, so both components are NaN, and the crosswind and tailwind limits never trigger. | 20 kt wind from 260° on runway 17 (heading 170°), 6 kt gusts, default limits: a 20 kt direct crosswind against a 12 kt limit is judged GO | use the best runway's own `crosswind` and `headwind`, so that this case is NO_GO "Crosswind 20kt / gusts 6kt exceed limits" | high; not executed | FlightRules.CrosswindIgnoredAsWritten | FlightRules.CrosswindDayIsNoGo |
