/**
 * The pure part of the Bureau of Meteorology warnings provider
 * (apps/web/src/server/providers/bom.provider.ts): keyword classification of
 * a warning title into a severity and a type, and the pick of the highest
 * severity among the active warnings.
 */
module BomWarnings {
  import opened Options

  datatype Severity = Extreme | Severe | Moderate | Minor | Unknown

  datatype WarningType = Storm | Flood | Fire | Wind | Heat | Frost | Other

  /** A normalised warning; `kind` is the source's `type` field. */
  datatype Warning = Warning(
    id: string,
    severity: Severity,
    kind: WarningType,
    headline: string,
    description: string,
    areas: seq<string>,
    issued: string,
    expires: string,
    source: string)

  // ---------------------------------------------------------------------
  // Lower-casing and substring search

  /** `toLowerCase` on one character, ASCII letters only. */
  function LowerChar(ch: char): char
  {
    if 'A' <= ch <= 'Z' then (ch as int - 'A' as int + 'a' as int) as char else ch
  }

  /** `toUpperCase` on one character, ASCII letters only. */
  function UpperChar(ch: char): char
  {
    if 'a' <= ch <= 'z' then (ch as int - 'a' as int + 'A' as int) as char else ch
  }

  function Lower(s: string): (r: string)
    ensures |r| == |s| && forall i :: 0 <= i < |s| ==> r[i] == LowerChar(s[i])
  {
    seq(|s|, i requires 0 <= i < |s| => LowerChar(s[i]))
  }

  function Upper(s: string): (r: string)
    ensures |r| == |s| && forall i :: 0 <= i < |s| ==> r[i] == UpperChar(s[i])
  {
    seq(|s|, i requires 0 <= i < |s| => UpperChar(s[i]))
  }

  /** `needle` occurs in `t` starting at position `i`. */
  predicate OccursAt(t: string, needle: string, i: int)
  {
    0 <= i && i + |needle| <= |t| && t[i..i + |needle|] == needle
  }

  /** `String.prototype.includes`: `needle` occurs somewhere in `t`. */
  function Includes(t: string, needle: string): (b: bool)
    ensures b <==> exists i :: OccursAt(t, needle, i)
    decreases |t|
  {
    if |t| < |needle| then
      assert forall i :: !OccursAt(t, needle, i);
      false
    else if t[..|needle|] == needle then
      assert OccursAt(t, needle, 0);
      true
    else
      var rest := Includes(t[1..], needle);
      assert forall i :: OccursAt(t[1..], needle, i) <==> OccursAt(t, needle, i + 1) by {
        forall i
          ensures OccursAt(t[1..], needle, i) <==> OccursAt(t, needle, i + 1)
        {
          if 0 <= i && i + 1 + |needle| <= |t| {
            assert t[1..][i..i + |needle|] == t[i + 1..i + 1 + |needle|];
          }
        }
      }
      assert rest <==> exists i :: OccursAt(t, needle, i) by {
        if exists i :: OccursAt(t, needle, i) {
          var i :| OccursAt(t, needle, i);
          assert i != 0;
          assert OccursAt(t[1..], needle, i - 1);
        }
      }
      rest
  }

  // ---------------------------------------------------------------------
  // Classification

  /**
   * `classifySeverity`: the first matching keyword group on the lower-cased
   * title wins — extreme/emergency, then severe/dangerous, then warning,
   * then watch/advisory; no keyword gives UNKNOWN.
   */
  function ClassifySeverity(title: string): (s: Severity)
    ensures var t := Lower(title);
      && (s == Extreme <==> Includes(t, "extreme") || Includes(t, "emergency"))
      && (s == Severe <==>
            !(Includes(t, "extreme") || Includes(t, "emergency")) &&
            (Includes(t, "severe") || Includes(t, "dangerous")))
      && (s == Moderate <==>
            !(Includes(t, "extreme") || Includes(t, "emergency")) &&
            !(Includes(t, "severe") || Includes(t, "dangerous")) &&
            Includes(t, "warning"))
      && (s == Unknown <==>
            !Includes(t, "extreme") && !Includes(t, "emergency") && !Includes(t, "severe") &&
            !Includes(t, "dangerous") && !Includes(t, "warning") && !Includes(t, "watch") &&
            !Includes(t, "advisory"))
  {
    var t := Lower(title);
    if Includes(t, "extreme") || Includes(t, "emergency") then Extreme
    else if Includes(t, "severe") || Includes(t, "dangerous") then Severe
    else if Includes(t, "warning") then Moderate
    else if Includes(t, "watch") || Includes(t, "advisory") then Minor
    else Unknown
  }

  /**
   * `classifyType`: the first matching keyword group on the lower-cased title
   * wins — storm/thunder, flood, fire/bushfire, wind/gale, heat, frost; no
   * keyword gives OTHER.
   */
  function ClassifyType(title: string): (k: WarningType)
    ensures var t := Lower(title);
      && (k == Storm <==> Includes(t, "storm") || Includes(t, "thunder"))
      && (k == Flood <==> !Includes(t, "storm") && !Includes(t, "thunder") && Includes(t, "flood"))
      && (k == Fire <==>
            !Includes(t, "storm") && !Includes(t, "thunder") && !Includes(t, "flood") &&
            (Includes(t, "fire") || Includes(t, "bushfire")))
      && (k == Wind <==>
            !Includes(t, "storm") && !Includes(t, "thunder") && !Includes(t, "flood") &&
            !Includes(t, "fire") && !Includes(t, "bushfire") && (Includes(t, "wind") || Includes(t, "gale")))
      && (k == Heat <==>
            !Includes(t, "storm") && !Includes(t, "thunder") && !Includes(t, "flood") &&
            !Includes(t, "fire") && !Includes(t, "bushfire") && !Includes(t, "wind") && !Includes(t, "gale") &&
            Includes(t, "heat"))
      && (k == Frost <==>
            !Includes(t, "storm") && !Includes(t, "thunder") && !Includes(t, "flood") &&
            !Includes(t, "fire") && !Includes(t, "bushfire") && !Includes(t, "wind") && !Includes(t, "gale") &&
            !Includes(t, "heat") && Includes(t, "frost"))
      && (k == Other <==>
            !Includes(t, "storm") && !Includes(t, "thunder") && !Includes(t, "flood") &&
            !Includes(t, "fire") && !Includes(t, "bushfire") && !Includes(t, "wind") && !Includes(t, "gale") &&
            !Includes(t, "heat") && !Includes(t, "frost"))
  {
    var t := Lower(title);
    if Includes(t, "storm") || Includes(t, "thunder") then Storm
    else if Includes(t, "flood") then Flood
    else if Includes(t, "fire") || Includes(t, "bushfire") then Fire
    else if Includes(t, "wind") || Includes(t, "gale") then Wind
    else if Includes(t, "heat") then Heat
    else if Includes(t, "frost") then Frost
    else Other
  }

  /** Lower-casing a lower-cased string changes nothing. */
  lemma {:induction false} LowerIdempotent(s: string)
    ensures Lower(Lower(s)) == Lower(s)
  {
    forall i | 0 <= i < |s|
      ensures Lower(Lower(s))[i] == Lower(s)[i]
    {
      var ch := s[i];
      assert LowerChar(LowerChar(ch)) == LowerChar(ch);
    }
  }

  /** Upper-casing a string does not change its lower-cased form. */
  lemma {:induction false} LowerOfUpper(s: string)
    ensures Lower(Upper(s)) == Lower(s)
  {
    forall i | 0 <= i < |s|
      ensures Lower(Upper(s))[i] == Lower(s)[i]
    {
      var ch := s[i];
      assert LowerChar(UpperChar(ch)) == LowerChar(ch);
    }
  }

  /** Lower-casing distributes over concatenation. */
  lemma {:induction false} LowerConcat(a: string, b: string)
    ensures Lower(a + b) == Lower(a) + Lower(b)
  {
    forall i | 0 <= i < |a| + |b|
      ensures Lower(a + b)[i] == (Lower(a) + Lower(b))[i]
    {
      if i < |a| {
        assert (a + b)[i] == a[i];
      } else {
        assert (a + b)[i] == b[i - |a|];
      }
    }
  }

  /** Both classifications ignore the letter case of the title. */
  lemma ClassificationIgnoresCase(title: string)
    ensures ClassifySeverity(Lower(title)) == ClassifySeverity(title)
    ensures ClassifySeverity(Upper(title)) == ClassifySeverity(title)
    ensures ClassifyType(Lower(title)) == ClassifyType(title)
    ensures ClassifyType(Upper(title)) == ClassifyType(title)
  {
    LowerIdempotent(title);
    LowerOfUpper(title);
  }

  /** A keyword written in any letter case, anywhere in a title, is found by the lower-cased search. */
  lemma {:induction false} KeywordFound(a: string, keyword: string, b: string)
    ensures Includes(Lower(a + keyword + b), Lower(keyword))
  {
    LowerConcat(a + keyword, b);
    LowerConcat(a, keyword);
    var t := Lower(a + keyword + b);
    assert t == Lower(a) + Lower(keyword) + Lower(b);
    assert t[|a|..|a| + |keyword|] == Lower(keyword);
    assert OccursAt(t, Lower(keyword), |a|);
  }

  /** "extreme" or "emergency", in any case and whatever else the title says, makes a warning EXTREME. */
  lemma ExtremeKeywordWins(a: string, keyword: string, b: string)
    requires Lower(keyword) == "extreme" || Lower(keyword) == "emergency"
    ensures ClassifySeverity(a + keyword + b) == Extreme
  {
    KeywordFound(a, keyword, b);
  }

  /** "storm" or "thunder", in any case and whatever else the title says, makes a warning a STORM. */
  lemma StormKeywordWins(a: string, keyword: string, b: string)
    requires Lower(keyword) == "storm" || Lower(keyword) == "thunder"
    ensures ClassifyType(a + keyword + b) == Storm
  {
    KeywordFound(a, keyword, b);
  }

  /** A title naming both a storm and wind is a STORM warning. */
  lemma StormWindIsStorm()
    ensures ClassifyType("storm wind") == Storm
  {
    StormKeywordWins("", "storm", " wind");
    assert "" + "storm" + " wind" == "storm wind";
  }

  /**
   * "severe" outranks "warning": a title with the word "severe" in any case,
   * and neither "extreme" nor "emergency", is SEVERE whatever else it says.
   */
  lemma SevereOutranksWarning(a: string, keyword: string, b: string)
    requires Lower(keyword) == "severe"
    requires !Includes(Lower(a + keyword + b), "extreme") && !Includes(Lower(a + keyword + b), "emergency")
    ensures ClassifySeverity(a + keyword + b) == Severe
  {
    KeywordFound(a, keyword, b);
  }

  // ---------------------------------------------------------------------
  // Highest severity

  /** The order the provider scans, most severe first. */
  const SEVERITY_ORDER: seq<Severity> := [Extreme, Severe, Moderate, Minor, Unknown]

  /** Severity as a number: EXTREME > SEVERE > MODERATE > MINOR > UNKNOWN. */
  function SeverityRank(s: Severity): nat
  {
    match s
    case Extreme => 4
    case Severe => 3
    case Moderate => 2
    case Minor => 1
    case Unknown => 0
  }

  /** `active.some(w => w.severity === s)`. */
  predicate AnyHasSeverity(active: seq<Warning>, s: Severity)
  {
    exists w :: w in active && w.severity == s
  }

  /** `order.find(s => active.some(...))`: the first severity of `order` some warning carries. */
  function FirstPresent(order: seq<Severity>, active: seq<Warning>): (r: Option<Severity>)
    ensures r.None? <==> forall j :: 0 <= j < |order| ==> !AnyHasSeverity(active, order[j])
    ensures r.Some? ==>
      exists k :: && 0 <= k < |order| && order[k] == r.value && AnyHasSeverity(active, r.value)
                  && forall j :: 0 <= j < k ==> !AnyHasSeverity(active, order[j])
  {
    if |order| == 0 then None
    else if AnyHasSeverity(active, order[0]) then Some(order[0])
    else
      var r := FirstPresent(order[1..], active);
      assert r.None? <==> forall j :: 0 <= j < |order| ==> !AnyHasSeverity(active, order[j]) by {
        assert forall j :: 1 <= j < |order| ==> order[j] == order[1..][j - 1];
      }
      assert r.Some? ==>
        exists k :: && 0 <= k < |order| && order[k] == r.value && AnyHasSeverity(active, r.value)
                    && forall j :: 0 <= j < k ==> !AnyHasSeverity(active, order[j]) by {
        if r.Some? {
          var k :| && 0 <= k < |order[1..]| && order[1..][k] == r.value && AnyHasSeverity(active, r.value)
                   && forall j :: 0 <= j < k ==> !AnyHasSeverity(active, order[1..][j]);
          forall j | 0 <= j < k + 1 ensures !AnyHasSeverity(active, order[j]) {
            if j > 0 {
              assert order[j] == order[1..][j - 1];
            }
          }
          assert order[k + 1] == r.value;
        }
      }
      r
  }

  /**
   * The highest severity among the active warnings: none exactly when there
   * are no active warnings; otherwise a severity some warning carries, and
   * no warning carries a more severe one.
   */
  function HighestSeverity(active: seq<Warning>): (r: Option<Severity>)
    ensures r.None? <==> |active| == 0
    ensures r.Some? ==>
      && (exists w :: w in active && w.severity == r.value)
      && forall w :: w in active ==> SeverityRank(w.severity) <= SeverityRank(r.value)
  {
    if |active| > 0 then
      var r := FirstPresent(SEVERITY_ORDER, active);
      assert AnyHasSeverity(active, active[0].severity);
      assert active[0].severity == SEVERITY_ORDER[4 - SeverityRank(active[0].severity)];
      assert r.Some? ==> forall w :: w in active ==> SeverityRank(w.severity) <= SeverityRank(r.value) by {
        if r.Some? {
          var k :| && 0 <= k < |SEVERITY_ORDER| && SEVERITY_ORDER[k] == r.value && AnyHasSeverity(active, r.value)
                   && forall j :: 0 <= j < k ==> !AnyHasSeverity(active, SEVERITY_ORDER[j]);
          assert SeverityRank(r.value) == 4 - k;
          forall w | w in active
            ensures SeverityRank(w.severity) <= SeverityRank(r.value)
          {
            var j := 4 - SeverityRank(w.severity);
            assert SEVERITY_ORDER[j] == w.severity;
            assert AnyHasSeverity(active, SEVERITY_ORDER[j]);
          }
        }
      }
      r
    else
      None
  }

  /** The highest severity is the most severe one present, so it never depends on the order of the warnings. */
  lemma HighestSeverityIgnoresOrder(active: seq<Warning>, other: seq<Warning>)
    requires multiset(active) == multiset(other)
    ensures HighestSeverity(active) == HighestSeverity(other)
  {
    var r1 := HighestSeverity(active);
    var r2 := HighestSeverity(other);
    assert forall w :: w in active <==> w in other by {
      forall w ensures w in active <==> w in other {
        assert w in active <==> w in multiset(active);
        assert w in other <==> w in multiset(other);
      }
    }
    assert |active| == |multiset(active)| == |multiset(other)| == |other|;
    if r1.Some? {
      assert SeverityRank(r1.value) == SeverityRank(r2.value);
    }
  }
}
