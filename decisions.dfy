/** An optional value: JavaScript's `T | null`. */
module Options {
  datatype Option<T> = None | Some(value: T)
}

/**
 * The engine's output unit: a verdict with a reason, and the "worst of"
 * aggregation that both the flight and the spray evaluator use to fold
 * their sub-decisions into one overall decision.
 */
module Decisions {
  import opened Numbers

  datatype Verdict = Go | Caution | NoGo

  /** Severity order: NO_GO > CAUTION > GO. */
  function Rank(v: Verdict): nat
  {
    match v
    case Go => 0
    case Caution => 1
    case NoGo => 2
  }

  /**
   * A value interpolated into a reason template: a number (rendered with
   * JavaScript's number-to-string), a number rendered with `toFixed(1)`,
   * or a piece of text.
   */
  datatype Arg = Number(n: Num) | Fixed1(x: real) | Text(s: string)

  /**
   * A human-readable reason: the template literal of the source with each
   * `${...}` hole written `{}`, and the values that fill the holes in order.
   * A fixed message has no holes and no arguments.
   */
  datatype Reason = Reason(template: string, args: seq<Arg>)

  function Lit(text: string): Reason
  {
    Reason(text, [])
  }

  datatype Decision = Decision(verdict: Verdict, reason: Reason)

  /** `i` is the position of the first decision in `ds` whose verdict is `v`. */
  predicate IsFirst(ds: seq<Decision>, v: Verdict, i: int)
  {
    0 <= i < |ds| && ds[i].verdict == v && forall j :: 0 <= j < i ==> ds[j].verdict != v
  }

  /** `ds.filter(d => d.verdict === v)`. */
  function Matching(ds: seq<Decision>, v: Verdict): (r: seq<Decision>)
    ensures forall d :: d in r ==> d in ds && d.verdict == v
    ensures |r| == 0 <==> forall i :: 0 <= i < |ds| ==> ds[i].verdict != v
    ensures |r| > 0 ==> exists i :: IsFirst(ds, v, i) && r[0] == ds[i]
  {
    if |ds| == 0 then []
    else
      var rest := Matching(ds[1..], v);
      if ds[0].verdict == v then
        assert IsFirst(ds, v, 0);
        [ds[0]] + rest
      else
        assert |rest| > 0 ==> exists i :: IsFirst(ds, v, i) && rest[0] == ds[i] by {
          if |rest| > 0 {
            var i :| IsFirst(ds[1..], v, i) && rest[0] == ds[1..][i];
            assert IsFirst(ds, v, i + 1);
          }
        }
        assert forall i :: 1 <= i < |ds| ==> ds[i].verdict == ds[1..][i - 1].verdict;
        rest
  }

  /**
   * What an overall decision must be with respect to its sub-decisions
   * `ds`: no sub-decision is more severe than it; if it is not GO, it is the
   * verdict and reason of the first sub-decision carrying that verdict; if it
   * is GO, its reason is the fixed all-clear message.
   */
  ghost predicate OverallIsWorst(overall: Decision, ds: seq<Decision>, allClear: Reason)
  {
    && (forall i :: 0 <= i < |ds| ==> Rank(ds[i].verdict) <= Rank(overall.verdict))
    && (overall.verdict != Go ==>
          exists i :: IsFirst(ds, overall.verdict, i) && overall.reason == ds[i].reason)
    && (overall.verdict == Go ==> overall.reason == allClear)
  }

  /**
   * The shared aggregation: the first NO_GO reason if any sub-decision is
   * NO_GO, else the first CAUTION reason if any is CAUTION, else GO with
   * the all-clear message.
   */
  function WorstOf(ds: seq<Decision>, allClear: Reason): (r: Decision)
    ensures OverallIsWorst(r, ds, allClear)
  {
    var noGo := Matching(ds, NoGo);
    if |noGo| > 0 then
      Decision(NoGo, noGo[0].reason)
    else
      var caution := Matching(ds, Caution);
      if |caution| > 0 then Decision(Caution, caution[0].reason)
      else Decision(Go, allClear)
  }

  /** With no NO_GO sub-decision and a first CAUTION at `i`, the overall decision is that CAUTION. */
  lemma WorstIsFirstCaution(overall: Decision, ds: seq<Decision>, allClear: Reason, i: int)
    requires OverallIsWorst(overall, ds, allClear)
    requires forall j :: 0 <= j < |ds| ==> ds[j].verdict != NoGo
    requires IsFirst(ds, Caution, i)
    ensures overall == Decision(Caution, ds[i].reason)
  {
    assert Rank(ds[i].verdict) <= Rank(overall.verdict);
    assert overall.verdict == Caution;
    var m :| IsFirst(ds, Caution, m) && overall.reason == ds[m].reason;
    assert m == i;
  }

  /** The overall decision is GO exactly when every sub-decision is GO. */
  lemma WorstIsGoIffAllGo(overall: Decision, ds: seq<Decision>, allClear: Reason)
    requires OverallIsWorst(overall, ds, allClear)
    ensures overall.verdict == Go <==> forall j :: 0 <= j < |ds| ==> ds[j].verdict == Go
  {
    if overall.verdict != Go {
      var i :| IsFirst(ds, overall.verdict, i) && overall.reason == ds[i].reason;
    }
  }

  /** One NO_GO sub-decision makes the overall decision NO_GO. */
  lemma NoGoDominates(overall: Decision, ds: seq<Decision>, allClear: Reason, i: int)
    requires OverallIsWorst(overall, ds, allClear)
    requires 0 <= i < |ds| && ds[i].verdict == NoGo
    ensures overall.verdict == NoGo
  {
    assert Rank(ds[i].verdict) <= Rank(overall.verdict);
  }

  /** The overall decision is fully determined by `OverallIsWorst`. */
  lemma OverallIsWorstUnique(a: Decision, b: Decision, ds: seq<Decision>, allClear: Reason)
    requires OverallIsWorst(a, ds, allClear) && OverallIsWorst(b, ds, allClear)
    ensures a == b
  {
    if a.verdict != Go {
      var i :| IsFirst(ds, a.verdict, i) && a.reason == ds[i].reason;
      assert Rank(a.verdict) <= Rank(b.verdict);
    }
    if b.verdict != Go {
      var j :| IsFirst(ds, b.verdict, j) && b.reason == ds[j].reason;
      assert Rank(b.verdict) <= Rank(a.verdict);
    }
    assert a.verdict == b.verdict;
    if a.verdict != Go {
      var i :| IsFirst(ds, a.verdict, i) && a.reason == ds[i].reason;
      var j :| IsFirst(ds, b.verdict, j) && b.reason == ds[j].reason;
      assert i == j;
    }
  }
}
