/**
 * The window finder shared by the flight and spray forecasts
 * (`findFlightWindows`, `findSprayWindows`): one left-to-right scan over
 * hourly slots that merges each maximal run of consecutive non-NO_GO slots
 * into one window.
 *
 * The scan is generic over the slot's conditions `C`, the evaluator's
 * assessment `A` and the window summary `S`. `Runs` is an independent
 * reference definition (maximal munch from the left); the scan is proved to
 * produce exactly one window per run, and the lemmas below characterise the
 * runs.
 */
module Windows {
  import opened Options
  import opened Decisions

  datatype Slot<C> = Slot(time: string, conditions: C)

  datatype Window<S> = Window(start: string, end: string, verdict: Verdict, summary: S)

  /** A run of slots, from index `lo` to index `hi`, both included. */
  datatype Run = Run(lo: nat, hi: nat)

  /** The window being grown by the scan. */
  datatype OpenWindow<A> = OpenWindow(start: string, end: string, verdict: Verdict, assessments: seq<A>)

  /** The verdict of every slot, in order. */
  function Verdicts<C, A>(slots: seq<Slot<C>>, assess: C -> A, verdictOf: A -> Verdict): (vs: seq<Verdict>)
    ensures |vs| == |slots|
    ensures forall i :: 0 <= i < |slots| ==> vs[i] == verdictOf(assess(slots[i].conditions))
  {
    if |slots| == 0 then []
    else Verdicts(slots[..|slots| - 1], assess, verdictOf) + [verdictOf(assess(slots[|slots| - 1].conditions))]
  }

  /** The assessment of every slot of `slots`, in order. */
  function Assessments<C, A>(slots: seq<Slot<C>>, assess: C -> A): (r: seq<A>)
    ensures |r| == |slots|
    ensures forall i :: 0 <= i < |slots| ==> r[i] == assess(slots[i].conditions)
  {
    if |slots| == 0 then []
    else Assessments(slots[..|slots| - 1], assess) + [assess(slots[|slots| - 1].conditions)]
  }

  /** The last index of the stretch of non-NO_GO verdicts that starts at `i`. */
  function RunEnd(vs: seq<Verdict>, i: nat): (r: nat)
    requires i < |vs| && vs[i] != NoGo
    ensures i <= r < |vs|
    ensures forall j :: i <= j <= r ==> vs[j] != NoGo
    ensures r + 1 == |vs| || vs[r + 1] == NoGo
    decreases |vs| - i
  {
    if i + 1 < |vs| && vs[i + 1] != NoGo then RunEnd(vs, i + 1) else i
  }

  /**
   * The maximal runs of non-NO_GO verdicts in `vs[from..]`, left to right:
   * skip NO_GO slots, and from each other slot take the longest stretch that
   * contains no NO_GO.
   */
  function Runs(vs: seq<Verdict>, from: nat): (r: seq<Run>)
    requires from <= |vs|
    decreases |vs| - from
  {
    if from == |vs| then []
    else if vs[from] == NoGo then Runs(vs, from + 1)
    else
      var hi := RunEnd(vs, from);
      [Run(from, hi)] + Runs(vs, hi + 1)
  }

  /** GO when every verdict of a (non-NO_GO) run is GO, CAUTION as soon as one is CAUTION. */
  function RunVerdict(vs: seq<Verdict>): Verdict
  {
    if Caution in vs then Caution else Go
  }

  /** The window a run stands for: its first and last slot times, its verdict and its summary. */
  function WindowOf<C, A, S>(slots: seq<Slot<C>>, run: Run, assess: C -> A, verdictOf: A -> Verdict,
                             summarise: (string, string, seq<A>) -> S): Window<S>
    requires run.lo <= run.hi < |slots|
  {
    var start := slots[run.lo].time;
    var end := slots[run.hi].time;
    Window(start, end, RunVerdict(Verdicts(slots, assess, verdictOf)[run.lo..run.hi + 1]),
           summarise(start, end, Assessments(slots[run.lo..run.hi + 1], assess)))
  }

  /** `windows` holds, in order, the window of every run in `runs`. */
  ghost predicate WindowsOfRuns<C, A, S>(windows: seq<Window<S>>, slots: seq<Slot<C>>, runs: seq<Run>,
                                         assess: C -> A, verdictOf: A -> Verdict,
                                         summarise: (string, string, seq<A>) -> S)
  {
    && |windows| == |runs|
    && forall k :: 0 <= k < |runs| ==>
         runs[k].lo <= runs[k].hi < |slots| &&
         windows[k] == WindowOf(slots, runs[k], assess, verdictOf, summarise)
  }

  // ---------------------------------------------------------------------
  // The scan

  /** `w` is the open window of the run from slot `lo` up to slot `i - 1`. */
  ghost predicate OpenIs<C, A>(w: OpenWindow<A>, slots: seq<Slot<C>>, lo: nat, i: nat,
                               assess: C -> A, verdictOf: A -> Verdict)
  {
    && lo < i <= |slots|
    && w.start == slots[lo].time
    && w.end == slots[i - 1].time
    && w.verdict == RunVerdict(Verdicts(slots, assess, verdictOf)[lo..i])
    && w.assessments == Assessments(slots[lo..i], assess)
  }

  /**
   * How the runs of `vs` split at slot `i` during the scan: the runs already
   * closed, then the runs from the open window's first slot `lo` (when a
   * window is open) or from `i` (when none is).
   */
  ghost predicate RunsSplit(vs: seq<Verdict>, closed: seq<Run>, open: bool, lo: nat, i: nat)
    requires i <= |vs|
  {
    if open then
      && lo < i
      && (forall j :: lo <= j < i ==> vs[j] != NoGo)
      && Runs(vs, 0) == closed + Runs(vs, lo)
    else
      Runs(vs, 0) == closed + Runs(vs, i)
  }

  /**
   * The scan of the source: a NO_GO slot closes and emits the open window;
   * any other slot opens a window or extends the open one, whose verdict
   * rises from GO to CAUTION at a CAUTION slot and never falls back; a window
   * still open at the end is emitted.
   */
  method FindWindows<C, A, S>(slots: seq<Slot<C>>, assess: C -> A, verdictOf: A -> Verdict,
                              summarise: (string, string, seq<A>) -> S)
    returns (windows: seq<Window<S>>)
    ensures WindowsOfRuns(windows, slots, Runs(Verdicts(slots, assess, verdictOf), 0), assess, verdictOf, summarise)
  {
    ghost var vs := Verdicts(slots, assess, verdictOf);
    ghost var closed: seq<Run> := [];
    ghost var lo: nat := 0;
    windows := [];
    var current: Option<OpenWindow<A>> := None;

    for i := 0 to |slots|
      invariant WindowsOfRuns(windows, slots, closed, assess, verdictOf, summarise)
      invariant RunsSplit(vs, closed, current.Some?, lo, i)
      invariant current.Some? ==> OpenIs(current.value, slots, lo, i, assess, verdictOf)
    {
      var assessment := assess(slots[i].conditions);
      var v := verdictOf(assessment);
      assert vs[i] == v;

      if v == NoGo {
        if current.Some? {
          var w := current.value;
          SplitAtClosingNoGo(vs, closed, lo, i);
          EmitWindow(windows, closed, w, slots, lo, i, assess, verdictOf, summarise);
          windows := windows + [Window(w.start, w.end, w.verdict, summarise(w.start, w.end, w.assessments))];
          closed := closed + [Run(lo, i - 1)];
          current := None;
        } else {
          SplitAtIdleNoGo(vs, closed, lo, i);
        }
      } else {
        if current.None? {
          SplitAtOpening(vs, closed, lo, i);
          current := Some(OpenWindow(slots[i].time, slots[i].time, v, [assessment]));
          lo := i;
          StartWindow(slots, i, assess, verdictOf);
        } else {
          var w := current.value;
          SplitAtExtension(vs, closed, lo, i);
          ExtendWindow(w, slots, lo, i, assess, verdictOf);
          var verdict := if v == Caution && w.verdict == Go then Caution else w.verdict;
          current := Some(OpenWindow(w.start, slots[i].time, verdict, w.assessments + [assessment]));
        }
      }
    }

    if current.Some? {
      var w := current.value;
      SplitAtEndOpen(vs, closed, lo);
      EmitWindow(windows, closed, w, slots, lo, |slots|, assess, verdictOf, summarise);
      windows := windows + [Window(w.start, w.end, w.verdict, summarise(w.start, w.end, w.assessments))];
      closed := closed + [Run(lo, |slots| - 1)];
    } else {
      SplitAtEndIdle(vs, closed, lo);
    }
    assert Runs(vs, 0) == closed;
  }

  lemma SplitAtClosingNoGo(vs: seq<Verdict>, closed: seq<Run>, lo: nat, i: nat)
    requires i < |vs| && vs[i] == NoGo && RunsSplit(vs, closed, true, lo, i)
    ensures RunsSplit(vs, closed + [Run(lo, i - 1)], false, lo, i + 1)
  {
    RunEndAtNoGo(vs, lo, i);
    assert Runs(vs, lo) == [Run(lo, i - 1)] + Runs(vs, i + 1);
    assert closed + ([Run(lo, i - 1)] + Runs(vs, i + 1)) == closed + [Run(lo, i - 1)] + Runs(vs, i + 1);
  }

  lemma SplitAtIdleNoGo(vs: seq<Verdict>, closed: seq<Run>, lo: nat, i: nat)
    requires i < |vs| && vs[i] == NoGo && RunsSplit(vs, closed, false, lo, i)
    ensures RunsSplit(vs, closed, false, lo, i + 1)
  {
    assert Runs(vs, i) == Runs(vs, i + 1);
  }

  lemma SplitAtOpening(vs: seq<Verdict>, closed: seq<Run>, lo: nat, i: nat)
    requires i < |vs| && vs[i] != NoGo && RunsSplit(vs, closed, false, lo, i)
    ensures RunsSplit(vs, closed, true, i, i + 1)
  {
  }

  lemma SplitAtExtension(vs: seq<Verdict>, closed: seq<Run>, lo: nat, i: nat)
    requires i < |vs| && vs[i] != NoGo && RunsSplit(vs, closed, true, lo, i)
    ensures RunsSplit(vs, closed, true, lo, i + 1)
  {
  }

  lemma SplitAtEndOpen(vs: seq<Verdict>, closed: seq<Run>, lo: nat)
    requires RunsSplit(vs, closed, true, lo, |vs|)
    ensures lo < |vs| && Runs(vs, 0) == closed + [Run(lo, |vs| - 1)]
  {
    LastRunReachesEnd(vs, lo);
  }

  /** A stretch without NO_GO that reaches the last slot is the last run. */
  lemma LastRunReachesEnd(vs: seq<Verdict>, lo: nat)
    requires lo < |vs| && forall j :: lo <= j < |vs| ==> vs[j] != NoGo
    ensures Runs(vs, lo) == [Run(lo, |vs| - 1)]
  {
    assert RunEnd(vs, lo) == |vs| - 1;
    assert Runs(vs, |vs|) == [];
    assert [Run(lo, |vs| - 1)] + [] == [Run(lo, |vs| - 1)];
  }

  lemma SplitAtEndIdle(vs: seq<Verdict>, closed: seq<Run>, lo: nat)
    requires RunsSplit(vs, closed, false, lo, |vs|)
    ensures Runs(vs, 0) == closed
  {
    assert Runs(vs, |vs|) == [];
  }

  lemma StartWindow<C, A>(slots: seq<Slot<C>>, i: nat, assess: C -> A, verdictOf: A -> Verdict)
    requires i < |slots| && verdictOf(assess(slots[i].conditions)) != NoGo
    ensures var a := assess(slots[i].conditions);
      OpenIs(OpenWindow(slots[i].time, slots[i].time, verdictOf(a), [a]), slots, i, i + 1, assess, verdictOf)
  {
    var vs := Verdicts(slots, assess, verdictOf);
    assert vs[i..i + 1] == [vs[i]];
    assert Assessments(slots[i..i + 1], assess) == [assess(slots[i].conditions)];
  }

  lemma ExtendWindow<C, A>(w: OpenWindow<A>, slots: seq<Slot<C>>, lo: nat, i: nat,
                           assess: C -> A, verdictOf: A -> Verdict)
    requires OpenIs(w, slots, lo, i, assess, verdictOf) && i < |slots|
    ensures var a := assess(slots[i].conditions);
      var v := verdictOf(a);
      OpenIs(OpenWindow(w.start, slots[i].time, if v == Caution && w.verdict == Go then Caution else w.verdict,
                        w.assessments + [a]), slots, lo, i + 1, assess, verdictOf)
  {
    var vs := Verdicts(slots, assess, verdictOf);
    assert vs[lo..i + 1] == vs[lo..i] + [vs[i]];
    var xs := Assessments(slots[lo..i + 1], assess);
    var ys := Assessments(slots[lo..i], assess) + [assess(slots[i].conditions)];
    assert |xs| == |ys|;
    forall k | 0 <= k < |xs| ensures xs[k] == ys[k] {
      if k < i - lo {
        assert slots[lo..i + 1][k] == slots[lo..i][k];
      }
    }
    assert xs == ys;
  }

  /** Emitting the open window of `lo..i-1` adds the window of that run. */
  lemma EmitWindow<C, A, S>(windows: seq<Window<S>>, closed: seq<Run>, w: OpenWindow<A>, slots: seq<Slot<C>>,
                            lo: nat, i: nat, assess: C -> A, verdictOf: A -> Verdict,
                            summarise: (string, string, seq<A>) -> S)
    requires WindowsOfRuns(windows, slots, closed, assess, verdictOf, summarise)
    requires OpenIs(w, slots, lo, i, assess, verdictOf)
    ensures WindowsOfRuns(windows + [Window(w.start, w.end, w.verdict, summarise(w.start, w.end, w.assessments))],
                          slots, closed + [Run(lo, i - 1)], assess, verdictOf, summarise)
  {
    CloseWindow(w, slots, lo, i, assess, verdictOf, summarise);
    AppendWindow(windows, slots, closed, Run(lo, i - 1), assess, verdictOf, summarise);
  }

  lemma CloseWindow<C, A, S>(w: OpenWindow<A>, slots: seq<Slot<C>>, lo: nat, i: nat,
                             assess: C -> A, verdictOf: A -> Verdict, summarise: (string, string, seq<A>) -> S)
    requires OpenIs(w, slots, lo, i, assess, verdictOf)
    ensures Window(w.start, w.end, w.verdict, summarise(w.start, w.end, w.assessments))
         == WindowOf(slots, Run(lo, i - 1), assess, verdictOf, summarise)
  {
  }

  lemma AppendWindow<C, A, S>(windows: seq<Window<S>>, slots: seq<Slot<C>>, runs: seq<Run>, run: Run,
                              assess: C -> A, verdictOf: A -> Verdict, summarise: (string, string, seq<A>) -> S)
    requires WindowsOfRuns(windows, slots, runs, assess, verdictOf, summarise)
    requires run.lo <= run.hi < |slots|
    ensures WindowsOfRuns(windows + [WindowOf(slots, run, assess, verdictOf, summarise)], slots, runs + [run],
                          assess, verdictOf, summarise)
  {
  }

  /** An open window that meets a NO_GO slot at `i` spans exactly `lo..i-1`. */
  lemma RunEndAtNoGo(vs: seq<Verdict>, lo: nat, i: nat)
    requires lo < i < |vs| && vs[i] == NoGo
    requires forall j :: lo <= j < i ==> vs[j] != NoGo
    ensures RunEnd(vs, lo) == i - 1
    ensures Runs(vs, i) == Runs(vs, i + 1)
    decreases i - lo
  {
    if lo + 1 < i {
      RunEndAtNoGo(vs, lo + 1, i);
    }
  }

  /** What the window of the `k`-th run is made of. */
  lemma WindowOfRunAt<C, A, S>(windows: seq<Window<S>>, slots: seq<Slot<C>>, runs: seq<Run>, assess: C -> A,
                               verdictOf: A -> Verdict, summarise: (string, string, seq<A>) -> S, k: int)
    requires WindowsOfRuns(windows, slots, runs, assess, verdictOf, summarise) && 0 <= k < |runs|
    ensures runs[k].lo <= runs[k].hi < |slots|
    ensures windows[k].start == slots[runs[k].lo].time && windows[k].end == slots[runs[k].hi].time
    ensures var firsts := Assessments(slots[runs[k].lo..runs[k].hi + 1], assess);
      && windows[k].summary == summarise(windows[k].start, windows[k].end, firsts)
      && |firsts| > 0 && firsts[0] == assess(slots[runs[k].lo].conditions)
  {
  }

  // ---------------------------------------------------------------------
  // What the runs are

  /** No input, no runs. */
  lemma RunsOfEmpty()
    ensures Runs([], 0) == []
  {
  }

  /**
   * `run` holds only non-NO_GO slots and is maximal in `vs[from..]`: it
   * starts at `from` or right after a NO_GO, and ends at the last slot or
   * right before a NO_GO.
   */
  predicate MaximalRun(vs: seq<Verdict>, from: nat, run: Run)
  {
    && from <= run.lo <= run.hi < |vs|
    && (forall j :: run.lo <= j <= run.hi ==> vs[j] != NoGo)
    && (run.lo == from || vs[run.lo - 1] == NoGo)
    && (run.hi + 1 == |vs| || vs[run.hi + 1] == NoGo)
  }

  /** Every run is a maximal stretch of non-NO_GO slots. */
  lemma {:induction false} RunsAreMaximal(vs: seq<Verdict>, from: nat)
    requires from <= |vs|
    ensures forall k :: 0 <= k < |Runs(vs, from)| ==> MaximalRun(vs, from, Runs(vs, from)[k])
    decreases |vs| - from
  {
    if from < |vs| {
      var runs := Runs(vs, from);
      if vs[from] == NoGo {
        RunsAreMaximal(vs, from + 1);
        assert runs == Runs(vs, from + 1);
        forall k | 0 <= k < |runs| ensures MaximalRun(vs, from, runs[k]) {
          assert MaximalRun(vs, from + 1, runs[k]);
        }
      } else {
        var hi := RunEnd(vs, from);
        var rest := Runs(vs, hi + 1);
        assert runs == [Run(from, hi)] + rest;
        RunsAreMaximal(vs, hi + 1);
        forall k | 0 <= k < |runs| ensures MaximalRun(vs, from, runs[k]) {
          if k > 0 {
            assert runs[k] == rest[k - 1];
            assert MaximalRun(vs, hi + 1, rest[k - 1]);
          }
        }
      }
    }
  }

  /** A NO_GO slot lies in no run. */
  lemma NoGoSlotIsInNoRun(vs: seq<Verdict>, from: nat, j: nat)
    requires from <= |vs| && j < |vs| && vs[j] == NoGo
    ensures forall k :: 0 <= k < |Runs(vs, from)| ==> !(Runs(vs, from)[k].lo <= j <= Runs(vs, from)[k].hi)
  {
    RunsAreMaximal(vs, from);
    forall k | 0 <= k < |Runs(vs, from)| ensures !(Runs(vs, from)[k].lo <= j <= Runs(vs, from)[k].hi) {
      assert MaximalRun(vs, from, Runs(vs, from)[k]);
    }
  }

  /** Runs come in slot order, separated by at least one NO_GO slot. */
  lemma {:induction false} RunsAreOrdered(vs: seq<Verdict>, from: nat)
    requires from <= |vs|
    ensures forall k :: 0 <= k < |Runs(vs, from)| - 1 ==>
      Runs(vs, from)[k].hi + 1 < Runs(vs, from)[k + 1].lo
    decreases |vs| - from
  {
    if from < |vs| {
      if vs[from] == NoGo {
        RunsAreOrdered(vs, from + 1);
      } else {
        var hi := RunEnd(vs, from);
        RunsAreOrdered(vs, hi + 1);
        RunsAreMaximal(vs, hi + 1);
      }
    }
  }

  /** Every non-NO_GO slot from `from` on lies in some run. */
  lemma {:induction false} RunsCoverEveryOpenSlot(vs: seq<Verdict>, from: nat, j: nat)
    requires from <= j < |vs| && vs[j] != NoGo
    ensures exists k :: 0 <= k < |Runs(vs, from)| && Runs(vs, from)[k].lo <= j <= Runs(vs, from)[k].hi
    decreases |vs| - from
  {
    if vs[from] == NoGo {
      RunsCoverEveryOpenSlot(vs, from + 1, j);
      var k :| 0 <= k < |Runs(vs, from + 1)| && Runs(vs, from + 1)[k].lo <= j <= Runs(vs, from + 1)[k].hi;
      assert Runs(vs, from)[k] == Runs(vs, from + 1)[k];
    } else {
      var hi := RunEnd(vs, from);
      if j <= hi {
        assert Runs(vs, from)[0] == Run(from, hi);
      } else {
        RunsCoverEveryOpenSlot(vs, hi + 1, j);
        var k :| 0 <= k < |Runs(vs, hi + 1)| && Runs(vs, hi + 1)[k].lo <= j <= Runs(vs, hi + 1)[k].hi;
        assert Runs(vs, from)[k + 1] == Runs(vs, hi + 1)[k];
      }
    }
  }

  /** A forecast that does not end on NO_GO ends with a window closing at its last slot. */
  lemma {:induction false} TrailingRunIsEmitted(vs: seq<Verdict>, from: nat)
    requires from < |vs| && vs[|vs| - 1] != NoGo
    ensures |Runs(vs, from)| > 0 && Runs(vs, from)[|Runs(vs, from)| - 1].hi == |vs| - 1
    decreases |vs| - from
  {
    if vs[from] == NoGo {
      TrailingRunIsEmitted(vs, from + 1);
      assert Runs(vs, from) == Runs(vs, from + 1);
    } else {
      var hi := RunEnd(vs, from);
      var rest := Runs(vs, hi + 1);
      assert Runs(vs, from) == [Run(from, hi)] + rest;
      if hi + 1 < |vs| {
        TrailingRunIsEmitted(vs, hi + 1);
      } else {
        assert rest == [];
      }
    }
  }

  /**
   * The window verdict is CAUTION exactly when a slot of its run is CAUTION,
   * and GO otherwise; it is never NO_GO.
   */
  lemma WindowVerdictIsCautionIffSomeSlotIs<C, A, S>(slots: seq<Slot<C>>, run: Run, assess: C -> A,
                                                   verdictOf: A -> Verdict, summarise: (string, string, seq<A>) -> S)
    requires run.lo <= run.hi < |slots|
    ensures var w := WindowOf(slots, run, assess, verdictOf, summarise);
      && (w.verdict == Caution <==>
            exists j :: run.lo <= j <= run.hi && verdictOf(assess(slots[j].conditions)) == Caution)
      && (w.verdict == Go || w.verdict == Caution)
  {
    var vs := Verdicts(slots, assess, verdictOf);
    var sub := vs[run.lo..run.hi + 1];
    if Caution in sub {
      var m :| 0 <= m < |sub| && sub[m] == Caution;
      assert vs[run.lo + m] == Caution;
    }
    if exists j :: run.lo <= j <= run.hi && verdictOf(assess(slots[j].conditions)) == Caution {
      var j :| run.lo <= j <= run.hi && verdictOf(assess(slots[j].conditions)) == Caution;
      assert sub[j - run.lo] == Caution;
    }
  }

  /**
   * Inserting a CAUTION slot into a run (between two non-NO_GO slots) joins
   * it into that run and makes the run's window CAUTION.
   */
  lemma {:induction false} CautionSlotJoinsRun(vs: seq<Verdict>, from: nat, j: nat)
    requires from <= j < |vs| && vs[j] == Caution
    ensures exists k :: (0 <= k < |Runs(vs, from)| &&
      Runs(vs, from)[k].lo <= j <= Runs(vs, from)[k].hi < |vs| &&
      RunVerdict(vs[Runs(vs, from)[k].lo..Runs(vs, from)[k].hi + 1]) == Caution)
  {
    RunsCoverEveryOpenSlot(vs, from, j);
    RunsAreMaximal(vs, from);
    var k :| 0 <= k < |Runs(vs, from)| && Runs(vs, from)[k].lo <= j <= Runs(vs, from)[k].hi;
    var run := Runs(vs, from)[k];
    assert vs[run.lo..run.hi + 1][j - run.lo] == Caution;
  }
}
