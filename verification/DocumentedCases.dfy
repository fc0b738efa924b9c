/** Concrete runs and detections on which the report and its documentation differ. */
module DocumentedCases {
  import opened Wrappers
  import opened Lists
  import opened Scenario
  import opened Baseline
  import opened Confusion
  import opened Coverage
  import opened Documented
  import opened DocumentedBenign

  function BenignRun(id: string, phases: seq<Phase>): Run {
    Run(id, "f", 1, 0, "known", None, None, Some(true), None, "", phases)
  }

  function AttackRun(id: string, injection: real, phases: seq<Phase>): Run {
    Run(id, "f", 1, 1, "known", Some(injection), None, Some(true), None, "", phases)
  }

  function TimedPhase(name: string, start: real, end: real): Phase { Phase(name, Some(start), Some(end), "") }

  lemma {:induction false} AllKept(p: Run -> bool, runs: seq<Run>)
    requires forall r :: r in runs ==> p(r)
    ensures Filter(p, runs) == runs
  {
    if runs != [] {
      assert runs == runs[..|runs| - 1] + [runs[|runs| - 1]];
      AllKept(p, runs[..|runs| - 1]);
    }
  }

  lemma {:induction false} NoneKept(p: Run -> bool, runs: seq<Run>)
    requires forall r :: r in runs ==> !p(r)
    ensures Filter(p, runs) == []
  {
    if runs != [] {
      assert runs == runs[..|runs| - 1] + [runs[|runs| - 1]];
      NoneKept(p, runs[..|runs| - 1]);
    }
  }

  lemma OnlyBenign(runs: seq<Run>)
    requires forall r :: r in runs ==> r.truthLabel == 0 && Eligible(r)
    ensures ValidAttacks(runs) == [] && BenignRuns(runs) == runs
  {
    hide FailedInjection;
    AllKept((r: Run) => Eligible(r) && r.truthLabel == 0, runs);
    NoneKept((r: Run) => Eligible(r) && r.truthLabel == 1 && !FailedInjection(r), runs);
  }

  lemma OnePhase(r: Run, p: Phase, t: real)
    requires r.phases == [p] && p.start.Some? && p.end.Some?
    ensures During(r, t) <==> p.start.value <= t <= p.end.value
  {
    assert r.phases[0] == p;
  }

  lemma BaselineWindows(r: Run, start: real, end: real)
    requires r.phases == [TimedPhase("baseline", start, end)]
    ensures PhaseWindows(r, r.phases) == [BenignWindow(r.runId, start, end)]
  {
    assert r.phases[..0] == [];
  }

  lemma WindowsOfOne(a: Run)
    ensures BenignWindows([a]) == PhaseWindows(a, a.phases) && Distinct(Ids([a]))
  {
    hide PhaseWindows;
    assert [a][..0] == [];
  }

  lemma WindowsOfTwo(a: Run, b: Run)
    ensures BenignWindows([a, b]) == PhaseWindows(a, a.phases) + PhaseWindows(b, b.phases)
  {
    hide PhaseWindows;
    WindowsOfOne(a);
    assert [a, b][..1] == [a];
  }

  lemma QuietOfTwo(a: Run, b: Run, dets: seq<real>)
    ensures QuietRuns([a, b], dets) == (if Noisy(a, dets) then [] else [a]) + (if Noisy(b, dets) then [] else [b])
    ensures QuietRuns([a], dets) == if Noisy(a, dets) then [] else [a]
  {
    hide Noisy;
    assert [a, b][..1] == [a] && [a][..0] == [];
  }

  lemma AlarmsOfTwo(ws: seq<AttackWindow>, bs: seq<BenignWindow>, t: real, u: real)
    requires IsAlarm(ws, bs, t) && IsAlarm(ws, bs, u)
    ensures |Alarms(ws, bs, [t, u])| == 2
  {
    hide IsAlarm;
    assert [t, u][..1] == [t] && [t][..0] == [];
  }

  lemma TwoAlarms(a: Run, b: Run)
    requires a == BenignRun("a", [TimedPhase("baseline", 0.0, 10.0)])
    requires b == BenignRun("b", [TimedPhase("baseline", 20.0, 30.0)])
    ensures |Alarms([], BenignWindows([a, b]), [1.0, 2.0])| == 2
  {
    BaselineWindows(a, 0.0, 10.0);
    BaselineWindows(b, 20.0, 30.0);
    WindowsOfTwo(a, b);
    hide BenignWindows, PhaseWindows, Alarms;
    var bs := BenignWindows([a, b]);
    assert Inside(bs[0], 1.0) && Inside(bs[0], 2.0);
    AlarmsOfTwo([], bs, 1.0, 2.0);
  }

  lemma OneNoisy(a: Run, b: Run)
    requires a == BenignRun("a", [TimedPhase("baseline", 0.0, 10.0)])
    requires b == BenignRun("b", [TimedPhase("baseline", 20.0, 30.0)])
    ensures QuietRuns([a, b], [1.0, 2.0]) == [b]
  {
    var dets := [1.0, 2.0];
    OnePhase(a, a.phases[0], 1.0);
    OnePhase(b, b.phases[0], 1.0);
    OnePhase(b, b.phases[0], 2.0);
    hide During, QuietRuns;
    assert During(a, dets[0]);
    QuietOfTwo(a, b, dets);
  }

  /** Two alarms in one benign run and none in another: one true negative is documented, none reported. */
  lemma RepeatedAlarmsHideAQuietRun(a: Run, b: Run)
    requires a == BenignRun("a", [TimedPhase("baseline", 0.0, 10.0)])
    requires b == BenignRun("b", [TimedPhase("baseline", 20.0, 30.0)])
    ensures ReportedTn([a, b], [1.0, 2.0], 120.0) == Some(0) && QuietRuns(BenignRuns([a, b]), [1.0, 2.0]) == [b]
  {
    OnlyBenign([a, b]);
    AlarmsAreReported([a, b], [1.0, 2.0], 120.0);
    TwoAlarms(a, b);
    OneNoisy(a, b);
    hide BenignRuns, ValidAttacks, BenignWindows, CountsOf, Alarms, QuietRuns;
  }

  /** A detection while a benign run recovers: no true negative is documented, one is reported. */
  lemma RecoveryIsNotObserved(a: Run)
    requires a == BenignRun("a", [TimedPhase("recover", 0.0, 10.0)])
    ensures ReportedTn([a], [5.0], 120.0) == Some(1) && QuietRuns(BenignRuns([a]), [5.0]) == []
  {
    OnlyBenign([a]);
    WindowsOfOne(a);
    assert PhaseWindows(a, a.phases) == [] by { assert a.phases[..0] == []; }
    AlarmsAreReported([a], [5.0], 120.0);
    OneDetection([a], 5.0, 120.0);
    OnePhase(a, a.phases[0], 5.0);
    QuietOfTwo(a, a, [5.0]);
    hide BenignRuns, ValidAttacks, BenignWindows, PhaseWindows, CountsOf, Alarms, During;
    assert During(a, [5.0][0]);
  }

  /** A detection in a benign run that an attack window also covers is credited to the attack: no true
      negative is documented, one is reported. */
  lemma AttackTakesTheAlarm(r: Run, a: Run)
    requires r == AttackRun("r", 0.0, [TimedPhase("attack", 0.0, 100.0)])
      && a == BenignRun("a", [TimedPhase("baseline", 0.0, 10.0)])
    ensures ReportedTn([r, a], [5.0], 120.0) == Some(1) && QuietRuns(BenignRuns([r, a]), [5.0]) == []
  {
    Injected(r);
    OneOfEach(r, a);
    BaselineWindows(a, 0.0, 10.0);
    WindowsOfOne(a);
    AttackWindowOf(r, 0.0, 0.0, 100.0, 120.0);
    AlarmsAreReported([r, a], [5.0], 120.0);
    var ws, bs := AttackWindows([r], 120.0), BenignWindows([a]);
    OneDetection([r, a], 5.0, 120.0);
    OnePhase(a, a.phases[0], 5.0);
    QuietOfTwo(a, a, [5.0]);
    hide BenignRuns, ValidAttacks, BenignWindows, PhaseWindows, AttackWindows, CountsOf, Alarms, During;
    assert Hits(ws[0], 5.0);
    assert During(a, [5.0][0]);
  }

  lemma KeptOfTwo(p: Run -> bool, a: Run, b: Run)
    ensures Filter(p, [a, b]) == (if p(a) then [a] else []) + (if p(b) then [b] else [])
    ensures Filter(p, [a]) == if p(a) then [a] else []
  {
    assert [a, b][..1] == [a] && [a][..0] == [];
  }

  lemma OneOfEach(r: Run, a: Run)
    requires r.truthLabel == 1 && Eligible(r) && !FailedInjection(r) && a.truthLabel == 0 && Eligible(a)
    ensures ValidAttacks([r, a]) == [r] == ValidAttacks([r]) && BenignRuns([r, a]) == [a]
  {
    hide FailedInjection;
    KeptOfTwo((x: Run) => Eligible(x) && x.truthLabel == 1 && !FailedInjection(x), r, a);
    KeptOfTwo((x: Run) => Eligible(x) && x.truthLabel == 0, r, a);
  }

  lemma Injected(r: Run)
    requires r.injectOk == Some(true) && r.labelInjectOk.None? && r.error == ""
      && forall p :: p in r.phases ==> p.notes == ""
    ensures !FailedInjection(r)
  {
    assert forall i :: 0 <= i < |r.phases| ==> r.phases[i] in r.phases;
  }

  lemma AttackWindowOf(r: Run, injection: real, start: real, end: real, defaultWindow: real)
    requires r == AttackRun("r", injection, [TimedPhase("attack", start, end)])
    ensures AttackWindows([r], defaultWindow) == [AttackWindow("r", start, end, Some(injection), defaultWindow)]
  {
    assert [r][..0] == [];
  }

  /** A detection right after the injection, before the attack phase starts: one true positive is
      documented, none is reported. */
  lemma EarlyDetectionIsMissed(r: Run)
    requires r == AttackRun("r", 0.0, [TimedPhase("attack", 5.0, 305.0)])
    ensures Detected([r], [3.0], 120.0) == {"r"} && ReportedTp([r], [3.0], 120.0) == Some(0)
  {
    Injected(r);
    OneOfEach(r, BenignRun("a", []));
    AttackWindowOf(r, 0.0, 5.0, 305.0, 120.0);
    hide ValidAttacks, BenignRuns, AttackWindows, FailedInjection, Charges;
    assert [r][0] == r && 3.0 in [3.0] && InTime(r, 120.0, 3.0);
    assert Credited(AttackWindows([r], 120.0), [3.0]) == {};
  }
}
