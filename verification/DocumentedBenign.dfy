/** The reported false positives and true negatives against their documentation at the top of the evaluator: a
    detection during a benign run, and a benign run in which no detection occurs. */
module DocumentedBenign {
  import opened Wrappers
  import opened Lists
  import opened Scenario
  import opened Baseline
  import opened Confusion
  import opened Coverage
  import opened Documented

  // ---------- During a run ----------

  /** The detection occurs during the run: between the start of some phase and the end of some phase. */
  predicate During(r: Run, t: real) {
    && (exists i :: 0 <= i < |r.phases| && r.phases[i].start.Some? && r.phases[i].start.value <= t)
    && (exists i :: 0 <= i < |r.phases| && r.phases[i].end.Some? && t <= r.phases[i].end.value)
  }

  predicate DuringSome(runs: seq<Run>, t: real) { exists i :: 0 <= i < |runs| && During(runs[i], t) }

  predicate Noisy(r: Run, dets: seq<real>) { exists k :: 0 <= k < |dets| && During(r, dets[k]) }

  function NoisyRuns(runs: seq<Run>, dets: seq<real>): (r: seq<Run>) ensures |r| <= |runs| {
    if runs == [] then []
    else
      var last := runs[|runs| - 1];
      NoisyRuns(runs[..|runs| - 1], dets) + if Noisy(last, dets) then [last] else []
  }

  /** The documented true negatives. */
  function QuietRuns(runs: seq<Run>, dets: seq<real>): (r: seq<Run>) ensures |r| <= |runs| {
    if runs == [] then []
    else
      var last := runs[|runs| - 1];
      QuietRuns(runs[..|runs| - 1], dets) + if Noisy(last, dets) then [] else [last]
  }

  lemma {:induction false} QuietOrNoisy(runs: seq<Run>, dets: seq<real>)
    ensures |QuietRuns(runs, dets)| + |NoisyRuns(runs, dets)| == |runs|
  {
    if runs != [] { QuietOrNoisy(runs[..|runs| - 1], dets); }
  }

  lemma {:induction false} NoisyRunsEmpty(runs: seq<Run>, dets: seq<real>)
    ensures NoisyRuns(runs, dets) == [] <==> forall k :: 0 <= k < |dets| ==> !DuringSome(runs, dets[k])
  {
    hide During;
    if runs != [] {
      var init, last := runs[..|runs| - 1], runs[|runs| - 1];
      NoisyRunsEmpty(init, dets);
      forall k | 0 <= k < |dets|
        ensures DuringSome(runs, dets[k]) <==> DuringSome(init, dets[k]) || During(last, dets[k]) {
        DuringNext(runs, dets[k]);
      }
    }
  }

  lemma DuringNext(runs: seq<Run>, t: real)
    requires runs != []
    ensures DuringSome(runs, t) <==> DuringSome(runs[..|runs| - 1], t) || During(runs[|runs| - 1], t)
  {
    hide During;
    var init := runs[..|runs| - 1];
    if DuringSome(init, t) {
      var i :| 0 <= i < |init| && During(init[i], t);
      assert During(runs[i], t);
    }
    if DuringSome(runs, t) {
      var i :| 0 <= i < |runs| && During(runs[i], t);
      if i < |init| { assert During(init[i], t); }
    }
  }

  function Alarms(ws: seq<AttackWindow>, bs: seq<BenignWindow>, dets: seq<real>): (r: seq<real>) ensures |r| <= |dets| {
    if dets == [] then []
    else
      var t := dets[|dets| - 1];
      Alarms(ws, bs, dets[..|dets| - 1]) + if IsAlarm(ws, bs, t) then [t] else []
  }

  lemma {:induction false} ChargesAreAlarms(ws: seq<AttackWindow>, bs: seq<BenignWindow>, dets: seq<real>)
    ensures |Charges(ws, bs, dets)| == |Alarms(ws, bs, dets)|
  {
    hide IsAlarm, IsFalseAlarm;
    if dets != [] {
      ChargesAreAlarms(ws, bs, dets[..|dets| - 1]);
      AlarmIsFalseAlarm(ws, bs, dets[|dets| - 1]);
    }
  }

  function AlarmsOf(runs: seq<Run>, dets: seq<real>, defaultWindow: real): seq<real> {
    Alarms(AttackWindows(ValidAttacks(runs), defaultWindow), BenignWindows(BenignRuns(runs)), dets)
  }

  predicate AlarmAt(runs: seq<Run>, defaultWindow: real, t: real) {
    IsAlarm(AttackWindows(ValidAttacks(runs), defaultWindow), BenignWindows(BenignRuns(runs)), t)
  }

  lemma AlarmsAreReported(runs: seq<Run>, dets: seq<real>, defaultWindow: real)
    requires BenignRuns(runs) != [] && dets != []
    ensures ReportedFp(runs, dets, defaultWindow) == Some(|AlarmsOf(runs, dets, defaultWindow)|)
    ensures ReportedTn(runs, dets, defaultWindow) ==
      Some(TrueNegatives(|BenignRuns(runs)|, |AlarmsOf(runs, dets, defaultWindow)|))
  {
    hide BenignRuns, ValidAttacks, AttackWindows, BenignWindows, Credited, Charges, Alarms;
    ChargesAreAlarms(AttackWindows(ValidAttacks(runs), defaultWindow), BenignWindows(BenignRuns(runs)), dets);
  }

  // ---------- The condition on phases ----------

  /** The run lasts from the start of phase `i` to the end of phase `j`. */
  predicate Lasts(r: Run, i: int, j: int) {
    && 0 <= i < |r.phases| && 0 <= j < |r.phases| && r.phases[i].start.Some? && r.phases[j].end.Some?
    && r.phases[i].start.value <= r.phases[j].end.value
  }

  predicate InSpan(r: Run, i: int, j: int, t: real) {
    Lasts(r, i, j) && r.phases[i].start.value <= t <= r.phases[j].end.value
  }

  /** Each phase starts after every phase has ended, so the run takes no time. */
  predicate Timeless(r: Run) {
    forall i, j :: 0 <= i < |r.phases| && 0 <= j < |r.phases| ==> !Lasts(r, i, j)
  }

  predicate AllTimeless(runs: seq<Run>) { forall r :: r in runs ==> Timeless(r) }

  /** Every benign run, from each start to each end of a phase, is covered by observed phases and meets no
      attack window. */
  predicate AllAlarms(runs: seq<Run>, defaultWindow: real) {
    var ws, bs := AttackWindows(ValidAttacks(runs), defaultWindow), BenignWindows(BenignRuns(runs));
    forall r, i, j :: r in BenignRuns(runs) && 0 <= i < |r.phases| && 0 <= j < |r.phases| && Lasts(r, i, j) ==>
      AlarmSpan(ws, bs, r.phases[i].start.value, r.phases[j].end.value)
  }

  lemma DuringExactlyWhen(runs: seq<Run>, t: real)
    ensures DuringSome(runs, t) <==> exists r, i, j :: r in runs && InSpan(r, i, j, t)
  {
    if DuringSome(runs, t) {
      var k :| 0 <= k < |runs| && During(runs[k], t);
      var r := runs[k];
      var i :| 0 <= i < |r.phases| && r.phases[i].start.Some? && r.phases[i].start.value <= t;
      var j :| 0 <= j < |r.phases| && r.phases[j].end.Some? && t <= r.phases[j].end.value;
      assert r in runs && InSpan(r, i, j, t);
    }
    if r, i, j :| r in runs && InSpan(r, i, j, t) {
      var k :| 0 <= k < |runs| && runs[k] == r;
      assert During(runs[k], t);
    }
  }

  /** The test on phases decides whether every instant of every benign run is a false alarm. */
  lemma AllAlarmsExactlyWhen(runs: seq<Run>, defaultWindow: real)
    ensures AllAlarms(runs, defaultWindow) <==>
      forall t: real :: DuringSome(BenignRuns(runs), t) ==> AlarmAt(runs, defaultWindow, t)
  {
    hide BenignRuns, ValidAttacks, AttackWindows, BenignWindows, AlarmSpan, IsAlarm, DuringSome;
    var ws, bs := AttackWindows(ValidAttacks(runs), defaultWindow), BenignWindows(BenignRuns(runs));
    var benign := BenignRuns(runs);
    if AllAlarms(runs, defaultWindow) {
      forall t: real | DuringSome(benign, t) ensures AlarmAt(runs, defaultWindow, t) {
        DuringExactlyWhen(benign, t);
        var r, i, j :| r in benign && InSpan(r, i, j, t);
        AlarmSpanExactlyWhen(ws, bs, r.phases[i].start.value, r.phases[j].end.value);
      }
    } else if forall t: real :: DuringSome(benign, t) ==> AlarmAt(runs, defaultWindow, t) {
      forall r, i, j | r in benign && Lasts(r, i, j)
        ensures AlarmSpan(ws, bs, r.phases[i].start.value, r.phases[j].end.value)
      {
        var from, to := r.phases[i].start.value, r.phases[j].end.value;
        forall t: real | from <= t <= to ensures IsAlarm(ws, bs, t) {
          assert InSpan(r, i, j, t);
          DuringExactlyWhen(benign, t);
          assert AlarmAt(runs, defaultWindow, t);
        }
        AlarmSpanExactlyWhen(ws, bs, from, to);
      }
    }
  }

  lemma {:induction false} WindowIsPhase(r: Run, phases: seq<Phase>, b: BenignWindow)
    requires b in PhaseWindows(r, phases)
    ensures b.runId == r.runId
    ensures exists i :: 0 <= i < |phases| && phases[i].start == Some(b.start) && phases[i].end == Some(b.end)
  {
    var k := |phases| - 1;
    if b in PhaseWindow(r, phases[k]) {
      assert phases[k].start == Some(b.start);
    } else {
      WindowIsPhase(r, phases[..k], b);
      var i :| 0 <= i < k && phases[..k][i].start == Some(b.start) && phases[..k][i].end == Some(b.end);
      assert phases[i].start == Some(b.start);
    }
  }

  lemma {:induction false} WindowOfRun(runs: seq<Run>, b: BenignWindow) returns (i: nat)
    requires b in BenignWindows(runs)
    ensures i < |runs| && b in PhaseWindows(runs[i], runs[i].phases)
  {
    hide PhaseWindows;
    i := |runs| - 1;
    if b !in PhaseWindows(runs[i], runs[i].phases) { i := WindowOfRun(runs[..i], b); }
  }

  lemma ObservedIsDuring(runs: seq<Run>, b: BenignWindow, t: real) returns (i: nat)
    requires b in BenignWindows(runs) && Inside(b, t)
    ensures i < |runs| && runs[i].runId == b.runId && During(runs[i], t)
  {
    i := WindowOfRun(runs, b);
    WindowIsPhase(runs[i], runs[i].phases, b);
  }

  /** An alarm comes during a benign run. */
  lemma AlarmIsDuring(runs: seq<Run>, defaultWindow: real, t: real)
    requires AlarmAt(runs, defaultWindow, t)
    ensures DuringSome(BenignRuns(runs), t)
  {
    hide BenignRuns, BenignWindows, During;
    var bs := BenignWindows(BenignRuns(runs));
    var k :| 0 <= k < |bs| && Inside(bs[k], t);
    var i := ObservedIsDuring(BenignRuns(runs), bs[k], t);
  }

  lemma TimelessExactlyWhen(runs: seq<Run>)
    ensures AllTimeless(runs) <==> forall t: real :: !DuringSome(runs, t)
  {
    hide DuringSome, Lasts;
    forall t: real ensures DuringSome(runs, t) <==> exists r, i, j :: r in runs && InSpan(r, i, j, t) {
      DuringExactlyWhen(runs, t);
    }
    if AllTimeless(runs) {
      forall r, i, j, t | r in runs ensures !InSpan(r, i, j, t) { TimelessHasNoSpan(r, i, j); }
    } else {
      var r :| r in runs && !Timeless(r);
      var i, j :| Lasts(r, i, j);
      var t := LastsFromStart(r, i, j);
      assert r in runs && InSpan(r, i, j, t);
      assert DuringSome(runs, t);
    }
  }

  lemma TimelessHasNoSpan(r: Run, i: int, j: int)
    ensures Timeless(r) ==> !Lasts(r, i, j)
  {}

  lemma LastsFromStart(r: Run, i: int, j: int) returns (t: real)
    requires Lasts(r, i, j)
    ensures InSpan(r, i, j, t)
  {
    t := r.phases[i].start.value;
  }

  // ---------- False positives ----------

  /** The detections during some benign run: the documented false positives. */
  function DuringDetections(runs: seq<Run>, dets: seq<real>): (r: seq<real>) ensures |r| <= |dets| {
    if dets == [] then []
    else
      var t := dets[|dets| - 1];
      DuringDetections(runs, dets[..|dets| - 1]) + if DuringSome(runs, t) then [t] else []
  }

  lemma {:induction false} SameDetections(runs: seq<Run>, dets: seq<real>, defaultWindow: real)
    requires AllAlarms(runs, defaultWindow)
    ensures |AlarmsOf(runs, dets, defaultWindow)| == |DuringDetections(BenignRuns(runs), dets)|
  {
    hide BenignRuns, ValidAttacks, AttackWindows, BenignWindows, IsAlarm, DuringSome, AllAlarms;
    if dets != [] {
      var t := dets[|dets| - 1];
      SameDetections(runs, dets[..|dets| - 1], defaultWindow);
      AllAlarmsExactlyWhen(runs, defaultWindow);
      if AlarmAt(runs, defaultWindow, t) { AlarmIsDuring(runs, defaultWindow, t); }
      assert AlarmAt(runs, defaultWindow, t) <==> DuringSome(BenignRuns(runs), t);
    }
  }

  lemma OneDetection(runs: seq<Run>, t: real, defaultWindow: real)
    ensures |AlarmsOf(runs, [t], defaultWindow)| == if AlarmAt(runs, defaultWindow, t) then 1 else 0
    ensures |AlarmsOf(runs, [t, t], defaultWindow)| == if AlarmAt(runs, defaultWindow, t) then 2 else 0
    ensures |DuringDetections(BenignRuns(runs), [t])| == if DuringSome(BenignRuns(runs), t) then 1 else 0
  {
    hide IsAlarm, DuringSome, AttackWindows, BenignWindows, ValidAttacks, BenignRuns;
    assert [t][..0] == [] && [t, t][..1] == [t];
  }

  /** With detections at hand, the reported false positives are the documented ones on every stream exactly
      when each benign run is covered by observed phases and meets no attack window. */
  lemma FalsePositivesAsDocumentedExactlyWhen(runs: seq<Run>, defaultWindow: real)
    requires BenignRuns(runs) != []
    ensures AllAlarms(runs, defaultWindow) <==>
      forall dets: seq<real> :: dets != [] ==>
        ReportedFp(runs, dets, defaultWindow) == Some(|DuringDetections(BenignRuns(runs), dets)|)
  {
    hide BenignRuns, AllAlarms, ReportedFp, ReportedTn, AlarmsOf, AlarmAt, DuringSome, DuringDetections;
    AllAlarmsExactlyWhen(runs, defaultWindow);
    if AllAlarms(runs, defaultWindow) {
      forall dets: seq<real> | dets != []
        ensures ReportedFp(runs, dets, defaultWindow) == Some(|DuringDetections(BenignRuns(runs), dets)|)
      {
        AlarmsAreReported(runs, dets, defaultWindow);
        SameDetections(runs, dets, defaultWindow);
      }
    } else {
      var t: real :| DuringSome(BenignRuns(runs), t) && !AlarmAt(runs, defaultWindow, t);
      OneDetection(runs, t, defaultWindow);
      AlarmsAreReported(runs, [t], defaultWindow);
      assert ReportedFp(runs, [t], defaultWindow) != Some(|DuringDetections(BenignRuns(runs), [t])|);
    }
  }

  // ---------- True negatives ----------

  lemma {:induction false} NoisyIds(runs: seq<Run>, dets: seq<real>)
    ensures forall id :: id in Ids(NoisyRuns(runs, dets)) ==> id in Ids(runs)
    ensures Distinct(Ids(runs)) ==> Distinct(Ids(NoisyRuns(runs, dets)))
  {
    hide Noisy, Distinct;
    if runs == [] {
      ElementCount(Ids(NoisyRuns(runs, dets)));
      assert Elements(Ids(NoisyRuns(runs, dets))) == {};
    } else {
      var init, last := runs[..|runs| - 1], runs[|runs| - 1];
      NoisyIds(init, dets);
      var prior := NoisyRuns(init, dets);
      assert Ids(runs) == Ids(init) + [last.runId];
      AppendDistinct(Ids(init), last.runId);
      assert Ids(prior + [last]) == Ids(prior) + [last.runId] && prior + [] == prior;
      AppendDistinct(Ids(prior), last.runId);
    }
  }

  lemma {:induction false} NoisyMember(runs: seq<Run>, dets: seq<real>, i: nat)
    requires i < |runs| && Noisy(runs[i], dets)
    ensures runs[i].runId in Ids(NoisyRuns(runs, dets))
  {
    hide Noisy;
    var k := |runs| - 1;
    var prior := NoisyRuns(runs[..k], dets);
    if i < k { NoisyMember(runs[..k], dets, i); }
    var all := NoisyRuns(runs, dets);
    assert forall m :: 0 <= m < |prior| ==> Ids(all)[m] == Ids(prior)[m];
    if i == k { assert Ids(all)[|prior|] == runs[i].runId; }
  }

  function NoisyBenign(runs: seq<Run>, dets: seq<real>): set<string> {
    Elements(Ids(NoisyRuns(BenignRuns(runs), dets)))
  }

  function Charged(runs: seq<Run>, dets: seq<real>, defaultWindow: real): set<string> {
    Elements(ChargesOf(runs, dets, defaultWindow))
  }

  /** A benign run that a false alarm is charged to is noisy. */
  lemma ChargedAreNoisy(runs: seq<Run>, dets: seq<real>, defaultWindow: real)
    ensures Charged(runs, dets, defaultWindow) <= NoisyBenign(runs, dets)
  {
    hide BenignRuns, ValidAttacks, AttackWindows, BenignWindows, Charges, During, NoisyRuns;
    var ws, bs := AttackWindows(ValidAttacks(runs), defaultWindow), BenignWindows(BenignRuns(runs));
    forall id | id in Charges(ws, bs, dets) ensures id in Ids(NoisyRuns(BenignRuns(runs), dets)) {
      ChargesAreBenign(ws, bs, dets, id);
      var t, k :| t in dets && 0 <= k < |bs| && !IsCredit(ws, t) && Inside(bs[k], t) && bs[k].runId == id;
      var i := ObservedIsDuring(BenignRuns(runs), bs[k], t);
      var n :| 0 <= n < |dets| && dets[n] == t;
      assert During(BenignRuns(runs)[i], dets[n]);
      NoisyMember(BenignRuns(runs), dets, i);
    }
  }

  /** The noisy benign runs that no false alarm is charged to. */
  function Overlooked(runs: seq<Run>, dets: seq<real>, defaultWindow: real): set<string> {
    NoisyBenign(runs, dets) - Charged(runs, dets, defaultWindow)
  }

  /** The false alarms beyond the first in a run. */
  function Repeated(runs: seq<Run>, dets: seq<real>, defaultWindow: real): nat {
    ElementCount(ChargesOf(runs, dets, defaultWindow));
    |ChargesOf(runs, dets, defaultWindow)| - |Charged(runs, dets, defaultWindow)|
  }

  /** On a given stream, each overlooked noisy run adds one to the reported true negatives and each repeated
      alarm takes one away, down to zero. */
  lemma TrueNegativesAsDocumented(runs: seq<Run>, dets: seq<real>, defaultWindow: real)
    requires Distinct(Ids(BenignRuns(runs))) && BenignRuns(runs) != [] && dets != []
    ensures
      var tn, quiet := ReportedTn(runs, dets, defaultWindow), QuietCount(runs, dets);
      var overlooked, repeated := |Overlooked(runs, dets, defaultWindow)|, Repeated(runs, dets, defaultWindow);
      && tn == Some(if quiet + overlooked < repeated then 0 else quiet + overlooked - repeated)
      && (tn == Some(quiet) <==> overlooked == repeated || (quiet == 0 && overlooked <= repeated))
  {
    hide BenignRuns, ValidAttacks, AttackWindows, BenignWindows, Credited, Charges, NoisyRuns, QuietRuns, Distinct;
    ChargedAreNoisy(runs, dets, defaultWindow);
    QuietOrNoisy(BenignRuns(runs), dets);
    NoisyIds(BenignRuns(runs), dets);
    ElementCount(Ids(NoisyRuns(BenignRuns(runs), dets)));
    var noisy, charged := NoisyBenign(runs, dets), Charged(runs, dets, defaultWindow);
    assert |noisy - charged| == |noisy| - |charged|;
  }

  lemma {:induction false} SameNoise(runs: seq<Run>, t: real)
    ensures NoisyRuns(runs, [t, t]) == NoisyRuns(runs, [t])
  {
    hide During;
    if runs != [] {
      SameNoise(runs[..|runs| - 1], t);
      var last := runs[|runs| - 1];
      assert Noisy(last, [t]) <==> During(last, t) by { if During(last, t) { assert During(last, [t][0]); } }
      assert Noisy(last, [t, t]) <==> During(last, t) by { if During(last, t) { assert During(last, [t, t][0]); } }
    }
  }

  lemma {:induction false} NoAlarms(ws: seq<AttackWindow>, bs: seq<BenignWindow>, dets: seq<real>)
    ensures Alarms(ws, bs, dets) == [] <==> forall k :: 0 <= k < |dets| ==> !IsAlarm(ws, bs, dets[k])
  {
    hide IsAlarm;
    if dets != [] { NoAlarms(ws, bs, dets[..|dets| - 1]); }
  }

  function QuietCount(runs: seq<Run>, dets: seq<real>): nat { |QuietRuns(BenignRuns(runs), dets)| }

  ghost predicate TnAsDocumented(runs: seq<Run>, dets: seq<real>, defaultWindow: real) {
    ReportedTn(runs, dets, defaultWindow) == Some(QuietCount(runs, dets))
  }

  /** How one detection, and the same one repeated, show on both sides. */
  lemma OneInstant(runs: seq<Run>, t: real, defaultWindow: real)
    requires BenignRuns(runs) != []
    requires TnAsDocumented(runs, [t], defaultWindow) && TnAsDocumented(runs, [t, t], defaultWindow)
    ensures DuringSome(BenignRuns(runs), t) ==> AlarmAt(runs, defaultWindow, t) && |BenignRuns(runs)| == 1
  {
    hide BenignRuns, AlarmAt, AlarmsOf, DuringSome, NoisyRuns, QuietRuns, ReportedTn, ReportedFp;
    OneDetection(runs, t, defaultWindow);
    AlarmsAreReported(runs, [t], defaultWindow);
    AlarmsAreReported(runs, [t, t], defaultWindow);
    QuietOrNoisy(BenignRuns(runs), [t]);
    QuietOrNoisy(BenignRuns(runs), [t, t]);
    SameNoise(BenignRuns(runs), t);
    NoisyRunsEmpty(BenignRuns(runs), [t]);
    assert [t][0] == t;
  }

  lemma WhenOneRun(runs: seq<Run>, dets: seq<real>, defaultWindow: real)
    requires BenignRuns(runs) != [] && dets != []
    requires AllTimeless(BenignRuns(runs)) || (AllAlarms(runs, defaultWindow) && |BenignRuns(runs)| == 1)
    ensures TnAsDocumented(runs, dets, defaultWindow)
  {
    hide BenignRuns, ValidAttacks, AttackWindows, BenignWindows, Alarms, IsAlarm, DuringSome, NoisyRuns, QuietRuns,
         AllTimeless, AllAlarms, ReportedTn, ReportedFp;
    AlarmsAreReported(runs, dets, defaultWindow);
    NoAlarms(AttackWindows(ValidAttacks(runs), defaultWindow), BenignWindows(BenignRuns(runs)), dets);
    NoisyRunsEmpty(BenignRuns(runs), dets);
    QuietOrNoisy(BenignRuns(runs), dets);
    AllAlarmsExactlyWhen(runs, defaultWindow);
    TimelessExactlyWhen(BenignRuns(runs));
    forall k | 0 <= k < |dets|
      ensures AlarmAt(runs, defaultWindow, dets[k]) <==> DuringSome(BenignRuns(runs), dets[k]) {
      if AlarmAt(runs, defaultWindow, dets[k]) { AlarmIsDuring(runs, defaultWindow, dets[k]); }
    }
  }

  /** With detections at hand, the reported true negatives are the documented ones on every stream exactly when
      benign runs take no time, or there is one benign run, covered by observed phases and meeting no
      attack window. */
  lemma AlwaysAsDocumentedExactlyWhen(runs: seq<Run>, defaultWindow: real)
    requires BenignRuns(runs) != []
    ensures (forall dets: seq<real> :: dets != [] ==> TnAsDocumented(runs, dets, defaultWindow)) <==>
      AllTimeless(BenignRuns(runs)) || (AllAlarms(runs, defaultWindow) && |BenignRuns(runs)| == 1)
  {
    hide BenignRuns, AlarmAt, DuringSome, TnAsDocumented, AllTimeless, AllAlarms;
    if forall dets: seq<real> :: dets != [] ==> TnAsDocumented(runs, dets, defaultWindow) {
      forall t: real
        ensures DuringSome(BenignRuns(runs), t) ==> AlarmAt(runs, defaultWindow, t) && |BenignRuns(runs)| == 1
      {
        assert TnAsDocumented(runs, [t], defaultWindow) && TnAsDocumented(runs, [t, t], defaultWindow);
        OneInstant(runs, t, defaultWindow);
      }
      AllAlarmsExactlyWhen(runs, defaultWindow);
      TimelessExactlyWhen(BenignRuns(runs));
    } else if AllTimeless(BenignRuns(runs)) || (AllAlarms(runs, defaultWindow) && |BenignRuns(runs)| == 1) {
      forall dets: seq<real> | dets != [] ensures TnAsDocumented(runs, dets, defaultWindow) {
        WhenOneRun(runs, dets, defaultWindow);
      }
    }
  }

  // ---------- Without detections ----------

  /** Without detections no count is reported, although every benign run is a documented true negative and
      every valid attack run a documented false negative. With detections, true positives and false negatives
      are reported, and the other two counts exactly when there are benign runs. */
  lemma SilenceIsNotReported(runs: seq<Run>, dets: seq<real>, defaultWindow: real)
    ensures ReportedCounts(runs, dets, defaultWindow).None? <==> dets == []
    ensures ReportedFp(runs, dets, defaultWindow).None? <==> dets == [] || BenignRuns(runs) == []
    ensures ReportedTn(runs, dets, defaultWindow).None? <==> dets == [] || BenignRuns(runs) == []
    ensures QuietRuns(BenignRuns(runs), []) == BenignRuns(runs)
    ensures Detected(ValidAttacks(runs), [], defaultWindow) == {}
    ensures Missed(ValidAttacks(runs), [], defaultWindow) == Elements(Ids(ValidAttacks(runs)))
  {
    hide BenignRuns, ValidAttacks, AttackWindows, BenignWindows, Credited, Charges;
    AllQuiet(BenignRuns(runs));
  }

  lemma {:induction false} AllQuiet(runs: seq<Run>)
    ensures QuietRuns(runs, []) == runs
  {
    if runs != [] { AllQuiet(runs[..|runs| - 1]); }
  }
}
