/** The reported true positives and false negatives against their documentation at the top of the evaluator: an
    attack run with, or without, a detection inside its detection window. */
module Documented {
  import opened Wrappers
  import opened Lists
  import opened Scenario
  import opened Baseline
  import opened Confusion

  // ---------- What is reported ----------

  function ReportedTp(runs: seq<Run>, dets: seq<real>, defaultWindow: real): Option<nat> {
    match ReportedCounts(runs, dets, defaultWindow) case None => None case Some(c) => Some(c.tp)
  }

  function ReportedFn(runs: seq<Run>, dets: seq<real>, defaultWindow: real): Option<nat> {
    match ReportedCounts(runs, dets, defaultWindow) case None => None case Some(c) => Some(c.fn)
  }

  function ReportedFp(runs: seq<Run>, dets: seq<real>, defaultWindow: real): Option<nat> {
    match ReportedCounts(runs, dets, defaultWindow) case None => None case Some(c) => c.fp
  }

  function ReportedTn(runs: seq<Run>, dets: seq<real>, defaultWindow: real): Option<nat> {
    match ReportedCounts(runs, dets, defaultWindow) case None => None case Some(c) => c.tn
  }

  // ---------- True positives ----------

  function Seconds(r: Run, defaultWindow: real): real { if r.window.Some? then r.window.value else defaultWindow }

  /** The detection comes within the window after the injection. */
  predicate InTime(r: Run, defaultWindow: real, t: real) {
    r.injection.Some? && 0.0 <= t - r.injection.value <= Seconds(r, defaultWindow)
  }

  /** The documented true positives among attack runs. */
  function Detected(runs: seq<Run>, dets: seq<real>, defaultWindow: real): set<string> {
    set i, t | 0 <= i < |runs| && t in dets && InTime(runs[i], defaultWindow, t) :: runs[i].runId
  }

  predicate CanDetect(r: Run, defaultWindow: real) { r.injection.Some? && Seconds(r, defaultWindow) >= 0.0 }

  /** The detection window lies inside the attack phase that the code looks at. */
  predicate Covered(r: Run, defaultWindow: real) {
    CanDetect(r, defaultWindow) ==>
      var ws := WindowOf(r, defaultWindow);
      ws != [] && ws[0].start <= r.injection.value && r.injection.value + Seconds(r, defaultWindow) <= ws[0].end
  }

  /** The detection windows of two runs have no instant in common. */
  predicate Apart(a: Run, b: Run, defaultWindow: real) {
    CanDetect(a, defaultWindow) && CanDetect(b, defaultWindow) ==>
      || a.injection.value + Seconds(a, defaultWindow) < b.injection.value
      || b.injection.value + Seconds(b, defaultWindow) < a.injection.value
  }

  predicate AllCovered(runs: seq<Run>, defaultWindow: real) { forall r :: r in runs ==> Covered(r, defaultWindow) }

  predicate AllApart(runs: seq<Run>, defaultWindow: real) {
    forall i, j :: 0 <= i < j < |runs| ==> Apart(runs[i], runs[j], defaultWindow)
  }

  lemma HitsAreInTime(r: Run, defaultWindow: real, w: AttackWindow, t: real)
    requires w in WindowOf(r, defaultWindow)
    ensures Hits(w, t) ==> InTime(r, defaultWindow, t)
    ensures Covered(r, defaultWindow) && InTime(r, defaultWindow, t) ==> Hits(w, t)
  {}

  lemma CoveredHasWindow(r: Run, defaultWindow: real, t: real)
    requires Covered(r, defaultWindow) && InTime(r, defaultWindow, t)
    ensures WindowOf(r, defaultWindow) != []
  {}

  lemma {:induction false} WindowMember(runs: seq<Run>, defaultWindow: real, w: AttackWindow)
    ensures w in AttackWindows(runs, defaultWindow) <==>
      exists i :: 0 <= i < |runs| && w in WindowOf(runs[i], defaultWindow)
  {
    hide WindowOf;
    if runs != [] {
      var init, last := runs[..|runs| - 1], runs[|runs| - 1];
      WindowMember(init, defaultWindow, w);
      if w in AttackWindows(init, defaultWindow) {
        var i :| 0 <= i < |init| && w in WindowOf(init[i], defaultWindow);
        assert w in WindowOf(runs[i], defaultWindow);
      }
      if exists i :: 0 <= i < |runs| && w in WindowOf(runs[i], defaultWindow) {
        var i :| 0 <= i < |runs| && w in WindowOf(runs[i], defaultWindow);
        if i < |init| { assert w in WindowOf(init[i], defaultWindow); }
      }
    }
  }

  lemma SameRun(runs: seq<Run>, i: nat, j: nat)
    requires Distinct(Ids(runs)) && i < |runs| && j < |runs| && runs[i].runId == runs[j].runId
    ensures i == j
  {
    assert Ids(runs)[i] == Ids(runs)[j];
  }

  /** The run behind a credit: the detection hits its window. */
  lemma Creditor(runs: seq<Run>, dets: seq<real>, defaultWindow: real, id: string) returns (i: nat, t: real,
      w: AttackWindow)
    requires id in Credited(AttackWindows(runs, defaultWindow), dets)
    ensures i < |runs| && runs[i].runId == id && t in dets && w in WindowOf(runs[i], defaultWindow) && Hits(w, t)
    ensures InTime(runs[i], defaultWindow, t)
  {
    hide WindowOf, AttackWindows;
    var ws := AttackWindows(runs, defaultWindow);
    t :| t in dets && IsCredit(ws, t) && ws[FirstHit(ws, t)].runId == id;
    w := ws[FirstHit(ws, t)];
    assert w in ws;
    WindowMember(runs, defaultWindow, w);
    i :| 0 <= i < |runs| && w in WindowOf(runs[i], defaultWindow);
    HitsAreInTime(runs[i], defaultWindow, w, t);
  }

  /** The code never counts a true positive that the documentation does not. */
  lemma CreditedAreDetected(runs: seq<Run>, dets: seq<real>, defaultWindow: real)
    ensures Credited(AttackWindows(runs, defaultWindow), dets) <= Detected(runs, dets, defaultWindow)
  {
    forall id | id in Credited(AttackWindows(runs, defaultWindow), dets)
      ensures id in Detected(runs, dets, defaultWindow) {
      var i, t, w := Creditor(runs, dets, defaultWindow, id);
    }
  }

  lemma InTimeTogether(a: Run, b: Run, defaultWindow: real, t: real)
    requires InTime(a, defaultWindow, t) && InTime(b, defaultWindow, t)
    ensures !Apart(a, b, defaultWindow)
  {}

  lemma HitGivesCredit(ws: seq<AttackWindow>, dets: seq<real>, w: AttackWindow, t: real)
    requires w in ws && t in dets && Hits(w, t)
    ensures IsCredit(ws, t) && ws[FirstHit(ws, t)] in ws && ws[FirstHit(ws, t)].runId in Credited(ws, dets)
  {
    var k :| 0 <= k < |ws| && ws[k] == w;
    assert Hits(ws[k], t);
  }

  lemma CoveredCountsAsDocumented(runs: seq<Run>, dets: seq<real>, defaultWindow: real)
    requires AllCovered(runs, defaultWindow) && AllApart(runs, defaultWindow)
    ensures Credited(AttackWindows(runs, defaultWindow), dets) == Detected(runs, dets, defaultWindow)
  {
    CreditedAreDetected(runs, dets, defaultWindow);
    var ws := AttackWindows(runs, defaultWindow);
    hide AttackWindows, WindowOf, Covered, Credited, Apart;
    forall id | id in Detected(runs, dets, defaultWindow) ensures id in Credited(ws, dets) {
      var i, t :| 0 <= i < |runs| && t in dets && InTime(runs[i], defaultWindow, t) && runs[i].runId == id;
      CoveredHasWindow(runs[i], defaultWindow, t);
      var w := WindowOf(runs[i], defaultWindow)[0];
      HitsAreInTime(runs[i], defaultWindow, w, t);
      WindowMember(runs, defaultWindow, w);
      HitGivesCredit(ws, dets, w, t);
      var first := ws[FirstHit(ws, t)];
      WindowMember(runs, defaultWindow, first);
      var j :| 0 <= j < |runs| && first in WindowOf(runs[j], defaultWindow);
      HitsAreInTime(runs[j], defaultWindow, first, t);
      InTimeTogether(runs[i], runs[j], defaultWindow, t);
      InTimeTogether(runs[j], runs[i], defaultWindow, t);
      assert i == j;
    }
  }

  /** A detection window that reaches outside the attack phase: some detection in it is not counted. */
  lemma UncoveredIsMissed(runs: seq<Run>, i: nat, defaultWindow: real) returns (t: real)
    requires Distinct(Ids(runs)) && i < |runs| && !Covered(runs[i], defaultWindow)
    ensures runs[i].runId in Detected(runs, [t], defaultWindow)
    ensures runs[i].runId !in Credited(AttackWindows(runs, defaultWindow), [t])
  {
    var r := runs[i];
    var ws := WindowOf(r, defaultWindow);
    t := if ws == [] || r.injection.value < ws[0].start then r.injection.value
      else r.injection.value + Seconds(r, defaultWindow);
    assert t in [t] && InTime(r, defaultWindow, t);
    if r.runId in Credited(AttackWindows(runs, defaultWindow), [t]) {
      var j, u, w := Creditor(runs, [t], defaultWindow, r.runId);
      SameRun(runs, i, j);
    }
  }

  /** Two detection windows that overlap: a detection in both counts for one run only. */
  lemma OverlapIsMissed(runs: seq<Run>, i: nat, j: nat, defaultWindow: real) returns (t: real)
    requires Distinct(Ids(runs)) && i < j < |runs| && !Apart(runs[i], runs[j], defaultWindow)
    ensures {runs[i].runId, runs[j].runId} <= Detected(runs, [t], defaultWindow)
    ensures Credited(AttackWindows(runs, defaultWindow), [t]) != Detected(runs, [t], defaultWindow)
  {
    var a, b := runs[i], runs[j];
    t := if a.injection.value < b.injection.value then b.injection.value else a.injection.value;
    assert t in [t] && InTime(a, defaultWindow, t) && InTime(b, defaultWindow, t);
    assert a.runId != b.runId by { assert Ids(runs)[i] != Ids(runs)[j]; }
    var ws := AttackWindows(runs, defaultWindow);
    assert forall id :: id in Credited(ws, [t]) ==> id == ws[FirstHit(ws, t)].runId;
  }

  /** The code counts the documented true positives, on every stream of detections, exactly when every
      detection window lies inside its attack phase and no two of them overlap. */
  lemma CountsAsDocumentedExactlyWhen(runs: seq<Run>, defaultWindow: real)
    requires Distinct(Ids(runs))
    ensures (forall dets: seq<real> ::
      Credited(AttackWindows(runs, defaultWindow), dets) == Detected(runs, dets, defaultWindow))
       <==> AllCovered(runs, defaultWindow) && AllApart(runs, defaultWindow)
  {
    hide Covered, Apart, Credited, AttackWindows, Distinct;
    if AllCovered(runs, defaultWindow) && AllApart(runs, defaultWindow) {
      forall dets: seq<real>
        ensures Credited(AttackWindows(runs, defaultWindow), dets) == Detected(runs, dets, defaultWindow) {
        CoveredCountsAsDocumented(runs, dets, defaultWindow);
      }
    } else if !AllCovered(runs, defaultWindow) {
      var i :| 0 <= i < |runs| && !Covered(runs[i], defaultWindow);
      var t := UncoveredIsMissed(runs, i, defaultWindow);
      assert Credited(AttackWindows(runs, defaultWindow), [t]) != Detected(runs, [t], defaultWindow);
    } else {
      var i, j :| 0 <= i < j < |runs| && !Apart(runs[i], runs[j], defaultWindow);
      var t := OverlapIsMissed(runs, i, j, defaultWindow);
    }
  }

  /** The documented false negatives: attack runs without a detection in time. */
  function Missed(runs: seq<Run>, dets: seq<real>, defaultWindow: real): set<string> {
    Elements(Ids(runs)) - Detected(runs, dets, defaultWindow)
  }

  ghost predicate AttacksAsDocumented(runs: seq<Run>, dets: seq<real>, defaultWindow: real) {
    var valid := ValidAttacks(runs);
    ReportedTp(runs, dets, defaultWindow) == Some(|Detected(valid, dets, defaultWindow)|)
      && ReportedFn(runs, dets, defaultWindow) == Some(|Missed(valid, dets, defaultWindow)|)
  }

  lemma SameSize(a: set<string>, b: set<string>)
    requires a <= b && |a| == |b|
    ensures a == b
  {
    assert b == a + (b - a);
  }

  lemma AttacksAsCredited(runs: seq<Run>, dets: seq<real>, defaultWindow: real)
    requires Distinct(Ids(ValidAttacks(runs))) && dets != []
    ensures AttacksAsDocumented(runs, dets, defaultWindow) <==>
      Credited(AttackWindows(ValidAttacks(runs), defaultWindow), dets)
        == Detected(ValidAttacks(runs), dets, defaultWindow)
  {
    var valid := ValidAttacks(runs);
    var credited, detected := Credited(AttackWindows(valid, defaultWindow), dets), Detected(valid, dets, defaultWindow);
    CreditedAreDetected(valid, dets, defaultWindow);
    ElementCount(Ids(valid));
    hide ValidAttacks, BenignRuns, AttackWindows, BenignWindows, Charges, InTime, Distinct;
    forall id | id in detected ensures id in Elements(Ids(valid)) {
      var i, t :| 0 <= i < |valid| && t in dets && InTime(valid[i], defaultWindow, t) && valid[i].runId == id;
      assert Ids(valid)[i] == id;
    }
    assert |Elements(Ids(valid)) - detected| == |Elements(Ids(valid))| - |detected|;
    hide Credited, Detected;
    if |credited| == |detected| { SameSize(credited, detected); }
  }

  /** With detections at hand, the reported true positives and false negatives are the documented ones on every
      stream exactly when every detection window lies inside its attack phase and no two overlap. */
  lemma AttacksAsDocumentedExactlyWhen(runs: seq<Run>, defaultWindow: real)
    requires Distinct(Ids(ValidAttacks(runs)))
    ensures (forall dets: seq<real> :: dets != [] ==> AttacksAsDocumented(runs, dets, defaultWindow)) <==>
      AllCovered(ValidAttacks(runs), defaultWindow) && AllApart(ValidAttacks(runs), defaultWindow)
  {
    hide ValidAttacks, AttackWindows, Credited, Detected, AttacksAsDocumented, AllCovered, AllApart, Distinct;
    var valid := ValidAttacks(runs);
    CountsAsDocumentedExactlyWhen(valid, defaultWindow);
    SilenceCreditsNothing(valid, defaultWindow);
    forall dets: seq<real> | dets != []
      ensures AttacksAsDocumented(runs, dets, defaultWindow) <==>
        Credited(AttackWindows(valid, defaultWindow), dets) == Detected(valid, dets, defaultWindow) {
      AttacksAsCredited(runs, dets, defaultWindow);
    }
  }

  lemma SilenceCreditsNothing(runs: seq<Run>, defaultWindow: real)
    ensures Credited(AttackWindows(runs, defaultWindow), []) == Detected(runs, [], defaultWindow)
  {}
}
