/** The confusion matrix that `_evaluate_baseline` reports for one detector. */
module Confusion {
  import opened Wrappers
  import opened Lists
  import opened Scenario
  import opened Baseline
  import Report

  // ---------- Eligible runs ----------

  predicate Eligible(r: Run) { r.status != "unknown_contract_state" }

  function ValidAttacks(runs: seq<Run>): seq<Run> {
    Filter((r: Run) => Eligible(r) && r.truthLabel == 1 && !FailedInjection(r), runs)
  }

  function FailedAttacks(runs: seq<Run>): seq<Run> {
    Filter((r: Run) => Eligible(r) && r.truthLabel == 1 && FailedInjection(r), runs)
  }

  function BenignRuns(runs: seq<Run>): seq<Run> {
    Filter((r: Run) => Eligible(r) && r.truthLabel == 0, runs)
  }

  // ---------- Windows of runs ----------

  /** `next((p for p in phases if p.name == "attack"), None)` */
  function AttackPhase(phases: seq<Phase>): Option<Phase> {
    if phases == [] then None
    else if phases[0].name == "attack" then Some(phases[0])
    else AttackPhase(phases[1..])
  }

  function WindowOf(r: Run, defaultWindow: real): (ws: seq<AttackWindow>)
    ensures |ws| <= 1 && forall w :: w in ws ==> w.runId == r.runId
  {
    var phase := AttackPhase(r.phases);
    if phase.Some? && phase.value.start.Some? && phase.value.end.Some? then
      var window := if r.window.Some? then r.window.value else defaultWindow;
      [AttackWindow(r.runId, phase.value.start.value, phase.value.end.value, r.injection, window)]
    else []
  }

  function AttackWindows(runs: seq<Run>, defaultWindow: real): (ws: seq<AttackWindow>)
    ensures |ws| <= |runs|
  {
    if runs == [] then []
    else AttackWindows(runs[..|runs| - 1], defaultWindow) + WindowOf(runs[|runs| - 1], defaultWindow)
  }

  method BuildAttackWindows(runs: seq<Run>, defaultWindow: real) returns (ws: seq<AttackWindow>)
    ensures ws == AttackWindows(runs, defaultWindow)
  {
    ws := [];
    for k := 0 to |runs|
      invariant ws == AttackWindows(runs[..k], defaultWindow)
    {
      assert runs[..k + 1][..k] == runs[..k];
      var r := runs[k];
      var phase := AttackPhase(r.phases);
      if phase.Some? && phase.value.start.Some? && phase.value.end.Some? {
        var window := if r.window.Some? then r.window.value else defaultWindow;
        ws := ws + [AttackWindow(r.runId, phase.value.start.value, phase.value.end.value, r.injection, window)];
      }
    }
    assert runs[..|runs|] == runs;
  }

  function PhaseWindow(r: Run, p: Phase): (bs: seq<BenignWindow>)
    ensures forall b :: b in bs ==> b.runId == r.runId
  {
    if p.name in ["baseline", "attack", "post_recovery"] && p.start.Some? && p.end.Some? then
      [BenignWindow(r.runId, p.start.value, p.end.value)]
    else []
  }

  function PhaseWindows(r: Run, phases: seq<Phase>): (bs: seq<BenignWindow>)
    ensures forall b :: b in bs ==> b.runId == r.runId
  {
    if phases == [] then [] else PhaseWindows(r, phases[..|phases| - 1]) + PhaseWindow(r, phases[|phases| - 1])
  }

  function BenignWindows(runs: seq<Run>): (bs: seq<BenignWindow>)
    ensures forall b :: b in bs ==> b.runId in Ids(runs)
  {
    if runs == [] then []
    else
      var k := |runs| - 1;
      assert forall i :: 0 <= i < k ==> Ids(runs)[i] == Ids(runs[..k])[i];
      assert Ids(runs)[k] == runs[k].runId;
      BenignWindows(runs[..k]) + PhaseWindows(runs[k], runs[k].phases)
  }

  method BuildBenignWindows(runs: seq<Run>) returns (bs: seq<BenignWindow>)
    ensures bs == BenignWindows(runs)
  {
    hide PhaseWindow;
    bs := [];
    for k := 0 to |runs|
      invariant bs == BenignWindows(runs[..k])
    {
      assert runs[..k + 1][..k] == runs[..k];
      var r := runs[k];
      ghost var before := bs;
      for i := 0 to |r.phases|
        invariant bs == before + PhaseWindows(r, r.phases[..i])
      {
        assert r.phases[..i + 1][..i] == r.phases[..i];
        bs := bs + PhaseWindow(r, r.phases[i]);
      }
      assert r.phases[..|r.phases|] == r.phases;
    }
    assert runs[..|runs|] == runs;
  }

  function PhaseSeconds(r: Run, phases: seq<Phase>): real {
    if phases == [] then 0.0
    else
      var k := |phases| - 1;
      PhaseSeconds(r, phases[..k]) +
        (if PhaseWindow(r, phases[k]) == [] then 0.0 else phases[k].end.value - phases[k].start.value)
  }

  function BenignSeconds(runs: seq<Run>): real {
    if runs == [] then 0.0
    else BenignSeconds(runs[..|runs| - 1]) + PhaseSeconds(runs[|runs| - 1], runs[|runs| - 1].phases)
  }

  // ---------- Distinct ids ----------

  lemma {:induction false} WindowsOfRuns(runs: seq<Run>, defaultWindow: real)
    ensures forall id :: id in WindowIds(AttackWindows(runs, defaultWindow)) ==> id in Ids(runs)
    ensures Distinct(Ids(runs)) ==> Distinct(WindowIds(AttackWindows(runs, defaultWindow)))
  {
    hide WindowOf, Distinct;
    if runs == [] {
      ElementCount(WindowIds(AttackWindows(runs, defaultWindow)));
      assert Elements(WindowIds(AttackWindows(runs, defaultWindow))) == {};
    } else {
      var init, last := runs[..|runs| - 1], runs[|runs| - 1];
      WindowsOfRuns(init, defaultWindow);
      assert Ids(runs) == Ids(init) + [last.runId];
      AppendDistinct(Ids(init), last.runId);
      var prior, added := AttackWindows(init, defaultWindow), WindowOf(last, defaultWindow);
      if added == [] {
        assert prior + added == prior;
      } else {
        assert added == [added[0]];
        AppendId(prior, added[0]);
        AppendDistinct(WindowIds(prior), last.runId);
      }
    }
  }

  // ---------- Counts ----------

  function TrueNegatives(benign: nat, fp: nat): nat { if benign < fp then 0 else benign - fp }

  function ChargesOf(runs: seq<Run>, dets: seq<real>, defaultWindow: real): seq<string> {
    Charges(AttackWindows(ValidAttacks(runs), defaultWindow), BenignWindows(BenignRuns(runs)), dets)
  }

  function CountsOf(runs: seq<Run>, dets: seq<real>, defaultWindow: real): Report.Counts {
    var ws := AttackWindows(ValidAttacks(runs), defaultWindow);
    var tp := |Credited(ws, dets)|;
    CreditedAmongWindows(ws, dets);
    var benign, fp := |BenignRuns(runs)|, |ChargesOf(runs, dets, defaultWindow)|;
    Report.Counts(tp, |ValidAttacks(runs)| - tp,
      if benign > 0 then Some(fp) else None,
      if benign > 0 then Some(TrueNegatives(benign, fp)) else None)
  }

  /** What is reported: without detections the telemetry counts as unavailable, and so do all counts. */
  function ReportedCounts(runs: seq<Run>, dets: seq<real>, defaultWindow: real): Option<Report.Counts> {
    if dets == [] then None else Some(CountsOf(runs, dets, defaultWindow))
  }

  datatype Evaluation =
    | Unavailable(attacks: nat, benign: nat, excluded: nat)
    | Evaluated(counts: Report.Counts, attacks: nat, benign: nat, excluded: nat, delays: seq<real>, benignSeconds: real)

  /** `_evaluate_baseline`, up to the rates computed from its counts. */
  method EvaluateBaseline(dets: seq<real>, runs: seq<Run>, defaultWindow: real) returns (e: Evaluation)
    ensures e.attacks == |ValidAttacks(runs)| && e.benign == |BenignRuns(runs)| && e.excluded == |FailedAttacks(runs)|
    ensures ReportedCounts(runs, dets, defaultWindow) == if e.Evaluated? then Some(e.counts) else None
    ensures e.Evaluated? ==>
      var ws := AttackWindows(ValidAttacks(runs), defaultWindow);
      && AreLeastDelays(DelayedWindows(ws, dets, Credited(ws, dets)), dets, e.delays)
      && e.benignSeconds == BenignSeconds(BenignRuns(runs))
  {
    hide AreLeastDelays, DelayedWindows, Credited, Charges, BenignWindows, AttackWindows;
    var valid, benign := ValidAttacks(runs), BenignRuns(runs);
    hide ValidAttacks, BenignRuns, FailedAttacks;
    var excluded := |FailedAttacks(runs)|;
    if dets == [] { return Unavailable(|valid|, |benign|, excluded); }
    var ws := BuildAttackWindows(valid, defaultWindow);
    var bs := BuildBenignWindows(benign);
    var tpRuns, fpCount := Classify(ws, bs, dets);
    var delays := CollectDelays(ws, dets, tpRuns);
    CreditedAmongWindows(ws, dets);
    var fp := if benign != [] then Some(fpCount) else None;
    var tn := if benign != [] then Some(if 0 < |benign| - fpCount then |benign| - fpCount else 0) else None;
    e := Evaluated(Report.Counts(|tpRuns|, |valid| - |tpRuns|, fp, tn), |valid|, |benign|, excluded, delays,
      BenignSeconds(benign));
  }

  /** With distinct run ids: every valid attack run is a true positive or a false negative, there is one
      delay for each true positive, and credits and false alarms share out the detections. */
  lemma CountsAddUp(runs: seq<Run>, dets: seq<real>, defaultWindow: real, delays: seq<real>)
    requires Distinct(Ids(ValidAttacks(runs)))
    requires
      var ws := AttackWindows(ValidAttacks(runs), defaultWindow);
      AreLeastDelays(DelayedWindows(ws, dets, Credited(ws, dets)), dets, delays)
    ensures
      var c := CountsOf(runs, dets, defaultWindow);
      && c.tp + c.fn == |ValidAttacks(runs)|
      && |delays| == c.tp
      && (c.fp.Some? ==> c.tp + c.fp.value <= |dets|)
  {
    var ws := AttackWindows(ValidAttacks(runs), defaultWindow);
    hide ValidAttacks, BenignRuns, DelayedWindows, Credited, Charges, BenignWindows, AttackWindows, Distinct;
    WindowsOfRuns(ValidAttacks(runs), defaultWindow);
    OneDelayPerTruePositive(ws, dets);
    EachDetectionCountsOnce(ws, BenignWindows(BenignRuns(runs)), dets);
  }

  // ---------- True negatives ----------

  /** The benign runs that no false alarm is charged to. */
  function Uncharged(runs: seq<Run>, dets: seq<real>, defaultWindow: real): set<string> {
    Elements(Ids(BenignRuns(runs))) - Elements(ChargesOf(runs, dets, defaultWindow))
  }

  lemma {:induction false} ChargesAreBenign(ws: seq<AttackWindow>, bs: seq<BenignWindow>, dets: seq<real>, id: string)
    requires id in Charges(ws, bs, dets)
    ensures exists t, i :: t in dets && 0 <= i < |bs| && !IsCredit(ws, t) && Inside(bs[i], t) && bs[i].runId == id
  {
    var k := |dets| - 1;
    if id in Charge(ws, bs, dets[k]) {
      assert dets[k] in dets && Inside(bs[FirstInside(bs, dets[k])], dets[k]);
    } else {
      ChargesAreBenign(ws, bs, dets[..k], id);
      var t, i :| t in dets[..k] && 0 <= i < |bs| && !IsCredit(ws, t) && Inside(bs[i], t) && bs[i].runId == id;
      assert t in dets;
    }
  }

  lemma ChargesAmongBenign(runs: seq<Run>, dets: seq<real>, defaultWindow: real)
    ensures Elements(ChargesOf(runs, dets, defaultWindow)) <= Elements(Ids(BenignRuns(runs)))
  {
    hide ValidAttacks, BenignRuns, AttackWindows;
    var ws, bs := AttackWindows(ValidAttacks(runs), defaultWindow), BenignWindows(BenignRuns(runs));
    forall id | id in Charges(ws, bs, dets) ensures id in Ids(BenignRuns(runs)) {
      ChargesAreBenign(ws, bs, dets, id);
      var t, i :| t in dets && 0 <= i < |bs| && !IsCredit(ws, t) && Inside(bs[i], t) && bs[i].runId == id;
      assert bs[i] in bs;
    }
  }

  /** The reported true negatives never exceed the benign runs without a false alarm. They are equal
      exactly when no run is charged twice, or when every benign run is charged. */
  lemma TrueNegativesExactlyWhen(runs: seq<Run>, dets: seq<real>, defaultWindow: real)
    requires Distinct(Ids(BenignRuns(runs))) && BenignRuns(runs) != [] && dets != []
    ensures
      var reported := ReportedCounts(runs, dets, defaultWindow);
      reported.Some? && var tn, quiet := reported.value.tn, Uncharged(runs, dets, defaultWindow);
      && tn.Some? && tn.value <= |quiet|
      && (tn.value == |quiet| <==> Distinct(ChargesOf(runs, dets, defaultWindow)) || quiet == {})
  {
    hide ValidAttacks, BenignRuns, AttackWindows, BenignWindows, Charges, Credited, Distinct;
    var charges, ids := ChargesOf(runs, dets, defaultWindow), Ids(BenignRuns(runs));
    ChargesAmongBenign(runs, dets, defaultWindow);
    ElementCount(charges);
    ElementCount(ids);
    assert |Elements(ids) - Elements(charges)| == |Elements(ids)| - |Elements(charges)|;
  }
}
