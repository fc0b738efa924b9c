/** `_evaluate_baseline`: detections of one detector against attack and benign runs. */
module Baseline {
  import opened Wrappers
  import opened Lists

  // ---------- Windows ----------

  datatype AttackWindow = AttackWindow(runId: string, start: real, end: real, injection: Option<real>, window: real)
  datatype BenignWindow = BenignWindow(runId: string, start: real, end: real)

  predicate Hits(w: AttackWindow, t: real) {
    w.start <= t <= w.end && w.injection.Some? && 0.0 <= t - w.injection.value <= w.window
  }

  predicate Inside(b: BenignWindow, t: real) { b.start <= t <= b.end }

  function WindowIds(ws: seq<AttackWindow>): (ids: seq<string>) ensures |ids| == |ws| {
    seq(|ws|, i requires 0 <= i < |ws| => ws[i].runId)
  }

  /** The first attack window a detection falls in, or |ws|. */
  function FirstHit(ws: seq<AttackWindow>, t: real): (i: nat)
    ensures i <= |ws| && (i < |ws| ==> Hits(ws[i], t)) && forall j :: 0 <= j < i ==> !Hits(ws[j], t)
  {
    if ws == [] then 0
    else
      var i := FirstHit(ws[..|ws| - 1], t);
      if i < |ws| - 1 || Hits(ws[i], t) then i else |ws|
  }

  function FirstInside(bs: seq<BenignWindow>, t: real): (i: nat)
    ensures i <= |bs| && (i < |bs| ==> Inside(bs[i], t)) && forall j :: 0 <= j < i ==> !Inside(bs[j], t)
  {
    if bs == [] then 0
    else
      var i := FirstInside(bs[..|bs| - 1], t);
      if i < |bs| - 1 || Inside(bs[i], t) then i else |bs|
  }

  predicate IsCredit(ws: seq<AttackWindow>, t: real) { FirstHit(ws, t) < |ws| }

  predicate IsFalseAlarm(ws: seq<AttackWindow>, bs: seq<BenignWindow>, t: real) {
    !IsCredit(ws, t) && FirstInside(bs, t) < |bs|
  }

  /** The attack runs that some detection is credited to. */
  function Credited(ws: seq<AttackWindow>, dets: seq<real>): set<string> {
    set t | t in dets && IsCredit(ws, t) :: ws[FirstHit(ws, t)].runId
  }

  /** The benign run charged with a detection that is a false alarm. */
  function Charge(ws: seq<AttackWindow>, bs: seq<BenignWindow>, t: real): seq<string> {
    if IsFalseAlarm(ws, bs, t) then [bs[FirstInside(bs, t)].runId] else []
  }

  /** The benign runs charged, one entry for each false alarm. */
  function Charges(ws: seq<AttackWindow>, bs: seq<BenignWindow>, dets: seq<real>): seq<string> {
    if dets == [] then [] else Charges(ws, bs, dets[..|dets| - 1]) + Charge(ws, bs, dets[|dets| - 1])
  }

  // ---------- Classification ----------

  lemma CreditedNext(ws: seq<AttackWindow>, dets: seq<real>, k: nat)
    requires k < |dets|
    ensures Credited(ws, dets[..k + 1]) == Credited(ws, dets[..k]) +
      if IsCredit(ws, dets[k]) then {ws[FirstHit(ws, dets[k])].runId} else {}
  {
    assert dets[..k + 1] == dets[..k] + [dets[k]];
  }

  lemma ChargesNext(ws: seq<AttackWindow>, bs: seq<BenignWindow>, dets: seq<real>, k: nat)
    requires k < |dets|
    ensures Charges(ws, bs, dets[..k + 1]) == Charges(ws, bs, dets[..k]) + Charge(ws, bs, dets[k])
  {
    assert dets[..k + 1][..k] == dets[..k];
  }

  /** One detection against the attack windows in order, then against the benign ones. */
  method ClassifyOne(ws: seq<AttackWindow>, bs: seq<BenignWindow>, t: real, tpRuns: set<string>, fpCount: nat)
    returns (runs: set<string>, count: nat)
    ensures runs == tpRuns + if IsCredit(ws, t) then {ws[FirstHit(ws, t)].runId} else {}
    ensures count == fpCount + if IsFalseAlarm(ws, bs, t) then 1 else 0
  {
    runs, count := tpRuns, fpCount;
    var classified := false;
    for i := 0 to |ws|
      invariant !classified && runs == tpRuns
      invariant forall j :: 0 <= j < i ==> !Hits(ws[j], t)
    {
      var w := ws[i];
      if !(w.start <= t <= w.end) { continue; }
      if w.injection.None? { continue; }
      var delta := t - w.injection.value;
      if 0.0 <= delta <= w.window {
        assert Hits(w, t);
        runs := runs + {w.runId};
        classified := true;
        assert FirstHit(ws, t) == i;
        break;
      }
    }
    assert classified <==> IsCredit(ws, t);
    if !classified {
      for i := 0 to |bs|
        invariant count == fpCount
        invariant forall j :: 0 <= j < i ==> !Inside(bs[j], t)
      {
        if Inside(bs[i], t) {
          count := count + 1;
          break;
        }
      }
    }
  }

  method Classify(ws: seq<AttackWindow>, bs: seq<BenignWindow>, dets: seq<real>)
    returns (tpRuns: set<string>, fpCount: nat)
    ensures tpRuns == Credited(ws, dets) && fpCount == |Charges(ws, bs, dets)|
  {
    tpRuns, fpCount := {}, 0;
    for k := 0 to |dets|
      invariant tpRuns == Credited(ws, dets[..k]) && fpCount == |Charges(ws, bs, dets[..k])|
    {
      CreditedNext(ws, dets, k);
      ChargesNext(ws, bs, dets, k);
      tpRuns, fpCount := ClassifyOne(ws, bs, dets[k], tpRuns, fpCount);
    }
    assert dets[..|dets|] == dets;
  }

  /** A detection earns at most one credit or one false alarm, so together they are at most the detections. */
  lemma {:induction false} EachDetectionCountsOnce(ws: seq<AttackWindow>, bs: seq<BenignWindow>, dets: seq<real>)
    ensures |Credited(ws, dets)| + |Charges(ws, bs, dets)| <= |dets|
  {
    if dets == [] {
      assert Credited(ws, dets) == {};
    } else {
      var k := |dets| - 1;
      EachDetectionCountsOnce(ws, bs, dets[..k]);
      CreditedNext(ws, dets, k);
      ChargesNext(ws, bs, dets, k);
      assert dets[..k + 1] == dets;
    }
  }

  /** Credited runs never outnumber the attack windows, whatever their ids. */
  lemma CreditedAmongWindows(ws: seq<AttackWindow>, dets: seq<real>)
    ensures Credited(ws, dets) <= Elements(WindowIds(ws)) && |Credited(ws, dets)| <= |ws|
  {
    forall id | id in Credited(ws, dets) ensures id in Elements(WindowIds(ws)) {
      var t :| t in dets && IsCredit(ws, t) && ws[FirstHit(ws, t)].runId == id;
      assert WindowIds(ws)[FirstHit(ws, t)] == id;
    }
    ElementCount(WindowIds(ws));
    SubsetSize(Credited(ws, dets), Elements(WindowIds(ws)));
  }

  lemma SubsetSize<T>(a: set<T>, b: set<T>)
    requires a <= b
    ensures |a| <= |b|
  {
    assert b == a + (b - a);
  }

  /** A run is a true positive exactly when some detection falls in its window and in no earlier one. */
  lemma CreditedExactlyWhen(ws: seq<AttackWindow>, dets: seq<real>, i: nat)
    requires Distinct(WindowIds(ws)) && i < |ws|
    ensures ws[i].runId in Credited(ws, dets) <==>
      exists t :: t in dets && Hits(ws[i], t) && forall j :: 0 <= j < i ==> !Hits(ws[j], t)
  {
    if ws[i].runId in Credited(ws, dets) {
      var t :| t in dets && IsCredit(ws, t) && ws[FirstHit(ws, t)].runId == ws[i].runId;
      SameWindow(ws, FirstHit(ws, t), i);
    }
    forall t | t in dets && Hits(ws[i], t) && forall j :: 0 <= j < i ==> !Hits(ws[j], t)
      ensures FirstHit(ws, t) == i
    {}
  }

  lemma SameWindow(ws: seq<AttackWindow>, i: nat, j: nat)
    requires Distinct(WindowIds(ws)) && i < |ws| && j < |ws| && ws[i].runId == ws[j].runId
    ensures i == j
  {
    assert WindowIds(ws)[i] == WindowIds(ws)[j];
  }

  // ---------- Delays ----------

  predicate HitBy(w: AttackWindow, dets: seq<real>) { exists k :: 0 <= k < |dets| && Hits(w, dets[k]) }

  /** The delay of the earliest detection in a window. */
  ghost predicate IsLeastDelay(w: AttackWindow, dets: seq<real>, delay: real) {
    && (exists t :: t in dets && Hits(w, t) && delay == t - w.injection.value)
    && forall t :: t in dets && Hits(w, t) ==> delay <= t - w.injection.value
  }

  predicate IsTimed(w: AttackWindow, dets: seq<real>, tpRuns: set<string>) {
    w.runId in tpRuns && HitBy(w, dets)
  }

  function Entry(w: AttackWindow, dets: seq<real>, tpRuns: set<string>): seq<AttackWindow> {
    if IsTimed(w, dets, tpRuns) then [w] else []
  }

  /** The windows that contribute a delay, in order. */
  function DelayedWindows(ws: seq<AttackWindow>, dets: seq<real>, tpRuns: set<string>): seq<AttackWindow> {
    if ws == [] then [] else DelayedWindows(ws[..|ws| - 1], dets, tpRuns) + Entry(ws[|ws| - 1], dets, tpRuns)
  }

  ghost predicate AreLeastDelays(timed: seq<AttackWindow>, dets: seq<real>, delays: seq<real>) {
    |delays| == |timed| && forall i :: 0 <= i < |timed| ==> IsLeastDelay(timed[i], dets, delays[i])
  }

  method LeastDelay(w: AttackWindow, dets: seq<real>) returns (delay: Option<real>)
    ensures delay.Some? <==> HitBy(w, dets)
    ensures delay.Some? ==> IsLeastDelay(w, dets, delay.value)
  {
    delay := None;
    for k := 0 to |dets|
      invariant delay.Some? <==> HitBy(w, dets[..k])
      invariant delay.Some? ==> IsLeastDelay(w, dets[..k], delay.value)
    {
      HitByNext(w, dets, k);
      if Hits(w, dets[k]) {
        var here := dets[k] - w.injection.value;
        if delay.None? || here < delay.value { delay := Some(here); }
        LeastNext(w, dets, k, delay.value);
      } else if delay.Some? {
        LeastNext(w, dets, k, delay.value);
      }
    }
    assert dets[..|dets|] == dets;
  }

  lemma HitByNext(w: AttackWindow, dets: seq<real>, k: nat)
    requires k < |dets|
    ensures HitBy(w, dets[..k + 1]) <==> HitBy(w, dets[..k]) || Hits(w, dets[k])
  {
    if HitBy(w, dets[..k]) {
      var i :| 0 <= i < k && Hits(w, dets[..k][i]);
      assert dets[..k + 1][i] == dets[..k][i];
    }
    if Hits(w, dets[k]) { assert dets[..k + 1][k] == dets[k]; }
  }

  lemma LeastNext(w: AttackWindow, dets: seq<real>, k: nat, delay: real)
    requires k < |dets|
    requires Hits(w, dets[k]) ==> delay <= dets[k] - w.injection.value
    requires forall t :: t in dets[..k] && Hits(w, t) ==> delay <= t - w.injection.value
    requires (exists t :: t in dets[..k] && Hits(w, t) && delay == t - w.injection.value)
      || (Hits(w, dets[k]) && delay == dets[k] - w.injection.value)
    ensures IsLeastDelay(w, dets[..k + 1], delay)
  {
    assert dets[..k + 1] == dets[..k] + [dets[k]];
    assert dets[k] in dets[..k + 1];
  }

  /** The second loop: one delay for each window of a credited run that some detection falls in. */
  method CollectDelays(ws: seq<AttackWindow>, dets: seq<real>, tpRuns: set<string>) returns (delays: seq<real>)
    ensures AreLeastDelays(DelayedWindows(ws, dets, tpRuns), dets, delays)
  {
    hide IsLeastDelay, HitBy;
    delays := [];
    for k := 0 to |ws|
      invariant AreLeastDelays(DelayedWindows(ws[..k], dets, tpRuns), dets, delays)
    {
      assert ws[..k + 1][..k] == ws[..k];
      if ws[k].runId in tpRuns {
        var delay := LeastDelay(ws[k], dets);
        if delay.Some? { delays := delays + [delay.value]; }
      }
    }
    assert ws[..|ws|] == ws;
  }

  lemma AppendId(ws: seq<AttackWindow>, w: AttackWindow)
    ensures WindowIds(ws + [w]) == WindowIds(ws) + [w.runId]
  {}

  lemma IdIn(ws: seq<AttackWindow>, w: AttackWindow)
    requires w in ws
    ensures w.runId in WindowIds(ws)
  {
    var k :| 0 <= k < |ws| && ws[k] == w;
    assert WindowIds(ws)[k] == w.runId;
  }

  lemma {:induction false} DelayedMember(ws: seq<AttackWindow>, dets: seq<real>, tpRuns: set<string>)
    ensures forall w :: w in DelayedWindows(ws, dets, tpRuns) <==> w in ws && IsTimed(w, dets, tpRuns)
  {
    hide IsTimed;
    if ws != [] {
      DelayedMember(ws[..|ws| - 1], dets, tpRuns);
      assert ws == ws[..|ws| - 1] + [ws[|ws| - 1]];
    }
  }

  lemma {:induction false} DelayedDistinct(ws: seq<AttackWindow>, dets: seq<real>, tpRuns: set<string>)
    requires Distinct(WindowIds(ws))
    ensures Distinct(WindowIds(DelayedWindows(ws, dets, tpRuns)))
  {
    hide IsTimed, Distinct, WindowIds;
    if ws == [] {
      ElementCount(WindowIds(DelayedWindows(ws, dets, tpRuns)));
      ElementCount(WindowIds(ws));
    } else {
      var init, last := ws[..|ws| - 1], ws[|ws| - 1];
      assert ws == init + [last];
      AppendId(init, last);
      AppendDistinct(WindowIds(init), last.runId);
      DelayedDistinct(init, dets, tpRuns);
      var prior := DelayedWindows(init, dets, tpRuns);
      AppendId(prior, last);
      AppendDistinct(WindowIds(prior), last.runId);
      if last.runId in WindowIds(prior) { PriorIds(init, dets, tpRuns, last.runId); }
      assert prior + [] == prior;
    }
  }

  lemma PriorIds(ws: seq<AttackWindow>, dets: seq<real>, tpRuns: set<string>, id: string)
    requires id in WindowIds(DelayedWindows(ws, dets, tpRuns))
    ensures id in WindowIds(ws)
  {
    var timed := DelayedWindows(ws, dets, tpRuns);
    DelayedMember(ws, dets, tpRuns);
    var k :| 0 <= k < |timed| && WindowIds(timed)[k] == id;
    IdIn(ws, timed[k]);
  }

  /** With distinct run ids there is exactly one delay for each true-positive run. */
  lemma OneDelayPerTruePositive(ws: seq<AttackWindow>, dets: seq<real>)
    requires Distinct(WindowIds(ws))
    ensures
      var timed := DelayedWindows(ws, dets, Credited(ws, dets));
      && |timed| == |Credited(ws, dets)|
      && Elements(WindowIds(timed)) == Credited(ws, dets)
  {
    hide DelayedWindows, Distinct;
    var tpRuns := Credited(ws, dets);
    var timed := DelayedWindows(ws, dets, tpRuns);
    DelayedMember(ws, dets, tpRuns);
    DelayedDistinct(ws, dets, tpRuns);
    forall id | id in tpRuns ensures id in Elements(WindowIds(timed)) {
      var t :| t in dets && IsCredit(ws, t) && ws[FirstHit(ws, t)].runId == id;
      CreditIsTimed(ws, dets, t);
      IdIn(timed, ws[FirstHit(ws, t)]);
    }
    forall id | id in Elements(WindowIds(timed)) ensures id in tpRuns {
      var k :| 0 <= k < |timed| && WindowIds(timed)[k] == id;
      assert timed[k] in timed;
    }
    assert Elements(WindowIds(timed)) == tpRuns;
    ElementCount(WindowIds(timed));
  }

  lemma CreditIsTimed(ws: seq<AttackWindow>, dets: seq<real>, t: real)
    requires t in dets && IsCredit(ws, t)
    ensures IsTimed(ws[FirstHit(ws, t)], dets, Credited(ws, dets))
  {
    var k :| 0 <= k < |dets| && dets[k] == t;
    assert Hits(ws[FirstHit(ws, t)], dets[k]);
  }

  // ---------- Order of detections ----------

  lemma {:induction false} ChargesConcat(ws: seq<AttackWindow>, bs: seq<BenignWindow>, a: seq<real>, b: seq<real>)
    ensures Charges(ws, bs, a + b) == Charges(ws, bs, a) + Charges(ws, bs, b)
  {
    hide Charge;
    if b == [] {
      assert a + b == a;
    } else {
      var init := b[..|b| - 1];
      ChargesConcat(ws, bs, a, init);
      InitOfConcat(a, b);
      Associative(Charges(ws, bs, a), Charges(ws, bs, init), Charge(ws, bs, b[|b| - 1]));
    }
  }

  lemma ChargesAround(ws: seq<AttackWindow>, bs: seq<BenignWindow>, b: seq<real>, i: nat)
    requires i < |b|
    ensures multiset(Charges(ws, bs, b)) ==
      multiset(Charges(ws, bs, b[..i] + b[i + 1..])) + multiset(Charge(ws, bs, b[i]))
  {
    hide Charge;
    assert b == b[..i + 1] + b[i + 1..];
    ChargesNext(ws, bs, b, i);
    ChargesConcat(ws, bs, b[..i + 1], b[i + 1..]);
    ChargesConcat(ws, bs, b[..i], b[i + 1..]);
  }

  lemma {:induction false} ChargesIgnoreOrder(ws: seq<AttackWindow>, bs: seq<BenignWindow>, a: seq<real>, b: seq<real>)
    requires multiset(a) == multiset(b)
    ensures multiset(Charges(ws, bs, a)) == multiset(Charges(ws, bs, b))
    decreases |a|
  {
    hide Charge;
    if a == [] {
      assert |multiset(b)| == |b|;
    } else {
      var i := FindLast(a, b);
      ChargesIgnoreOrder(ws, bs, a[..|a| - 1], b[..i] + b[i + 1..]);
      ChargesAround(ws, bs, b, i);
    }
  }

  lemma DelaysIgnoreOrder(ws: seq<AttackWindow>, a: seq<real>, b: seq<real>, tpRuns: set<string>)
    requires forall t :: t in a <==> t in b
    ensures DelayedWindows(ws, a, tpRuns) == DelayedWindows(ws, b, tpRuns)
  {
    if ws != [] {
      DelaysIgnoreOrder(ws[..|ws| - 1], a, b, tpRuns);
      SameHits(ws[|ws| - 1], a, b);
      SameHits(ws[|ws| - 1], b, a);
    }
  }

  lemma SameHits(w: AttackWindow, a: seq<real>, b: seq<real>)
    requires forall t :: t in a ==> t in b
    ensures HitBy(w, a) ==> HitBy(w, b)
  {
    if HitBy(w, a) {
      var k :| 0 <= k < |a| && Hits(w, a[k]);
      assert a[k] in b;
    }
  }

  /** Credits, false alarms and delays do not depend on the order of the detections. */
  lemma OrderIsIrrelevant(ws: seq<AttackWindow>, bs: seq<BenignWindow>, a: seq<real>, b: seq<real>, x: seq<real>,
      y: seq<real>)
    requires multiset(a) == multiset(b)
    requires AreLeastDelays(DelayedWindows(ws, a, Credited(ws, a)), a, x)
    requires AreLeastDelays(DelayedWindows(ws, b, Credited(ws, b)), b, y)
    ensures Credited(ws, a) == Credited(ws, b)
    ensures |Charges(ws, bs, a)| == |Charges(ws, bs, b)|
    ensures x == y
  {
    assert forall t :: t in a <==> t in multiset(a);
    assert forall t :: t in b <==> t in multiset(b);
    ChargesIgnoreOrder(ws, bs, a, b);
    assert |multiset(Charges(ws, bs, a))| == |multiset(Charges(ws, bs, b))|;
    assert Credited(ws, a) == Credited(ws, b);
    DelaysIgnoreOrder(ws, a, b, Credited(ws, a));
    var timed := DelayedWindows(ws, a, Credited(ws, a));
    forall i | 0 <= i < |timed| ensures x[i] == y[i] {
      assert IsLeastDelay(timed[i], a, x[i]) && IsLeastDelay(timed[i], b, y[i]);
    }
  }
}
