/** False alarms over a span of time: when is every instant between two times a false alarm? Decided from the
    ends of the windows alone. */
module Coverage {
  import opened Wrappers
  import opened Baseline

  /** A detection at `t` is a false alarm: it falls in an observed phase of a benign run and in no attack
      window. */
  predicate IsAlarm(ws: seq<AttackWindow>, bs: seq<BenignWindow>, t: real) {
    Observed(bs, t) && forall i :: 0 <= i < |ws| ==> !Hits(ws[i], t)
  }

  lemma AlarmIsFalseAlarm(ws: seq<AttackWindow>, bs: seq<BenignWindow>, t: real)
    ensures IsAlarm(ws, bs, t) <==> IsFalseAlarm(ws, bs, t)
  {
    if IsFalseAlarm(ws, bs, t) { assert Inside(bs[FirstInside(bs, t)], t); }
  }

  // ---------- Observed throughout ----------

  predicate Observed(bs: seq<BenignWindow>, t: real) { exists i :: 0 <= i < |bs| && Inside(bs[i], t) }

  /** Some window holds the instant and reaches beyond it. */
  predicate Continued(bs: seq<BenignWindow>, t: real) { exists i :: 0 <= i < |bs| && bs[i].start <= t < bs[i].end }

  /** The span begins in a window, and each window that ends within it is continued by another. */
  predicate Covers(bs: seq<BenignWindow>, from: real, to: real) {
    Observed(bs, from) && forall i :: 0 <= i < |bs| && from <= bs[i].end < to ==> Continued(bs, bs[i].end)
  }

  function EndingAfter(bs: seq<BenignWindow>, t: real): set<int> { set i | 0 <= i < |bs| && bs[i].end > t }

  /** Going from window to window, each reaching further, every instant of the span is met. */
  lemma FollowWindows(bs: seq<BenignWindow>, from: real, to: real, i: nat, t: real)
    requires Covers(bs, from, to) && i < |bs| && t <= to
    requires from <= bs[i].end && bs[i].start <= t
    ensures Observed(bs, t)
    decreases EndingAfter(bs, bs[i].end)
  {
    if t <= bs[i].end {
      assert Inside(bs[i], t);
    } else {
      assert Continued(bs, bs[i].end);
      var j :| 0 <= j < |bs| && bs[j].start <= bs[i].end < bs[j].end;
      assert j in EndingAfter(bs, bs[i].end) && j !in EndingAfter(bs, bs[j].end);
      FollowWindows(bs, from, to, j, t);
    }
  }

  /** The first start of a window after `t`, or `to` when none comes before. */
  function NextStart(bs: seq<BenignWindow>, t: real, to: real): (next: real)
    requires t < to
    ensures t < next <= to && forall i :: 0 <= i < |bs| && bs[i].start > t ==> next <= bs[i].start
  {
    if bs == [] then to
    else
      var init, last := bs[..|bs| - 1], bs[|bs| - 1];
      assert forall i :: 0 <= i < |init| ==> bs[i] == init[i];
      var next := NextStart(init, t, to);
      if t < last.start < next then last.start else next
  }

  /** Between an instant and the next start no window opens, so only one that is open then can be met. */
  lemma NothingOpens(bs: seq<BenignWindow>, t: real, to: real) returns (gap: real)
    requires t < to
    ensures t < gap < to && (Observed(bs, gap) ==> Continued(bs, t))
  {
    var next := NextStart(bs, t, to);
    gap := (t + next) / 2.0;
    if Observed(bs, gap) {
      var i :| 0 <= i < |bs| && Inside(bs[i], gap);
      assert bs[i].start <= t < bs[i].end;
    }
  }

  /** Every instant of the span is observed exactly when the windows cover it end by end. */
  lemma CoversExactlyWhen(bs: seq<BenignWindow>, from: real, to: real)
    requires from <= to
    ensures Covers(bs, from, to) <==> forall t: real :: from <= t <= to ==> Observed(bs, t)
  {
    if Covers(bs, from, to) {
      var i :| 0 <= i < |bs| && Inside(bs[i], from);
      forall t: real | from <= t <= to ensures Observed(bs, t) { FollowWindows(bs, from, to, i, t); }
    } else if forall t: real :: from <= t <= to ==> Observed(bs, t) {
      forall i | 0 <= i < |bs| && from <= bs[i].end < to ensures Continued(bs, bs[i].end) {
        var gap := NothingOpens(bs, bs[i].end, to);
        assert Observed(bs, gap);
      }
    }
  }

  // ---------- Clear of attacks ----------

  function Later(a: real, b: real): real { if a < b then b else a }

  function Earlier(a: real, b: real): real { if a < b then a else b }

  /** The span meets the part of the attack phase that lies in the detection window. */
  predicate Meets(w: AttackWindow, from: real, to: real) {
    w.injection.Some? && Later(from, Later(w.start, w.injection.value))
      <= Earlier(to, Earlier(w.end, w.injection.value + w.window))
  }

  lemma MeetsExactlyWhen(w: AttackWindow, from: real, to: real)
    ensures Meets(w, from, to) <==> exists t: real :: from <= t <= to && Hits(w, t)
  {
    if Meets(w, from, to) {
      var t := Later(from, Later(w.start, w.injection.value));
      assert from <= t <= to && Hits(w, t);
    }
  }

  // ---------- Alarms throughout ----------

  /** The span is covered by observed phases and meets no attack window. */
  predicate AlarmSpan(ws: seq<AttackWindow>, bs: seq<BenignWindow>, from: real, to: real) {
    Covers(bs, from, to) && forall i :: 0 <= i < |ws| ==> !Meets(ws[i], from, to)
  }

  /** A finite test on the ends of windows decides whether all instants of a span are false alarms. */
  lemma AlarmSpanExactlyWhen(ws: seq<AttackWindow>, bs: seq<BenignWindow>, from: real, to: real)
    requires from <= to
    ensures AlarmSpan(ws, bs, from, to) <==> forall t: real :: from <= t <= to ==> IsAlarm(ws, bs, t)
  {
    hide Covers, Meets, Observed, Hits;
    CoversExactlyWhen(bs, from, to);
    forall i | 0 <= i < |ws| ensures Meets(ws[i], from, to) <==> exists t: real :: from <= t <= to && Hits(ws[i], t) {
      MeetsExactlyWhen(ws[i], from, to);
    }
    if forall t: real :: from <= t <= to ==> IsAlarm(ws, bs, t) {
      forall t: real | from <= t <= to ensures Observed(bs, t) { assert IsAlarm(ws, bs, t); }
      forall i, t: real | 0 <= i < |ws| && from <= t <= to ensures !Hits(ws[i], t) { assert IsAlarm(ws, bs, t); }
    }
  }
}
