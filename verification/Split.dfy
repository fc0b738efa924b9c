/** `_split_scenario_ids`: the train, validation and test split by scenario family and repetition. */
module Split {
  import opened Lists
  import opened Scenario
  import Sorting

  const TRAIN_FAMILIES: set<string> := {"benign_update", "high_load", "pod_restart"}
  const TEST_FAMILIES: set<string> := {"supply_chain_backdoor", "dependency_confusion", "build_pipeline_tampering"}

  datatype Split = Split(train: seq<Run>, validation: seq<Run>, test: seq<Run>)

  // ---------- Families ----------

  /** The families in order of first appearance: the key order of the dictionary. */
  function Families(runs: seq<Run>): seq<string> {
    if runs == [] then []
    else
      var prior, family := Families(runs[..|runs| - 1]), runs[|runs| - 1].family;
      if family in prior then prior else prior + [family]
  }

  function Group(runs: seq<Run>, family: string): seq<Run> {
    if runs == [] then []
    else
      var last := runs[|runs| - 1];
      if last.family == family then Group(runs[..|runs| - 1], family) + [last] else Group(runs[..|runs| - 1], family)
  }

  lemma {:induction false} GroupMember(runs: seq<Run>, family: string)
    ensures forall r :: r in Group(runs, family) <==> r in runs && r.family == family
  {
    if runs != [] {
      GroupMember(runs[..|runs| - 1], family);
      assert runs == runs[..|runs| - 1] + [runs[|runs| - 1]];
    }
  }

  lemma {:induction false} FamiliesOnce(runs: seq<Run>)
    ensures Distinct(Families(runs))
    ensures forall r :: r in runs ==> r.family in Families(runs)
    ensures forall f :: f in Families(runs) ==> Group(runs, f) != []
  {
    if runs != [] {
      var init, last := runs[..|runs| - 1], runs[|runs| - 1];
      FamiliesOnce(init);
      assert runs == init + [last];
      AppendDistinct(Families(init), last.family);
    }
  }

  lemma {:induction false} NoGroup(runs: seq<Run>, family: string)
    requires family !in Families(runs)
    ensures Group(runs, family) == []
  {
    if runs != [] { NoGroup(runs[..|runs| - 1], family); }
  }

  // ---------- One family ----------

  function ByRepetition(r: Run): real { r.repetition as real }

  /** `sorted(results, key=lambda r: r.repetition)` */
  function SortRuns(runs: seq<Run>): (sorted: seq<Run>)
    ensures multiset(sorted) == multiset(runs) && |sorted| == |runs|
    ensures forall i, j :: 0 <= i < j < |sorted| ==> sorted[i].repetition <= sorted[j].repetition
  {
    Sorting.SortSorts(ByRepetition, runs);
    var sorted := Sorting.Sort(ByRepetition, runs);
    assert forall i, j :: 0 <= i < j < |sorted| ==> ByRepetition(sorted[i]) <= ByRepetition(sorted[j]);
    sorted
  }

  function SplitFamily(family: string, sorted: seq<Run>): (s: Split)
    ensures s.train + s.validation + s.test == sorted
  {
    var n := |sorted|;
    if family !in TEST_FAMILIES || n == 0 then Split(sorted, [], [])
    else if n == 1 then Split([], [], sorted)
    else Split(sorted[..n - 2], [sorted[n - 2]], [sorted[n - 1]])
  }

  function Join(a: Split, b: Split): Split {
    Split(a.train + b.train, a.validation + b.validation, a.test + b.test)
  }

  function SplitFamilies(families: seq<string>, runs: seq<Run>): Split {
    if families == [] then Split([], [], [])
    else
      var last := families[|families| - 1];
      Join(SplitFamilies(families[..|families| - 1], runs), SplitFamily(last, SortRuns(Group(runs, last))))
  }

  function SplitOf(runs: seq<Run>): Split { SplitFamilies(Families(runs), runs) }

  // ---------- The loops ----------

  /** The dictionary of runs by family, with its keys in insertion order. */
  method GroupByFamily(runs: seq<Run>) returns (order: seq<string>, byFamily: map<string, seq<Run>>)
    ensures order == Families(runs)
    ensures byFamily.Keys == Elements(order) && forall f :: f in byFamily ==> byFamily[f] == Group(runs, f)
  {
    order, byFamily := [], map[];
    for k := 0 to |runs|
      invariant order == Families(runs[..k])
      invariant byFamily.Keys == Elements(order)
      invariant forall f :: f in byFamily ==> byFamily[f] == Group(runs[..k], f)
    {
      assert runs[..k + 1][..k] == runs[..k];
      var r := runs[k];
      if r.family !in byFamily {
        NoGroup(runs[..k], r.family);
        order := order + [r.family];
        byFamily := byFamily[r.family := []];
      }
      byFamily := byFamily[r.family := byFamily[r.family] + [r]];
    }
    assert runs[..|runs|] == runs;
  }

  lemma IdsJoin(a: seq<Run>, b: seq<Run>)
    ensures Ids(a + b) == Ids(a) + Ids(b)
  {}

  /** The body of the loop over families: the lists grow by one family's runs. */
  method AssignFamily(family: string, sorted: seq<Run>, train: seq<string>, val: seq<string>, test: seq<string>)
    returns (trainIds: seq<string>, valIds: seq<string>, testIds: seq<string>)
    ensures trainIds == train + Ids(SplitFamily(family, sorted).train)
    ensures valIds == val + Ids(SplitFamily(family, sorted).validation)
    ensures testIds == test + Ids(SplitFamily(family, sorted).test)
  {
    trainIds, valIds, testIds := train, val, test;
    var n := |sorted|;
    if family in TRAIN_FAMILIES {
      TrainIsNotTest(family);
      trainIds := trainIds + Ids(sorted);
    } else if family in TEST_FAMILIES {
      if n >= 3 {
        trainIds := trainIds + Ids(sorted[..n - 2]);
        valIds := valIds + [sorted[n - 2].runId];
        testIds := testIds + [sorted[n - 1].runId];
      } else if n == 2 {
        valIds := valIds + [sorted[0].runId];
        testIds := testIds + [sorted[1].runId];
      } else if n != 0 {
        testIds := testIds + [sorted[0].runId];
      }
    } else {
      trainIds := trainIds + Ids(sorted);
    }
  }

  /** `_split_scenario_ids` */
  method SplitScenarioIds(runs: seq<Run>) returns (trainIds: seq<string>, valIds: seq<string>, testIds: seq<string>)
    ensures trainIds == Ids(SplitOf(runs).train)
    ensures valIds == Ids(SplitOf(runs).validation)
    ensures testIds == Ids(SplitOf(runs).test)
    ensures multiset(trainIds) + multiset(valIds) + multiset(testIds) == multiset(Ids(runs))
  {
    hide SortRuns, Group, SplitFamily, Ids;
    var order, byFamily := GroupByFamily(runs);
    trainIds, valIds, testIds := Ids([]), Ids([]), Ids([]);
    for k := 0 to |order|
      invariant
        var s := SplitFamilies(order[..k], runs);
        trainIds == Ids(s.train) && valIds == Ids(s.validation) && testIds == Ids(s.test)
    {
      assert order[..k + 1][..k] == order[..k];
      assert order[k] in byFamily;
      var sorted := SortRuns(byFamily[order[k]]);
      ghost var s, part := SplitFamilies(order[..k], runs), SplitFamily(order[k], sorted);
      IdsJoin(s.train, part.train);
      IdsJoin(s.validation, part.validation);
      IdsJoin(s.test, part.test);
      trainIds, valIds, testIds := AssignFamily(order[k], sorted, trainIds, valIds, testIds);
    }
    assert order[..|order|] == order;
    SplitIdsArePartition(runs);
  }

  lemma TrainIsNotTest(family: string)
    requires family in TRAIN_FAMILIES
    ensures family !in TEST_FAMILIES
  {
    assert |"benign_update"| == 13 && |"high_load"| == 9 && |"pod_restart"| == 11;
    assert |"supply_chain_backdoor"| == 21 && |"dependency_confusion"| == 20 && |"build_pipeline_tampering"| == 24;
  }

  // ---------- A partition ----------

  function All(s: Split): multiset<Run> { multiset(s.train) + multiset(s.validation) + multiset(s.test) }

  /** The runs of some families. */
  function Members(runs: seq<Run>, families: seq<string>): multiset<Run> {
    if families == [] then multiset{}
    else Members(runs, families[..|families| - 1]) + multiset(Group(runs, families[|families| - 1]))
  }

  lemma JoinAll(a: Split, b: Split)
    ensures All(Join(a, b)) == All(a) + All(b)
  {}

  lemma SplitFamilyAll(family: string, sorted: seq<Run>)
    ensures All(SplitFamily(family, sorted)) == multiset(sorted)
  {
    var s := SplitFamily(family, sorted);
    assert multiset(s.train + s.validation + s.test) == multiset(s.train) + multiset(s.validation) + multiset(s.test);
  }

  lemma {:induction false} SplitFamiliesAll(families: seq<string>, runs: seq<Run>)
    ensures All(SplitFamilies(families, runs)) == Members(runs, families)
  {
    hide Group, SplitFamily, Join, SortRuns;
    if families != [] {
      var init, last := families[..|families| - 1], families[|families| - 1];
      SplitFamiliesAll(init, runs);
      SplitFamilyAll(last, SortRuns(Group(runs, last)));
      JoinAll(SplitFamilies(init, runs), SplitFamily(last, SortRuns(Group(runs, last))));
    }
  }

  lemma {:induction false} MembersNext(runs: seq<Run>, r: Run, families: seq<string>)
    requires Distinct(families)
    ensures Members(runs + [r], families) == Members(runs, families) + if r.family in families then multiset{r}
      else multiset{}
  {
    hide Distinct;
    if families != [] {
      var init, last := families[..|families| - 1], families[|families| - 1];
      assert families == init + [last];
      AppendDistinct(init, last);
      MembersNext(runs, r, init);
      assert (runs + [r])[..|runs|] == runs;
    }
  }

  lemma MembersAppend(runs: seq<Run>, families: seq<string>, family: string)
    ensures Members(runs, families + [family]) == Members(runs, families) + multiset(Group(runs, family))
  {
    assert (families + [family])[..|families|] == families;
  }

  lemma {:induction false} EveryRunHasAFamily(runs: seq<Run>)
    ensures Members(runs, Families(runs)) == multiset(runs)
  {
    hide Group, Distinct;
    if runs != [] {
      var init, last := runs[..|runs| - 1], runs[|runs| - 1];
      assert runs == init + [last];
      EveryRunHasAFamily(init);
      FamiliesOnce(init);
      FamiliesOnce(runs);
      if last.family !in Families(init) {
        NoGroup(init, last.family);
        MembersAppend(init, Families(init), last.family);
      }
      MembersNext(init, last, Families(runs));
    }
  }

  /** Every run is in exactly one part, as often as it was given. */
  lemma SplitIsPartition(runs: seq<Run>)
    ensures All(SplitOf(runs)) == multiset(runs)
  {
    hide All, SplitFamilies, Members;
    SplitFamiliesAll(Families(runs), runs);
    EveryRunHasAFamily(runs);
  }

  lemma {:induction false} SameIds(a: seq<Run>, b: seq<Run>)
    requires multiset(a) == multiset(b)
    ensures multiset(Ids(a)) == multiset(Ids(b))
    decreases |a|
  {
    if a == [] {
      assert |multiset(b)| == |b|;
    } else {
      var i := FindLast(a, b);
      var init, last, before, after := a[..|a| - 1], a[|a| - 1], b[..i], b[i + 1..];
      SameIds(init, before + after);
      assert a == init + [last] && b == before + ([last] + after);
      IdsJoin(init, [last]);
      IdsJoin(before, [last] + after);
      IdsJoin([last], after);
      IdsJoin(before, after);
    }
  }

  /** Every run id is in exactly one of the three lists, as often as it was given. */
  lemma SplitIdsArePartition(runs: seq<Run>)
    ensures var s := SplitOf(runs);
      multiset(Ids(s.train)) + multiset(Ids(s.validation)) + multiset(Ids(s.test)) == multiset(Ids(runs))
  {
    hide SplitOf;
    var s := SplitOf(runs);
    SplitIsPartition(runs);
    assert multiset(s.train + s.validation + s.test) == All(s);
    SameIds(s.train + s.validation + s.test, runs);
    IdsJoin(s.train + s.validation, s.test);
    IdsJoin(s.train, s.validation);
  }

  // ---------- What each part holds ----------

  lemma {:induction false} GroupConcat(a: seq<Run>, b: seq<Run>, family: string)
    ensures Group(a + b, family) == Group(a, family) + Group(b, family)
  {
    if b == [] {
      assert a + b == a;
    } else {
      GroupConcat(a, b[..|b| - 1], family);
      InitOfConcat(a, b);
    }
  }

  lemma {:induction false} GroupOfOneFamily(runs: seq<Run>, own: string, family: string)
    requires forall r :: r in runs ==> r.family == own
    ensures Group(runs, family) == if family == own then runs else []
  {
    if runs != [] {
      assert runs == runs[..|runs| - 1] + [runs[|runs| - 1]];
      GroupOfOneFamily(runs[..|runs| - 1], own, family);
    }
  }

  /** One family's share of a split. */
  function Restrict(s: Split, family: string): Split {
    Split(Group(s.train, family), Group(s.validation, family), Group(s.test, family))
  }

  lemma RestrictJoin(a: Split, b: Split, family: string)
    ensures Restrict(Join(a, b), family) == Join(Restrict(a, family), Restrict(b, family))
  {
    GroupConcat(a.train, b.train, family);
    GroupConcat(a.validation, b.validation, family);
    GroupConcat(a.test, b.test, family);
  }

  lemma RestrictFamily(runs: seq<Run>, own: string, family: string)
    ensures
      var s := SplitFamily(own, SortRuns(Group(runs, own)));
      Restrict(s, family) == if family == own then s else Split([], [], [])
  {
    hide SortRuns, Group;
    var sorted := SortRuns(Group(runs, own));
    var s := SplitFamily(own, sorted);
    GroupMember(runs, own);
    forall r | r in sorted ensures r.family == own {
      assert r in multiset(sorted);
      assert r in multiset(Group(runs, own));
    }
    hide SplitFamily;
    assert forall r :: r in s.train || r in s.validation || r in s.test ==> r in s.train + s.validation + s.test;
    GroupOfOneFamily(s.train, own, family);
    GroupOfOneFamily(s.validation, own, family);
    GroupOfOneFamily(s.test, own, family);
  }

  lemma {:induction false} RestrictFamilies(families: seq<string>, runs: seq<Run>, family: string)
    requires Distinct(families)
    ensures Restrict(SplitFamilies(families, runs), family) ==
      if family in families then SplitFamily(family, SortRuns(Group(runs, family))) else Split([], [], [])
  {
    hide Group, SplitFamily, SortRuns, Distinct;
    if families == [] {
      GroupOfOneFamily([], family, family);
    } else {
      var init, last := families[..|families| - 1], families[|families| - 1];
      assert families == init + [last];
      AppendDistinct(init, last);
      RestrictFamilies(init, runs, family);
      RestrictFamily(runs, last, family);
      RestrictJoin(SplitFamilies(init, runs), SplitFamily(last, SortRuns(Group(runs, last))), family);
    }
  }

  lemma SplitByFamily(runs: seq<Run>, family: string)
    requires family in Families(runs)
    ensures Restrict(SplitOf(runs), family) == SplitFamily(family, SortRuns(Group(runs, family)))
  {
    FamiliesOnce(runs);
    RestrictFamilies(Families(runs), runs, family);
  }

  /** Test comes after validation, and validation after train; only held-out families have either. */
  ghost predicate InRepetitionOrder(s: Split, heldOut: bool, n: nat) {
    && (!heldOut ==> s.validation == [] && s.test == [])
    && (heldOut ==>
      && |s.test| == 1
      && |s.validation| == (if n >= 2 then 1 else 0)
      && (forall v :: v in s.validation ==> v.repetition <= s.test[0].repetition)
      && (forall r, v :: r in s.train && v in s.validation ==> r.repetition <= v.repetition)
      && (forall r :: r in s.train ==> r.repetition <= s.test[0].repetition))
  }

  lemma FamilyOrder(family: string, sorted: seq<Run>)
    requires sorted != []
    requires forall i, j :: 0 <= i < j < |sorted| ==> sorted[i].repetition <= sorted[j].repetition
    ensures InRepetitionOrder(SplitFamily(family, sorted), family in TEST_FAMILIES, |sorted|)
  {}

  /** Benign-control and unknown families go wholly to train. A held-out family gives exactly one test
      run, and one validation run unless it has a single run; their repetitions are in order. */
  lemma HeldOutRepetitions(runs: seq<Run>, family: string)
    requires family in Families(runs)
    ensures InRepetitionOrder(Restrict(SplitOf(runs), family), family in TEST_FAMILIES, |Group(runs, family)|)
  {
    hide SplitOf, Restrict, SplitFamily, InRepetitionOrder, SortRuns;
    SplitByFamily(runs, family);
    FamiliesOnce(runs);
    FamilyOrder(family, SortRuns(Group(runs, family)));
  }
}
