/** The records of scenario runs that evaluation and packaging read. */
module Scenario {
  import opened Wrappers
  import opened Strings

  /** Times are seconds on one clock. */
  datatype Phase = Phase(name: string, start: Option<real>, end: Option<real>, notes: string)

  datatype Run = Run(
    runId: string, family: string, repetition: int, truthLabel: int, status: string,
    injection: Option<real>, window: Option<real>, injectOk: Option<bool>, labelInjectOk: Option<bool>,
    error: string, phases: seq<Phase>)

  /** `is_failed_injection` */
  predicate FailedInjection(r: Run) {
    || r.injectOk == Some(false)
    || Contains(r.error, "inject() returned False")
    || Contains(r.error, "inject() raised")
    || Contains(r.error, "inject_ok=False")
    || (exists i ::
          0 <= i < |r.phases| && r.phases[i].name == "inject" && Contains(r.phases[i].notes, "inject_ok=False"))
    || r.labelInjectOk == Some(false)
  }

  function Ids(runs: seq<Run>): (ids: seq<string>) ensures |ids| == |runs| {
    seq(|runs|, i requires 0 <= i < |runs| => runs[i].runId)
  }
}
