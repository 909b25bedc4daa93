/** The visual checker of the edge. Its model is a call that gives a verdict or raises. */
module Checkers {
  import opened CommonTypes
  import opened EdgeAudit

  datatype Verdict = Verdict(skill: Skill, result: CheckerResult)

  /** `v` is one of the verdicts given since the first `from` of them. */
  ghost predicate Said(verdicts: seq<Verdict>, from: nat, v: Verdict) {
    exists n :: from <= n < |verdicts| && verdicts[n] == v
  }

  class Checker {
    /** Every verdict given so far. */
    ghost var verdicts: seq<Verdict>

    constructor ()
      ensures verdicts == []
    {
      verdicts := [];
    }

    method Evaluate(skill: Skill) returns (r: Outcome<CheckerResult>)
      modifies this
      ensures verdicts == old(verdicts) + if r.Returned? then [Verdict(skill, r.value)] else []
    {
      var raises: bool, result: CheckerResult := *, *;
      if raises {
        return Raised(ErrorCode.PipelineFailed);
      }
      verdicts := verdicts + [Verdict(skill, result)];
      return Returned(result);
    }
  }
}
