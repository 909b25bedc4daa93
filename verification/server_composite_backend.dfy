/** OpenPiCompositeBackend (server/composite_backend.py): the loaded policy and the key its noise is split from. */
module CompositeBackends {
  import opened CommonTypes
  import opened RuntimeSpec

  class CompositeBackend {
    const skills: set<Skill>
    var policy: Option<Skill>
    var noiseKey: Key

    function View(): Backend
      reads this
    {
      Backend(policy, noiseKey)
    }

    constructor (skills: set<Skill>)
      ensures this.skills == skills && View() == Backend(None, Root(0))
    {
      this.skills, policy, noiseKey := skills, None, Root(0);
    }

    /** Loads a policy and starts its noise anew, or raises and keeps the policy there was. */
    method Prepare(skill: Skill) returns (loaded: bool)
      modifies this
      ensures loaded ==> skill in skills && View() == Backend(Some(skill), Root(0))
      ensures !loaded ==> View() == old(View())
    {
      loaded := *;
      if skill !in skills || !loaded {
        return false;
      }
      policy := Some(skill);
      noiseKey := Root(0);
    }

    /** Splits the key: one half for this request's noise, the other carried on. */
    method Infer() returns (r: Outcome<(Digest, Actions)>, ghost answer: Inference)
      modifies this
      ensures (View(), r) == old(BackendInfer(View(), answer))
    {
      answer := InferRaises(false);
      if policy.None? {
        return Raised(PolicyFailed), answer;
      }
      var sample := noiseKey;
      noiseKey := Carried(noiseKey);
      var answered: bool, actions: Actions := *, *;
      if !answered {
        return Raised(PolicyFailed), InferRaises(true);
      }
      return Returned((OfNoise(sample), actions)), Inferred(actions);
    }

    /** Sets the key, unless making it from the seed raises; setting the policy's own key may raise after that. */
    method ResetPrng(seed: int) returns (done: bool)
      modifies this
      ensures View() == old(View()).(key := Root(seed)) || (!done && View() == old(View()))
    {
      var made: bool := *;
      if !made {
        return false;
      }
      noiseKey := Root(seed);
      done := *;
      done := policy.None? || done;
    }

    method Close()
      modifies this
      ensures View() == old(View()).(prepared := None)
    {
      policy := None;
    }
  }

  /** `n` inferences that get as far as the split, after a reset, leave the n-th key: whatever was loaded or asked
      before. */
  function AfterInferences(b: Backend, answers: seq<Inference>): Backend
    decreases |answers|
  {
    if answers == [] then b
    else BackendInfer(AfterInferences(b, answers[..|answers| - 1]), answers[|answers| - 1]).0
  }

  function Splits(answers: seq<Inference>): nat
    decreases |answers|
  {
    if answers == [] then 0
    else Splits(answers[..|answers| - 1]) + if answers[|answers| - 1] == InferRaises(false) then 0 else 1
  }

  lemma {:induction false} KeyCountsSplits(b: Backend, seed: int, answers: seq<Inference>)
    requires b.prepared.Some? && b.key == Root(seed)
    ensures AfterInferences(b, answers) == b.(key := KeyAfter(seed, Splits(answers)))
    decreases |answers|
  {
    if answers != [] {
      KeyCountsSplits(b, seed, answers[..|answers| - 1]);
    }
  }
}
