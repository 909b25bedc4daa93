/** The plan of a run (edge/orchestrator.py, PipelinePlan) and what a committed stage must show. */
module Plans {
  import opened CommonTypes
  import opened JointGates
  import opened EdgeAudit
  import opened Checkers
  import TreeHashing

  const FIXED_SKILL_ORDER: seq<Skill> := ["open_door", "transport_food", "close_door", "rotate_button"]

  datatype StagePlan = StagePlan(
    skill: Skill,
    rootSeed: int,
    maxChunks: int,
    actionSteps: int,
    resetBefore: bool,
    checkerRequired: bool)
  {
    predicate Valid() {
      skill != "" && rootSeed >= 0 && maxChunks > 0 && actionSteps > 0
    }
  }

  datatype PipelinePlan = PipelinePlan(runId: TrialId, stages: seq<StagePlan>) {
    function Skills(): (r: seq<Skill>)
      ensures |r| == |stages| && forall i :: 0 <= i < |r| ==> r[i] == stages[i].skill
    {
      seq(|stages|, i requires 0 <= i < |stages| => stages[i].skill)
    }

    predicate Valid() {
      && (Skills() == FIXED_SKILL_ORDER || (|stages| == 1 && stages[0].skill in FIXED_SKILL_ORDER))
      && forall i :: 0 <= i < |stages| ==> stages[i].Valid()
    }

    function TrialOf(i: nat): TrialId
      requires i < |stages|
    {
      runId + "_" + TreeHashing.Decimal(i) + "_" + stages[i].skill
    }
  }

  // ----- the rows of one stage -----

  function TotalOf(rows: seq<EdgeRow>): nat {
    if rows == [] then 0 else rows[|rows| - 1].publishedTotal
  }

  /** Rows are numbered from 0 and carry the running total of published action rows. */
  predicate Accounted(rows: seq<EdgeRow>) {
    forall i :: 0 <= i < |rows| ==>
      && rows[i].sequence == i && rows[i].publishedRows > 0
      && rows[i].publishedTotal == TotalOf(rows[..i]) + rows[i].publishedRows
  }

  lemma AccountedMore(rows: seq<EdgeRow>, row: EdgeRow)
    requires Accounted(rows) && row.sequence == |rows| && row.publishedRows > 0
    requires row.publishedTotal == TotalOf(rows) + row.publishedRows
    ensures Accounted(rows + [row]) && TotalOf(rows + [row]) == row.publishedTotal
  {
    forall i | 0 <= i <= |rows|
      ensures (rows + [row])[i].publishedTotal == TotalOf((rows + [row])[..i]) + (rows + [row])[i].publishedRows
    {
      assert (rows + [row])[..i] == rows[..i];
      assert rows[..|rows|] == rows;
    }
  }

  // ----- committed stages -----

  /** What the gate had seen when it let the stage stop, and what the checker then said, if it was asked. */
  datatype Proof = Proof(history: seq<Sample>, evidence: Evidence, said: Option<Verdict>)

  /** Nothing shown yet. */
  const NO_PROOF := Proof([], Evidence(0, 0, 0), None)

  /** The gate really passed at the end of these rows, and their total fits the stage. */
  ghost predicate Earns(plan: StagePlan, profile: Profile, proof: Proof, rows: seq<EdgeRow>, gate: GateResult) {
    && EarnedBy(profile, proof.history, proof.evidence, gate)
    && Accounted(rows)
    && profile.minPublishStep <= TotalOf(rows) <= plan.actionSteps
  }

  lemma StillEarns(plan: StagePlan, profile: Profile, proof: Proof, rows: seq<EdgeRow>, gate: GateResult,
                   said: Option<Verdict>)
    requires Earns(plan, profile, proof, rows, gate)
    ensures Earns(plan, profile, proof.(said := said), rows, gate)
  {
  }

  /** Why this stage may be called done: the gate passed, and so did the checker if the plan asks for one. */
  ghost predicate Justified(plan: StagePlan, profile: Profile, proof: Proof, log: StageLog)
    requires log.record.Some?
  {
    var record := log.record.value;
    && Earns(plan, profile, proof, log.rows, record.gate)
    && record.evidence.Completed()
    && record.evidence.checker == (if plan.checkerRequired then EvidencePassed else NotRequired)
    && record.checker.passed
    && (plan.checkerRequired ==> proof.said == Some(Verdict(plan.skill, record.checker)))
  }

  /** Every committed stage of the run is justified. */
  ghost predicate RunJustified(plan: PipelinePlan, profiles: map<Skill, Profile>, stages: seq<StageLog>,
                               proofs: map<nat, Proof>) {
    && |stages| <= |plan.stages|
    && forall i: nat :: i < |stages| ==>
         && stages[i].skill == plan.stages[i].skill && stages[i].trial == plan.TrialOf(i)
         && (stages[i].record.Some? ==>
               && i in proofs && stages[i].skill in profiles
               && Justified(plan.stages[i], profiles[stages[i].skill], proofs[i], stages[i]))
  }

  /** The proofs are not made up: the gate was shown these samples in that stage, and the checker said this since
      the run began. */
  ghost predicate Witnessed(plan: PipelinePlan, proofs: map<nat, Proof>, shown: seq<Seen>, verdicts: seq<Verdict>,
                            from: nat) {
    && from <= |verdicts|
    && forall i :: i in proofs ==> i < |plan.stages| && Backs(plan.stages[i].skill, proofs[i], shown, verdicts, from)
  }

  ghost predicate Backs(skill: Skill, proof: Proof, shown: seq<Seen>, verdicts: seq<Verdict>, from: nat) {
    WasShown(shown, Seen(skill, proof.history)) && (proof.said.Some? ==> Said(verdicts, from, proof.said.value))
  }

  lemma StillWitnessed(plan: PipelinePlan, proofs: map<nat, Proof>, shown: seq<Seen>, verdicts: seq<Verdict>, from: nat,
                       later: seq<Seen>, more: seq<Verdict>)
    requires Witnessed(plan, proofs, shown, verdicts, from) && Recalls(shown, later) && verdicts <= more
    ensures Witnessed(plan, proofs, later, more, from)
  {
    hide Recalls;
    forall i | i in proofs ensures Backs(plan.stages[i].skill, proofs[i], later, more, from) {
      StillBacked(plan.stages[i].skill, proofs[i], shown, verdicts, from, later, more);
    }
  }

  lemma MoreWitnessed(plan: PipelinePlan, proofs: map<nat, Proof>, shown: seq<Seen>, verdicts: seq<Verdict>, from: nat,
                      i: nat, proof: Proof)
    requires Witnessed(plan, proofs, shown, verdicts, from)
    requires i < |plan.stages| && Backs(plan.stages[i].skill, proof, shown, verdicts, from)
    ensures Witnessed(plan, proofs[i := proof], shown, verdicts, from)
  {
    hide Backs;
  }

  lemma StillBacked(skill: Skill, proof: Proof, shown: seq<Seen>, verdicts: seq<Verdict>, from: nat,
                    later: seq<Seen>, more: seq<Verdict>)
    requires Backs(skill, proof, shown, verdicts, from) && Recalls(shown, later) && verdicts <= more
    ensures Backs(skill, proof, later, more, from)
  {
    StillShown(shown, later, Seen(skill, proof.history));
    if proof.said.Some? {
      var n :| from <= n < |verdicts| && verdicts[n] == proof.said.value;
      assert more[n] == proof.said.value;
    }
  }

  lemma AddJustified(plan: PipelinePlan, profiles: map<Skill, Profile>, stages: seq<StageLog>,
                     proofs: map<nat, Proof>, log: StageLog)
    requires RunJustified(plan, profiles, stages, proofs) && |stages| < |plan.stages|
    requires log.skill == plan.stages[|stages|].skill && log.trial == plan.TrialOf(|stages|) && log.record.None?
    ensures RunJustified(plan, profiles, stages + [log], proofs)
  {
    hide Justified;
  }

  lemma ReplaceJustified(plan: PipelinePlan, profiles: map<Skill, Profile>, stages: seq<StageLog>,
                         proofs: map<nat, Proof>, i: nat, log: StageLog)
    requires RunJustified(plan, profiles, stages, proofs) && i < |stages|
    requires log.skill == stages[i].skill && log.trial == stages[i].trial && log.record.None?
    ensures RunJustified(plan, profiles, stages[i := log], proofs)
  {
    hide Justified;
  }

  lemma CommitJustified(plan: PipelinePlan, profiles: map<Skill, Profile>, stages: seq<StageLog>,
                        proofs: map<nat, Proof>, i: nat, log: StageLog, proof: Proof)
    requires RunJustified(plan, profiles, stages, proofs) && i < |stages|
    requires log.skill == stages[i].skill && log.trial == stages[i].trial && log.record.Some? && log.skill in profiles
    requires Justified(plan.stages[i], profiles[log.skill], proof, log)
    ensures RunJustified(plan, profiles, stages[i := log], proofs[i := proof])
  {
    hide Justified;
  }

  lemma FailureKeepsJustified(plan: PipelinePlan, profiles: map<Skill, Profile>, stages: seq<StageLog>,
                              failed: seq<StageLog>, proofs: map<nat, Proof>)
    requires RunJustified(plan, profiles, stages, proofs) && |failed| == |stages|
    requires forall i :: 0 <= i < |stages| ==> failed[i] == stages[i].(failure := failed[i].failure)
    ensures RunJustified(plan, profiles, failed, proofs)
  {
  }
}
