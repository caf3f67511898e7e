/** The records the engine and the store share: plans, campaigns, attempts, provenance and decisions. */
module Records {
  import opened Bytes
  import opened Lifecycle
  import opened Skew

  /** The last value of a 64-bit counter. */
  const COUNTER_MAX: nat := 0xFFFF_FFFF_FFFF_FFFF

  type CampaignId = Text
  type TargetId = Text

  datatype Strategy = InPlace | RestartBased | RedundantPairRolling | GenerationHandoff

  /** The parts of an artifact descriptor the protocol reads. */
  datatype Artifact = Artifact(version: Version, build: Text, digest: Text, reversible: bool)

  /** A stage is identified by its position in the plan. */
  datatype StagePlan = StagePlan(targets: seq<TargetId>, maxParallel: nat, requiresRemoval: bool)

  /** `executable` is "no rejection was recorded"; `irreversible` is "some step is irreversible". */
  datatype Plan = Plan(stages: seq<StagePlan>, executable: bool, irreversible: bool, strategy: Strategy, budget: Budget)

  datatype Ticket =
    | NoTicket
    | Ticket(generation: nat, incarnation: nat, epoch: nat, expires: int, passed: bool)

  /** A durable campaign. The free texts are kept as "is it non-empty" flags. */
  datatype Campaign = Campaign(
    generation: nat, epoch: nat, state: UpgradeState, artifact: Artifact, plan: Plan,
    progress: seq<StageState>, active: nat,
    acknowledged: bool, rollbackRecorded: bool, rollbackEligible: bool, rollbackPerformed: bool,
    failureRecorded: bool, ticket: Ticket)

  /** An attempt is identified by its campaign, stage and target: the engine never creates a second one. */
  datatype Key = Key(campaign: CampaignId, stage: nat, target: TargetId)

  datatype Attempt = Attempt(
    generation: nat, owner: nat, state: AttemptState, activationObserved: bool, retries: nat,
    evidenceAt: int, evidenceValidity: int, observedVersion: Version)

  /** The outcomes a ledger record can carry; the engine writes the first three only. */
  datatype Outcome = Applied | Confirmed | Reverted | Unsuccessful | Cancelled | Superseded

  /** What a provenance record says besides what the protocol looks at: identifiers, versions, digest and times as the texts
      they are written as. */
  datatype Notes = Notes(attempt: Text, component: Text, artifact: Text, build: Text, fromVersion: Text, toVersion: Text,
                         digest: Text, authority: Text, at: Text, detail: Text)

  /** A provenance record. Sequence and digests are filled in when it is appended; the digests `previous` and `chain` are
      hexadecimal texts, and the empty one stands before the first record. */
  datatype Provenance = Provenance(key: Key, outcome: Outcome, generation: nat, incarnation: nat, notes: Notes,
                                   sequence: nat, previous: Text, chain: Text)

  datatype DecisionKind =
    | DecAdmit | DecStage | DecActivate | DecVerify | DecBlock | DecPause | DecRollback | DecPlan
    | DecFence | DecResume | DecAbort | DecReconcile | DecPreflight

  datatype Verdict = Allow | Deny | Defer

  datatype Decision = Decision(kind: DecisionKind, verdict: Verdict)
}
