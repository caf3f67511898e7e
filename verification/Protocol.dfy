/** The critical sections of the engine mutex. Each section is given as the sequence of journal entries it writes,
    computed from the store it starts from; a section that runs to the end applies all of them, and a crash in the
    middle leaves a prefix of them in the journal. */
module Protocol {
  import opened Bytes
  import opened Lifecycle
  import opened Skew
  import opened Records
  import opened Store
  import opened Verification
  import Ledger

  /** An inventory entry as the protocol reads it. */
  datatype Descriptor = Descriptor(installed: Version, strategies: set<Strategy>, supportsRollback: bool, maxParallel: nat)

  datatype Policy = Policy(maxAttempts: nat, maxRetries: nat, maxConcurrent: nat, requireHealth: bool)

  /** What the outside shows a section: the clock, the last resolved inventory, the last verified artifact digest and
      the maintenance tickets held, and the texts of a ledger record. Every section may see a different one. */
  datatype Env = Env(
    now: int, inventory: map<TargetId, Descriptor>, verified: bool, verifiedDigest: Text,
    drainWired: bool, drained: set<(CampaignId, nat)>, notes: Notes)

  datatype OperationKind = Prepare | Activate | Verify | Rollback

  /** A unit of work handed to an adapter, with the fence it was claimed under. */
  datatype Item = Item(
    kind: OperationKind, campaign: CampaignId, generation: nat, epoch: nat, stage: nat, target: TargetId,
    artifact: Artifact)

  /** What came back for an item: any adapter answer, including gate refusals. */
  datatype Report = Report(
    prepared: bool, gateRefused: bool, activated: bool, verify: VerifyReport, health: Health, rolledBack: bool)

  function KeyOf(item: Item): Key { Key(item.campaign, item.stage, item.target) }

  function Expected(kind: OperationKind): AttemptState {
    match kind
    case Prepare => AttPreparing
    case Activate => AttActivating
    case Verify => AttVerifying
    case Rollback => AttRollingBack
  }

  // ---- guards -------------------------------------------------------------------------------------------------

  predicate TicketCurrent(st: StoreState, env: Env, c: Campaign) {
    c.ticket.Ticket? && c.ticket.passed && c.ticket.generation == c.generation &&
    c.ticket.incarnation == st.incarnation && c.ticket.epoch == st.epoch && c.ticket.expires > env.now &&
    env.verified && env.verifiedDigest == c.artifact.digest
  }

  predicate Planned(c: Campaign, stage: nat, target: TargetId) {
    stage < |c.plan.stages| && target in c.plan.stages[stage].targets
  }

  predicate IsUpgraded(a: Attempt) { a.state.AttVerified? || a.state.AttActivated? }

  /** Some attempt of the campaign, in whatever stage, has put the target on the new version. */
  ghost predicate TargetUpgraded(st: StoreState, id: CampaignId, t: TargetId) {
    exists k :: k in st.attempts && k.campaign == id && k.target == t && IsUpgraded(st.attempts[k])
  }

  /** The version a target is taken to run: the artifact's once upgraded, else what the inventory shows, else none. */
  ghost function LiveVersion(st: StoreState, env: Env, id: CampaignId, c: Campaign, t: TargetId): Version {
    if TargetUpgraded(st, id, t) then c.artifact.version
    else if t in env.inventory then env.inventory[t].installed
    else Version(0, 0, 0, [], false)
  }

  /** `assess_current_skew_locked`: every planned target is tolerated, and at least one is known. */
  ghost predicate SkewOk(st: StoreState, env: Env, id: CampaignId, c: Campaign) {
    (forall s, t :: Planned(c, s, t) ==> Tolerated(c.plan.budget, LiveVersion(st, env, id, c, t), c.artifact.version)) &&
    ((exists s, t :: Planned(c, s, t)) ==>
       exists s, t :: Planned(c, s, t) && (TargetUpgraded(st, id, t) || t in env.inventory))
  }

  predicate Holding(st: StoreState, k: Key, states: set<AttemptState>) {
    k in st.attempts && st.attempts[k].state in states
  }

  /** Every target of the stage has its attempt in one of the states, and the stage has a target. */
  predicate StageAll(st: StoreState, id: CampaignId, c: Campaign, stage: nat, states: set<AttemptState>) {
    stage < |c.plan.stages| && c.plan.stages[stage].targets != [] &&
    forall t :: t in c.plan.stages[stage].targets ==> Holding(st, Key(id, stage, t), states)
  }

  predicate FreshAttempt(st: StoreState, env: Env, k: Key) {
    k in st.attempts &&
    var a := st.attempts[k];
    a.state.AttVerified? && Fresh(a.evidenceAt, a.evidenceValidity, a.owner, env.now, st.incarnation)
  }

  predicate StageFresh(st: StoreState, env: Env, id: CampaignId, c: Campaign, stage: nat) {
    stage < |c.plan.stages| && c.plan.stages[stage].targets != [] &&
    forall t :: t in c.plan.stages[stage].targets ==> FreshAttempt(st, env, Key(id, stage, t))
  }

  /** The target is on the new version as far as the attempt knows, and has not been rolled back. */
  predicate Touched(a: Attempt) {
    a.state.AttActivated? || a.state.AttVerified? || a.state.AttRollingBack? ||
    ((a.state.AttFailed? || a.state.AttAbandoned? || a.state.AttAborted?) && a.activationObserved)
  }

  ghost predicate NothingLeft(st: StoreState, id: CampaignId) {
    (exists k :: k in st.attempts && k.campaign == id && st.attempts[k].state.AttRolledBack?) &&
    (forall k :: k in st.attempts && k.campaign == id ==> !Touched(st.attempts[k]))
  }

  ghost predicate AdaptersSupport(env: Env, c: Campaign) {
    forall i, t :: Planned(c, i, t) ==> t in env.inventory && c.plan.strategy in env.inventory[t].strategies
  }

  ghost predicate AdaptersRollBack(env: Env, c: Campaign) {
    forall i, t :: Planned(c, i, t) ==> t in env.inventory && env.inventory[t].supportsRollback
  }

  /** `guards_locked`. */
  ghost function GuardsOf(st: StoreState, env: Env, id: CampaignId, c: Campaign): Guards {
    Guards(
      preflightCurrent := TicketCurrent(st, env, c),
      integrityVerified := env.verified && env.verifiedDigest == c.artifact.digest,
      rollbackPlanRecorded := c.rollbackRecorded,
      irreversibleAcknowledged := !c.plan.irreversible || c.acknowledged,
      adapterSupports := AdaptersSupport(env, c),
      stagingComplete := c.active < |c.progress| && c.progress[c.active].StagePrepared?,
      activationComplete := StageAll(st, id, c, c.active, {AttActivated, AttVerified}),
      verificationFresh := StageFresh(st, env, id, c, c.active),
      skewWithinBudget := SkewOk(st, env, id, c),
      drainSatisfied := c.active < |c.plan.stages| && c.plan.stages[c.active].requiresRemoval && env.drainWired ==>
        (id, c.active) in env.drained,
      allStagesComplete := c.progress != [] && forall i :: 0 <= i < |c.progress| ==> c.progress[i].StageCompleted?,
      failureRecorded := c.failureRecorded,
      rollbackEligible := c.rollbackEligible,
      rollbackComplete := NothingLeft(st, id),
      manualRelease := false)
  }

  // ---- transitions --------------------------------------------------------------------------------------------

  function DecisionFor(to: UpgradeState): Decision {
    Decision(
      match to
      case Validated => DecAdmit
      case Prepared => DecStage
      case Staged => DecStage
      case Activating => DecActivate
      case Verifying => DecVerify
      case Completed => DecVerify
      case Blocked => DecBlock
      case Failed => DecBlock
      case Paused => DecPause
      case RollbackPlanned => DecRollback
      case RollingBack => DecRollback
      case RolledBack => DecRollback
      case Proposed => DecPlan,
      Allow)
  }

  function Moved(c: Campaign, to: UpgradeState): Campaign {
    c.(state := to, failureRecorded := c.failureRecorded && !Terminal(to))
  }

  /** A move touches nothing but the state and the failure note. */
  predicate OnlyMoved(c: Campaign, d: Campaign) { d == c.(state := d.state, failureRecorded := d.failureRecorded) }

  /** The campaign record after a requested move: unchanged when the move is refused. */
  function MoveResult(c: Campaign, to: UpgradeState, g: Guards): (r: Campaign)
    ensures OnlyMoved(c, r)
  {
    if Permits(c.state, to, g) && c.state != to then Moved(c, to) else c
  }

  /** `transition_locked`: a refusal is recorded as a decision, a move writes the record and a decision. */
  function MoveTrace(id: CampaignId, c: Campaign, to: UpgradeState, g: Guards): seq<Entry> {
    if !Permits(c.state, to, g) then [DecisionEntry(id, Decision(DecBlock, Deny))]
    else if c.state == to then []
    else [CampaignEntry(id, Moved(c, to)), DecisionEntry(id, DecisionFor(to))]
  }

  // ---- fence --------------------------------------------------------------------------------------------------

  predicate Accepts(kind: OperationKind, s: UpgradeState) {
    match kind
    case Prepare => s.Prepared? || s.Staged?
    case Activate => s.Staged? || s.Activating?
    case Verify => s.Activating? || s.Verifying?
    case Rollback => s.RollingBack?
  }

  /** `check_fence_locked`. */
  predicate FenceOk(st: StoreState, item: Item) {
    KeyOf(item) in st.attempts && item.campaign in st.campaigns &&
    var a := st.attempts[KeyOf(item)];
    var c := st.campaigns[item.campaign];
    a.generation == item.generation && a.owner == st.incarnation && a.state == Expected(item.kind) &&
    c.generation == item.generation && c.epoch == item.epoch && Accepts(item.kind, c.state)
  }

  // ---- commits ------------------------------------------------------------------------------------------------

  /** `append_provenance_locked`: the record of an outcome, before the store fills in sequence and digests. */
  function Draft(env: Env, item: Item, o: Outcome, incarnation: nat): Provenance {
    Provenance(KeyOf(item), o, item.generation, incarnation,
               env.notes.(build := item.artifact.build, digest := item.artifact.digest), 0, [], [])
  }

  function RecordOf(st: StoreState, env: Env, item: Item, o: Outcome): (r: Provenance)
    ensures r.key == KeyOf(item) && r.outcome == o
  {
    hide Ledger.Seal;
    Ledger.Seal(st.config.digest, st.head, st.sequence, Draft(env, item, o, st.incarnation))
  }

  ghost function FailTrace(st: StoreState, env: Env, id: CampaignId, c: Campaign): seq<Entry> {
    var c1 := c.(failureRecorded := true);
    MoveTrace(id, c1, if c1.state.Proposed? then Blocked else Failed,
              GuardsOf(st, env, id, c1).(failureRecorded := true))
  }

  /** What follows a prepared attempt: once the whole stage is prepared it is recorded so, and the campaign is staged. */
  ghost function AfterPrepared(st: StoreState, env: Env, id: CampaignId, c: Campaign, stage: nat): seq<Entry> {
    if stage < |c.progress| && StageAll(st, id, c, stage, {AttPrepared, AttActivated, AttVerified, AttRolledBack}) then
      var c1 := c.(progress := c.progress[stage := StagePrepared]);
      [CampaignEntry(id, c1)] + StageIt(Apply(st, CampaignEntry(id, c1)), env, id, c1)
    else []
  }

  ghost function StageIt(st: StoreState, env: Env, id: CampaignId, c: Campaign): seq<Entry> {
    if c.state.Prepared? then MoveTrace(id, c, Staged, GuardsOf(st, env, id, c).(stagingComplete := true)) else []
  }

  ghost function CommitPrepare(st: StoreState, env: Env, item: Item, r: Report): seq<Entry>
    requires FenceOk(st, item)
  {
    var k, id, c := KeyOf(item), item.campaign, st.campaigns[item.campaign];
    if r.prepared then
      var w := AttemptEntry(k, st.attempts[k].(state := AttPrepared));
      [w] + AfterPrepared(Apply(st, w), env, id, c, item.stage)
    else
      var w := AttemptEntry(k, st.attempts[k].(state := AttFailed));
      [w] + FailTrace(Apply(st, w), env, id, c)
  }

  ghost function BlockTrace(st: StoreState, env: Env, id: CampaignId, c: Campaign): seq<Entry> {
    MoveTrace(id, c, Blocked, GuardsOf(st, env, id, c).(failureRecorded := true))
  }

  /** The skew check that follows an activation, and the move to verifying once the stage is complete. */
  ghost function CheckMix(st: StoreState, env: Env, id: CampaignId, c: Campaign): seq<Entry> {
    if !SkewOk(st, env, id, c) then BlockTrace(st, env, id, c)
    else if GuardsOf(st, env, id, c).activationComplete then MoveTrace(id, c, Verifying, GuardsOf(st, env, id, c))
    else []
  }

  /** What follows a recorded activation: the first one of a stage moves the campaign to activating. */
  ghost function AfterActivated(st: StoreState, env: Env, id: CampaignId, c: Campaign): seq<Entry> {
    if c.state.Staged? then
      var g := GuardsOf(st, env, id, c);
      var t := MoveTrace(id, c, Activating, g);
      t + CheckMix(ApplyAll(st, t), env, id, MoveResult(c, Activating, g))
    else CheckMix(st, env, id, c)
  }

  ghost function CommitActivate(st: StoreState, env: Env, item: Item, r: Report): seq<Entry>
    requires FenceOk(st, item)
  {
    var k, id, c := KeyOf(item), item.campaign, st.campaigns[item.campaign];
    if r.gateRefused then
      var w := AttemptEntry(k, st.attempts[k].(state := AttPrepared));
      [w] + (BlockTrace(Apply(st, w), env, id, c) + [DecisionEntry(id, Decision(DecBlock, Deny))])
    else if r.activated then
      var w := AttemptEntry(k, st.attempts[k].(state := AttActivated, activationObserved := true));
      var l := LedgerEntry(RecordOf(st, env, item, Applied));
      [w] + ([l] + AfterActivated(Apply(Apply(st, w), l), env, id, c))
    else
      var w := AttemptEntry(k, st.attempts[k].(state := AttFailed));
      [w] + FailTrace(Apply(st, w), env, id, c)
  }

  /** The campaign record once its active stage is complete: the next stage, if any, becomes active. */
  function StageCompletedRecord(c: Campaign): Campaign
    requires c.active < |c.progress|
  {
    var done := c.progress[c.active := StageCompleted];
    if c.active + 1 < |c.progress| then c.(progress := done[c.active + 1 := StagePending], active := c.active + 1)
    else c.(progress := done)
  }

  /** The move asked for once a stage is complete, and the deferral recorded when completion is refused. */
  ghost function AfterStage(st: StoreState, env: Env, id: CampaignId, c: Campaign, advanced: bool): seq<Entry> {
    var g := GuardsOf(st, env, id, c);
    if advanced then MoveTrace(id, c, Staged, g)
    else MoveTrace(id, c, Completed, g) +
         (if Permits(c.state, Completed, g) then [] else [DecisionEntry(id, Decision(DecVerify, Defer))])
  }

  /** What follows a recorded verification: a stage that is verified throughout is completed. */
  ghost function AfterVerified(st: StoreState, env: Env, id: CampaignId, c: Campaign, stage: nat): seq<Entry> {
    if stage < |c.progress| && c.active < |c.progress| && StageAll(st, id, c, stage, {AttVerified}) then
      var c1 := StageCompletedRecord(c);
      [CampaignEntry(id, c1)] + AfterStage(Apply(st, CampaignEntry(id, c1)), env, id, c1, c1.active > c.active)
    else []
  }

  ghost function CommitVerify(st: StoreState, env: Env, pol: Policy, item: Item, r: Report): seq<Entry>
    requires FenceOk(st, item)
  {
    var k, id, c := KeyOf(item), item.campaign, st.campaigns[item.campaign];
    var a := st.attempts[k];
    if Succeeded(item.artifact, r.verify, r.health, env.now, st.incarnation, pol.requireHealth) then
      var w := AttemptEntry(k, a.(state := AttVerified, evidenceAt := r.verify.at,
                                  evidenceValidity := r.verify.validity, observedVersion := r.verify.version));
      var l := LedgerEntry(RecordOf(st, env, item, Confirmed));
      [w] + ([l] + AfterVerified(Apply(Apply(st, w), l), env, id, c, item.stage))
    else if a.retries < pol.maxRetries then
      [AttemptEntry(k, a.(state := AttActivated, retries := a.retries + 1))]
    else
      var w := AttemptEntry(k, a.(state := AttFailed));
      [w] + FailTrace(Apply(st, w), env, id, c)
  }

  /** What follows a recorded rollback: the campaign is rolled back once nothing is left on the new version. */
  ghost function AfterRolledBack(st: StoreState, env: Env, id: CampaignId, c: Campaign): seq<Entry> {
    if NothingLeft(st, id) then
      var c1 := c.(rollbackPerformed := true);
      [CampaignEntry(id, c1)] + MoveTrace(id, c1, RolledBack, GuardsOf(st, env, id, c))
    else []
  }

  ghost function CommitRollback(st: StoreState, env: Env, item: Item, r: Report): seq<Entry>
    requires FenceOk(st, item)
  {
    var k, id, c := KeyOf(item), item.campaign, st.campaigns[item.campaign];
    if r.rolledBack then
      var w := AttemptEntry(k, st.attempts[k].(state := AttRolledBack));
      var l := LedgerEntry(RecordOf(st, env, item, Reverted));
      [w] + ([l] + AfterRolledBack(Apply(Apply(st, w), l), env, id, c))
    else
      var w := AttemptEntry(k, st.attempts[k].(state := AttFailed));
      [w] + FailTrace(Apply(st, w), env, id, c)
  }

  /** `commit_item`: a stale result is refused and leaves only a decision behind. */
  ghost function CommitTrace(st: StoreState, env: Env, pol: Policy, item: Item, r: Report): seq<Entry> {
    if !FenceOk(st, item) then
      (if KeyOf(item) in st.attempts && item.campaign in st.campaigns
       then [DecisionEntry(item.campaign, Decision(DecFence, Deny))] else [])
    else match item.kind
         case Prepare => CommitPrepare(st, env, item, r)
         case Activate => CommitActivate(st, env, item, r)
         case Verify => CommitVerify(st, env, pol, item, r)
         case Rollback => CommitRollback(st, env, item, r)
  }

  // ---- planning -----------------------------------------------------------------------------------------------

  predicate Running(s: UpgradeState) {
    s.Prepared? || s.Staged? || s.Activating? || s.Verifying? || s.RollingBack?
  }

  /** What planning does for one target: nothing, hand out work again, or claim the attempt and hand out work. */
  datatype Claim = NoClaim | Emit(item: Item) | ClaimAttempt(attempt: Attempt, item: Item)

  predicate NeedsRollback(a: Attempt) {
    a.state.AttVerified? || a.state.AttActivated? || (a.state.AttFailed? && a.activationObserved)
  }

  predicate Staging(c: Campaign) {
    c.state.Prepared? || (c.state.Staged? && c.active < |c.progress| && c.progress[c.active].StagePending?)
  }

  function InStage(st: StoreState, id: CampaignId, stage: nat, s: AttemptState): set<Key> {
    set k | k in st.attempts && k.campaign == id && k.stage == stage && st.attempts[k].state == s
  }

  function Min(a: nat, b: nat): nat { if a < b then a else b }

  function ActivationLimit(pol: Policy, c: Campaign, stage: nat): nat
    requires stage < |c.plan.stages|
  {
    Min(c.plan.stages[stage].maxParallel, pol.maxConcurrent)
  }

  function NewItem(kind: OperationKind, id: CampaignId, c: Campaign, stage: nat, t: TargetId): Item {
    Item(kind, id, c.generation, c.epoch, stage, t, c.artifact)
  }

  function NewAttempt(st: StoreState, c: Campaign): Attempt {
    Attempt(c.generation, st.incarnation, AttPreparing, false, 0, 0, 0, Version(0, 0, 0, [], false))
  }

  /** The per-target body of `plan_work_locked`. */
  function ClaimFor(st: StoreState, env: Env, pol: Policy, id: CampaignId, c: Campaign, stage: nat, t: TargetId): Claim
    requires stage < |c.plan.stages|
  {
    var k := Key(id, stage, t);
    if t !in env.inventory then NoClaim
    else if c.state.RollingBack? then
      if k in st.attempts && NeedsRollback(st.attempts[k]) then
        ClaimAttempt(st.attempts[k].(state := AttRollingBack, owner := st.incarnation),
                     NewItem(Rollback, id, c, stage, t))
      else NoClaim
    else if Staging(c) then
      if k !in st.attempts then
        if pol.maxAttempts == 0 then NoClaim
        else ClaimAttempt(NewAttempt(st, c), NewItem(Prepare, id, c, stage, t))
      else if st.attempts[k].state.AttPreparing? && st.attempts[k].owner == st.incarnation then
        Emit(NewItem(Prepare, id, c, stage, t))
      else NoClaim
    else if k !in st.attempts then NoClaim
    else if (c.state.Staged? || c.state.Activating?) && st.attempts[k].state.AttPrepared? then
      var adapterLimit := if env.inventory[t].maxParallel == 0 then 1 else env.inventory[t].maxParallel;
      if |InStage(st, id, stage, AttActivating)| >= Min(ActivationLimit(pol, c, stage), adapterLimit) then NoClaim
      else ClaimAttempt(st.attempts[k].(state := AttActivating, owner := st.incarnation),
                        NewItem(Activate, id, c, stage, t))
    else if (c.state.Activating? || c.state.Verifying?) && st.attempts[k].state.AttActivated? then
      ClaimAttempt(st.attempts[k].(state := AttVerifying, owner := st.incarnation),
                   NewItem(Verify, id, c, stage, t))
    else NoClaim
  }

  /** Entries written and work handed out, in order. */
  datatype Batch = Batch(trace: seq<Entry>, items: seq<Item>)

  function ClaimTrace(k: Key, claim: Claim): seq<Entry> {
    if claim.ClaimAttempt? then [AttemptEntry(k, claim.attempt)] else []
  }

  function ClaimItems(claim: Claim): seq<Item> { if claim.NoClaim? then [] else [claim.item] }

  /** The target loop: it stops as soon as the work budget is used up. */
  function ClaimAll(st: StoreState, env: Env, pol: Policy, id: CampaignId, c: Campaign, todo: seq<(nat, TargetId)>,
                    room: nat): Batch
    requires forall x :: x in todo ==> x.0 < |c.plan.stages|
    decreases |todo|
  {
    if todo == [] || room == 0 then Batch([], [])
    else
      var k := Key(id, todo[0].0, todo[0].1);
      var claim := ClaimFor(st, env, pol, id, c, todo[0].0, todo[0].1);
      var rest := ClaimAll(ApplyAll(st, ClaimTrace(k, claim)), env, pol, id, c, todo[1..],
                           room - |ClaimItems(claim)|);
      Batch(ClaimTrace(k, claim) + rest.trace, ClaimItems(claim) + rest.items)
  }

  function StageTargets(stage: nat, ts: seq<TargetId>): (r: seq<(nat, TargetId)>)
    ensures |r| == |ts| && forall i :: 0 <= i < |ts| ==> r[i] == (stage, ts[i])
  {
    seq(|ts|, i requires 0 <= i < |ts| => (stage, ts[i]))
  }

  /** Every planned target from stage `from` on, in plan order. */
  function AllTargets(stages: seq<StagePlan>, from: nat): (r: seq<(nat, TargetId)>)
    requires from <= |stages|
    ensures forall x :: x in r ==> from <= x.0 < |stages| && x.1 in stages[x.0].targets
    decreases |stages| - from
  {
    if from == |stages| then [] else StageTargets(from, stages[from].targets) + AllTargets(stages, from + 1)
  }

  lemma {:induction false} AllTargetsHas(stages: seq<StagePlan>, from: nat, s: nat, t: TargetId)
    requires from <= s < |stages| && t in stages[s].targets
    ensures (s, t) in AllTargets(stages, from)
    decreases |stages| - from
  {
    if from == s {
      var i :| 0 <= i < |stages[s].targets| && stages[s].targets[i] == t;
      assert StageTargets(s, stages[s].targets)[i] == (s, t);
    } else {
      AllTargetsHas(stages, from + 1, s, t);
    }
  }

  /** The targets a pass looks at: rollback spans the whole plan, everything else the active stage. */
  function Scope(c: Campaign): (r: seq<(nat, TargetId)>)
    requires c.active < |c.plan.stages|
    ensures forall x :: x in r ==> x.0 < |c.plan.stages| && x.1 in c.plan.stages[x.0].targets
  {
    if c.state.RollingBack? then AllTargets(c.plan.stages, 0)
    else StageTargets(c.active, c.plan.stages[c.active].targets)
  }

  /** A few writes and the campaign record the section goes on with. */
  datatype Moves = Moves(trace: seq<Entry>, campaign: Campaign)

  function MoveTo(id: CampaignId, c: Campaign, to: UpgradeState, g: Guards): (r: Moves)
    ensures OnlyMoved(c, r.campaign)
  {
    Moves(MoveTrace(id, c, to, g), MoveResult(c, to, g))
  }

  /** A campaign resumed with its stage already prepared is staged again. */
  ghost function Restage(st: StoreState, env: Env, id: CampaignId, c: Campaign): (r: Moves)
    ensures OnlyMoved(c, r.campaign)
  {
    if c.state.Prepared? && c.active < |c.progress| && c.progress[c.active].StagePrepared?
    then MoveTo(id, c, Staged, GuardsOf(st, env, id, c).(stagingComplete := true))
    else Moves([], c)
  }

  /** A stage whose targets are all activated goes on to verification. */
  ghost function Advance(st: StoreState, env: Env, id: CampaignId, c: Campaign): (r: Moves)
    ensures OnlyMoved(c, r.campaign)
  {
    var g := GuardsOf(st, env, id, c);
    if (c.state.Staged? || c.state.Activating?) && g.activationComplete then
      var m1 := if c.state.Staged? then MoveTo(id, c, Activating, g) else Moves([], c);
      var m2 := MoveTo(id, m1.campaign, Verifying, g);
      Moves(m1.trace + m2.trace, m2.campaign)
    else Moves([], c)
  }

  /** The moves a pass makes before it looks for work. */
  ghost function Forwarded(st: StoreState, env: Env, id: CampaignId, c: Campaign): (r: Moves)
    ensures OnlyMoved(c, r.campaign)
  {
    var m1 := Restage(st, env, id, c);
    var m2 := Advance(ApplyAll(st, m1.trace), env, id, m1.campaign);
    Moves(m1.trace + m2.trace, m2.campaign)
  }

  /** The body of `plan_work_locked` for one campaign, with `room` work items left in the budget. */
  ghost function PlanCampaign(st: StoreState, env: Env, pol: Policy, id: CampaignId, room: nat): Batch
    requires id in st.campaigns
  {
    var c := st.campaigns[id];
    if !Running(c.state) || c.active >= |c.plan.stages| then Batch([], [])
    else
      var Moves(t, c1) := Forwarded(st, env, id, c);
      var st1 := ApplyAll(st, t);
      if c1.state.Staged? && !SkewOk(st1, env, id, c1) then
        var g := GuardsOf(st1, env, id, c1).(failureRecorded := true);
        Batch(t + MoveTrace(id, c1, Blocked, g) + [DecisionEntry(id, Decision(DecBlock, Deny))], [])
      else
        var b := ClaimAll(st1, env, pol, id, c1, Scope(c1), room);
        Batch(t + b.trace, b.items)
  }

  /** `plan_work_locked`: the campaigns in the order the store lists them. */
  ghost function PlanWork(st: StoreState, env: Env, pol: Policy, order: seq<CampaignId>, room: nat): Batch
    decreases |order|
  {
    if order == [] || room == 0 then Batch([], [])
    else
      var b := if order[0] in st.campaigns then PlanCampaign(st, env, pol, order[0], room) else Batch([], []);
      var left := if |b.items| <= room then room - |b.items| else 0;
      var rest := PlanWork(ApplyAll(st, b.trace), env, pol, order[1..], left);
      Batch(b.trace + rest.trace, b.items + rest.items)
  }
}
