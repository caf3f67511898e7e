/** What an effective commit makes of the store, stated on the stores before and after it: the attempt, the campaign record and
    the ledger, for each operation and each outcome. */
module CommitEffects {
  import opened Lifecycle
  import opened Skew
  import opened Records
  import opened Store
  import opened Verification
  import opened Protocol
  import opened Sections
  import opened Effects
  import opened CommandEffects

  // ---- the vocabulary -----------------------------------------------------------------------------------------

  /** Every target of the stage, which has some, has an attempt in one of these states. */
  predicate StageIn(attempts: map<Key, Attempt>, id: CampaignId, plan: Plan, stage: nat, states: set<AttemptState>) {
    stage < |plan.stages| && plan.stages[stage].targets != [] &&
    forall t :: t in plan.stages[stage].targets ==>
      Key(id, stage, t) in attempts && attempts[Key(id, stage, t)].state in states
  }

  /** Every target of the stage is verified, by this incarnation, with evidence whose window contains the present. */
  predicate StageProven(attempts: map<Key, Attempt>, id: CampaignId, plan: Plan, stage: nat, now: int, incarnation: nat) {
    StageIn(attempts, id, plan, stage, {AttVerified}) &&
    forall t :: t in plan.stages[stage].targets ==>
      var a := attempts[Key(id, stage, t)];
      a.owner == incarnation && a.evidenceValidity > 0 && a.evidenceAt <= now <= a.evidenceAt + a.evidenceValidity
  }

  /** Whoever must leave service for this stage has done so. */
  predicate Drained(env: Env, id: CampaignId, plan: Plan, stage: nat) {
    stage < |plan.stages| && plan.stages[stage].requiresRemoval && env.drainWired ==> (id, stage) in env.drained
  }

  /** Every adapter the plan needs supports its strategy. */
  predicate AllSupport(env: Env, plan: Plan) {
    forall stage :: stage in plan.stages ==>
      forall t :: t in stage.targets ==> t in env.inventory && plan.strategy in env.inventory[t].strategies
  }

  /** No attempt of the campaign has left its target on the new version. */
  predicate NoneOnNewVersion(attempts: map<Key, Attempt>, id: CampaignId) {
    forall k :: k in attempts && k.campaign == id ==> !OnNewVersion(attempts[k])
  }

  /** What makes a verification succeed: the adapter confirms it, version and build are the artifact's, the evidence was gathered
      in this incarnation and its window contains the present, and where health is required the target is healthy. */
  predicate Proven(artifact: Artifact, r: Report, now: int, incarnation: nat, requireHealth: bool) {
    var v, h := r.verify, r.health;
    v.verified && Same(v.version, artifact.version) && v.build != [] && (artifact.build != [] ==> v.build == artifact.build) &&
    v.incarnation == incarnation && v.validity > 0 && v.at <= now <= v.at + v.validity &&
    (requireHealth ==>
       v.healthy && (h.at == 0 || (h.healthy && h.incarnation == incarnation && h.validity > 0 && h.at <= now <= h.at + h.validity)))
  }

  /** One attempt and one campaign record have been replaced; the ledger is as given, and nothing else has changed but the
      decision trail. */
  ghost predicate Becomes(st: StoreState, post: StoreState, k: Key, b: Attempt, c: Campaign) {
    post.attempts == st.attempts[k := b] && post.campaigns == st.campaigns[k.campaign := c] &&
    post.epoch == st.epoch && post.incarnation == st.incarnation && post.config == st.config
  }

  /** The ledger has one record more, of this outcome. */
  predicate Recorded(st: StoreState, post: StoreState, item: Item, o: Outcome) {
    |post.ledger| == |st.ledger| + 1 && post.ledger[..|st.ledger|] == st.ledger &&
    var r := post.ledger[|st.ledger|];
    r.key == KeyOf(item) && r.outcome == o && r.generation == item.generation && r.incarnation == st.incarnation
  }

  // ---- links to the guards ------------------------------------------------------------------------------------

  lemma Flags(st: StoreState, env: Env, id: CampaignId, c: Campaign)
    ensures var g := GuardsOf(st, env, id, c);
            (g.adapterSupports <==> AllSupport(env, c.plan)) &&
            (g.activationComplete <==> StageIn(st.attempts, id, c.plan, c.active, {AttActivated, AttVerified})) &&
            (g.verificationFresh <==> StageProven(st.attempts, id, c.plan, c.active, env.now, st.incarnation)) &&
            (g.skewWithinBudget <==> SkewOk(st, env, id, c)) && (g.drainSatisfied <==> Drained(env, id, c.plan, c.active)) &&
            (g.allStagesComplete <==> c.progress != [] && forall p :: p in c.progress ==> p.StageCompleted?)
  {
    hide SkewOk, NothingLeft, AdaptersSupport, AllSupport, TicketCurrent, StageAll, StageFresh, StageIn, StageProven;
    SupportIff(env, c);
    StageFlags(st, env, id, c, c.active);
    AllComplete(c.progress);
  }

  lemma StageFlags(st: StoreState, env: Env, id: CampaignId, c: Campaign, stage: nat)
    ensures StageAll(st, id, c, stage, {AttActivated, AttVerified}) <==>
            StageIn(st.attempts, id, c.plan, stage, {AttActivated, AttVerified})
    ensures StageFresh(st, env, id, c, stage) <==> StageProven(st.attempts, id, c.plan, stage, env.now, st.incarnation)
  {
  }

  lemma AllComplete(progress: seq<StageState>)
    ensures (forall i :: 0 <= i < |progress| ==> progress[i].StageCompleted?) <==> forall p :: p in progress ==> p.StageCompleted?
  {
    if forall p :: p in progress ==> p.StageCompleted? {
      assert forall i :: 0 <= i < |progress| ==> progress[i] in progress;
    }
  }

  lemma SupportIff(env: Env, c: Campaign)
    ensures AdaptersSupport(env, c) <==> AllSupport(env, c.plan)
  {
    if AdaptersSupport(env, c) {
      forall stage, t | stage in c.plan.stages && t in stage.targets
        ensures t in env.inventory && c.plan.strategy in env.inventory[t].strategies
      {
        var i :| 0 <= i < |c.plan.stages| && c.plan.stages[i] == stage;
        assert Planned(c, i, t);
      }
    }
    if AllSupport(env, c.plan) {
      forall i: nat, t | Planned(c, i, t) ensures t in env.inventory && c.plan.strategy in env.inventory[t].strategies {
        assert c.plan.stages[i] in c.plan.stages;
      }
    }
  }

  lemma ForwardMoves(g: Guards)
    ensures Permits(Prepared, Staged, g) <==> g.adapterSupports && g.stagingComplete
    ensures Permits(Staged, Activating, g) <==> g.skewWithinBudget && g.drainSatisfied
    ensures Permits(Activating, Verifying, g) <==> g.activationComplete
    ensures Permits(Verifying, Staged, g) <==> g.skewWithinBudget && g.drainSatisfied
    ensures Permits(Verifying, Completed, g) <==> g.verificationFresh && g.allStagesComplete
    ensures !Permits(Staged, Verifying, g) && !Permits(Activating, Staged, g) && !Permits(Activating, Completed, g)
  {
  }

  lemma Failing(s: UpgradeState, g: Guards)
    requires g.failureRecorded && s in {Prepared, Staged, Activating, Verifying, RollingBack}
    ensures Permits(s, Failed, g) && (!s.RollingBack? ==> Permits(s, Blocked, g))
  {
  }

  // ---- what follows the first write ---------------------------------------------------------------------------

  lemma AttemptThen(st: StoreState, k: Key, b: Attempt, rest: seq<Entry>, c: Campaign)
    requires var st1 := Apply(st, AttemptEntry(k, b));
             SameButCampaign(st1, ApplyAll(st1, rest), k.campaign, c)
    ensures var post := ApplyAll(st, [AttemptEntry(k, b)] + rest);
            Becomes(st, post, k, b, c) && post.ledger == st.ledger
  {
    hide ApplyAll;
    ApplyCons(st, AttemptEntry(k, b), rest);
  }

  lemma RecordThen(st: StoreState, item: Item, b: Attempt, l: Provenance, rest: seq<Entry>, c: Campaign)
    requires var st1 := Apply(Apply(st, AttemptEntry(KeyOf(item), b)), LedgerEntry(l));
             SameButCampaign(st1, ApplyAll(st1, rest), item.campaign, c)
    requires l.key == KeyOf(item) && l.generation == item.generation && l.incarnation == st.incarnation
    ensures var post := ApplyAll(st, [AttemptEntry(KeyOf(item), b)] + ([LedgerEntry(l)] + rest));
            Becomes(st, post, KeyOf(item), b, c) && Recorded(st, post, item, l.outcome)
  {
    hide ApplyAll, Becomes, Recorded, SameButCampaign;
    var w := AttemptEntry(KeyOf(item), b);
    RecordedAs(st, ApplyAll(Apply(Apply(st, w), LedgerEntry(l)), rest), item, b, l, c);
    ApplyCons(st, w, [LedgerEntry(l)] + rest);
    ApplyCons(Apply(st, w), LedgerEntry(l), rest);
  }

  lemma RecordedAs(st: StoreState, post: StoreState, item: Item, b: Attempt, l: Provenance, c: Campaign)
    requires SameButCampaign(Apply(Apply(st, AttemptEntry(KeyOf(item), b)), LedgerEntry(l)), post, item.campaign, c)
    requires l.key == KeyOf(item) && l.generation == item.generation && l.incarnation == st.incarnation
    ensures Becomes(st, post, KeyOf(item), b, c) && Recorded(st, post, item, l.outcome)
  {
    assert post.ledger == st.ledger + [l];
  }

  lemma RecordFields(st: StoreState, env: Env, item: Item, o: Outcome)
    ensures var l := RecordOf(st, env, item, o);
            l.key == KeyOf(item) && l.outcome == o && l.generation == item.generation && l.incarnation == st.incarnation
  {
  }

  lemma FailEffect(st: StoreState, env: Env, id: CampaignId, c: Campaign)
    requires id in st.campaigns && c.state in {Prepared, Staged, Activating, Verifying, RollingBack}
    ensures SameButCampaign(st, ApplyAll(st, FailTrace(st, env, id, c)), id, c.(state := Failed, failureRecorded := true))
  {
    hide GuardsOf, MoveTrace, MoveResult, Permits, ApplyAll, SameButCampaign;
    var c1 := c.(failureRecorded := true);
    var g := GuardsOf(st, env, id, c1).(failureRecorded := true);
    Failing(c1.state, g);
    MovedTo(st, id, c1, Failed, g);
  }

  lemma BlockEffect(st: StoreState, env: Env, id: CampaignId, c: Campaign)
    requires id in st.campaigns && c.state in {Prepared, Staged, Activating, Verifying}
    ensures SameButCampaign(st, ApplyAll(st, BlockTrace(st, env, id, c)), id, c.(state := Blocked))
  {
    hide GuardsOf, MoveTrace, MoveResult, Permits, ApplyAll, SameButCampaign;
    var g := GuardsOf(st, env, id, c).(failureRecorded := true);
    Failing(c.state, g);
    MovedTo(st, id, c, Blocked, g);
  }

  /** A requested move, whether it is permitted or not. */
  lemma Asked(st: StoreState, id: CampaignId, c: Campaign, to: UpgradeState, g: Guards)
    requires id in st.campaigns && st.campaigns[id] == c && c.state != to && !Terminal(to)
    ensures MoveResult(c, to, g) == c.(state := if Permits(c.state, to, g) then to else c.state)
    ensures var post := ApplyAll(st, MoveTrace(id, c, to, g));
            SameButCampaign(st, post, id, MoveResult(c, to, g)) && id in post.campaigns &&
            post.campaigns[id] == MoveResult(c, to, g)
  {
    hide MoveTrace, Permits, ApplyAll, MoveResult, SameButCampaign;
    if Permits(c.state, to, g) {
      MovedTo(st, id, c, to, g);
    } else {
      MoveRefused(st, id, c, to, g);
      Stored(st, ApplyAll(st, MoveTrace(id, c, to, g)), id, c);
    }
  }

  // ---- preparation --------------------------------------------------------------------------------------------

  /** A finished preparation: when it was the last of its stage, the stage counts as prepared, and a campaign that was waiting
      for it is staged if every adapter supports the strategy. A failed one fails the campaign. */
  lemma PrepareMeans(st: StoreState, env: Env, pol: Policy, item: Item, r: Report)
    requires FenceOk(st, item) && item.kind.Prepare?
    ensures var k, post := KeyOf(item), ApplyAll(st, CommitTrace(st, env, pol, item, r));
            var a, c := st.attempts[k], st.campaigns[item.campaign];
            post.ledger == st.ledger &&
            if r.prepared then
              var b := a.(state := AttPrepared);
              Becomes(st, post, k, b,
                if item.stage < |c.progress| &&
                   StageIn(st.attempts[k := b], item.campaign, c.plan, item.stage, {AttPrepared, AttActivated, AttVerified, AttRolledBack})
                then c.(progress := c.progress[item.stage := StagePrepared],
                        state := if c.state.Prepared? && AllSupport(env, c.plan) then Staged else c.state)
                else c)
            else Becomes(st, post, k, a.(state := AttFailed), c.(state := Failed, failureRecorded := true))
  {
    hide GuardsOf, MoveTrace, MoveResult, Permits, ApplyAll, SameButCampaign, AllSupport, Becomes, AfterPrepared, FailTrace, StageIn;
    var k, id := KeyOf(item), item.campaign;
    var a, c := st.attempts[k], st.campaigns[id];
    if r.prepared {
      var b := a.(state := AttPrepared);
      var st1 := Apply(st, AttemptEntry(k, b));
      AfterPreparedMeans(st1, env, id, c, item.stage);
      AttemptThen(st, k, b, AfterPrepared(st1, env, id, c, item.stage), PreparedRecord(st1, env, id, c, item.stage));
    } else {
      var b := a.(state := AttFailed);
      var st1 := Apply(st, AttemptEntry(k, b));
      FailEffect(st1, env, id, c);
      AttemptThen(st, k, b, FailTrace(st1, env, id, c), c.(state := Failed, failureRecorded := true));
    }
  }

  function PreparedRecord(st: StoreState, env: Env, id: CampaignId, c: Campaign, stage: nat): Campaign {
    if stage < |c.progress| && StageIn(st.attempts, id, c.plan, stage, {AttPrepared, AttActivated, AttVerified, AttRolledBack})
    then c.(progress := c.progress[stage := StagePrepared],
            state := if c.state.Prepared? && AllSupport(env, c.plan) then Staged else c.state)
    else c
  }

  lemma AfterPreparedMeans(st: StoreState, env: Env, id: CampaignId, c: Campaign, stage: nat)
    requires id in st.campaigns && st.campaigns[id] == c
    ensures SameButCampaign(st, ApplyAll(st, AfterPrepared(st, env, id, c, stage)), id, PreparedRecord(st, env, id, c, stage))
  {
    hide GuardsOf, MoveTrace, MoveResult, Permits, ApplyAll, SameButCampaign, AllSupport;
    EmptyRun(st);
    SameItself(st, id);
    assert StageAll(st, id, c, stage, {AttPrepared, AttActivated, AttVerified, AttRolledBack}) <==>
           StageIn(st.attempts, id, c.plan, stage, {AttPrepared, AttActivated, AttVerified, AttRolledBack});
    if stage < |c.progress| && StageIn(st.attempts, id, c.plan, stage, {AttPrepared, AttActivated, AttVerified, AttRolledBack}) {
      var c1 := c.(progress := c.progress[stage := StagePrepared]);
      var w := CampaignEntry(id, c1);
      var st1 := Apply(st, w);
      WrittenOnly(st, id, c1);
      ApplyOne(st, w);
      EmptyRun(st1);
      SameItself(st1, id);
      if c.state.Prepared? {
        var g := GuardsOf(st1, env, id, c1).(stagingComplete := true);
        Flags(st1, env, id, c1);
        ForwardMoves(g);
        Asked(st1, id, c1, Staged, g);
      }
      var rest := StageIt(st1, env, id, c1);
      ApplyCons(st, w, rest);
      ThenSame(st, st1, ApplyAll(st1, rest), id, c1, PreparedRecord(st, env, id, c, stage));
    }
  }

  // ---- activation ---------------------------------------------------------------------------------------------

  /** The state after an activation has been recorded: the first one of a stage starts the activation if the version mix and the
      drain permit; a mix over budget blocks; the last one of the stage starts the verification. */
  function ActivatedState(s: UpgradeState, within: bool, drained: bool, all: bool): UpgradeState {
    if !within then Blocked
    else if s.Activating? || (s.Staged? && drained) then if all then Verifying else Activating
    else s
  }

  /** A finished activation. A refusing health gate blocks the campaign and leaves the attempt prepared; a failure fails it. */
  lemma ActivateMeans(st: StoreState, env: Env, pol: Policy, item: Item, r: Report)
    requires FenceOk(st, item) && item.kind.Activate?
    ensures var k, id, post := KeyOf(item), item.campaign, ApplyAll(st, CommitTrace(st, env, pol, item, r));
            var a, c := st.attempts[k], st.campaigns[id];
            if r.gateRefused then
              Becomes(st, post, k, a.(state := AttPrepared), c.(state := Blocked)) && post.ledger == st.ledger &&
              Noted(post, id, Decision(DecBlock, Deny))
            else if r.activated then
              var b := a.(state := AttActivated, activationObserved := true);
              Becomes(st, post, k, b,
                c.(state := ActivatedState(c.state, SkewOk(st.(attempts := st.attempts[k := b]), env, id, c),
                                           Drained(env, id, c.plan, c.active),
                                           StageIn(st.attempts[k := b], id, c.plan, c.active, {AttActivated, AttVerified})))) &&
              Recorded(st, post, item, Applied)
            else Becomes(st, post, k, a.(state := AttFailed), c.(state := Failed, failureRecorded := true)) && post.ledger == st.ledger
  {
    hide GuardsOf, MoveTrace, MoveResult, Permits, ApplyAll, SameButCampaign, Becomes, AfterActivated, FailTrace, StageIn, BlockTrace,
         Noted, SkewOk, Drained, Recorded;
    var k, id := KeyOf(item), item.campaign;
    var a, c := st.attempts[k], st.campaigns[id];
    if r.gateRefused {
      var b, d := a.(state := AttPrepared), Decision(DecBlock, Deny);
      var st1 := Apply(st, AttemptEntry(k, b));
      BlockEffect(st1, env, id, c);
      AlsoDecided(st1, BlockTrace(st1, env, id, c), id, c.(state := Blocked), d);
      var rest := BlockTrace(st1, env, id, c) + [DecisionEntry(id, d)];
      AttemptThen(st, k, b, rest, c.(state := Blocked));
      ApplyCons(st, AttemptEntry(k, b), rest);
    } else if r.activated {
      var b := a.(state := AttActivated, activationObserved := true);
      var l := RecordOf(st, env, item, Applied);
      RecordFields(st, env, item, Applied);
      var st1 := Apply(Apply(st, AttemptEntry(k, b)), LedgerEntry(l));
      AfterActivatedMeans(st1, env, id, c);
      SameMix(st1, st.(attempts := st.attempts[k := b]), env, id, c);
      RecordThen(st, item, b, l, AfterActivated(st1, env, id, c), ActivatedRecord(st1, env, id, c));
    } else {
      var b := a.(state := AttFailed);
      var st1 := Apply(st, AttemptEntry(k, b));
      FailEffect(st1, env, id, c);
      AttemptThen(st, k, b, FailTrace(st1, env, id, c), c.(state := Failed, failureRecorded := true));
    }
  }

  /** The version mix depends on the attempts and the plan only. */
  lemma SameMix(st: StoreState, post: StoreState, env: Env, id: CampaignId, c: Campaign)
    requires post.attempts == st.attempts
    ensures SkewOk(st, env, id, c) <==> SkewOk(post, env, id, c)
  {
    hide Tolerated;
    assert forall t :: TargetUpgraded(post, id, t) <==> TargetUpgraded(st, id, t);
    assert forall t :: LiveVersion(post, env, id, c, t) == LiveVersion(st, env, id, c, t);
  }

  lemma SameMixOf(st: StoreState, env: Env, id: CampaignId, c: Campaign, d: Campaign)
    requires d.plan == c.plan && d.artifact == c.artifact
    ensures SkewOk(st, env, id, c) <==> SkewOk(st, env, id, d)
  {
    hide Tolerated;
    assert forall t :: LiveVersion(st, env, id, d, t) == LiveVersion(st, env, id, c, t);
    assert forall s, t :: Planned(d, s, t) <==> Planned(c, s, t);
  }

  ghost function ActivatedRecord(st: StoreState, env: Env, id: CampaignId, c: Campaign): Campaign {
    c.(state := ActivatedState(c.state, SkewOk(st, env, id, c), Drained(env, id, c.plan, c.active),
                               StageIn(st.attempts, id, c.plan, c.active, {AttActivated, AttVerified})))
  }

  lemma AfterActivatedMeans(st: StoreState, env: Env, id: CampaignId, c: Campaign)
    requires id in st.campaigns && st.campaigns[id] == c && (c.state.Staged? || c.state.Activating?)
    ensures SameButCampaign(st, ApplyAll(st, AfterActivated(st, env, id, c)), id, ActivatedRecord(st, env, id, c))
  {
    hide GuardsOf, MoveTrace, MoveResult, Permits, ApplyAll, SameButCampaign, StageIn, SkewOk, Drained, CheckMix;
    if c.state.Staged? {
      var g := GuardsOf(st, env, id, c);
      var t := MoveTrace(id, c, Activating, g);
      Flags(st, env, id, c);
      ForwardMoves(g);
      Asked(st, id, c, Activating, g);
      var c1 := MoveResult(c, Activating, g);
      var st1 := ApplyAll(st, t);
      SameAttempts(st, st1, id, c1);
      SameMix(st, st1, env, id, c);
      SameMixOf(st1, env, id, c, c1);
      CheckMixMeans(st1, env, id, c1);
      ApplyAllAppend(st, t, CheckMix(st1, env, id, c1));
      ThenSame(st, st1, ApplyAll(st1, CheckMix(st1, env, id, c1)), id, c1, CheckedRecord(st1, env, id, c1));
    } else {
      CheckMixMeans(st, env, id, c);
    }
  }

  lemma SameAttempts(st: StoreState, post: StoreState, id: CampaignId, c: Campaign)
    requires SameButCampaign(st, post, id, c)
    ensures post.attempts == st.attempts && post.incarnation == st.incarnation
  {
  }

  ghost function CheckedRecord(st: StoreState, env: Env, id: CampaignId, c: Campaign): Campaign {
    c.(state := if !SkewOk(st, env, id, c) then Blocked
                else if c.state.Activating? && StageIn(st.attempts, id, c.plan, c.active, {AttActivated, AttVerified}) then Verifying
                else c.state)
  }

  lemma CheckMixMeans(st: StoreState, env: Env, id: CampaignId, c: Campaign)
    requires id in st.campaigns && st.campaigns[id] == c && (c.state.Staged? || c.state.Activating?)
    ensures SameButCampaign(st, ApplyAll(st, CheckMix(st, env, id, c)), id, CheckedRecord(st, env, id, c))
  {
    hide GuardsOf, MoveTrace, MoveResult, Permits, ApplyAll, SameButCampaign, StageIn, SkewOk, BlockTrace;
    var g := GuardsOf(st, env, id, c);
    Flags(st, env, id, c);
    ForwardMoves(g);
    EmptyRun(st);
    SameItself(st, id);
    BlockEffect(st, env, id, c);
    Asked(st, id, c, Verifying, g);
  }

  // ---- verification -------------------------------------------------------------------------------------------

  /** The record once a stage is verified throughout. Not the last stage: the next one is active and pending, and is staged if
      the version mix and the drain permit. The last one: the campaign is completed if all stages are complete and the evidence
      still holds. */
  ghost function StageDone(st: StoreState, env: Env, id: CampaignId, c: Campaign): Campaign
    requires c.active < |c.progress|
  {
    var done := c.progress[c.active := StageCompleted];
    if c.active + 1 < |c.progress| then
      c.(progress := done[c.active + 1 := StagePending], active := c.active + 1,
         state := if c.state.Verifying? && SkewOk(st, env, id, c) && Drained(env, id, c.plan, c.active + 1) then Staged else c.state)
    else if c.state.Verifying? && StageProven(st.attempts, id, c.plan, c.active, env.now, st.incarnation) &&
            (forall i :: 0 <= i < c.active ==> c.progress[i].StageCompleted?) then
      c.(progress := done, state := Completed, failureRecorded := false)
    else c.(progress := done)
  }

  /** A finished verification. Without sufficient proof it is tried again while retries are left, and then fails the campaign. */
  lemma VerifyMeans(st: StoreState, env: Env, pol: Policy, item: Item, r: Report)
    requires FenceOk(st, item) && item.kind.Verify?
    ensures var k, id, post := KeyOf(item), item.campaign, ApplyAll(st, CommitTrace(st, env, pol, item, r));
            var a, c := st.attempts[k], st.campaigns[id];
            if Proven(item.artifact, r, env.now, st.incarnation, pol.requireHealth) then
              var b := a.(state := AttVerified, evidenceAt := r.verify.at, evidenceValidity := r.verify.validity,
                          observedVersion := r.verify.version);
              var st1 := st.(attempts := st.attempts[k := b]);
              Becomes(st, post, k, b,
                if item.stage < |c.progress| && c.active < |c.progress| && StageIn(st1.attempts, id, c.plan, item.stage, {AttVerified})
                then StageDone(st1, env, id, c) else c) &&
              Recorded(st, post, item, Confirmed)
            else
              post.ledger == st.ledger &&
              if a.retries < pol.maxRetries
              then Becomes(st, post, k, a.(state := AttActivated, retries := a.retries + 1), c)
              else Becomes(st, post, k, a.(state := AttFailed), c.(state := Failed, failureRecorded := true))
  {
    hide GuardsOf, MoveTrace, MoveResult, Permits, ApplyAll, SameButCampaign, Becomes, AfterVerified, FailTrace, StageIn, StageDone,
         SkewOk, Recorded, Proven, Succeeded;
    var k, id := KeyOf(item), item.campaign;
    var a, c := st.attempts[k], st.campaigns[id];
    ProvenIff(item.artifact, r, env.now, st.incarnation, pol.requireHealth);
    if Proven(item.artifact, r, env.now, st.incarnation, pol.requireHealth) {
      var b := a.(state := AttVerified, evidenceAt := r.verify.at, evidenceValidity := r.verify.validity,
                  observedVersion := r.verify.version);
      var l := RecordOf(st, env, item, Confirmed);
      RecordFields(st, env, item, Confirmed);
      var st1 := Apply(Apply(st, AttemptEntry(k, b)), LedgerEntry(l));
      AfterVerifiedMeans(st1, env, id, c, item.stage);
      SameDone(st1, st.(attempts := st.attempts[k := b]), env, id, c);
      RecordThen(st, item, b, l, AfterVerified(st1, env, id, c, item.stage), VerifiedRecord(st1, env, id, c, item.stage));
    } else if a.retries < pol.maxRetries {
      var b := a.(state := AttActivated, retries := a.retries + 1);
      var st1 := Apply(st, AttemptEntry(k, b));
      EmptyRun(st1);
      SameItself(st1, id);
      AttemptThen(st, k, b, [], c);
      assert [AttemptEntry(k, b)] + [] == [AttemptEntry(k, b)];
    } else {
      var b := a.(state := AttFailed);
      var st1 := Apply(st, AttemptEntry(k, b));
      FailEffect(st1, env, id, c);
      AttemptThen(st, k, b, FailTrace(st1, env, id, c), c.(state := Failed, failureRecorded := true));
    }
  }

  lemma ProvenIff(artifact: Artifact, r: Report, now: int, incarnation: nat, requireHealth: bool)
    ensures Succeeded(artifact, r.verify, r.health, now, incarnation, requireHealth) <==>
            Proven(artifact, r, now, incarnation, requireHealth)
  {
  }

  lemma SameDone(st: StoreState, post: StoreState, env: Env, id: CampaignId, c: Campaign)
    requires post.attempts == st.attempts && post.incarnation == st.incarnation
    ensures c.active < |c.progress| ==> StageDone(st, env, id, c) == StageDone(post, env, id, c)
  {
    hide SkewOk;
    SameMix(st, post, env, id, c);
  }

  ghost function VerifiedRecord(st: StoreState, env: Env, id: CampaignId, c: Campaign, stage: nat): Campaign {
    if stage < |c.progress| && c.active < |c.progress| && StageIn(st.attempts, id, c.plan, stage, {AttVerified})
    then StageDone(st, env, id, c) else c
  }

  lemma AfterVerifiedMeans(st: StoreState, env: Env, id: CampaignId, c: Campaign, stage: nat)
    requires id in st.campaigns && st.campaigns[id] == c && (c.state.Activating? || c.state.Verifying?)
    ensures SameButCampaign(st, ApplyAll(st, AfterVerified(st, env, id, c, stage)), id, VerifiedRecord(st, env, id, c, stage))
  {
    hide GuardsOf, MoveTrace, MoveResult, Permits, ApplyAll, SameButCampaign, SkewOk, Drained, AfterStage, StageDone, StageCompletedRecord;
    EmptyRun(st);
    SameItself(st, id);
    assert StageAll(st, id, c, stage, {AttVerified}) <==> StageIn(st.attempts, id, c.plan, stage, {AttVerified});
    if stage < |c.progress| && c.active < |c.progress| && StageIn(st.attempts, id, c.plan, stage, {AttVerified}) {
      var c1 := StageCompletedRecord(c);
      var w := CampaignEntry(id, c1);
      var st1 := Apply(st, w);
      WrittenOnly(st, id, c1);
      ApplyOne(st, w);
      AfterStageMeans(st1, env, id, c, c1);
      var rest := AfterStage(st1, env, id, c1, c1.active > c.active);
      ApplyCons(st, w, rest);
      SameDone(st, st1, env, id, c);
      ThenSame(st, st1, ApplyAll(st1, rest), id, c1, StageDone(st, env, id, c));
    }
  }

  lemma AfterStageMeans(st: StoreState, env: Env, id: CampaignId, c: Campaign, c1: Campaign)
    requires c.active < |c.progress| && c1 == StageCompletedRecord(c) && id in st.campaigns && st.campaigns[id] == c1
    requires c.state.Activating? || c.state.Verifying?
    ensures SameButCampaign(st, ApplyAll(st, AfterStage(st, env, id, c1, c1.active > c.active)), id, StageDone(st, env, id, c))
  {
    hide GuardsOf, MoveTrace, MoveResult, ApplyAll, SameButCampaign, StageDone, AfterStage;
    if c.active + 1 < |c.progress| {
      NextStageMeans(st, env, id, c, c1);
    } else {
      LastStageMeans(st, env, id, c, c1);
    }
  }

  lemma NextStageMeans(st: StoreState, env: Env, id: CampaignId, c: Campaign, c1: Campaign)
    requires c.active + 1 < |c.progress| && c1 == StageCompletedRecord(c) && id in st.campaigns && st.campaigns[id] == c1
    requires c.state.Activating? || c.state.Verifying?
    ensures SameButCampaign(st, ApplyAll(st, AfterStage(st, env, id, c1, true)), id, StageDone(st, env, id, c))
  {
    hide GuardsOf, MoveTrace, MoveResult, Permits, ApplyAll, SameButCampaign, SkewOk, Drained, StageProven;
    var g := GuardsOf(st, env, id, c1);
    Flags(st, env, id, c1);
    ForwardMoves(g);
    SameMixOf(st, env, id, c, c1);
    Asked(st, id, c1, Staged, g);
  }

  lemma LastStageMeans(st: StoreState, env: Env, id: CampaignId, c: Campaign, c1: Campaign)
    requires c.active + 1 == |c.progress| && c1 == StageCompletedRecord(c) && id in st.campaigns && st.campaigns[id] == c1
    requires c.state.Activating? || c.state.Verifying?
    ensures SameButCampaign(st, ApplyAll(st, AfterStage(st, env, id, c1, false)), id, StageDone(st, env, id, c))
  {
    hide GuardsOf, MoveTrace, MoveResult, Permits, ApplyAll, SameButCampaign, SkewOk, Drained, StageProven;
    var g := GuardsOf(st, env, id, c1);
    Flags(st, env, id, c1);
    ForwardMoves(g);
    LastStage(c);
    var t := MoveTrace(id, c1, Completed, g);
    if Permits(c1.state, Completed, g) {
      CompletedMove(st, id, c1, g);
      assert t + [] == t;
    } else {
      MoveRefused(st, id, c1, Completed, g);
      AlsoDecided(st, t, id, c1, Decision(DecVerify, Defer));
    }
  }

  /** After the last stage all are complete exactly if the earlier ones are. */
  lemma LastStage(c: Campaign)
    requires c.active < |c.progress| && c.active + 1 >= |c.progress|
    ensures var done := c.progress[c.active := StageCompleted];
            (done != [] && forall p :: p in done ==> p.StageCompleted?) <==>
            forall i :: 0 <= i < c.active ==> c.progress[i].StageCompleted?
  {
    var done := c.progress[c.active := StageCompleted];
    if forall p :: p in done ==> p.StageCompleted? {
      forall i | 0 <= i < c.active ensures c.progress[i].StageCompleted? { assert done[i] in done; }
    }
  }

  lemma CompletedMove(st: StoreState, id: CampaignId, c: Campaign, g: Guards)
    requires id in st.campaigns && Permits(c.state, Completed, g) && !c.state.Completed?
    ensures SameButCampaign(st, ApplyAll(st, MoveTrace(id, c, Completed, g)), id, c.(state := Completed, failureRecorded := false))
  {
    hide MoveTrace, Permits, ApplyAll;
    MoveEffect(st, id, c, Completed, g);
  }

  // ---- rollback -----------------------------------------------------------------------------------------------

  /** A finished rollback: the campaign is rolled back once none of its attempts has its target on the new version. A failed one
      fails the campaign. */
  lemma RevertMeans(st: StoreState, env: Env, pol: Policy, item: Item, r: Report)
    requires FenceOk(st, item) && item.kind.Rollback?
    ensures var k, id, post := KeyOf(item), item.campaign, ApplyAll(st, CommitTrace(st, env, pol, item, r));
            var a, c := st.attempts[k], st.campaigns[id];
            if r.rolledBack then
              var b := a.(state := AttRolledBack);
              Becomes(st, post, k, b,
                if NoneOnNewVersion(st.attempts[k := b], id)
                then c.(state := RolledBack, rollbackPerformed := true, failureRecorded := false) else c) &&
              Recorded(st, post, item, Reverted)
            else Becomes(st, post, k, a.(state := AttFailed), c.(state := Failed, failureRecorded := true)) && post.ledger == st.ledger
  {
    hide GuardsOf, MoveTrace, MoveResult, Permits, ApplyAll, SameButCampaign, Becomes, AfterRolledBack, FailTrace, Recorded,
         NoneOnNewVersion;
    var k, id := KeyOf(item), item.campaign;
    var a, c := st.attempts[k], st.campaigns[id];
    if r.rolledBack {
      var b := a.(state := AttRolledBack);
      var l := RecordOf(st, env, item, Reverted);
      RecordFields(st, env, item, Reverted);
      var st1 := Apply(Apply(st, AttemptEntry(k, b)), LedgerEntry(l));
      AfterRolledBackMeans(st1, env, id, c, k);
      RecordThen(st, item, b, l, AfterRolledBack(st1, env, id, c), RevertedRecord(st1, id, c));
    } else {
      var b := a.(state := AttFailed);
      var st1 := Apply(st, AttemptEntry(k, b));
      FailEffect(st1, env, id, c);
      AttemptThen(st, k, b, FailTrace(st1, env, id, c), c.(state := Failed, failureRecorded := true));
    }
  }

  function RevertedRecord(st: StoreState, id: CampaignId, c: Campaign): Campaign {
    if NoneOnNewVersion(st.attempts, id) then c.(state := RolledBack, rollbackPerformed := true, failureRecorded := false) else c
  }

  lemma NothingLeftIff(st: StoreState, id: CampaignId, k: Key)
    requires k in st.attempts && k.campaign == id && st.attempts[k].state.AttRolledBack?
    ensures NothingLeft(st, id) <==> NoneOnNewVersion(st.attempts, id)
  {
    assert forall a: Attempt :: Touched(a) <==> OnNewVersion(a);
  }

  lemma AfterRolledBackMeans(st: StoreState, env: Env, id: CampaignId, c: Campaign, k: Key)
    requires id in st.campaigns && st.campaigns[id] == c && c.state.RollingBack?
    requires k in st.attempts && k.campaign == id && st.attempts[k].state.AttRolledBack?
    ensures SameButCampaign(st, ApplyAll(st, AfterRolledBack(st, env, id, c)), id, RevertedRecord(st, id, c))
  {
    hide MoveTrace, MoveResult, ApplyAll, SameButCampaign, NothingLeft, NoneOnNewVersion, GuardsOf, Permits;
    EmptyRun(st);
    SameItself(st, id);
    NothingLeftIff(st, id, k);
    if NothingLeft(st, id) {
      var c1 := c.(rollbackPerformed := true);
      var w, g := CampaignEntry(id, c1), GuardsOf(st, env, id, c);
      var st1 := Apply(st, w);
      WrittenOnly(st, id, c1);
      ApplyOne(st, w);
      RolledBackMove(st, st1, env, id, c, c1);
      ApplyCons(st, w, MoveTrace(id, c1, RolledBack, g));
      ThenSame(st, st1, ApplyAll(st1, MoveTrace(id, c1, RolledBack, g)), id, c1, c1.(state := RolledBack, failureRecorded := false));
    }
  }

  lemma RolledBackMove(was: StoreState, st: StoreState, env: Env, id: CampaignId, c: Campaign, c1: Campaign)
    requires NothingLeft(was, id) && id in st.campaigns && c1.state.RollingBack?
    ensures SameButCampaign(st, ApplyAll(st, MoveTrace(id, c1, RolledBack, GuardsOf(was, env, id, c))), id,
                            c1.(state := RolledBack, failureRecorded := false))
  {
    hide MoveTrace, ApplyAll, SkewOk, StageAll, StageFresh, TicketCurrent, AdaptersSupport, NothingLeft;
    var g := GuardsOf(was, env, id, c);
    assert g.rollbackComplete;
    assert Permits(c1.state, RolledBack, g);
    MoveEffect(st, id, c1, RolledBack, g);
  }
}
