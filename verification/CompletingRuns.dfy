/** Campaigns do complete: from an empty journal, for every executable plan, there is a run that ends with the campaign completed,
    as long as every step succeeds. */
module CompletingRuns {
  import opened Lifecycle
  import opened Skew
  import opened Records
  import opened Store
  import opened Verification
  import opened Protocol
  import opened Commands
  import opened Invariants
  import opened Effects
  import opened CommandEffects
  import opened CommitEffects
  import opened Runs
  import opened Guarantees
  import opened Driver
  import opened FirstRuns

  // ---- when every step succeeds -------------------------------------------------------------------------------

  /** Nothing stands in the way: the policy permits attempts and activations, the adapters know every target and support the
      strategy, the version mix stays within budget, whoever must leave service has left it, and no stage is empty. */
  ghost predicate Unhindered(env: Env, pol: Policy, id: CampaignId, c: Campaign) {
    pol.maxAttempts > 0 && pol.maxConcurrent > 0 && c.artifact.version.reported && Coverable(env, c) && AllSupport(env, c.plan) &&
    c.plan.stages != [] &&
    forall s :: 0 <= s < |c.plan.stages| ==>
      Drained(env, id, c.plan, s) && c.plan.stages[s].targets != [] && c.plan.stages[s].maxParallel > 0
  }

  /** The adapter did what it was asked to, and confirms the artifact with evidence gathered now. */
  function Success(env: Env, artifact: Artifact, incarnation: nat): Report {
    Report(true, false, true,
           VerifyReport(true, artifact.version, if artifact.build == [] then [0] else artifact.build, env.now, 1, incarnation, true),
           Health(0, 0, incarnation, true), true)
  }

  // ---- the states on the way ----------------------------------------------------------------------------------

  /** All attempts are of the campaign and of its generation, none is in flight, and what is verified is proven now. */
  predicate Tidy(st: StoreState, env: Env, id: CampaignId, c: Campaign) {
    forall k :: k in st.attempts ==>
      var a := st.attempts[k];
      k.campaign == id && a.generation == c.generation && a.owner == st.incarnation &&
      a.state in {AttPrepared, AttActivated, AttVerified} &&
      (a.state.AttVerified? ==> a.evidenceValidity > 0 && a.evidenceAt <= env.now <= a.evidenceAt + a.evidenceValidity)
  }

  predicate Missing(st: StoreState, id: CampaignId, c: Campaign, t: TargetId) { Key(id, c.active, t) !in st.attempts }

  predicate Is(st: StoreState, id: CampaignId, c: Campaign, t: TargetId, states: set<AttemptState>) {
    Key(id, c.active, t) in st.attempts && st.attempts[Key(id, c.active, t)].state in states
  }

  /** How far the active stage has got, with something left to do. */
  predicate OnTheWay(st: StoreState, id: CampaignId, c: Campaign)
    requires c.active < |c.plan.stages| && c.active < |c.progress|
  {
    var ts := c.plan.stages[c.active].targets;
    if c.progress[c.active].StagePending? then
      c.state in {Prepared, Staged} && (forall t :: t in ts ==> Missing(st, id, c, t) || Is(st, id, c, t, {AttPrepared})) &&
      exists t :: t in ts && Missing(st, id, c, t)
    else
      c.progress[c.active].StagePrepared? &&
      if c.state.Staged? then forall t :: t in ts ==> Is(st, id, c, t, {AttPrepared})
      else if c.state.Activating? then
        (forall t :: t in ts ==> Is(st, id, c, t, {AttPrepared, AttActivated, AttVerified})) &&
        exists t :: t in ts && Is(st, id, c, t, {AttPrepared})
      else
        c.state.Verifying? && (forall t :: t in ts ==> Is(st, id, c, t, {AttActivated, AttVerified})) &&
        exists t :: t in ts && Is(st, id, c, t, {AttActivated})
  }

  ghost predicate Smooth(st: StoreState, env: Env, pol: Policy, id: CampaignId) {
    Inv(st) && st.campaigns.Keys == {id} &&
    var c := st.campaigns[id];
    Unhindered(env, pol, id, c) && Tidy(st, env, id, c) && |c.progress| == |c.plan.stages| && c.active < |c.plan.stages| &&
    (c.state.Completed? || OnTheWay(st, id, c))
  }

  // ---- the next item ------------------------------------------------------------------------------------------

  /** A claim for this target of the active stage. */
  ghost predicate Claims(st: StoreState, env: Env, pol: Policy, id: CampaignId, c: Campaign, t: TargetId) {
    c.active < |c.plan.stages| && t in c.plan.stages[c.active].targets &&
    ClaimFor(st, env, pol, id, c, c.active, t).ClaimAttempt?
  }

  /** With room for one item the first claim is made, and nothing else. */
  lemma {:induction false} PickOne(st: StoreState, env: Env, pol: Policy, id: CampaignId, c: Campaign, todo: seq<(nat, TargetId)>)
    returns (x: (nat, TargetId))
    requires forall y :: y in todo ==> y.0 < |c.plan.stages|
    requires exists y :: y in todo && !ClaimFor(st, env, pol, id, c, y.0, y.1).NoClaim?
    ensures x in todo && !ClaimFor(st, env, pol, id, c, x.0, x.1).NoClaim?
    ensures var claim := ClaimFor(st, env, pol, id, c, x.0, x.1);
            ClaimAll(st, env, pol, id, c, todo, 1) == Batch(ClaimTrace(Key(id, x.0, x.1), claim), [claim.item])
    decreases |todo|
  {
    hide ClaimFor, ApplyAll;
    var y := todo[0];
    assert y in todo && todo == [y] + todo[1..];
    var claim := ClaimFor(st, env, pol, id, c, y.0, y.1);
    var t := ClaimTrace(Key(id, y.0, y.1), claim);
    EmptyRun(st);
    if claim.NoClaim? {
      x := PickOne(st, env, pol, id, c, todo[1..]);
      var b := ClaimAll(st, env, pol, id, c, todo[1..], 1);
      assert [] + b.trace == b.trace && [] + b.items == b.items;
    } else {
      x := y;
      assert ClaimAll(ApplyAll(st, t), env, pol, id, c, todo[1..], 0) == Batch([], []);
      assert t + [] == t && [claim.item] + [] == [claim.item];
    }
  }

  /** In every state on the way some target of the active stage can be worked on, and each claim is of one of three kinds. */
  lemma SomeClaim(st: StoreState, env: Env, pol: Policy, id: CampaignId)
    requires Smooth(st, env, pol, id) && !st.campaigns[id].state.Completed?
    ensures exists t :: Claims(st, env, pol, id, st.campaigns[id], t)
  {
    hide Inv, Coverable, Drained;
    var c := st.campaigns[id];
    NoneActivating(st, env, id, c);
    var ts := c.plan.stages[c.active].targets;
    assert c.plan.stages[c.active] in c.plan.stages;
    if c.progress[c.active].StagePending? {
      var t :| t in ts && Missing(st, id, c, t);
      assert Claims(st, env, pol, id, c, t);
    } else if c.state.Staged? {
      assert Is(st, id, c, ts[0], {AttPrepared});
      assert Claims(st, env, pol, id, c, ts[0]);
    } else if c.state.Activating? {
      var t :| t in ts && Is(st, id, c, t, {AttPrepared});
      assert Claims(st, env, pol, id, c, t);
    } else {
      var t :| t in ts && Is(st, id, c, t, {AttActivated});
      assert Claims(st, env, pol, id, c, t);
    }
  }

  lemma NoneActivating(st: StoreState, env: Env, id: CampaignId, c: Campaign)
    requires Tidy(st, env, id, c)
    ensures forall s: nat :: InStage(st, id, s, AttActivating) == {}
  {
  }

  /** Which claim can be made: a preparation of a missing target, an activation of a prepared one, a verification of an activated
      one. */
  predicate ClaimIs(st: StoreState, c: Campaign, k: Key, claim: Claim) {
    claim.ClaimAttempt? && k.stage == c.active && c.active < |c.plan.stages| && k.target in c.plan.stages[c.active].targets &&
    (if k !in st.attempts then
       claim == ClaimAttempt(NewAttempt(st, c), NewItem(Prepare, k.campaign, c, k.stage, k.target))
     else if st.attempts[k].state.AttPrepared? then
       claim == ClaimAttempt(st.attempts[k].(state := AttActivating), NewItem(Activate, k.campaign, c, k.stage, k.target))
     else
       st.attempts[k].state.AttActivated? &&
       claim == ClaimAttempt(st.attempts[k].(state := AttVerifying), NewItem(Verify, k.campaign, c, k.stage, k.target)))
  }

  /** The kinds fit the phase. */
  predicate InPhase(st: StoreState, c: Campaign, k: Key)
    requires c.active < |c.progress|
  {
    if k !in st.attempts then c.progress[c.active].StagePending?
    else if st.attempts[k].state.AttPrepared? then c.progress[c.active].StagePrepared? && c.state in {Staged, Activating}
    else c.progress[c.active].StagePrepared? && c.state in {Activating, Verifying}
  }

  lemma ClaimKinds(st: StoreState, env: Env, pol: Policy, id: CampaignId, t: TargetId)
    requires Smooth(st, env, pol, id) && !st.campaigns[id].state.Completed?
    requires var c := st.campaigns[id];
             t in c.plan.stages[c.active].targets && !ClaimFor(st, env, pol, id, c, c.active, t).NoClaim?
    ensures var c := st.campaigns[id];
            ClaimIs(st, c, Key(id, c.active, t), ClaimFor(st, env, pol, id, c, c.active, t)) && InPhase(st, c, Key(id, c.active, t))
  {
    hide Inv, Coverable, Drained, AllSupport, InStage;
    var c := st.campaigns[id];
    assert c.progress[c.active].StagePending? ==> Missing(st, id, c, t) || Is(st, id, c, t, {AttPrepared});
    assert c.progress[c.active].StagePrepared? ==> Is(st, id, c, t, {AttPrepared, AttActivated, AttVerified});
  }

  /** No move is made before the claim. */
  lemma NoMoveYet(st: StoreState, env: Env, pol: Policy, id: CampaignId)
    requires Smooth(st, env, pol, id) && !st.campaigns[id].state.Completed?
    ensures Forwarded(st, env, id, st.campaigns[id]) == Moves([], st.campaigns[id])
  {
    hide Inv, Coverable, Drained, AllSupport, SkewOk, GuardsOf, MoveTrace, Permits;
    var c := st.campaigns[id];
    EmptyRun(st);
    Flags(st, env, id, c);
    NotAllActivated(st, env, pol, id);
  }

  lemma NotAllActivated(st: StoreState, env: Env, pol: Policy, id: CampaignId)
    requires Smooth(st, env, pol, id) && !st.campaigns[id].state.Completed?
    ensures var c := st.campaigns[id];
            c.state in {Staged, Activating} ==> !StageIn(st.attempts, id, c.plan, c.active, {AttActivated, AttVerified})
  {
    hide Inv, Coverable, Drained, AllSupport;
    var c := st.campaigns[id];
    var ts := c.plan.stages[c.active].targets;
    if c.progress[c.active].StagePending? {
      var t :| t in ts && Missing(st, id, c, t);
    } else if c.state.Staged? {
      assert Is(st, id, c, ts[0], {AttPrepared});
    } else if c.state.Activating? {
      var t :| t in ts && Is(st, id, c, t, {AttPrepared});
    }
  }

  lemma FirstClaim(st: StoreState, env: Env, pol: Policy, id: CampaignId) returns (k: Key, claim: Claim)
    requires Smooth(st, env, pol, id) && !st.campaigns[id].state.Completed? && st.campaigns[id].active < |st.campaigns[id].plan.stages|
    ensures ClaimIs(st, st.campaigns[id], k, claim) && InPhase(st, st.campaigns[id], k) && k.campaign == id
    ensures ClaimAll(st, env, pol, id, st.campaigns[id], Scope(st.campaigns[id]), 1) ==
            Batch([AttemptEntry(k, claim.attempt)], [claim.item])
  {
    hide Smooth, ClaimFor, Scope, ClaimAll, InPhase, ClaimIs, Tidy, Coverable;
    SmoothFacts(st, env, pol, id);
    var c := st.campaigns[id];
    SomeClaim(st, env, pol, id);
    var t :| Claims(st, env, pol, id, c, t);
    ScopeIs(c, t);
    assert !ClaimFor(st, env, pol, id, c, (c.active, t).0, (c.active, t).1).NoClaim?;
    var x := PickOne(st, env, pol, id, c, Scope(c));
    ScopeIs(c, x.1);
    claim := ClaimFor(st, env, pol, id, c, x.0, x.1);
    k := Key(id, x.0, x.1);
    ClaimKinds(st, env, pol, id, x.1);
    ClaimIsAttempt(st, c, k, claim);
  }

  lemma ClaimIsAttempt(st: StoreState, c: Campaign, k: Key, claim: Claim)
    requires ClaimIs(st, c, k, claim)
    ensures claim.ClaimAttempt? && ClaimTrace(k, claim) == [AttemptEntry(k, claim.attempt)]
  {
  }

  /** A pass that makes no move and finds these claims. */
  lemma PassIs(st: StoreState, env: Env, pol: Policy, id: CampaignId, w: Entry, item: Item)
    requires id in st.campaigns && Running(st.campaigns[id].state) && st.campaigns[id].active < |st.campaigns[id].plan.stages|
    requires Forwarded(st, env, id, st.campaigns[id]) == Moves([], st.campaigns[id])
    requires st.campaigns[id].state.Staged? ==> SkewOk(st, env, id, st.campaigns[id])
    requires ClaimAll(st, env, pol, id, st.campaigns[id], Scope(st.campaigns[id]), 1) == Batch([w], [item])
    ensures PlanWork(st, env, pol, [id], 1) == Batch([w], [item])
  {
    hide Forwarded, Scope, ClaimAll, SkewOk, GuardsOf, MoveTrace;
    EmptyRun(st);
    assert [] + [w] == [w];
    assert PlanCampaign(st, env, pol, id, 1) == Batch([w], [item]);
    assert PlanWork(ApplyAll(st, [w]), env, pol, [id][1..], 0) == Batch([], []);
    assert [w] + [] == [w] && [item] + [] == [item];
  }

  /** The pass: one claim, one item, which passes the fence. */
  lemma NextItem(st: StoreState, env: Env, pol: Policy, id: CampaignId) returns (k: Key, claim: Claim)
    requires Smooth(st, env, pol, id) && !st.campaigns[id].state.Completed? && st.campaigns[id].active < |st.campaigns[id].progress|
    ensures ClaimIs(st, st.campaigns[id], k, claim) && InPhase(st, st.campaigns[id], k) && k.campaign == id
    ensures PlanWork(st, env, pol, [id], 1) == Batch([AttemptEntry(k, claim.attempt)], [claim.item])
    ensures FenceOk(Apply(st, AttemptEntry(k, claim.attempt)), claim.item)
  {
    hide Smooth, ClaimFor, Scope, ClaimAll, InPhase, ClaimIs, Tidy, Coverable, PlanWork, SkewOk, Forwarded, FenceOk;
    SmoothFacts(st, env, pol, id);
    var c := st.campaigns[id];
    k, claim := FirstClaim(st, env, pol, id);
    ClaimIsAttempt(st, c, k, claim);
    NoMoveYet(st, env, pol, id);
    CoveredMix(st, env, id, c);
    PassIs(st, env, pol, id, AttemptEntry(k, claim.attempt), claim.item);
    PendingStates(st, env, pol, id, k);
    Fenced(st, env, id, c, k, claim);
  }

  lemma PendingStates(st: StoreState, env: Env, pol: Policy, id: CampaignId, k: Key)
    requires Smooth(st, env, pol, id) && !st.campaigns[id].state.Completed? && st.campaigns[id].active < |st.campaigns[id].progress|
    requires InPhase(st, st.campaigns[id], k)
    ensures k !in st.attempts ==> st.campaigns[id].state in {Prepared, Staged}
  {
    hide Inv, Coverable;
  }

  lemma SmoothFacts(st: StoreState, env: Env, pol: Policy, id: CampaignId)
    requires Smooth(st, env, pol, id)
    ensures id in st.campaigns &&
            var c := st.campaigns[id];
            c.active < |c.plan.stages| == |c.progress| && Tidy(st, env, id, c) && c.artifact.version.reported && Coverable(env, c) &&
            c.state in {Prepared, Staged, Activating, Verifying, Completed}
  {
    hide Inv;
  }

  lemma ScopeIs(c: Campaign, t: TargetId)
    requires c.active < |c.plan.stages| && !c.state.RollingBack?
    ensures (c.active, t) in Scope(c) <==> t in c.plan.stages[c.active].targets
    ensures forall x :: x in Scope(c) ==> x.0 == c.active
  {
    if t in c.plan.stages[c.active].targets {
      var i :| 0 <= i < |c.plan.stages[c.active].targets| && c.plan.stages[c.active].targets[i] == t;
      assert Scope(c)[i] == (c.active, t);
    }
  }

  lemma Fenced(st: StoreState, env: Env, id: CampaignId, c: Campaign, k: Key, claim: Claim)
    requires id in st.campaigns && st.campaigns[id] == c && k.campaign == id && Tidy(st, env, id, c) && ClaimIs(st, c, k, claim)
    requires c.active < |c.progress| && InPhase(st, c, k) && c.state in {Prepared, Staged, Activating, Verifying}
    requires k !in st.attempts ==> c.state in {Prepared, Staged}
    ensures FenceOk(Apply(st, AttemptEntry(k, claim.attempt)), claim.item)
  {
  }

  // ---- after the commit ---------------------------------------------------------------------------------------

  /** The attempt after its success. */
  function Succeeding(env: Env, artifact: Artifact, b: Attempt, kind: OperationKind): Attempt
    requires !kind.Rollback?
  {
    match kind
    case Prepare => b.(state := AttPrepared)
    case Activate => b.(state := AttActivated, activationObserved := true)
    case Verify => b.(state := AttVerified, evidenceAt := env.now, evidenceValidity := 1, observedVersion := artifact.version)
  }

  lemma TidyAgain(st: StoreState, post: StoreState, env: Env, c: Campaign, d: Campaign, k: Key, claim: Claim, b: Attempt)
    requires Tidy(st, env, k.campaign, c) && ClaimIs(st, c, k, claim) && d.generation == c.generation
    requires post.incarnation == st.incarnation && post.attempts == st.attempts[k := b]
    requires b == Succeeding(env, c.artifact, claim.attempt, claim.item.kind)
    ensures Tidy(post, env, k.campaign, d)
  {
  }

  /** Preparing: the stage is prepared when it was the last, and then the campaign is staged. */
  lemma PreparedOn(st: StoreState, post: StoreState, env: Env, id: CampaignId, c: Campaign, d: Campaign, k: Key, b: Attempt)
    requires c.active < |c.progress| && c.active < |c.plan.stages| && OnTheWay(st, id, c) && c.plan.stages[c.active].targets != []
    requires k !in st.attempts && c.progress[c.active].StagePending? && k.campaign == id && k.stage == c.active
    requires k.target in c.plan.stages[c.active].targets
    requires b.state.AttPrepared? && post.attempts == st.attempts[k := b]
    requires d == if StageIn(post.attempts, id, c.plan, c.active, {AttPrepared, AttActivated, AttVerified, AttRolledBack})
                  then c.(progress := c.progress[c.active := StagePrepared], state := if c.state.Prepared? then Staged else c.state)
                  else c
    ensures OnTheWay(post, id, d)
  {
    var ts := c.plan.stages[c.active].targets;
    if d != c {
      forall t | t in ts ensures Is(post, id, d, t, {AttPrepared}) {
        assert Missing(st, id, c, t) || Is(st, id, c, t, {AttPrepared});
      }
    } else {
      forall t | t in ts ensures Missing(post, id, c, t) || Is(post, id, c, t, {AttPrepared}) {
        assert Missing(st, id, c, t) || Is(st, id, c, t, {AttPrepared});
      }
      assert exists t :: t in ts && Missing(post, id, c, t);
    }
  }

  /** What is neither activated nor verified is prepared, and what is not verified is activated. */
  lemma OneLeft(st: StoreState, id: CampaignId, c: Campaign, t: TargetId)
    ensures Is(st, id, c, t, {AttPrepared, AttActivated, AttVerified}) && !Is(st, id, c, t, {AttActivated, AttVerified}) ==>
            Is(st, id, c, t, {AttPrepared})
    ensures Is(st, id, c, t, {AttActivated, AttVerified}) && !Is(st, id, c, t, {AttVerified}) ==> Is(st, id, c, t, {AttActivated})
  {
    if Key(id, c.active, t) in st.attempts {
      var s := st.attempts[Key(id, c.active, t)].state;
      assert s in {AttPrepared, AttActivated, AttVerified} <==> s == AttPrepared || s == AttActivated || s == AttVerified;
    }
  }

  /** Activating: the first activation starts it, the last one starts the verification. */
  lemma ActivatedOn(st: StoreState, post: StoreState, id: CampaignId, c: Campaign, d: Campaign, k: Key, b: Attempt)
    requires c.active < |c.progress| && c.active < |c.plan.stages| && OnTheWay(st, id, c)
    requires c.progress[c.active].StagePrepared? && c.state in {Staged, Activating} && k.campaign == id && k.stage == c.active
    requires k.target in c.plan.stages[c.active].targets
    requires b.state.AttActivated? && post.attempts == st.attempts[k := b]
    requires d == c.(state := if StageIn(post.attempts, id, c.plan, c.active, {AttActivated, AttVerified}) then Verifying else Activating)
    ensures OnTheWay(post, id, d)
  {
    var ts := c.plan.stages[c.active].targets;
    forall t | t in ts ensures Is(post, id, d, t, {AttPrepared, AttActivated, AttVerified}) {
      assert Is(st, id, c, t, {AttPrepared, AttActivated, AttVerified});
    }
    assert Is(post, id, d, k.target, {AttActivated});
    if d.state.Activating? {
      var t :| t in ts && !Is(post, id, d, t, {AttActivated, AttVerified});
      OneLeft(post, id, d, t);
      assert Is(post, id, d, t, {AttPrepared});
    }
  }

  /** Verifying within the stage. */
  lemma VerifiedOn(st: StoreState, post: StoreState, id: CampaignId, c: Campaign, k: Key, b: Attempt)
    requires c.active < |c.progress| && c.active < |c.plan.stages| && OnTheWay(st, id, c) && c.plan.stages[c.active].targets != []
    requires c.progress[c.active].StagePrepared? && c.state in {Activating, Verifying} && k.campaign == id && k.stage == c.active
    requires k in st.attempts && st.attempts[k].state.AttActivated? && b.state.AttVerified? && post.attempts == st.attempts[k := b]
    requires !StageIn(post.attempts, id, c.plan, c.active, {AttVerified})
    ensures OnTheWay(post, id, c)
  {
    var ts := c.plan.stages[c.active].targets;
    forall t | t in ts ensures Is(post, id, c, t, {AttPrepared, AttActivated, AttVerified}) {
      assert Is(st, id, c, t, {AttPrepared, AttActivated, AttVerified});
    }
    if c.state.Activating? {
      var t :| t in ts && Is(st, id, c, t, {AttPrepared});
      assert Is(post, id, c, t, {AttPrepared});
    } else {
      forall t | t in ts ensures Is(post, id, c, t, {AttActivated, AttVerified}) {
        assert Is(st, id, c, t, {AttActivated, AttVerified});
      }
      var t :| t in ts && !Is(post, id, c, t, {AttVerified});
      OneLeft(post, id, c, t);
      assert Is(post, id, c, t, {AttActivated});
    }
  }

  /** While a stage activates it is not verified throughout. */
  lemma NotYetVerified(st: StoreState, post: StoreState, id: CampaignId, c: Campaign, k: Key, b: Attempt)
    requires c.active < |c.progress| && c.active < |c.plan.stages| && OnTheWay(st, id, c) && c.state.Activating?
    requires c.progress[c.active].StagePrepared? && k in st.attempts && st.attempts[k].state.AttActivated? && post.attempts == st.attempts[k := b]
    ensures !StageIn(post.attempts, id, c.plan, c.active, {AttVerified})
  {
    var t :| t in c.plan.stages[c.active].targets && Is(st, id, c, t, {AttPrepared});
    assert Is(post, id, c, t, {AttPrepared});
  }

  /** The next stage is still untouched. */
  lemma NextUntouched(st: StoreState, post: StoreState, env: Env, id: CampaignId, c: Campaign, d: Campaign, k: Key, b: Attempt)
    requires Inv(st) && id in st.campaigns && st.campaigns[id] == c && Forward(c.state) && Tidy(st, env, id, c)
    requires k.stage == c.active && post.attempts == st.attempts[k := b]
    requires c.active + 1 < |c.progress| == |c.plan.stages| && c.plan.stages[c.active + 1].targets != []
    requires d.active == c.active + 1 && d.plan == c.plan && d.state.Staged? && |d.progress| == |c.progress| && d.progress[d.active].StagePending?
    ensures OnTheWay(post, id, d)
  {
    var ts := d.plan.stages[d.active].targets;
    forall t | t in ts ensures Missing(post, id, d, t) {
      if Key(id, d.active, t) in st.attempts { NoneAhead(st, Key(id, d.active, t)); }
    }
    assert ts[0] in ts;
  }

  // ---- one round ----------------------------------------------------------------------------------------------

  /** The store after the pass and the commit of its item. */
  ghost function Round(st: StoreState, env: Env, pol: Policy, k: Key, claim: Claim, artifact: Artifact): StoreState
    requires claim.ClaimAttempt?
  {
    var st1 := Apply(st, AttemptEntry(k, claim.attempt));
    ApplyAll(st1, CommitTrace(st1, env, pol, claim.item, Success(env, artifact, st.incarnation)))
  }

  /** What a round leaves, phase by phase: the same campaign a step further, still on the way or completed. */
  ghost predicate Further(st: StoreState, post: StoreState, env: Env, id: CampaignId, k: Key, b: Attempt) {
    id in st.campaigns && id in post.campaigns &&
    var c, d := st.campaigns[id], post.campaigns[id];
    post.campaigns == st.campaigns[id := d] && post.attempts == st.attempts[k := b] && post.incarnation == st.incarnation &&
    d.plan == c.plan && d.artifact == c.artifact && d.generation == c.generation && |d.progress| == |c.progress| &&
    d.active < |d.plan.stages| && d.active < |d.progress| && (d.state.Completed? || OnTheWay(post, id, d)) &&
    (d.state.Completed? || d.active != c.active ==> c.state.Verifying?)
  }

  lemma RoundPrepares(st: StoreState, env: Env, pol: Policy, id: CampaignId, k: Key, claim: Claim)
    requires Smooth(st, env, pol, id) && !st.campaigns[id].state.Completed? && st.campaigns[id].active < |st.campaigns[id].progress|
    requires ClaimIs(st, st.campaigns[id], k, claim) && InPhase(st, st.campaigns[id], k) && k.campaign == id && k !in st.attempts
    requires FenceOk(Apply(st, AttemptEntry(k, claim.attempt)), claim.item)
    ensures Further(st, Round(st, env, pol, k, claim, st.campaigns[id].artifact), env, id, k,
                    Succeeding(env, st.campaigns[id].artifact, claim.attempt, claim.item.kind))
  {
    hide CommitTrace, ApplyAll, FenceOk, Inv, Coverable, Drained, AllSupport, StageIn, OnTheWay;
    var c := st.campaigns[id];
    var st1 := Apply(st, AttemptEntry(k, claim.attempt));
    var r := Success(env, c.artifact, st.incarnation);
    var post := Round(st, env, pol, k, claim, c.artifact);
    PrepareMeans(st1, env, pol, claim.item, r);
    var b := claim.attempt.(state := AttPrepared);
    assert st1.attempts[k := b] == st.attempts[k := b];
    assert st1.campaigns[id] == c && KeyOf(claim.item) == k;
    PreparedOn(st, post, env, id, c, post.campaigns[id], k, b);
  }

  lemma RoundActivates(st: StoreState, env: Env, pol: Policy, id: CampaignId, k: Key, claim: Claim)
    requires Smooth(st, env, pol, id) && !st.campaigns[id].state.Completed? && st.campaigns[id].active < |st.campaigns[id].progress|
    requires ClaimIs(st, st.campaigns[id], k, claim) && InPhase(st, st.campaigns[id], k) && k.campaign == id
    requires k in st.attempts && st.attempts[k].state.AttPrepared?
    requires FenceOk(Apply(st, AttemptEntry(k, claim.attempt)), claim.item)
    ensures Further(st, Round(st, env, pol, k, claim, st.campaigns[id].artifact), env, id, k,
                    Succeeding(env, st.campaigns[id].artifact, claim.attempt, claim.item.kind))
  {
    hide CommitTrace, ApplyAll, FenceOk, Inv, Coverable, AllSupport, StageIn, OnTheWay, SkewOk, Recorded, Noted;
    var c := st.campaigns[id];
    var st1 := Apply(st, AttemptEntry(k, claim.attempt));
    var r := Success(env, c.artifact, st.incarnation);
    var post := Round(st, env, pol, k, claim, c.artifact);
    ActivateMeans(st1, env, pol, claim.item, r);
    var b := claim.attempt.(state := AttActivated, activationObserved := true);
    assert st1.attempts[k := b] == st.attempts[k := b];
    assert st1.campaigns[id] == c && KeyOf(claim.item) == k;
    CoveredMix(st1.(attempts := st1.attempts[k := b]), env, id, c);
    assert Drained(env, id, c.plan, c.active);
    ActivatedOn(st, post, id, c, post.campaigns[id], k, b);
  }

  lemma RoundVerifies(st: StoreState, env: Env, pol: Policy, id: CampaignId, k: Key, claim: Claim)
    requires Smooth(st, env, pol, id) && !st.campaigns[id].state.Completed? && st.campaigns[id].active < |st.campaigns[id].progress|
    requires ClaimIs(st, st.campaigns[id], k, claim) && InPhase(st, st.campaigns[id], k) && k.campaign == id
    requires k in st.attempts && st.attempts[k].state.AttActivated?
    requires FenceOk(Apply(st, AttemptEntry(k, claim.attempt)), claim.item)
    ensures Further(st, Round(st, env, pol, k, claim, st.campaigns[id].artifact), env, id, k,
                    Succeeding(env, st.campaigns[id].artifact, claim.attempt, claim.item.kind))
  {
    hide CommitTrace, ApplyAll, FenceOk, Inv, Coverable, AllSupport, StageIn, OnTheWay, SkewOk, Recorded, Noted, StageDone, Drained;
    var c := st.campaigns[id];
    var st1 := Apply(st, AttemptEntry(k, claim.attempt));
    var r := Success(env, c.artifact, st.incarnation);
    var post := Round(st, env, pol, k, claim, c.artifact);
    VerifyMeans(st1, env, pol, claim.item, r);
    var b := Succeeding(env, c.artifact, claim.attempt, Verify);
    assert Proven(c.artifact, r, env.now, st.incarnation, pol.requireHealth);
    var st2 := st1.(attempts := st1.attempts[k := b]);
    assert st1.attempts[k := b] == st.attempts[k := b];
    assert st1.campaigns[id] == c && KeyOf(claim.item) == k;
    if StageIn(st2.attempts, id, c.plan, c.active, {AttVerified}) {
      if c.state.Activating? { NotYetVerified(st, post, id, c, k, b); assert false; }
      StageVerified(st, st2, env, pol, id, k, claim, b);
      if c.active + 1 < |c.progress| {
        NextUntouched(st, post, env, id, c, post.campaigns[id], k, b);
      }
    } else {
      VerifiedOn(st, post, id, c, k, b);
    }
  }

  /** The last verification of a stage: the next stage is staged, or the campaign is completed. */
  lemma StageVerified(st: StoreState, st2: StoreState, env: Env, pol: Policy, id: CampaignId, k: Key, claim: Claim, b: Attempt)
    requires Smooth(st, env, pol, id) && st.campaigns[id].state.Verifying? && st.campaigns[id].active < |st.campaigns[id].progress|
    requires k.campaign == id && ClaimIs(st, st.campaigns[id], k, claim) && claim.item.kind.Verify?
    requires b == Succeeding(env, st.campaigns[id].artifact, claim.attempt, Verify)
    requires st2.attempts == st.attempts[k := b] && st2.incarnation == st.incarnation
    requires StageIn(st2.attempts, id, st.campaigns[id].plan, st.campaigns[id].active, {AttVerified})
    ensures var c := st.campaigns[id];
            var d := StageDone(st2, env, id, c);
            d.plan == c.plan && d.artifact == c.artifact && d.generation == c.generation && |d.progress| == |c.progress| &&
            if c.active + 1 < |c.progress|
            then d.state.Staged? && d.active == c.active + 1 && d.progress[d.active].StagePending?
            else d.state.Completed? && d.active == c.active
  {
    hide Coverable, AllSupport, SkewOk, Drained, Inv, StageIn, StageProven, Tidy, OnTheWay, ClaimIs, StageDone, ShapeOk;
    var c := st.campaigns[id];
    CoveredMix(st2, env, id, c);
    TidyAgain(st, st2, env, c, c, k, claim, b);
    ProvenNow(st2, env, id, c);
    ShapeHolds(st, id);
    if c.active + 1 < |c.progress| { assert Drained(env, id, c.plan, c.active + 1); }
    DoneIs(st2, env, id, c);
  }

  lemma DoneIs(st: StoreState, env: Env, id: CampaignId, c: Campaign)
    requires ShapeOk(c) && c.active < |c.progress| && c.state.Verifying? && SkewOk(st, env, id, c)
    requires StageProven(st.attempts, id, c.plan, c.active, env.now, st.incarnation)
    requires c.active + 1 < |c.progress| ==> Drained(env, id, c.plan, c.active + 1)
    ensures var d := StageDone(st, env, id, c);
            d.plan == c.plan && d.artifact == c.artifact && d.generation == c.generation && |d.progress| == |c.progress| &&
            if c.active + 1 < |c.progress|
            then d.state.Staged? && d.active == c.active + 1 && d.progress[d.active].StagePending?
            else d.state.Completed? && d.active == c.active
  {
    hide SkewOk, StageProven, Drained;
  }

  /** What is verified is proven. */
  lemma ProvenNow(st: StoreState, env: Env, id: CampaignId, c: Campaign)
    requires Tidy(st, env, id, c) && StageIn(st.attempts, id, c.plan, c.active, {AttVerified})
    ensures StageProven(st.attempts, id, c.plan, c.active, env.now, st.incarnation)
  {
  }

  lemma ShapeHolds(st: StoreState, id: CampaignId)
    requires Inv(st) && id in st.campaigns
    ensures ShapeOk(st.campaigns[id])
  {
    hide AttemptsOk, LedgerOk, StagesDone;
  }

  lemma RoundGoesOn(st: StoreState, env: Env, pol: Policy, id: CampaignId, k: Key, claim: Claim)
    requires Smooth(st, env, pol, id) && !st.campaigns[id].state.Completed? && st.campaigns[id].active < |st.campaigns[id].progress|
    requires ClaimIs(st, st.campaigns[id], k, claim) && InPhase(st, st.campaigns[id], k) && k.campaign == id
    requires FenceOk(Apply(st, AttemptEntry(k, claim.attempt)), claim.item)
    requires Inv(Round(st, env, pol, k, claim, st.campaigns[id].artifact))
    ensures var post := Round(st, env, pol, k, claim, st.campaigns[id].artifact);
            Smooth(post, env, pol, id) && post.campaigns[id].plan == st.campaigns[id].plan &&
            post.campaigns[id].artifact == st.campaigns[id].artifact &&
            (post.campaigns[id].state.Completed? || post.campaigns[id].active != st.campaigns[id].active ==>
               st.campaigns[id].state.Verifying?)
  {
    hide FenceOk, Inv, Coverable, AllSupport, OnTheWay, Drained, Round;
    var c := st.campaigns[id];
    var post := Round(st, env, pol, k, claim, c.artifact);
    var b := Succeeding(env, c.artifact, claim.attempt, claim.item.kind);
    if k !in st.attempts {
      RoundPrepares(st, env, pol, id, k, claim);
    } else if st.attempts[k].state.AttPrepared? {
      RoundActivates(st, env, pol, id, k, claim);
    } else {
      RoundVerifies(st, env, pol, id, k, claim);
    }
    TidyAgain(st, post, env, c, post.campaigns[id], k, claim, b);
    SameCover(env, pol, id, c, post.campaigns[id]);
  }

  lemma SameCover(env: Env, pol: Policy, id: CampaignId, c: Campaign, d: Campaign)
    requires Unhindered(env, pol, id, c) && d.plan == c.plan && d.artifact == c.artifact
    ensures Unhindered(env, pol, id, d)
  {
    hide Tolerated, AllSupport, Drained;
    assert forall s, t :: Planned(d, s, t) ==> Planned(c, s, t);
  }

  // ---- the run ------------------------------------------------------------------------------------------------

  /** Pass, commit, and again, until the campaign is completed, or until a stage is about to be verified. */
  lemma {:induction false} RunOn(n: Node, env: Env, id: CampaignId, stop: UpgradeState) returns (events: seq<Event>)
    requires NodeOk(n) && n.Up? && n.work == multiset{} && Smooth(n.live, env, n.policy, id)
    requires stop.Completed? || (stop.Verifying? && !n.live.campaigns[id].state.Completed?)
    ensures var m := RunAll(n, events);
            NodeOk(m) && m.Up? && m.policy == n.policy && m.work == multiset{} && Smooth(m.live, env, m.policy, id) &&
            m.live.campaigns[id].state == stop && m.live.campaigns[id].plan == n.live.campaigns[id].plan &&
            m.live.campaigns[id].artifact == n.live.campaigns[id].artifact &&
            (stop.Verifying? ==> m.live.campaigns[id].active == n.live.campaigns[id].active)
    decreases Total(n.live, n.policy.maxRetries, [id])
  {
    hide NodeOk, Smooth, Step, Total, PlanWork, FenceOk, Round, ClaimIs, InPhase, CommitTrace;
    var st, pol := n.live, n.policy;
    SmoothFacts(st, env, pol, id);
    events := [];
    if st.campaigns[id].state != stop {
      var k, claim := NextItem(st, env, pol, id);
      ClaimIsAttempt(st, st.campaigns[id], k, claim);
      var r := Success(env, st.campaigns[id].artifact, st.incarnation);
      var pass, commit := Pass(env, [id], 1), Commit(env, claim.item, r);
      StepOk(n, Run(pass));
      var n1 := Ran(n, pass);
      assert n1.work == multiset{} + multiset([claim.item]) == multiset{claim.item};
      StepOk(n1, Run(commit));
      var n2 := Ran(n1, commit);
      assert n2.work == multiset{};
      RoundIs(st, env, pol, k, claim, st.campaigns[id].artifact);
      LiveInv(n2);
      RoundGoesOn(st, env, pol, id, k, claim);
      RoundShrinks(st, env, pol, id, k, claim);
      var rest := RunOn(n2, env, id, stop);
      events := [Run(pass)] + ([Run(commit)] + rest);
      RunCons(n, Run(pass), [Run(commit)] + rest);
      RunCons(n1, Run(commit), rest);
    }
  }

  lemma LiveInv(n: Node)
    requires NodeOk(n) && n.Up?
    ensures Inv(n.live)
  {
    hide Inv, LogOk;
  }

  lemma RoundIs(st: StoreState, env: Env, pol: Policy, k: Key, claim: Claim, artifact: Artifact)
    requires claim.ClaimAttempt?
    ensures var st1 := ApplyAll(st, [AttemptEntry(k, claim.attempt)]);
            Round(st, env, pol, k, claim, artifact) ==
            ApplyAll(st1, CommitTrace(st1, env, pol, claim.item, Success(env, artifact, st.incarnation)))
  {
    hide CommitTrace, ApplyAll;
    ApplyOne(st, AttemptEntry(k, claim.attempt));
  }

  /** A round makes the driver's measure smaller. */
  lemma RoundShrinks(st: StoreState, env: Env, pol: Policy, id: CampaignId, k: Key, claim: Claim)
    requires Smooth(st, env, pol, id) && claim.ClaimAttempt?
    requires PlanWork(st, env, pol, [id], 1) == Batch([AttemptEntry(k, claim.attempt)], [claim.item])
    ensures Total(Round(st, env, pol, k, claim, st.campaigns[id].artifact), pol.maxRetries, [id]) < Total(st, pol.maxRetries, [id])
  {
    hide PlanWork, CommitTrace, ApplyAll, Total, Coverable, AllSupport, Drained, OnTheWay;
    var r := Success(env, st.campaigns[id].artifact, st.incarnation);
    var p := PassInput(env, [id], 1, [(env, r)]);
    assert NoneStuck(st);
    PassShrinks(st, pol, p, [id]);
    var st1 := ApplyAll(st, [AttemptEntry(k, claim.attempt)]);
    ApplyOne(st, AttemptEntry(k, claim.attempt));
    assert [claim.item][1..] == [];
    assert CommitEach(st1, pol, [claim.item], [(env, r)]) == ApplyAll(st1, CommitTrace(st1, env, pol, claim.item, r));
  }

  /** The first start leaves a campaign on the way. */
  lemma StartSmoothly(config: Config, policy: Policy, env: Env, id: CampaignId, artifact: Artifact, plan: Plan) returns (n: Node)
    requires plan.executable && env.verified && env.verifiedDigest == artifact.digest
    requires Unhindered(env, policy, id, NewCampaign(EmptyStore(config), artifact, plan, false))
    ensures n == RunAll(Down([], config), StartingRun(env, policy, id, artifact, plan))
    ensures NodeOk(n) && n.Up? && n.policy == policy && n.work == multiset{} && Smooth(n.live, env, policy, id) &&
            var c := n.live.campaigns[id];
            c.state.Prepared? && c.active == 0 && c.plan == plan && c.artifact == artifact
  {
    hide NodeOk, Step, FirstStarted, Unhindered, StartingRun, NewCampaign;
    NewCampaignIs(EmptyStore(config), artifact, plan);
    var c;
    n, c := RunToStart(config, policy, env, id, artifact, plan);
    FirstNodeOk(config);
    EveryRunOk(Down([], config), StartingRun(env, policy, id, artifact, plan));
    LiveInv(n);
    FirstStartedIs(env, c);
    SameCover(env, policy, id, NewCampaign(EmptyStore(config), artifact, plan, false), FirstStarted(env, c));
    FirstIsSmooth(n.live, env, policy, id, FirstStarted(env, c));
  }

  /** Every executable plan can be completed: from an empty journal there is a run, over adapters that do what they are asked to,
      at whose end the campaign is completed and nothing is outstanding. */
  lemma EveryPlanCompletes(config: Config, policy: Policy, env: Env, id: CampaignId, artifact: Artifact, plan: Plan)
    returns (events: seq<Event>)
    requires plan.executable && env.verified && env.verifiedDigest == artifact.digest
    requires Unhindered(env, policy, id, NewCampaign(EmptyStore(config), artifact, plan, false))
    ensures var n := RunAll(Down([], config), events);
            n.Up? && n.work == multiset{} && id in n.live.campaigns && n.live.campaigns[id].state.Completed? &&
            n.live.campaigns[id].plan == plan && n.live.campaigns[id].artifact == artifact
  {
    hide NodeOk, Step, Unhindered, StartingRun, NewCampaign;
    var first := StartingRun(env, policy, id, artifact, plan);
    var n := StartSmoothly(config, policy, env, id, artifact, plan);
    var rest := RunOn(n, env, id, Completed);
    events := first + rest;
    RunAppend(Down([], config), first, rest);
  }

  lemma FirstIsSmooth(st: StoreState, env: Env, pol: Policy, id: CampaignId, c: Campaign)
    requires Inv(st) && FirstHolds(st, id, c, map[]) && Unhindered(env, pol, id, c) && c.state.Prepared? && c.active == 0
    requires |c.progress| == |c.plan.stages| && forall i :: 0 <= i < |c.progress| ==> c.progress[i].StagePending?
    ensures Smooth(st, env, pol, id)
  {
    hide Inv, Coverable, AllSupport, Drained;
    var ts := c.plan.stages[0].targets;
    assert ts[0] in ts && Missing(st, id, c, ts[0]);
  }
}
