/** What a rollback leaves. A campaign counts as rolled back when no attempt of it is recorded as activated or verified, and an
    attempt whose verification is under way counts as neither: its target stays on the new version. */
module RollbackRuns {
  import opened Lifecycle
  import opened Skew
  import opened Records
  import opened Store
  import opened Protocol
  import opened Commands
  import opened Invariants
  import opened Effects
  import opened CommandEffects
  import opened CommitEffects
  import opened Runs
  import opened FirstRuns
  import opened CompletingRuns

  // ---- the exact condition ------------------------------------------------------------------------------------

  /** The attempt has left its target on the new version, and it has not been rolled back. */
  predicate LeftOn(a: Attempt) { OnNewVersion(a) || a.state.AttVerifying? }

  /** When a rollback is the last one of its campaign, everything is back on the old version if and only if no verification of the
      campaign is under way. */
  lemma RolledBackIff(st: StoreState, env: Env, pol: Policy, item: Item, r: Report)
    requires FenceOk(st, item) && item.kind.Rollback?
    requires var post := ApplyAll(st, CommitTrace(st, env, pol, item, r));
             item.campaign in post.campaigns && post.campaigns[item.campaign].state.RolledBack?
    ensures var post := ApplyAll(st, CommitTrace(st, env, pol, item, r));
            (forall k :: k in post.attempts && k.campaign == item.campaign ==> !LeftOn(post.attempts[k])) <==>
            (forall k :: k in st.attempts && k.campaign == item.campaign ==> !st.attempts[k].state.AttVerifying?)
  {
    hide CommitTrace, ApplyAll, Recorded;
    var post := ApplyAll(st, CommitTrace(st, env, pol, item, r));
    RevertMeans(st, env, pol, item, r);
    assert NoneOnNewVersion(post.attempts, item.campaign);
    assert forall k :: k in post.attempts && k != KeyOf(item) ==> post.attempts[k] == st.attempts[k];
  }

  // ---- rolling back all but one -------------------------------------------------------------------------------

  /** One verification is under way; everything else is at rest, and something is left to roll back. */
  predicate Backing(st: StoreState, env: Env, id: CampaignId, kept: Key) {
    st.campaigns.Keys == {id} &&
    var c := st.campaigns[id];
    c.state.RollingBack? && c.active < |c.plan.stages| &&
    kept in st.attempts && kept.campaign == id && st.attempts[kept].state.AttVerifying? &&
    (forall k :: k in st.attempts ==>
       var a := st.attempts[k];
       k.campaign == id && a.generation == c.generation && a.owner == st.incarnation && Planned(c, k.stage, k.target) &&
       k.target in env.inventory && a.state in {AttPrepared, AttActivated, AttVerified, AttRolledBack, AttVerifying})
  }

  function StillOn(attempts: map<Key, Attempt>): set<Key> { set k | k in attempts && OnNewVersion(attempts[k]) }

  lemma BackingClaim(st: StoreState, env: Env, pol: Policy, id: CampaignId, kept: Key) returns (k: Key, claim: Claim)
    requires Backing(st, env, id, kept) && StillOn(st.attempts) != {}
    ensures k in StillOn(st.attempts) && k.stage < |st.campaigns[id].plan.stages|
    ensures claim == ClaimAttempt(st.attempts[k].(state := AttRollingBack, owner := st.incarnation),
                                  NewItem(Rollback, id, st.campaigns[id], k.stage, k.target))
    ensures PlanWork(st, env, pol, [id], 1) == Batch([AttemptEntry(k, claim.attempt)], [claim.item])
  {
    hide Scope, ClaimAll, SkewOk, GuardsOf, MoveTrace;
    var c := st.campaigns[id];
    var q :| q in StillOn(st.attempts);
    AllTargetsHas(c.plan.stages, 0, q.stage, q.target);
    AllScope(c);
    assert (q.stage, q.target) in Scope(c);
    assert !ClaimFor(st, env, pol, id, c, q.stage, q.target).NoClaim?;
    var x := PickOne(st, env, pol, id, c, Scope(c));
    k := Key(id, x.0, x.1);
    claim := ClaimFor(st, env, pol, id, c, x.0, x.1);
    assert ClaimTrace(k, claim) == [AttemptEntry(k, claim.attempt)];
    EmptyRun(st);
    PassIs(st, env, pol, id, AttemptEntry(k, claim.attempt), claim.item);
  }

  lemma AllScope(c: Campaign)
    requires c.active < |c.plan.stages| && c.state.RollingBack?
    ensures Scope(c) == AllTargets(c.plan.stages, 0)
  {
  }

  /** One rollback more: the campaign is rolled back, or there is less to do. */
  lemma BackingRound(st: StoreState, env: Env, pol: Policy, id: CampaignId, kept: Key, k: Key, claim: Claim)
    requires Backing(st, env, id, kept) && k in StillOn(st.attempts) && k.stage < |st.campaigns[id].plan.stages|
    requires claim == ClaimAttempt(st.attempts[k].(state := AttRollingBack, owner := st.incarnation),
                                   NewItem(Rollback, id, st.campaigns[id], k.stage, k.target))
    ensures var post := Round(st, env, pol, k, claim, st.campaigns[id].artifact);
            post.campaigns.Keys == {id} && kept in post.attempts && post.attempts[kept] == st.attempts[kept] &&
            post.campaigns[id].plan == st.campaigns[id].plan && post.campaigns[id].artifact == st.campaigns[id].artifact &&
            if StillOn(post.attempts) == {} then post.campaigns[id].state.RolledBack?
            else Backing(post, env, id, kept) && StillOn(post.attempts) < StillOn(st.attempts)
  {
    hide CommitTrace, ApplyAll, Recorded, Planned, StillOn;
    var c := st.campaigns[id];
    InStill(st.attempts, k);
    var st1 := Apply(st, AttemptEntry(k, claim.attempt));
    var r := Success(env, c.artifact, st.incarnation);
    var post := Round(st, env, pol, k, claim, c.artifact);
    RevertMeans(st1, env, pol, claim.item, r);
    var b := claim.attempt.(state := AttRolledBack);
    assert post.attempts == st.attempts[k := b];
    assert k != kept;
    OneBack(st.attempts, k, b);
    if StillOn(post.attempts) != {} {
      var q :| q in StillOn(post.attempts);
      InStill(post.attempts, q);
    } else {
      NoneStillOn(post.attempts, id);
    }
  }

  lemma InStill(attempts: map<Key, Attempt>, k: Key)
    requires k in StillOn(attempts)
    ensures k in attempts && OnNewVersion(attempts[k])
  {
  }

  lemma OneBack(attempts: map<Key, Attempt>, k: Key, b: Attempt)
    requires k in StillOn(attempts) && b.state.AttRolledBack?
    ensures StillOn(attempts[k := b]) < StillOn(attempts)
  {
    assert k !in StillOn(attempts[k := b]);
  }

  lemma NoneStillOn(attempts: map<Key, Attempt>, id: CampaignId)
    requires StillOn(attempts) == {}
    ensures NoneOnNewVersion(attempts, id)
  {
    forall q | q in attempts ensures !OnNewVersion(attempts[q]) { assert q !in StillOn(attempts); }
  }

  lemma {:induction false} RunBack(n: Node, env: Env, id: CampaignId, kept: Key) returns (events: seq<Event>)
    requires NodeOk(n) && n.Up? && Backing(n.live, env, id, kept) && StillOn(n.live.attempts) != {}
    ensures var m := RunAll(n, events);
            m.Up? && id in m.live.campaigns && m.live.campaigns[id].state.RolledBack? &&
            kept in m.live.attempts && m.live.attempts[kept] == n.live.attempts[kept] &&
            m.live.campaigns[id].plan == n.live.campaigns[id].plan && m.live.campaigns[id].artifact == n.live.campaigns[id].artifact
    decreases StillOn(n.live.attempts)
  {
    hide NodeOk, Step, PlanWork, Round, CommitTrace, StillOn, Backing;
    var st, pol := n.live, n.policy;
    BackingOne(st, env, id, kept);
    var k, claim := BackingClaim(st, env, pol, id, kept);
    var r := Success(env, st.campaigns[id].artifact, st.incarnation);
    var pass, commit := Pass(env, [id], 1), Commit(env, claim.item, r);
    StepOk(n, Run(pass));
    var n1 := Ran(n, pass);
    assert claim.item in multiset([claim.item]);
    StepOk(n1, Run(commit));
    var n2 := Ran(n1, commit);
    RoundIs(st, env, pol, k, claim, st.campaigns[id].artifact);
    BackingRound(st, env, pol, id, kept, k, claim);
    var rest := [];
    if StillOn(n2.live.attempts) != {} {
      rest := RunBack(n2, env, id, kept);
    }
    events := [Run(pass)] + ([Run(commit)] + rest);
    RunCons(n, Run(pass), [Run(commit)] + rest);
    RunCons(n1, Run(commit), rest);
  }

  lemma BackingOne(st: StoreState, env: Env, id: CampaignId, kept: Key)
    requires Backing(st, env, id, kept)
    ensures id in st.campaigns
  {
  }

  // ---- a run --------------------------------------------------------------------------------------------------

  /** In a stage that is about to be verified, a verification is claimed, and a rollback is executed before it is committed. */
  lemma RollbackUnderWay(st: StoreState, env: Env, pol: Policy, id: CampaignId, k: Key, claim: Claim, v: TargetId)
    requires Smooth(st, env, pol, id) && st.campaigns[id].state.Verifying? && st.campaigns[id].active < |st.campaigns[id].progress|
    requires ClaimIs(st, st.campaigns[id], k, claim) && InPhase(st, st.campaigns[id], k) && k.campaign == id
    requires v in st.campaigns[id].plan.stages[st.campaigns[id].active].targets && v != k.target
    requires st.campaigns[id].artifact.reversible && AllRollBack(env, st.campaigns[id].plan)
    requires !st.campaigns[id].plan.strategy.GenerationHandoff?
    ensures var st1 := Apply(st, AttemptEntry(k, claim.attempt));
            var post := ApplyAll(st1, RollbackTrace(st1, env, id, true));
            Backing(post, env, id, k) && StillOn(post.attempts) != {} && post.attempts == st1.attempts &&
            post.campaigns[id].plan == st.campaigns[id].plan && post.campaigns[id].artifact == st.campaigns[id].artifact
  {
    hide RollbackTrace, ApplyAll, AllRollBack, Drained, AllSupport, Noted, Inv, SkewOk, Tolerated;
    var c := st.campaigns[id];
    var st1 := Apply(st, AttemptEntry(k, claim.attempt));
    var post := ApplyAll(st1, RollbackTrace(st1, env, id, true));
    var q := Key(id, c.active, v);
    assert Is(st, id, c, v, {AttActivated, AttVerified});
    assert Is(st, id, c, k.target, {AttActivated, AttVerified});
    assert q in st1.attempts && OnNewVersion(st1.attempts[q]);
    RollbackMeans(st1, env, id, true);
    assert CanRollBackNow(st1, env, id);
    AllPlanned(st, id);
    assert q in StillOn(post.attempts);
  }

  lemma AllPlanned(st: StoreState, id: CampaignId)
    requires Inv(st)
    ensures forall k :: k in st.attempts && k.campaign == id ==>
              id in st.campaigns && Planned(st.campaigns[id], k.stage, k.target)
  {
    hide LedgerOk, Planned, StagesDone;
    forall k | k in st.attempts && k.campaign == id ensures id in st.campaigns && Planned(st.campaigns[id], k.stage, k.target) {
      assert AttemptIn(st, k);
    }
  }

  /** A campaign can count as rolled back while one of its targets is left on the new version: for every executable plan whose first
      stage has two targets and that can be rolled back, there is a run from an empty journal to such a campaign, over adapters
      that do whatever they are asked to. */
  lemma RollbackForgets(config: Config, policy: Policy, env: Env, id: CampaignId, artifact: Artifact, plan: Plan, t: TargetId, u: TargetId)
    returns (events: seq<Event>, kept: Key)
    requires plan.executable && env.verified && env.verifiedDigest == artifact.digest
    requires Unhindered(env, policy, id, NewCampaign(EmptyStore(config), artifact, plan, false))
    requires artifact.reversible && AllRollBack(env, plan) && !plan.strategy.GenerationHandoff?
    requires plan.stages != [] && t in plan.stages[0].targets && u in plan.stages[0].targets && t != u
    ensures var m := RunAll(Down([], config), events);
            m.Up? && id in m.live.campaigns && m.live.campaigns[id].state.RolledBack? && m.live.campaigns[id].plan == plan &&
            m.live.campaigns[id].artifact == artifact &&
            kept in m.live.attempts && kept.campaign == id && LeftOn(m.live.attempts[kept])
  {
    hide NodeOk, Step, Unhindered, StartingRun, NewCampaign, Smooth, PlanWork, FenceOk, ClaimIs, InPhase, RollbackTrace, Backing,
         AllRollBack, StillOn;
    var first := StartingRun(env, policy, id, artifact, plan);
    var n := StartSmoothly(config, policy, env, id, artifact, plan);
    SmoothFacts(n.live, env, policy, id);
    var second := RunOn(n, env, id, Verifying);
    RunAppend(Down([], config), first, second);
    var m := RunAll(n, second);
    var st := m.live;
    SmoothFacts(st, env, policy, id);
    var k, claim := NextItem(st, env, policy, id);
    ClaimIsAttempt(st, st.campaigns[id], k, claim);
    var pass, back := Pass(env, [id], 1), RollBack(env, id, true);
    StepOk(m, Run(pass));
    var m1 := Ran(m, pass);
    ApplyOne(st, AttemptEntry(k, claim.attempt));
    StepOk(m1, Run(back));
    var m2 := Ran(m1, back);
    RollbackUnderWay(st, env, policy, id, k, claim, if k.target == t then u else t);
    var third := RunBack(m2, env, id, k);
    RunCons(m, Run(pass), [Run(back)] + third);
    RunCons(m1, Run(back), third);
    events := first + second + ([Run(pass)] + ([Run(back)] + third));
    RunAppend(Down([], config), first + second, [Run(pass)] + ([Run(back)] + third));
    kept := k;
    KeptIs(m2.live, env, id, k);
  }

  lemma KeptIs(st: StoreState, env: Env, id: CampaignId, kept: Key)
    requires Backing(st, env, id, kept)
    ensures kept in st.attempts && kept.campaign == id && LeftOn(st.attempts[kept])
  {
  }
}
