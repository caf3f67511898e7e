/** How an attempt gets stuck in preparation: the starts that do it, and a run of the engine that ends there. */
module StuckRuns {
  import opened Records
  import opened Store
  import opened Protocol
  import opened Commands
  import opened CommandEffects
  import opened Invariants
  import opened Effects
  import opened Runs
  import opened FirstRuns
  import opened Driver

  // ---- which starts make attempts stuck -----------------------------------------------------------------------

  /** The attempt is in preparation by the running incarnation, for a target of the active stage. */
  predicate InPreparation(st: StoreState, k: Key, c: Campaign) {
    k in st.attempts && k.stage == c.active && c.active < |c.plan.stages| && k.target in c.plan.stages[c.active].targets &&
    st.attempts[k].state.AttPreparing? && st.attempts[k].owner == st.incarnation
  }

  /** The states in which a start leaves, or puts, a campaign before the activation of its stage. */
  predicate StartsStaging(c: Campaign) {
    c.state.Validated? || c.state.Paused? || c.state.Blocked? || c.state.Prepared? ||
    (c.state.Staged? && c.active < |c.progress| && c.progress[c.active].StagePending?)
  }

  /** An admitted start makes stuck exactly the attempts in preparation in the active stage of a campaign that is validated,
      paused, blocked, prepared, or staged with the stage pending: the generation moves on, and theirs stays. */
  lemma StartSticks(st: StoreState, env: Env, id: CampaignId, allow: bool, k: Key)
    requires Inv(st) && StartAdmits(st, env, id, allow) && k.campaign == id && st.campaigns[id].generation < COUNTER_MAX
    ensures StuckAt(ApplyAll(st, StartTrace(st, env, id, allow)), k) <==>
            StartsStaging(st.campaigns[id]) && InPreparation(st, k, st.campaigns[id])
  {
    hide Inv, StartTrace, ApplyAll, AdaptersRollBack, TicketCurrent;
    StartEffect(st, env, id, allow);
    if k in st.attempts { OldGeneration(st, k); }
  }

  lemma OldGeneration(st: StoreState, k: Key)
    requires Inv(st) && k in st.attempts && k.campaign in st.campaigns
    ensures st.attempts[k].generation <= st.campaigns[k.campaign].generation
  {
    assert AttemptIn(st, k);
  }

  // ---- a run that ends with a stuck attempt -------------------------------------------------------------------

  /** A pass with room for one item claims the first target of a campaign that has just been prepared. */
  lemma FirstClaim(st: StoreState, env: Env, pol: Policy, id: CampaignId, c: Campaign, t: TargetId)
    requires FirstHolds(st, id, c, map[]) && c.state.Prepared? && c.active == 0 && c.plan.stages != []
    requires c.plan.stages[0].targets != [] && c.plan.stages[0].targets[0] == t && c.progress != [] && c.progress[0].StagePending?
    requires t in env.inventory && pol.maxAttempts > 0
    ensures var k := Key(id, 0, t);
            PlanWork(st, env, pol, [id], 1) == Batch([AttemptEntry(k, NewAttempt(st, c))], [NewItem(Prepare, id, c, 0, t)])
  {
    hide GuardsOf, SkewOk, ApplyAll;
    var k := Key(id, 0, t);
    EmptyRun(st);
    assert Forwarded(st, env, id, c) == Moves([], c);
    var todo := Scope(c);
    var claim := ClaimFor(st, env, pol, id, c, 0, t);
    assert todo[0] == (0, t) && claim == ClaimAttempt(NewAttempt(st, c), NewItem(Prepare, id, c, 0, t));
    var st1 := ApplyAll(st, ClaimTrace(k, claim));
    assert ClaimAll(st1, env, pol, id, c, todo[1..], 0) == Batch([], []);
    var b := Batch([AttemptEntry(k, claim.attempt)], [claim.item]);
    assert ClaimAll(st, env, pol, id, c, todo, 1) == b;
    assert PlanCampaign(st, env, pol, id, 1) == b;
    assert PlanWork(ApplyAll(st, b.trace), env, pol, [id][1..], 0) == Batch([], []);
  }

  /** From an empty journal: a campaign is created, passes its preflight and is started; a pass hands out a preparation; before
      it is committed the campaign is started again. */
  function StickingRun(env: Env, policy: Policy, id: CampaignId, artifact: Artifact, plan: Plan): seq<Event> {
    StartingRun(env, policy, id, artifact, plan) + ([Run(Pass(env, [id], 1))] + ([Run(Start(env, id, plan.irreversible))] + []))
  }

  lemma StartedTwice(st: StoreState, env: Env, id: CampaignId, c: Campaign, k: Key, a: Attempt)
    requires FirstHolds(st, id, FirstStarted(env, c), map[k := a]) && k.campaign == id
    requires c.generation == 1 && c.plan.executable && c.active == 0 && c.plan.stages != []
    requires env.verified && env.verifiedDigest == c.artifact.digest
    requires k.stage == 0 && k.target in c.plan.stages[0].targets
    requires a.state.AttPreparing? && a.owner == 1 && a.generation == 2
    ensures StuckAt(ApplyAll(st, StartTrace(st, env, id, c.plan.irreversible)), k)
  {
    hide ApplyAll, StartTrace, AdaptersRollBack;
    StartEffect(st, env, id, c.plan.irreversible);
  }

  /** A stuck attempt is reachable, in any such plan: its preparation is still out, and will be fenced. */
  lemma StuckIsReachable(config: Config, policy: Policy, env: Env, id: CampaignId, artifact: Artifact, plan: Plan)
    requires plan.executable && plan.stages != [] && plan.stages[0].targets != []
    requires plan.stages[0].targets[0] in env.inventory && env.verified && env.verifiedDigest == artifact.digest
    requires policy.maxAttempts > 0
    ensures var n := RunAll(Down([], config), StickingRun(env, policy, id, artifact, plan));
            var k := Key(id, 0, plan.stages[0].targets[0]);
            n.Up? && StuckAt(n.live, k) && exists i :: i in n.work && i.kind.Prepare? && KeyOf(i) == k
  {
    hide Step, ApplyAll, StartTrace, PlanWork, StuckAt, FirstStarted, RunAll, StickingRun;
    var t := plan.stages[0].targets[0];
    var k := Key(id, 0, t);
    var n4, c := RunToStart(config, policy, env, id, artifact, plan);
    var d := FirstStarted(env, c);
    FirstStartedIs(env, c);
    var n5 := Ran(n4, Pass(env, [id], 1));
    FirstClaim(n4.live, env, policy, id, d, t);
    ApplyOne(n4.live, AttemptEntry(k, NewAttempt(n4.live, d)));
    var item := NewItem(Prepare, id, d, 0, t);
    assert item in multiset([item]);
    var start := Start(env, id, plan.irreversible);
    var n6 := Ran(n5, start);
    StartedTwice(n5.live, env, id, c, k, NewAttempt(n4.live, d));
    StickingSteps(Down([], config), env, policy, id, artifact, plan);
    assert item in n6.work;
  }

  lemma StickingSteps(n: Node, env: Env, policy: Policy, id: CampaignId, artifact: Artifact, plan: Plan)
    ensures RunAll(n, StickingRun(env, policy, id, artifact, plan)) ==
            Step(Step(RunAll(n, StartingRun(env, policy, id, artifact, plan)), Run(Pass(env, [id], 1))),
                 Run(Start(env, id, plan.irreversible)))
  {
    hide Step, StartingRun;
    var first := StartingRun(env, policy, id, artifact, plan);
    var n4 := RunAll(n, first);
    var pass, start := Run(Pass(env, [id], 1)), Run(Start(env, id, plan.irreversible));
    RunAppend(n, first, [pass] + ([start] + []));
    RunCons(n4, pass, [start] + []);
    RunCons(Step(n4, pass), start, []);
  }
}
