/** From the request to the end of the run: what a completed campaign means for the targets that were selected, and that it can be
    completed. */
module PlannedRuns {
  import opened Records
  import opened Store
  import opened Protocol
  import opened Invariants
  import opened Runs
  import opened Guarantees
  import opened Skew
  import opened Commands
  import opened CommitEffects
  import opened CompletingRuns
  import opened Staging
  import opened Planner

  /** What `BuildPlan` promises of its plan. */
  ghost predicate PlanFor(plan: Plan, request: Request, release: Release, inventory: seq<Candidate>, bounds: Bounds) {
    plan.stages == PlannedStages(request, Selected(request, inventory)) &&
    (plan.executable <==> forall r :: !Justified(r, request, release, inventory, bounds))
  }

  ghost predicate OnlyAttempt(st: StoreState, id: CampaignId, t: TargetId, k: Key) {
    k in st.attempts && k.campaign == id && k.target == t &&
    forall k' :: k' in st.attempts && k'.campaign == id && k'.target == t ==> k' == k
  }

  /** At every point of every run, a completed campaign over a plan the planner built has made exactly one attempt at each
      selected target, whatever the strategy, and that attempt is verified at the artifact's version; no other target was
      attempted. */
  lemma CompletedUpgradesTheSelected(config: Config, events: seq<Event>, st: StoreState, id: CampaignId, request: Request,
                                     release: Release, inventory: seq<Candidate>, bounds: Bounds)
    requires Seen(config, events, st) && id in st.campaigns && st.campaigns[id].state.Completed?
    requires PlanFor(st.campaigns[id].plan, request, release, inventory, bounds)
    ensures forall t :: t in Ids(Selected(request, inventory)) ==>
              exists k :: OnlyAttempt(st, id, t, k) && VerifiedAt(st, k, st.campaigns[id].artifact)
    ensures forall k :: k in st.attempts && k.campaign == id ==> k.target in Ids(Selected(request, inventory))
  {
    hide Seen, Justified, PlannedStages, Selected, VerifiedAt, Ids;
    var c, ids := st.campaigns[id], Ids(Selected(request, inventory));
    CompletedMeansVerified(config, events, st, id);
    SeenOk(config, events, st);
    CompletedIsExecutable(st, id);
    ExecutablePartitions(request, release, inventory, bounds);
    forall t | t in ids ensures exists k :: OnlyAttempt(st, id, t, k) && VerifiedAt(st, k, c.artifact) {
      var s: nat, p: nat :| At(c.plan.stages, s, p, t);
      var k := Key(id, s, t);
      assert Planned(c, s, t);
      IsVerified(st, k, c.artifact);
      forall k' | k' in st.attempts && k'.campaign == id && k'.target == t ensures k' == k {
        PlannedAt(c, k'.stage, t, s, p);
      }
    }
    forall k | k in st.attempts && k.campaign == id ensures k.target in ids {
      var p :| 0 <= p < |c.plan.stages[k.stage].targets| && c.plan.stages[k.stage].targets[p] == k.target;
      assert At(c.plan.stages, k.stage, p, k.target);
    }
  }

  lemma IsVerified(st: StoreState, k: Key, artifact: Artifact)
    requires VerifiedAt(st, k, artifact)
    ensures k in st.attempts
  {
  }

  lemma CompletedIsExecutable(st: StoreState, id: CampaignId)
    requires Inv(st) && id in st.campaigns && st.campaigns[id].state.Completed?
    ensures st.campaigns[id].plan.executable
  {
    assert CampaignOk(st.campaigns[id]);
  }

  lemma PlannedAt(c: Campaign, s: nat, t: TargetId, s': nat, p': nat)
    requires exists ids :: Partition(c.plan.stages, ids)
    requires Planned(c, s, t) && At(c.plan.stages, s', p', t)
    ensures s == s'
  {
    var p :| 0 <= p < |c.plan.stages[s].targets| && c.plan.stages[s].targets[p] == t;
    assert At(c.plan.stages, s, p, t);
  }

  // ---- what was planned can be completed ----------------------------------------------------------------------

  /** An executable plan has stages, none of them empty or without room for an activation. */
  lemma StagesAreFilled(request: Request, release: Release, inventory: seq<Candidate>, bounds: Bounds)
    requires forall r :: !Justified(r, request, release, inventory, bounds)
    ensures var stages := PlannedStages(request, Selected(request, inventory));
            stages != [] && forall s :: 0 <= s < |stages| ==> stages[s].targets != [] && stages[s].maxParallel > 0
  {
    hide Justified, Selected, Partition, Waves;
    var selected := Selected(request, inventory);
    var stages := PlannedStages(request, selected);
    ExecutablePartitions(request, release, inventory, bounds);
    SomePlace(stages, Ids(selected));
    NoEmptyWave(selected, request.maxParallel);
  }

  lemma SomePlace(stages: seq<StagePlan>, ids: seq<TargetId>)
    requires Partition(stages, ids) && ids != []
    ensures stages != []
  {
    assert ids[0] in ids;
  }

  /** Whatever the strategy, a plan the planner built can be completed: when the selected targets are known, tolerated and served by
      adapters that support the strategy and do what they are asked to, the policy permits work and whoever must leave service has
      left it, there is a run from an empty journal to the completed campaign. */
  lemma BuiltPlanCompletes(config: Config, policy: Policy, env: Env, id: CampaignId, artifact: Artifact, plan: Plan,
                           request: Request, release: Release, inventory: seq<Candidate>, bounds: Bounds)
    returns (events: seq<Event>)
    requires PlanFor(plan, request, release, inventory, bounds) && plan.executable
    requires env.verified && env.verifiedDigest == artifact.digest && artifact.version.reported
    requires policy.maxAttempts > 0 && policy.maxConcurrent > 0
    requires forall t :: t in Ids(Selected(request, inventory)) ==>
               t in env.inventory && plan.strategy in env.inventory[t].strategies &&
               Tolerated(plan.budget, env.inventory[t].installed, artifact.version)
    requires forall s :: 0 <= s < |plan.stages| ==> Drained(env, id, plan, s)
    ensures var n := RunAll(Down([], config), events);
            n.Up? && n.work == multiset{} && id in n.live.campaigns && n.live.campaigns[id].state.Completed? &&
            n.live.campaigns[id].plan == plan && n.live.campaigns[id].artifact == artifact
  {
    hide Justified, Selected, PlannedStages, Tolerated, Drained, Ids, RunAll;
    var c := NewCampaign(EmptyStore(config), artifact, plan, false);
    var ids := Ids(Selected(request, inventory));
    ExecutablePartitions(request, release, inventory, bounds);
    StagesAreFilled(request, release, inventory, bounds);
    forall s: nat, p: nat | s < |plan.stages| && p < |plan.stages[s].targets| ensures plan.stages[s].targets[p] in ids {
      assert At(plan.stages, s, p, plan.stages[s].targets[p]);
    }
    forall s: nat, t | Planned(c, s, t)
      ensures t in env.inventory && Tolerated(c.plan.budget, env.inventory[t].installed, c.artifact.version)
    {
      var p :| 0 <= p < |plan.stages[s].targets| && plan.stages[s].targets[p] == t;
    }
    forall stage, t | stage in plan.stages && t in stage.targets
      ensures t in env.inventory && plan.strategy in env.inventory[t].strategies
    {
      var s :| 0 <= s < |plan.stages| && plan.stages[s] == stage;
      var p :| 0 <= p < |stage.targets| && stage.targets[p] == t;
    }
    events := EveryPlanCompletes(config, policy, env, id, artifact, plan);
  }
}
