/** `run_preflight`: everything that blocks a campaign before it starts, and what a pass is worth afterwards. */
module Preflight {
  import opened Bytes
  import opened Skew
  import opened Records
  import opened Store
  import opened Protocol
  import opened Guarantees
  import opened Staging
  import opened Planner
  import opened PlannedRuns

  /** What the other components answered: whether they are wired, and whether their evidence holds. */
  datatype Gates = Gates(source: bool, payload: bool, integrity: bool, signatureNeeded: bool, signed: bool, registry: bool,
                         drain: bool, evidenceFresh: bool)

  datatype Compatibility = Compatibility(answered: bool, compatible: bool)

  datatype Blocker =
    | PlanRejected | NoSource | NoPayload | IntegrityNotVerified | NotSigned | NoRegistry | EvidenceStale | NoDrain | NothingResolved
    | NotAdmissible(target: TargetId) | SkewExceeded

  // ---- the verdict on one target ------------------------------------------------------------------------------

  /** A target is admissible if the registry answered that the upgrade is compatible with it, and artifact and adapter
      support it. */
  predicate Admissible(d: Candidate, plan: Plan, release: Release, gates: Gates, verdicts: map<TargetId, Compatibility>) {
    gates.registry && d.id in verdicts && verdicts[d.id].answered && verdicts[d.id].compatible && gates.integrity &&
    d.platform in release.platforms && plan.strategy in d.strategies && !LacksCapability(d, release.needs)
  }

  method JudgeTarget(d: Candidate, plan: Plan, release: Release, gates: Gates, verdicts: map<TargetId, Compatibility>)
    returns (admissible: bool)
    ensures admissible <==> Admissible(d, plan, release, gates, verdicts)
  {
    hide LacksCapability;
    var missing := MissingCapabilities(d, release.needs);
    var compatible := false;
    if gates.registry && d.id in verdicts && verdicts[d.id].answered { compatible := verdicts[d.id].compatible; }
    admissible := compatible && gates.integrity && d.platform in release.platforms && plan.strategy in d.strategies && missing == [];
  }

  // ---- the planned targets ------------------------------------------------------------------------------------

  predicate InStages(stages: seq<StagePlan>, t: TargetId) { exists s :: 0 <= s < |stages| && t in stages[s].targets }

  /** The planned targets the inventory knows, each time a stage names one. */
  function KnownPlanned(inventory: seq<Candidate>, stages: seq<StagePlan>): seq<Candidate>
    decreases |stages|
  {
    if stages == [] then []
    else KnownPlanned(inventory, stages[..|stages| - 1]) + Known(inventory, stages[|stages| - 1].targets)
  }

  lemma {:induction false} KnownAre(inventory: seq<Candidate>, asked: seq<TargetId>)
    ensures forall d :: d in Known(inventory, asked) <==>
              exists i :: 0 <= i < |asked| && Find(inventory, asked[i]) >= 0 && inventory[Find(inventory, asked[i])] == d
    decreases |asked|
  {
    hide Find;
    if asked != [] {
      var front := asked[..|asked| - 1];
      KnownAre(inventory, front);
      assert forall i :: 0 <= i < |front| ==> front[i] == asked[i];
    }
  }

  /** `d` is what the inventory has under a planned name. */
  predicate PlannedCandidate(inventory: seq<Candidate>, stages: seq<StagePlan>, d: Candidate) {
    InStages(stages, d.id) && Find(inventory, d.id) >= 0 && inventory[Find(inventory, d.id)] == d
  }

  lemma {:induction false} KnownPlannedAre(inventory: seq<Candidate>, stages: seq<StagePlan>)
    ensures forall d :: d in KnownPlanned(inventory, stages) <==> PlannedCandidate(inventory, stages, d)
    decreases |stages|
  {
    hide Find, Known;
    if stages != [] {
      var front, last := stages[..|stages| - 1], stages[|stages| - 1];
      KnownPlannedAre(inventory, front);
      KnownAre(inventory, last.targets);
      forall d ensures InStages(stages, d) <==> InStages(front, d) || d in last.targets { StagesSplit(stages, d); }
    }
  }

  lemma StagesSplit(stages: seq<StagePlan>, t: TargetId)
    requires stages != []
    ensures InStages(stages, t) <==> InStages(stages[..|stages| - 1], t) || t in stages[|stages| - 1].targets
  {
    var front := stages[..|stages| - 1];
    assert forall s :: 0 <= s < |front| ==> front[s] == stages[s];
  }

  /** The versions of the component that are live before anything is upgraded. */
  function Mix(inventory: seq<Candidate>, component: Text): (r: seq<Live>)
    ensures forall d :: d in OfComponent(inventory, component) ==> (d.id, d.installed) in r
  {
    var of := OfComponent(inventory, component);
    var r := seq(|of|, i requires 0 <= i < |of| => (of[i].id, of[i].installed));
    assert forall i :: 0 <= i < |of| ==> (of[i].id, of[i].installed) == r[i];
    r
  }

  // ---- the report ---------------------------------------------------------------------------------------------

  ghost predicate GatesPass(plan: Plan, gates: Gates) {
    plan.executable && gates.source && gates.payload && gates.integrity && (gates.signatureNeeded ==> gates.signed) &&
    gates.registry && gates.evidenceFresh &&
    ((exists s :: 0 <= s < |plan.stages| && plan.stages[s].requiresRemoval) ==> gates.drain)
  }

  /** What a passed preflight has established. */
  ghost predicate Cleared(plan: Plan, component: Text, release: Release, inventory: seq<Candidate>, gates: Gates,
                          verdicts: map<TargetId, Compatibility>) {
    GatesPass(plan, gates) &&
    (exists d :: PlannedCandidate(inventory, plan.stages, d)) &&
    (forall d :: PlannedCandidate(inventory, plan.stages, d) ==> Admissible(d, plan, release, gates, verdicts)) &&
    WithinBudget(plan.budget, Mix(inventory, component), release.artifact.version)
  }

  function Block(blockers: seq<Blocker>, blocking: bool, b: Blocker): (r: seq<Blocker>)
    ensures r == [] <==> blockers == [] && !blocking
  {
    if blocking then blockers + [b] else blockers
  }

  method CheckGates(plan: Plan, gates: Gates) returns (blockers: seq<Blocker>)
    ensures blockers == [] <==> GatesPass(plan, gates)
  {
    hide Block;
    blockers := Block([], !plan.executable, PlanRejected);
    if !gates.source {
      blockers := Block(blockers, true, NoSource);
    } else {
      blockers := Block(blockers, !gates.payload, NoPayload);
    }
    blockers := Block(blockers, !gates.integrity, IntegrityNotVerified);
    blockers := Block(blockers, gates.signatureNeeded && !gates.signed, NotSigned);
    blockers := Block(blockers, !gates.registry, NoRegistry);
    blockers := Block(blockers, !gates.evidenceFresh, EvidenceStale);
    var needsDrain := false;
    for s := 0 to |plan.stages|
      invariant needsDrain <==> exists j :: 0 <= j < s && plan.stages[j].requiresRemoval
    {
      if plan.stages[s].requiresRemoval { needsDrain := true; }
    }
    blockers := Block(blockers, needsDrain && !gates.drain, NoDrain);
  }

  /** `run_preflight`: it passes exactly when nothing blocks. */
  method RunPreflight(plan: Plan, component: Text, release: Release, inventory: seq<Candidate>, gates: Gates,
                      verdicts: map<TargetId, Compatibility>) returns (passed: bool, blockers: seq<Blocker>)
    ensures passed <==> Cleared(plan, component, release, inventory, gates, verdicts)
    ensures passed <==> blockers == []
  {
    hide GatesPass, WithinBudget, Admissible, PlannedCandidate, KnownPlanned, Mix, Block;
    blockers := CheckGates(plan, gates);
    var within, _ := AssessSkew(plan.budget, Mix(inventory, component), release.artifact.version);
    var planned := KnownPlanned(inventory, plan.stages);
    KnownPlannedAre(inventory, plan.stages);
    ghost var gated := blockers == [];
    blockers := Block(blockers, planned == [], NothingResolved);
    assert planned != [] ==> planned[0] in planned;
    for i := 0 to |planned|
      invariant blockers == [] <==>
        gated && planned != [] && forall j :: 0 <= j < i ==> Admissible(planned[j], plan, release, gates, verdicts)
    {
      var admissible := JudgeTarget(planned[i], plan, release, gates, verdicts);
      blockers := Block(blockers, !admissible, NotAdmissible(planned[i].id));
    }
    blockers := Block(blockers, !within, SkewExceeded);
    passed := blockers == [];
  }

  // ---- what a pass is worth -----------------------------------------------------------------------------------

  /** The engine's inventory is the one the preflight saw: the same targets, at the same versions. */
  ghost predicate ShowsExactly(env: Env, inventory: seq<Candidate>) {
    forall t :: (t in env.inventory <==> Find(inventory, t) >= 0) &&
                (t in env.inventory ==> env.inventory[t].installed == inventory[Find(inventory, t)].installed)
  }

  /** A planned target that a passed preflight vouches for: it was found, and was part of the mix that was assessed or is
      tolerated on its own. */
  ghost predicate VouchedFor(inventory: seq<Candidate>, component: Text, budget: Budget, version: Version, t: TargetId) {
    Find(inventory, t) >= 0 &&
    (inventory[Find(inventory, t)].component == component ||
     Tolerated(budget, inventory[Find(inventory, t)].installed, version))
  }

  lemma {:induction false} ComponentMembers(inventory: seq<Candidate>, component: Text)
    ensures forall d :: d in OfComponent(inventory, component) <==> d in inventory && d.component == component
    decreases |inventory|
  {
    if inventory != [] {
      var front := inventory[..|inventory| - 1];
      ComponentMembers(front, component);
      assert inventory == front + [inventory[|inventory| - 1]];
    }
  }

  /** The targets of the component were tolerated. */
  lemma MixTolerates(inventory: seq<Candidate>, component: Text, budget: Budget, version: Version, d: Candidate)
    requires WithinBudget(budget, Mix(inventory, component), version) && d in inventory && d.component == component
    ensures Tolerated(budget, d.installed, version)
  {
    hide Tolerated, Mix;
    ComponentMembers(inventory, component);
    var mix := Mix(inventory, component);
    assert d in OfComponent(inventory, component);
    var i :| 0 <= i < |mix| && mix[i] == (d.id, d.installed);
  }

  /** What a passed preflight is worth: with exactly the inventory it saw, the live mix stays within the skew budget in every
      state the campaign can get into, if and only if it vouches for every planned target. A planned target the inventory does
      not know does not keep the preflight from passing. */
  lemma PassCoversRunIff(env: Env, id: CampaignId, c: Campaign, component: Text, release: Release, inventory: seq<Candidate>,
                         gates: Gates, verdicts: map<TargetId, Compatibility>)
    requires Cleared(c.plan, component, release, inventory, gates, verdicts) && c.artifact == release.artifact
    requires ShowsExactly(env, inventory) && c.artifact.version.reported
    ensures (forall st :: SkewOk(st, env, id, c)) <==>
            forall t :: InStages(c.plan.stages, t) ==> VouchedFor(inventory, component, c.plan.budget, c.artifact.version, t)
  {
    hide SkewOk, WithinBudget, Find, Admissible, Tolerated, Mix, PlannedCandidate;
    MixStaysWithinIff(env, id, c);
    forall s: nat, t | Planned(c, s, t) && VouchedFor(inventory, component, c.plan.budget, c.artifact.version, t)
      ensures t in env.inventory && Tolerated(c.plan.budget, env.inventory[t].installed, c.artifact.version)
    {
      var d := inventory[Find(inventory, t)];
      if d.component == component { MixTolerates(inventory, component, c.plan.budget, c.artifact.version, d); }
    }
    if Coverable(env, c) {
      forall t | InStages(c.plan.stages, t)
        ensures VouchedFor(inventory, component, c.plan.budget, c.artifact.version, t)
      {
        var s :| 0 <= s < |c.plan.stages| && t in c.plan.stages[s].targets;
        assert Planned(c, s, t);
      }
    }
    if forall t :: InStages(c.plan.stages, t) ==> VouchedFor(inventory, component, c.plan.budget, c.artifact.version, t) {
      forall s: nat, t | Planned(c, s, t)
        ensures t in env.inventory && Tolerated(c.plan.budget, env.inventory[t].installed, c.artifact.version)
      {
        assert InStages(c.plan.stages, t);
      }
    }
  }

  // ---- a pass that does not cover the run ---------------------------------------------------------------------

  const OLD_VERSION := Version(1, 0, 0, [], true)
  const NEW_VERSION := Version(1, 1, 0, [], true)
  const ARTIFACT := Artifact(NEW_VERSION, [1], [2], true)
  const KNOWN_TARGET := Candidate([65], [67], [80], [], [InPlace], false, OLD_VERSION, [])
  const TWO_TARGETS := Plan([StagePlan([[65], [66]], 1, false)], true, false, InPlace, Budget(0, 1, 0, []))
  const RELEASE := Release(ARTIFACT, [67], [[80]], [], false, {})
  const OPEN_GATES := Gates(true, true, true, false, true, true, true, true)
  const COMPATIBLE: map<TargetId, Compatibility> := map[[65] := Compatibility(true, true)]

  /** A plan for two targets, one of which has left the inventory: the preflight passes, and the mix exceeds the budget in
      every state in which the missing target is not upgraded. */
  lemma MissingTargetPasses(st: StoreState, env: Env, id: CampaignId, c: Campaign)
    requires c.plan == TWO_TARGETS && c.artifact == ARTIFACT && ShowsExactly(env, [KNOWN_TARGET])
    ensures Cleared(TWO_TARGETS, [67], RELEASE, [KNOWN_TARGET], OPEN_GATES, COMPATIBLE)
    ensures !TargetUpgraded(st, id, [66]) ==> !SkewOk(st, env, id, c)
  {
    hide TargetUpgraded;
    KnownTargetPasses();
    if !TargetUpgraded(st, id, [66]) {
      assert Planned(c, 0, [66]);
      assert Find([KNOWN_TARGET], [66]) < 0;
      assert !Tolerated(c.plan.budget, LiveVersion(st, env, id, c, [66]), c.artifact.version);
    }
  }

  lemma KnownTargetPasses()
    ensures Cleared(TWO_TARGETS, [67], RELEASE, [KNOWN_TARGET], OPEN_GATES, COMPATIBLE)
  {
    var inventory := [KNOWN_TARGET];
    assert [65] in TWO_TARGETS.stages[0].targets;
    assert InStages(TWO_TARGETS.stages, [65]);
    assert PlannedCandidate(inventory, TWO_TARGETS.stages, KNOWN_TARGET);
    assert inventory[..0] == [];
    assert OfComponent(inventory, [67]) == [KNOWN_TARGET];
    assert Mix(inventory, [67]) == [([65], OLD_VERSION)];
  }

  // ---- a plan over the same inventory -------------------------------------------------------------------------

  /** The engine's inventory shows what the preflight saw. */
  ghost predicate SameInventory(env: Env, inventory: seq<Candidate>) {
    forall d :: d in inventory ==> d.id in env.inventory && env.inventory[d.id].installed == d.installed
  }

  /** Every selected target is in the inventory. */
  lemma SelectedIsKnown(request: Request, inventory: seq<Candidate>, d: Candidate)
    requires d in Selected(request, inventory)
    ensures d in inventory
  {
    hide Find;
    var resolved := Resolved(request, inventory);
    assert d in multiset(Selected(request, inventory));
    assert d in resolved by { assert d in multiset(resolved); }
    if request.targets == [] {
      ComponentMembers(inventory, request.component);
    } else {
      KnownAre(inventory, request.targets);
      assert d in Known(inventory, request.targets);
      var i :| 0 <= i < |request.targets| && Find(inventory, request.targets[i]) >= 0 &&
               inventory[Find(inventory, request.targets[i])] == d;
      assert inventory[Find(inventory, request.targets[i])] in inventory;
    }
  }

  /** If the plan was built from the inventory the preflight saw, no planned target is missing, and a pass does cover the run. */
  lemma PassCoversPlannedInventory(st: StoreState, env: Env, id: CampaignId, c: Campaign, request: Request, release: Release,
                                   inventory: seq<Candidate>, bounds: Bounds, gates: Gates, verdicts: map<TargetId, Compatibility>)
    requires PlanFor(c.plan, request, release, inventory, bounds) && c.artifact == release.artifact
    requires Cleared(c.plan, request.component, release, inventory, gates, verdicts)
    requires SameInventory(env, inventory) && c.artifact.version.reported
    ensures SkewOk(st, env, id, c)
  {
    hide SkewOk, Justified, PlannedStages, Selected, WithinBudget, Find, Admissible, Tolerated;
    var selected := Selected(request, inventory);
    ExecutablePartitions(request, release, inventory, bounds);
    forall s: nat, t | Planned(c, s, t)
      ensures t in env.inventory && Tolerated(c.plan.budget, env.inventory[t].installed, c.artifact.version)
    {
      var p :| 0 <= p < |c.plan.stages[s].targets| && c.plan.stages[s].targets[p] == t;
      assert At(c.plan.stages, s, p, t);
      var i :| 0 <= i < |selected| && Ids(selected)[i] == t;
      SelectedIsKnown(request, inventory, selected[i]);
      NotMixed(request, release, inventory, bounds, i);
      MixTolerates(inventory, request.component, c.plan.budget, c.artifact.version, selected[i]);
    }
    CoveredMix(st, env, id, c);
  }

  lemma NotMixed(request: Request, release: Release, inventory: seq<Candidate>, bounds: Bounds, i: nat)
    requires i < |Selected(request, inventory)| && forall r :: !Justified(r, request, release, inventory, bounds)
    ensures Selected(request, inventory)[i].component == request.component
  {
    hide Selected, PlannedStages, Find;
    var selected := Selected(request, inventory);
    assert !Justified(Rejection(MixedComponent, selected[i].id), request, release, inventory, bounds);
  }
}
