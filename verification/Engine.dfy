/** The engine as an object over its store: each method is one critical section, or a part of one, carried out step by step
    on the store's maps; its contract says which entries it journals, in terms of the store it started from. */
module Engines {
  import opened Lifecycle
  import opened Skew
  import opened Records
  import opened Store
  import Ledger
  import opened Verification
  import opened Protocol
  import opened Commands
  import opened Invariants
  import opened PlanSections
  import opened Restart
  import opened Driver
  import opened IdleDriver
  import opened Reconcile
  import opened DurableStores

  class Engine {
    const store: DurableStore
    const policy: Policy

    constructor (store: DurableStore, policy: Policy)
      ensures this.store == store && this.policy == policy
    {
      this.store, this.policy := store, policy;
    }

    // ---- guards -----------------------------------------------------------------------------------------------

    method TargetIsUpgraded(id: CampaignId, t: TargetId) returns (upgraded: bool)
      ensures upgraded <==> TargetUpgraded(store.View(), id, t)
    {
      var rest := store.attempts.Keys;
      while rest != {}
        invariant rest <= store.attempts.Keys
        invariant forall k :: k in store.attempts && k !in rest ==>
          !(k.campaign == id && k.target == t && IsUpgraded(store.attempts[k]))
        decreases |rest|
      {
        var k :| k in rest;
        if k.campaign == id && k.target == t && IsUpgraded(store.attempts[k]) { return true; }
        rest := rest - {k};
      }
      return false;
    }

    /** `assess_current_skew_locked`: the live version of every planned target, judged against the budget; a mix nothing is
        known about is not within it. */
    method AssessCurrentSkew(env: Env, id: CampaignId, c: Campaign) returns (within: bool)
      ensures within <==> SkewOk(store.View(), env, id, c)
    {
      var todo := AllTargets(c.plan.stages, 0);
      var live: seq<Live> := [];
      var known := 0;
      for i := 0 to |todo|
        invariant |live| == i
        invariant forall j :: 0 <= j < i ==> live[j] == (todo[j].1, LiveVersion(store.View(), env, id, c, todo[j].1))
        invariant 0 <= known
        invariant known == 0 <==>
          forall j :: 0 <= j < i ==> !TargetUpgraded(store.View(), id, todo[j].1) && todo[j].1 !in env.inventory
      {
        var t := todo[i].1;
        var upgraded := TargetIsUpgraded(id, t);
        if upgraded || t in env.inventory { known := known + 1; }
        live := live + [(t, if upgraded then c.artifact.version
                            else if t in env.inventory then env.inventory[t].installed
                            else Version(0, 0, 0, [], false))];
      }
      var violations;
      within, violations := AssessSkew(c.plan.budget, live, c.artifact.version);
      if known == 0 && live != [] { within := false; }
      MixIsSkewOk(store.View(), env, id, c, todo, live, known);
    }

    /** The two parts of `guards_locked` that scan the plan's targets for what their adapters claim. */
    method AdapterFlags(env: Env, c: Campaign) returns (supports: bool, rollsBack: bool)
      ensures supports == AdaptersSupport(env, c) && rollsBack == AdaptersRollBack(env, c)
    {
      var todo := AllTargets(c.plan.stages, 0);
      supports, rollsBack := true, true;
      for i := 0 to |todo|
        invariant supports <==> forall j :: 0 <= j < i ==>
          todo[j].1 in env.inventory && c.plan.strategy in env.inventory[todo[j].1].strategies
        invariant rollsBack <==> forall j :: 0 <= j < i ==>
          todo[j].1 in env.inventory && env.inventory[todo[j].1].supportsRollback
      {
        var t := todo[i].1;
        if t !in env.inventory || c.plan.strategy !in env.inventory[t].strategies { supports := false; }
        if t !in env.inventory || !env.inventory[t].supportsRollback { rollsBack := false; }
      }
      FlagsOverTargets(env, c, todo);
    }

    method RollbackFlags(id: CampaignId) returns (pending: bool, done: bool)
      ensures pending <==> exists k :: k in store.attempts && k.campaign == id && Touched(store.attempts[k])
      ensures done <==> exists k :: k in store.attempts && k.campaign == id && store.attempts[k].state.AttRolledBack?
    {
      pending, done := false, false;
      var rest := store.attempts.Keys;
      while rest != {}
        invariant rest <= store.attempts.Keys
        invariant pending <==> exists k :: k in store.attempts && k !in rest && k.campaign == id && Touched(store.attempts[k])
        invariant done <==>
          exists k :: k in store.attempts && k !in rest && k.campaign == id && store.attempts[k].state.AttRolledBack?
        decreases |rest|
      {
        var k :| k in rest;
        rest := rest - {k};
        if k.campaign == id {
          if Touched(store.attempts[k]) { pending := true; }
          if store.attempts[k].state.AttRolledBack? { done := true; }
        }
      }
    }

    method StageAllLocked(id: CampaignId, c: Campaign, stage: nat, states: set<AttemptState>) returns (all: bool)
      ensures all <==> StageAll(store.View(), id, c, stage, states)
    {
      if stage >= |c.plan.stages| || c.plan.stages[stage].targets == [] { return false; }
      var targets := c.plan.stages[stage].targets;
      for i := 0 to |targets|
        invariant forall j :: 0 <= j < i ==> Holding(store.View(), Key(id, stage, targets[j]), states)
      {
        var k := Key(id, stage, targets[i]);
        if k !in store.attempts || store.attempts[k].state !in states { return false; }
      }
      return true;
    }

    method StageFreshLocked(env: Env, id: CampaignId, c: Campaign, stage: nat) returns (all: bool)
      ensures all <==> StageFresh(store.View(), env, id, c, stage)
    {
      if stage >= |c.plan.stages| || c.plan.stages[stage].targets == [] { return false; }
      var targets := c.plan.stages[stage].targets;
      for i := 0 to |targets|
        invariant forall j :: 0 <= j < i ==> FreshAttempt(store.View(), env, Key(id, stage, targets[j]))
      {
        var k := Key(id, stage, targets[i]);
        if k !in store.attempts { return false; }
        var a := store.attempts[k];
        if !a.state.AttVerified? || !Fresh(a.evidenceAt, a.evidenceValidity, a.owner, env.now, store.incarnation) {
          return false;
        }
      }
      return true;
    }

    method AllComplete(c: Campaign) returns (all: bool)
      ensures all <==> c.progress != [] && forall i :: 0 <= i < |c.progress| ==> c.progress[i].StageCompleted?
    {
      all := c.progress != [];
      for i := 0 to |c.progress|
        invariant all <==> c.progress != [] && forall j :: 0 <= j < i ==> c.progress[j].StageCompleted?
      {
        if !c.progress[i].StageCompleted? { all := false; }
      }
    }

    /** `guards_locked`. */
    method GuardsLocked(env: Env, id: CampaignId, c: Campaign) returns (g: Guards)
      ensures g == GuardsOf(store.View(), env, id, c)
    {
      hide SkewOk, StageAll, StageFresh, TicketCurrent, AdaptersSupport;
      var supports, rollsBack := AdapterFlags(env, c);
      var allComplete := AllComplete(c);
      var within := AssessCurrentSkew(env, id, c);
      var pending, done := RollbackFlags(id);
      var activated := StageAllLocked(id, c, c.active, {AttActivated, AttVerified});
      var verified := StageFreshLocked(env, id, c, c.active);
      var drained := true;
      if c.active < |c.plan.stages| && c.plan.stages[c.active].requiresRemoval && env.drainWired {
        drained := (id, c.active) in env.drained;
      }
      g := Guards(
        TicketCurrent(store.View(), env, c), env.verified && env.verifiedDigest == c.artifact.digest,
        c.rollbackRecorded, !c.plan.irreversible || c.acknowledged, supports,
        c.active < |c.progress| && c.progress[c.active].StagePrepared?, activated, verified, within, drained, allComplete,
        c.failureRecorded, c.rollbackEligible, done && !pending, false);
    }

    // ---- transitions and the fence ------------------------------------------------------------------------------

    /** The record of a move and its decision. */
    method RecordMove(id: CampaignId, moved: Campaign, d: Decision)
      modifies store
      ensures store.Wrote([CampaignEntry(id, moved), DecisionEntry(id, d)])
    {
      hide ApplyAll, Apply;
      ghost var was := store.View();
      store.PutCampaign(id, moved);
      ApplyOne(was, CampaignEntry(id, moved));
      store.AppendDecision(id, d);
      ApplyOne(Apply(was, CampaignEntry(id, moved)), DecisionEntry(id, d));
      ApplyTwo(was, CampaignEntry(id, moved), DecisionEntry(id, d));
    }

    method TransitionLocked(id: CampaignId, c: Campaign, to: UpgradeState, g: Guards) returns (ok: bool, d: Campaign)
      modifies store
      ensures store.Wrote(MoveTrace(id, c, to, g))
      ensures ok == Permits(c.state, to, g) && d == MoveResult(c, to, g)
    {
      hide Permits, ApplyAll, DecisionFor, Holds;
      EmptyTrace(store.View());
      var allowed, unmet := EvaluateTransition(c.state, to, g);
      if !allowed {
        store.AppendDecision(id, Decision(DecBlock, Deny));
        return false, c;
      }
      if c.state == to { return true, c; }
      var moved := c.(state := to);
      if to.Completed? || to.RolledBack? { moved := moved.(failureRecorded := false); }
      RecordMove(id, moved, DecisionFor(to));
      return true, moved;
    }

    /** `check_fence_locked`, in the order of its checks. */
    method CheckFenceLocked(item: Item) returns (ok: bool)
      ensures ok <==> FenceOk(store.View(), item)
    {
      var k := KeyOf(item);
      if k !in store.attempts { return false; }
      var a := store.attempts[k];
      if a.generation != item.generation { return false; }
      if a.owner != store.incarnation { return false; }
      if a.state != Expected(item.kind) { return false; }
      if item.campaign !in store.campaigns { return false; }
      var c := store.campaigns[item.campaign];
      if c.generation != item.generation { return false; }
      if c.epoch != item.epoch { return false; }
      return Accepts(item.kind, c.state);
    }

    // ---- commits ------------------------------------------------------------------------------------------------

    method FailLocked(env: Env, id: CampaignId, c: Campaign)
      modifies store
      ensures store.Wrote(FailTrace(old(store.View()), env, id, c))
    {
      hide MoveTrace, GuardsOf, Permits, ApplyAll;
      var c1 := c.(failureRecorded := true);
      var g := GuardsLocked(env, id, c1);
      var _, _ := TransitionLocked(id, c1, if c1.state.Proposed? then Blocked else Failed, g.(failureRecorded := true));
    }

    method BlockLocked(env: Env, id: CampaignId, c: Campaign)
      modifies store
      ensures store.Wrote(BlockTrace(old(store.View()), env, id, c))
    {
      hide MoveTrace, GuardsOf, Permits, ApplyAll;
      var g := GuardsLocked(env, id, c);
      var _, _ := TransitionLocked(id, c, Blocked, g.(failureRecorded := true));
    }

    /** An attempt record, and then the rest of a section. */
    method WriteAttempt(k: Key, b: Attempt)
      modifies store
      ensures store.Wrote([AttemptEntry(k, b)]) && store.View() == Apply(old(store.View()), AttemptEntry(k, b))
      ensures store.campaigns == old(store.campaigns) && store.incarnation == old(store.incarnation)
    {
      hide ApplyAll;
      ApplyOne(store.View(), AttemptEntry(k, b));
      store.PutAttempt(k, b);
    }

    method FailAttempt(env: Env, item: Item)
      requires FenceOk(store.View(), item)
      modifies store
      ensures var st := old(store.View());
              var w := AttemptEntry(KeyOf(item), st.attempts[KeyOf(item)].(state := AttFailed));
              store.Wrote([w] + FailTrace(Apply(st, w), env, item.campaign, st.campaigns[item.campaign]))
    {
      hide FailTrace, ApplyAll;
      ghost var v0, l0 := store.View(), store.log;
      var k, id := KeyOf(item), item.campaign;
      var c, b := store.campaigns[id], store.attempts[k].(state := AttFailed);
      WriteAttempt(k, b);
      ghost var v1, l1 := store.View(), store.log;
      FailLocked(env, id, c);
      Chain(v0, l0, [AttemptEntry(k, b)], v1, l1, FailTrace(v1, env, id, c), store.View(), store.log);
    }

    method AfterPreparedLocked(env: Env, id: CampaignId, c: Campaign, stage: nat)
      modifies store
      ensures store.Wrote(AfterPrepared(old(store.View()), env, id, c, stage))
    {
      hide MoveTrace, GuardsOf, Permits, ApplyAll, StageAll;
      ghost var v0, l0 := store.View(), store.log;
      EmptyTrace(v0);
      var all := StageAllLocked(id, c, stage, {AttPrepared, AttActivated, AttVerified, AttRolledBack});
      if !all || stage >= |c.progress| { return; }
      var c1 := c.(progress := c.progress[stage := StagePrepared]);
      store.PutCampaign(id, c1);
      ApplyOne(v0, CampaignEntry(id, c1));
      ghost var v1, l1 := store.View(), store.log;
      EmptyTrace(v1);
      if c1.state.Prepared? {
        var g := GuardsLocked(env, id, c1);
        var _, _ := TransitionLocked(id, c1, Staged, g.(stagingComplete := true));
      }
      Chain(v0, l0, [CampaignEntry(id, c1)], v1, l1, StageIt(v1, env, id, c1), store.View(), store.log);
    }

    method CommitPrepareLocked(env: Env, item: Item, r: Report)
      requires FenceOk(store.View(), item)
      modifies store
      ensures store.Wrote(CommitPrepare(old(store.View()), env, item, r))
    {
      hide AfterPrepared, FailTrace, ApplyAll;
      ghost var v0, l0 := store.View(), store.log;
      var k, id := KeyOf(item), item.campaign;
      var c := store.campaigns[id];
      if r.prepared {
        var b := store.attempts[k].(state := AttPrepared);
        WriteAttempt(k, b);
        ghost var v1, l1 := store.View(), store.log;
        AfterPreparedLocked(env, id, c, item.stage);
        Chain(v0, l0, [AttemptEntry(k, b)], v1, l1, AfterPrepared(v1, env, id, c, item.stage), store.View(), store.log);
      } else {
        FailAttempt(env, item);
      }
    }

    method CheckMixLocked(env: Env, id: CampaignId, c: Campaign)
      modifies store
      ensures store.Wrote(CheckMix(old(store.View()), env, id, c))
    {
      hide MoveTrace, GuardsOf, Permits, ApplyAll, SkewOk, BlockTrace;
      EmptyTrace(store.View());
      var within := AssessCurrentSkew(env, id, c);
      if !within {
        BlockLocked(env, id, c);
        return;
      }
      var g := GuardsLocked(env, id, c);
      if g.activationComplete { var _, _ := TransitionLocked(id, c, Verifying, g); }
    }

    method AfterActivatedLocked(env: Env, id: CampaignId, c: Campaign)
      modifies store
      ensures store.Wrote(AfterActivated(old(store.View()), env, id, c))
    {
      hide MoveTrace, GuardsOf, Permits, ApplyAll, CheckMix;
      ghost var v0, l0 := store.View(), store.log;
      if c.state.Staged? {
        var g := GuardsLocked(env, id, c);
        var _, d := TransitionLocked(id, c, Activating, g);
        ghost var v1, l1 := store.View(), store.log;
        CheckMixLocked(env, id, d);
        Chain(v0, l0, MoveTrace(id, c, Activating, g), v1, l1, CheckMix(v1, env, id, d), store.View(), store.log);
      } else {
        CheckMixLocked(env, id, c);
      }
    }

    /** An attempt that reached an outcome, and its provenance record. */
    method RecordOutcome(env: Env, item: Item, b: Attempt, o: Outcome)
      modifies store
      ensures var st := old(store.View());
              var w, l := AttemptEntry(KeyOf(item), b), LedgerEntry(RecordOf(st, env, item, o));
              store.View() == Apply(Apply(st, w), l) && store.log == old(store.log) + [w] + [l] &&
              store.campaigns == old(store.campaigns)
    {
      hide ApplyAll, Ledger.Seal;
      WriteAttempt(KeyOf(item), b);
      var r := Draft(env, item, o, store.incarnation);
      ApplyOne(store.View(), LedgerEntry(Ledger.Seal(store.config.digest, store.head, store.sequence, r)));
      store.AppendProvenance(r);
    }

    method HoldActivation(env: Env, item: Item)
      requires FenceOk(store.View(), item)
      modifies store
      ensures var st := old(store.View());
              var w := AttemptEntry(KeyOf(item), st.attempts[KeyOf(item)].(state := AttPrepared));
              store.Wrote([w] + (BlockTrace(Apply(st, w), env, item.campaign, st.campaigns[item.campaign]) +
                                 [DecisionEntry(item.campaign, Decision(DecBlock, Deny))]))
    {
      hide BlockTrace, ApplyAll;
      ghost var v0, l0 := store.View(), store.log;
      var k, id := KeyOf(item), item.campaign;
      var c, b := store.campaigns[id], store.attempts[k].(state := AttPrepared);
      WriteAttempt(k, b);
      ghost var v1, l1 := store.View(), store.log;
      BlockLocked(env, id, c);
      ghost var v2, l2 := store.View(), store.log;
      store.AppendDecision(id, Decision(DecBlock, Deny));
      ghost var d := [DecisionEntry(id, Decision(DecBlock, Deny))];
      Chain(v1, l1, BlockTrace(v1, env, id, c), v2, l2, d, store.View(), store.log);
      Chain(v0, l0, [AttemptEntry(k, b)], v1, l1, BlockTrace(v1, env, id, c) + d, store.View(), store.log);
    }

    method CommitActivateLocked(env: Env, item: Item, r: Report)
      requires FenceOk(store.View(), item)
      modifies store
      ensures store.Wrote(CommitActivate(old(store.View()), env, item, r))
    {
      hide AfterActivated, FailTrace, BlockTrace, ApplyAll;
      ghost var v0, l0 := store.View(), store.log;
      var k, id := KeyOf(item), item.campaign;
      var c := store.campaigns[id];
      if r.gateRefused {
        HoldActivation(env, item);
      } else if r.activated {
        var b := store.attempts[k].(state := AttActivated, activationObserved := true);
        RecordOutcome(env, item, b, Applied);
        ghost var v2, l2 := store.View(), store.log;
        AfterActivatedLocked(env, id, c);
        ChainTwo(v0, l0, AttemptEntry(k, b), LedgerEntry(RecordOf(v0, env, item, Applied)),
                 v2, l2, AfterActivated(v2, env, id, c), store.View(), store.log);
      } else {
        FailAttempt(env, item);
      }
    }

    method AfterStageLocked(env: Env, id: CampaignId, c: Campaign, advanced: bool)
      modifies store
      ensures store.Wrote(AfterStage(old(store.View()), env, id, c, advanced))
    {
      hide MoveTrace, GuardsOf, Permits, ApplyAll;
      ghost var v0, l0 := store.View(), store.log;
      var g := GuardsLocked(env, id, c);
      if advanced {
        var _, _ := TransitionLocked(id, c, Staged, g);
      } else {
        var completed, _ := TransitionLocked(id, c, Completed, g);
        ghost var v1, l1 := store.View(), store.log;
        EmptyTrace(v1);
        if !completed { store.AppendDecision(id, Decision(DecVerify, Defer)); }
        Chain(v0, l0, MoveTrace(id, c, Completed, g), v1, l1,
              if completed then [] else [DecisionEntry(id, Decision(DecVerify, Defer))], store.View(), store.log);
      }
    }

    method AfterVerifiedLocked(env: Env, id: CampaignId, c: Campaign, stage: nat)
      modifies store
      ensures store.Wrote(AfterVerified(old(store.View()), env, id, c, stage))
    {
      hide AfterStage, ApplyAll, StageAll;
      ghost var v0, l0 := store.View(), store.log;
      EmptyTrace(v0);
      var all := StageAllLocked(id, c, stage, {AttVerified});
      if !all || stage >= |c.progress| || c.active >= |c.progress| { return; }
      var c1 := c.(progress := c.progress[c.active := StageCompleted]);
      var advanced := c.active + 1 < |c.progress|;
      if advanced {
        c1 := c1.(active := c.active + 1);
        c1 := c1.(progress := c1.progress[c1.active := StagePending]);
      }
      store.PutCampaign(id, c1);
      ApplyOne(v0, CampaignEntry(id, c1));
      ghost var v1, l1 := store.View(), store.log;
      AfterStageLocked(env, id, c1, advanced);
      Chain(v0, l0, [CampaignEntry(id, c1)], v1, l1, AfterStage(v1, env, id, c1, advanced), store.View(), store.log);
    }

    method CommitVerifyLocked(env: Env, item: Item, r: Report)
      requires FenceOk(store.View(), item)
      modifies store
      ensures store.Wrote(CommitVerify(old(store.View()), env, policy, item, r))
    {
      hide AfterVerified, FailTrace, ApplyAll, Succeeded;
      ghost var v0, l0 := store.View(), store.log;
      var k, id := KeyOf(item), item.campaign;
      var c, a := store.campaigns[id], store.attempts[k];
      var verified, findings :=
        AssessVerification(item.artifact, r.verify, r.health, env.now, store.incarnation, policy.requireHealth);
      if verified {
        var b := a.(state := AttVerified, evidenceAt := r.verify.at, evidenceValidity := r.verify.validity,
                    observedVersion := r.verify.version);
        RecordOutcome(env, item, b, Confirmed);
        ghost var v2, l2 := store.View(), store.log;
        AfterVerifiedLocked(env, id, c, item.stage);
        ChainTwo(v0, l0, AttemptEntry(k, b), LedgerEntry(RecordOf(v0, env, item, Confirmed)),
                 v2, l2, AfterVerified(v2, env, id, c, item.stage), store.View(), store.log);
      } else if a.retries < policy.maxRetries {
        WriteAttempt(k, a.(state := AttActivated, retries := a.retries + 1));
      } else {
        FailAttempt(env, item);
      }
    }

    method AfterRolledBackLocked(env: Env, id: CampaignId, c: Campaign)
      modifies store
      ensures store.Wrote(AfterRolledBack(old(store.View()), env, id, c))
    {
      hide MoveTrace, ApplyAll, Permits, SkewOk, StageAll, StageFresh, TicketCurrent, AdaptersSupport;
      ghost var v0, l0 := store.View(), store.log;
      EmptyTrace(v0);
      var g := GuardsLocked(env, id, c);
      if !g.rollbackComplete { return; }
      var c1 := c.(rollbackPerformed := true);
      store.PutCampaign(id, c1);
      ghost var v1, l1 := store.View(), store.log;
      var _, _ := TransitionLocked(id, c1, RolledBack, g);
      Chain(v0, l0, [CampaignEntry(id, c1)], v1, l1, MoveTrace(id, c1, RolledBack, g), store.View(), store.log);
    }

    method CommitRollbackLocked(env: Env, item: Item, r: Report)
      requires FenceOk(store.View(), item)
      modifies store
      ensures store.Wrote(CommitRollback(old(store.View()), env, item, r))
    {
      hide AfterRolledBack, FailTrace, ApplyAll;
      ghost var v0, l0 := store.View(), store.log;
      var k, id := KeyOf(item), item.campaign;
      var c := store.campaigns[id];
      if r.rolledBack {
        var b := store.attempts[k].(state := AttRolledBack);
        RecordOutcome(env, item, b, Reverted);
        ghost var v2, l2 := store.View(), store.log;
        AfterRolledBackLocked(env, id, c);
        ChainTwo(v0, l0, AttemptEntry(k, b), LedgerEntry(RecordOf(v0, env, item, Reverted)),
                 v2, l2, AfterRolledBack(v2, env, id, c), store.View(), store.log);
      } else {
        FailAttempt(env, item);
      }
    }

    /** `commit_item`. */
    method CommitItem(env: Env, item: Item, r: Report)
      modifies store
      ensures store.Wrote(CommitTrace(old(store.View()), env, policy, item, r))
    {
      hide FenceOk, CommitPrepare, CommitActivate, CommitVerify, CommitRollback, ApplyAll;
      EmptyTrace(store.View());
      if KeyOf(item) !in store.attempts || item.campaign !in store.campaigns {
        NoFence(store.View(), item);
        return;
      }
      var ok := CheckFenceLocked(item);
      if !ok {
        store.AppendDecision(item.campaign, Decision(DecFence, Deny));
        return;
      }
      match item.kind
      case Prepare => CommitPrepareLocked(env, item, r);
      case Activate => CommitActivateLocked(env, item, r);
      case Verify => CommitVerifyLocked(env, item, r);
      case Rollback => CommitRollbackLocked(env, item, r);
    }

    // ---- planning -----------------------------------------------------------------------------------------------

    method CountActivating(id: CampaignId, stage: nat) returns (n: nat)
      ensures n == |InStage(store.View(), id, stage, AttActivating)|
    {
      n := 0;
      var rest := store.attempts.Keys;
      ghost var seen: set<Key> := {};
      while rest != {}
        invariant rest <= store.attempts.Keys && seen !! rest
        invariant seen == set k | k in InStage(store.View(), id, stage, AttActivating) && k !in rest
        invariant n == |seen|
        decreases |rest|
      {
        var k :| k in rest;
        rest := rest - {k};
        if k.campaign == id && k.stage == stage && store.attempts[k].state == AttActivating {
          n := n + 1;
          seen := seen + {k};
        }
      }
      assert seen == InStage(store.View(), id, stage, AttActivating);
    }

    /** The claim of an existing attempt for its next operation. */
    method Claim(k: Key, to: AttemptState)
      requires k in store.attempts
      modifies store
      ensures var a := old(store.attempts)[k].(state := to, owner := old(store.incarnation));
              store.Wrote([AttemptEntry(k, a)])
    {
      store.PutAttempt(k, store.attempts[k].(state := to, owner := store.incarnation));
    }

    /** The per-target body of `plan_work_locked`. */
    method ClaimTarget(env: Env, id: CampaignId, c: Campaign, stage: nat, t: TargetId) returns (items: seq<Item>)
      requires stage < |c.plan.stages|
      modifies store
      ensures var claim := ClaimFor(old(store.View()), env, policy, id, c, stage, t);
              store.Wrote(ClaimTrace(Key(id, stage, t), claim)) && items == ClaimItems(claim)
    {
      hide ApplyAll, InStage;
      EmptyTrace(store.View());
      var k := Key(id, stage, t);
      if t !in env.inventory { return []; }
      if c.state.RollingBack? {
        if k !in store.attempts || !NeedsRollback(store.attempts[k]) { return []; }
        Claim(k, AttRollingBack);
        return [NewItem(Rollback, id, c, stage, t)];
      }
      if Staging(c) {
        if k !in store.attempts {
          if policy.maxAttempts == 0 { return []; }
          store.PutAttempt(k, Attempt(c.generation, store.incarnation, AttPreparing, false, 0, 0, 0, Version(0, 0, 0, [], false)));
          return [NewItem(Prepare, id, c, stage, t)];
        }
        if store.attempts[k].state.AttPreparing? && store.attempts[k].owner == store.incarnation {
          return [NewItem(Prepare, id, c, stage, t)];
        }
        return [];
      }
      if k !in store.attempts { return []; }
      if (c.state.Staged? || c.state.Activating?) && store.attempts[k].state.AttPrepared? {
        var limit := Min(c.plan.stages[stage].maxParallel, policy.maxConcurrent);
        var adapterLimit := if env.inventory[t].maxParallel == 0 then 1 else env.inventory[t].maxParallel;
        limit := Min(limit, adapterLimit);
        var activating := CountActivating(id, stage);
        if activating >= limit { return []; }
        Claim(k, AttActivating);
        return [NewItem(Activate, id, c, stage, t)];
      }
      if (c.state.Activating? || c.state.Verifying?) && store.attempts[k].state.AttActivated? {
        Claim(k, AttVerifying);
        return [NewItem(Verify, id, c, stage, t)];
      }
      return [];
    }

    /** The target loop: it stops as soon as the work budget is used up. */
    method ClaimTargets(env: Env, id: CampaignId, c: Campaign, todo: seq<(nat, TargetId)>, room: nat) returns (items: seq<Item>)
      requires forall x :: x in todo ==> x.0 < |c.plan.stages|
      modifies store
      ensures var b := ClaimAll(old(store.View()), env, policy, id, c, todo, room);
              store.Wrote(b.trace) && items == b.items && |items| <= room
    {
      hide ApplyAll, ClaimFor, ClaimAll, ClaimTrace;
      ghost var v0, l0 := store.View(), store.log;
      ghost var done: seq<Entry> := [];
      ghost var total := ClaimAll(v0, env, policy, id, c, todo, room);
      EmptyTrace(v0);
      items := [];
      var i := 0;
      assert todo[0..] == todo;
      while i < |todo| && |items| < room
        invariant 0 <= i <= |todo| && |items| <= room
        invariant store.View() == ApplyAll(v0, done) && store.log == l0 + done
        invariant Accumulates(total, done, items, ClaimAll(store.View(), env, policy, id, c, todo[i..], room - |items|))
        decreases |todo| - i
      {
        ghost var v1, l1 := store.View(), store.log;
        ghost var claim := ClaimFor(v1, env, policy, id, c, todo[i].0, todo[i].1);
        ghost var t := ClaimTrace(Key(id, todo[i].0, todo[i].1), claim);
        ClaimStep(v1, env, policy, id, c, todo, i, room - |items|);
        var more := ClaimTarget(env, id, c, todo[i].0, todo[i].1);
        Chain(v0, l0, done, v1, l1, t, store.View(), store.log);
        Accumulate(total, done, items, t, more,
                   ClaimAll(store.View(), env, policy, id, c, todo[i + 1..], room - |items| - |more|));
        done, items, i := done + t, items + more, i + 1;
      }
      ClaimEnd(store.View(), env, policy, id, c, todo[i..], room - |items|);
      assert done + [] == done && items + [] == items;
    }

    method RestageLocked(env: Env, id: CampaignId, c: Campaign) returns (d: Campaign)
      modifies store
      ensures var m := Restage(old(store.View()), env, id, c);
              store.Wrote(m.trace) && d == m.campaign
    {
      hide MoveTrace, GuardsOf, Permits, ApplyAll;
      EmptyTrace(store.View());
      d := c;
      if c.state.Prepared? && c.active < |c.progress| && c.progress[c.active].StagePrepared? {
        var g := GuardsLocked(env, id, c);
        var _, e := TransitionLocked(id, c, Staged, g.(stagingComplete := true));
        d := e;
      }
    }

    method AdvanceLocked(env: Env, id: CampaignId, c: Campaign) returns (d: Campaign)
      modifies store
      ensures var m := Advance(old(store.View()), env, id, c);
              store.Wrote(m.trace) && d == m.campaign
    {
      hide MoveTrace, GuardsOf, Permits, ApplyAll, MoveResult, OnlyMoved;
      ghost var v0, l0 := store.View(), store.log;
      EmptyTrace(v0);
      d := c;
      if c.state.Staged? || c.state.Activating? {
        var g := GuardsLocked(env, id, c);
        if g.activationComplete {
          if c.state.Staged? {
            var _, e := TransitionLocked(id, d, Activating, g);
            d := e;
          }
          ghost var v1, l1, c1 := store.View(), store.log, d;
          var _, f := TransitionLocked(id, d, Verifying, g);
          d := f;
          Chain(v0, l0, if c.state.Staged? then MoveTrace(id, c, Activating, g) else [], v1, l1,
                MoveTrace(id, c1, Verifying, g), store.View(), store.log);
        }
      }
    }

    /** `plan_work_locked` for one campaign, with `room` work items left in the budget. */
    method PlanCampaignLocked(env: Env, id: CampaignId, c: Campaign, room: nat) returns (items: seq<Item>)
      requires id in store.campaigns && store.campaigns[id] == c
      modifies store
      ensures var b := PlanCampaign(old(store.View()), env, policy, id, room);
              store.Wrote(b.trace) && items == b.items && |items| <= room
    {
      hide MoveTrace, GuardsOf, Permits, ApplyAll, MoveResult, Restage, Advance, ClaimAll, SkewOk, Scope;
      ghost var v0, l0 := store.View(), store.log;
      EmptyTrace(v0);
      if !Running(c.state) || c.active >= |c.plan.stages| { return []; }
      var d := RestageLocked(env, id, c);
      ghost var v1, l1 := store.View(), store.log;
      ghost var m1 := Restage(v0, env, id, c);
      ghost var m2 := Advance(v1, env, id, d);
      d := AdvanceLocked(env, id, d);
      Chain(v0, l0, m1.trace, v1, l1, m2.trace, store.View(), store.log);
      ghost var v2, l2, t := store.View(), store.log, m1.trace + m2.trace;
      assert Forwarded(v0, env, id, c) == Moves(t, d);
      if d.state.Staged? {
        var within := AssessCurrentSkew(env, id, d);
        if !within {
          HoldStage(env, id, d);
          ghost var g := GuardsOf(v2, env, id, d).(failureRecorded := true);
          Chain(v0, l0, t, v2, l2, MoveTrace(id, d, Blocked, g) + [DecisionEntry(id, Decision(DecBlock, Deny))],
                store.View(), store.log);
          assert t + (MoveTrace(id, d, Blocked, g) + [DecisionEntry(id, Decision(DecBlock, Deny))]) ==
                 t + MoveTrace(id, d, Blocked, g) + [DecisionEntry(id, Decision(DecBlock, Deny))];
          return [];
        }
      }
      items := ClaimTargets(env, id, d, Scope(d), room);
      Chain(v0, l0, t, v2, l2, ClaimAll(v2, env, policy, id, d, Scope(d), room).trace, store.View(), store.log);
    }

    method HoldStage(env: Env, id: CampaignId, c: Campaign)
      modifies store
      ensures var g := GuardsOf(old(store.View()), env, id, c).(failureRecorded := true);
              store.Wrote(MoveTrace(id, c, Blocked, g) + [DecisionEntry(id, Decision(DecBlock, Deny))])
    {
      hide MoveTrace, GuardsOf, Permits, ApplyAll, MoveResult;
      ghost var v0, l0 := store.View(), store.log;
      BlockLocked(env, id, c);
      ghost var v1, l1 := store.View(), store.log;
      store.AppendDecision(id, Decision(DecBlock, Deny));
      Chain(v0, l0, BlockTrace(v0, env, id, c), v1, l1, [DecisionEntry(id, Decision(DecBlock, Deny))], store.View(), store.log);
    }

    /** `plan_work_locked`: it works on a copy of the campaign records taken at its start, one campaign after another, until
        the budget is used up. */
    method PlanWorkLocked(env: Env, order: seq<CampaignId>, room: nat) returns (items: seq<Item>)
      requires Inv(store.View()) && Distinct(order)
      modifies store
      ensures var b := PlanWork(old(store.View()), env, policy, order, room);
              store.Wrote(b.trace) && items == b.items && |items| <= room
      ensures Inv(store.View())
    {
      hide ApplyAll, PlanCampaign, PlanWork, Inv, AllowedAll;
      ghost var v0, l0 := store.View(), store.log;
      ghost var done: seq<Entry> := [];
      ghost var total := PlanWork(v0, env, policy, order, room);
      EmptyTrace(v0);
      var copies := store.campaigns;
      items := [];
      var i := 0;
      assert order[0..] == order;
      while i < |order| && |items| < room
        invariant 0 <= i <= |order| && |items| <= room
        invariant store.View() == ApplyAll(v0, done) && store.log == l0 + done && Inv(store.View())
        invariant forall j :: i <= j < |order| ==> SameRecord(store.View(), v0, order[j])
        invariant Accumulates(total, done, items, PlanWork(store.View(), env, policy, order[i..], room - |items|))
        decreases |order| - i
      {
        ghost var v1, l1 := store.View(), store.log;
        PlanStep(v1, env, policy, order, i, room - |items|);
        var id := order[i];
        assert SameRecord(v1, v0, id);
        ghost var t: seq<Entry> := [];
        var more: seq<Item> := [];
        EmptyTrace(v1);
        if id in copies {
          t := PlanCampaign(v1, env, policy, id, room - |items|).trace;
          PlanCampaignGood(v1, env, policy, id, room - |items|);
          PlanCampaignAllowed(v1, env, policy, id, room - |items|);
          more := PlanCampaignLocked(env, id, copies[id], room - |items|);
          AllowedAllKeepsInv(v1, t);
          LocalRecords(v1, store.View(), id);
        }
        Chain(v0, l0, done, v1, l1, t, store.View(), store.log);
        Accumulate(total, done, items, t, more,
                   PlanWork(store.View(), env, policy, order[i + 1..], room - |items| - |more|));
        done, items, i := done + t, items + more, i + 1;
      }
      PlanEnd(store.View(), env, policy, order[i..], room - |items|);
      assert done + [] == done && items + [] == items;
    }

    // ---- create, preflight --------------------------------------------------------------------------------------

    method CreateCampaign(id: CampaignId, artifact: Artifact, plan: Plan, acknowledge: bool) returns (created: bool)
      modifies store
      ensures store.Wrote(CreateTrace(old(store.View()), id, artifact, plan, acknowledge))
      ensures created <==> id !in old(store.campaigns)
    {
      hide ApplyAll;
      EmptyTrace(store.View());
      if id in store.campaigns { return false; }
      RecordMove(id, NewCampaign(store.View(), artifact, plan, acknowledge),
                 Decision(DecPlan, if plan.executable then Allow else Deny));
      return true;
    }

    /** The commit section of `preflight`. A transition that is refused ends it early. */
    method CommitPreflight(env: Env, id: CampaignId, passed: bool, integrity: bool, ticket: Ticket)
      modifies store
      ensures store.Wrote(PreflightTrace(old(store.View()), env, id, passed, integrity, ticket))
    {
      hide MoveTrace, GuardsOf, Permits, ApplyAll, MoveResult;
      ghost var v0, l0 := store.View(), store.log;
      EmptyTrace(v0);
      if id !in store.campaigns { return; }
      var c1 := store.campaigns[id].(ticket := if passed then ticket else NoTicket);
      var g := GuardsLocked(env, id, c1);
      store.PutCampaign(id, c1);
      ApplyOne(v0, CampaignEntry(id, c1));
      ghost var v1, l1 := store.View(), store.log;
      var move, to;
      if passed {
        g := g.(preflightCurrent := true, integrityVerified := integrity);
        move, to := c1.state.Proposed? || c1.state.Blocked? || c1.state.Paused?, Validated;
      } else {
        g := GuardsLocked(env, id, c1);
        g := g.(failureRecorded := true);
        move, to := c1.state.Proposed?, Blocked;
      }
      var ok := true;
      EmptyTrace(v1);
      if move { var allowed, _ := TransitionLocked(id, c1, to, g); ok := allowed; }
      ghost var m := if move then MoveTrace(id, c1, to, g) else [];
      Chain(v0, l0, [CampaignEntry(id, c1)], v1, l1, m, store.View(), store.log);
      ghost var v2, l2 := store.View(), store.log;
      BlockedFromProposed(c1.state, g);
      assert [CampaignEntry(id, c1)] + m + [] == [CampaignEntry(id, c1)] + m;
      if !ok { return; }
      store.AppendDecision(id, Decision(DecPreflight, if passed then Allow else Deny));
      Chain(v0, l0, [CampaignEntry(id, c1)] + m, v2, l2,
            [DecisionEntry(id, Decision(DecPreflight, if passed then Allow else Deny))], store.View(), store.log);
    }

    // ---- start, resume ------------------------------------------------------------------------------------------

    /** The optional move to validated and the move to prepared that `start` and `resume` end with; a refused move ends
        the section. */
    method ReleaseLocked(id: CampaignId, c: Campaign, g: Guards, always: bool) returns (ok: bool)
      modifies store
      ensures var m1 := if c.state.Paused? || c.state.Blocked? then MoveTo(id, c, Validated, g) else Moves([], c);
              var m2 := Release(id, m1.campaign, g, always);
              store.Wrote(m1.trace + m2.trace) &&
              (ok <==> (m1.campaign.state.Validated? || !(c.state.Paused? || c.state.Blocked?)) &&
                       (m1.campaign.state.Validated? || always ==> Permits(m1.campaign.state, Prepared, g)))
    {
      hide MoveTrace, ApplyAll, Permits, OnlyMoved;
      ghost var v0, l0 := store.View(), store.log;
      EmptyTrace(v0);
      var d := c;
      ok := true;
      if c.state.Paused? || c.state.Blocked? {
        var allowed, e := TransitionLocked(id, c, Validated, g);
        ok, d := allowed, e;
      }
      ghost var t1 := if c.state.Paused? || c.state.Blocked? then MoveTrace(id, c, Validated, g) else [];
      ghost var v1, l1 := store.View(), store.log;
      EmptyTrace(v1);
      assert t1 + [] == t1;
      if !ok { return; }
      if d.state.Validated? || always {
        var allowed, _ := TransitionLocked(id, d, Prepared, g);
        ok := allowed;
        Chain(v0, l0, t1, v1, l1, MoveTrace(id, d, Prepared, g), store.View(), store.log);
      }
    }

    /** The refusals of `start`. */
    method StartRefused(env: Env, id: CampaignId, allowIrreversible: bool) returns (refused: bool)
      ensures refused <==> !StartAdmits(store.View(), env, id, allowIrreversible)
    {
      hide TicketCurrent;
      if id !in store.campaigns { return true; }
      var c := store.campaigns[id];
      if Terminal(c.state) { return true; }
      if Active(c.state) { return true; }
      if !c.plan.executable { return true; }
      if !TicketCurrent(store.View(), env, c) { return true; }
      if c.plan.irreversible && !c.acknowledged && !allowIrreversible { return true; }
      return c.state.Proposed?;
    }

    /** `start` up to the point where the executor takes over. */
    method StartLocked(env: Env, id: CampaignId, allowIrreversible: bool) returns (admitted: bool)
      modifies store
      ensures store.Wrote(StartTrace(old(store.View()), env, id, allowIrreversible))
      ensures admitted <==> StartAdmits(old(store.View()), env, id, allowIrreversible)
    {
      hide GuardsOf, ApplyAll, AdaptersRollBack, StartAdmits, StartTrace;
      EmptyTrace(store.View());
      ghost var v0 := store.View();
      var refused := StartRefused(env, id, allowIrreversible);
      if refused {
        StartNothing(v0, env, id, allowIrreversible);
        return false;
      }
      StartHas(v0, env, id, allowIrreversible);
      var c := store.campaigns[id];
      var _, rollsBack := AdapterFlags(env, c);
      var d := c.(rollbackEligible := c.artifact.reversible && rollsBack, rollbackRecorded := true,
                  acknowledged := c.acknowledged || allowIrreversible);
      var g := GuardsLocked(env, id, d);
      d := d.(generation := Next(c.generation), ticket := c.ticket.(generation := Next(c.generation)));
      StartIs(v0, env, id, allowIrreversible);
      AdmitLocked(id, d, g.(rollbackPlanRecorded := true));
      return true;
    }

    /** The writes of an admitted start: the record, the decision, and the moves that release the campaign. */
    method AdmitLocked(id: CampaignId, d: Campaign, g: Guards)
      modifies store
      ensures store.Wrote(AdmitTrace(id, d, g))
    {
      hide MoveTo, ApplyAll, Release;
      ghost var v0, l0 := store.View(), store.log;
      RecordMove(id, d, Decision(DecAdmit, Allow));
      ghost var v1, l1 := store.View(), store.log;
      ghost var m1 := if d.state.Paused? || d.state.Blocked? then MoveTo(id, d, Validated, g) else Moves([], d);
      ghost var m2 := Release(id, m1.campaign, g, false);
      ghost var first := [CampaignEntry(id, d), DecisionEntry(id, Decision(DecAdmit, Allow))];
      var _ := ReleaseLocked(id, d, g, false);
      Chain(v0, l0, first, v1, l1, m1.trace + m2.trace, store.View(), store.log);
      assert first + m1.trace + m2.trace == first + (m1.trace + m2.trace);
    }

    method ResumeLocked(env: Env, id: CampaignId)
      modifies store
      ensures store.Wrote(ResumeTrace(old(store.View()), env, id))
    {
      hide MoveTo, GuardsOf, Permits, ApplyAll, TicketCurrent, Release;
      ghost var v0, l0 := store.View(), store.log;
      EmptyTrace(v0);
      if id !in store.campaigns { return; }
      var c := store.campaigns[id];
      if !c.state.Paused? && !c.state.Blocked? && !c.state.Validated? && !c.state.Prepared? { return; }
      if !TicketCurrent(store.View(), env, c) { return; }
      var g := GuardsLocked(env, id, c);
      g := g.(manualRelease := true);
      ghost var m1 := if c.state.Paused? || c.state.Blocked? then MoveTo(id, c, Validated, g) else Moves([], c);
      ghost var m2 := Release(id, m1.campaign, g, true);
      var ok := ReleaseLocked(id, c, g, true);
      ReleasedIff(id, c, g);
      ghost var v1, l1 := store.View(), store.log;
      assert m1.trace + m2.trace + [] == m1.trace + m2.trace;
      if !ok { return; }
      store.AppendDecision(id, Decision(DecResume, Allow));
      Chain(v0, l0, m1.trace + m2.trace, v1, l1, [DecisionEntry(id, Decision(DecResume, Allow))], store.View(), store.log);
    }

    // ---- pause, abort -------------------------------------------------------------------------------------------

    /** `attempts_for` and `attempts`: every attempt once, in some order. */
    method ListAttempts() returns (order: seq<Key>)
      ensures Lists(order, store.attempts.Keys)
    {
      order := [];
      var rest := store.attempts.Keys;
      while rest != {}
        invariant rest <= store.attempts.Keys
        invariant forall k :: k in order <==> k in store.attempts && k !in rest
        invariant forall i, j :: 0 <= i < j < |order| ==> order[i] != order[j]
        decreases |rest|
      {
        var k :| k in rest;
        rest := rest - {k};
        order := order + [k];
      }
    }

    method ListCampaigns() returns (order: seq<CampaignId>)
      ensures Lists(order, store.campaigns.Keys)
    {
      order := [];
      var rest := store.campaigns.Keys;
      while rest != {}
        invariant rest <= store.campaigns.Keys
        invariant forall k :: k in order <==> k in store.campaigns && k !in rest
        invariant forall i, j :: 0 <= i < j < |order| ==> order[i] != order[j]
        decreases |rest|
      {
        var k :| k in rest;
        rest := rest - {k};
        order := order + [k];
      }
    }

    method RetireAttempts(id: CampaignId, order: seq<Key>, to: AttemptState)
      modifies store
      ensures store.Wrote(RetireAll(old(store.View()), id, order, to))
    {
      hide ApplyAll, RetireAll, RetireOne;
      ghost var v0, l0 := store.View(), store.log;
      ghost var done: seq<Entry> := [];
      ghost var total := RetireAll(v0, id, order, to);
      EmptyTrace(v0);
      assert order[0..] == order;
      for i := 0 to |order|
        invariant store.View() == ApplyAll(v0, done) && store.log == l0 + done
        invariant Continues(total, done, RetireAll(store.View(), id, order[i..], to))
      {
        ghost var v1, l1 := store.View(), store.log;
        ghost var t := if order[i] in v1.attempts && order[i].campaign == id then RetireOne(v1, order[i], to) else [];
        EmptyTrace(v1);
        RetireStep(v1, id, order, i, to);
        if order[i] in store.attempts && order[i].campaign == id { RetireAttempt(order[i], to); }
        Chain(v0, l0, done, v1, l1, t, store.View(), store.log);
        Continue(total, done, t, RetireAll(store.View(), id, order[i + 1..], to));
        done := done + t;
      }
      RetireEnd(store.View(), id, order[|order|..], to);
      assert done + [] == done;
    }

    method RetireAttempt(k: Key, to: AttemptState)
      requires k in store.attempts
      modifies store
      ensures store.Wrote(RetireOne(old(store.View()), k, to))
    {
      hide ApplyAll;
      EmptyTrace(store.View());
      var a := store.attempts[k];
      if InFlight(a.state) { store.PutAttempt(k, a.(state := to)); }
    }

    method PauseLocked(env: Env, id: CampaignId) returns (order: seq<Key>)
      modifies store
      ensures Lists(order, old(store.attempts).Keys)
      ensures store.Wrote(PauseTrace(old(store.View()), env, id, order))
    {
      hide MoveTrace, GuardsOf, ApplyAll, RetireAll, Permits, MoveResult;
      ghost var v0, l0 := store.View(), store.log;
      EmptyTrace(v0);
      order := ListAttempts();
      if id !in store.campaigns { return; }
      var c := store.campaigns[id];
      if c.state.Paused? || !PermitsPause(c.state) { return; }
      var g := GuardsLocked(env, id, c);
      g := g.(manualRelease := true);
      var _, _ := TransitionLocked(id, c, Paused, g);
      ghost var v1, l1, t := store.View(), store.log, MoveTrace(id, c, Paused, g);
      RetireAttempts(id, order, AttAbandoned);
      ghost var v2, l2, u := store.View(), store.log, RetireAll(v1, id, order, AttAbandoned);
      store.AppendDecision(id, Decision(DecPause, Allow));
      ghost var d := [DecisionEntry(id, Decision(DecPause, Allow))];
      Chain(v0, l0, t, v1, l1, u, v2, l2);
      Chain(v0, l0, t + u, v2, l2, d, store.View(), store.log);
    }

    method AbortLocked(env: Env, id: CampaignId) returns (order: seq<Key>)
      modifies store
      ensures Lists(order, old(store.attempts).Keys)
      ensures store.Wrote(AbortTrace(old(store.View()), env, id, order))
    {
      hide MoveTrace, GuardsOf, ApplyAll, RetireAll, Permits, MoveResult;
      ghost var v0, l0 := store.View(), store.log;
      EmptyTrace(v0);
      order := ListAttempts();
      if id !in store.campaigns || Terminal(store.campaigns[id].state) { return; }
      var c := store.campaigns[id];
      RetireAttempts(id, order, AttAborted);
      ghost var v1, l1, t := store.View(), store.log, RetireAll(v0, id, order, AttAborted);
      c := c.(failureRecorded := true);
      var g := GuardsLocked(env, id, c);
      g := g.(failureRecorded := true);
      var to := if c.state.Proposed? then Blocked else Failed;
      var ok, _ := TransitionLocked(id, c, to, g);
      ghost var v2, l2, u := store.View(), store.log, MoveTrace(id, c, to, g);
      Chain(v0, l0, t, v1, l1, u, v2, l2);
      EmptyTrace(v2);
      ghost var d := if ok then [DecisionEntry(id, Decision(DecAbort, Allow))] else [];
      if ok { store.AppendDecision(id, Decision(DecAbort, Allow)); }
      Chain(v0, l0, t + u, v2, l2, d, store.View(), store.log);
    }

    // ---- rollback -----------------------------------------------------------------------------------------------

    /** What `rollback` reads off the attempts. */
    method TouchedFlags(id: CampaignId, c: Campaign) returns (touched: bool, handedOver: bool)
      ensures touched <==> HasTouched(store.View(), id)
      ensures handedOver <==> HandedOver(store.View(), id, c)
    {
      touched, handedOver := false, false;
      var rest := store.attempts.Keys;
      while rest != {}
        invariant rest <= store.attempts.Keys
        invariant touched <==> exists k :: k in store.attempts && k !in rest && k.campaign == id && Touched(store.attempts[k])
        invariant handedOver <==>
          c.plan.strategy.GenerationHandoff? &&
          exists k :: k in store.attempts && k !in rest && k.campaign == id && store.attempts[k].state.AttVerified?
        decreases |rest|
      {
        var k :| k in rest;
        rest := rest - {k};
        if k.campaign == id {
          if Touched(store.attempts[k]) { touched := true; }
          if c.plan.strategy.GenerationHandoff? && store.attempts[k].state.AttVerified? { handedOver := true; }
        }
      }
    }

    method RollbackLocked(env: Env, id: CampaignId, execute: bool)
      modifies store
      ensures store.Wrote(RollbackTrace(old(store.View()), env, id, execute))
    {
      hide MoveTrace, GuardsOf, ApplyAll, Permits, MoveResult, HasTouched, HandedOver, AdaptersRollBack;
      ghost var v0, l0 := store.View(), store.log;
      EmptyTrace(v0);
      if id !in store.campaigns || store.campaigns[id].state.RolledBack? { return; }
      var c := store.campaigns[id];
      var touched, handedOver := TouchedFlags(id, c);
      if (touched && !c.artifact.reversible) || handedOver {
        store.AppendDecision(id, Decision(DecRollback, Deny));
        return;
      }
      if !c.artifact.reversible { return; }
      var _, rollsBack := AdapterFlags(env, c);
      if !rollsBack { return; }
      if !touched { return; }
      var g := GuardsLocked(env, id, c);
      g := g.(rollbackEligible := true, failureRecorded := true);
      if c.state.Proposed? { return; }
      RollbackMoves(id, c, g, execute);
    }

    method RollbackMoves(id: CampaignId, c: Campaign, g: Guards, execute: bool)
      requires g.rollbackEligible && g.failureRecorded
      modifies store
      ensures !Permits(c.state, Failed, g) ==> store.Wrote(MoveTrace(id, c, Failed, g))
      ensures var m1 := MoveTo(id, c, Failed, g);
              var m2 := MoveTo(id, m1.campaign, RollbackPlanned, g);
              var m3 := if execute then MoveTo(id, m2.campaign, RollingBack, g) else Moves([], m2.campaign);
              Permits(c.state, Failed, g) ==>
                store.Wrote(m1.trace + m2.trace + m3.trace + [DecisionEntry(id, Decision(DecRollback, Allow))])
    {
      hide MoveTrace, ApplyAll, Permits, MoveResult;
      ghost var v0, l0 := store.View(), store.log;
      var ok, d := TransitionLocked(id, c, Failed, g);
      if !ok { return; }
      ghost var v1, l1, t1 := store.View(), store.log, MoveTrace(id, c, Failed, g);
      var _, e := TransitionLocked(id, d, RollbackPlanned, g);
      ghost var v2, l2, t2 := store.View(), store.log, MoveTrace(id, d, RollbackPlanned, g);
      Chain(v0, l0, t1, v1, l1, t2, v2, l2);
      EmptyTrace(v2);
      if execute { var _, _ := TransitionLocked(id, e, RollingBack, g); }
      ghost var v3, l3, t3 := store.View(), store.log, if execute then MoveTrace(id, e, RollingBack, g) else [];
      Chain(v0, l0, t1 + t2, v2, l2, t3, v3, l3);
      store.AppendDecision(id, Decision(DecRollback, Allow));
      Chain(v0, l0, t1 + t2 + t3, v3, l3, [DecisionEntry(id, Decision(DecRollback, Allow))], store.View(), store.log);
    }

    // ---- reconciliation -----------------------------------------------------------------------------------------

    /** `plan_reconciliation`: it only looks at the records. */
    method PlanReconciliation(env: Env, attempts: seq<Key>, campaigns: seq<CampaignId>) returns (actions: seq<Action>)
      ensures actions == AttemptActions(store.View(), attempts) + CampaignActions(store.View(), env, campaigns)
    {
      hide ActionsForAttempt, ActionsForCampaign;
      ghost var st := store.View();
      actions := [];
      assert attempts[0..] == attempts && [] + AttemptActions(st, attempts) == AttemptActions(st, attempts);
      for i := 0 to |attempts|
        invariant AttemptActions(st, attempts) == actions + AttemptActions(st, attempts[i..])
      {
        AttemptRound(st, attempts, i, actions);
        actions := actions + ActionsForAttempt(store.View(), attempts[i]);
      }
      assert actions + [] == actions;
      ghost var first := actions;
      assert campaigns[0..] == campaigns;
      for i := 0 to |campaigns|
        invariant first + CampaignActions(st, env, campaigns) == actions + CampaignActions(st, env, campaigns[i..])
      {
        CampaignRound(st, env, campaigns, i, actions);
        actions := actions + ActionsForCampaign(store.View(), env, campaigns[i]);
      }
      assert actions + [] == actions;
    }

    method PerformAction(env: Env, a: Action) returns (ok: bool)
      modifies store
      ensures var r := Perform(old(store.View()), env, a);
              store.Wrote(r.0) && ok == r.1
    {
      hide MoveTrace, GuardsOf, ApplyAll, Permits, MoveResult;
      EmptyTrace(store.View());
      match a {
        case AbandonAttempt(k) =>
          if k in store.attempts { store.PutAttempt(k, store.attempts[k].(state := AttAbandoned)); }
          return true;
        case BlockCampaign(id) =>
          if id !in store.campaigns { return true; }
          var c := store.campaigns[id];
          var g := GuardsLocked(env, id, c);
          var allowed, _ := TransitionLocked(id, c.(failureRecorded := true), Blocked, g.(failureRecorded := true));
          return allowed;
        case InvalidateTicket(id) =>
          if id in store.campaigns {
            RecordMove(id, store.campaigns[id].(ticket := NoTicket), Decision(DecReconcile, Deny));
          }
          return true;
      }
    }

    /** `apply_reconciliation`: it stops at the first action that does not go through. */
    method ApplyReconciliation(env: Env, actions: seq<Action>) returns (ok: bool)
      modifies store
      ensures var r := PerformAll(old(store.View()), env, actions);
              store.Wrote(r.0) && ok == r.1
    {
      hide Perform, ApplyAll, PerformAll;
      ghost var v0, l0 := store.View(), store.log;
      ghost var done: seq<Entry> := [];
      EmptyTrace(v0);
      assert actions[0..] == actions;
      ghost var total := PerformAll(v0, env, actions);
      assert [] + total.0 == total.0;
      for i := 0 to |actions|
        invariant store.View() == ApplyAll(v0, done) && store.log == l0 + done
        invariant total == (done + PerformAll(store.View(), env, actions[i..]).0, PerformAll(store.View(), env, actions[i..]).1)
      {
        ghost var v1, l1 := store.View(), store.log;
        ghost var t := Perform(v1, env, actions[i]).0;
        PerformRound(v1, env, actions, i, done);
        var through := PerformAction(env, actions[i]);
        Chain(v0, l0, done, v1, l1, t, store.View(), store.log);
        done := done + t;
        if !through { return false; }
      }
      NothingPerformed(store.View(), env);
      assert actions[|actions|..] == [] && done + [] == done;
      return true;
    }

    // ---- the inline driver --------------------------------------------------------------------------------------

    /** The items of a pass, executed and committed in order. */
    method ExecuteAll(items: seq<Item>, answers: seq<(Env, Report)>)
      requires |items| <= |answers|
      modifies store
      ensures store.View() == CommitEach(old(store.View()), policy, items, answers)
    {
      hide ApplyAll, CommitTrace;
      ghost var v0 := store.View();
      assert items[0..] == items && answers[0..] == answers;
      for i := 0 to |items|
        invariant CommitEach(v0, policy, items, answers) == CommitEach(store.View(), policy, items[i..], answers[i..])
      {
        assert items[i..][1..] == items[i + 1..] && answers[i..][1..] == answers[i + 1..];
        CommitItem(answers[i].0, items[i], answers[i].1);
      }
    }

    /** `run_steps_bounded` without worker threads: busy passes one after another, until a pass finds nothing to do or the passes
        are used up. Another pass like the idle one would find nothing either. Unless an attempt is stuck in preparation, there
        are no more busy passes than the measure of the store it starts from. */
    method RunSteps(passes: seq<PassInput>, ghost ids: seq<CampaignId>) returns (idle: bool, busy: nat)
      requires Inv(store.View()) && Lists(ids, store.campaigns.Keys)
      requires forall p :: p in passes ==> Distinct(p.order) && p.room <= |p.answers|
      modifies store
      ensures Inv(store.View())
      ensures busy <= |passes| && (idle <==> busy < |passes|) && AllBusy(old(store.View()), policy, passes[..busy])
      ensures var before := Driven(old(store.View()), policy, passes[..busy]);
              if idle then FoundNothing(before, store.View(), policy, passes[busy]) &&
                           Planning(store.View(), policy, passes[busy]).items == []
              else store.View() == before
      ensures NoneStuck(old(store.View())) ==> busy <= Total(old(store.View()), policy.maxRetries, ids)
    {
      hide Inv, NoneStuck, ApplyAll, PlanWork, Total, CommitEach, Lists, Distinct, AllBusy, Driven;
      ghost var v0 := store.View();
      NoPasses(v0, policy);
      busy := 0;
      while busy < |passes|
        invariant busy <= |passes| && Inv(store.View())
        invariant AllBusy(v0, policy, passes[..busy]) && store.View() == Driven(v0, policy, passes[..busy])
      {
        var p := passes[busy];
        ghost var v := store.View();
        var items := PlanWorkLocked(p.env, p.order, p.room);
        PassSound(v, policy, p);
        if items == [] {
          NothingPlanned(v, p.env, policy, p.order, p.room);
          IdleStaysIdle(v, store.View(), policy, p);
          break;
        }
        ExecuteAll(items, p.answers);
        BusyAgain(v0, policy, passes[..busy], p);
        assert passes[..busy] + [p] == passes[..busy + 1];
        busy := busy + 1;
      }
      idle := busy < |passes|;
      BusyBound(v0, policy, passes[..busy], ids);
    }
  }

  /** The store of an opening engine: replay, a new incarnation, a new epoch. */
  method OpenStore(records: seq<Entry>, config: Config) returns (store: DurableStore)
    ensures fresh(store)
    ensures var st := Recovered(records, config);
            store.log == records + [BootEntry(st.incarnation + 1), EpochEntry(st.epoch + 1)] && store.View() == Booted(st)
  {
    hide ApplyAll, Replay, ScanEpoch;
    ghost var st := Recovered(records, config);
    RecoveredIncarnation(records, config);
    store := new DurableStore(records, config);
    ApplyOne(store.View(), EpochEntry(st.epoch + 1));
    var _ := store.SetEpoch(store.epoch + 1);
  }

  /** `Engine::open` over the records of a journal: the store, then reconciliation. The engine opens only if reconciliation
      goes through. */
  method OpenEngine(records: seq<Entry>, config: Config, policy: Policy, env: Env)
    returns (engine: Engine, success: bool, attempts: seq<Key>, campaigns: seq<CampaignId>)
    ensures engine.policy == policy && fresh(engine.store)
    ensures var st := Recovered(records, config);
            Lists(attempts, st.attempts.Keys) && Lists(campaigns, st.campaigns.Keys) &&
            engine.store.log == records + OpenTrace(st, env, attempts, campaigns).0 &&
            engine.store.View() == ApplyAll(st, OpenTrace(st, env, attempts, campaigns).0) &&
            success == OpenTrace(st, env, attempts, campaigns).1
  {
    hide ApplyAll, AbandonAll, ReconcileAll, Recovered, PerformAll, AttemptActions, CampaignActions, Lists;
    ghost var st := Recovered(records, config);
    var store := OpenStore(records, config);
    engine := new Engine(store, policy);
    ghost var v, l := store.View(), store.log;
    attempts := engine.ListAttempts();
    campaigns := engine.ListCampaigns();
    var actions := engine.PlanReconciliation(env, attempts, campaigns);
    success := engine.ApplyReconciliation(env, actions);
    OpeningPerformed(st, records, l, env, attempts, campaigns);
  }

  // ---- facts the loops need -----------------------------------------------------------------------------------

  lemma EmptyTrace(st: StoreState)
    ensures ApplyAll(st, []) == st
  {
  }

  /** Two runs of entries, one after the other. */
  lemma Chain(v0: StoreState, l0: seq<Entry>, t1: seq<Entry>, v1: StoreState, l1: seq<Entry>, t2: seq<Entry>,
              v2: StoreState, l2: seq<Entry>)
    requires v1 == ApplyAll(v0, t1) && l1 == l0 + t1 && v2 == ApplyAll(v1, t2) && l2 == l1 + t2
    ensures v2 == ApplyAll(v0, t1 + t2) && l2 == l0 + (t1 + t2)
  {
    ApplyAllAppend(v0, t1, t2);
  }

  lemma ChainTwo(v0: StoreState, l0: seq<Entry>, a: Entry, b: Entry, v2: StoreState, l2: seq<Entry>, t: seq<Entry>,
                 v3: StoreState, l3: seq<Entry>)
    requires v2 == Apply(Apply(v0, a), b) && l2 == l0 + [a] + [b] && v3 == ApplyAll(v2, t) && l3 == l2 + t
    ensures v3 == ApplyAll(v0, [a] + ([b] + t)) && l3 == l0 + ([a] + ([b] + t))
  {
    hide Apply;
    ApplyCons(v0, a, [b] + t);
    ApplyCons(Apply(v0, a), b, t);
  }

  lemma NoFence(st: StoreState, item: Item)
    requires KeyOf(item) !in st.attempts || item.campaign !in st.campaigns
    ensures !FenceOk(st, item)
  {
  }

  /** The writes of an opening, performed as planned, are those of its specification. */
  lemma OpeningPerformed(st: StoreState, records: seq<Entry>, log: seq<Entry>, env: Env, attempts: seq<Key>,
                         campaigns: seq<CampaignId>)
    requires log == records + [BootEntry(st.incarnation + 1), EpochEntry(st.epoch + 1)]
    requires Lists(attempts, Booted(st).attempts.Keys) && Lists(campaigns, Booted(st).campaigns.Keys)
    ensures var v := Booted(st);
            var r := PerformAll(v, env, AttemptActions(v, attempts) + CampaignActions(v, env, campaigns));
            var (t, ok) := OpenTrace(st, env, attempts, campaigns);
            log + r.0 == records + t && ApplyAll(v, r.0) == ApplyAll(st, t) && r.1 == ok
  {
    hide ApplyAll, AbandonAll, ReconcileAll, PerformAll, AttemptActions, CampaignActions, Lists, Booted;
    var v := Booted(st);
    PlannedReconciliation(v, env, attempts, campaigns);
    BootEffect(st);
    var t := AbandonAll(v, attempts);
    var u := ReconcileAll(ApplyAll(v, t), env, campaigns).0;
    var first := [BootEntry(st.incarnation + 1), EpochEntry(st.epoch + 1)];
    Chain(st, records, first, v, log, t + u, ApplyAll(v, t + u), log + (t + u));
    assert first + t + u == first + (t + u);
  }

  lemma NoPasses(st: StoreState, pol: Policy)
    ensures AllBusy(st, pol, []) && Driven(st, pol, []) == st
  {
  }

  lemma BusyBound(st: StoreState, pol: Policy, passes: seq<PassInput>, ids: seq<CampaignId>)
    requires Inv(st) && Lists(ids, st.campaigns.Keys) && AllBusy(st, pol, passes)
    ensures NoneStuck(st) ==> |passes| <= Total(st, pol.maxRetries, ids)
  {
    hide Inv, NoneStuck, AllBusy, Total, Lists;
    if NoneStuck(st) { DriverGoesIdle(st, pol, passes, ids); }
  }

  /** Moving a proposed campaign to blocked, with the failure noted, is never refused. */
  lemma BlockedFromProposed(s: UpgradeState, g: Guards)
    ensures s.Proposed? && g.failureRecorded ==> Permits(s, Blocked, g)
  {
  }

  function AdmitTrace(id: CampaignId, d: Campaign, g: Guards): seq<Entry> {
    var m1 := if d.state.Paused? || d.state.Blocked? then MoveTo(id, d, Validated, g) else Moves([], d);
    var m2 := Release(id, m1.campaign, g, false);
    [CampaignEntry(id, d), DecisionEntry(id, Decision(DecAdmit, Allow))] + m1.trace + m2.trace
  }

  lemma StartNothing(st: StoreState, env: Env, id: CampaignId, allow: bool)
    requires !StartAdmits(st, env, id, allow)
    ensures StartTrace(st, env, id, allow) == []
  {
  }

  lemma StartHas(st: StoreState, env: Env, id: CampaignId, allow: bool)
    requires StartAdmits(st, env, id, allow)
    ensures id in st.campaigns && st.campaigns[id].ticket.Ticket?
  {
  }

  lemma StartIs(st: StoreState, env: Env, id: CampaignId, allow: bool)
    requires StartAdmits(st, env, id, allow)
    ensures id in st.campaigns && st.campaigns[id].ticket.Ticket?
    ensures var c := st.campaigns[id];
            var d := StartedRecord(env, c, allow);
            var g := GuardsOf(st, env, id, d.(generation := c.generation, ticket := c.ticket));
            StartTrace(st, env, id, allow) == AdmitTrace(id, d, g.(rollbackPlanRecorded := true))
  {
    hide GuardsOf, MoveTo, Release, AdaptersRollBack;
  }

  /** `resume` gets through to prepared exactly when the last move is permitted. */
  lemma ReleasedIff(id: CampaignId, c: Campaign, g: Guards)
    requires c.state.Paused? || c.state.Blocked? || c.state.Validated? || c.state.Prepared?
    ensures var m1 := if c.state.Paused? || c.state.Blocked? then MoveTo(id, c, Validated, g) else Moves([], c);
            Permits(m1.campaign.state, Prepared, g) <==>
            (m1.campaign.state.Validated? || !(c.state.Paused? || c.state.Blocked?)) && Permits(m1.campaign.state, Prepared, g)
  {
    hide MoveTrace;
  }

  /** One round of the loop that retires attempts. */
  lemma RetireStep(st: StoreState, id: CampaignId, order: seq<Key>, i: nat, to: AttemptState)
    requires i < |order|
    ensures var t := if order[i] in st.attempts && order[i].campaign == id then RetireOne(st, order[i], to) else [];
            RetireAll(st, id, order[i..], to) == t + RetireAll(ApplyAll(st, t), id, order[i + 1..], to)
  {
    hide ApplyAll, RetireOne;
    assert order[i..][1..] == order[i + 1..];
  }

  lemma RetireEnd(st: StoreState, id: CampaignId, order: seq<Key>, to: AttemptState)
    requires order == []
    ensures RetireAll(st, id, order, to) == []
  {
  }

  /** A trace is what was written so far followed by the rest. */
  predicate Continues(total: seq<Entry>, done: seq<Entry>, rest: seq<Entry>) { total == done + rest }

  lemma Continue(total: seq<Entry>, done: seq<Entry>, t: seq<Entry>, rest: seq<Entry>)
    requires Continues(total, done, t + rest)
    ensures Continues(total, done + t, rest)
  {
    assert done + (t + rest) == done + t + rest;
  }

  lemma AttemptRound(st: StoreState, order: seq<Key>, i: nat, done: seq<Action>)
    requires i < |order| && AttemptActions(st, order) == done + AttemptActions(st, order[i..])
    ensures AttemptActions(st, order) == done + ActionsForAttempt(st, order[i]) + AttemptActions(st, order[i + 1..])
  {
    hide ActionsForAttempt;
    assert order[i..][1..] == order[i + 1..];
    assert done + (ActionsForAttempt(st, order[i]) + AttemptActions(st, order[i + 1..])) ==
           done + ActionsForAttempt(st, order[i]) + AttemptActions(st, order[i + 1..]);
  }

  lemma CampaignRound(st: StoreState, env: Env, order: seq<CampaignId>, i: nat, done: seq<Action>)
    requires i < |order|
    ensures done + CampaignActions(st, env, order[i..]) ==
            done + ActionsForCampaign(st, env, order[i]) + CampaignActions(st, env, order[i + 1..])
  {
    hide ActionsForCampaign;
    assert order[i..][1..] == order[i + 1..];
    assert done + (ActionsForCampaign(st, env, order[i]) + CampaignActions(st, env, order[i + 1..])) ==
           done + ActionsForCampaign(st, env, order[i]) + CampaignActions(st, env, order[i + 1..]);
  }

  lemma PerformRound(st: StoreState, env: Env, actions: seq<Action>, i: nat, done: seq<Entry>)
    requires i < |actions|
    ensures var (t, ok) := Perform(st, env, actions[i]);
            var (u, through) := PerformAll(ApplyAll(st, t), env, actions[i + 1..]);
            var r := PerformAll(st, env, actions[i..]);
            (ok ==> done + r.0 == done + t + u && r.1 == through) && (!ok ==> r == (t, false))
  {
    hide Perform, ApplyAll;
    assert actions[i..][1..] == actions[i + 1..];
    var (t, ok) := Perform(st, env, actions[i]);
    var u := PerformAll(ApplyAll(st, t), env, actions[i + 1..]).0;
    assert done + (t + u) == done + t + u;
  }

  lemma RecoveredIncarnation(records: seq<Entry>, config: Config)
    ensures Recovered(records, config).incarnation == Replay(records, config).incarnation
  {
    hide Replay, ScanEpoch;
  }

  /** A batch is what has been gathered so far followed by the rest. */
  predicate Accumulates(total: Batch, done: seq<Entry>, items: seq<Item>, rest: Batch) {
    total == Batch(done + rest.trace, items + rest.items)
  }

  lemma Accumulate(total: Batch, done: seq<Entry>, items: seq<Item>, t: seq<Entry>, more: seq<Item>, rest: Batch)
    requires Accumulates(total, done, items, Batch(t + rest.trace, more + rest.items))
    ensures Accumulates(total, done + t, items + more, rest)
  {
    assert done + (t + rest.trace) == done + t + rest.trace;
    assert items + (more + rest.items) == items + more + rest.items;
  }

  lemma ClaimEnd(st: StoreState, env: Env, pol: Policy, id: CampaignId, c: Campaign, todo: seq<(nat, TargetId)>, room: nat)
    requires todo == [] || room == 0
    requires forall x :: x in todo ==> x.0 < |c.plan.stages|
    ensures ClaimAll(st, env, pol, id, c, todo, room) == Batch([], [])
  {
  }

  lemma PlanEnd(st: StoreState, env: Env, pol: Policy, order: seq<CampaignId>, room: nat)
    requires order == [] || room == 0
    ensures PlanWork(st, env, pol, order, room) == Batch([], [])
  {
  }

  /** One round of the target loop. */
  lemma ClaimStep(st: StoreState, env: Env, pol: Policy, id: CampaignId, c: Campaign, todo: seq<(nat, TargetId)>, i: nat,
                  room: nat)
    requires i < |todo| && room > 0 && forall x :: x in todo ==> x.0 < |c.plan.stages|
    ensures (forall x :: x in todo[i..] ==> x.0 < |c.plan.stages|) && (forall x :: x in todo[i + 1..] ==> x.0 < |c.plan.stages|)
    ensures todo[i] in todo
    ensures var claim := ClaimFor(st, env, pol, id, c, todo[i].0, todo[i].1);
            var t := ClaimTrace(Key(id, todo[i].0, todo[i].1), claim);
            var rest := ClaimAll(ApplyAll(st, t), env, pol, id, c, todo[i + 1..], room - |ClaimItems(claim)|);
            ClaimAll(st, env, pol, id, c, todo[i..], room) == Batch(t + rest.trace, ClaimItems(claim) + rest.items)
  {
    hide ClaimFor, ApplyAll, ClaimAll, ClaimTrace;
    assert forall x :: x in todo[i..] ==> x in todo;
    assert forall x :: x in todo[i + 1..] ==> x in todo;
    assert todo[i..][1..] == todo[i + 1..];
    ClaimFirst(st, env, pol, id, c, todo[i..], room);
  }

  lemma ClaimFirst(st: StoreState, env: Env, pol: Policy, id: CampaignId, c: Campaign, todo: seq<(nat, TargetId)>, room: nat)
    requires todo != [] && room > 0 && forall x :: x in todo ==> x.0 < |c.plan.stages|
    ensures todo[0] in todo
    ensures var claim := ClaimFor(st, env, pol, id, c, todo[0].0, todo[0].1);
            var t := ClaimTrace(Key(id, todo[0].0, todo[0].1), claim);
            var rest := ClaimAll(ApplyAll(st, t), env, pol, id, c, todo[1..], room - |ClaimItems(claim)|);
            ClaimAll(st, env, pol, id, c, todo, room) == Batch(t + rest.trace, ClaimItems(claim) + rest.items)
  {
    hide ClaimFor, ApplyAll, ClaimTrace;
  }

  predicate SameRecord(a: StoreState, b: StoreState, id: CampaignId) {
    (id in a.campaigns <==> id in b.campaigns) && (id in a.campaigns ==> a.campaigns[id] == b.campaigns[id])
  }

  lemma LocalRecords(st: StoreState, post: StoreState, id: CampaignId)
    requires Local(st, post, id)
    ensures forall x :: x != id ==> SameRecord(post, st, x)
  {
  }

  /** One round of the campaign loop. */
  lemma PlanStep(st: StoreState, env: Env, pol: Policy, order: seq<CampaignId>, i: nat, room: nat)
    requires i < |order| && room > 0
    ensures var b := if order[i] in st.campaigns then PlanCampaign(st, env, pol, order[i], room) else Batch([], []);
            var left := if |b.items| <= room then room - |b.items| else 0;
            var rest := PlanWork(ApplyAll(st, b.trace), env, pol, order[i + 1..], left);
            PlanWork(st, env, pol, order[i..], room) == Batch(b.trace + rest.trace, b.items + rest.items)
  {
    hide PlanCampaign, ApplyAll;
    assert order[i..][1..] == order[i + 1..];
  }

  lemma PlannedInTargets(c: Campaign, s: nat, t: TargetId)
    requires Planned(c, s, t)
    ensures exists j :: 0 <= j < |AllTargets(c.plan.stages, 0)| && AllTargets(c.plan.stages, 0)[j] == (s, t)
  {
    AllTargetsHas(c.plan.stages, 0, s, t);
  }

  lemma TargetsPlanned(c: Campaign, todo: seq<(nat, TargetId)>)
    requires todo == AllTargets(c.plan.stages, 0)
    ensures forall j :: 0 <= j < |todo| ==> Planned(c, todo[j].0, todo[j].1)
    ensures forall s: nat, t :: Planned(c, s, t) ==> exists j :: 0 <= j < |todo| && todo[j] == (s, t)
  {
    hide AllTargets;
    forall j | 0 <= j < |todo| ensures Planned(c, todo[j].0, todo[j].1) { assert todo[j] in todo; }
    forall s: nat, t | Planned(c, s, t) ensures exists j :: 0 <= j < |todo| && todo[j] == (s, t) {
      PlannedInTargets(c, s, t);
    }
  }

  lemma FlagsOverTargets(env: Env, c: Campaign, todo: seq<(nat, TargetId)>)
    requires todo == AllTargets(c.plan.stages, 0)
    ensures AdaptersSupport(env, c) <==> forall j :: 0 <= j < |todo| ==>
      todo[j].1 in env.inventory && c.plan.strategy in env.inventory[todo[j].1].strategies
    ensures AdaptersRollBack(env, c) <==> forall j :: 0 <= j < |todo| ==>
      todo[j].1 in env.inventory && env.inventory[todo[j].1].supportsRollback
  {
    hide AllTargets, Planned;
    TargetsPlanned(c, todo);
  }

  lemma MixIsSkewOk(st: StoreState, env: Env, id: CampaignId, c: Campaign, todo: seq<(nat, TargetId)>, live: seq<Live>, known: int)
    requires todo == AllTargets(c.plan.stages, 0) && |live| == |todo|
    requires forall j :: 0 <= j < |todo| ==> live[j] == (todo[j].1, LiveVersion(st, env, id, c, todo[j].1))
    requires known == 0 <==> forall j :: 0 <= j < |todo| ==> !TargetUpgraded(st, id, todo[j].1) && todo[j].1 !in env.inventory
    ensures SkewOk(st, env, id, c) <==>
      WithinBudget(c.plan.budget, live, c.artifact.version) && !(known == 0 && live != [])
  {
    hide AllTargets, Tolerated, LiveVersion, TargetUpgraded, Planned;
    TargetsPlanned(c, todo);
    if WithinBudget(c.plan.budget, live, c.artifact.version) {
      forall s: nat, t | Planned(c, s, t)
        ensures Tolerated(c.plan.budget, LiveVersion(st, env, id, c, t), c.artifact.version)
      {
        var j :| 0 <= j < |todo| && todo[j] == (s, t);
        assert live[j].1 == LiveVersion(st, env, id, c, t);
      }
    }
    forall j | 0 <= j < |live| && SkewOk(st, env, id, c) ensures Tolerated(c.plan.budget, live[j].1, c.artifact.version) {
      assert Planned(c, todo[j].0, todo[j].1);
    }
    if known != 0 {
      var j :| 0 <= j < |todo| && (TargetUpgraded(st, id, todo[j].1) || todo[j].1 in env.inventory);
      assert Planned(c, todo[j].0, todo[j].1);
    }
    if live != [] { assert Planned(c, todo[0].0, todo[0].1); }
  }
}
