/** Planning claims attempts and hands out work; everything it writes is allowed. */
module PlanSections {
  import opened Lifecycle
  import opened Records
  import opened Store
  import opened Protocol
  import opened Invariants
  import opened Sections

  /** The targets a pass may claim: planned, and of the active stage unless the campaign is rolling back. */
  predicate Claimable(c: Campaign, todo: seq<(nat, TargetId)>) {
    forall x :: x in todo ==> Planned(c, x.0, x.1) && (c.state.RollingBack? || x.0 == c.active)
  }

  lemma ScopeClaimable(c: Campaign)
    requires c.active < |c.plan.stages|
    ensures Claimable(c, Scope(c))
  {
  }

  lemma NewAttemptAllowed(st: StoreState, id: CampaignId, stage: nat, t: TargetId)
    requires Inv(st) && id in st.campaigns && Planned(st.campaigns[id], stage, t) && Key(id, stage, t) !in st.attempts
    requires var c := st.campaigns[id]; (c.state.Prepared? || c.state.Staged?) && stage == c.active
    ensures AllowedAttempt(st, Key(id, stage, t), NewAttempt(st, st.campaigns[id]))
  {
    var c := st.campaigns[id];
    assert CampaignOk(c) && StagesDone(st, id, c);
    assert InStep(c, Key(id, stage, t), NewAttempt(st, c));
  }

  lemma {:induction false} RollbackClaimAllowed(st: StoreState, k: Key)
    requires Inv(st) && k in st.attempts && st.campaigns[k.campaign].state.RollingBack? && NeedsRollback(st.attempts[k])
    ensures AllowedAttempt(st, k, st.attempts[k].(state := AttRollingBack, owner := st.incarnation))
  {
    assert AttemptIn(st, k);
    AttemptChange(st, k, st.attempts[k].(state := AttRollingBack, owner := st.incarnation));
  }

  lemma {:induction false} ForwardClaimAllowed(st: StoreState, k: Key, to: AttemptState)
    requires Inv(st) && k in st.attempts && !st.campaigns[k.campaign].state.Completed?
    requires (st.attempts[k].state.AttPrepared? && to.AttActivating?) || (st.attempts[k].state.AttActivated? && to.AttVerifying?)
    ensures AllowedAttempt(st, k, st.attempts[k].(state := to, owner := st.incarnation))
  {
    hide Inv;
    StoredAttempt(st, k);
    AttemptChange(st, k, st.attempts[k].(state := to, owner := st.incarnation));
  }

  lemma {:induction false} ClaimAllowed(st: StoreState, env: Env, pol: Policy, id: CampaignId, stage: nat, t: TargetId)
    requires Inv(st) && id in st.campaigns && Planned(st.campaigns[id], stage, t) && Running(st.campaigns[id].state)
    requires st.campaigns[id].state.RollingBack? || stage == st.campaigns[id].active
    ensures var claim := ClaimFor(st, env, pol, id, st.campaigns[id], stage, t);
            AllowedAll(st, ClaimTrace(Key(id, stage, t), claim)) && |ClaimTrace(Key(id, stage, t), claim)| <= 1
  {
    var claim, k := ClaimFor(st, env, pol, id, st.campaigns[id], stage, t), Key(id, stage, t);
    if claim.ClaimAttempt? {
      if st.campaigns[id].state.RollingBack? { RollbackClaimAllowed(st, k); }
      else if k in st.attempts { ForwardClaimAllowed(st, k, claim.attempt.state); }
      else { NewAttemptAllowed(st, id, stage, t); }
      SingleAllowed(st, AttemptEntry(k, claim.attempt));
    }
  }

  /** A claim leaves the campaigns alone. */
  lemma ClaimKeepsCampaigns(st: StoreState, k: Key, claim: Claim)
    ensures ApplyAll(st, ClaimTrace(k, claim)).campaigns == st.campaigns
  {
    if claim.ClaimAttempt? { ApplyOne(st, AttemptEntry(k, claim.attempt)); }
  }

  lemma {:induction false} ClaimAllAllowed(st: StoreState, env: Env, pol: Policy, id: CampaignId,
                                           todo: seq<(nat, TargetId)>, room: nat)
    requires Inv(st) && id in st.campaigns && Running(st.campaigns[id].state) && Claimable(st.campaigns[id], todo)
    ensures AllowedAll(st, ClaimAll(st, env, pol, id, st.campaigns[id], todo, room).trace)
    decreases |todo|
  {
    hide Inv, ClaimFor, AllowedAll, ApplyAll, Apply, Running;
    EmptyAllowed(st);
    if todo != [] && room != 0 {
      var c := st.campaigns[id];
      var k := Key(id, todo[0].0, todo[0].1);
      assert todo[0] in todo;
      var claim := ClaimFor(st, env, pol, id, c, todo[0].0, todo[0].1);
      var t := ClaimTrace(k, claim);
      ClaimAllowed(st, env, pol, id, todo[0].0, todo[0].1);
      AllowedAllKeepsInv(st, t);
      ClaimKeepsCampaigns(st, k, claim);
      ClaimAllAllowed(ApplyAll(st, t), env, pol, id, todo[1..], room - |ClaimItems(claim)|);
      AllowedAllAppend(st, t, ClaimAll(ApplyAll(st, t), env, pol, id, c, todo[1..], room - |ClaimItems(claim)|).trace);
    }
  }

  // ---- the moves a pass makes ---------------------------------------------------------------------------------

  /** Some moves of one campaign: allowed, and the campaign record they end with is the stored one. */
  ghost predicate GoodMoves(st: StoreState, id: CampaignId, m: Moves) {
    AllowedAll(st, m.trace) &&
    var post := ApplyAll(st, m.trace);
    id in post.campaigns && SameButCampaign(st, post, id, m.campaign)
  }

  lemma NoMoves(st: StoreState, id: CampaignId)
    requires id in st.campaigns
    ensures GoodMoves(st, id, Moves([], st.campaigns[id]))
  {
    assert st.campaigns[id := st.campaigns[id]] == st.campaigns;
  }

  lemma {:induction false} MoveToGood(st: StoreState, id: CampaignId, to: UpgradeState, g: Guards)
    requires Inv(st) && id in st.campaigns
    requires var c := st.campaigns[id]; Permits(c.state, to, g) && c.state != to ==> GatesOk(Moved(c, to))
    ensures GoodMoves(st, id, MoveTo(id, st.campaigns[id], to, g))
  {
    RecordAllowed(st, id);
    MoveAllowed(st, id, st.campaigns[id], to, g);
    MoveEffect(st, id, st.campaigns[id], to, g);
    assert st.campaigns[id := st.campaigns[id]] == st.campaigns;
  }

  lemma {:induction false} ThenMoves(st: StoreState, id: CampaignId, m: Moves, n: Moves)
    requires GoodMoves(st, id, m) && GoodMoves(ApplyAll(st, m.trace), id, n)
    ensures GoodMoves(st, id, Moves(m.trace + n.trace, n.campaign))
  {
    AllowedAllAppend(st, m.trace, n.trace);
    ApplyAllAppend(st, m.trace, n.trace);
    assert st.campaigns[id := m.campaign][id := n.campaign] == st.campaigns[id := n.campaign];
  }

  lemma {:induction false} RestageGood(st: StoreState, env: Env, id: CampaignId)
    requires Inv(st) && id in st.campaigns
    ensures GoodMoves(st, id, Restage(st, env, id, st.campaigns[id]))
  {
    var c := st.campaigns[id];
    assert CampaignOk(c);
    if c.state.Prepared? && c.active < |c.progress| && c.progress[c.active].StagePrepared? {
      MoveToGood(st, id, Staged, GuardsOf(st, env, id, c).(stagingComplete := true));
    } else {
      NoMoves(st, id);
    }
  }

  /** Entering activating and then verifying, under any guards. */
  lemma {:induction false} StepForwardGood(st: StoreState, id: CampaignId, g: Guards)
    requires Inv(st) && id in st.campaigns && (st.campaigns[id].state.Staged? || st.campaigns[id].state.Activating?)
    ensures var c := st.campaigns[id];
            var m1 := if c.state.Staged? then MoveTo(id, c, Activating, g) else Moves([], c);
            var m2 := MoveTo(id, m1.campaign, Verifying, g);
            GoodMoves(st, id, Moves(m1.trace + m2.trace, m2.campaign))
  {
    hide Inv, AllowedAll, ApplyAll, MoveTrace;
    var c := st.campaigns[id];
    StoredOk(st, id);
    var m1 := if c.state.Staged? then MoveTo(id, c, Activating, g) else Moves([], c);
    if c.state.Staged? { MoveToGood(st, id, Activating, g); } else { NoMoves(st, id); }
    AllowedAllKeepsInv(st, m1.trace);
    MoveToGood(ApplyAll(st, m1.trace), id, Verifying, g);
    ThenMoves(st, id, m1, MoveTo(id, m1.campaign, Verifying, g));
  }

  lemma {:induction false} AdvanceGood(st: StoreState, env: Env, id: CampaignId)
    requires Inv(st) && id in st.campaigns
    ensures GoodMoves(st, id, Advance(st, env, id, st.campaigns[id]))
  {
    var c := st.campaigns[id];
    var g := GuardsOf(st, env, id, c);
    if (c.state.Staged? || c.state.Activating?) && g.activationComplete { StepForwardGood(st, id, g); }
    else { NoMoves(st, id); }
  }

  lemma {:induction false} ForwardedGood(st: StoreState, env: Env, id: CampaignId)
    requires Inv(st) && id in st.campaigns
    ensures GoodMoves(st, id, Forwarded(st, env, id, st.campaigns[id]))
  {
    var m1 := Restage(st, env, id, st.campaigns[id]);
    RestageGood(st, env, id);
    AllowedAllKeepsInv(st, m1.trace);
    var st1 := ApplyAll(st, m1.trace);
    AdvanceGood(st1, env, id);
    ThenMoves(st, id, m1, Advance(st1, env, id, m1.campaign));
  }

  // ---- a pass -------------------------------------------------------------------------------------------------

  /** The moves of a pass keep a running campaign running. */
  lemma ForwardedRuns(st: StoreState, env: Env, id: CampaignId, c: Campaign)
    requires Running(c.state)
    ensures Running(Forwarded(st, env, id, c).campaign.state)
    ensures Forwarded(st, env, id, c).campaign.state.RollingBack? <==> c.state.RollingBack?
  {
    hide *;
    RestageRuns(st, env, id, c);
    var m := Restage(st, env, id, c);
    AdvanceRuns(ApplyAll(st, m.trace), env, id, m.campaign);
    ForwardedIs(st, env, id, c);
  }

  lemma ForwardedIs(st: StoreState, env: Env, id: CampaignId, c: Campaign)
    ensures var m1 := Restage(st, env, id, c);
            Forwarded(st, env, id, c).campaign == Advance(ApplyAll(st, m1.trace), env, id, m1.campaign).campaign
  {
    hide Restage, Advance, ApplyAll;
  }

  lemma RestageRuns(st: StoreState, env: Env, id: CampaignId, c: Campaign)
    requires Running(c.state)
    ensures Running(Restage(st, env, id, c).campaign.state)
    ensures Restage(st, env, id, c).campaign.state.RollingBack? <==> c.state.RollingBack?
  {
    hide GuardsOf, MoveTrace, Permits;
  }

  lemma AdvanceRuns(st: StoreState, env: Env, id: CampaignId, c: Campaign)
    requires Running(c.state)
    ensures Running(Advance(st, env, id, c).campaign.state)
    ensures Advance(st, env, id, c).campaign.state.RollingBack? <==> c.state.RollingBack?
  {
    hide GuardsOf, MoveTrace, Permits;
  }

  lemma {:induction false} HoldAllowed(st: StoreState, env: Env, id: CampaignId, g: Guards)
    requires Inv(st) && id in st.campaigns
    ensures AllowedAll(st, MoveTrace(id, st.campaigns[id], Blocked, g) + [DecisionEntry(id, Decision(DecBlock, Deny))])
  {
    var t, d := MoveTrace(id, st.campaigns[id], Blocked, g), DecisionEntry(id, Decision(DecBlock, Deny));
    RecordAllowed(st, id);
    MoveAllowed(st, id, st.campaigns[id], Blocked, g);
    SingleAllowed(ApplyAll(st, t), d);
    AllowedAllAppend(st, t, [d]);
  }

  lemma {:induction false} PlanCampaignAllowed(st: StoreState, env: Env, pol: Policy, id: CampaignId, room: nat)
    requires Inv(st) && id in st.campaigns
    ensures AllowedAll(st, PlanCampaign(st, env, pol, id, room).trace)
  {
    hide Inv, AllowedAll, ApplyAll, ClaimAll, Forwarded, Claimable, Scope, SkewOk, GuardsOf, MoveTrace, Running;
    EmptyAllowed(st);
    var c := st.campaigns[id];
    if Running(c.state) && c.active < |c.plan.stages| {
      var Moves(t, c1) := Forwarded(st, env, id, c);
      ForwardedGood(st, env, id);
      ForwardedRuns(st, env, id, c);
      AllowedAllKeepsInv(st, t);
      var st1 := ApplyAll(st, t);
      assert st1.campaigns[id] == c1;
      if c1.state.Staged? && !SkewOk(st1, env, id, c1) {
        var g := GuardsOf(st1, env, id, c1).(failureRecorded := true);
        var d := DecisionEntry(id, Decision(DecBlock, Deny));
        HoldAllowed(st1, env, id, g);
        AllowedAllAppend(st, t, MoveTrace(id, c1, Blocked, g) + [d]);
        assert t + MoveTrace(id, c1, Blocked, g) + [d] == t + (MoveTrace(id, c1, Blocked, g) + [d]);
      } else {
        ScopeClaimable(c1);
        ClaimAllAllowed(st1, env, pol, id, Scope(c1), room);
        AllowedAllAppend(st, t, ClaimAll(st1, env, pol, id, c1, Scope(c1), room).trace);
      }
    }
  }

  /** Planning writes allowed entries only. */
  lemma {:induction false} PlanAllowed(st: StoreState, env: Env, pol: Policy, order: seq<CampaignId>, room: nat)
    requires Inv(st)
    ensures AllowedAll(st, PlanWork(st, env, pol, order, room).trace)
    decreases |order|
  {
    hide Inv, AllowedAll, PlanCampaign, ApplyAll;
    EmptyAllowed(st);
    if order != [] && room != 0 {
      var b := if order[0] in st.campaigns then PlanCampaign(st, env, pol, order[0], room) else Batch([], []);
      if order[0] in st.campaigns { PlanCampaignAllowed(st, env, pol, order[0], room); }
      AllowedAllKeepsInv(st, b.trace);
      var left := if |b.items| <= room then room - |b.items| else 0;
      PlanAllowed(ApplyAll(st, b.trace), env, pol, order[1..], left);
      AllowedAllAppend(st, b.trace, PlanWork(ApplyAll(st, b.trace), env, pol, order[1..], left).trace);
    }
  }
}
