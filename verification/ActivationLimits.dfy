/** How many activations a planning pass claims: at every claim the limits of the stage, the policy and the target's adapter hold. */
module ActivationLimits {
  import opened Lifecycle
  import opened Records
  import opened Store
  import opened Protocol
  import opened Invariants
  import opened Sections
  import opened PlanSections
  import opened Effects
  import opened IdleDriver
  import Exclusive

  /** Right after each activation is claimed, the activating attempts of the stage are within the limits of the target's adapter,
      the stage and the policy. */
  ghost predicate ClaimsWithin(st: StoreState, env: Env, pol: Policy, es: seq<Entry>)
    decreases |es|
  {
    es == [] ||
    (var st1 := Apply(st, es[0]);
     (es[0].AttemptEntry? && es[0].attempt.state.AttActivating? ==> LimitsKept(st1, env, pol, es[0].key)) &&
     ClaimsWithin(st1, env, pol, es[1..]))
  }

  predicate LimitsKept(st: StoreState, env: Env, pol: Policy, k: Key) {
    k.target in env.inventory && k.campaign in st.campaigns && k.stage < |st.campaigns[k.campaign].plan.stages| &&
    var n := ActivatingIn(st.attempts, k.campaign, k.stage);
    n <= Permitted(env.inventory[k.target]) && n <= st.campaigns[k.campaign].plan.stages[k.stage].maxParallel && n <= pol.maxConcurrent
  }

  lemma {:induction false} WithinAppend(st: StoreState, env: Env, pol: Policy, p: seq<Entry>, q: seq<Entry>)
    requires ClaimsWithin(st, env, pol, p) && ClaimsWithin(ApplyAll(st, p), env, pol, q)
    ensures ClaimsWithin(st, env, pol, p + q)
    decreases |p|
  {
    hide LimitsKept, Apply;
    if p == [] {
      assert p + q == q;
    } else {
      assert (p + q)[0] == p[0] && (p + q)[1..] == p[1..] + q;
      WithinAppend(Apply(st, p[0]), env, pol, p[1..], q);
    }
  }

  lemma {:induction false} NoActivation(st: StoreState, env: Env, pol: Policy, es: seq<Entry>)
    requires forall e :: e in es ==> !e.AttemptEntry?
    ensures ClaimsWithin(st, env, pol, es)
    decreases |es|
  {
    hide LimitsKept, Apply;
    if es != [] {
      assert es[0] in es;
      NoActivation(Apply(st, es[0]), env, pol, es[1..]);
    }
  }

  lemma ClaimKeepsLimits(st: StoreState, env: Env, pol: Policy, id: CampaignId, c: Campaign, stage: nat, t: TargetId)
    requires id in st.campaigns && st.campaigns[id].plan == c.plan && stage < |c.plan.stages|
    ensures ClaimsWithin(st, env, pol, ClaimTrace(Key(id, stage, t), ClaimFor(st, env, pol, id, c, stage, t)))
  {
    hide LimitsKept;
    var k, claim := Key(id, stage, t), ClaimFor(st, env, pol, id, c, stage, t);
    if claim.ClaimAttempt? {
      var es := ClaimTrace(k, claim);
      assert es == [AttemptEntry(k, claim.attempt)] && es[1..] == [];
      if claim.attempt.state.AttActivating? { ActivationClaimed(st, env, pol, id, c, stage, t); }
    }
  }

  lemma ActivationClaimed(st: StoreState, env: Env, pol: Policy, id: CampaignId, c: Campaign, stage: nat, t: TargetId)
    requires id in st.campaigns && st.campaigns[id].plan == c.plan && stage < |c.plan.stages|
    requires var claim := ClaimFor(st, env, pol, id, c, stage, t);
             claim.ClaimAttempt? && claim.attempt.state.AttActivating?
    ensures var k, claim := Key(id, stage, t), ClaimFor(st, env, pol, id, c, stage, t);
            LimitsKept(Apply(st, AttemptEntry(k, claim.attempt)), env, pol, k)
  {
    hide ClaimFor, ActivatingIn, Permitted;
    var k, b := Key(id, stage, t), ClaimFor(st, env, pol, id, c, stage, t).attempt;
    ActivationBound(st, env, pol, id, c, stage, t);
    OneMore(st, k, b);
  }

  lemma ActivationBound(st: StoreState, env: Env, pol: Policy, id: CampaignId, c: Campaign, stage: nat, t: TargetId)
    requires stage < |c.plan.stages|
    requires var claim := ClaimFor(st, env, pol, id, c, stage, t);
             claim.ClaimAttempt? && claim.attempt.state.AttActivating?
    ensures var n := ActivatingIn(st.attempts, id, stage);
            t in env.inventory && n < Permitted(env.inventory[t]) && n < c.plan.stages[stage].maxParallel && n < pol.maxConcurrent
  {
    assert InStage(st, id, stage, AttActivating) ==
           set k | k in st.attempts && k.campaign == id && k.stage == stage && st.attempts[k].state.AttActivating?;
  }

  lemma OneMore(st: StoreState, k: Key, b: Attempt)
    ensures ActivatingIn(Apply(st, AttemptEntry(k, b)).attempts, k.campaign, k.stage) <= ActivatingIn(st.attempts, k.campaign, k.stage) + 1
  {
    var before := set q | q in st.attempts && q.campaign == k.campaign && q.stage == k.stage && st.attempts[q].state.AttActivating?;
    var post := st.attempts[k := b];
    var after := set q | q in post && q.campaign == k.campaign && q.stage == k.stage && post[q].state.AttActivating?;
    assert after <= before + {k};
    Exclusive.SubsetSize(after, before + {k});
  }

  lemma {:induction false} ClaimsKeepLimits(st: StoreState, env: Env, pol: Policy, id: CampaignId, c: Campaign,
                                            todo: seq<(nat, TargetId)>, room: nat)
    requires id in st.campaigns && st.campaigns[id].plan == c.plan && forall x :: x in todo ==> x.0 < |c.plan.stages|
    ensures ClaimsWithin(st, env, pol, ClaimAll(st, env, pol, id, c, todo, room).trace)
    decreases |todo|
  {
    hide ClaimFor, ClaimsWithin, ApplyAll;
    NoActivation(st, env, pol, []);
    if todo != [] && room != 0 {
      var x := todo[0];
      assert x in todo;
      var claim := ClaimFor(st, env, pol, id, c, x.0, x.1);
      var w := ClaimTrace(Key(id, x.0, x.1), claim);
      var st1 := ApplyAll(st, w);
      ClaimKeepsLimits(st, env, pol, id, c, x.0, x.1);
      ClaimKeepsCampaigns(st, Key(id, x.0, x.1), claim);
      ClaimsKeepLimits(st1, env, pol, id, c, todo[1..], room - |ClaimItems(claim)|);
      WithinAppend(st, env, pol, w, ClaimAll(st1, env, pol, id, c, todo[1..], room - |ClaimItems(claim)|).trace);
    }
  }

  lemma ClaimKeepsCampaigns(st: StoreState, k: Key, claim: Claim)
    ensures ApplyAll(st, ClaimTrace(k, claim)).campaigns == st.campaigns
  {
    EmptyRun(st);
    if claim.ClaimAttempt? { ApplyOne(st, AttemptEntry(k, claim.attempt)); }
  }

  lemma MovesWriteNoAttempt(st: StoreState, env: Env, id: CampaignId, c: Campaign)
    ensures forall e :: e in Forwarded(st, env, id, c).trace ==> !e.AttemptEntry?
  {
    hide GuardsOf, Permits, ApplyAll;
  }

  /** In a whole pass, whatever it looks at. */
  lemma {:induction false} PlanKeepsLimits(st: StoreState, env: Env, pol: Policy, order: seq<CampaignId>, room: nat)
    requires Inv(st)
    ensures ClaimsWithin(st, env, pol, PlanWork(st, env, pol, order, room).trace)
    decreases |order|
  {
    hide Inv, ClaimsWithin, ApplyAll, PlanCampaign, AllowedAll;
    NoActivation(st, env, pol, []);
    EmptyRun(st);
    if order != [] && room != 0 {
      var id := order[0];
      var b := if id in st.campaigns then PlanCampaign(st, env, pol, id, room) else Batch([], []);
      var st1 := ApplyAll(st, b.trace);
      EmptyAllowed(st);
      if id in st.campaigns {
        PlanOneKeepsLimits(st, env, pol, id, room);
        PlanCampaignAllowed(st, env, pol, id, room);
      }
      AllowedAllKeepsInv(st, b.trace);
      var left := if |b.items| <= room then room - |b.items| else 0;
      PlanKeepsLimits(st1, env, pol, order[1..], left);
      WithinAppend(st, env, pol, b.trace, PlanWork(st1, env, pol, order[1..], left).trace);
    }
  }

  lemma PlanOneKeepsLimits(st: StoreState, env: Env, pol: Policy, id: CampaignId, room: nat)
    requires Inv(st) && id in st.campaigns
    ensures ClaimsWithin(st, env, pol, PlanCampaign(st, env, pol, id, room).trace)
  {
    hide Inv, ClaimsWithin, ApplyAll, ClaimAll, Forwarded, Scope, SkewOk, GuardsOf, MoveTrace, AllowedAll;
    NoActivation(st, env, pol, []);
    var c := st.campaigns[id];
    if Running(c.state) && c.active < |c.plan.stages| {
      var Moves(t, d) := Forwarded(st, env, id, c);
      ForwardedGood(st, env, id);
      MovesWriteNoAttempt(st, env, id, c);
      NoActivation(st, env, pol, t);
      var st1 := ApplyAll(st, t);
      if d.state.Staged? && !SkewOk(st1, env, id, d) {
        var g := GuardsOf(st1, env, id, d).(failureRecorded := true);
        HoldWritesNoAttempt(id, d, g);
        NoActivation(st, env, pol, t + MoveTrace(id, d, Blocked, g) + [DecisionEntry(id, Decision(DecBlock, Deny))]);
      } else {
        ClaimsKeepLimits(st1, env, pol, id, d, Scope(d), room);
        WithinAppend(st, env, pol, t, ClaimAll(st1, env, pol, id, d, Scope(d), room).trace);
      }
    }
  }

  lemma HoldWritesNoAttempt(id: CampaignId, c: Campaign, g: Guards)
    ensures forall e :: e in MoveTrace(id, c, Blocked, g) ==> !e.AttemptEntry?
  {
    hide Permits;
  }
}
