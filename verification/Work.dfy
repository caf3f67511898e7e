/** Outstanding work against the store: what stays true of it while other sections run. */
module Work {
  import opened Lifecycle
  import opened Records
  import opened Store
  import opened Protocol
  import opened Invariants
  import opened Sections
  import opened PlanSections

  // ---- what no section undoes ---------------------------------------------------------------------------------

  /** The campaign record keeps its identity: plan, artifact and epoch are fixed, the generation does not go back, a terminal
      state is final, and there is no way back to the forward side. */
  predicate Later(c: Campaign, d: Campaign) {
    d.plan == c.plan && d.artifact == c.artifact && d.epoch == c.epoch && c.generation <= d.generation &&
    (Terminal(c.state) ==> d.state == c.state) && (Forward(d.state) ==> Forward(c.state))
  }

  ghost predicate Follows(st: StoreState, post: StoreState) {
    (forall id :: id in st.campaigns ==> id in post.campaigns && Later(st.campaigns[id], post.campaigns[id])) &&
    (forall k :: k in st.attempts ==> k in post.attempts) &&
    st.ledger <= post.ledger && st.incarnation <= post.incarnation && st.config == post.config
  }

  lemma FollowsStep(st: StoreState, e: Entry)
    requires Allowed(st, e)
    ensures Follows(st, Apply(st, e))
  {
    hide CampaignOk, ProgressStep, AttemptOk, AllowedLedger;
  }

  lemma FollowsTrans(a: StoreState, b: StoreState, c: StoreState)
    requires Follows(a, b) && Follows(b, c)
    ensures Follows(a, c)
  {
  }

  lemma {:induction false} FollowsAll(st: StoreState, es: seq<Entry>)
    requires AllowedAll(st, es)
    ensures Follows(st, ApplyAll(st, es))
    decreases |es|
  {
    hide Allowed;
    if es != [] {
      FollowsStep(st, es[0]);
      FollowsAll(Apply(st, es[0]), es[1..]);
      FollowsTrans(st, Apply(st, es[0]), ApplyAll(st, es));
    }
  }

  lemma ItemStays(st: StoreState, post: StoreState, item: Item)
    requires Follows(st, post) && ItemOk(st, item)
    ensures ItemOk(post, item)
  {
  }

  ghost predicate AllOk(st: StoreState, items: seq<Item>) { forall i :: i in items ==> ItemOk(st, i) }

  lemma ItemsStay(st: StoreState, post: StoreState, items: seq<Item>)
    requires Follows(st, post) && AllOk(st, items)
    ensures AllOk(post, items)
  {
    hide Follows, ItemOk;
    forall i | i in items ensures ItemOk(post, i) { ItemStays(st, post, i); }
  }

  // ---- what planning hands out --------------------------------------------------------------------------------

  lemma {:induction false} ClaimItemOk(st: StoreState, env: Env, pol: Policy, id: CampaignId, stage: nat, t: TargetId)
    requires id in st.campaigns && stage < |st.campaigns[id].plan.stages|
    ensures var claim := ClaimFor(st, env, pol, id, st.campaigns[id], stage, t);
            AllOk(ApplyAll(st, ClaimTrace(Key(id, stage, t), claim)), ClaimItems(claim))
  {
    var claim := ClaimFor(st, env, pol, id, st.campaigns[id], stage, t);
    if claim.ClaimAttempt? { ApplyOne(st, AttemptEntry(Key(id, stage, t), claim.attempt)); }
  }

  lemma {:induction false} ClaimAllItemsOk(st: StoreState, env: Env, pol: Policy, id: CampaignId,
                                           todo: seq<(nat, TargetId)>, room: nat)
    requires Inv(st) && id in st.campaigns && Running(st.campaigns[id].state) && Claimable(st.campaigns[id], todo)
    ensures var b := ClaimAll(st, env, pol, id, st.campaigns[id], todo, room);
            AllOk(ApplyAll(st, b.trace), b.items)
    decreases |todo|
  {
    hide Inv, ClaimFor, AllowedAll, ApplyAll, Apply, Running, ItemOk, Follows;
    if todo != [] && room != 0 {
      var c := st.campaigns[id];
      var k := Key(id, todo[0].0, todo[0].1);
      assert todo[0] in todo;
      var claim := ClaimFor(st, env, pol, id, c, todo[0].0, todo[0].1);
      var t := ClaimTrace(k, claim);
      ClaimAllowed(st, env, pol, id, todo[0].0, todo[0].1);
      AllowedAllKeepsInv(st, t);
      ClaimKeepsCampaigns(st, k, claim);
      ClaimItemOk(st, env, pol, id, todo[0].0, todo[0].1);
      var st1 := ApplyAll(st, t);
      var rest := ClaimAll(st1, env, pol, id, c, todo[1..], room - |ClaimItems(claim)|);
      ClaimAllItemsOk(st1, env, pol, id, todo[1..], room - |ClaimItems(claim)|);
      ClaimAllAllowed(st1, env, pol, id, todo[1..], room - |ClaimItems(claim)|);
      FollowsAll(st1, rest.trace);
      ItemsStay(st1, ApplyAll(st1, rest.trace), ClaimItems(claim));
      ApplyAllAppend(st, t, rest.trace);
    }
  }

  lemma {:induction false} PlanCampaignItemsOk(st: StoreState, env: Env, pol: Policy, id: CampaignId, room: nat)
    requires Inv(st) && id in st.campaigns
    ensures var b := PlanCampaign(st, env, pol, id, room);
            AllOk(ApplyAll(st, b.trace), b.items)
  {
    hide Inv, AllowedAll, ApplyAll, ClaimAll, Forwarded, Claimable, Scope, SkewOk, GuardsOf, MoveTrace, Running, ItemOk;
    var c := st.campaigns[id];
    if Running(c.state) && c.active < |c.plan.stages| {
      var Moves(t, c1) := Forwarded(st, env, id, c);
      ForwardedGood(st, env, id);
      ForwardedRuns(st, env, id, c);
      AllowedAllKeepsInv(st, t);
      var st1 := ApplyAll(st, t);
      assert st1.campaigns[id] == c1;
      if !(c1.state.Staged? && !SkewOk(st1, env, id, c1)) {
        ScopeClaimable(c1);
        ClaimAllItemsOk(st1, env, pol, id, Scope(c1), room);
        ApplyAllAppend(st, t, ClaimAll(st1, env, pol, id, c1, Scope(c1), room).trace);
      }
    }
  }

  lemma {:induction false} PlanItemsOk(st: StoreState, env: Env, pol: Policy, order: seq<CampaignId>, room: nat)
    requires Inv(st)
    ensures var b := PlanWork(st, env, pol, order, room);
            AllOk(ApplyAll(st, b.trace), b.items)
    decreases |order|
  {
    hide Inv, AllowedAll, ApplyAll, PlanCampaign, ItemOk, Follows;
    if order != [] && room != 0 {
      var b := if order[0] in st.campaigns then PlanCampaign(st, env, pol, order[0], room) else Batch([], []);
      EmptyAllowed(st);
      if order[0] in st.campaigns {
        PlanCampaignAllowed(st, env, pol, order[0], room);
        PlanCampaignItemsOk(st, env, pol, order[0], room);
      }
      AllowedAllKeepsInv(st, b.trace);
      var left := if |b.items| <= room then room - |b.items| else 0;
      var st1 := ApplyAll(st, b.trace);
      var rest := PlanWork(st1, env, pol, order[1..], left);
      PlanItemsOk(st1, env, pol, order[1..], left);
      PlanAllowed(st1, env, pol, order[1..], left);
      FollowsAll(st1, rest.trace);
      ItemsStay(st1, ApplyAll(st1, rest.trace), b.items);
      ApplyAllAppend(st, b.trace, rest.trace);
    }
  }
}
