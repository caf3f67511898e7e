/** What an idle pass of the driver means: nothing is left to do, and a further pass finds nothing either. */
module IdleDriver {
  import opened Lifecycle
  import opened Skew
  import opened Records
  import opened Store
  import opened Protocol
  import opened Invariants
  import opened Sections
  import opened PlanSections
  import opened Restart
  import opened Effects
  import opened CommitEffects
  import opened Driver

  /** The stores agree on what planning a campaign looks at, apart from the campaign itself. */
  predicate SameFacts(st: StoreState, post: StoreState) {
    post.attempts == st.attempts && post.incarnation == st.incarnation && post.epoch == st.epoch
  }

  // ---- the moves before the work ------------------------------------------------------------------------------

  lemma SameStages(st: StoreState, post: StoreState, env: Env, id: CampaignId, c: Campaign, d: Campaign)
    requires SameFacts(st, post) && d == c.(state := d.state)
    ensures StageAll(post, id, d, d.active, {AttActivated, AttVerified}) <==> StageAll(st, id, c, c.active, {AttActivated, AttVerified})
    ensures StageFresh(post, env, id, d, d.active) <==> StageFresh(st, env, id, c, c.active)
  {
  }

  lemma SameOutside(st: StoreState, post: StoreState, env: Env, id: CampaignId, c: Campaign, d: Campaign)
    requires SameFacts(st, post) && d == c.(state := d.state)
    ensures TicketCurrent(post, env, d) <==> TicketCurrent(st, env, c)
    ensures AdaptersSupport(env, d) <==> AdaptersSupport(env, c)
    ensures NothingLeft(post, id) <==> NothingLeft(st, id)
  {
    assert forall s, t :: Planned(d, s, t) <==> Planned(c, s, t);
  }

  /** Guards do not depend on the state of the campaign. */
  lemma SameGuards(st: StoreState, post: StoreState, env: Env, id: CampaignId, c: Campaign, d: Campaign)
    requires SameFacts(st, post) && d == c.(state := d.state)
    ensures GuardsOf(post, env, id, d) == GuardsOf(st, env, id, c)
  {
    hide SkewOk, StageAll, StageFresh, TicketCurrent, AdaptersSupport, NothingLeft;
    SameSkew(st, post, env, id, c, d);
    SameStages(st, post, env, id, c, d);
    SameOutside(st, post, env, id, c, d);
  }

  lemma SameSkew(st: StoreState, post: StoreState, env: Env, id: CampaignId, c: Campaign, d: Campaign)
    requires SameFacts(st, post) && d == c.(state := d.state)
    ensures SkewOk(post, env, id, d) <==> SkewOk(st, env, id, c)
  {
    hide Tolerated;
    assert forall t :: TargetUpgraded(post, id, t) <==> TargetUpgraded(st, id, t);
    assert forall t :: LiveVersion(post, env, id, d, t) == LiveVersion(st, env, id, c, t);
    assert forall s, t :: Planned(d, s, t) <==> Planned(c, s, t);
  }

  lemma RestageFacts(st: StoreState, env: Env, id: CampaignId, c: Campaign)
    requires id in st.campaigns
    ensures SameFacts(st, ApplyAll(st, Restage(st, env, id, c).trace))
  {
    hide GuardsOf, MoveTrace, Permits, ApplyAll;
    EmptyRun(st);
    MoveEffect(st, id, c, Staged, GuardsOf(st, env, id, c).(stagingComplete := true));
  }

  /** What a further pass makes of a campaign whose stage is prepared is what this one made of it. */
  lemma RestageTwice(st: StoreState, post: StoreState, env: Env, id: CampaignId, c: Campaign)
    requires SameFacts(st, post)
    ensures Restage(post, env, id, c).campaign == Restage(st, env, id, c).campaign
    ensures var d := Restage(st, env, id, c).campaign;
            Restage(post, env, id, d).campaign == d && d == c.(state := d.state) && (d == c || d.state.Staged?)
  {
    hide GuardsOf, SkewOk, MoveTrace;
    SameGuards(st, post, env, id, c, c);
  }

  /** The record after the move to verification, from the guards alone. */
  function Onwards(c: Campaign, g: Guards): Campaign {
    if (c.state.Staged? || c.state.Activating?) && g.activationComplete
    then MoveResult(if c.state.Staged? then MoveResult(c, Activating, g) else c, Verifying, g)
    else c
  }

  lemma MovesToVerifying(g: Guards)
    ensures !Permits(Staged, Verifying, g) && (Permits(Activating, Verifying, g) <==> g.activationComplete)
  {
  }

  lemma OnwardsTwice(c: Campaign, g: Guards)
    ensures var d := Onwards(c, g);
            Onwards(d, g) == d && d == c.(state := d.state) && (d == c || !d.state.Prepared?)
  {
    hide Permits;
    MovesToVerifying(g);
    if c.state.Staged? && g.activationComplete && Permits(Staged, Activating, g) {
      assert MoveResult(c, Activating, g) == c.(state := Activating);
    }
  }

  lemma AdvanceShape(st: StoreState, env: Env, id: CampaignId, c: Campaign)
    ensures Advance(st, env, id, c).campaign == Onwards(c, GuardsOf(st, env, id, c))
  {
    hide GuardsOf, Permits, MoveTrace;
  }

  lemma AdvanceTwice(st: StoreState, post: StoreState, env: Env, id: CampaignId, c: Campaign)
    requires SameFacts(st, post)
    ensures Advance(post, env, id, c).campaign == Advance(st, env, id, c).campaign
    ensures var d := Advance(st, env, id, c).campaign;
            Advance(post, env, id, d).campaign == d && d == c.(state := d.state) && (d == c || !d.state.Prepared?)
  {
    hide GuardsOf, SkewOk, Advance, Onwards;
    var d := Advance(st, env, id, c).campaign;
    AdvanceShape(st, env, id, c);
    AdvanceShape(post, env, id, c);
    AdvanceShape(post, env, id, d);
    OnwardsTwice(c, GuardsOf(st, env, id, c));
    SameGuards(st, post, env, id, c, c);
    SameGuards(st, post, env, id, c, d);
  }

  /** The moves depend on these facts only, and making them again changes nothing. */
  lemma ForwardedTwice(st: StoreState, post: StoreState, env: Env, id: CampaignId, c: Campaign)
    requires SameFacts(st, post) && id in st.campaigns && id in post.campaigns
    ensures Forwarded(post, env, id, c).campaign == Forwarded(st, env, id, c).campaign
    ensures var d := Forwarded(st, env, id, c).campaign;
            Forwarded(post, env, id, d).campaign == d && d == c.(state := d.state)
  {
    hide Restage, Advance, ApplyAll;
    var c1 := Restage(st, env, id, c).campaign;
    RestageTwice(st, post, env, id, c);
    RestageFacts(st, env, id, c);
    RestageFacts(post, env, id, c);
    var st1, post1 := ApplyAll(st, Restage(st, env, id, c).trace), ApplyAll(post, Restage(post, env, id, c).trace);
    AdvanceTwice(st1, post1, env, id, c1);
    var d := Advance(st1, env, id, c1).campaign;
    RestageFacts(post, env, id, d);
    var post2 := ApplyAll(post, Restage(post, env, id, d).trace);
    AdvanceTwice(st1, post2, env, id, c1);
    StagedAgain(post, env, id, c1, d);
  }

  lemma StagedAgain(post: StoreState, env: Env, id: CampaignId, c: Campaign, d: Campaign)
    requires Restage(post, env, id, c).campaign == c && (d == c || !d.state.Prepared?)
    ensures Restage(post, env, id, d).campaign == d
  {
    hide GuardsOf;
  }

  // ---- a campaign at rest -------------------------------------------------------------------------------------

  /** Planning makes the moves it can make, and then holds the campaign or finds no target to work on. */
  ghost predicate Resting(st: StoreState, env: Env, pol: Policy, id: CampaignId) {
    id in st.campaigns ==>
      var c := st.campaigns[id];
      Running(c.state) && c.active < |c.plan.stages| ==>
        var d := Forwarded(st, env, id, c).campaign;
        (d.state.Staged? && !SkewOk(st, env, id, d)) ||
        forall x :: x in Scope(d) ==> ClaimFor(st, env, pol, id, d, x.0, x.1).NoClaim?
  }

  /** Planning makes no move any more, does not hold the campaign, and finds no target to work on. */
  ghost predicate Quiescent(st: StoreState, env: Env, pol: Policy, id: CampaignId) {
    id in st.campaigns ==>
      var c := st.campaigns[id];
      Running(c.state) && c.active < |c.plan.stages| ==>
        Forwarded(st, env, id, c).campaign == c && (c.state.Staged? ==> SkewOk(st, env, id, c)) &&
        forall x :: x in Scope(c) ==> ClaimFor(st, env, pol, id, c, x.0, x.1).NoClaim?
  }

  lemma SettledRests(st: StoreState, env: Env, pol: Policy, id: CampaignId)
    requires Quiescent(st, env, pol, id)
    ensures Resting(st, env, pol, id)
  {
    hide Forwarded, SkewOk, Scope, ClaimFor;
  }

  lemma SettledFrame(st: StoreState, post: StoreState, env: Env, pol: Policy, id: CampaignId)
    requires Quiescent(st, env, pol, id) && SameFacts(st, post)
    requires id in post.campaigns ==> id in st.campaigns && post.campaigns[id] == st.campaigns[id]
    ensures Quiescent(post, env, pol, id)
  {
    hide Forwarded, SkewOk, Scope, ClaimFor;
    if id in post.campaigns {
      var c := st.campaigns[id];
      ForwardedTwice(st, post, env, id, c);
      SameSkew(st, post, env, id, c, c);
      if c.active < |c.plan.stages| { SameScope(st, post, env, pol, id, c); }
    }
  }

  lemma {:induction false} NoClaims(st: StoreState, env: Env, pol: Policy, id: CampaignId, c: Campaign,
                                    todo: seq<(nat, TargetId)>, room: nat)
    requires room > 0 && forall x :: x in todo ==> x.0 < |c.plan.stages|
    ensures ClaimAll(st, env, pol, id, c, todo, room).items == [] <==>
            forall x :: x in todo ==> ClaimFor(st, env, pol, id, c, x.0, x.1).NoClaim?
    decreases |todo|
  {
    hide ClaimFor, ApplyAll;
    EmptyRun(st);
    if todo != [] {
      var x := todo[0];
      assert x in todo;
      assert todo == [x] + todo[1..];
      if ClaimFor(st, env, pol, id, c, x.0, x.1).NoClaim? { NoClaims(st, env, pol, id, c, todo[1..], room); }
    }
  }

  lemma SameClaim(st: StoreState, post: StoreState, env: Env, pol: Policy, id: CampaignId, c: Campaign, stage: nat, t: TargetId)
    requires SameFacts(st, post) && stage < |c.plan.stages|
    ensures ClaimFor(post, env, pol, id, c, stage, t) == ClaimFor(st, env, pol, id, c, stage, t)
  {
    assert InStage(post, id, stage, AttActivating) == InStage(st, id, stage, AttActivating);
  }

  lemma SameScope(st: StoreState, post: StoreState, env: Env, pol: Policy, id: CampaignId, d: Campaign)
    requires SameFacts(st, post) && d.active < |d.plan.stages|
    ensures (forall x :: x in Scope(d) ==> ClaimFor(st, env, pol, id, d, x.0, x.1).NoClaim?) <==>
            (forall x :: x in Scope(d) ==> ClaimFor(post, env, pol, id, d, x.0, x.1).NoClaim?)
  {
    hide ClaimFor, Scope;
    forall x | x in Scope(d) ensures ClaimFor(post, env, pol, id, d, x.0, x.1) == ClaimFor(st, env, pol, id, d, x.0, x.1) {
      SameClaim(st, post, env, pol, id, d, x.0, x.1);
    }
  }

  /** A campaign is at rest in every store that shows planning the same. */
  lemma RestingFrame(st: StoreState, post: StoreState, env: Env, pol: Policy, id: CampaignId)
    requires Resting(st, env, pol, id) && SameFacts(st, post)
    requires id in post.campaigns ==> id in st.campaigns && post.campaigns[id] == st.campaigns[id]
    ensures Resting(post, env, pol, id)
  {
    hide Forwarded, SkewOk, Scope, ClaimFor;
    if id in post.campaigns {
      var c := st.campaigns[id];
      ForwardedTwice(st, post, env, id, c);
      var d := Forwarded(st, env, id, c).campaign;
      SameSkew(st, post, env, id, d, d);
      if c.active < |c.plan.stages| { SameScope(st, post, env, pol, id, d); }
    }
  }

  /** Planning hands out nothing for a campaign exactly when it is at rest. */
  lemma RestingIff(st: StoreState, env: Env, pol: Policy, id: CampaignId, room: nat)
    requires Inv(st) && id in st.campaigns && room > 0
    ensures PlanCampaign(st, env, pol, id, room).items == [] <==> Resting(st, env, pol, id)
  {
    hide Inv, AllowedAll, ApplyAll, ClaimAll, Forwarded, Scope, SkewOk, GuardsOf, MoveTrace, ClaimFor;
    var c := st.campaigns[id];
    if Running(c.state) && c.active < |c.plan.stages| {
      var Moves(t, d) := Forwarded(st, env, id, c);
      ForwardedGood(st, env, id);
      var st1 := ApplyAll(st, t);
      SameSkew(st, st1, env, id, d, d);
      SameScope(st, st1, env, pol, id, d);
      NoClaims(st1, env, pol, id, d, Scope(d), room);
    }
  }

  /** The record after planning a campaign at rest: held, or moved on as far as it goes, with nothing to work on. */
  lemma RestingAgain(st: StoreState, env: Env, pol: Policy, id: CampaignId, room: nat)
    requires Inv(st) && id in st.campaigns && room > 0 && PlanCampaign(st, env, pol, id, room).items == []
    ensures var post := ApplyAll(st, PlanCampaign(st, env, pol, id, room).trace);
            id in post.campaigns && SameButCampaign(st, post, id, post.campaigns[id]) && Quiescent(post, env, pol, id)
  {
    hide Inv, AllowedAll, ApplyAll, ClaimAll, Forwarded, Scope, SkewOk, GuardsOf, MoveTrace, ClaimFor;
    var c := st.campaigns[id];
    RestingIff(st, env, pol, id, room);
    EmptyRun(st);
    assert st.campaigns == st.campaigns[id := c];
    if Running(c.state) && c.active < |c.plan.stages| {
      var Moves(t, d) := Forwarded(st, env, id, c);
      ForwardedGood(st, env, id);
      var st1 := ApplyAll(st, t);
      SameSkew(st, st1, env, id, d, d);
      if d.state.Staged? && !SkewOk(st1, env, id, d) {
        var g := GuardsOf(st1, env, id, d).(failureRecorded := true);
        var u := MoveTrace(id, d, Blocked, g) + [DecisionEntry(id, Decision(DecBlock, Deny))];
        HoldEffect(st1, id, g);
        ApplyAllAppend(st, t, u);
        assert t + MoveTrace(id, d, Blocked, g) + [DecisionEntry(id, Decision(DecBlock, Deny))] == t + u;
      } else {
        NothingClaimed(st1, env, pol, id, d, Scope(d), room);
        assert t + [] == t;
        ForwardedTwice(st, st1, env, id, c);
        SameScope(st, st1, env, pol, id, d);
      }
    }
  }

  // ---- a pass -------------------------------------------------------------------------------------------------

  /** Only the campaigns of the order have changed, and nothing else that planning looks at. */
  ghost predicate OnlyThese(st: StoreState, post: StoreState, order: seq<CampaignId>) {
    SameFacts(st, post) &&
    forall id :: id !in order ==>
      (id in post.campaigns <==> id in st.campaigns) && (id in post.campaigns ==> post.campaigns[id] == st.campaigns[id])
  }

  /** The first campaign of a pass that hands out nothing: its own record is all that changes, and it is settled. */
  lemma FirstRests(st: StoreState, env: Env, pol: Policy, id: CampaignId, room: nat)
    requires Inv(st) && room > 0 && (id in st.campaigns ==> PlanCampaign(st, env, pol, id, room).items == [])
    ensures var b := if id in st.campaigns then PlanCampaign(st, env, pol, id, room) else Batch([], []);
            var post := ApplyAll(st, b.trace);
            Inv(post) && OnlyThese(st, post, [id]) && Quiescent(post, env, pol, id)
  {
    hide Inv, AllowedAll, ApplyAll, PlanCampaign, Forwarded, SkewOk, Scope;
    EmptyRun(st);
    if id in st.campaigns {
      PlanCampaignAllowed(st, env, pol, id, room);
      AllowedAllKeepsInv(st, PlanCampaign(st, env, pol, id, room).trace);
      RestingAgain(st, env, pol, id, room);
    }
  }

  lemma {:induction false} AllRest(st: StoreState, env: Env, pol: Policy, order: seq<CampaignId>, room: nat)
    requires Inv(st) && Distinct(order) && room > 0 && PlanWork(st, env, pol, order, room).items == []
    ensures var post := ApplyAll(st, PlanWork(st, env, pol, order, room).trace);
            Inv(post) && OnlyThese(st, post, order) && forall id :: id in order ==> Quiescent(post, env, pol, id)
    decreases |order|
  {
    hide Inv, ApplyAll, PlanCampaign, Quiescent, Distinct;
    EmptyRun(st);
    if order != [] {
      var id := order[0];
      var b := if id in st.campaigns then PlanCampaign(st, env, pol, id, room) else Batch([], []);
      var st1 := ApplyAll(st, b.trace);
      var rest := PlanWork(st1, env, pol, order[1..], room);
      assert b.items == [];
      FirstRests(st, env, pol, id, room);
      HeadAndTail(order);
      AllRest(st1, env, pol, order[1..], room);
      ApplyAllAppend(st, b.trace, rest.trace);
      SettledFrame(st1, ApplyAll(st1, rest.trace), env, pol, id);
    }
  }

  lemma {:induction false} RestingPlansNothing(st: StoreState, env: Env, pol: Policy, order: seq<CampaignId>, room: nat)
    requires Inv(st) && Distinct(order) && forall id :: id in order ==> Resting(st, env, pol, id)
    ensures PlanWork(st, env, pol, order, room).items == []
    decreases |order|
  {
    hide Inv, ApplyAll, PlanCampaign, Resting, Quiescent, Distinct;
    if order != [] && room > 0 {
      var id := order[0];
      HeadAndTail(order);
      if id in st.campaigns { RestingIff(st, env, pol, id, room); }
      FirstRests(st, env, pol, id, room);
      var b := if id in st.campaigns then PlanCampaign(st, env, pol, id, room) else Batch([], []);
      var st1 := ApplyAll(st, b.trace);
      forall x | x in order[1..] ensures Resting(st1, env, pol, x) { RestingFrame(st, st1, env, pol, x); }
      RestingPlansNothing(st1, env, pol, order[1..], room);
    }
  }

  /** An idle pass is a fixed point: with the same surroundings a further pass finds nothing to do. */
  lemma IdleStaysIdle(st: StoreState, post: StoreState, pol: Policy, p: PassInput)
    requires Inv(st) && Distinct(p.order) && FoundNothing(st, post, pol, p)
    ensures Planning(post, pol, p).items == []
  {
    hide Inv, ApplyAll, Resting, Quiescent, Distinct;
    if p.room > 0 {
      AllRest(st, p.env, pol, p.order, p.room);
      forall id | id in p.order ensures Resting(post, p.env, pol, id) { SettledRests(post, p.env, pol, id); }
      RestingPlansNothing(post, p.env, pol, p.order, p.room);
    }
  }

  // ---- what an idle pass leaves -------------------------------------------------------------------------------

  /** How many attempts of the stage are activating. */
  function ActivatingIn(attempts: map<Key, Attempt>, id: CampaignId, stage: nat): nat {
    |set k | k in attempts && k.campaign == id && k.stage == stage && attempts[k].state.AttActivating?|
  }

  /** How many activations an adapter permits at a time; zero means one. */
  function Permitted(d: Descriptor): nat { if d.maxParallel == 0 then 1 else d.maxParallel }

  /** Still gathering preparations for its active stage. */
  predicate Gathering(c: Campaign) {
    c.state.Prepared? || (c.state.Staged? && c.active < |c.progress| && c.progress[c.active].StagePending?)
  }

  /** Nothing is left that a pass could do for this attempt of the active stage: a gathering campaign has an attempt for it that
      is not to be prepared again; one that verifies has nothing activated left; one that activates has left it prepared only
      because stage, policy or adapter permit no further activation for now. */
  predicate DoneFor(st: StoreState, env: Env, pol: Policy, id: CampaignId, c: Campaign, t: TargetId)
    requires c.active < |c.plan.stages| && t in env.inventory
  {
    var k := Key(id, c.active, t);
    if Gathering(c) then
      if k in st.attempts then !(st.attempts[k].state.AttPreparing? && st.attempts[k].owner == st.incarnation) else pol.maxAttempts == 0
    else
      k in st.attempts ==>
        (c.state in {Activating, Verifying} ==> !st.attempts[k].state.AttActivated?) &&
        (c.state in {Staged, Activating} && st.attempts[k].state.AttPrepared? ==>
           var n := ActivatingIn(st.attempts, id, c.active);
           n >= c.plan.stages[c.active].maxParallel || n >= pol.maxConcurrent || n >= Permitted(env.inventory[t]))
  }

  /** No move is left either. */
  ghost predicate NoMoveLeft(st: StoreState, env: Env, id: CampaignId, c: Campaign) {
    var all := StageIn(st.attempts, id, c.plan, c.active, {AttActivated, AttVerified});
    (c.state.Prepared? && c.active < |c.progress| && c.progress[c.active].StagePrepared? ==> !AllSupport(env, c.plan)) &&
    (c.state.Staged? ==> SkewOk(st, env, id, c) && (all ==> !Drained(env, id, c.plan, c.active))) &&
    (c.state.Activating? ==> !all)
  }

  /** What an idle pass means for a campaign it lists, on the store it leaves. */
  lemma IdleMeans(st: StoreState, post: StoreState, pol: Policy, p: PassInput, id: CampaignId)
    requires Inv(st) && Distinct(p.order) && p.room > 0 && FoundNothing(st, post, pol, p)
    requires id in p.order && id in post.campaigns && post.campaigns[id].active < |post.campaigns[id].plan.stages|
    ensures var c := post.campaigns[id];
            if c.state.RollingBack? then
              forall s: nat, t :: Planned(c, s, t) && t in p.env.inventory && Key(id, s, t) in post.attempts ==>
                var a := post.attempts[Key(id, s, t)];
                a.state !in {AttActivated, AttVerified} && !(a.state.AttFailed? && a.activationObserved)
            else
              c.state in {Prepared, Staged, Activating, Verifying} ==>
                NoMoveLeft(post, p.env, id, c) &&
                forall t :: t in c.plan.stages[c.active].targets && t in p.env.inventory ==> DoneFor(post, p.env, pol, id, c, t)
  {
    hide Inv, ApplyAll, Quiescent, Distinct, DoneFor, NoMoveLeft, Planned;
    AllRest(st, p.env, pol, p.order, p.room);
    var c := post.campaigns[id];
    if Running(c.state) {
      SettledClaims(post, p.env, pol, id);
      if c.state.RollingBack? {
        forall s: nat, t | Planned(c, s, t) && t in p.env.inventory && Key(id, s, t) in post.attempts
          ensures var a := post.attempts[Key(id, s, t)];
                  a.state !in {AttActivated, AttVerified} && !(a.state.AttFailed? && a.activationObserved)
        {
          RollbackDone(post, p.env, pol, id, c, s, t);
        }
      } else {
        SettledMoves(post, p.env, pol, id);
        forall t | t in c.plan.stages[c.active].targets && t in p.env.inventory ensures DoneFor(post, p.env, pol, id, c, t) {
          InScopeOf(c, t);
          NoClaimMeans(post, p.env, pol, id, c, t);
        }
      }
    }
  }

  lemma SettledClaims(st: StoreState, env: Env, pol: Policy, id: CampaignId)
    requires Quiescent(st, env, pol, id) && id in st.campaigns
    requires Running(st.campaigns[id].state) && st.campaigns[id].active < |st.campaigns[id].plan.stages|
    ensures var c := st.campaigns[id];
            Forwarded(st, env, id, c).campaign == c && (c.state.Staged? ==> SkewOk(st, env, id, c)) &&
            forall x :: x in Scope(c) ==> ClaimFor(st, env, pol, id, c, x.0, x.1).NoClaim?
  {
    hide Forwarded, SkewOk, Scope, ClaimFor;
  }

  lemma InScopeOf(c: Campaign, t: TargetId)
    requires c.active < |c.plan.stages| && t in c.plan.stages[c.active].targets && !c.state.RollingBack?
    ensures (c.active, t) in Scope(c)
  {
    var i :| 0 <= i < |c.plan.stages[c.active].targets| && c.plan.stages[c.active].targets[i] == t;
    assert Scope(c)[i] == (c.active, t);
  }

  lemma RollbackDone(st: StoreState, env: Env, pol: Policy, id: CampaignId, c: Campaign, s: nat, t: TargetId)
    requires c.state.RollingBack? && c.active < |c.plan.stages| && Planned(c, s, t) && t in env.inventory && Key(id, s, t) in st.attempts
    requires forall x :: x in Scope(c) ==> ClaimFor(st, env, pol, id, c, x.0, x.1).NoClaim?
    ensures var a := st.attempts[Key(id, s, t)];
            a.state !in {AttActivated, AttVerified} && !(a.state.AttFailed? && a.activationObserved)
  {
    AllTargetsHas(c.plan.stages, 0, s, t);
    assert (s, t) in Scope(c);
  }

  lemma NoClaimMeans(st: StoreState, env: Env, pol: Policy, id: CampaignId, c: Campaign, t: TargetId)
    requires c.active < |c.plan.stages| && t in env.inventory && c.state in {Prepared, Staged, Activating, Verifying}
    requires ClaimFor(st, env, pol, id, c, c.active, t).NoClaim?
    ensures DoneFor(st, env, pol, id, c, t)
  {
    assert InStage(st, id, c.active, AttActivating) ==
           set k | k in st.attempts && k.campaign == id && k.stage == c.active && st.attempts[k].state.AttActivating?;
  }

  lemma SettledMoves(st: StoreState, env: Env, pol: Policy, id: CampaignId)
    requires id in st.campaigns && st.campaigns[id].state in {Prepared, Staged, Activating, Verifying}
    requires var c := st.campaigns[id];
             Forwarded(st, env, id, c).campaign == c && (c.state.Staged? ==> SkewOk(st, env, id, c))
    ensures NoMoveLeft(st, env, id, st.campaigns[id])
  {
    hide SkewOk, StageIn, AllSupport, Drained, ApplyAll, MoveTrace, GuardsOf, Permits;
    var c := st.campaigns[id];
    EmptyRun(st);
    var g := GuardsOf(st, env, id, c);
    Flags(st, env, id, c);
    ForwardMoves(g);
    ForwardMoves(g.(stagingComplete := true));
    if c.state.Prepared? && c.active < |c.progress| && c.progress[c.active].StagePrepared? && AllSupport(env, c.plan) {
      var d := Restage(st, env, id, c).campaign;
      RestageFacts(st, env, id, c);
      AdvanceTwice(st, ApplyAll(st, Restage(st, env, id, c).trace), env, id, d);
    }
  }
}
