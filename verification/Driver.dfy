/** The inline driver: a pass plans work and executes each item in order, until a pass finds nothing to do. A measure over
    the running campaigns shows that it gets there, provided no attempt is stuck in preparation under an old generation. */
module Driver {
  import opened Lifecycle
  import opened Records
  import opened Store
  import opened Verification
  import opened Protocol
  import opened Commands
  import opened Invariants
  import opened Sections
  import opened PlanSections
  import opened Work
  import opened Effects
  import opened Restart
  import opened Onward

  // ---- the measure --------------------------------------------------------------------------------------------

  /** What is left to do for one attempt while the campaign moves forward; `retries` is the policy's bound. */
  function ForwardWeight(a: Attempt, retries: nat): nat {
    match a.state
    case AttPreparing => retries + 3
    case AttPrepared => retries + 2
    case AttActivating => retries + 2
    case AttActivated => (if a.retries < retries then retries - a.retries else 0) + 1
    case AttVerifying => (if a.retries < retries then retries - a.retries else 0) + 1
    case _ => 0
  }

  /** An attempt of an old generation is claimed at most once more, and then nothing it does takes effect. */
  function StaleWeight(a: Attempt, rolling: bool): nat {
    if rolling then (if NeedsRollback(a) then 1 else 0) else if a.state.AttPrepared? || a.state.AttActivated? then 1 else 0
  }

  /** What the weight of an attempt depends on besides the attempt. */
  datatype Mode = Mode(rolling: bool, generation: nat, retries: nat)

  function ModeOf(c: Campaign, retries: nat): Mode { Mode(c.state.RollingBack?, c.generation, retries) }

  function KeyWeight(st: StoreState, mode: Mode, k: Key): nat {
    if k in st.attempts && st.attempts[k].generation != mode.generation then StaleWeight(st.attempts[k], mode.rolling)
    else if mode.rolling then
      if k in st.attempts && (NeedsRollback(st.attempts[k]) || st.attempts[k].state.AttRollingBack?) then 1 else 0
    else if k !in st.attempts then mode.retries + 3
    else ForwardWeight(st.attempts[k], mode.retries)
  }

  function Sum(st: StoreState, id: CampaignId, mode: Mode, todo: seq<(nat, TargetId)>): nat
    decreases |todo|
  {
    if todo == [] then 0 else KeyWeight(st, mode, Key(id, todo[0].0, todo[0].1)) + Sum(st, id, mode, todo[1..])
  }

  function RecordWeight(st: StoreState, retries: nat, id: CampaignId, c: Campaign): nat {
    if Running(c.state) then 1 + Sum(st, id, ModeOf(c, retries), AllTargets(c.plan.stages, 0)) else 0
  }

  function Weight(st: StoreState, retries: nat, id: CampaignId): nat {
    if id in st.campaigns then RecordWeight(st, retries, id, st.campaigns[id]) else 0
  }

  function Total(st: StoreState, retries: nat, ids: seq<CampaignId>): nat
    decreases |ids|
  {
    if ids == [] then 0 else Weight(st, retries, ids[0]) + Total(st, retries, ids[1..])
  }

  lemma {:induction false} SumBelow(st: StoreState, post: StoreState, id: CampaignId, mode: Mode, todo: seq<(nat, TargetId)>)
    requires forall x :: x in todo ==> KeyWeight(post, mode, Key(id, x.0, x.1)) <= KeyWeight(st, mode, Key(id, x.0, x.1))
    ensures Sum(post, id, mode, todo) <= Sum(st, id, mode, todo)
    ensures (exists x :: x in todo && KeyWeight(post, mode, Key(id, x.0, x.1)) < KeyWeight(st, mode, Key(id, x.0, x.1))) ==>
            Sum(post, id, mode, todo) < Sum(st, id, mode, todo)
    decreases |todo|
  {
    hide KeyWeight;
    if todo != [] {
      assert todo[0] in todo;
      assert forall x :: x in todo[1..] ==> x in todo;
      assert forall x :: x in todo ==> x == todo[0] || x in todo[1..];
      SumBelow(st, post, id, mode, todo[1..]);
    }
  }

  lemma {:induction false} SumBound(st: StoreState, id: CampaignId, mode: Mode, todo: seq<(nat, TargetId)>)
    ensures Sum(st, id, mode, todo) <= (mode.retries + 3) * |todo|
    decreases |todo|
  {
    if todo != [] {
      SumBound(st, id, mode, todo[1..]);
      assert (mode.retries + 3) * |todo| == (mode.retries + 3) * |todo[1..]| + (mode.retries + 3);
    }
  }

  // ---- locality -----------------------------------------------------------------------------------------------

  /** Only one campaign and its attempts changed, and it kept its plan and generation. */
  ghost predicate Local(st: StoreState, post: StoreState, id: CampaignId) {
    post.incarnation == st.incarnation && post.epoch == st.epoch &&
    (forall x :: x != id ==> (x in post.campaigns <==> x in st.campaigns) &&
                             (x in post.campaigns ==> post.campaigns[x] == st.campaigns[x])) &&
    (forall k: Key :: k.campaign != id ==>
       (k in post.attempts <==> k in st.attempts) && (k in post.attempts ==> post.attempts[k] == st.attempts[k])) &&
    id in st.campaigns && id in post.campaigns &&
    post.campaigns[id].generation == st.campaigns[id].generation && post.campaigns[id].plan == st.campaigns[id].plan &&
    post.campaigns[id].epoch == st.campaigns[id].epoch
  }

  lemma LocalTrans(a: StoreState, b: StoreState, c: StoreState, id: CampaignId)
    requires Local(a, b, id) && Local(b, c, id)
    ensures Local(a, c, id)
  {
  }

  lemma LocalSelf(st: StoreState, id: CampaignId)
    requires id in st.campaigns
    ensures Local(st, st, id)
  {
  }

  lemma {:induction false} OtherSum(st: StoreState, post: StoreState, id: CampaignId, x: CampaignId, mode: Mode,
                                    todo: seq<(nat, TargetId)>)
    requires Local(st, post, id) && x != id
    ensures Sum(post, x, mode, todo) == Sum(st, x, mode, todo)
    decreases |todo|
  {
    if todo != [] { OtherSum(st, post, id, x, mode, todo[1..]); }
  }

  lemma OtherWeight(st: StoreState, post: StoreState, id: CampaignId, x: CampaignId, retries: nat)
    requires Local(st, post, id) && x != id
    ensures Weight(post, retries, x) == Weight(st, retries, x)
  {
    if x in st.campaigns {
      var c := st.campaigns[x];
      OtherSum(st, post, id, x, ModeOf(c, retries), AllTargets(c.plan.stages, 0));
    }
  }

  lemma {:induction false} TotalBelow(st: StoreState, post: StoreState, id: CampaignId, retries: nat, ids: seq<CampaignId>)
    requires Local(st, post, id) && Weight(post, retries, id) <= Weight(st, retries, id)
    ensures Total(post, retries, ids) <= Total(st, retries, ids)
    ensures id in ids && Weight(post, retries, id) < Weight(st, retries, id) ==>
      Total(post, retries, ids) < Total(st, retries, ids)
    decreases |ids|
  {
    hide Weight, Local;
    if ids != [] {
      TotalBelow(st, post, id, retries, ids[1..]);
      if ids[0] != id { OtherWeight(st, post, id, ids[0], retries); }
    }
  }

  // ---- stuck attempts -----------------------------------------------------------------------------------------

  /** The attempt is being prepared by the running incarnation, in the active stage of a campaign that is still staging, under
      a generation the campaign no longer has. */
  predicate StuckAt(st: StoreState, k: Key) {
    k in st.attempts && k.campaign in st.campaigns &&
    var c, a := st.campaigns[k.campaign], st.attempts[k];
    Staging(c) && k.stage == c.active && c.active < |c.plan.stages| && k.target in c.plan.stages[c.active].targets &&
    a.state.AttPreparing? && a.owner == st.incarnation && a.generation != c.generation
  }

  ghost predicate NoneStuck(st: StoreState) { forall k :: k in st.attempts ==> !StuckAt(st, k) }

  /** The item would be accepted, as far as everything but the attempt's generation goes. */
  predicate Ready(st: StoreState, item: Item) {
    KeyOf(item) in st.attempts && item.campaign in st.campaigns &&
    var a := st.attempts[KeyOf(item)];
    var c := st.campaigns[item.campaign];
    a.owner == st.incarnation && a.state == Expected(item.kind) && c.generation == item.generation &&
    c.epoch == item.epoch && Accepts(item.kind, c.state)
  }

  /** Work that was just handed out takes effect exactly when its attempt was created under the current generation. */
  lemma ReadyIffCurrent(st: StoreState, item: Item)
    requires Ready(st, item)
    ensures FenceOk(st, item) <==> st.attempts[KeyOf(item)].generation == st.campaigns[item.campaign].generation
  {
  }

  ghost predicate AllPass(st: StoreState, items: seq<Item>) { forall i :: i in items ==> FenceOk(st, i) }

  // ---- one claim ----------------------------------------------------------------------------------------------

  /** A claim changes its own attempt only and does not add weight; work that would take effect before still would. Either the
      claim gets lighter, because it is the last one of a stale attempt, or the work it hands out takes effect. */
  ghost predicate GoodClaims(st: StoreState, post: StoreState, id: CampaignId, retries: nat, items: seq<Item>) {
    Local(st, post, id) && post.campaigns == st.campaigns && Weight(post, retries, id) <= Weight(st, retries, id) &&
    (NoneStuck(st) ==> NoneStuck(post)) && (forall i :: FenceOk(st, i) ==> FenceOk(post, i)) &&
    (NoneStuck(st) ==> Weight(post, retries, id) < Weight(st, retries, id) || AllPass(post, items))
  }

  /** What a pass looks at: planned targets, outside rollback those of the active stage. */
  predicate InScope(c: Campaign, x: (nat, TargetId)) {
    x.0 < |c.plan.stages| && x.1 in c.plan.stages[x.0].targets && (!c.state.RollingBack? ==> x.0 == c.active)
  }

  lemma {:induction false} ClaimWeight(st: StoreState, env: Env, pol: Policy, id: CampaignId, x: (nat, TargetId))
    requires id in st.campaigns && InScope(st.campaigns[id], x) && Running(st.campaigns[id].state)
    requires ClaimFor(st, env, pol, id, st.campaigns[id], x.0, x.1).ClaimAttempt?
    ensures var claim := ClaimFor(st, env, pol, id, st.campaigns[id], x.0, x.1);
            var post := Apply(st, AttemptEntry(Key(id, x.0, x.1), claim.attempt));
            Weight(post, pol.maxRetries, id) <= Weight(st, pol.maxRetries, id) &&
            (claim.attempt.generation != st.campaigns[id].generation ==>
               Weight(post, pol.maxRetries, id) < Weight(st, pol.maxRetries, id))
  {
    hide ActivationLimit, InStage, Sum, AllTargets;
    var c := st.campaigns[id];
    var mode := ModeOf(c, pol.maxRetries);
    var claim := ClaimFor(st, env, pol, id, c, x.0, x.1);
    var post := Apply(st, AttemptEntry(Key(id, x.0, x.1), claim.attempt));
    var todo := AllTargets(c.plan.stages, 0);
    AllTargetsHas(c.plan.stages, 0, x.0, x.1);
    ClaimedWeight(st, env, pol, id, x);
    forall y | y in todo ensures KeyWeight(post, mode, Key(id, y.0, y.1)) <= KeyWeight(st, mode, Key(id, y.0, y.1)) {
      if y != x { assert Key(id, y.0, y.1) != Key(id, x.0, x.1); }
    }
    SumBelow(st, post, id, mode, todo);
  }

  lemma ClaimedWeight(st: StoreState, env: Env, pol: Policy, id: CampaignId, x: (nat, TargetId))
    requires id in st.campaigns && InScope(st.campaigns[id], x)
    requires ClaimFor(st, env, pol, id, st.campaigns[id], x.0, x.1).ClaimAttempt?
    ensures var c := st.campaigns[id];
            var claim, k := ClaimFor(st, env, pol, id, c, x.0, x.1), Key(id, x.0, x.1);
            var before := KeyWeight(st, ModeOf(c, pol.maxRetries), k);
            var after := KeyWeight(Apply(st, AttemptEntry(k, claim.attempt)), ModeOf(c, pol.maxRetries), k);
            after <= before && (claim.attempt.generation != c.generation ==> after < before)
  {
    hide ActivationLimit, InStage;
  }

  lemma ClaimNotStuck(st: StoreState, env: Env, pol: Policy, id: CampaignId, stage: nat, t: TargetId)
    requires id in st.campaigns && stage < |st.campaigns[id].plan.stages|
    requires ClaimFor(st, env, pol, id, st.campaigns[id], stage, t).ClaimAttempt?
    requires NoneStuck(st)
    ensures NoneStuck(Apply(st, AttemptEntry(Key(id, stage, t), ClaimFor(st, env, pol, id, st.campaigns[id], stage, t).attempt)))
  {
    hide ActivationLimit, InStage;
    var k := Key(id, stage, t);
    var post := Apply(st, AttemptEntry(k, ClaimFor(st, env, pol, id, st.campaigns[id], stage, t).attempt));
    forall q | q in post.attempts ensures !StuckAt(post, q) {
      if q in st.attempts { assert !StuckAt(st, q); }
    }
  }

  lemma ClaimReady(st: StoreState, env: Env, pol: Policy, id: CampaignId, stage: nat, t: TargetId)
    requires id in st.campaigns && stage < |st.campaigns[id].plan.stages|
    requires ClaimFor(st, env, pol, id, st.campaigns[id], stage, t).ClaimAttempt?
    ensures var claim := ClaimFor(st, env, pol, id, st.campaigns[id], stage, t);
            var post := Apply(st, AttemptEntry(Key(id, stage, t), claim.attempt));
            Ready(post, claim.item) && KeyOf(claim.item) == Key(id, stage, t) && (forall i :: FenceOk(st, i) ==> FenceOk(post, i))
  {
    hide ActivationLimit, InStage;
  }

  lemma EmitPasses(st: StoreState, env: Env, pol: Policy, id: CampaignId, x: (nat, TargetId))
    requires id in st.campaigns && InScope(st.campaigns[id], x) && NoneStuck(st)
    requires ClaimFor(st, env, pol, id, st.campaigns[id], x.0, x.1).Emit?
    ensures FenceOk(st, ClaimFor(st, env, pol, id, st.campaigns[id], x.0, x.1).item)
  {
    hide ActivationLimit, InStage;
    assert !StuckAt(st, Key(id, x.0, x.1));
  }

  lemma {:induction false} ClaimGood(st: StoreState, env: Env, pol: Policy, id: CampaignId, x: (nat, TargetId))
    requires id in st.campaigns && InScope(st.campaigns[id], x) && Running(st.campaigns[id].state)
    ensures var claim := ClaimFor(st, env, pol, id, st.campaigns[id], x.0, x.1);
            GoodClaims(st, ApplyAll(st, ClaimTrace(Key(id, x.0, x.1), claim)), id, pol.maxRetries, ClaimItems(claim))
  {
    hide ClaimFor, Weight, NoneStuck, FenceOk, Ready, InScope;
    ScopeBound(st.campaigns[id], x);
    var claim, k := ClaimFor(st, env, pol, id, st.campaigns[id], x.0, x.1), Key(id, x.0, x.1);
    EmptyRun(st);
    LocalSelf(st, id);
    match claim
    case NoClaim =>
    case Emit(item) => if NoneStuck(st) { EmitPasses(st, env, pol, id, x); }
    case ClaimAttempt(b, item) =>
      var post := Apply(st, AttemptEntry(k, b));
      ApplyOne(st, AttemptEntry(k, b));
      ClaimWeight(st, env, pol, id, x);
      ClaimReady(st, env, pol, id, x.0, x.1);
      ReadyIffCurrent(post, item);
      if NoneStuck(st) { ClaimNotStuck(st, env, pol, id, x.0, x.1); }
  }

  lemma ScopeBound(c: Campaign, x: (nat, TargetId))
    requires InScope(c, x)
    ensures x.0 < |c.plan.stages|
  {
  }

  lemma GoodTrans(a: StoreState, b: StoreState, c: StoreState, id: CampaignId, retries: nat, p: seq<Item>, q: seq<Item>)
    requires GoodClaims(a, b, id, retries, p) && GoodClaims(b, c, id, retries, q)
    ensures GoodClaims(a, c, id, retries, p + q)
  {
    hide Weight, NoneStuck, FenceOk, Local;
    LocalTrans(a, b, c, id);
  }

  lemma {:induction false} ClaimAllGood(st: StoreState, env: Env, pol: Policy, id: CampaignId, todo: seq<(nat, TargetId)>,
                                        room: nat)
    requires id in st.campaigns && Running(st.campaigns[id].state)
    requires forall x :: x in todo ==> x.0 < |st.campaigns[id].plan.stages| && InScope(st.campaigns[id], x)
    ensures var b := ClaimAll(st, env, pol, id, st.campaigns[id], todo, room);
            GoodClaims(st, ApplyAll(st, b.trace), id, pol.maxRetries, b.items)
    decreases |todo|
  {
    hide ClaimFor, Weight, NoneStuck, FenceOk, Local, ApplyAll, Running, InScope;
    if todo == [] || room == 0 {
      EmptyRun(st);
      LocalSelf(st, id);
    } else {
      var c := st.campaigns[id];
      var k := Key(id, todo[0].0, todo[0].1);
      assert todo[0] in todo;
      var claim := ClaimFor(st, env, pol, id, c, todo[0].0, todo[0].1);
      var t := ClaimTrace(k, claim);
      var st1 := ApplyAll(st, t);
      ClaimGood(st, env, pol, id, todo[0]);
      var rest := ClaimAll(st1, env, pol, id, c, todo[1..], room - |ClaimItems(claim)|);
      ClaimAllGood(st1, env, pol, id, todo[1..], room - |ClaimItems(claim)|);
      ApplyAllAppend(st, t, rest.trace);
      GoodTrans(st, st1, ApplyAll(st1, rest.trace), id, pol.maxRetries, ClaimItems(claim), rest.items);
    }
  }

  // ---- one campaign -------------------------------------------------------------------------------------------

  /** Moves of a campaign among the running states keep everything the driver relies on. */
  lemma MovesGood(st: StoreState, post: StoreState, id: CampaignId, c: Campaign, retries: nat)
    requires id in st.campaigns && SameButCampaign(st, post, id, c) && OnlyMoved(st.campaigns[id], c)
    requires Running(st.campaigns[id].state) && Running(c.state) && (Staging(c) ==> Staging(st.campaigns[id]))
    requires c.state.RollingBack? <==> st.campaigns[id].state.RollingBack?
    ensures Local(st, post, id) && Weight(post, retries, id) == Weight(st, retries, id) && (NoneStuck(st) ==> NoneStuck(post))
  {
    hide Sum, Running;
    if NoneStuck(st) {
      forall k | k in post.attempts ensures !StuckAt(post, k) { assert !StuckAt(st, k); }
    }
    SumSame(st, post, id, ModeOf(c, retries), AllTargets(c.plan.stages, 0));
  }

  /** The moves of a pass do not lead back to staging. */
  lemma ForwardedStaging(st: StoreState, env: Env, id: CampaignId, c: Campaign)
    ensures Staging(Forwarded(st, env, id, c).campaign) ==> Staging(c)
  {
    hide GuardsOf, MoveTrace, Permits, ApplyAll;
    var m1 := Restage(st, env, id, c);
    assert Staging(m1.campaign) ==> Staging(c);
    AdvancedStaging(ApplyAll(st, m1.trace), env, id, m1.campaign);
  }

  lemma AdvancedStaging(st: StoreState, env: Env, id: CampaignId, c: Campaign)
    ensures Staging(Advance(st, env, id, c).campaign) ==> Staging(c)
  {
    hide GuardsOf, MoveTrace, Permits;
  }

  lemma {:induction false} SumSame(st: StoreState, post: StoreState, id: CampaignId, mode: Mode, todo: seq<(nat, TargetId)>)
    requires post.attempts == st.attempts
    ensures Sum(post, id, mode, todo) == Sum(st, id, mode, todo)
    decreases |todo|
  {
    if todo != [] { SumSame(st, post, id, mode, todo[1..]); }
  }

  lemma StopsGood(st: StoreState, post: StoreState, id: CampaignId, c: Campaign, retries: nat)
    requires id in st.campaigns && SameButCampaign(st, post, id, c) && OnlyMoved(st.campaigns[id], c) && !Running(c.state)
    ensures Local(st, post, id) && Weight(post, retries, id) == 0 && (NoneStuck(st) ==> NoneStuck(post))
  {
    hide Sum;
    if NoneStuck(st) {
      forall k | k in post.attempts ensures !StuckAt(post, k) { assert !StuckAt(st, k); }
    }
  }

  lemma HoldEffect(st: StoreState, id: CampaignId, g: Guards)
    requires id in st.campaigns && st.campaigns[id].state.Staged? && g.failureRecorded
    ensures var c := st.campaigns[id];
            var post := ApplyAll(st, MoveTrace(id, c, Blocked, g) + [DecisionEntry(id, Decision(DecBlock, Deny))]);
            SameButCampaign(st, post, id, Moved(c, Blocked))
  {
    hide MoveTrace;
    var c, t, d := st.campaigns[id], MoveTrace(id, st.campaigns[id], Blocked, g), DecisionEntry(id, Decision(DecBlock, Deny));
    MoveEffect(st, id, c, Blocked, g);
    ApplyAllAppend(st, t, [d]);
    ApplyOne(ApplyAll(st, t), d);
  }

  /** Planning one campaign: local, and no heavier; either lighter, or the work handed out takes effect. */
  ghost predicate GoodPlan(st: StoreState, post: StoreState, id: CampaignId, retries: nat, items: seq<Item>) {
    Local(st, post, id) && Weight(post, retries, id) <= Weight(st, retries, id) && (NoneStuck(st) ==> NoneStuck(post)) &&
    (NoneStuck(st) ==> Weight(post, retries, id) < Weight(st, retries, id) || AllPass(post, items)) &&
    forall i :: i in items ==> i.campaign == id
  }

  lemma ScopeInScope(c: Campaign)
    requires c.active < |c.plan.stages|
    ensures forall x :: x in Scope(c) ==> InScope(c, x)
  {
  }

  lemma {:induction false} PlanCampaignGood(st: StoreState, env: Env, pol: Policy, id: CampaignId, room: nat)
    requires Inv(st) && id in st.campaigns
    ensures var b := PlanCampaign(st, env, pol, id, room);
            GoodPlan(st, ApplyAll(st, b.trace), id, pol.maxRetries, b.items)
  {
    hide Inv, AllowedAll, ApplyAll, ClaimAll, Forwarded, Scope, SkewOk, GuardsOf, MoveTrace, Weight, NoneStuck, FenceOk, Local, InScope,
         Staging;
    var c := st.campaigns[id];
    EmptyRun(st);
    LocalSelf(st, id);
    if Running(c.state) && c.active < |c.plan.stages| {
      var Moves(t, c1) := Forwarded(st, env, id, c);
      ForwardedGood(st, env, id);
      ForwardedRuns(st, env, id, c);
      ForwardedStaging(st, env, id, c);
      var st1 := ApplyAll(st, t);
      MovesGood(st, st1, id, c1, pol.maxRetries);
      if c1.state.Staged? && !SkewOk(st1, env, id, c1) {
        var g := GuardsOf(st1, env, id, c1).(failureRecorded := true);
        var u := MoveTrace(id, c1, Blocked, g) + [DecisionEntry(id, Decision(DecBlock, Deny))];
        HoldEffect(st1, id, g);
        StopsGood(st1, ApplyAll(st1, u), id, Moved(c1, Blocked), pol.maxRetries);
        ApplyAllAppend(st, t, u);
        LocalTrans(st, st1, ApplyAll(st1, u), id);
        assert t + MoveTrace(id, c1, Blocked, g) + [DecisionEntry(id, Decision(DecBlock, Deny))] == t + u;
      } else {
        var b := ClaimAll(st1, env, pol, id, c1, Scope(c1), room);
        ScopeInScope(c1);
        ClaimAllGood(st1, env, pol, id, Scope(c1), room);
        ClaimAllOwn(st1, env, pol, id, c1, Scope(c1), room);
        ApplyAllAppend(st, t, b.trace);
        LocalTrans(st, st1, ApplyAll(st1, b.trace), id);
      }
    }
  }

  lemma {:induction false} ClaimAllOwn(st: StoreState, env: Env, pol: Policy, id: CampaignId, c: Campaign,
                                       todo: seq<(nat, TargetId)>, room: nat)
    requires forall x :: x in todo ==> x.0 < |c.plan.stages|
    ensures forall i :: i in ClaimAll(st, env, pol, id, c, todo, room).items ==> i.campaign == id
    decreases |todo|
  {
    hide ApplyAll, ActivationLimit, InStage;
    if todo != [] && room != 0 {
      assert todo[0] in todo;
      var claim := ClaimFor(st, env, pol, id, c, todo[0].0, todo[0].1);
      ClaimAllOwn(ApplyAll(st, ClaimTrace(Key(id, todo[0].0, todo[0].1), claim)), env, pol, id, c, todo[1..],
                  room - |ClaimItems(claim)|);
    }
  }

  // ---- a planning pass ----------------------------------------------------------------------------------------

  ghost predicate GoodPass(st: StoreState, post: StoreState, pol: Policy, ids: seq<CampaignId>, order: seq<CampaignId>,
                           items: seq<Item>) {
    Total(post, pol.maxRetries, ids) <= Total(st, pol.maxRetries, ids) && (NoneStuck(st) ==> NoneStuck(post)) &&
    (NoneStuck(st) ==> Total(post, pol.maxRetries, ids) < Total(st, pol.maxRetries, ids) || AllPass(post, items)) &&
    (forall i :: i in items ==> i.campaign in order) && KeptElsewhere(st, post, order)
  }

  /** Work of campaigns outside the list that would take effect still would. */
  ghost predicate KeptElsewhere(st: StoreState, post: StoreState, order: seq<CampaignId>) {
    forall i: Item :: i.campaign !in order && FenceOk(st, i) ==> FenceOk(post, i)
  }

  lemma GoodPassTrans(a: StoreState, b: StoreState, c: StoreState, pol: Policy, ids: seq<CampaignId>, order: seq<CampaignId>,
                      p: seq<Item>, q: seq<Item>)
    requires order != [] && GoodPass(a, b, pol, ids, [order[0]], p) && GoodPass(b, c, pol, ids, order[1..], q)
    requires order[0] !in order[1..]
    ensures GoodPass(a, c, pol, ids, order, p + q)
  {
    hide Total, NoneStuck, FenceOk;
    assert forall x :: x in order <==> x == order[0] || x in order[1..];
    forall i: Item | i.campaign !in order && FenceOk(a, i) ensures FenceOk(c, i) {
      assert i.campaign !in [order[0]] && FenceOk(b, i);
    }
    if AllPass(b, p) {
      forall i | i in p ensures FenceOk(c, i) { assert i.campaign !in order[1..]; }
    }
  }

  lemma OnePass(st: StoreState, post: StoreState, id: CampaignId, pol: Policy, ids: seq<CampaignId>, items: seq<Item>)
    requires GoodPlan(st, post, id, pol.maxRetries, items) && id in ids
    ensures GoodPass(st, post, pol, ids, [id], items)
  {
    hide Total, Weight, NoneStuck, FenceOk, Local;
    TotalBelow(st, post, id, pol.maxRetries, ids);
    LocalKeeps(st, post, id);
  }

  lemma NoPass(st: StoreState, pol: Policy, ids: seq<CampaignId>, order: seq<CampaignId>)
    ensures GoodPass(st, st, pol, ids, order, [])
  {
    hide Total, NoneStuck, FenceOk;
  }

  lemma {:induction false} PlanGood(st: StoreState, env: Env, pol: Policy, order: seq<CampaignId>, room: nat,
                                    ids: seq<CampaignId>)
    requires Inv(st) && Distinct(order) && Lists(ids, st.campaigns.Keys)
    ensures var b := PlanWork(st, env, pol, order, room);
            GoodPass(st, ApplyAll(st, b.trace), pol, ids, order, b.items)
    decreases |order|
  {
    hide Inv, AllowedAll, ApplyAll, PlanCampaign, GoodPass, GoodPlan, Distinct;
    EmptyAllowed(st);
    EmptyRun(st);
    NoPass(st, pol, ids, order);
    if order != [] && room != 0 {
      HeadAndTail(order);
      NoPass(st, pol, ids, [order[0]]);
      var b := if order[0] in st.campaigns then PlanCampaign(st, env, pol, order[0], room) else Batch([], []);
      var st1 := ApplyAll(st, b.trace);
      if order[0] in st.campaigns {
        PlanCampaignAllowed(st, env, pol, order[0], room);
        PlanCampaignGood(st, env, pol, order[0], room);
        PlannedDomain(st, st1, order[0], pol.maxRetries, b.items);
        OnePass(st, st1, order[0], pol, ids, b.items);
      }
      AllowedAllKeepsInv(st, b.trace);
      var left := if |b.items| <= room then room - |b.items| else 0;
      var rest := PlanWork(st1, env, pol, order[1..], left);
      PlanGood(st1, env, pol, order[1..], left, ids);
      ApplyAllAppend(st, b.trace, rest.trace);
      GoodPassTrans(st, st1, ApplyAll(st1, rest.trace), pol, ids, order, b.items, rest.items);
    }
  }

  lemma PlannedDomain(st: StoreState, post: StoreState, id: CampaignId, retries: nat, items: seq<Item>)
    requires GoodPlan(st, post, id, retries, items)
    ensures post.campaigns.Keys == st.campaigns.Keys
  {
    hide Weight, NoneStuck, FenceOk;
    LocalDomain(st, post, id);
  }

  lemma LocalKeeps(st: StoreState, post: StoreState, id: CampaignId)
    requires Local(st, post, id)
    ensures forall i: Item :: i.campaign != id && FenceOk(st, i) ==> FenceOk(post, i)
  {
  }

  // ---- one commit ---------------------------------------------------------------------------------------------

  lemma {:induction false} GateRefusalBlocks(st: StoreState, env: Env, item: Item, r: Report)
    requires FenceOk(st, item) && item.kind.Activate? && r.gateRefused
    ensures var post := ApplyAll(st, CommitActivate(st, env, item, r));
            item.campaign in post.campaigns && post.campaigns[item.campaign].state.Blocked?
  {
    hide GuardsOf, MoveTrace;
    var id := item.campaign;
    var w := AttemptEntry(KeyOf(item), st.attempts[KeyOf(item)].(state := AttPrepared));
    var st1, c := Apply(st, w), st.campaigns[id];
    var t, d := BlockTrace(st1, env, id, c), DecisionEntry(id, Decision(DecBlock, Deny));
    MoveEffect(st1, id, c, Blocked, GuardsOf(st1, env, id, c).(failureRecorded := true));
    ApplyAllAppend(st, [w], t + [d]);
    ApplyOne(st, w);
    ApplyAllAppend(st1, t, [d]);
    ApplyOne(ApplyAll(st1, t), d);
  }

  lemma {:induction false} RollbackFailureFails(st: StoreState, env: Env, item: Item, r: Report)
    requires FenceOk(st, item) && item.kind.Rollback? && !r.rolledBack
    ensures var post := ApplyAll(st, CommitRollback(st, env, item, r));
            item.campaign in post.campaigns && post.campaigns[item.campaign].state.Failed?
  {
    hide GuardsOf, MoveTrace;
    var id := item.campaign;
    var w := AttemptEntry(KeyOf(item), st.attempts[KeyOf(item)].(state := AttFailed));
    var st1, c := Apply(st, w), st.campaigns[id];
    var c1 := c.(failureRecorded := true);
    MoveEffect(st1, id, c1, Failed, GuardsOf(st1, env, id, c1).(failureRecorded := true));
    ApplyAllAppend(st, [w], FailTrace(st1, env, id, c));
    ApplyOne(st, w);
  }

  function ItemMode(item: Item, pol: Policy): Mode { Mode(item.kind.Rollback?, item.generation, pol.maxRetries) }

  /** The attempt of an effective commit gets lighter, unless the commit stops the campaign. */
  lemma CommittedLighter(st: StoreState, env: Env, pol: Policy, item: Item, r: Report)
    requires FenceOk(st, item)
    requires !(item.kind.Activate? && r.gateRefused) && !(item.kind.Rollback? && !r.rolledBack)
    ensures var post := Apply(st, AttemptEntry(KeyOf(item), Committed(st, env, pol, item, r)));
            KeyWeight(post, ItemMode(item, pol), KeyOf(item)) < KeyWeight(st, ItemMode(item, pol), KeyOf(item))
  {
    hide Succeeded;
  }

  lemma AcceptsRuns(kind: OperationKind, s: UpgradeState)
    requires Accepts(kind, s)
    ensures Running(s) && (s.RollingBack? <==> kind.Rollback?)
  {
  }

  /** The campaign after an effective commit: same generation and plan, and running only in the mode it was in. */
  lemma AfterCommit(st: StoreState, env: Env, pol: Policy, item: Item, r: Report)
    requires Inv(st) && ItemOk(st, item) && FenceOk(st, item)
    ensures var post := ApplyAll(st, CommitTrace(st, env, pol, item, r));
            Local(st, post, item.campaign) &&
            post.attempts == st.attempts[KeyOf(item) := Committed(st, env, pol, item, r)] &&
            var d := post.campaigns[item.campaign];
            (Running(d.state) ==> (d.state.RollingBack? <==> item.kind.Rollback?))
  {
    hide Inv, CommitTrace, ApplyAll, Committed, ItemOk;
    var id := item.campaign;
    var post := ApplyAll(st, CommitTrace(st, env, pol, item, r));
    CommitAllowed(st, env, pol, item, r);
    FollowsAll(st, CommitTrace(st, env, pol, item, r));
    CommitEffect(st, env, pol, item, r);
    assert Later(st.campaigns[id], post.campaigns[id]);
  }

  lemma {:induction false} CommitShrinks(st: StoreState, env: Env, pol: Policy, item: Item, r: Report)
    requires Inv(st) && ItemOk(st, item) && FenceOk(st, item)
    ensures var post := ApplyAll(st, CommitTrace(st, env, pol, item, r));
            Local(st, post, item.campaign) &&
            Weight(post, pol.maxRetries, item.campaign) < Weight(st, pol.maxRetries, item.campaign)
  {
    hide Inv, CommitActivate, CommitRollback, CommitPrepare, CommitVerify, ApplyAll, Committed, ItemOk, Sum, KeyWeight, Local,
         AllTargets;
    var id, k := item.campaign, KeyOf(item);
    var post := ApplyAll(st, CommitTrace(st, env, pol, item, r));
    var c := st.campaigns[id];
    AfterCommit(st, env, pol, item, r);
    AcceptsRuns(item.kind, c.state);
    LocalHas(st, post, id);
    if item.kind.Activate? && r.gateRefused {
      GateRefusalBlocks(st, env, item, r);
    } else if item.kind.Rollback? && !r.rolledBack {
      RollbackFailureFails(st, env, item, r);
    } else if Running(post.campaigns[id].state) {
      PlannedItem(st, item);
      CommittedLighter(st, env, pol, item, r);
      LighterSum(st, post, pol, item, Committed(st, env, pol, item, r));
      assert ModeOf(c, pol.maxRetries) == ItemMode(item, pol) == ModeOf(post.campaigns[id], pol.maxRetries);
    }
  }

  lemma SameWeight(st: StoreState, post: StoreState, retries: nat, id: CampaignId)
    requires post.campaigns == st.campaigns && post.attempts == st.attempts
    ensures Weight(post, retries, id) == Weight(st, retries, id)
  {
    hide Sum, AllTargets, KeyWeight;
    if id in st.campaigns {
      var c := st.campaigns[id];
      var mode := ModeOf(c, retries);
      var todo := AllTargets(c.plan.stages, 0);
      forall x | x in todo ensures KeyWeight(post, mode, Key(id, x.0, x.1)) == KeyWeight(st, mode, Key(id, x.0, x.1)) {
        SameKeyWeight(st, post, mode, Key(id, x.0, x.1));
      }
      SumBelow(st, post, id, mode, todo);
      SumBelow(post, st, id, mode, todo);
    }
  }

  lemma SameKeyWeight(st: StoreState, post: StoreState, mode: Mode, k: Key)
    requires post.attempts == st.attempts
    ensures KeyWeight(post, mode, k) == KeyWeight(st, mode, k)
  {
  }

  /** The fence alone decides: work handed out by a pass changes a campaign, an attempt or the ledger when it is committed if and
      only if it passes the fence, whatever the adapter reports. */
  lemma FenceDecides(st: StoreState, env: Env, pol: Policy, item: Item, r: Report)
    requires Inv(st) && ItemOk(st, item)
    ensures var post := ApplyAll(st, CommitTrace(st, env, pol, item, r));
            FenceOk(st, item) <==>
            post.campaigns != st.campaigns || post.attempts != st.attempts || post.ledger != st.ledger
  {
    hide Inv, ItemOk, FenceOk, CommitTrace, ApplyAll, Local, Weight;
    if FenceOk(st, item) {
      CommitShrinks(st, env, pol, item, r);
      var post := ApplyAll(st, CommitTrace(st, env, pol, item, r));
      if post.campaigns == st.campaigns && post.attempts == st.attempts { SameWeight(st, post, pol.maxRetries, item.campaign); }
    } else {
      FencedCommit(st, env, pol, item, r);
    }
  }

  lemma LocalHas(st: StoreState, post: StoreState, id: CampaignId)
    requires Local(st, post, id)
    ensures id in post.campaigns && id in st.campaigns && post.campaigns[id].plan == st.campaigns[id].plan &&
            post.campaigns[id].generation == st.campaigns[id].generation
  {
  }

  lemma PlannedItem(st: StoreState, item: Item)
    requires Inv(st) && FenceOk(st, item)
    ensures (item.stage, item.target) in AllTargets(st.campaigns[item.campaign].plan.stages, 0)
  {
    hide AllTargets;
    assert AttemptIn(st, KeyOf(item));
    AllTargetsHas(st.campaigns[item.campaign].plan.stages, 0, item.stage, item.target);
  }

  lemma LighterSum(st: StoreState, post: StoreState, pol: Policy, item: Item, b: Attempt)
    requires FenceOk(st, item) && post.attempts == st.attempts[KeyOf(item) := b]
    requires (item.stage, item.target) in AllTargets(st.campaigns[item.campaign].plan.stages, 0)
    requires KeyWeight(Apply(st, AttemptEntry(KeyOf(item), b)), ItemMode(item, pol), KeyOf(item)) <
             KeyWeight(st, ItemMode(item, pol), KeyOf(item))
    ensures var todo := AllTargets(st.campaigns[item.campaign].plan.stages, 0);
            Sum(post, item.campaign, ItemMode(item, pol), todo) < Sum(st, item.campaign, ItemMode(item, pol), todo)
  {
    hide AllTargets, Sum, ForwardWeight, StaleWeight, NeedsRollback;
    var todo := AllTargets(st.campaigns[item.campaign].plan.stages, 0);
    SumBelow(st, post, item.campaign, ItemMode(item, pol), todo);
  }

  // ---- commits make nothing stuck -----------------------------------------------------------------------------

  lemma CommitNotStuck(st: StoreState, env: Env, pol: Policy, item: Item, r: Report)
    requires Inv(st) && ItemOk(st, item) && FenceOk(st, item) && NoneStuck(st)
    ensures NoneStuck(ApplyAll(st, CommitTrace(st, env, pol, item, r)))
  {
    hide Inv, CommitTrace, ApplyAll, ItemOk, NoReturn, Committed;
    var post := ApplyAll(st, CommitTrace(st, env, pol, item, r));
    AfterCommit(st, env, pol, item, r);
    CommitNoReturn(st, env, pol, item, r);
    CommitAllowed(st, env, pol, item, r);
    FollowsAll(st, CommitTrace(st, env, pol, item, r));
    NotStuckAfter(st, post, item, Committed(st, env, pol, item, r));
  }

  lemma NotStuckAfter(st: StoreState, post: StoreState, item: Item, b: Attempt)
    requires Inv(st) && NoneStuck(st) && Local(st, post, item.campaign) && post.attempts == st.attempts[KeyOf(item) := b]
    requires !InFlight(b.state) && Follows(st, post)
    requires NoReturn(st.campaigns[item.campaign], post.campaigns[item.campaign])
    ensures NoneStuck(post)
  {
    hide CampaignsOk, LedgerOk, AttemptsOk;
    var c, d := st.campaigns[item.campaign], post.campaigns[item.campaign];
    assert Later(c, d);
    forall k | k in post.attempts ensures !StuckAt(post, k) {
      if k != KeyOf(item) {
        assert !StuckAt(st, k);
        if k.campaign == item.campaign && StuckAt(post, k) && d.active > c.active { NoneAhead(st, k); }
      }
    }
  }

  /** A campaign on the forward side has no attempt beyond its active stage. */
  lemma NoneAhead(st: StoreState, k: Key)
    requires Inv(st) && k in st.attempts && k.campaign in st.campaigns && Forward(st.campaigns[k.campaign].state)
    ensures k.stage <= st.campaigns[k.campaign].active
  {
    assert AttemptIn(st, k);
  }

  // ---- a whole inline pass ------------------------------------------------------------------------------------

  /** The items are executed one after another; each commit sees its own surroundings and adapter report. */
  ghost function CommitEach(st: StoreState, pol: Policy, items: seq<Item>, answers: seq<(Env, Report)>): StoreState
    requires |items| <= |answers|
    decreases |items|
  {
    if items == [] then st
    else CommitEach(ApplyAll(st, CommitTrace(st, answers[0].0, pol, items[0], answers[0].1)), pol, items[1..], answers[1..])
  }

  datatype PassInput = PassInput(env: Env, order: seq<CampaignId>, room: nat, answers: seq<(Env, Report)>)

  ghost function Planning(st: StoreState, pol: Policy, p: PassInput): Batch { PlanWork(st, p.env, pol, p.order, p.room) }

  ghost predicate PassOk(st: StoreState, pol: Policy, p: PassInput) {
    Distinct(p.order) && |Planning(st, pol, p).items| <= |p.answers|
  }

  ghost function InlinePass(st: StoreState, pol: Policy, p: PassInput): StoreState
    requires PassOk(st, pol, p)
  {
    CommitEach(ApplyAll(st, Planning(st, pol, p).trace), pol, Planning(st, pol, p).items, p.answers)
  }

  ghost predicate Healthy(st: StoreState) { Inv(st) && NoneStuck(st) }

  lemma {:induction false} CommitStep(st: StoreState, env: Env, pol: Policy, item: Item, r: Report, ids: seq<CampaignId>)
    requires Healthy(st) && ItemOk(st, item) && Lists(ids, st.campaigns.Keys)
    ensures var post := ApplyAll(st, CommitTrace(st, env, pol, item, r));
            Healthy(post) && post.campaigns.Keys == st.campaigns.Keys && Follows(st, post) &&
            Total(post, pol.maxRetries, ids) <= Total(st, pol.maxRetries, ids) &&
            (FenceOk(st, item) ==> Total(post, pol.maxRetries, ids) < Total(st, pol.maxRetries, ids))
  {
    hide Inv, CommitTrace, ApplyAll, Total, Weight, NoneStuck, FenceOk, Follows;
    var t := CommitTrace(st, env, pol, item, r);
    CommitAllowed(st, env, pol, item, r);
    AllowedAllKeepsInv(st, t);
    FollowsAll(st, t);
    if FenceOk(st, item) {
      CommitShrinks(st, env, pol, item, r);
      CommitNotStuck(st, env, pol, item, r);
      TotalBelow(st, ApplyAll(st, t), item.campaign, pol.maxRetries, ids);
    } else {
      FencedCommit(st, env, pol, item, r);
      FencedNeutral(st, ApplyAll(st, t), pol, ids);
    }
  }

  lemma {:induction false} FencedNeutral(st: StoreState, post: StoreState, pol: Policy, ids: seq<CampaignId>)
    requires post == st.(decisions := post.decisions)
    ensures Total(post, pol.maxRetries, ids) == Total(st, pol.maxRetries, ids)
    ensures NoneStuck(st) ==> NoneStuck(post)
    decreases |ids|
  {
    hide Running, Staging;
    if NoneStuck(st) {
      forall k | k in post.attempts ensures !StuckAt(post, k) { assert !StuckAt(st, k); }
    }
    if ids != [] {
      FencedNeutral(st, post, pol, ids[1..]);
      if ids[0] in st.campaigns {
        var c := st.campaigns[ids[0]];
        SumSame(st, post, ids[0], ModeOf(c, pol.maxRetries), AllTargets(c.plan.stages, 0));
      }
    }
  }

  lemma {:induction false} CommitEachShrinks(st: StoreState, pol: Policy, items: seq<Item>, answers: seq<(Env, Report)>,
                                             ids: seq<CampaignId>)
    requires |items| <= |answers| && Healthy(st) && AllOk(st, items) && Lists(ids, st.campaigns.Keys)
    ensures var post := CommitEach(st, pol, items, answers);
            Healthy(post) && post.campaigns.Keys == st.campaigns.Keys &&
            Total(post, pol.maxRetries, ids) <= Total(st, pol.maxRetries, ids) &&
            (items != [] && FenceOk(st, items[0]) ==> Total(post, pol.maxRetries, ids) < Total(st, pol.maxRetries, ids))
    decreases |items|
  {
    hide Healthy, CommitTrace, ApplyAll, Total, FenceOk, Follows, ItemOk;
    if items != [] {
      var st1 := ApplyAll(st, CommitTrace(st, answers[0].0, pol, items[0], answers[0].1));
      assert items[0] in items;
      CommitStep(st, answers[0].0, pol, items[0], answers[0].1, ids);
      ItemsStay(st, st1, items);
      CommitEachShrinks(st1, pol, items[1..], answers[1..], ids);
    }
  }

  /** Every inline pass that hands out work makes the measure strictly smaller, whatever the adapters report: the first item takes
      effect, or the pass has claimed a stale attempt for the last time. */
  lemma {:induction false} PassShrinks(st: StoreState, pol: Policy, p: PassInput, ids: seq<CampaignId>)
    requires Healthy(st) && PassOk(st, pol, p) && Lists(ids, st.campaigns.Keys)
    ensures var post := InlinePass(st, pol, p);
            Healthy(post) && post.campaigns.Keys == st.campaigns.Keys &&
            Total(post, pol.maxRetries, ids) <= Total(st, pol.maxRetries, ids) &&
            (Planning(st, pol, p).items != [] ==> Total(post, pol.maxRetries, ids) < Total(st, pol.maxRetries, ids))
  {
    hide Inv, PlanWork, ApplyAll, Total, FenceOk, NoneStuck, ItemOk, CommitEach, AllowedAll, KeptElsewhere;
    var b := Planning(st, pol, p);
    var st1 := ApplyAll(st, b.trace);
    PlanAllowed(st, p.env, pol, p.order, p.room);
    AllowedAllKeepsInv(st, b.trace);
    PlanGood(st, p.env, pol, p.order, p.room, ids);
    PlanItemsOk(st, p.env, pol, p.order, p.room);
    PlanKeys(st, p.env, pol, p.order, p.room);
    if b.items != [] { assert b.items[0] in b.items; }
    CommitEachShrinks(st1, pol, b.items, p.answers, ids);
  }

  lemma {:induction false} PlanKeys(st: StoreState, env: Env, pol: Policy, order: seq<CampaignId>, room: nat)
    requires Inv(st)
    ensures ApplyAll(st, PlanWork(st, env, pol, order, room).trace).campaigns.Keys == st.campaigns.Keys
    decreases |order|
  {
    hide Inv, AllowedAll, ApplyAll, PlanCampaign, NoneStuck, FenceOk, Weight;
    EmptyAllowed(st);
    if order != [] && room != 0 {
      var b := if order[0] in st.campaigns then PlanCampaign(st, env, pol, order[0], room) else Batch([], []);
      var st1 := ApplyAll(st, b.trace);
      if order[0] in st.campaigns {
        PlanCampaignAllowed(st, env, pol, order[0], room);
        PlanCampaignGood(st, env, pol, order[0], room);
        LocalDomain(st, st1, order[0]);
      }
      AllowedAllKeepsInv(st, b.trace);
      var left := if |b.items| <= room then room - |b.items| else 0;
      PlanKeys(st1, env, pol, order[1..], left);
      ApplyAllAppend(st, b.trace, PlanWork(st1, env, pol, order[1..], left).trace);
    }
  }

  lemma LocalDomain(st: StoreState, post: StoreState, id: CampaignId)
    requires Local(st, post, id)
    ensures post.campaigns.Keys == st.campaigns.Keys
  {
    forall x ensures x in post.campaigns <==> x in st.campaigns { if x != id {} }
  }

  /** Whatever the attempts, a pass keeps the store's invariant. */
  lemma {:induction false} CommitEachSound(st: StoreState, pol: Policy, items: seq<Item>, answers: seq<(Env, Report)>)
    requires |items| <= |answers| && Inv(st) && AllOk(st, items)
    ensures Inv(CommitEach(st, pol, items, answers))
    decreases |items|
  {
    hide Inv, CommitTrace, ApplyAll, Follows, ItemOk, AllowedAll;
    if items != [] {
      var t := CommitTrace(st, answers[0].0, pol, items[0], answers[0].1);
      assert items[0] in items;
      CommitAllowed(st, answers[0].0, pol, items[0], answers[0].1);
      AllowedAllKeepsInv(st, t);
      FollowsAll(st, t);
      ItemsStay(st, ApplyAll(st, t), items);
      CommitEachSound(ApplyAll(st, t), pol, items[1..], answers[1..]);
    }
  }

  lemma PassSound(st: StoreState, pol: Policy, p: PassInput)
    requires Inv(st) && PassOk(st, pol, p)
    ensures Inv(InlinePass(st, pol, p))
  {
    hide Inv, PlanWork, ApplyAll, ItemOk, CommitEach, AllowedAll;
    PlanAllowed(st, p.env, pol, p.order, p.room);
    AllowedAllKeepsInv(st, Planning(st, pol, p).trace);
    PlanItemsOk(st, p.env, pol, p.order, p.room);
    CommitEachSound(ApplyAll(st, Planning(st, pol, p).trace), pol, Planning(st, pol, p).items, p.answers);
  }

  // ---- the driver ---------------------------------------------------------------------------------------------

  /** Passes in a row that all hand out work: the driver keeps going. */
  ghost predicate AllBusy(st: StoreState, pol: Policy, passes: seq<PassInput>)
    decreases |passes|
  {
    passes == [] ||
    (PassOk(st, pol, passes[0]) && Planning(st, pol, passes[0]).items != [] &&
     AllBusy(InlinePass(st, pol, passes[0]), pol, passes[1..]))
  }

  /** The store after these passes. */
  ghost function Driven(st: StoreState, pol: Policy, passes: seq<PassInput>): StoreState
    requires AllBusy(st, pol, passes)
    decreases |passes|
  {
    if passes == [] then st else Driven(InlinePass(st, pol, passes[0]), pol, passes[1..])
  }

  /** One busy pass more. */
  lemma {:induction false} BusyAgain(st: StoreState, pol: Policy, passes: seq<PassInput>, p: PassInput)
    requires AllBusy(st, pol, passes)
    requires PassOk(Driven(st, pol, passes), pol, p) && Planning(Driven(st, pol, passes), pol, p).items != []
    ensures AllBusy(st, pol, passes + [p])
    ensures Driven(st, pol, passes + [p]) == InlinePass(Driven(st, pol, passes), pol, p)
    decreases |passes|
  {
    hide PassOk, Planning, InlinePass;
    var more := passes + [p];
    if passes == [] {
      assert more[0] == p && more[1..] == [];
    } else {
      assert more[0] == passes[0] && more[1..] == passes[1..] + [p];
      BusyAgain(InlinePass(st, pol, passes[0]), pol, passes[1..], p);
    }
  }

  /** The driver goes idle: from any healthy store there are at most as many busy passes in a row as the measure says. */
  lemma {:induction false} DriverGoesIdle(st: StoreState, pol: Policy, passes: seq<PassInput>, ids: seq<CampaignId>)
    requires Healthy(st) && Lists(ids, st.campaigns.Keys) && AllBusy(st, pol, passes)
    ensures |passes| <= Total(st, pol.maxRetries, ids)
    decreases |passes|
  {
    hide Healthy, Total, InlinePass, Planning;
    if passes != [] {
      PassShrinks(st, pol, passes[0], ids);
      DriverGoesIdle(InlinePass(st, pol, passes[0]), pol, passes[1..], ids);
    }
  }

  /** A pass that found nothing to do: it handed out nothing, and claimed nothing. */
  ghost predicate FoundNothing(st: StoreState, post: StoreState, pol: Policy, p: PassInput) {
    Planning(st, pol, p).items == [] && post == ApplyAll(st, Planning(st, pol, p).trace) && post.attempts == st.attempts
  }

  lemma {:induction false} NothingClaimed(st: StoreState, env: Env, pol: Policy, id: CampaignId, c: Campaign,
                                          todo: seq<(nat, TargetId)>, room: nat)
    requires forall x :: x in todo ==> x.0 < |c.plan.stages|
    requires ClaimAll(st, env, pol, id, c, todo, room).items == []
    ensures ClaimAll(st, env, pol, id, c, todo, room).trace == []
    decreases |todo|
  {
    hide ClaimFor, ApplyAll;
    EmptyRun(st);
    if todo != [] && room != 0 {
      var x := todo[0];
      assert x in todo;
      assert ClaimFor(st, env, pol, id, c, x.0, x.1).NoClaim?;
      assert ApplyAll(st, []) == st;
      NothingClaimed(st, env, pol, id, c, todo[1..], room);
    }
  }

  lemma NothingPlannedIn(st: StoreState, env: Env, pol: Policy, id: CampaignId, room: nat)
    requires Inv(st) && id in st.campaigns && PlanCampaign(st, env, pol, id, room).items == []
    ensures ApplyAll(st, PlanCampaign(st, env, pol, id, room).trace).attempts == st.attempts
  {
    hide Inv, AllowedAll, ApplyAll, ClaimAll, Forwarded, Scope, SkewOk, GuardsOf, MoveTrace;
    var c := st.campaigns[id];
    EmptyRun(st);
    if Running(c.state) && c.active < |c.plan.stages| {
      var Moves(t, c1) := Forwarded(st, env, id, c);
      ForwardedGood(st, env, id);
      var st1 := ApplyAll(st, t);
      if c1.state.Staged? && !SkewOk(st1, env, id, c1) {
        var g := GuardsOf(st1, env, id, c1).(failureRecorded := true);
        var u := MoveTrace(id, c1, Blocked, g) + [DecisionEntry(id, Decision(DecBlock, Deny))];
        HoldEffect(st1, id, g);
        ApplyAllAppend(st, t, u);
        assert t + MoveTrace(id, c1, Blocked, g) + [DecisionEntry(id, Decision(DecBlock, Deny))] == t + u;
      } else {
        NothingClaimed(st1, env, pol, id, c1, Scope(c1), room);
        assert t + [] == t;
      }
    }
  }

  lemma {:induction false} NothingPlanned(st: StoreState, env: Env, pol: Policy, order: seq<CampaignId>, room: nat)
    requires Inv(st) && PlanWork(st, env, pol, order, room).items == []
    ensures ApplyAll(st, PlanWork(st, env, pol, order, room).trace).attempts == st.attempts
    decreases |order|
  {
    hide Inv, AllowedAll, ApplyAll, PlanCampaign;
    EmptyAllowed(st);
    EmptyRun(st);
    if order != [] && room != 0 {
      var b := if order[0] in st.campaigns then PlanCampaign(st, env, pol, order[0], room) else Batch([], []);
      var st1 := ApplyAll(st, b.trace);
      assert b.items == [];
      if order[0] in st.campaigns {
        PlanCampaignAllowed(st, env, pol, order[0], room);
        NothingPlannedIn(st, env, pol, order[0], room);
      }
      AllowedAllKeepsInv(st, b.trace);
      NothingPlanned(st1, env, pol, order[1..], room);
      ApplyAllAppend(st, b.trace, PlanWork(st1, env, pol, order[1..], room).trace);
    }
  }

  /** Planned targets of the running campaigns. */
  function RunningTargets(st: StoreState, ids: seq<CampaignId>): nat
    decreases |ids|
  {
    if ids == [] then 0
    else (if ids[0] in st.campaigns && Running(st.campaigns[ids[0]].state)
          then |AllTargets(st.campaigns[ids[0]].plan.stages, 0)| else 0) + RunningTargets(st, ids[1..])
  }

  /** The bound is linear: one per campaign, and per planned target the retries plus three. */
  lemma {:induction false} TotalIsLinear(st: StoreState, retries: nat, ids: seq<CampaignId>)
    ensures Total(st, retries, ids) <= |ids| + (retries + 3) * RunningTargets(st, ids)
    decreases |ids|
  {
    hide AllTargets, Sum;
    if ids != [] {
      TotalIsLinear(st, retries, ids[1..]);
      var n := RunningTargets(st, ids[1..]);
      if ids[0] in st.campaigns && Running(st.campaigns[ids[0]].state) {
        var c := st.campaigns[ids[0]];
        var todo := AllTargets(c.plan.stages, 0);
        SumBound(st, ids[0], ModeOf(c, retries), todo);
        assert (retries + 3) * (|todo| + n) == (retries + 3) * |todo| + (retries + 3) * n;
      }
    }
  }
}
