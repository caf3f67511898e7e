/** Where the inline driver does not go idle: exactly where an attempt is stuck in preparation. */
module StuckDriver {
  import opened Lifecycle
  import opened Skew
  import opened Records
  import opened Verification
  import opened Store
  import opened Protocol
  import opened Commands
  import opened Invariants
  import opened Effects
  import opened Restart
  import opened Guarantees
  import opened Driver

  /** Nothing that matters to a stuck attempt has changed. */
  ghost predicate Untouched(st: StoreState, post: StoreState, k: Key) {
    post.incarnation == st.incarnation && k in st.attempts && k in post.attempts && post.attempts[k] == st.attempts[k] &&
    k.campaign in st.campaigns && k.campaign in post.campaigns && post.campaigns[k.campaign] == st.campaigns[k.campaign]
  }

  lemma StaysStuck(st: StoreState, post: StoreState, k: Key)
    requires StuckAt(st, k) && Untouched(st, post, k)
    ensures StuckAt(post, k) && post.campaigns[k.campaign] == st.campaigns[k.campaign]
  {
  }

  lemma StuckHas(st: StoreState, k: Key)
    requires StuckAt(st, k)
    ensures k in st.attempts && k.campaign in st.campaigns
    ensures var c := st.campaigns[k.campaign];
            c.active < |c.plan.stages| && k.stage == c.active && k.target in c.plan.stages[c.active].targets
  {
  }

  /** Work for the preparation of a target in the active stage. */
  predicate PreparesIn(item: Item, id: CampaignId, stage: nat) {
    item.kind.Prepare? && item.campaign == id && item.stage == stage
  }

  /** Of the campaign of a stuck attempt, only preparations are handed out. */
  predicate OnlyPrepares(items: seq<Item>, k: Key) {
    forall i :: i in items && i.campaign == k.campaign ==> PreparesIn(i, k.campaign, k.stage)
  }

  // ---- other campaigns ----------------------------------------------------------------------------------------

  /** Writes about other campaigns only, apart from decisions. */
  predicate Elsewhere(es: seq<Entry>, id: CampaignId) {
    forall e :: e in es ==>
      e.DecisionEntry? || (e.CampaignEntry? && e.id != id) || (e.AttemptEntry? && e.key.campaign != id)
  }

  lemma {:induction false} ElsewhereKeeps(st: StoreState, es: seq<Entry>, k: Key)
    requires Elsewhere(es, k.campaign) && k in st.attempts && k.campaign in st.campaigns
    ensures Untouched(st, ApplyAll(st, es), k)
    decreases |es|
  {
    if es != [] {
      assert es[0] in es;
      ElsewhereKeeps(Apply(st, es[0]), es[1..], k);
    }
  }

  lemma {:induction false} OtherClaims(st: StoreState, env: Env, pol: Policy, x: CampaignId, c: Campaign,
                                       todo: seq<(nat, TargetId)>, room: nat, id: CampaignId)
    requires x != id && forall y :: y in todo ==> y.0 < |c.plan.stages|
    ensures Elsewhere(ClaimAll(st, env, pol, x, c, todo, room).trace, id)
    decreases |todo|
  {
    hide ClaimFor, ApplyAll;
    if todo != [] && room != 0 {
      assert todo[0] in todo;
      var claim := ClaimFor(st, env, pol, x, c, todo[0].0, todo[0].1);
      OtherClaims(ApplyAll(st, ClaimTrace(Key(x, todo[0].0, todo[0].1), claim)), env, pol, x, c, todo[1..],
                  room - |ClaimItems(claim)|, id);
    }
  }

  lemma OtherMoves(st: StoreState, env: Env, x: CampaignId, c: Campaign, id: CampaignId)
    requires x != id
    ensures Elsewhere(Forwarded(st, env, x, c).trace, id)
  {
    hide GuardsOf, Permits, ApplyAll;
    var m1 := Restage(st, env, x, c);
    assert Elsewhere(m1.trace, id);
    assert Elsewhere(Advance(ApplyAll(st, m1.trace), env, x, m1.campaign).trace, id);
  }

  lemma OtherPlan(st: StoreState, env: Env, pol: Policy, x: CampaignId, room: nat, k: Key)
    requires x in st.campaigns && x != k.campaign && k in st.attempts && k.campaign in st.campaigns
    ensures var b := PlanCampaign(st, env, pol, x, room);
            Untouched(st, ApplyAll(st, b.trace), k) && OnlyPrepares(b.items, k)
  {
    hide GuardsOf, SkewOk, Permits, ApplyAll, Forwarded, ClaimAll, Scope;
    var c, b := st.campaigns[x], PlanCampaign(st, env, pol, x, room);
    if Running(c.state) && c.active < |c.plan.stages| {
      var Moves(t, c1) := Forwarded(st, env, x, c);
      OtherMoves(st, env, x, c, k.campaign);
      OtherClaims(ApplyAll(st, t), env, pol, x, c1, Scope(c1), room, k.campaign);
      ClaimAllOwn(ApplyAll(st, t), env, pol, x, c1, Scope(c1), room);
    }
    ElsewhereKeeps(st, b.trace, k);
  }

  // ---- the campaign of the attempt ----------------------------------------------------------------------------

  lemma StuckClaim(st: StoreState, env: Env, pol: Policy, c: Campaign, x: (nat, TargetId), k: Key)
    requires Staging(c) && x.0 < |c.plan.stages| && k in st.attempts && st.attempts[k].state.AttPreparing? &&
             k.campaign in st.campaigns
    ensures var claim := ClaimFor(st, env, pol, k.campaign, c, x.0, x.1);
            var post := ApplyAll(st, ClaimTrace(Key(k.campaign, x.0, x.1), claim));
            Untouched(st, post, k) && (forall i :: i in ClaimItems(claim) ==> PreparesIn(i, k.campaign, x.0)) &&
            (x == (k.stage, k.target) && k.target in env.inventory && st.attempts[k].owner == st.incarnation ==>
               claim.Emit? && KeyOf(claim.item) == k)
  {
    hide ActivationLimit, InStage;
    EmptyRun(st);
    var claim := ClaimFor(st, env, pol, k.campaign, c, x.0, x.1);
    if claim.ClaimAttempt? { ApplyOne(st, AttemptEntry(Key(k.campaign, x.0, x.1), claim.attempt)); }
  }

  /** The target loop over the stage: something is handed out if there is room at all, and the stuck preparation is if there is
      room for the whole stage. */
  lemma {:induction false} StuckClaims(st: StoreState, env: Env, pol: Policy, c: Campaign, todo: seq<(nat, TargetId)>, k: Key,
                                       room: nat)
    requires Staging(c) && (forall x :: x in todo ==> x.0 < |c.plan.stages| && x.0 == k.stage)
    requires k in st.attempts && st.attempts[k].state.AttPreparing? && k.campaign in st.campaigns
    requires k.target in env.inventory && st.attempts[k].owner == st.incarnation
    ensures var b := ClaimAll(st, env, pol, k.campaign, c, todo, room);
            Untouched(st, ApplyAll(st, b.trace), k) && OnlyPrepares(b.items, k) &&
            ((k.stage, k.target) in todo && room > 0 ==> b.items != []) &&
            ((k.stage, k.target) in todo && room >= |todo| ==> exists i :: i in b.items && KeyOf(i) == k)
    decreases |todo|
  {
    hide ClaimFor, ApplyAll, Staging;
    EmptyRun(st);
    if todo != [] && room != 0 {
      var x := todo[0];
      assert x in todo;
      var claim := ClaimFor(st, env, pol, k.campaign, c, x.0, x.1);
      var t := ClaimTrace(Key(k.campaign, x.0, x.1), claim);
      var st1, left := ApplyAll(st, t), room - |ClaimItems(claim)|;
      var rest := ClaimAll(st1, env, pol, k.campaign, c, todo[1..], left);
      StuckClaim(st, env, pol, c, x, k);
      StuckClaims(st1, env, pol, c, todo[1..], k, left);
      ApplyAllAppend(st, t, rest.trace);
      assert todo == [x] + todo[1..];
      if x == (k.stage, k.target) { assert claim.item in ClaimItems(claim) + rest.items; }
    }
  }

  /** Surroundings in which a pass comes to the target and the campaign stays where it is: a staged campaign is not held up by
      the version mix, and a campaign whose stage counts as prepared is not staged, because an adapter does not support the
      strategy. For a prepared campaign with its stage pending the target need only be known. */
  ghost predicate Reaches(env: Env, c: Campaign, t: TargetId) {
    t in env.inventory && (c.state.Staged? ==> c.artifact.version.reported && Coverable(env, c)) &&
    (c.state.Prepared? && c.active < |c.progress| && c.progress[c.active].StagePrepared? ==> !AdaptersSupport(env, c))
  }

  lemma NotActivated(st: StoreState, env: Env, k: Key)
    requires StuckAt(st, k)
    ensures !GuardsOf(st, env, k.campaign, st.campaigns[k.campaign]).activationComplete
  {
    hide SkewOk, StageFresh, NothingLeft, AdaptersSupport;
    assert !Holding(st, Key(k.campaign, k.stage, k.target), {AttActivated, AttVerified});
  }

  lemma NotStaged(st: StoreState, env: Env, id: CampaignId, c: Campaign)
    requires !AdaptersSupport(env, c)
    ensures !Permits(Prepared, Staged, GuardsOf(st, env, id, c).(stagingComplete := true))
  {
    hide SkewOk, StageAll, StageFresh, NothingLeft;
  }

  /** No move is made before the pass looks for work. */
  lemma StuckMoves(st: StoreState, env: Env, k: Key)
    requires StuckAt(st, k) && Reaches(env, st.campaigns[k.campaign], k.target)
    ensures var c := st.campaigns[k.campaign];
            var m := Forwarded(st, env, k.campaign, c);
            m.campaign == c && (m.trace == [] || m.trace == [DecisionEntry(k.campaign, Decision(DecBlock, Deny))])
  {
    hide SkewOk, GuardsOf, ApplyAll, Coverable, Permits, AdaptersSupport;
    var id, c := k.campaign, st.campaigns[k.campaign];
    EmptyRun(st);
    NotActivated(st, env, k);
    if c.state.Prepared? && !AdaptersSupport(env, c) { NotStaged(st, env, id, c); }
    var d := DecisionEntry(id, Decision(DecBlock, Deny));
    assert [d] + [] == [d];
  }

  lemma NotHeld(st: StoreState, env: Env, id: CampaignId, c: Campaign, t: TargetId)
    requires Reaches(env, c, t)
    ensures t in env.inventory && (c.state.Staged? ==> SkewOk(st, env, id, c))
  {
    hide SkewOk, Coverable, AdaptersSupport;
    if c.state.Staged? { CoveredMix(st, env, id, c); }
  }

  lemma StuckOwnPlan(st: StoreState, env: Env, pol: Policy, k: Key, room: nat)
    requires StuckAt(st, k) && Reaches(env, st.campaigns[k.campaign], k.target)
    ensures var c := st.campaigns[k.campaign];
            var b := PlanCampaign(st, env, pol, k.campaign, room);
            Untouched(st, ApplyAll(st, b.trace), k) && OnlyPrepares(b.items, k) && (room > 0 ==> b.items != []) &&
            (room >= |c.plan.stages[c.active].targets| ==> exists i :: i in b.items && KeyOf(i) == k)
  {
    hide SkewOk, ApplyAll, Forwarded, ClaimAll, GuardsOf, OnlyPrepares, Reaches;
    var id, c := k.campaign, st.campaigns[k.campaign];
    var m := Forwarded(st, env, id, c);
    var st1 := ApplyAll(st, m.trace);
    StuckMoves(st, env, k);
    EmptyRun(st);
    ApplyOne(st, DecisionEntry(id, Decision(DecBlock, Deny)));
    NotHeld(st1, env, id, c, k.target);
    var i :| 0 <= i < |c.plan.stages[c.active].targets| && c.plan.stages[c.active].targets[i] == k.target;
    assert Scope(c)[i] == (k.stage, k.target);
    StuckClaims(st1, env, pol, c, Scope(c), k, room);
    ApplyAllAppend(st, m.trace, ClaimAll(st1, env, pol, id, c, Scope(c), room).trace);
  }

  // ---- a planning pass ----------------------------------------------------------------------------------------

  /** The room that is left in the work budget when a pass comes to the campaign. */
  ghost function RoomAt(st: StoreState, env: Env, pol: Policy, order: seq<CampaignId>, room: nat, id: CampaignId): (r: nat)
    ensures r <= room
    decreases |order|
  {
    if order == [] || room == 0 then 0
    else if order[0] == id then room
    else
      var b := if order[0] in st.campaigns then PlanCampaign(st, env, pol, order[0], room) else Batch([], []);
      RoomAt(ApplyAll(st, b.trace), env, pol, order[1..], if |b.items| <= room then room - |b.items| else 0, id)
  }

  lemma {:induction false} StuckPlan(st: StoreState, env: Env, pol: Policy, order: seq<CampaignId>, room: nat, k: Key)
    requires StuckAt(st, k) && Reaches(env, st.campaigns[k.campaign], k.target)
    ensures var c := st.campaigns[k.campaign];
            var b := PlanWork(st, env, pol, order, room);
            Untouched(st, ApplyAll(st, b.trace), k) && OnlyPrepares(b.items, k) &&
            (k.campaign in order && room > 0 ==> b.items != []) &&
            (|c.plan.stages[c.active].targets| <= RoomAt(st, env, pol, order, room, k.campaign) ==>
               exists i :: i in b.items && KeyOf(i) == k)
    decreases |order|
  {
    hide ApplyAll, PlanCampaign, StuckAt, Reaches;
    EmptyRun(st);
    StuckHas(st, k);
    if order != [] && room != 0 {
      var x := order[0];
      var b := if x in st.campaigns then PlanCampaign(st, env, pol, x, room) else Batch([], []);
      var st1, left := ApplyAll(st, b.trace), if |b.items| <= room then room - |b.items| else 0;
      var rest := PlanWork(st1, env, pol, order[1..], left);
      if x == k.campaign {
        StuckOwnPlan(st, env, pol, k, room);
      } else if x in st.campaigns {
        OtherPlan(st, env, pol, x, room, k);
      }
      StaysStuck(st, st1, k);
      StuckPlan(st1, env, pol, order[1..], left, k);
      ApplyAllAppend(st, b.trace, rest.trace);
    }
  }

  lemma {:induction false} ClaimRoom(st: StoreState, env: Env, pol: Policy, id: CampaignId, c: Campaign,
                                     todo: seq<(nat, TargetId)>, room: nat)
    requires forall x :: x in todo ==> x.0 < |c.plan.stages|
    ensures |ClaimAll(st, env, pol, id, c, todo, room).items| <= room
    decreases |todo|
  {
    hide ClaimFor, ApplyAll;
    if todo != [] && room != 0 {
      assert todo[0] in todo;
      var claim := ClaimFor(st, env, pol, id, c, todo[0].0, todo[0].1);
      ClaimRoom(ApplyAll(st, ClaimTrace(Key(id, todo[0].0, todo[0].1), claim)), env, pol, id, c, todo[1..],
                room - |ClaimItems(claim)|);
    }
  }

  /** A pass stays within its work budget. */
  lemma {:induction false} PlanRoom(st: StoreState, env: Env, pol: Policy, order: seq<CampaignId>, room: nat)
    ensures |PlanWork(st, env, pol, order, room).items| <= room
    decreases |order|
  {
    hide ApplyAll, ClaimAll, Forwarded, SkewOk, GuardsOf, MoveTrace, Scope;
    if order != [] && room != 0 {
      var id := order[0];
      var b := if id in st.campaigns then PlanCampaign(st, env, pol, id, room) else Batch([], []);
      if id in st.campaigns && Running(st.campaigns[id].state) && st.campaigns[id].active < |st.campaigns[id].plan.stages| {
        var m := Forwarded(st, env, id, st.campaigns[id]);
        ClaimRoom(ApplyAll(st, m.trace), env, pol, id, m.campaign, Scope(m.campaign), room);
      }
      PlanRoom(ApplyAll(st, b.trace), env, pol, order[1..], if |b.items| <= room then room - |b.items| else 0);
    }
  }

  // ---- commits ------------------------------------------------------------------------------------------------

  /** The commit of work for a stuck attempt is fenced. */
  lemma StuckIsFenced(st: StoreState, k: Key, item: Item)
    requires StuckAt(st, k) && KeyOf(item) == k
    ensures !FenceOk(st, item)
  {
  }

  lemma OtherCommit(st: StoreState, env: Env, pol: Policy, k: Key, item: Item, r: Report)
    requires k in st.attempts && k.campaign in st.campaigns && item.campaign != k.campaign
    ensures Untouched(st, ApplyAll(st, CommitTrace(st, env, pol, item, r)), k)
  {
    hide FenceOk, CommitTrace, ApplyAll, Committed;
    if FenceOk(st, item) {
      CommitEffect(st, env, pol, item, r);
      assert KeyOf(item) != k;
    } else {
      FencedCommit(st, env, pol, item, r);
    }
  }

  /** The preparation of any target of the stage: its commit is fenced, or leaves the stage incomplete. */
  lemma OwnCommit(st: StoreState, env: Env, pol: Policy, k: Key, item: Item, r: Report)
    requires StuckAt(st, k) && PreparesIn(item, k.campaign, k.stage) && r.prepared
    ensures Untouched(st, ApplyAll(st, CommitTrace(st, env, pol, item, r)), k)
  {
    hide FenceOk, StageIt, GuardsOf;
    if FenceOk(st, item) {
      EffectiveHas(st, item);
      if KeyOf(item) == k { StuckIsFenced(st, k, item); }
      var w := AttemptEntry(KeyOf(item), st.attempts[KeyOf(item)].(state := AttPrepared));
      var c := st.campaigns[k.campaign];
      assert !Holding(Apply(st, w), Key(k.campaign, item.stage, k.target), {AttPrepared, AttActivated, AttVerified, AttRolledBack});
      assert AfterPrepared(Apply(st, w), env, item.campaign, c, item.stage) == [];
      assert [w] + [] == [w];
      ApplyOne(st, w);
    } else {
      FencedCommit(st, env, pol, item, r);
    }
  }

  lemma EffectiveHas(st: StoreState, item: Item)
    requires FenceOk(st, item)
    ensures KeyOf(item) in st.attempts && item.campaign in st.campaigns
  {
  }

  predicate AllPrepared(answers: seq<(Env, Report)>) { forall a :: a in answers ==> a.1.prepared }

  /** The commits of a pass, any number of them, leave the attempt stuck. */
  lemma {:induction false} StuckCommits(st: StoreState, pol: Policy, items: seq<Item>, answers: seq<(Env, Report)>, k: Key)
    requires StuckAt(st, k) && OnlyPrepares(items, k) && AllPrepared(answers) && |items| <= |answers|
    ensures Untouched(st, CommitEach(st, pol, items, answers), k)
    decreases |items|
  {
    hide CommitTrace, ApplyAll, StuckAt, PreparesIn;
    StuckHas(st, k);
    if items != [] {
      var env, r := answers[0].0, answers[0].1;
      assert items[0] in items && answers[0] in answers;
      if items[0].campaign == k.campaign {
        OwnCommit(st, env, pol, k, items[0], r);
      } else {
        OtherCommit(st, env, pol, k, items[0], r);
      }
      var st1 := ApplyAll(st, CommitTrace(st, env, pol, items[0], r));
      StaysStuck(st, st1, k);
      StuckCommits(st1, pol, items[1..], answers[1..], k);
    }
  }

  // ---- never idle ---------------------------------------------------------------------------------------------

  /** A pass over any campaigns that comes to the campaign of the attempt, with some room and with preparations that succeed. */
  ghost predicate Comes(p: PassInput, c: Campaign, k: Key) {
    Distinct(p.order) && k.campaign in p.order && 0 < p.room <= |p.answers| && AllPrepared(p.answers) && Reaches(p.env, c, k.target)
  }

  lemma StuckPass(st: StoreState, pol: Policy, p: PassInput, k: Key)
    requires StuckAt(st, k) && Comes(p, st.campaigns[k.campaign], k)
    ensures PassOk(st, pol, p) && Planning(st, pol, p).items != [] && Untouched(st, InlinePass(st, pol, p), k)
  {
    hide PlanWork, ApplyAll, CommitEach, Reaches, OnlyPrepares, StuckAt, RoomAt, Distinct, AllPrepared;
    var b := Planning(st, pol, p);
    PlanRoom(st, p.env, pol, p.order, p.room);
    StuckPlan(st, p.env, pol, p.order, p.room, k);
    StaysStuck(st, ApplyAll(st, b.trace), k);
    StuckCommits(ApplyAll(st, b.trace), pol, b.items, p.answers, k);
  }

  /** While an attempt is stuck, every sequence of such passes is busy, and leaves it stuck: the driver never goes idle. */
  lemma {:induction false} EveryPassBusy(st: StoreState, pol: Policy, passes: seq<PassInput>, k: Key)
    requires StuckAt(st, k) && forall p :: p in passes ==> Comes(p, st.campaigns[k.campaign], k)
    ensures AllBusy(st, pol, passes) && StuckAt(Driven(st, pol, passes), k)
    decreases |passes|
  {
    hide StuckAt, InlinePass, Planning, PassOk, Comes;
    if passes != [] {
      assert passes[0] in passes;
      StuckPass(st, pol, passes[0], k);
      var post := InlinePass(st, pol, passes[0]);
      StaysStuck(st, post, k);
      EveryPassBusy(post, pol, passes[1..], k);
    }
  }

  /** If such a pass has room for the whole stage, it hands out the stuck preparation, and when that is committed the attempt is
      still stuck and the commit is fenced. */
  lemma AgainAndFenced(st: StoreState, pol: Policy, p: PassInput, k: Key) returns (i: nat)
    requires StuckAt(st, k) && Comes(p, st.campaigns[k.campaign], k)
    requires var c := st.campaigns[k.campaign];
             |c.plan.stages[c.active].targets| <= RoomAt(st, p.env, pol, p.order, p.room, k.campaign)
    ensures PassOk(st, pol, p) && i < |Planning(st, pol, p).items|
    ensures var b := Planning(st, pol, p);
            var at := CommitEach(ApplyAll(st, b.trace), pol, b.items[..i], p.answers[..i]);
            b.items[i].kind.Prepare? && KeyOf(b.items[i]) == k && StuckAt(at, k) && !FenceOk(at, b.items[i])
  {
    hide PlanWork, ApplyAll, CommitEach, Reaches, StuckAt, RoomAt, Distinct, FenceOk;
    var b := Planning(st, pol, p);
    var st1 := ApplyAll(st, b.trace);
    PlanRoom(st, p.env, pol, p.order, p.room);
    StuckPlan(st, p.env, pol, p.order, p.room, k);
    StaysStuck(st, st1, k);
    i :| 0 <= i < |b.items| && KeyOf(b.items[i]) == k;
    StuckCommits(st1, pol, b.items[..i], p.answers[..i], k);
    var at := CommitEach(st1, pol, b.items[..i], p.answers[..i]);
    StaysStuck(st1, at, k);
    StuckIsFenced(at, k, b.items[i]);
  }

  /** All planned targets are known, run the artifact's version already, and support the strategy, the last unless the stage
      counts as prepared. */
  function Surroundings(c: Campaign): Env {
    var prepared := c.state.Prepared? && c.active < |c.progress| && c.progress[c.active].StagePrepared?;
    var d := Descriptor(c.artifact.version, if prepared then {} else {c.plan.strategy}, true, 1);
    Env(0, map x | x in AllTargets(c.plan.stages, 0) :: x.1 := d, false, [], false, {},
        Notes([], [], [], [], [], [], [], [], [], []))
  }

  lemma SurroundingsReach(st: StoreState, k: Key)
    requires StuckAt(st, k) && st.campaigns[k.campaign].artifact.version.reported
    ensures Reaches(Surroundings(st.campaigns[k.campaign]), st.campaigns[k.campaign], k.target)
  {
    hide Waived, AllTargets;
    var c := st.campaigns[k.campaign];
    var env := Surroundings(c);
    forall s: nat, t | Planned(c, s, t) ensures t in env.inventory && env.inventory[t].installed == c.artifact.version {
      AllTargetsHas(c.plan.stages, 0, s, t);
      assert (s, t).1 in env.inventory;
    }
    assert Planned(c, k.stage, k.target);
  }

  /** From there the driver need not go idle: with any order that lists the campaign, any room and any answers by which
      preparations succeed, busy sequences of every length repeat one and the same pass. */
  lemma StuckNeverIdle(st: StoreState, pol: Policy, k: Key, order: seq<CampaignId>, room: nat, answers: seq<(Env, Report)>, n: nat)
    returns (passes: seq<PassInput>)
    requires StuckAt(st, k) && st.campaigns[k.campaign].artifact.version.reported
    requires Distinct(order) && k.campaign in order && 0 < room <= |answers| && AllPrepared(answers)
    ensures |passes| == n && AllBusy(st, pol, passes)
    ensures forall p :: p in passes ==> p.order == order && p.room == room && p.answers == answers
  {
    hide StuckAt, Surroundings, Reaches;
    StuckHas(st, k);
    var p := PassInput(Surroundings(st.campaigns[k.campaign]), order, room, answers);
    SurroundingsReach(st, k);
    passes := seq(n, i => p);
    EveryPassBusy(st, pol, passes, k);
  }

  /** Every pass lists the campaigns in this order and has this work budget, as the program's passes do. */
  predicate Configured(passes: seq<PassInput>, order: seq<CampaignId>, room: nat) {
    forall p :: p in passes ==> p.order == order && p.room == room
  }

  /** The driver goes idle, within a bound linear in targets and retries and whatever its surroundings, if and only if no attempt
      is stuck. Every pass lists every campaign and works under one positive budget. Artifacts report a version, as their
      validation demands. */
  lemma DriverGoesIdleIff(st: StoreState, pol: Policy, ids: seq<CampaignId>, room: nat)
    requires Inv(st) && Lists(ids, st.campaigns.Keys) && room > 0
    requires forall id :: id in st.campaigns ==> st.campaigns[id].artifact.version.reported
    ensures (forall passes :: Configured(passes, ids, room) && AllBusy(st, pol, passes) ==>
               |passes| <= Total(st, pol.maxRetries, ids)) <==> NoneStuck(st)
  {
    hide Inv, StuckAt, AllBusy, Total;
    if NoneStuck(st) {
      forall passes | AllBusy(st, pol, passes) ensures |passes| <= Total(st, pol.maxRetries, ids) {
        DriverGoesIdle(st, pol, passes, ids);
      }
    } else {
      var k :| k in st.attempts && StuckAt(st, k);
      StuckHas(st, k);
      var none := Version(0, 0, 0, [], false);
      var r := Report(true, false, false, VerifyReport(false, none, [], 0, 0, 0, false), Health(0, 0, 0, false), false);
      var answers := seq(room, i => (Surroundings(st.campaigns[k.campaign]), r));
      var passes := StuckNeverIdle(st, pol, k, ids, room, answers, Total(st, pol.maxRetries, ids) + 1);
      assert Configured(passes, ids, room);
    }
  }
}
