/** What holds of a running engine between critical sections and is lost with the process: one outstanding operation per
    claimed attempt, bounded parallel activation, and nothing in flight in a paused campaign. */
module Exclusive {
  import opened Lifecycle
  import opened Records
  import opened Store
  import opened Protocol
  import opened Commands
  import opened Invariants
  import Ledger
  import opened Sections
  import opened PlanSections
  import opened CommandSections
  import opened Work
  import opened Effects

  /** The attempt still waits for this kind of operation, or was retired meanwhile. */
  predicate Waits(s: AttemptState, kind: OperationKind) { s == Expected(kind) || Retirement(s) }

  /** At most one operation that touches a target is outstanding per attempt, and the attempt waits for it. Repeated
      prepare operations are possible and harmless. */
  ghost predicate OneEach(st: StoreState, work: multiset<Item>) {
    (forall i :: i in work && !i.kind.Prepare? ==>
       work[i] == 1 && KeyOf(i) in st.attempts && Waits(st.attempts[KeyOf(i)].state, i.kind)) &&
    (forall i, j :: i in work && j in work && !i.kind.Prepare? && !j.kind.Prepare? && KeyOf(i) == KeyOf(j) ==> i == j)
  }

  /** The attempts of one stage that are activating never exceed the stage's and the policy's limit. */
  ghost predicate WithinLimits(st: StoreState, pol: Policy) {
    forall id, s: nat :: id in st.campaigns && s < |st.campaigns[id].plan.stages| ==> LimitHolds(st, pol, id, s)
  }

  predicate LimitHolds(st: StoreState, pol: Policy, id: CampaignId, s: nat)
    requires id in st.campaigns && s < |st.campaigns[id].plan.stages|
  {
    |InStage(st, id, s, AttActivating)| <= ActivationLimit(pol, st.campaigns[id], s)
  }

  ghost predicate PausedIdle(st: StoreState) {
    forall k :: k in st.attempts && k.campaign in st.campaigns && st.campaigns[k.campaign].state.Paused? ==>
      !InFlight(st.attempts[k].state)
  }

  ghost predicate Calm(st: StoreState, work: multiset<Item>, pol: Policy) {
    OneEach(st, work) && WithinLimits(st, pol) && PausedIdle(st)
  }

  // ---- general steps ------------------------------------------------------------------------------------------

  /** Every attempt kept its state or went out of flight, and none was created. */
  ghost predicate Settling(st: StoreState, post: StoreState) {
    forall k :: k in post.attempts ==>
      k in st.attempts && (post.attempts[k].state == st.attempts[k].state || !InFlight(post.attempts[k].state))
  }

  lemma SubsetSize<T>(a: set<T>, b: set<T>)
    requires a <= b
    ensures |a| <= |b|
  {
    assert b == a + (b - a);
  }

  lemma LimitsShrink(st: StoreState, post: StoreState, pol: Policy)
    requires AttemptsOk(st) && WithinLimits(st, pol) && Follows(st, post) && Settling(st, post)
    ensures WithinLimits(post, pol)
  {
    hide AttemptOk;
    forall id, s: nat | id in post.campaigns && s < |post.campaigns[id].plan.stages| ensures LimitHolds(post, pol, id, s) {
      var now, was := InStage(post, id, s, AttActivating), InStage(st, id, s, AttActivating);
      SubsetSize(now, was);
      if id in st.campaigns {
        assert Later(st.campaigns[id], post.campaigns[id]);
        assert LimitHolds(st, pol, id, s);
      } else {
        assert forall k :: k in st.attempts ==> AttemptIn(st, k);
        assert was == {};
      }
    }
  }

  lemma PausedStaysIdle(st: StoreState, post: StoreState)
    requires AttemptsOk(st) && PausedIdle(st) && Settling(st, post)
    requires forall id :: id in post.campaigns && post.campaigns[id].state.Paused? ==>
      (id in st.campaigns && st.campaigns[id].state.Paused?) ||
      forall k :: k in post.attempts && k.campaign == id ==> !InFlight(post.attempts[k].state)
    ensures PausedIdle(post)
  {
    hide AttemptOk;
    forall k | k in post.attempts && k.campaign in post.campaigns && post.campaigns[k.campaign].state.Paused?
      ensures !InFlight(post.attempts[k].state)
    {
      assert AttemptIn(st, k);
    }
  }

  lemma OneEachSame(st: StoreState, post: StoreState, work: multiset<Item>)
    requires OneEach(st, work) && post.attempts == st.attempts
    ensures OneEach(post, work)
  {
  }

  lemma OneEachRetired(st: StoreState, post: StoreState, work: multiset<Item>, to: AttemptState)
    requires OneEach(st, work) && Retired(st, post, to) && Retirement(to)
    ensures OneEach(post, work)
  {
  }

  lemma OneEachLess(st: StoreState, work: multiset<Item>, item: Item)
    requires OneEach(st, work)
    ensures OneEach(st, work - multiset{item})
  {
    forall i | i in work - multiset{item} ensures i in work {}
  }

  // ---- quiet sections -----------------------------------------------------------------------------------------

  /** A section that leaves the attempts alone and pauses nothing. */
  lemma QuietCalm(st: StoreState, es: seq<Entry>, id: CampaignId, may: May, work: multiset<Item>, pol: Policy)
    requires Inv(st) && Calm(st, work, pol) && AllowedAll(st, es)
    requires Quiet(es, id, may) && (may.state.Paused? ==> Now(st, id).state.Paused?)
    ensures Calm(ApplyAll(st, es), work, pol)
  {
    hide Quiet, AllowedAll, WithinLimits, OneEach, ApplyAll, InFlight, CampaignsOk, AttemptsOk, LedgerOk,
         Ledger.Verifies;
    var post := ApplyAll(st, es);
    QuietLeaves(st, es, id, may);
    FollowsAll(st, es);
    LimitsShrink(st, post, pol);
    PausedStaysIdle(st, post);
    OneEachSame(st, post, work);
  }

  // ---- commits ------------------------------------------------------------------------------------------------

  lemma OneEachCommit(st: StoreState, post: StoreState, work: multiset<Item>, item: Item, b: Attempt)
    requires OneEach(st, work) && item in work && FenceOk(st, item)
    requires post.attempts == st.attempts[KeyOf(item) := b]
    ensures OneEach(post, work - multiset{item})
  {
    var left := work - multiset{item};
    forall i | i in left && !i.kind.Prepare?
      ensures left[i] == 1 && KeyOf(i) in post.attempts && Waits(post.attempts[KeyOf(i)].state, i.kind)
    {
      assert i in work && left[i] <= work[i];
      assert i != item;
      assert KeyOf(i) != KeyOf(item);
    }
  }

  /** A commit keeps the engine calm, whether it takes effect or is fenced. */
  lemma CommitCalm(st: StoreState, env: Env, pol: Policy, item: Item, r: Report, work: multiset<Item>)
    requires Inv(st) && Calm(st, work, pol) && item in work && ItemOk(st, item)
    ensures Calm(ApplyAll(st, CommitTrace(st, env, pol, item, r)), work - multiset{item}, pol)
  {
    hide FenceOk, CommitTrace, WithinLimits, OneEach, AllowedAll, ApplyAll, ItemOk, LeftAlone, Settling, PausedIdle;
    var post := ApplyAll(st, CommitTrace(st, env, pol, item, r));
    CommitAllowed(st, env, pol, item, r);
    FollowsAll(st, CommitTrace(st, env, pol, item, r));
    if FenceOk(st, item) {
      CommitEffect(st, env, pol, item, r);
      CommittedSettles(st, env, pol, item, r, post);
      OneEachCommit(st, post, work, item, Committed(st, env, pol, item, r));
    } else {
      FencedCommit(st, env, pol, item, r);
      OneEachLess(st, work, item);
      OneEachSame(st, post, work - multiset{item});
      NothingMoved(st, post);
    }
    LimitsShrink(st, post, pol);
    PausedStaysIdle(st, post);
  }

  ghost predicate NoNewPause(st: StoreState, post: StoreState) {
    forall id :: id in post.campaigns && post.campaigns[id].state.Paused? ==> id in st.campaigns && st.campaigns[id].state.Paused?
  }

  lemma CommittedSettles(st: StoreState, env: Env, pol: Policy, item: Item, r: Report, post: StoreState)
    requires FenceOk(st, item)
    requires LeftAlone(st.(attempts := st.attempts[KeyOf(item) := Committed(st, env, pol, item, r)]), post, item.campaign,
                       Now(st, item.campaign))
    ensures Settling(st, post) && NoNewPause(st, post)
    ensures post.attempts == st.attempts[KeyOf(item) := Committed(st, env, pol, item, r)]
  {
    hide Committed;
  }

  lemma NothingMoved(st: StoreState, post: StoreState)
    requires post == st.(decisions := post.decisions)
    ensures Settling(st, post) && NoNewPause(st, post)
  {
  }

  // ---- pause and abort ----------------------------------------------------------------------------------------

  lemma RetireCalm(st: StoreState, id: CampaignId, order: seq<Key>, to: AttemptState, work: multiset<Item>, pol: Policy)
    requires Inv(st) && Calm(st, work, pol) && Retirement(to)
    ensures Calm(ApplyAll(st, RetireAll(st, id, order, to)), work, pol)
  {
    hide WithinLimits, OneEach, RetireAll, ApplyAll, AllowedAll;
    var post := ApplyAll(st, RetireAll(st, id, order, to));
    RetireAllEffect(st, id, order, to);
    RetireAllAllowed(st, id, order, to);
    FollowsAll(st, RetireAll(st, id, order, to));
    RetiredSettles(st, post, to);
    LimitsShrink(st, post, pol);
    PausedStaysIdle(st, post);
    OneEachRetired(st, post, work, to);
  }

  lemma RetiredSettles(st: StoreState, post: StoreState, to: AttemptState)
    requires Retired(st, post, to) && Retirement(to)
    ensures Settling(st, post)
  {
  }

  /** A move that may pause, once nothing of the campaign is in flight afterwards. */
  lemma PauseCalm(st: StoreState, id: CampaignId, t: seq<Entry>, order: seq<Key>, work: multiset<Item>, pol: Policy)
    requires Inv(st) && Calm(st, work, pol) && AllowedAll(st, t) && Quiet(t, id, May(Paused, Now(st, id).generation))
    requires Lists(order, st.attempts.Keys)
    ensures Calm(ApplyAll(st, t + RetireAll(ApplyAll(st, t), id, order, AttAbandoned)), work, pol)
  {
    hide WithinLimits, OneEach, RetireAll, ApplyAll, AllowedAll, Quiet;
    var st1 := ApplyAll(st, t);
    var u := RetireAll(st1, id, order, AttAbandoned);
    var post := ApplyAll(st1, u);
    QuietLeaves(st, t, id, May(Paused, Now(st, id).generation));
    AllowedAllKeepsInv(st, t);
    RetireAllEffect(st1, id, order, AttAbandoned);
    RetireAllAllowed(st1, id, order, AttAbandoned);
    AllowedAllAppend(st, t, u);
    ApplyAllAppend(st, t, u);
    FollowsAll(st, t + u);
    PauseSettles(st, st1, post, id);
    LimitsShrink(st, post, pol);
    PausedStaysIdle(st, post);
    OneEachSame(st, st1, work);
    OneEachRetired(st1, post, work, AttAbandoned);
  }

  lemma PauseSettles(st: StoreState, st1: StoreState, post: StoreState, id: CampaignId)
    requires LeftAlone(st, st1, id, May(Paused, Now(st, id).generation)) && Retired(st1, post, AttAbandoned)
    requires forall k :: k in st.attempts && k.campaign == id ==> !InFlight(post.attempts[k].state)
    ensures Settling(st, post)
    ensures forall x :: x in post.campaigns && post.campaigns[x].state.Paused? ==>
      (x in st.campaigns && st.campaigns[x].state.Paused?) ||
      forall k :: k in post.attempts && k.campaign == x ==> !InFlight(post.attempts[k].state)
  {
  }

  // ---- planning -----------------------------------------------------------------------------------------------

  /** The claim of one more activation stays within the limit. */
  lemma ClaimWithinLimits(st: StoreState, env: Env, pol: Policy, id: CampaignId, stage: nat, t: TargetId)
    requires id in st.campaigns && stage < |st.campaigns[id].plan.stages| && WithinLimits(st, pol)
    requires ClaimFor(st, env, pol, id, st.campaigns[id], stage, t).ClaimAttempt?
    ensures var claim := ClaimFor(st, env, pol, id, st.campaigns[id], stage, t);
            WithinLimits(Apply(st, AttemptEntry(Key(id, stage, t), claim.attempt)), pol)
  {
    hide Staging, NeedsRollback;
    var claim, k := ClaimFor(st, env, pol, id, st.campaigns[id], stage, t), Key(id, stage, t);
    var post := Apply(st, AttemptEntry(k, claim.attempt));
    forall x, s: nat | x in post.campaigns && s < |post.campaigns[x].plan.stages| ensures LimitHolds(post, pol, x, s) {
      assert LimitHolds(st, pol, x, s);
      var now, was := InStage(post, x, s, AttActivating), InStage(st, x, s, AttActivating);
      if claim.attempt.state.AttActivating? && x == id && s == stage {
        assert now == was + {k};
      } else {
        SubsetSize(now, was);
      }
    }
  }

  lemma ClaimOneEach(st: StoreState, env: Env, pol: Policy, id: CampaignId, stage: nat, t: TargetId, work: multiset<Item>)
    requires id in st.campaigns && stage < |st.campaigns[id].plan.stages| && OneEach(st, work)
    requires ClaimFor(st, env, pol, id, st.campaigns[id], stage, t).ClaimAttempt?
    ensures var claim := ClaimFor(st, env, pol, id, st.campaigns[id], stage, t);
            OneEach(Apply(st, AttemptEntry(Key(id, stage, t), claim.attempt)), work + multiset{claim.item})
  {
    hide Staging, ActivationLimit;
    var claim, k := ClaimFor(st, env, pol, id, st.campaigns[id], stage, t), Key(id, stage, t);
    ClaimIsFree(st, env, pol, id, stage, t, work);
    AddItem(st, work, k, claim.attempt, claim.item);
  }

  /** No operation that touches the target is outstanding for an attempt that planning claims. */
  lemma ClaimIsFree(st: StoreState, env: Env, pol: Policy, id: CampaignId, stage: nat, t: TargetId, work: multiset<Item>)
    requires id in st.campaigns && stage < |st.campaigns[id].plan.stages| && OneEach(st, work)
    requires ClaimFor(st, env, pol, id, st.campaigns[id], stage, t).ClaimAttempt?
    ensures var claim := ClaimFor(st, env, pol, id, st.campaigns[id], stage, t);
            claim.attempt.state == Expected(claim.item.kind) && KeyOf(claim.item) == Key(id, stage, t)
    ensures forall i :: i in work && KeyOf(i) == Key(id, stage, t) ==> i.kind.Prepare?
  {
    hide Staging, ActivationLimit;
  }

  lemma AddItem(st: StoreState, work: multiset<Item>, k: Key, b: Attempt, item: Item)
    requires OneEach(st, work) && forall i :: i in work && KeyOf(i) == k ==> i.kind.Prepare?
    requires KeyOf(item) == k && b.state == Expected(item.kind)
    ensures OneEach(Apply(st, AttemptEntry(k, b)), work + multiset{item})
  {
    var post, more := Apply(st, AttemptEntry(k, b)), work + multiset{item};
    forall i | i in more && !i.kind.Prepare?
      ensures more[i] == 1 && KeyOf(i) in post.attempts && Waits(post.attempts[KeyOf(i)].state, i.kind)
    {
      assert i == item || i in work;
    }
    forall i | i in more ensures i == item || i in work {}
  }

  lemma AddPrepare(st: StoreState, work: multiset<Item>, item: Item)
    requires OneEach(st, work) && item.kind.Prepare?
    ensures OneEach(st, work + multiset{item})
  {
    var more := work + multiset{item};
    forall i | i in more && !i.kind.Prepare?
      ensures more[i] == 1 && KeyOf(i) in st.attempts && Waits(st.attempts[KeyOf(i)].state, i.kind)
    {
      assert i in work;
    }
    forall i | i in more ensures i == item || i in work {}
  }

  lemma ClaimPausedIdle(st: StoreState, k: Key, b: Attempt)
    requires PausedIdle(st) && k.campaign in st.campaigns && !st.campaigns[k.campaign].state.Paused?
    ensures PausedIdle(Apply(st, AttemptEntry(k, b)))
  {
  }

  lemma {:induction false} ClaimCalm(st: StoreState, env: Env, pol: Policy, id: CampaignId, stage: nat, t: TargetId,
                                     work: multiset<Item>)
    requires id in st.campaigns && stage < |st.campaigns[id].plan.stages| && Calm(st, work, pol)
    requires !st.campaigns[id].state.Paused?
    ensures var claim := ClaimFor(st, env, pol, id, st.campaigns[id], stage, t);
            Calm(ApplyAll(st, ClaimTrace(Key(id, stage, t), claim)), work + multiset(ClaimItems(claim)), pol)
  {
    hide WithinLimits, OneEach, PausedIdle, ClaimFor;
    var claim, k := ClaimFor(st, env, pol, id, st.campaigns[id], stage, t), Key(id, stage, t);
    match claim
    case NoClaim => assert work + multiset([]) == work;
    case Emit(item) =>
      EmitsPrepare(st, env, pol, id, stage, t);
      AddPrepare(st, work, item);
    case ClaimAttempt(b, item) =>
      ApplyOne(st, AttemptEntry(k, b));
      ClaimOneEach(st, env, pol, id, stage, t, work);
      ClaimWithinLimits(st, env, pol, id, stage, t);
      ClaimPausedIdle(st, k, b);
  }

  lemma EmitsPrepare(st: StoreState, env: Env, pol: Policy, id: CampaignId, stage: nat, t: TargetId)
    requires id in st.campaigns && stage < |st.campaigns[id].plan.stages|
    ensures var claim := ClaimFor(st, env, pol, id, st.campaigns[id], stage, t); claim.Emit? ==> claim.item.kind.Prepare?
  {
    hide Staging, NeedsRollback, ActivationLimit;
  }

  lemma MoreItems(work: multiset<Item>, a: seq<Item>, b: seq<Item>)
    ensures work + multiset(a) + multiset(b) == work + multiset(a + b)
  {
  }

  lemma {:induction false} ClaimAllCalm(st: StoreState, env: Env, pol: Policy, id: CampaignId,
                                        todo: seq<(nat, TargetId)>, room: nat, work: multiset<Item>)
    requires id in st.campaigns && !st.campaigns[id].state.Paused? && Calm(st, work, pol)
    requires forall x :: x in todo ==> x.0 < |st.campaigns[id].plan.stages|
    ensures var b := ClaimAll(st, env, pol, id, st.campaigns[id], todo, room);
            Calm(ApplyAll(st, b.trace), work + multiset(b.items), pol)
    decreases |todo|
  {
    hide Calm, ClaimFor, ApplyAll, Apply, ClaimTrace;
    if todo == [] || room == 0 {
      EmptyRun(st);
      assert work + multiset([]) == work;
    } else {
      var c := st.campaigns[id];
      var k := Key(id, todo[0].0, todo[0].1);
      assert todo[0] in todo;
      var claim := ClaimFor(st, env, pol, id, c, todo[0].0, todo[0].1);
      var t := ClaimTrace(k, claim);
      var st1 := ApplyAll(st, t);
      ClaimCalm(st, env, pol, id, todo[0].0, todo[0].1, work);
      ClaimKeepsCampaigns(st, k, claim);
      var rest := ClaimAll(st1, env, pol, id, c, todo[1..], room - |ClaimItems(claim)|);
      ClaimAllCalm(st1, env, pol, id, todo[1..], room - |ClaimItems(claim)|, work + multiset(ClaimItems(claim)));
      ApplyAllAppend(st, t, rest.trace);
      MoreItems(work, ClaimItems(claim), rest.items);
    }
  }

  lemma ForwardedQuiet(st: StoreState, env: Env, id: CampaignId, c: Campaign)
    ensures Quiet(Forwarded(st, env, id, c).trace, id, No(c))
  {
    hide Quiet, GuardsOf, MoveTrace, Permits, ApplyAll, MoveResult;
    var m1 := Restage(st, env, id, c);
    var g1 := GuardsOf(st, env, id, c).(stagingComplete := true);
    DecisionQuiet(id, Decision(DecStage, Allow), No(c));
    MoveQuiet(id, c, Staged, g1, No(c));
    var st1 := ApplyAll(st, m1.trace);
    AdvanceQuiet(st1, env, id, m1.campaign);
    QuietAppend(m1.trace, Advance(st1, env, id, m1.campaign).trace, id, No(c));
  }

  lemma AdvanceQuiet(st: StoreState, env: Env, id: CampaignId, c: Campaign)
    ensures Quiet(Advance(st, env, id, c).trace, id, No(c))
  {
    hide Quiet, GuardsOf, MoveTrace, Permits, MoveResult;
    var g := GuardsOf(st, env, id, c);
    var m1 := if c.state.Staged? then MoveTo(id, c, Activating, g) else Moves([], c);
    DecisionQuiet(id, Decision(DecStage, Allow), No(c));
    MoveQuiet(id, c, Activating, g, No(c));
    MoveQuiet(id, m1.campaign, Verifying, g, No(c));
    QuietAppend(m1.trace, MoveTo(id, m1.campaign, Verifying, g).trace, id, No(c));
  }

  lemma HoldQuiet(id: CampaignId, c: Campaign, g: Guards)
    ensures Quiet(MoveTrace(id, c, Blocked, g) + [DecisionEntry(id, Decision(DecBlock, Deny))], id, No(c))
  {
    hide Quiet, MoveTrace;
    MoveQuiet(id, c, Blocked, g, No(c));
    AlsoQuiet(MoveTrace(id, c, Blocked, g), DecisionEntry(id, Decision(DecBlock, Deny)), id, No(c));
  }

  lemma {:induction false} PlanCampaignCalm(st: StoreState, env: Env, pol: Policy, id: CampaignId, room: nat,
                                            work: multiset<Item>)
    requires Inv(st) && id in st.campaigns && Calm(st, work, pol)
    ensures var b := PlanCampaign(st, env, pol, id, room);
            Calm(ApplyAll(st, b.trace), work + multiset(b.items), pol)
  {
    hide Inv, AllowedAll, ApplyAll, ClaimAll, Forwarded, Claimable, Scope, SkewOk, GuardsOf, MoveTrace, Calm, Quiet;
    var c := st.campaigns[id];
    assert work + multiset([]) == work;
    EmptyRun(st);
    if Running(c.state) && c.active < |c.plan.stages| {
      var Moves(t, c1) := Forwarded(st, env, id, c);
      ForwardedGood(st, env, id);
      ForwardedRuns(st, env, id, c);
      ForwardedQuiet(st, env, id, c);
      QuietCalm(st, t, id, No(c), work, pol);
      AllowedAllKeepsInv(st, t);
      var st1 := ApplyAll(st, t);
      assert st1.campaigns[id] == c1;
      if c1.state.Staged? && !SkewOk(st1, env, id, c1) {
        var g := GuardsOf(st1, env, id, c1).(failureRecorded := true);
        var u := MoveTrace(id, c1, Blocked, g) + [DecisionEntry(id, Decision(DecBlock, Deny))];
        HoldQuiet(id, c1, g);
        HoldAllowed(st1, env, id, g);
        QuietCalm(st1, u, id, No(c1), work, pol);
        ApplyAllAppend(st, t, u);
        assert t + MoveTrace(id, c1, Blocked, g) + [DecisionEntry(id, Decision(DecBlock, Deny))] == t + u;
      } else {
        ClaimAllCalm(st1, env, pol, id, Scope(c1), room, work);
        ApplyAllAppend(st, t, ClaimAll(st1, env, pol, id, c1, Scope(c1), room).trace);
      }
    }
  }

  /** Planning keeps the engine calm, the handed-out work included. */
  lemma {:induction false} PlanCalm(st: StoreState, env: Env, pol: Policy, order: seq<CampaignId>, room: nat,
                                    work: multiset<Item>)
    requires Inv(st) && Calm(st, work, pol)
    ensures var b := PlanWork(st, env, pol, order, room);
            Calm(ApplyAll(st, b.trace), work + multiset(b.items), pol)
    decreases |order|
  {
    hide Inv, AllowedAll, ApplyAll, PlanCampaign, Calm;
    assert work + multiset([]) == work;
    EmptyAllowed(st);
    if order != [] && room != 0 {
      var b := if order[0] in st.campaigns then PlanCampaign(st, env, pol, order[0], room) else Batch([], []);
      if order[0] in st.campaigns {
        PlanCampaignAllowed(st, env, pol, order[0], room);
        PlanCampaignCalm(st, env, pol, order[0], room, work);
      }
      AllowedAllKeepsInv(st, b.trace);
      var left := if |b.items| <= room then room - |b.items| else 0;
      var st1 := ApplyAll(st, b.trace);
      var rest := PlanWork(st1, env, pol, order[1..], left);
      PlanCalm(st1, env, pol, order[1..], left, work + multiset(b.items));
      ApplyAllAppend(st, b.trace, rest.trace);
      MoreItems(work, b.items, rest.items);
    }
  }
}
