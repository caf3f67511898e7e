/** What each critical section leaves alone: which attempts it can change, and which campaign states it can enter. */
module Effects {
  import opened Lifecycle
  import opened Records
  import opened Store
  import opened Verification
  import opened Protocol
  import opened Commands

  /** The states that only an operator command enters. */
  predicate Commanded(s: UpgradeState) { s.Paused? || s.RollingBack? }

  /** What the campaign entries of a section may carry: which of the commanded states, and which generation. */
  datatype May = May(state: UpgradeState, generation: nat)

  /** No commanded state, and the generation the campaign has. */
  function No(c: Campaign): May { May(Proposed, c.generation) }

  predicate Fits(c: Campaign, may: May) {
    (Commanded(c.state) ==> c.state == may.state) && c.generation == may.generation
  }

  /** The entries touch no attempt and no campaign but `id`, and that one only within `may`. */
  predicate Quiet(es: seq<Entry>, id: CampaignId, may: May) {
    forall e :: e in es ==>
      (e.CampaignEntry? && e.id == id && Fits(e.campaign, may)) || e.LedgerEntry? || e.DecisionEntry?
  }

  /** The state and generation the stored campaign has; those of a new campaign if there is none. */
  function Now(st: StoreState, id: CampaignId): May {
    if id in st.campaigns then May(st.campaigns[id].state, st.campaigns[id].generation) else May(Proposed, 1)
  }

  lemma QuietAppend(p: seq<Entry>, q: seq<Entry>, id: CampaignId, may: May)
    requires Quiet(p, id, may) && Quiet(q, id, may)
    ensures Quiet(p + q, id, may)
  {
  }

  /** What a quiet trace leaves: the attempts, the other campaigns, the incarnation. */
  ghost predicate LeftAlone(st: StoreState, post: StoreState, id: CampaignId, may: May) {
    post.attempts == st.attempts && post.incarnation == st.incarnation && post.epoch == st.epoch &&
    (forall x :: x != id ==> (x in post.campaigns <==> x in st.campaigns) &&
                             (x in post.campaigns ==> post.campaigns[x] == st.campaigns[x])) &&
    (id in st.campaigns ==> id in post.campaigns) &&
    (id in post.campaigns ==>
       Fits(post.campaigns[id], may) || (id in st.campaigns && post.campaigns[id] == st.campaigns[id]))
  }

  lemma {:induction false} QuietLeaves(st: StoreState, es: seq<Entry>, id: CampaignId, may: May)
    requires Quiet(es, id, may)
    ensures LeftAlone(st, ApplyAll(st, es), id, may)
    decreases |es|
  {
    if es != [] {
      assert es[0] in es;
      QuietLeaves(Apply(st, es[0]), es[1..], id, may);
    }
  }

  // ---- moves and what follows a commit ------------------------------------------------------------------------

  lemma MoveQuiet(id: CampaignId, c: Campaign, to: UpgradeState, g: Guards, may: May)
    requires Fits(c.(state := to), may)
    ensures Quiet(MoveTrace(id, c, to, g), id, may)
  {
    hide Permits;
  }

  lemma FailQuiet(st: StoreState, env: Env, id: CampaignId, c: Campaign)
    ensures Quiet(FailTrace(st, env, id, c), id, No(c))
  {
    hide Quiet, MoveTrace, GuardsOf;
    var c1 := c.(failureRecorded := true);
    MoveQuiet(id, c1, if c1.state.Proposed? then Blocked else Failed, GuardsOf(st, env, id, c1).(failureRecorded := true), No(c));
  }

  lemma AfterPreparedQuiet(st: StoreState, env: Env, id: CampaignId, c: Campaign, stage: nat)
    requires !Commanded(c.state)
    ensures Quiet(AfterPrepared(st, env, id, c, stage), id, No(c))
  {
    hide MoveTrace, GuardsOf, StageAll;
    if stage < |c.progress| {
      var c1 := c.(progress := c.progress[stage := StagePrepared]);
      StageItQuiet(Apply(st, CampaignEntry(id, c1)), env, id, c1);
    }
  }

  lemma StageItQuiet(st: StoreState, env: Env, id: CampaignId, c: Campaign)
    ensures Quiet(StageIt(st, env, id, c), id, No(c))
  {
    hide MoveTrace, GuardsOf;
    MoveQuiet(id, c, Staged, GuardsOf(st, env, id, c).(stagingComplete := true), No(c));
  }

  lemma BlockQuiet(st: StoreState, env: Env, id: CampaignId, c: Campaign)
    ensures Quiet(BlockTrace(st, env, id, c), id, No(c))
  {
    hide Quiet, MoveTrace, GuardsOf;
    MoveQuiet(id, c, Blocked, GuardsOf(st, env, id, c).(failureRecorded := true), No(c));
  }

  lemma CheckMixQuiet(st: StoreState, env: Env, id: CampaignId, c: Campaign)
    ensures Quiet(CheckMix(st, env, id, c), id, No(c))
  {
    hide MoveTrace, GuardsOf, SkewOk, BlockTrace;
    BlockQuiet(st, env, id, c);
    MoveQuiet(id, c, Verifying, GuardsOf(st, env, id, c), No(c));
  }

  lemma AfterActivatedQuiet(st: StoreState, env: Env, id: CampaignId, c: Campaign)
    ensures Quiet(AfterActivated(st, env, id, c), id, No(c))
  {
    hide Quiet, MoveTrace, GuardsOf, CheckMix, ApplyAll;
    var g := GuardsOf(st, env, id, c);
    var t := MoveTrace(id, c, Activating, g);
    MoveQuiet(id, c, Activating, g, No(c));
    CheckMixQuiet(st, env, id, c);
    CheckMixQuiet(ApplyAll(st, t), env, id, MoveResult(c, Activating, g));
    QuietAppend(t, CheckMix(ApplyAll(st, t), env, id, MoveResult(c, Activating, g)), id, No(c));
  }

  lemma AfterStageQuiet(st: StoreState, env: Env, id: CampaignId, c: Campaign, advanced: bool)
    ensures Quiet(AfterStage(st, env, id, c, advanced), id, No(c))
  {
    hide MoveTrace, GuardsOf, Permits;
    var g := GuardsOf(st, env, id, c);
    MoveQuiet(id, c, Staged, g, No(c));
    MoveQuiet(id, c, Completed, g, No(c));
  }

  lemma AfterVerifiedQuiet(st: StoreState, env: Env, id: CampaignId, c: Campaign, stage: nat)
    requires !Commanded(c.state)
    ensures Quiet(AfterVerified(st, env, id, c, stage), id, No(c))
  {
    hide AfterStage, StageAll;
    if c.active < |c.progress| {
      var c1 := StageCompletedRecord(c);
      AfterStageQuiet(Apply(st, CampaignEntry(id, c1)), env, id, c1, c1.active > c.active);
    }
  }

  lemma AfterRolledBackQuiet(st: StoreState, env: Env, id: CampaignId, c: Campaign)
    requires c.state.RollingBack?
    ensures Quiet(AfterRolledBack(st, env, id, c), id, May(RollingBack, c.generation))
  {
    hide MoveTrace, GuardsOf, NothingLeft;
    MoveQuiet(id, c.(rollbackPerformed := true), RolledBack, GuardsOf(st, env, id, c), May(RollingBack, c.generation));
  }

  // ---- commits ------------------------------------------------------------------------------------------------

  /** The attempt record an effective commit leaves behind. */
  function Committed(st: StoreState, env: Env, pol: Policy, item: Item, r: Report): (b: Attempt)
    requires FenceOk(st, item)
    ensures !InFlight(b.state)
  {
    var a := st.attempts[KeyOf(item)];
    match item.kind
    case Prepare => a.(state := if r.prepared then AttPrepared else AttFailed)
    case Activate =>
      if r.gateRefused then a.(state := AttPrepared)
      else if r.activated then a.(state := AttActivated, activationObserved := true)
      else a.(state := AttFailed)
    case Verify =>
      if Succeeded(item.artifact, r.verify, r.health, env.now, st.incarnation, pol.requireHealth)
      then a.(state := AttVerified, evidenceAt := r.verify.at, evidenceValidity := r.verify.validity,
              observedVersion := r.verify.version)
      else if a.retries < pol.maxRetries then a.(state := AttActivated, retries := a.retries + 1)
      else a.(state := AttFailed)
    case Rollback => a.(state := if r.rolledBack then AttRolledBack else AttFailed)
  }

  /** An effective commit first writes its attempt; the rest of what it writes is quiet. */
  ghost predicate CommitShape(st: StoreState, item: Item, b: Attempt, t: seq<Entry>)
    requires item.campaign in st.campaigns
  {
    |t| > 0 && t[0] == AttemptEntry(KeyOf(item), b) && Quiet(t[1..], item.campaign, Now(st, item.campaign))
  }

  lemma ShapeOf(st: StoreState, item: Item, b: Attempt, rest: seq<Entry>)
    requires item.campaign in st.campaigns
    requires Quiet(rest, item.campaign, Now(st, item.campaign)) || Quiet(rest, item.campaign, No(st.campaigns[item.campaign]))
    ensures CommitShape(st, item, b, [AttemptEntry(KeyOf(item), b)] + rest)
  {
    assert ([AttemptEntry(KeyOf(item), b)] + rest)[1..] == rest;
  }

  lemma PrepareShape(st: StoreState, env: Env, pol: Policy, item: Item, r: Report)
    requires FenceOk(st, item) && item.kind.Prepare?
    ensures CommitShape(st, item, Committed(st, env, pol, item, r), CommitPrepare(st, env, item, r))
  {
    hide Quiet, CommitShape, AfterPrepared, FailTrace;
    var k, id, c := KeyOf(item), item.campaign, st.campaigns[item.campaign];
    var b := Committed(st, env, pol, item, r);
    var st1 := Apply(st, AttemptEntry(k, b));
    if r.prepared {
      AfterPreparedQuiet(st1, env, id, c, item.stage);
      ShapeOf(st, item, b, AfterPrepared(st1, env, id, c, item.stage));
    } else {
      FailQuiet(st1, env, id, c);
      ShapeOf(st, item, b, FailTrace(st1, env, id, c));
    }
  }

  lemma ActivateShape(st: StoreState, env: Env, pol: Policy, item: Item, r: Report)
    requires FenceOk(st, item) && item.kind.Activate?
    ensures CommitShape(st, item, Committed(st, env, pol, item, r), CommitActivate(st, env, item, r))
  {
    hide Quiet, CommitShape, AfterActivated, FailTrace, BlockTrace;
    var k, id, c := KeyOf(item), item.campaign, st.campaigns[item.campaign];
    var b := Committed(st, env, pol, item, r);
    var st1 := Apply(st, AttemptEntry(k, b));
    if r.gateRefused {
      BlockQuiet(st1, env, id, c);
      AlsoQuiet(BlockTrace(st1, env, id, c), DecisionEntry(id, Decision(DecBlock, Deny)), id, No(c));
      ShapeOf(st, item, b, BlockTrace(st1, env, id, c) + [DecisionEntry(id, Decision(DecBlock, Deny))]);
    } else if r.activated {
      var l := LedgerEntry(RecordOf(st, env, item, Applied));
      AfterActivatedQuiet(Apply(st1, l), env, id, c);
      LedgerQuiet(l, AfterActivated(Apply(st1, l), env, id, c), id, No(c));
      ShapeOf(st, item, b, [l] + AfterActivated(Apply(st1, l), env, id, c));
    } else {
      FailQuiet(st1, env, id, c);
      ShapeOf(st, item, b, FailTrace(st1, env, id, c));
    }
  }

  lemma AlsoQuiet(p: seq<Entry>, e: Entry, id: CampaignId, may: May)
    requires Quiet(p, id, may) && e.DecisionEntry?
    ensures Quiet(p + [e], id, may)
  {
  }

  lemma LedgerQuiet(l: Entry, p: seq<Entry>, id: CampaignId, may: May)
    requires Quiet(p, id, may) && l.LedgerEntry?
    ensures Quiet([l] + p, id, may)
  {
  }

  lemma VerifyShape(st: StoreState, env: Env, pol: Policy, item: Item, r: Report)
    requires FenceOk(st, item) && item.kind.Verify?
    ensures CommitShape(st, item, Committed(st, env, pol, item, r), CommitVerify(st, env, pol, item, r))
  {
    hide CommitShape, AfterVerified, FailTrace, Succeeded;
    var k, id, c := KeyOf(item), item.campaign, st.campaigns[item.campaign];
    var b := Committed(st, env, pol, item, r);
    var st1 := Apply(st, AttemptEntry(k, b));
    if Succeeded(item.artifact, r.verify, r.health, env.now, st.incarnation, pol.requireHealth) {
      var l := LedgerEntry(RecordOf(st, env, item, Confirmed));
      AfterVerifiedQuiet(Apply(st1, l), env, id, c, item.stage);
      LedgerQuiet(l, AfterVerified(Apply(st1, l), env, id, c, item.stage), id, No(c));
      ShapeOf(st, item, b, [l] + AfterVerified(Apply(st1, l), env, id, c, item.stage));
    } else if st.attempts[k].retries < pol.maxRetries {
      ShapeOf(st, item, b, []);
      assert [AttemptEntry(k, b)] + [] == [AttemptEntry(k, b)];
    } else {
      FailQuiet(st1, env, id, c);
      ShapeOf(st, item, b, FailTrace(st1, env, id, c));
    }
  }

  lemma RollbackShape(st: StoreState, env: Env, pol: Policy, item: Item, r: Report)
    requires FenceOk(st, item) && item.kind.Rollback?
    ensures CommitShape(st, item, Committed(st, env, pol, item, r), CommitRollback(st, env, item, r))
  {
    hide Quiet, CommitShape, AfterRolledBack, FailTrace;
    var k, id, c := KeyOf(item), item.campaign, st.campaigns[item.campaign];
    var b := Committed(st, env, pol, item, r);
    var st1 := Apply(st, AttemptEntry(k, b));
    if r.rolledBack {
      var l := LedgerEntry(RecordOf(st, env, item, Reverted));
      AfterRolledBackQuiet(Apply(st1, l), env, id, c);
      LedgerQuiet(l, AfterRolledBack(Apply(st1, l), env, id, c), id, May(RollingBack, c.generation));
      ShapeOf(st, item, b, [l] + AfterRolledBack(Apply(st1, l), env, id, c));
    } else {
      FailQuiet(st1, env, id, c);
      ShapeOf(st, item, b, FailTrace(st1, env, id, c));
    }
  }

  lemma EffectiveShape(st: StoreState, env: Env, pol: Policy, item: Item, r: Report)
    requires FenceOk(st, item)
    ensures CommitShape(st, item, Committed(st, env, pol, item, r), CommitTrace(st, env, pol, item, r))
  {
    hide CommitShape, FenceOk, CommitPrepare, CommitActivate, CommitVerify, CommitRollback;
    match item.kind
    case Prepare => PrepareShape(st, env, pol, item, r);
    case Activate => ActivateShape(st, env, pol, item, r);
    case Verify => VerifyShape(st, env, pol, item, r);
    case Rollback => RollbackShape(st, env, pol, item, r);
  }

  /** An effective commit replaces exactly the attempt it was claimed for. */
  lemma {:induction false} CommitEffect(st: StoreState, env: Env, pol: Policy, item: Item, r: Report)
    requires FenceOk(st, item)
    ensures var post := ApplyAll(st, CommitTrace(st, env, pol, item, r));
            LeftAlone(st.(attempts := st.attempts[KeyOf(item) := Committed(st, env, pol, item, r)]), post, item.campaign,
                      Now(st, item.campaign))
  {
    hide Quiet, LeftAlone, FenceOk, Committed, CommitTrace;
    EffectiveShape(st, env, pol, item, r);
    var t := CommitTrace(st, env, pol, item, r);
    QuietLeaves(Apply(st, t[0]), t[1..], item.campaign, Now(st, item.campaign));
  }

  /** A fenced commit changes nothing but the decision trail, whatever the adapter reported. */
  lemma FencedCommit(st: StoreState, env: Env, pol: Policy, item: Item, r: Report)
    requires !FenceOk(st, item)
    ensures var post := ApplyAll(st, CommitTrace(st, env, pol, item, r));
            post == st.(decisions := post.decisions)
    ensures forall e :: e in CommitTrace(st, env, pol, item, r) ==> e == DecisionEntry(item.campaign, Decision(DecFence, Deny))
  {
    hide FenceOk;
    ApplyOne(st, DecisionEntry(item.campaign, Decision(DecFence, Deny)));
  }

  // ---- commands -----------------------------------------------------------------------------------------------

  lemma CreateQuiet(st: StoreState, id: CampaignId, artifact: Artifact, plan: Plan, acknowledge: bool)
    ensures Quiet(CreateTrace(st, id, artifact, plan, acknowledge), id, May(Proposed, 1))
  {
  }

  lemma WriteQuiet(id: CampaignId, c: Campaign, may: May)
    requires Fits(c, may)
    ensures Quiet([CampaignEntry(id, c)], id, may)
  {
  }

  lemma DecisionQuiet(id: CampaignId, d: Decision, may: May)
    ensures Quiet([DecisionEntry(id, d)], id, may) && Quiet([], id, may)
  {
  }

  lemma PreflightQuiet(st: StoreState, env: Env, id: CampaignId, passed: bool, integrity: bool, ticket: Ticket)
    ensures Quiet(PreflightTrace(st, env, id, passed, integrity, ticket), id, Now(st, id))
  {
    hide Quiet, GuardsOf, MoveTrace, Permits;
    DecisionQuiet(id, Decision(DecPreflight, Deny), Now(st, id));
    if id in st.campaigns {
      var c := st.campaigns[id];
      var p := Now(st, id);
      var c1 := c.(ticket := if passed then ticket else NoTicket);
      var w := CampaignEntry(id, c1);
      var g := if passed then GuardsOf(st, env, id, c1).(preflightCurrent := true, integrityVerified := integrity)
               else GuardsOf(Apply(st, w), env, id, c1).(failureRecorded := true);
      var to := if passed then Validated else Blocked;
      var move := c1.state.Proposed? || (passed && (c1.state.Blocked? || c1.state.Paused?));
      var m := if move then MoveTrace(id, c1, to, g) else [];
      WriteQuiet(id, c1, p);
      MoveQuiet(id, c1, to, g, p);
      DecisionQuiet(id, Decision(DecPreflight, if passed then Allow else Deny), p);
      QuietAppend([w], m, id, p);
      QuietAppend([w] + m, [DecisionEntry(id, Decision(DecPreflight, if passed then Allow else Deny))], id, p);
      QuietAppend([w] + m, [], id, p);
    }
  }

  /** As now, with the next generation. */
  function Restarted(st: StoreState, id: CampaignId): May { Now(st, id).(generation := Next(Now(st, id).generation)) }

  lemma StartQuiet(st: StoreState, env: Env, id: CampaignId, allowIrreversible: bool)
    ensures Quiet(StartTrace(st, env, id, allowIrreversible), id, Restarted(st, id))
  {
    hide Quiet, GuardsOf, MoveTrace, Permits, MoveResult;
    if StartAdmits(st, env, id, allowIrreversible) {
      var c := st.campaigns[id];
      var p := Restarted(st, id);
      var c1 := StartedRecord(env, c, allowIrreversible);
      var g := GuardsOf(st, env, id, c1.(generation := c.generation, ticket := c.ticket)).(rollbackPlanRecorded := true);
      var m1 := if c1.state.Paused? || c1.state.Blocked? then MoveTo(id, c1, Validated, g) else Moves([], c1);
      var m2 := Release(id, m1.campaign, g, false);
      WriteQuiet(id, c1, p);
      DecisionQuiet(id, Decision(DecAdmit, Allow), p);
      MoveQuiet(id, c1, Validated, g, p);
      MoveQuiet(id, m1.campaign, Prepared, g, p);
      var head := [CampaignEntry(id, c1)] + [DecisionEntry(id, Decision(DecAdmit, Allow))];
      QuietAppend([CampaignEntry(id, c1)], [DecisionEntry(id, Decision(DecAdmit, Allow))], id, p);
      QuietAppend(head, m1.trace, id, p);
      QuietAppend(head + m1.trace, m2.trace, id, p);
      assert head == [CampaignEntry(id, c1), DecisionEntry(id, Decision(DecAdmit, Allow))];
    } else {
      DecisionQuiet(id, Decision(DecAdmit, Allow), Restarted(st, id));
    }
  }

  lemma ResumeQuiet(st: StoreState, env: Env, id: CampaignId)
    ensures Quiet(ResumeTrace(st, env, id), id, May(Proposed, Now(st, id).generation))
  {
    hide Quiet, GuardsOf, MoveTrace, Permits, MoveResult, TicketCurrent;
    var p := May(Proposed, Now(st, id).generation);
    DecisionQuiet(id, Decision(DecResume, Allow), p);
    if id in st.campaigns {
      var c := st.campaigns[id];
      var g := GuardsOf(st, env, id, c).(manualRelease := true);
      var m1 := if c.state.Paused? || c.state.Blocked? then MoveTo(id, c, Validated, g) else Moves([], c);
      var m2 := Release(id, m1.campaign, g, true);
      MoveQuiet(id, c, Validated, g, p);
      MoveQuiet(id, m1.campaign, Prepared, g, p);
      QuietAppend(m1.trace, m2.trace, id, p);
      QuietAppend(m1.trace + m2.trace, [DecisionEntry(id, Decision(DecResume, Allow))], id, p);
      QuietAppend(m1.trace + m2.trace, [], id, p);
    }
  }

  lemma RollbackQuiet(st: StoreState, env: Env, id: CampaignId, execute: bool)
    ensures Quiet(RollbackTrace(st, env, id, execute), id, May(RollingBack, Now(st, id).generation))
  {
    hide Quiet, GuardsOf, MoveTrace, Permits, MoveResult, HasTouched, HandedOver, AdaptersRollBack;
    var p := May(RollingBack, Now(st, id).generation);
    DecisionQuiet(id, Decision(DecRollback, Deny), p);
    DecisionQuiet(id, Decision(DecRollback, Allow), p);
    if id in st.campaigns {
      var c := st.campaigns[id];
      var g := GuardsOf(st, env, id, c).(rollbackEligible := true, failureRecorded := true);
      var m1 := MoveTo(id, c, Failed, g);
      var m2 := MoveTo(id, m1.campaign, RollbackPlanned, g);
      var m3 := if execute then MoveTo(id, m2.campaign, RollingBack, g) else Moves([], m2.campaign);
      MoveQuiet(id, c, Failed, g, p);
      MoveQuiet(id, m1.campaign, RollbackPlanned, g, p);
      MoveQuiet(id, m2.campaign, RollingBack, g, p);
      QuietAppend(m1.trace, m2.trace, id, p);
      QuietAppend(m1.trace + m2.trace, m3.trace, id, p);
      QuietAppend(m1.trace + m2.trace + m3.trace, [DecisionEntry(id, Decision(DecRollback, Allow))], id, p);
    }
  }

  // ---- retiring attempts --------------------------------------------------------------------------------------

  predicate Retirement(to: AttemptState) { to.AttAbandoned? || to.AttAborted? }

  /** Some in-flight attempts were retired; nothing else changed. */
  ghost predicate Retired(st: StoreState, post: StoreState, to: AttemptState) {
    post.campaigns == st.campaigns && post.incarnation == st.incarnation && post.epoch == st.epoch &&
    post.ledger == st.ledger && (forall k :: k in post.attempts <==> k in st.attempts) &&
    forall k :: k in st.attempts ==>
      post.attempts[k] == st.attempts[k] ||
      (InFlight(st.attempts[k].state) && post.attempts[k] == st.attempts[k].(state := to))
  }

  lemma RetireOneEffect(st: StoreState, k: Key, to: AttemptState)
    requires k in st.attempts && Retirement(to)
    ensures Retired(st, ApplyAll(st, RetireOne(st, k, to)), to)
    ensures !InFlight(ApplyAll(st, RetireOne(st, k, to)).attempts[k].state)
  {
    if InFlight(st.attempts[k].state) { ApplyOne(st, AttemptEntry(k, st.attempts[k].(state := to))); }
  }

  lemma RetiredTrans(a: StoreState, b: StoreState, c: StoreState, to: AttemptState)
    requires Retired(a, b, to) && Retired(b, c, to) && Retirement(to)
    ensures Retired(a, c, to)
  {
  }

  /** Retiring the attempts of a campaign retires every listed one that is in flight. */
  lemma {:induction false} RetireAllEffect(st: StoreState, id: CampaignId, order: seq<Key>, to: AttemptState)
    requires Retirement(to)
    ensures var post := ApplyAll(st, RetireAll(st, id, order, to));
            Retired(st, post, to) &&
            forall k :: k in order && k in st.attempts && k.campaign == id ==> !InFlight(post.attempts[k].state)
    decreases |order|
  {
    hide ApplyAll, RetireOne;
    if order == [] {
      EmptyRun(st);
    } else {
      var mine := order[0] in st.attempts && order[0].campaign == id;
      var w := if mine then RetireOne(st, order[0], to) else [];
      var st1 := ApplyAll(st, w);
      if mine { RetireOneEffect(st, order[0], to); } else { EmptyRun(st); }
      RetireAllEffect(st1, id, order[1..], to);
      ApplyAllAppend(st, w, RetireAll(st1, id, order[1..], to));
      RetiredTrans(st, st1, ApplyAll(st1, RetireAll(st1, id, order[1..], to)), to);
    }
  }

  lemma EmptyRun(st: StoreState)
    ensures ApplyAll(st, []) == st
  {
  }

  /** Opening abandons every listed attempt that another incarnation left in flight. */
  lemma {:induction false} AbandonAllEffect(st: StoreState, order: seq<Key>)
    ensures var post := ApplyAll(st, AbandonAll(st, order));
            Retired(st, post, AttAbandoned) &&
            forall k :: k in order && k in st.attempts && st.attempts[k].owner != st.incarnation ==>
              !InFlight(post.attempts[k].state)
    decreases |order|
  {
    hide ApplyAll, RetireOne;
    if order == [] {
      EmptyRun(st);
    } else {
      var mine := order[0] in st.attempts && st.attempts[order[0]].owner != st.incarnation;
      var w := if mine then RetireOne(st, order[0], AttAbandoned) else [];
      var st1 := ApplyAll(st, w);
      if mine { RetireOneEffect(st, order[0], AttAbandoned); } else { EmptyRun(st); }
      AbandonAllEffect(st1, order[1..]);
      ApplyAllAppend(st, w, AbandonAll(st1, order[1..]));
      RetiredTrans(st, st1, ApplyAll(st1, AbandonAll(st1, order[1..])), AttAbandoned);
    }
  }
}
