/** What each operator command does to the store, stated on the stores before and after it: the campaign record, the attempts,
    and the last decision recorded. */
module CommandEffects {
  import opened Lifecycle
  import opened Records
  import opened Store
  import opened Protocol
  import opened Commands
  import opened Sections
  import opened Effects

  // ---- what a start does --------------------------------------------------------------------------------------

  /** An admitted start is never refused a move: whatever has yet to be prepared is prepared. */
  function StartedState(s: UpgradeState): UpgradeState { if s.Validated? || s.Paused? || s.Blocked? then Prepared else s }

  lemma GuardFlags(st: StoreState, env: Env, id: CampaignId, c: Campaign)
    ensures var g := GuardsOf(st, env, id, c);
            (g.preflightCurrent <==> TicketCurrent(st, env, c)) &&
            (g.integrityVerified <==> env.verified && env.verifiedDigest == c.artifact.digest) &&
            (g.irreversibleAcknowledged <==> !c.plan.irreversible || c.acknowledged)
  {
    hide SkewOk, StageAll, StageFresh, NothingLeft, AdaptersSupport, TicketCurrent;
  }

  lemma ToPrepared(g: Guards)
    requires g.preflightCurrent && g.integrityVerified && g.rollbackPlanRecorded && g.irreversibleAcknowledged
    ensures Permits(Paused, Validated, g) && Permits(Blocked, Validated, g) && Permits(Validated, Prepared, g)
  {
  }

  lemma StartPermits(st: StoreState, env: Env, id: CampaignId, allow: bool)
    requires StartAdmits(st, env, id, allow)
    ensures st.campaigns[id].ticket.Ticket?
    ensures var c := st.campaigns[id];
            var unbumped := StartedRecord(env, c, allow).(generation := c.generation, ticket := c.ticket);
            var g := GuardsOf(st, env, id, unbumped).(rollbackPlanRecorded := true);
            Permits(Paused, Validated, g) && Permits(Blocked, Validated, g) && Permits(Validated, Prepared, g)
  {
    hide GuardsOf, Permits, AdaptersRollBack;
    var c := st.campaigns[id];
    var unbumped := StartedRecord(env, c, allow).(generation := c.generation, ticket := c.ticket);
    GuardFlags(st, env, id, unbumped);
    ToPrepared(GuardsOf(st, env, id, unbumped).(rollbackPlanRecorded := true));
  }

  /** An admitted start: the campaign it started has the next generation, and is prepared unless it was further on. */
  lemma StartEffect(st: StoreState, env: Env, id: CampaignId, allow: bool)
    requires StartAdmits(st, env, id, allow)
    ensures var c := st.campaigns[id];
            SameButCampaign(st, ApplyAll(st, StartTrace(st, env, id, allow)), id,
                            StartedRecord(env, c, allow).(state := StartedState(c.state)))
  {
    hide GuardsOf, MoveTrace, Permits, ApplyAll, AdaptersRollBack, TicketCurrent, OnlyMoved, SameButCampaign, MoveResult;
    StartPermits(st, env, id, allow);
    var c := st.campaigns[id];
    var c1 := StartedRecord(env, c, allow);
    var g := GuardsOf(st, env, id, c1.(generation := c.generation, ticket := c.ticket)).(rollbackPlanRecorded := true);
    var m1 := if c1.state.Paused? || c1.state.Blocked? then MoveTo(id, c1, Validated, g) else Moves([], c1);
    var m2 := Release(id, m1.campaign, g, false);
    var head := [CampaignEntry(id, c1), DecisionEntry(id, Decision(DecAdmit, Allow))];
    var st1 := ApplyAll(st, head);
    RecordWritten(st, id, c1, Decision(DecAdmit, Allow));
    ReleaseEffect(st1, id, c1, g);
    ApplyAllAppend(st, head, m1.trace);
    ApplyAllAppend(st, head + m1.trace, m2.trace);
    ThenSame(st, st1, ApplyAll(st, head + m1.trace + m2.trace), id, c1, c1.(state := StartedState(c1.state)));
  }

  lemma RecordWritten(st: StoreState, id: CampaignId, c: Campaign, d: Decision)
    ensures var post := ApplyAll(st, [CampaignEntry(id, c), DecisionEntry(id, d)]);
            SameButCampaign(st, post, id, c) && id in post.campaigns && post.campaigns[id] == c
  {
    ApplyTwo(st, CampaignEntry(id, c), DecisionEntry(id, d));
  }

  lemma ThenSame(a: StoreState, b: StoreState, c: StoreState, id: CampaignId, x: Campaign, y: Campaign)
    requires SameButCampaign(a, b, id, x) && SameButCampaign(b, c, id, y)
    ensures SameButCampaign(a, c, id, y)
  {
  }

  lemma SameItself(st: StoreState, id: CampaignId)
    requires id in st.campaigns
    ensures SameButCampaign(st, st, id, st.campaigns[id])
  {
    assert st.campaigns == st.campaigns[id := st.campaigns[id]];
  }

  /** The moves a start ends with, none of which is refused. */
  lemma ReleaseEffect(st: StoreState, id: CampaignId, c: Campaign, g: Guards)
    requires id in st.campaigns && st.campaigns[id] == c
    requires Permits(Paused, Validated, g) && Permits(Blocked, Validated, g) && Permits(Validated, Prepared, g)
    ensures var m1 := if c.state.Paused? || c.state.Blocked? then MoveTo(id, c, Validated, g) else Moves([], c);
            var m2 := Release(id, m1.campaign, g, false);
            SameButCampaign(st, ApplyAll(ApplyAll(st, m1.trace), m2.trace), id, c.(state := StartedState(c.state)))
  {
    hide MoveTrace, Permits, ApplyAll, MoveResult, OnlyMoved, SameButCampaign;
    EmptyRun(st);
    if c.state.Paused? || c.state.Blocked? {
      var st1 := ApplyAll(st, MoveTrace(id, c, Validated, g));
      MovedTo(st, id, c, Validated, g);
      MovedTo(st1, id, c.(state := Validated), Prepared, g);
      ThenSame(st, st1, ApplyAll(st1, MoveTrace(id, c.(state := Validated), Prepared, g)), id, c.(state := Validated),
               c.(state := Prepared));
    } else if c.state.Validated? {
      MovedTo(st, id, c, Prepared, g);
    } else {
      SameItself(st, id);
      assert c.(state := StartedState(c.state)) == c;
    }
  }

  lemma MovedTo(st: StoreState, id: CampaignId, c: Campaign, to: UpgradeState, g: Guards)
    requires id in st.campaigns && Permits(c.state, to, g) && c.state != to && !Terminal(to)
    ensures MoveResult(c, to, g) == c.(state := to)
    ensures var post := ApplyAll(st, MoveTrace(id, c, to, g));
            SameButCampaign(st, post, id, c.(state := to)) && id in post.campaigns && post.campaigns[id] == c.(state := to)
  {
    hide MoveTrace, Permits, ApplyAll;
    MoveEffect(st, id, c, to, g);
  }

  // ---- decisions ----------------------------------------------------------------------------------------------

  /** The last decision recorded about the campaign. */
  predicate Noted(st: StoreState, id: CampaignId, d: Decision) {
    id in st.decisions && st.decisions[id] != [] && st.decisions[id][|st.decisions[id]| - 1] == d
  }

  lemma DecisionOnly(st: StoreState, id: CampaignId, d: Decision)
    requires id in st.campaigns
    ensures var post := ApplyAll(st, [DecisionEntry(id, d)]);
            SameButCampaign(st, post, id, st.campaigns[id]) && Noted(post, id, d)
  {
    ApplyOne(st, DecisionEntry(id, d));
    SameItself(st, id);
  }

  lemma AlsoDecided(st: StoreState, t: seq<Entry>, id: CampaignId, c: Campaign, d: Decision)
    requires SameButCampaign(st, ApplyAll(st, t), id, c)
    ensures var post := ApplyAll(st, t + [DecisionEntry(id, d)]);
            SameButCampaign(st, post, id, c) && Noted(post, id, d)
  {
    ApplyAllAppend(st, t, [DecisionEntry(id, d)]);
    ApplyOne(ApplyAll(st, t), DecisionEntry(id, d));
  }

  // ---- start --------------------------------------------------------------------------------------------------

  /** Start, in full: it is admitted exactly for an executable plan that is neither new, running nor finished, with a passed,
      unexpired preflight of this generation, incarnation and epoch and an artifact that still verifies, and with its
      irreversible steps acknowledged. It then takes the next generation, and is prepared unless it was further on. */
  lemma StartMeans(st: StoreState, env: Env, id: CampaignId, allow: bool)
    ensures var post := ApplyAll(st, StartTrace(st, env, id, allow));
            if id in st.campaigns && CanStart(st, env, st.campaigns[id], allow) then
              var c := st.campaigns[id];
              var next := if c.generation == 0xFFFF_FFFF_FFFF_FFFF then c.generation else c.generation + 1;
              SameButCampaign(st, post, id,
                c.(state := if c.state in {Validated, Paused, Blocked} then Prepared else c.state, generation := next,
                   ticket := c.ticket.(generation := next), rollbackRecorded := true,
                   acknowledged := c.acknowledged || allow,
                   rollbackEligible := c.artifact.reversible && AllRollBack(env, c.plan)))
            else post == st
  {
    hide TicketCurrent, ApplyAll, SameButCampaign;
    EmptyRun(st);
    CanStartIff(st, env, id, allow);
    if StartAdmits(st, env, id, allow) {
      StartEffect(st, env, id, allow);
      RollBackIff(env, st.campaigns[id]);
    }
  }

  predicate CanStart(st: StoreState, env: Env, c: Campaign, allow: bool) {
    c.state in {Validated, Prepared, Staged, Blocked, Paused, Failed, RollbackPlanned} && c.plan.executable &&
    (c.plan.irreversible ==> c.acknowledged || allow) && Released(st, env, c)
  }

  /** The preflight that releases a campaign: passed, in its generation, in this incarnation and epoch, not yet expired, and the
      payload verified last is still the artifact's. */
  predicate Released(st: StoreState, env: Env, c: Campaign) {
    c.ticket.Ticket? && c.ticket.passed &&
    (c.ticket.generation, c.ticket.incarnation, c.ticket.epoch) == (c.generation, st.incarnation, st.epoch) &&
    env.now < c.ticket.expires && env.verified && env.verifiedDigest == c.artifact.digest
  }

  /** Every adapter the plan needs can roll back. */
  predicate AllRollBack(env: Env, plan: Plan) {
    forall stage :: stage in plan.stages ==>
      forall t :: t in stage.targets ==> t in env.inventory && env.inventory[t].supportsRollback
  }

  lemma ReleasedIff(st: StoreState, env: Env, c: Campaign)
    ensures TicketCurrent(st, env, c) <==> Released(st, env, c)
  {
  }

  lemma CanStartIff(st: StoreState, env: Env, id: CampaignId, allow: bool)
    ensures StartAdmits(st, env, id, allow) <==> id in st.campaigns && CanStart(st, env, st.campaigns[id], allow)
  {
    hide TicketCurrent, Released;
    if id in st.campaigns { ReleasedIff(st, env, st.campaigns[id]); }
  }

  lemma RollBackIff(env: Env, c: Campaign)
    ensures AdaptersRollBack(env, c) <==> AllRollBack(env, c.plan)
  {
    if AdaptersRollBack(env, c) {
      forall stage, t | stage in c.plan.stages && t in stage.targets ensures t in env.inventory && env.inventory[t].supportsRollback {
        var i :| 0 <= i < |c.plan.stages| && c.plan.stages[i] == stage;
        assert Planned(c, i, t);
      }
    }
    if AllRollBack(env, c.plan) {
      forall i: nat, t | Planned(c, i, t) ensures t in env.inventory && env.inventory[t].supportsRollback {
        assert c.plan.stages[i] in c.plan.stages;
      }
    }
  }

  // ---- create, preflight --------------------------------------------------------------------------------------

  /** A new campaign is proposed, in its first generation, with every stage pending and nothing granted yet. */
  lemma CreateMeans(st: StoreState, id: CampaignId, artifact: Artifact, plan: Plan, acknowledge: bool)
    ensures var post := ApplyAll(st, CreateTrace(st, id, artifact, plan, acknowledge));
            if id in st.campaigns then post == st
            else
              id in post.campaigns &&
              var c := post.campaigns[id];
              SameButCampaign(st, post, id, c) && c.state.Proposed? && c.generation == 1 && c.epoch == st.epoch && c.artifact == artifact &&
              c.plan == plan && |c.progress| == |plan.stages| && (forall p :: p in c.progress ==> p.StagePending?) && c.active == 0 &&
              c.acknowledged == acknowledge && !c.rollbackRecorded && !c.rollbackPerformed && !c.failureRecorded &&
              c.ticket.NoTicket? && c.rollbackEligible == artifact.reversible &&
              Noted(post, id, Decision(DecPlan, if plan.executable then Allow else Deny))
  {
    EmptyRun(st);
    var t := CreateTrace(st, id, artifact, plan, acknowledge);
    if id !in st.campaigns { ApplyTwo(st, t[0], t[1]); }
  }

  /** A passed preflight issues its ticket and validates a campaign that waits for it, if the payload verified; a failed one
      withdraws the ticket and blocks a proposed campaign. */
  lemma PreflightMeans(st: StoreState, env: Env, id: CampaignId, passed: bool, integrity: bool, ticket: Ticket)
    ensures var post := ApplyAll(st, PreflightTrace(st, env, id, passed, integrity, ticket));
            if id !in st.campaigns then post == st
            else
              var c := st.campaigns[id];
              var waits := c.state in {Proposed, Blocked, Paused};
              if passed then
                SameButCampaign(st, post, id, c.(ticket := ticket, state := if waits && integrity then Validated else c.state)) &&
                Noted(post, id, if waits && !integrity then Decision(DecBlock, Deny) else Decision(DecPreflight, Allow))
              else
                SameButCampaign(st, post, id, c.(ticket := NoTicket, state := if c.state.Proposed? then Blocked else c.state)) &&
                Noted(post, id, Decision(DecPreflight, Deny))
  {
    hide GuardsOf, ApplyAll, SameButCampaign, Noted, MoveResult;
    EmptyRun(st);
    if id in st.campaigns {
      var c := st.campaigns[id];
      if passed {
        PreflightPassed(st, env, id, integrity, ticket);
      } else {
        PreflightFailed(st, env, id, integrity, ticket);
      }
    }
  }

  lemma PreflightPassed(st: StoreState, env: Env, id: CampaignId, integrity: bool, ticket: Ticket)
    requires id in st.campaigns
    ensures var post := ApplyAll(st, PreflightTrace(st, env, id, true, integrity, ticket));
            var c := st.campaigns[id];
            var waits := c.state in {Proposed, Blocked, Paused};
            SameButCampaign(st, post, id, c.(ticket := ticket, state := if waits && integrity then Validated else c.state)) &&
            Noted(post, id, if waits && !integrity then Decision(DecBlock, Deny) else Decision(DecPreflight, Allow))
  {
    hide GuardsOf, ApplyAll, SameButCampaign, Noted, MoveResult, Permits, MoveTrace;
    var c := st.campaigns[id];
    var c1 := c.(ticket := ticket);
    var g := GuardsOf(st, env, id, c1).(preflightCurrent := true, integrityVerified := integrity);
    var w, d := [CampaignEntry(id, c1)], DecisionEntry(id, Decision(DecPreflight, Allow));
    WrittenOnly(st, id, c1);
    var st1 := ApplyAll(st, w);
    ToValidated(c1.state, g);
    if c.state in {Proposed, Blocked, Paused} {
      var m := MoveTrace(id, c1, Validated, g);
      ApplyAllAppend(st, w, m);
      if integrity {
        MovedTo(st1, id, c1, Validated, g);
        ThenSame(st, st1, ApplyAll(st1, m), id, c1, c1.(state := Validated));
        AlsoDecided(st, w + m, id, c1.(state := Validated), Decision(DecPreflight, Allow));
      } else {
        MoveRefused(st1, id, c1, Validated, g);
        ThenSame(st, st1, ApplyAll(st1, m), id, c1, c1);
        assert w + m + [] == w + m;
      }
    } else {
      AlsoDecided(st, w, id, c1, Decision(DecPreflight, Allow));
      assert w + [] + [d] == w + [d];
    }
  }

  lemma PreflightFailed(st: StoreState, env: Env, id: CampaignId, integrity: bool, ticket: Ticket)
    requires id in st.campaigns
    ensures var post := ApplyAll(st, PreflightTrace(st, env, id, false, integrity, ticket));
            var c := st.campaigns[id];
            SameButCampaign(st, post, id, c.(ticket := NoTicket, state := if c.state.Proposed? then Blocked else c.state)) &&
            Noted(post, id, Decision(DecPreflight, Deny))
  {
    hide GuardsOf, ApplyAll, SameButCampaign, Noted, MoveResult, Permits, MoveTrace;
    var c := st.campaigns[id];
    var c1 := c.(ticket := NoTicket);
    var w, d := [CampaignEntry(id, c1)], DecisionEntry(id, Decision(DecPreflight, Deny));
    var g := GuardsOf(Apply(st, w[0]), env, id, c1).(failureRecorded := true);
    WrittenOnly(st, id, c1);
    var st1 := ApplyAll(st, w);
    if c.state.Proposed? {
      var m := MoveTrace(id, c1, Blocked, g);
      BlockedPermitted(c1.state, g);
      ApplyAllAppend(st, w, m);
      MovedTo(st1, id, c1, Blocked, g);
      ThenSame(st, st1, ApplyAll(st1, m), id, c1, c1.(state := Blocked));
      AlsoDecided(st, w + m, id, c1.(state := Blocked), Decision(DecPreflight, Deny));
    } else {
      AlsoDecided(st, w, id, c1, Decision(DecPreflight, Deny));
      assert w + [] + [d] == w + [d];
    }
  }

  lemma WrittenOnly(st: StoreState, id: CampaignId, c: Campaign)
    ensures var post := ApplyAll(st, [CampaignEntry(id, c)]);
            SameButCampaign(st, post, id, c) && id in post.campaigns && post.campaigns[id] == c
  {
    ApplyOne(st, CampaignEntry(id, c));
  }

  lemma ToValidated(s: UpgradeState, g: Guards)
    ensures s in {Proposed, Blocked, Paused} ==> (Permits(s, Validated, g) <==> g.preflightCurrent && g.integrityVerified)
  {
  }

  lemma BlockedPermitted(s: UpgradeState, g: Guards)
    requires g.failureRecorded
    ensures s in {Proposed, Validated, Prepared, Staged, Activating, Verifying} ==> Permits(s, Blocked, g)
  {
  }

  /** A refused move leaves the record as it is stored, and a denial. */
  lemma MoveRefused(st: StoreState, id: CampaignId, c: Campaign, to: UpgradeState, g: Guards)
    requires id in st.campaigns && !Permits(c.state, to, g)
    ensures MoveResult(c, to, g) == c
    ensures var post := ApplyAll(st, MoveTrace(id, c, to, g));
            SameButCampaign(st, post, id, st.campaigns[id]) && Noted(post, id, Decision(DecBlock, Deny))
  {
    hide Permits, ApplyAll, SameButCampaign, Noted;
    DecisionOnly(st, id, Decision(DecBlock, Deny));
  }

  // ---- pause, resume, abort -----------------------------------------------------------------------------------

  /** The attempts of the campaign that were in flight are retired, and no others. */
  ghost predicate JustRetired(before: map<Key, Attempt>, after: map<Key, Attempt>, id: CampaignId, to: AttemptState) {
    after.Keys == before.Keys &&
    forall k :: k in before ==>
      after[k] == if k.campaign == id && before[k].state in {AttPreparing, AttActivating, AttVerifying, AttRollingBack}
                  then before[k].(state := to) else before[k]
  }

  lemma {:induction false} RetireExactly(st: StoreState, id: CampaignId, order: seq<Key>, to: AttemptState)
    requires Retirement(to)
    ensures var post := ApplyAll(st, RetireAll(st, id, order, to));
            post == st.(attempts := post.attempts) && post.attempts.Keys == st.attempts.Keys &&
            forall k :: k in st.attempts ==>
              post.attempts[k] == if k in order && k.campaign == id && InFlight(st.attempts[k].state)
                                  then st.attempts[k].(state := to) else st.attempts[k]
    decreases |order|
  {
    hide ApplyAll, RetireOne;
    if order == [] {
      EmptyRun(st);
    } else {
      var k := order[0];
      var mine := k in st.attempts && k.campaign == id;
      var w := if mine then RetireOne(st, k, to) else [];
      var st1 := ApplyAll(st, w);
      if mine { RetiredOne(st, k, to); } else { EmptyRun(st); }
      RetireExactly(st1, id, order[1..], to);
      ApplyAllAppend(st, w, RetireAll(st1, id, order[1..], to));
      assert order == [k] + order[1..];
    }
  }

  lemma RetiredOne(st: StoreState, k: Key, to: AttemptState)
    requires k in st.attempts && Retirement(to)
    ensures ApplyAll(st, RetireOne(st, k, to)) ==
            st.(attempts := st.attempts[k := if InFlight(st.attempts[k].state) then st.attempts[k].(state := to) else st.attempts[k]])
  {
    if InFlight(st.attempts[k].state) {
      ApplyOne(st, AttemptEntry(k, st.attempts[k].(state := to)));
    } else {
      assert st.attempts[k := st.attempts[k]] == st.attempts;
    }
  }

  lemma RetiredAll(st: StoreState, id: CampaignId, order: seq<Key>, to: AttemptState)
    requires Retirement(to) && Lists(order, st.attempts.Keys)
    ensures var post := ApplyAll(st, RetireAll(st, id, order, to));
            post == st.(attempts := post.attempts) && JustRetired(st.attempts, post.attempts, id, to)
  {
    hide ApplyAll;
    RetireExactly(st, id, order, to);
  }

  /** The campaign record is this one now, and of the attempts those in flight were retired. */
  ghost predicate Retiring(st: StoreState, post: StoreState, id: CampaignId, c: Campaign, to: AttemptState) {
    post.campaigns == st.campaigns[id := c] && post.ledger == st.ledger && post.epoch == st.epoch &&
    post.incarnation == st.incarnation && post.config == st.config && JustRetired(st.attempts, post.attempts, id, to)
  }

  /** Pause, in full: between stages only; what was in flight is abandoned. */
  lemma PauseMeans(st: StoreState, env: Env, id: CampaignId, order: seq<Key>)
    requires Lists(order, st.attempts.Keys)
    ensures var post := ApplyAll(st, PauseTrace(st, env, id, order));
            if id in st.campaigns && st.campaigns[id].state in {Validated, Prepared, Staged, Blocked} then
              Retiring(st, post, id, st.campaigns[id].(state := Paused), AttAbandoned) && Noted(post, id, Decision(DecPause, Allow))
            else post == st
  {
    hide GuardsOf, ApplyAll, Noted, MoveTrace, MoveResult, JustRetired, Lists;
    EmptyRun(st);
    if id in st.campaigns && st.campaigns[id].state in {Validated, Prepared, Staged, Blocked} {
      var c := st.campaigns[id];
      var g := GuardsOf(st, env, id, c).(manualRelease := true);
      var t := MoveTrace(id, c, Paused, g);
      var st1 := ApplyAll(st, t);
      MovedTo(st, id, c, Paused, g);
      RetiredAll(st1, id, order, AttAbandoned);
      ApplyAllAppend(st, t, RetireAll(st1, id, order, AttAbandoned));
      DecidedAfter(st, t + RetireAll(st1, id, order, AttAbandoned), id, Decision(DecPause, Allow));
    }
  }

  lemma DecidedAfter(st: StoreState, t: seq<Entry>, id: CampaignId, d: Decision)
    ensures var before, post := ApplyAll(st, t), ApplyAll(st, t + [DecisionEntry(id, d)]);
            post == before.(decisions := post.decisions) && Noted(post, id, d)
  {
    ApplyAllAppend(st, t, [DecisionEntry(id, d)]);
    ApplyOne(ApplyAll(st, t), DecisionEntry(id, d));
  }

  /** Resume, in full: only with a current preflight; a campaign whose rollback is recorded and whose irreversible steps are
      acknowledged is prepared, any other is validated at most. */
  lemma ResumeMeans(st: StoreState, env: Env, id: CampaignId)
    ensures var post := ApplyAll(st, ResumeTrace(st, env, id));
            if id in st.campaigns && st.campaigns[id].state in {Paused, Blocked, Validated, Prepared} && Released(st, env, st.campaigns[id])
            then
              var c := st.campaigns[id];
              var through := c.state.Prepared? || (c.rollbackRecorded && (c.plan.irreversible ==> c.acknowledged));
              SameButCampaign(st, post, id, c.(state := if through then Prepared else Validated)) &&
              Noted(post, id, if through then Decision(DecResume, Allow) else Decision(DecBlock, Deny))
            else post == st
  {
    hide GuardsOf, ApplyAll, Noted, MoveTrace, MoveResult, TicketCurrent, SameButCampaign, Permits, Released;
    EmptyRun(st);
    if id in st.campaigns {
      var c := st.campaigns[id];
      ReleasedIff(st, env, c);
      if c.state in {Paused, Blocked, Validated, Prepared} && Released(st, env, c) {
        ResumeSteps(st, env, id);
      }
    }
  }

  lemma ResumeSteps(st: StoreState, env: Env, id: CampaignId)
    requires id in st.campaigns && st.campaigns[id].state in {Paused, Blocked, Validated, Prepared} && TicketCurrent(st, env, st.campaigns[id])
    ensures var post := ApplyAll(st, ResumeTrace(st, env, id));
            var c := st.campaigns[id];
            var through := c.state.Prepared? || (c.rollbackRecorded && (c.plan.irreversible ==> c.acknowledged));
            SameButCampaign(st, post, id, c.(state := if through then Prepared else Validated)) &&
            Noted(post, id, if through then Decision(DecResume, Allow) else Decision(DecBlock, Deny))
  {
    hide ApplyAll, Noted, MoveTrace, MoveResult, SameButCampaign, Permits, GuardsOf;
    var c := st.campaigns[id];
    var g := GuardsOf(st, env, id, c).(manualRelease := true);
    ResumeGuards(st, env, id, c);
    var wait := c.state.Paused? || c.state.Blocked?;
    var m1 := if wait then MoveTo(id, c, Validated, g) else Moves([], c);
    var c1 := if wait then c.(state := Validated) else c;
    EmptyRun(st);
    SameItself(st, id);
    if wait { MovedTo(st, id, c, Validated, g); }
    assert m1.campaign == c1 && SameButCampaign(st, ApplyAll(st, m1.trace), id, c1);
    var st1 := ApplyAll(st, m1.trace);
    Stored(st, st1, id, c1);
    var through := Permits(c1.state, Prepared, g);
    var m2 := MoveTrace(id, c1, Prepared, g);
    ApplyAllAppend(st, m1.trace, m2);
    if c1.state.Prepared? {
      NoMove(id, c1, Prepared, g);
      assert m1.trace + m2 == m1.trace;
      AlsoDecided(st, m1.trace + m2, id, c1, Decision(DecResume, Allow));
    } else if through {
      MovedTo(st1, id, c1, Prepared, g);
      ThenSame(st, st1, ApplyAll(st1, m2), id, c1, c1.(state := Prepared));
      AlsoDecided(st, m1.trace + m2, id, c1.(state := Prepared), Decision(DecResume, Allow));
    } else {
      MoveRefused(st1, id, c1, Prepared, g);
      ThenSame(st, st1, ApplyAll(st1, m2), id, c1, c1);
      assert m1.trace + m2 + [] == m1.trace + m2;
    }
  }

  lemma Stored(st: StoreState, post: StoreState, id: CampaignId, c: Campaign)
    requires SameButCampaign(st, post, id, c)
    ensures id in post.campaigns && post.campaigns[id] == c
  {
  }

  lemma NoMove(id: CampaignId, c: Campaign, to: UpgradeState, g: Guards)
    requires c.state == to
    ensures MoveTrace(id, c, to, g) == [] && MoveResult(c, to, g) == c && Permits(c.state, to, g)
  {
  }

  lemma ResumeGuards(st: StoreState, env: Env, id: CampaignId, c: Campaign)
    requires TicketCurrent(st, env, c)
    ensures var g := GuardsOf(st, env, id, c).(manualRelease := true);
            Permits(Paused, Validated, g) && Permits(Blocked, Validated, g) && Permits(Prepared, Prepared, g) &&
            (Permits(Validated, Prepared, g) <==> c.rollbackRecorded && (c.plan.irreversible ==> c.acknowledged))
  {
    hide SkewOk, StageAll, StageFresh, NothingLeft, AdaptersSupport;
  }

  /** Abort, in full: what was in flight is aborted; a proposed campaign is blocked, any other that may fail has failed. */
  lemma AbortMeans(st: StoreState, env: Env, id: CampaignId, order: seq<Key>)
    requires Lists(order, st.attempts.Keys)
    ensures var post := ApplyAll(st, AbortTrace(st, env, id, order));
            if id in st.campaigns && st.campaigns[id].state !in {Completed, RolledBack} then
              var c := st.campaigns[id];
              Retiring(st, post, id,
                       if c.state in {Failed, RollbackPlanned} then c
                       else c.(state := if c.state.Proposed? then Blocked else Failed, failureRecorded := true), AttAborted) &&
              Noted(post, id, if c.state.RollbackPlanned? then Decision(DecBlock, Deny) else Decision(DecAbort, Allow))
            else post == st
  {
    hide GuardsOf, ApplyAll, Noted, MoveTrace, MoveResult, JustRetired, Lists, Permits;
    EmptyRun(st);
    if id in st.campaigns && st.campaigns[id].state !in {Completed, RolledBack} {
      AbortSteps(st, env, id, order);
    }
  }

  lemma AbortSteps(st: StoreState, env: Env, id: CampaignId, order: seq<Key>)
    requires Lists(order, st.attempts.Keys) && id in st.campaigns && st.campaigns[id].state !in {Completed, RolledBack}
    ensures var post := ApplyAll(st, AbortTrace(st, env, id, order));
            var c := st.campaigns[id];
            Retiring(st, post, id,
                     if c.state in {Failed, RollbackPlanned} then c
                     else c.(state := if c.state.Proposed? then Blocked else Failed, failureRecorded := true), AttAborted) &&
            Noted(post, id, if c.state.RollbackPlanned? then Decision(DecBlock, Deny) else Decision(DecAbort, Allow))
  {
    hide GuardsOf, ApplyAll, Noted, MoveTrace, MoveResult, JustRetired, Lists, Permits, RetireAll;
    var c := st.campaigns[id].(failureRecorded := true);
    var t := RetireAll(st, id, order, AttAborted);
    RetiredAll(st, id, order, AttAborted);
    var st1 := ApplyAll(st, t);
    var g := GuardsOf(st1, env, id, c).(failureRecorded := true);
    var to := if c.state.Proposed? then Blocked else Failed;
    var m := MoveTrace(id, c, to, g);
    FailsFrom(c.state, to, g);
    ApplyAllAppend(st, t, m);
    SameItself(st1, id);
    if c.state == to {
      NoMove(id, c, to, g);
      assert t + m == t;
      DecidedAfter(st, t + m, id, Decision(DecAbort, Allow));
    } else if Permits(c.state, to, g) {
      MovedTo(st1, id, c, to, g);
      DecidedAfter(st, t + m, id, Decision(DecAbort, Allow));
    } else {
      MoveRefused(st1, id, c, to, g);
      assert t + m + [] == t + m;
    }
  }

  lemma FailsFrom(s: UpgradeState, to: UpgradeState, g: Guards)
    requires g.failureRecorded && to == if s.Proposed? then Blocked else Failed
    ensures Permits(s, to, g) <==> s !in {RollbackPlanned, Completed, RolledBack}
  {
  }

  // ---- rollback -----------------------------------------------------------------------------------------------

  /** The attempt has, as far as is known, left its target on the new version. */
  predicate OnNewVersion(a: Attempt) {
    a.state in {AttActivated, AttVerified, AttRollingBack} || (a.state in {AttFailed, AttAbandoned, AttAborted} && a.activationObserved)
  }

  /** When `rollback` is admitted. */
  ghost predicate CanRollBackNow(st: StoreState, env: Env, id: CampaignId) {
    id in st.campaigns &&
    var c := st.campaigns[id];
    c.state !in {Proposed, RollbackPlanned, Completed, RolledBack} && c.artifact.reversible && AllRollBack(env, c.plan) &&
    (exists k :: k in st.attempts && k.campaign == id && OnNewVersion(st.attempts[k])) &&
    (c.plan.strategy.GenerationHandoff? ==> forall k :: k in st.attempts && k.campaign == id ==> !st.attempts[k].state.AttVerified?)
  }

  /** Rollback, in full: admitted, it plans the rollback and, only if it is told to, sets the campaign rolling back; refused, it
      changes nothing but the decision trail. */
  lemma RollbackMeans(st: StoreState, env: Env, id: CampaignId, execute: bool)
    ensures var post := ApplyAll(st, RollbackTrace(st, env, id, execute));
            if CanRollBackNow(st, env, id) then
              SameButCampaign(st, post, id, st.campaigns[id].(state := if execute then RollingBack else RollbackPlanned)) &&
              Noted(post, id, Decision(DecRollback, Allow))
            else post == st.(decisions := post.decisions)
  {
    hide GuardsOf, ApplyAll, Noted, MoveTrace, MoveResult, Permits, AdaptersRollBack, AllRollBack, HasTouched, HandedOver, SameButCampaign;
    EmptyRun(st);
    if id in st.campaigns {
      var c := st.campaigns[id];
      RollBackIff(env, c);
      TouchedIff(st, id, c);
      var d := Decision(DecRollback, Deny);
      ApplyOne(st, DecisionEntry(id, d));
      var g := GuardsOf(st, env, id, c).(rollbackEligible := true, failureRecorded := true);
      if !c.state.Proposed? { FailsFrom(c.state, Failed, g); }
      if CanRollBackNow(st, env, id) {
        RollbackSteps(st, env, id, execute);
      } else if c.state in {RollbackPlanned, Completed} {
        RefusedMove(st, id, c, Failed, g);
      }
    }
  }

  lemma TouchedIff(st: StoreState, id: CampaignId, c: Campaign)
    ensures HasTouched(st, id) <==> exists k :: k in st.attempts && k.campaign == id && OnNewVersion(st.attempts[k])
    ensures HandedOver(st, id, c) <==>
            c.plan.strategy.GenerationHandoff? && !forall k :: k in st.attempts && k.campaign == id ==> !st.attempts[k].state.AttVerified?
  {
    assert forall a: Attempt :: Touched(a) <==> OnNewVersion(a);
  }

  lemma RefusedMove(st: StoreState, id: CampaignId, c: Campaign, to: UpgradeState, g: Guards)
    requires !Permits(c.state, to, g)
    ensures var post := ApplyAll(st, MoveTrace(id, c, to, g));
            post == st.(decisions := post.decisions)
  {
    hide Permits;
    ApplyOne(st, DecisionEntry(id, Decision(DecBlock, Deny)));
  }

  lemma RollbackSteps(st: StoreState, env: Env, id: CampaignId, execute: bool)
    requires CanRollBackNow(st, env, id)
    ensures var post := ApplyAll(st, RollbackTrace(st, env, id, execute));
            SameButCampaign(st, post, id, st.campaigns[id].(state := if execute then RollingBack else RollbackPlanned)) &&
            Noted(post, id, Decision(DecRollback, Allow))
  {
    hide GuardsOf, ApplyAll, Noted, MoveTrace, MoveResult, Permits, AdaptersRollBack, AllRollBack, HasTouched, HandedOver, SameButCampaign,
         OnlyMoved;
    var c := st.campaigns[id];
    var g := GuardsOf(st, env, id, c).(rollbackEligible := true, failureRecorded := true);
    RollBackIff(env, c);
    TouchedIff(st, id, c);
    FailsFrom(c.state, Failed, g);
    PlansFrom(g);
    var t := ThreeMoves(id, c, g, execute);
    RollbackMoved(st, id, c, g, execute);
    AlsoDecided(st, t, id, c.(state := if execute then RollingBack else RollbackPlanned), Decision(DecRollback, Allow));
  }

  /** Failed, rollback planned, and rolling back if asked for. */
  function ThreeMoves(id: CampaignId, c: Campaign, g: Guards, execute: bool): seq<Entry> {
    var m1 := MoveTo(id, c, Failed, g);
    var m2 := MoveTo(id, m1.campaign, RollbackPlanned, g);
    m1.trace + m2.trace + (if execute then MoveTo(id, m2.campaign, RollingBack, g) else Moves([], m2.campaign)).trace
  }

  lemma FailedFirst(st: StoreState, id: CampaignId, c: Campaign, g: Guards)
    requires id in st.campaigns && st.campaigns[id] == c && Permits(c.state, Failed, g)
    ensures var post := ApplyAll(st, MoveTrace(id, c, Failed, g));
            SameButCampaign(st, post, id, c.(state := Failed)) && id in post.campaigns && post.campaigns[id] == c.(state := Failed)
    ensures MoveResult(c, Failed, g) == c.(state := Failed)
  {
    hide ApplyAll, MoveTrace, MoveResult, Permits, SameButCampaign;
    if c.state.Failed? {
      NoMove(id, c, Failed, g);
      EmptyRun(st);
      SameItself(st, id);
      assert c.(state := Failed) == c;
    } else {
      MovedTo(st, id, c, Failed, g);
    }
  }

  lemma RollbackMoved(st: StoreState, id: CampaignId, c: Campaign, g: Guards, execute: bool)
    requires id in st.campaigns && st.campaigns[id] == c && Permits(c.state, Failed, g)
    requires Permits(Failed, RollbackPlanned, g) && Permits(RollbackPlanned, RollingBack, g)
    ensures SameButCampaign(st, ApplyAll(st, ThreeMoves(id, c, g, execute)), id,
                            c.(state := if execute then RollingBack else RollbackPlanned))
  {
    hide ApplyAll, MoveTrace, MoveResult, Permits, SameButCampaign, OnlyMoved;
    var failed, planned := c.(state := Failed), c.(state := RollbackPlanned);
    var t1, t2 := MoveTrace(id, c, Failed, g), MoveTrace(id, failed, RollbackPlanned, g);
    FailedFirst(st, id, c, g);
    var st1 := ApplyAll(st, t1);
    MovedTo(st1, id, failed, RollbackPlanned, g);
    var st2 := ApplyAll(st1, t2);
    ThenSame(st, st1, st2, id, failed, planned);
    ApplyAllAppend(st, t1, t2);
    if execute {
      var t3 := MoveTrace(id, planned, RollingBack, g);
      MovedTo(st2, id, planned, RollingBack, g);
      ThenSame(st, st2, ApplyAll(st2, t3), id, planned, c.(state := RollingBack));
      ApplyAllAppend(st, t1 + t2, t3);
    } else {
      assert t1 + t2 + [] == t1 + t2;
    }
  }

  lemma PlansFrom(g: Guards)
    requires g.rollbackEligible
    ensures Permits(Failed, RollbackPlanned, g) && Permits(RollbackPlanned, RollingBack, g)
  {
  }
}
