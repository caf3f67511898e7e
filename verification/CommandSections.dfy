/** The operator commands and the opening of an engine write allowed entries only. */
module CommandSections {
  import opened Lifecycle
  import opened Records
  import opened Store
  import opened Protocol
  import opened Commands
  import opened Invariants
  import opened Sections
  import opened PlanSections

  lemma {:induction false} ThenDecision(st: StoreState, t: seq<Entry>, id: CampaignId, d: Decision)
    requires AllowedAll(st, t)
    ensures AllowedAll(st, t + [DecisionEntry(id, d)])
  {
    SingleAllowed(ApplyAll(st, t), DecisionEntry(id, d));
    AllowedAllAppend(st, t, [DecisionEntry(id, d)]);
  }

  lemma {:induction false} ThenMaybeDecision(st: StoreState, t: seq<Entry>, id: CampaignId, d: Decision, really: bool)
    requires AllowedAll(st, t)
    ensures AllowedAll(st, t + (if really then [DecisionEntry(id, d)] else []))
  {
    if really { ThenDecision(st, t, id, d); } else { assert t + [] == t; }
  }

  /** Writing a working copy of the record, then moving it. */
  lemma {:induction false} WriteThenMove(st: StoreState, id: CampaignId, c: Campaign, to: UpgradeState, g: Guards)
    requires Inv(st) && AllowedCampaign(st, id, c) && id in st.campaigns
    requires Permits(c.state, to, g) && c.state != to ==> GatesOk(Moved(c, to))
    ensures AllowedAll(st, [CampaignEntry(id, c)] + MoveTrace(id, c, to, g))
  {
    var w := CampaignEntry(id, c);
    AllowedKeepsInv(st, w);
    RecordAllowed(Apply(st, w), id);
    MoveAllowed(Apply(st, w), id, c, to, g);
    ConsAllowed(st, w, MoveTrace(id, c, to, g));
  }

  // ---- create, preflight --------------------------------------------------------------------------------------

  lemma {:induction false} CreateAllowed(st: StoreState, id: CampaignId, artifact: Artifact, plan: Plan, acknowledge: bool)
    requires Inv(st)
    ensures AllowedAll(st, CreateTrace(st, id, artifact, plan, acknowledge))
  {
    if id !in st.campaigns {
      var c := NewCampaign(st, artifact, plan, acknowledge);
      assert ShapeOk(c);
      SingleAllowed(st, CampaignEntry(id, c));
      var d := Decision(DecPlan, if plan.executable then Allow else Deny);
      ThenDecision(st, [CampaignEntry(id, c)], id, d);
      assert [CampaignEntry(id, c)] + [DecisionEntry(id, d)] == [CampaignEntry(id, c), DecisionEntry(id, d)];
    }
  }

  /** Replacing the ticket of a stored campaign is allowed. */
  lemma {:induction false} TicketAllowed(st: StoreState, id: CampaignId, ticket: Ticket)
    requires Inv(st) && id in st.campaigns
    ensures AllowedCampaign(st, id, st.campaigns[id].(ticket := ticket))
  {
    assert CampaignOk(st.campaigns[id]);
  }

  /** A ticket write with an optional move that does not need any gate. */
  lemma {:induction false} TicketThenMove(st: StoreState, id: CampaignId, ticket: Ticket, move: bool, to: UpgradeState, g: Guards)
    requires Inv(st) && id in st.campaigns && (to.Validated? || to.Blocked?)
    ensures var c1 := st.campaigns[id].(ticket := ticket);
            AllowedAll(st, [CampaignEntry(id, c1)] + (if move then MoveTrace(id, c1, to, g) else []))
  {
    var c1 := st.campaigns[id].(ticket := ticket);
    TicketAllowed(st, id, ticket);
    if move {
      WriteThenMove(st, id, c1, to, g);
    } else {
      SingleAllowed(st, CampaignEntry(id, c1));
      assert [CampaignEntry(id, c1)] + [] == [CampaignEntry(id, c1)];
    }
  }

  lemma {:induction false} PreflightAllowed(st: StoreState, env: Env, id: CampaignId, passed: bool, integrity: bool, ticket: Ticket)
    requires Inv(st)
    ensures AllowedAll(st, PreflightTrace(st, env, id, passed, integrity, ticket))
  {
    if id in st.campaigns {
      var c := st.campaigns[id];
      if passed {
        var c1 := c.(ticket := ticket);
        var g := GuardsOf(st, env, id, c1).(preflightCurrent := true, integrityVerified := integrity);
        var move := c1.state.Proposed? || c1.state.Blocked? || c1.state.Paused?;
        TicketThenMove(st, id, ticket, move, Validated, g);
        var t := [CampaignEntry(id, c1)] + (if move then MoveTrace(id, c1, Validated, g) else []);
        ThenMaybeDecision(st, t, id, Decision(DecPreflight, Allow), !(move && !Permits(c1.state, Validated, g)));
      } else {
        var c1 := c.(ticket := NoTicket);
        var w := CampaignEntry(id, c1);
        var g := GuardsOf(Apply(st, w), env, id, c1).(failureRecorded := true);
        TicketThenMove(st, id, NoTicket, c1.state.Proposed?, Blocked, g);
        ThenDecision(st, [w] + (if c1.state.Proposed? then MoveTrace(id, c1, Blocked, g) else []), id,
                     Decision(DecPreflight, Deny));
      }
    }
  }

  // ---- start, resume ------------------------------------------------------------------------------------------

  /** States that need no gate of their own: moving there from anywhere keeps the gates. */
  predicate Ungated(to: UpgradeState) { to.Validated? || to.Paused? || to.Failed? || to.Blocked? }

  lemma {:induction false} UngatedGood(st: StoreState, id: CampaignId, to: UpgradeState, g: Guards)
    requires Inv(st) && id in st.campaigns && Ungated(to)
    ensures GoodMoves(st, id, MoveTo(id, st.campaigns[id], to, g))
  {
    hide Inv, GoodMoves, Permits;
    StoredOk(st, id);
    MoveToGood(st, id, to, g);
  }

  lemma {:induction false} PreparedGood(st: StoreState, id: CampaignId, g: Guards)
    requires Inv(st) && id in st.campaigns
    requires st.campaigns[id].rollbackRecorded || !g.rollbackPlanRecorded
    ensures GoodMoves(st, id, MoveTo(id, st.campaigns[id], Prepared, g))
  {
    hide Inv, GoodMoves;
    StoredOk(st, id);
    MoveToGood(st, id, Prepared, g);
  }

  /** The optional step back to validated and the step to prepared that start and resume share. */
  lemma {:induction false} ReleaseGood(st: StoreState, id: CampaignId, g: Guards, always: bool)
    requires Inv(st) && id in st.campaigns
    requires st.campaigns[id].rollbackRecorded || !g.rollbackPlanRecorded
    ensures var c := st.campaigns[id];
            var m1 := if c.state.Paused? || c.state.Blocked? then MoveTo(id, c, Validated, g) else Moves([], c);
            var m2 := Release(id, m1.campaign, g, always);
            AllowedAll(st, m1.trace + m2.trace)
  {
    hide Inv, AllowedAll, ApplyAll, MoveTo;
    var c := st.campaigns[id];
    var m1 := if c.state.Paused? || c.state.Blocked? then MoveTo(id, c, Validated, g) else Moves([], c);
    if c.state.Paused? || c.state.Blocked? { UngatedGood(st, id, Validated, g); } else { NoMoves(st, id); }
    AllowedAllKeepsInv(st, m1.trace);
    var st1 := ApplyAll(st, m1.trace);
    var m2 := Release(id, m1.campaign, g, always);
    PreparedGood(st1, id, g);
    NoMoves(st1, id);
    ThenMoves(st, id, m1, m2);
  }

  lemma {:induction false} StartedAllowed(st: StoreState, env: Env, id: CampaignId, allowIrreversible: bool)
    requires Inv(st) && StartAdmits(st, env, id, allowIrreversible)
    ensures AllowedCampaign(st, id, StartedRecord(env, st.campaigns[id], allowIrreversible))
  {
    assert CampaignOk(st.campaigns[id]);
  }

  lemma {:induction false} StartAllowed(st: StoreState, env: Env, id: CampaignId, allowIrreversible: bool)
    requires Inv(st)
    ensures AllowedAll(st, StartTrace(st, env, id, allowIrreversible))
  {
    hide Inv, AllowedAll, ApplyAll, GuardsOf, MoveTrace, AllowedCampaign;
    EmptyAllowed(st);
    if StartAdmits(st, env, id, allowIrreversible) {
      var c := st.campaigns[id];
      var c1 := StartedRecord(env, c, allowIrreversible);
      var w, d := CampaignEntry(id, c1), Decision(DecAdmit, Allow);
      StartedAllowed(st, env, id, allowIrreversible);
      SingleAllowed(st, w);
      ThenDecision(st, [w], id, d);
      var head := [w] + [DecisionEntry(id, d)];
      ApplyTwo(st, w, DecisionEntry(id, d));
      assert head == [w, DecisionEntry(id, d)];
      AllowedAllKeepsInv(st, head);
      var st1 := ApplyAll(st, head);
      var unbumped := c1.(generation := c.generation, ticket := c.ticket);
      var g := GuardsOf(st, env, id, unbumped).(rollbackPlanRecorded := true);
      ReleaseGood(st1, id, g, false);
      var m1 := if c1.state.Paused? || c1.state.Blocked? then MoveTo(id, c1, Validated, g) else Moves([], c1);
      var m2 := Release(id, m1.campaign, g, false);
      AllowedAllAppend(st, head, m1.trace + m2.trace);
      assert head + m1.trace + m2.trace == head + (m1.trace + m2.trace);
    }
  }

  lemma {:induction false} ResumeAllowed(st: StoreState, env: Env, id: CampaignId)
    requires Inv(st)
    ensures AllowedAll(st, ResumeTrace(st, env, id))
  {
    if id in st.campaigns && TicketCurrent(st, env, st.campaigns[id]) {
      var c := st.campaigns[id];
      if c.state.Paused? || c.state.Blocked? || c.state.Validated? || c.state.Prepared? {
        var g := GuardsOf(st, env, id, c).(manualRelease := true);
        ReleaseGood(st, id, g, true);
        var m1 := if c.state.Paused? || c.state.Blocked? then MoveTo(id, c, Validated, g) else Moves([], c);
        var m2 := Release(id, m1.campaign, g, true);
        ThenMaybeDecision(st, m1.trace + m2.trace, id, Decision(DecResume, Allow), Permits(m1.campaign.state, Prepared, g));
      }
    }
  }

  // ---- pause, abort -------------------------------------------------------------------------------------------

  /** Retiring an in-flight attempt is allowed in every state: a completed campaign has none. */
  lemma {:induction false} RetireOneAllowed(st: StoreState, k: Key, to: AttemptState)
    requires Inv(st) && k in st.attempts && (to.AttAbandoned? || to.AttAborted?)
    ensures AllowedAll(st, RetireOne(st, k, to))
    ensures ApplyAll(st, RetireOne(st, k, to)).campaigns == st.campaigns
  {
    hide Inv, AllowedAll;
    EmptyAllowed(st);
    if InFlight(st.attempts[k].state) {
      StoredAttempt(st, k);
      StoredOk(st, k.campaign);
      AttemptChange(st, k, st.attempts[k].(state := to));
      SingleAllowed(st, AttemptEntry(k, st.attempts[k].(state := to)));
    }
  }

  lemma {:induction false} RetireAllAllowed(st: StoreState, id: CampaignId, order: seq<Key>, to: AttemptState)
    requires Inv(st) && (to.AttAbandoned? || to.AttAborted?)
    ensures AllowedAll(st, RetireAll(st, id, order, to))
    ensures ApplyAll(st, RetireAll(st, id, order, to)).campaigns == st.campaigns
    decreases |order|
  {
    if order != [] {
      var w := if order[0] in st.attempts && order[0].campaign == id then RetireOne(st, order[0], to) else [];
      if order[0] in st.attempts { RetireOneAllowed(st, order[0], to); }
      AllowedAllKeepsInv(st, w);
      RetireAllAllowed(ApplyAll(st, w), id, order[1..], to);
      AllowedAllAppend(st, w, RetireAll(ApplyAll(st, w), id, order[1..], to));
      ApplyAllAppend(st, w, RetireAll(ApplyAll(st, w), id, order[1..], to));
    }
  }

  lemma {:induction false} PauseAllowed(st: StoreState, env: Env, id: CampaignId, order: seq<Key>)
    requires Inv(st)
    ensures AllowedAll(st, PauseTrace(st, env, id, order))
  {
    hide Inv, AllowedAll, ApplyAll, RetireAll, GuardsOf, MoveTrace, Permits;
    EmptyAllowed(st);
    if id in st.campaigns && !st.campaigns[id].state.Paused? && PermitsPause(st.campaigns[id].state) {
      var c := st.campaigns[id];
      var g := GuardsOf(st, env, id, c).(manualRelease := true);
      var t := MoveTrace(id, c, Paused, g);
      UngatedGood(st, id, Paused, g);
      AllowedAllKeepsInv(st, t);
      var u := RetireAll(ApplyAll(st, t), id, order, AttAbandoned);
      RetireAllAllowed(ApplyAll(st, t), id, order, AttAbandoned);
      AllowedAllAppend(st, t, u);
      ThenDecision(st, t + u, id, Decision(DecPause, Allow));
    }
  }

  lemma {:induction false} AbortAllowed(st: StoreState, env: Env, id: CampaignId, order: seq<Key>)
    requires Inv(st)
    ensures AllowedAll(st, AbortTrace(st, env, id, order))
  {
    hide Inv, AllowedAll, ApplyAll, RetireAll, MoveTrace, GuardsOf, Permits;
    EmptyAllowed(st);
    if id in st.campaigns && !Terminal(st.campaigns[id].state) {
      var c := st.campaigns[id].(failureRecorded := true);
      var t := RetireAll(st, id, order, AttAborted);
      RetireAllAllowed(st, id, order, AttAborted);
      AllowedAllKeepsInv(st, t);
      var st1 := ApplyAll(st, t);
      var g := GuardsOf(st1, env, id, c).(failureRecorded := true);
      var to := if c.state.Proposed? then Blocked else Failed;
      RecordAllowed(st1, id);
      MoveAllowed(st1, id, c, to, g);
      AllowedAllAppend(st, t, MoveTrace(id, c, to, g));
      ThenMaybeDecision(st, t + MoveTrace(id, c, to, g), id, Decision(DecAbort, Allow), Permits(c.state, to, g));
    }
  }

  // ---- rollback -----------------------------------------------------------------------------------------------

  /** The two steps of the rollback side, for a reversible artifact. */
  lemma {:induction false} RollbackSideGood(st: StoreState, id: CampaignId, to: UpgradeState, g: Guards)
    requires Inv(st) && id in st.campaigns && st.campaigns[id].artifact.reversible && (to.RollbackPlanned? || to.RollingBack?)
    ensures GoodMoves(st, id, MoveTo(id, st.campaigns[id], to, g))
  {
    hide Inv, GoodMoves, Permits;
    StoredOk(st, id);
    MoveToGood(st, id, to, g);
  }

  /** The chain failed, rollback planned, rolling back. */
  lemma {:induction false} RollbackMovesGood(st: StoreState, id: CampaignId, g: Guards, execute: bool)
    requires Inv(st) && id in st.campaigns && st.campaigns[id].artifact.reversible
    ensures var m1 := MoveTo(id, st.campaigns[id], Failed, g);
            var m2 := MoveTo(id, m1.campaign, RollbackPlanned, g);
            var m3 := if execute then MoveTo(id, m2.campaign, RollingBack, g) else Moves([], m2.campaign);
            AllowedAll(st, m1.trace + m2.trace + m3.trace)
  {
    hide Inv, AllowedAll, ApplyAll, MoveTo;
    var m1 := MoveTo(id, st.campaigns[id], Failed, g);
    var m2 := MoveTo(id, m1.campaign, RollbackPlanned, g);
    var m3 := if execute then MoveTo(id, m2.campaign, RollingBack, g) else Moves([], m2.campaign);
    UngatedGood(st, id, Failed, g);
    AllowedAllKeepsInv(st, m1.trace);
    var st1 := ApplyAll(st, m1.trace);
    RollbackSideGood(st1, id, RollbackPlanned, g);
    ThenMoves(st, id, m1, m2);
    AllowedAllKeepsInv(st1, m2.trace);
    var st2 := ApplyAll(st1, m2.trace);
    ApplyAllAppend(st, m1.trace, m2.trace);
    if execute { RollbackSideGood(st2, id, RollingBack, g); } else { NoMoves(st2, id); }
    ThenMoves(st, id, Moves(m1.trace + m2.trace, m2.campaign), m3);
  }

  lemma {:induction false} RollbackAllowed(st: StoreState, env: Env, id: CampaignId, execute: bool)
    requires Inv(st)
    ensures AllowedAll(st, RollbackTrace(st, env, id, execute))
  {
    if id in st.campaigns && !st.campaigns[id].state.RolledBack? {
      var c := st.campaigns[id];
      var g := GuardsOf(st, env, id, c).(rollbackEligible := true, failureRecorded := true);
      if (HasTouched(st, id) && !c.artifact.reversible) || HandedOver(st, id, c) {
        SingleAllowed(st, DecisionEntry(id, Decision(DecRollback, Deny)));
      } else if c.artifact.reversible && AdaptersRollBack(env, c) && HasTouched(st, id) && !c.state.Proposed? {
        if !Permits(c.state, Failed, g) {
          SingleAllowed(st, DecisionEntry(id, Decision(DecBlock, Deny)));
        } else {
          RollbackMovesGood(st, id, g, execute);
          var m1 := MoveTo(id, c, Failed, g);
          var m2 := MoveTo(id, m1.campaign, RollbackPlanned, g);
          var m3 := if execute then MoveTo(id, m2.campaign, RollingBack, g) else Moves([], m2.campaign);
          ThenDecision(st, m1.trace + m2.trace + m3.trace, id, Decision(DecRollback, Allow));
        }
      }
    }
  }

  // ---- opening ------------------------------------------------------------------------------------------------

  lemma {:induction false} AbandonAllAllowed(st: StoreState, order: seq<Key>)
    requires Inv(st)
    ensures AllowedAll(st, AbandonAll(st, order))
    ensures ApplyAll(st, AbandonAll(st, order)).campaigns == st.campaigns
    decreases |order|
  {
    if order != [] {
      var w := if order[0] in st.attempts && st.attempts[order[0]].owner != st.incarnation
               then RetireOne(st, order[0], AttAbandoned) else [];
      if order[0] in st.attempts { RetireOneAllowed(st, order[0], AttAbandoned); }
      AllowedAllKeepsInv(st, w);
      AbandonAllAllowed(ApplyAll(st, w), order[1..]);
      AllowedAllAppend(st, w, AbandonAll(ApplyAll(st, w), order[1..]));
      ApplyAllAppend(st, w, AbandonAll(ApplyAll(st, w), order[1..]));
    }
  }

  /** Blocking a campaign whose failure was just noted. */
  lemma {:induction false} NotedBlock(st: StoreState, id: CampaignId, g: Guards)
    requires Inv(st) && id in st.campaigns
    ensures var m := MoveTo(id, st.campaigns[id].(failureRecorded := true), Blocked, g);
            AllowedAll(st, m.trace) && AllowedCampaign(ApplyAll(st, m.trace), id, m.campaign)
  {
    RecordAllowed(st, id);
    MoveAllowed(st, id, st.campaigns[id].(failureRecorded := true), Blocked, g);
  }

  lemma {:induction false} DropTicket(st: StoreState, id: CampaignId, t: seq<Entry>, c: Campaign)
    requires Inv(st) && AllowedAll(st, t) && AllowedCampaign(ApplyAll(st, t), id, c)
    ensures var c2 := c.(ticket := NoTicket);
            AllowedAll(st, t + [CampaignEntry(id, c2), DecisionEntry(id, Decision(DecReconcile, Deny))])
  {
    var c2 := c.(ticket := NoTicket);
    SingleAllowed(ApplyAll(st, t), CampaignEntry(id, c2));
    ThenDecision(ApplyAll(st, t), [CampaignEntry(id, c2)], id, Decision(DecReconcile, Deny));
    var tail := [CampaignEntry(id, c2)] + [DecisionEntry(id, Decision(DecReconcile, Deny))];
    AllowedAllAppend(st, t, tail);
    assert tail == [CampaignEntry(id, c2), DecisionEntry(id, Decision(DecReconcile, Deny))];
  }

  lemma {:induction false} ReconcileCampaignAllowed(st: StoreState, env: Env, id: CampaignId)
    requires Inv(st) && id in st.campaigns
    ensures AllowedAll(st, ReconcileCampaign(st, env, id).trace)
  {
    var c := st.campaigns[id];
    var g := GuardsOf(st, env, id, c).(failureRecorded := true);
    var m := if Active(c.state) then MoveTo(id, c.(failureRecorded := true), Blocked, g) else Moves([], c);
    if Active(c.state) { NotedBlock(st, id, g); } else { RecordAllowed(st, id); }
    if !c.state.RollingBack? && StaleTicket(st, env, c) { DropTicket(st, id, m.trace, m.campaign); }
  }

  lemma {:induction false} ReconcileAllAllowed(st: StoreState, env: Env, order: seq<CampaignId>)
    requires Inv(st)
    ensures AllowedAll(st, ReconcileAll(st, env, order).0)
    decreases |order|
  {
    if order != [] {
      if order[0] !in st.campaigns {
        ReconcileAllAllowed(st, env, order[1..]);
      } else {
        var m := ReconcileCampaign(st, env, order[0]);
        ReconcileCampaignAllowed(st, env, order[0]);
        if !st.campaigns[order[0]].state.RollingBack? {
          AllowedAllKeepsInv(st, m.trace);
          ReconcileAllAllowed(ApplyAll(st, m.trace), env, order[1..]);
          AllowedAllAppend(st, m.trace, ReconcileAll(ApplyAll(st, m.trace), env, order[1..]).0);
        }
      }
    }
  }

  lemma {:induction false} BootAllowed(st: StoreState)
    requires Inv(st)
    ensures AllowedAll(st, [BootEntry(st.incarnation + 1), EpochEntry(st.epoch + 1)])
  {
    var b := BootEntry(st.incarnation + 1);
    var e := EpochEntry(st.epoch + 1);
    SingleAllowed(Apply(st, b), e);
    ConsAllowed(st, b, [e]);
    assert [b] + [e] == [b, e];
  }

  lemma {:induction false} OpenAllowed(st: StoreState, env: Env, attempts: seq<Key>, campaigns: seq<CampaignId>)
    requires Inv(st)
    ensures AllowedAll(st, OpenTrace(st, env, attempts, campaigns).0)
  {
    hide Inv, AllowedAll, ReconcileAll, AbandonAll;
    var head := [BootEntry(st.incarnation + 1), EpochEntry(st.epoch + 1)];
    BootAllowed(st);
    AllowedAllKeepsInv(st, head);
    var st1 := ApplyAll(st, head);
    var t := AbandonAll(st1, attempts);
    AbandonAllAllowed(st1, attempts);
    AllowedAllKeepsInv(st1, t);
    var u := ReconcileAll(ApplyAll(st1, t), env, campaigns).0;
    ReconcileAllAllowed(ApplyAll(st1, t), env, campaigns);
    AllowedAllAppend(st1, t, u);
    AllowedAllAppend(st, head, t + u);
    assert head + t + u == head + (t + u);
  }
}
