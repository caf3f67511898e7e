/** The operator commands and the opening of an engine, as the entries they write. Commands that walk over attempts or
    campaigns take the order the store lists them in. */
module Commands {
  import opened Lifecycle
  import opened Records
  import opened Store
  import opened Protocol

  /** The last value of a generation is kept when it is exhausted. */
  function Next(n: nat): nat { if n == COUNTER_MAX then n else n + 1 }

  /** The order lists every element once. */
  ghost predicate Lists<T(!new)>(order: seq<T>, all: set<T>) {
    (forall x :: x in order <==> x in all) && (forall i, j :: 0 <= i < j < |order| ==> order[i] != order[j])
  }

  // ---- create, preflight --------------------------------------------------------------------------------------

  function NewCampaign(st: StoreState, artifact: Artifact, plan: Plan, acknowledge: bool): Campaign {
    Campaign(1, st.epoch, Proposed, artifact, plan, seq(|plan.stages|, i => StagePending), 0,
             acknowledge, false, artifact.reversible, false, false, NoTicket)
  }

  /** `create_campaign`, taken as one section. */
  function CreateTrace(st: StoreState, id: CampaignId, artifact: Artifact, plan: Plan, acknowledge: bool): seq<Entry> {
    if id in st.campaigns then []
    else [CampaignEntry(id, NewCampaign(st, artifact, plan, acknowledge)),
          DecisionEntry(id, Decision(DecPlan, if plan.executable then Allow else Deny))]
  }

  /** The commit section of `preflight`, for whatever report the checks outside the lock produced. */
  ghost function PreflightTrace(st: StoreState, env: Env, id: CampaignId, passed: bool, integrity: bool,
                                ticket: Ticket): seq<Entry> {
    if id !in st.campaigns then []
    else
      var c := st.campaigns[id];
      if passed then
        var c1 := c.(ticket := ticket);
        var g := GuardsOf(st, env, id, c1).(preflightCurrent := true, integrityVerified := integrity);
        var move := c1.state.Proposed? || c1.state.Blocked? || c1.state.Paused?;
        [CampaignEntry(id, c1)] + (if move then MoveTrace(id, c1, Validated, g) else []) +
        (if move && !Permits(c1.state, Validated, g) then [] else [DecisionEntry(id, Decision(DecPreflight, Allow))])
      else
        var c1 := c.(ticket := NoTicket);
        var w := CampaignEntry(id, c1);
        var g := GuardsOf(Apply(st, w), env, id, c1).(failureRecorded := true);
        [w] + (if c1.state.Proposed? then MoveTrace(id, c1, Blocked, g) else []) +
        [DecisionEntry(id, Decision(DecPreflight, Deny))]
  }

  // ---- start --------------------------------------------------------------------------------------------------

  /** Whether `start` gets past its refusals. */
  predicate StartAdmits(st: StoreState, env: Env, id: CampaignId, allowIrreversible: bool) {
    id in st.campaigns &&
    var c := st.campaigns[id];
    !Terminal(c.state) && !Active(c.state) && c.plan.executable && TicketCurrent(st, env, c) &&
    (!c.plan.irreversible || c.acknowledged || allowIrreversible) && !c.state.Proposed?
  }

  /** The step to prepared that `start` and `resume` end with, unless the step to validated was refused. `start` takes it
      from validated only. */
  function Release(id: CampaignId, c: Campaign, g: Guards, always: bool): (r: Moves)
    ensures OnlyMoved(c, r.campaign)
  {
    if c.state.Validated? || (always && !c.state.Paused? && !c.state.Blocked?) then MoveTo(id, c, Prepared, g)
    else Moves([], c)
  }

  /** The record `start` writes first: rollback readiness, acknowledgement, and a new execution generation. */
  ghost function StartedRecord(env: Env, c: Campaign, allowIrreversible: bool): Campaign
    requires c.ticket.Ticket?
  {
    c.(rollbackEligible := c.artifact.reversible && AdaptersRollBack(env, c),
       rollbackRecorded := true,
       acknowledged := c.acknowledged || allowIrreversible,
       generation := Next(c.generation),
       ticket := c.ticket.(generation := Next(c.generation)))
  }

  ghost function StartTrace(st: StoreState, env: Env, id: CampaignId, allowIrreversible: bool): seq<Entry> {
    if !StartAdmits(st, env, id, allowIrreversible) then []
    else
      var c := st.campaigns[id];
      var c1 := StartedRecord(env, c, allowIrreversible);
      var unbumped := c1.(generation := c.generation, ticket := c.ticket);
      var g := GuardsOf(st, env, id, unbumped).(rollbackPlanRecorded := true);
      var m1 := if c1.state.Paused? || c1.state.Blocked? then MoveTo(id, c1, Validated, g) else Moves([], c1);
      var m2 := Release(id, m1.campaign, g, false);
      [CampaignEntry(id, c1), DecisionEntry(id, Decision(DecAdmit, Allow))] + m1.trace + m2.trace
  }

  // ---- pause, resume, abort -----------------------------------------------------------------------------------

  function RetireOne(st: StoreState, k: Key, to: AttemptState): seq<Entry>
    requires k in st.attempts
  {
    if InFlight(st.attempts[k].state) then [AttemptEntry(k, st.attempts[k].(state := to))] else []
  }

  /** Every in-flight attempt of the campaign is retired, in the order listed. */
  function RetireAll(st: StoreState, id: CampaignId, order: seq<Key>, to: AttemptState): seq<Entry>
    decreases |order|
  {
    if order == [] then []
    else
      var w := if order[0] in st.attempts && order[0].campaign == id then RetireOne(st, order[0], to) else [];
      w + RetireAll(ApplyAll(st, w), id, order[1..], to)
  }

  ghost function PauseTrace(st: StoreState, env: Env, id: CampaignId, order: seq<Key>): seq<Entry> {
    if id !in st.campaigns || st.campaigns[id].state.Paused? || !PermitsPause(st.campaigns[id].state) then []
    else
      var c := st.campaigns[id];
      var g := GuardsOf(st, env, id, c).(manualRelease := true);
      var t := MoveTrace(id, c, Paused, g);
      t + RetireAll(ApplyAll(st, t), id, order, AttAbandoned) + [DecisionEntry(id, Decision(DecPause, Allow))]
  }

  ghost function ResumeTrace(st: StoreState, env: Env, id: CampaignId): seq<Entry> {
    if id !in st.campaigns then []
    else
      var c := st.campaigns[id];
      if !(c.state.Paused? || c.state.Blocked? || c.state.Validated? || c.state.Prepared?) then []
      else if !TicketCurrent(st, env, c) then []
      else
        var g := GuardsOf(st, env, id, c).(manualRelease := true);
        var m1 := if c.state.Paused? || c.state.Blocked? then MoveTo(id, c, Validated, g) else Moves([], c);
        var m2 := Release(id, m1.campaign, g, true);
        m1.trace + m2.trace +
        (if Permits(m1.campaign.state, Prepared, g) then [DecisionEntry(id, Decision(DecResume, Allow))] else [])
  }

  ghost function AbortTrace(st: StoreState, env: Env, id: CampaignId, order: seq<Key>): seq<Entry> {
    if id !in st.campaigns || Terminal(st.campaigns[id].state) then []
    else
      var c := st.campaigns[id].(failureRecorded := true);
      var t := RetireAll(st, id, order, AttAborted);
      var g := GuardsOf(ApplyAll(st, t), env, id, c).(failureRecorded := true);
      var to := if c.state.Proposed? then Blocked else Failed;
      t + MoveTrace(id, c, to, g) + (if Permits(c.state, to, g) then [DecisionEntry(id, Decision(DecAbort, Allow))] else [])
  }

  // ---- rollback -----------------------------------------------------------------------------------------------

  predicate HasTouched(st: StoreState, id: CampaignId) {
    exists k :: k in st.attempts && k.campaign == id && Touched(st.attempts[k])
  }

  predicate HandedOver(st: StoreState, id: CampaignId, c: Campaign) {
    c.plan.strategy.GenerationHandoff? &&
    exists k :: k in st.attempts && k.campaign == id && st.attempts[k].state.AttVerified?
  }

  /** `rollback`: refused once a boundary was crossed, for irreversible artifacts, when an adapter cannot roll back, or
      when nothing was activated; otherwise the campaign is failed, planned and, if asked, set rolling back. */
  ghost function RollbackTrace(st: StoreState, env: Env, id: CampaignId, execute: bool): seq<Entry> {
    if id !in st.campaigns || st.campaigns[id].state.RolledBack? then []
    else
      var c := st.campaigns[id];
      if (HasTouched(st, id) && !c.artifact.reversible) || HandedOver(st, id, c) then
        [DecisionEntry(id, Decision(DecRollback, Deny))]
      else if !c.artifact.reversible || !AdaptersRollBack(env, c) || !HasTouched(st, id) then []
      else
        var g := GuardsOf(st, env, id, c).(rollbackEligible := true, failureRecorded := true);
        if c.state.Proposed? then []
        else if !Permits(c.state, Failed, g) then MoveTrace(id, c, Failed, g)
        else
          var m1 := MoveTo(id, c, Failed, g);
          var m2 := MoveTo(id, m1.campaign, RollbackPlanned, g);
          var m3 := if execute then MoveTo(id, m2.campaign, RollingBack, g) else Moves([], m2.campaign);
          m1.trace + m2.trace + m3.trace + [DecisionEntry(id, Decision(DecRollback, Allow))]
  }

  // ---- opening an engine --------------------------------------------------------------------------------------

  /** The attempts `plan_reconciliation` abandons: in flight, and owned by another incarnation. */
  function AbandonAll(st: StoreState, order: seq<Key>): seq<Entry>
    decreases |order|
  {
    if order == [] then []
    else
      var w := if order[0] in st.attempts && st.attempts[order[0]].owner != st.incarnation
               then RetireOne(st, order[0], AttAbandoned) else [];
      w + AbandonAll(ApplyAll(st, w), order[1..])
  }

  predicate StaleTicket(st: StoreState, env: Env, c: Campaign) {
    c.ticket.Ticket? && (c.ticket.incarnation != st.incarnation || c.ticket.expires < env.now)
  }

  /** What reconciliation does to one campaign: block it if it was mid-flight, then drop a stale ticket. `Blocked` is asked
      for a rolling-back campaign too, and the lifecycle refuses that. */
  ghost function ReconcileCampaign(st: StoreState, env: Env, id: CampaignId): (r: Moves)
    requires id in st.campaigns
  {
    var c := st.campaigns[id];
    var m := if Active(c.state)
             then MoveTo(id, c.(failureRecorded := true), Blocked,
                         GuardsOf(st, env, id, c).(failureRecorded := true))
             else Moves([], c);
    if !c.state.RollingBack? && StaleTicket(st, env, c) then
      var c2 := m.campaign.(ticket := NoTicket);
      Moves(m.trace + [CampaignEntry(id, c2), DecisionEntry(id, Decision(DecReconcile, Deny))], c2)
    else m
  }

  /** The campaigns are reconciled in order; the first rolling-back campaign makes reconciliation fail. */
  ghost function ReconcileAll(st: StoreState, env: Env, order: seq<CampaignId>): (r: (seq<Entry>, bool))
    decreases |order|
  {
    if order == [] then ([], true)
    else if order[0] !in st.campaigns then ReconcileAll(st, env, order[1..])
    else
      var m := ReconcileCampaign(st, env, order[0]);
      if st.campaigns[order[0]].state.RollingBack? then (m.trace, false)
      else
        var (t, ok) := ReconcileAll(ApplyAll(st, m.trace), env, order[1..]);
        (m.trace + t, ok)
  }

  /** Everything an opening engine writes after replay: the boot record of a new incarnation, a new epoch, and the
      reconciliation of what the previous incarnation left. The flag says whether the engine opens. */
  ghost function OpenTrace(st: StoreState, env: Env, attempts: seq<Key>, campaigns: seq<CampaignId>): (r: (seq<Entry>, bool)) {
    var head := [BootEntry(st.incarnation + 1), EpochEntry(st.epoch + 1)];
    var st1 := ApplyAll(st, head);
    var t := AbandonAll(st1, attempts);
    var (u, ok) := ReconcileAll(ApplyAll(st1, t), env, campaigns);
    (head + t + u, ok)
  }
}
