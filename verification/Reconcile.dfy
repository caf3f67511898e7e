/** Restart reconciliation as it is carried out: a list of actions is planned from the stored records, then performed one
    after another against the store. Performing the list does what `Commands.AbandonAll` and `Commands.ReconcileAll` say. */
module Reconcile {
  import opened Lifecycle
  import opened Records
  import opened Store
  import opened Protocol
  import opened Commands
  import opened Sections
  import opened Effects
  import opened Restart

  datatype Action = AbandonAttempt(key: Key) | BlockCampaign(id: CampaignId) | InvalidateTicket(id: CampaignId)

  // ---- planning -----------------------------------------------------------------------------------------------

  function ActionsForAttempt(st: StoreState, k: Key): seq<Action> {
    if k in st.attempts && InFlight(st.attempts[k].state) && st.attempts[k].owner != st.incarnation
    then [AbandonAttempt(k)] else []
  }

  function AttemptActions(st: StoreState, order: seq<Key>): seq<Action>
    decreases |order|
  {
    if order == [] then [] else ActionsForAttempt(st, order[0]) + AttemptActions(st, order[1..])
  }

  function ActionsForCampaign(st: StoreState, env: Env, id: CampaignId): seq<Action> {
    if id !in st.campaigns then []
    else
      (if Active(st.campaigns[id].state) then [BlockCampaign(id)] else []) +
      (if StaleTicket(st, env, st.campaigns[id]) then [InvalidateTicket(id)] else [])
  }

  function CampaignActions(st: StoreState, env: Env, order: seq<CampaignId>): seq<Action>
    decreases |order|
  {
    if order == [] then [] else ActionsForCampaign(st, env, order[0]) + CampaignActions(st, env, order[1..])
  }

  // ---- performing ---------------------------------------------------------------------------------------------

  /** One action against the store: what it writes, and whether it went through. */
  ghost function Perform(st: StoreState, env: Env, a: Action): (r: (seq<Entry>, bool)) {
    match a
    case AbandonAttempt(k) =>
      if k !in st.attempts then ([], true)
      else ([AttemptEntry(k, st.attempts[k].(state := AttAbandoned))], true)
    case BlockCampaign(id) =>
      if id !in st.campaigns then ([], true)
      else
        var c := st.campaigns[id];
        var g := GuardsOf(st, env, id, c).(failureRecorded := true);
        (MoveTrace(id, c.(failureRecorded := true), Blocked, g), Permits(c.state, Blocked, g))
    case InvalidateTicket(id) =>
      if id !in st.campaigns then ([], true)
      else ([CampaignEntry(id, st.campaigns[id].(ticket := NoTicket)), DecisionEntry(id, Decision(DecReconcile, Deny))], true)
  }

  /** The actions in order; the first one that does not go through ends reconciliation. */
  ghost function PerformAll(st: StoreState, env: Env, actions: seq<Action>): (r: (seq<Entry>, bool))
    decreases |actions|
  {
    if actions == [] then ([], true)
    else
      var (t, ok) := Perform(st, env, actions[0]);
      if !ok then (t, false)
      else
        var (u, done) := PerformAll(ApplyAll(st, t), env, actions[1..]);
        (t + u, done)
  }

  lemma {:induction false} PerformAppend(st: StoreState, env: Env, p: seq<Action>, q: seq<Action>)
    ensures var (t, ok) := PerformAll(st, env, p);
            var (u, done) := PerformAll(ApplyAll(st, t), env, q);
            PerformAll(st, env, p + q) == if ok then (t + u, done) else (t, false)
    decreases |p|
  {
    hide Perform, ApplyAll;
    if p == [] {
      EmptyRun(st);
      assert p + q == q;
      assert [] + PerformAll(st, env, q).0 == PerformAll(st, env, q).0;
    } else {
      assert (p + q)[0] == p[0] && (p + q)[1..] == p[1..] + q;
      var (t, ok) := Perform(st, env, p[0]);
      if ok {
        var st1 := ApplyAll(st, t);
        PerformAppend(st1, env, p[1..], q);
        var u := PerformAll(st1, env, p[1..]).0;
        ApplyAllAppend(st, t, u);
        assert t + (u + PerformAll(ApplyAll(st1, u), env, q).0) == t + u + PerformAll(ApplyAll(st1, u), env, q).0;
      }
    }
  }

  lemma PerformOne(st: StoreState, env: Env, a: Action)
    ensures PerformAll(st, env, [a]) == Perform(st, env, a)
  {
    hide Perform, ApplyAll;
    var (t, ok) := Perform(st, env, a);
    assert [a][1..] == [];
    assert t + [] == t;
  }

  // ---- attempts -----------------------------------------------------------------------------------------------

  ghost predicate SameAttempts(a: StoreState, b: StoreState, order: seq<Key>) {
    a.incarnation == b.incarnation &&
    forall k :: k in order ==> (k in a.attempts <==> k in b.attempts) && (k in a.attempts ==> a.attempts[k] == b.attempts[k])
  }

  /** The actions planned for the attempts write what abandoning them one by one writes. */
  lemma {:induction false} AttemptActionsAbandon(st: StoreState, planned: StoreState, env: Env, order: seq<Key>)
    requires SameAttempts(st, planned, order)
    requires forall i, j :: 0 <= i < j < |order| ==> order[i] != order[j]
    ensures PerformAll(st, env, AttemptActions(planned, order)) == (AbandonAll(st, order), true)
    decreases |order|
  {
    hide ApplyAll;
    if order != [] {
      var k := order[0];
      var w := if k in st.attempts && st.attempts[k].owner != st.incarnation then RetireOne(st, k, AttAbandoned) else [];
      var st1 := ApplyAll(st, w);
      OneAbandoned(st, planned, env, k);
      SameRest(st, planned, order, w);
      AttemptActionsAbandon(st1, planned, env, order[1..]);
      PerformAppend(st, env, ActionsForAttempt(planned, k), AttemptActions(planned, order[1..]));
    }
  }

  lemma OneAbandoned(st: StoreState, planned: StoreState, env: Env, k: Key)
    requires SameAttempts(st, planned, [k])
    ensures var w := if k in st.attempts && st.attempts[k].owner != st.incarnation then RetireOne(st, k, AttAbandoned) else [];
            PerformAll(st, env, ActionsForAttempt(planned, k)) == (w, true)
  {
    hide ApplyAll;
    assert k in [k];
    if ActionsForAttempt(planned, k) != [] { PerformOne(st, env, AbandonAttempt(k)); }
  }

  lemma SameRest(st: StoreState, planned: StoreState, order: seq<Key>, w: seq<Entry>)
    requires order != [] && SameAttempts(st, planned, order)
    requires forall i, j :: 0 <= i < j < |order| ==> order[i] != order[j]
    requires w == if order[0] in st.attempts && st.attempts[order[0]].owner != st.incarnation
                  then RetireOne(st, order[0], AttAbandoned) else []
    ensures SameAttempts(ApplyAll(st, w), planned, order[1..]) && SameAttempts(st, planned, [order[0]])
  {
    var k := order[0];
    if w != [] { ApplyOne(st, w[0]); }
    forall q | q in order[1..] ensures q in order && q != k {
      var j :| 0 <= j < |order[1..]| && order[1..][j] == q;
      assert order[j + 1] == q;
    }
  }

  // ---- campaigns ----------------------------------------------------------------------------------------------

  ghost predicate SameCampaigns(a: StoreState, b: StoreState, order: seq<CampaignId>) {
    a.incarnation == b.incarnation &&
    forall id :: id in order ==>
      (id in a.campaigns <==> id in b.campaigns) && (id in a.campaigns ==> a.campaigns[id] == b.campaigns[id])
  }

  /** The actions planned for one campaign write what reconciling it writes. */
  lemma {:induction false} OneReconciled(st: StoreState, planned: StoreState, env: Env, id: CampaignId)
    requires id in st.campaigns && SameCampaigns(st, planned, [id])
    ensures PerformAll(st, env, ActionsForCampaign(planned, env, id)) ==
            (ReconcileCampaign(st, env, id).trace, !st.campaigns[id].state.RollingBack?)
  {
    hide ApplyAll, GuardsOf, MoveTrace, StaleTicket;
    assert id in [id];
    var c := st.campaigns[id];
    var g := GuardsOf(st, env, id, c).(failureRecorded := true);
    SameStale(st, planned, env, c);
    var first := if Active(c.state) then [BlockCampaign(id)] else [];
    var second := if StaleTicket(st, env, c) then [InvalidateTicket(id)] else [];
    PerformAppend(st, env, first, second);
    EmptyRun(st);
    if Active(c.state) {
      PerformOne(st, env, BlockCampaign(id));
      BlockPermitted(c.state, g);
      var m := MoveTo(id, c.(failureRecorded := true), Blocked, g);
      MoveEffect(st, id, c.(failureRecorded := true), Blocked, g);
      if second != [] { PerformOne(ApplyAll(st, m.trace), env, InvalidateTicket(id)); }
      assert m.trace + [] == m.trace;
    } else if second != [] {
      PerformOne(st, env, InvalidateTicket(id));
      var t := Perform(st, env, InvalidateTicket(id)).0;
      assert [] + t == t;
    }
  }

  lemma SameStale(a: StoreState, b: StoreState, env: Env, c: Campaign)
    requires a.incarnation == b.incarnation
    ensures StaleTicket(a, env, c) <==> StaleTicket(b, env, c)
  {
  }

  lemma BlockPermitted(s: UpgradeState, g: Guards)
    requires Active(s) && g.failureRecorded
    ensures Permits(s, Blocked, g) <==> !s.RollingBack?
  {
  }

  /** Performing the planned actions is reconciling the campaigns one after another. */
  lemma {:induction false} CampaignActionsReconcile(st: StoreState, planned: StoreState, env: Env, order: seq<CampaignId>)
    requires SameCampaigns(st, planned, order) && Distinct(order)
    ensures PerformAll(st, env, CampaignActions(planned, env, order)) == ReconcileAll(st, env, order)
    decreases |order|
  {
    hide ApplyAll, ReconcileCampaign, ActionsForCampaign, PerformAll;
    if order == [] {
      NothingPerformed(st, env);
    } else {
      HeadAndTail(order);
      var id := order[0];
      PerformAppend(st, env, ActionsForCampaign(planned, env, id), CampaignActions(planned, env, order[1..]));
      if id !in st.campaigns {
        NoActions(planned, env, id);
        NothingPerformed(st, env);
        EmptyRun(st);
        CampaignActionsReconcile(st, planned, env, order[1..]);
        var t := PerformAll(st, env, CampaignActions(planned, env, order[1..])).0;
        assert [] + t == t;
      } else {
        OneReconciled(st, planned, env, id);
        if !st.campaigns[id].state.RollingBack? {
          ReconcileEffect(st, env, id);
          CampaignActionsReconcile(ApplyAll(st, ReconcileCampaign(st, env, id).trace), planned, env, order[1..]);
        }
      }
    }
  }

  lemma NothingPerformed(st: StoreState, env: Env)
    ensures PerformAll(st, env, []) == ([], true)
  {
  }

  lemma NoActions(st: StoreState, env: Env, id: CampaignId)
    requires id !in st.campaigns
    ensures ActionsForCampaign(st, env, id) == []
  {
  }

  /** Reconciliation as planned and performed is reconciliation as specified. */
  lemma PlannedReconciliation(st: StoreState, env: Env, attempts: seq<Key>, campaigns: seq<CampaignId>)
    requires Lists(attempts, st.attempts.Keys) && Lists(campaigns, st.campaigns.Keys)
    ensures var t := AbandonAll(st, attempts);
            var (u, ok) := ReconcileAll(ApplyAll(st, t), env, campaigns);
            PerformAll(st, env, AttemptActions(st, attempts) + CampaignActions(st, env, campaigns)) == (t + u, ok)
  {
    hide ApplyAll, AbandonAll, ReconcileAll, AttemptActions, CampaignActions, PerformAll;
    AttemptActionsAbandon(st, st, env, attempts);
    AbandonAllEffect(st, attempts);
    CampaignActionsReconcile(ApplyAll(st, AbandonAll(st, attempts)), st, env, campaigns);
    PerformAppend(st, env, AttemptActions(st, attempts), CampaignActions(st, env, campaigns));
  }
}
