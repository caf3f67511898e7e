/** Opening an engine over what an earlier incarnation left. */
module Restart {
  import opened Lifecycle
  import opened Records
  import opened Store
  import opened Protocol
  import opened Commands
  import opened Invariants
  import opened Sections
  import opened Effects

  // ---- one campaign -------------------------------------------------------------------------------------------

  /** What reconciliation makes of a campaign that is not rolling back: executing states become blocked, a ticket of
      another incarnation or past its expiry is dropped, everything else stays. */
  function Reconciled(c: Campaign, incarnation: nat, now: int): (d: Campaign)
    ensures !c.state.Activating? && !c.state.Verifying? ==> d == c.(ticket := d.ticket)
    ensures !c.state.RollingBack? ==> !Active(d.state)
    ensures Terminal(c.state) <==> Terminal(d.state)
  {
    var c1 := if c.state.Activating? || c.state.Verifying? then c.(state := Blocked, failureRecorded := true) else c;
    if c.ticket.Ticket? && (c.ticket.incarnation != incarnation || c.ticket.expires < now)
    then c1.(ticket := NoTicket) else c1
  }

  lemma {:induction false} ReconcileEffect(st: StoreState, env: Env, id: CampaignId)
    requires id in st.campaigns && !st.campaigns[id].state.RollingBack?
    ensures var post := ApplyAll(st, ReconcileCampaign(st, env, id).trace);
            SameButCampaign(st, post, id, Reconciled(st.campaigns[id], st.incarnation, env.now))
  {
    hide GuardsOf, MoveTrace, ApplyAll, Reconciled;
    var c := st.campaigns[id];
    var g := GuardsOf(st, env, id, c).(failureRecorded := true);
    var m := if Active(c.state) then MoveTo(id, c.(failureRecorded := true), Blocked, g) else Moves([], c);
    var st1 := ApplyAll(st, m.trace);
    assert SameButCampaign(st, st1, id, m.campaign) by {
      if Active(c.state) { MoveEffect(st, id, c.(failureRecorded := true), Blocked, g); } else { EmptyRun(st); StoredSame(st, id); }
    }
    ReconciledIs(c, st.incarnation, env.now, m.campaign, g);
    if StaleTicket(st, env, c) {
      var w, d := CampaignEntry(id, m.campaign.(ticket := NoTicket)), DecisionEntry(id, Decision(DecReconcile, Deny));
      ApplyTwo(st1, w, d);
      ApplyAllAppend(st, m.trace, [w, d]);
      OverwriteTwice(st.campaigns, id, m.campaign, w.campaign);
    }
  }

  lemma StoredSame(st: StoreState, id: CampaignId)
    requires id in st.campaigns
    ensures SameButCampaign(st, st, id, st.campaigns[id])
  {
    assert st.campaigns[id := st.campaigns[id]] == st.campaigns;
  }

  lemma OverwriteTwice(m: map<CampaignId, Campaign>, id: CampaignId, a: Campaign, b: Campaign)
    ensures m[id := a][id := b] == m[id := b]
  {
  }

  lemma ReconciledIs(c: Campaign, incarnation: nat, now: int, d: Campaign, g: Guards)
    requires !c.state.RollingBack? && g.failureRecorded
    requires d == if Active(c.state) then MoveResult(c.(failureRecorded := true), Blocked, g) else c
    ensures Reconciled(c, incarnation, now) ==
            if c.ticket.Ticket? && (c.ticket.incarnation != incarnation || c.ticket.expires < now)
            then d.(ticket := NoTicket) else d
  {
  }

  // ---- all campaigns ------------------------------------------------------------------------------------------

  ghost predicate Distinct(order: seq<CampaignId>) { forall i, j :: 0 <= i < j < |order| ==> order[i] != order[j] }

  lemma HeadAndTail(order: seq<CampaignId>)
    requires Distinct(order) && order != []
    ensures Distinct(order[1..]) && forall id :: id in order <==> id == order[0] || id in order[1..]
    ensures order[0] !in order[1..]
  {
  }

  ghost predicate NoneRollingBack(st: StoreState, order: seq<CampaignId>) {
    forall id :: id in order && id in st.campaigns ==> !st.campaigns[id].state.RollingBack?
  }

  /** Reconciliation goes through exactly when none of the campaigns is rolling back: the lifecycle has no move from rolling
      back to blocked. */
  lemma {:induction false} ReconcileSucceeds(st: StoreState, env: Env, order: seq<CampaignId>)
    requires Distinct(order)
    ensures ReconcileAll(st, env, order).1 <==> NoneRollingBack(st, order)
    decreases |order|
  {
    hide ReconcileCampaign, ApplyAll, Reconciled;
    if order != [] {
      HeadAndTail(order);
      if order[0] !in st.campaigns {
        ReconcileSucceeds(st, env, order[1..]);
      } else if !st.campaigns[order[0]].state.RollingBack? {
        var t := ReconcileCampaign(st, env, order[0]).trace;
        ReconcileEffect(st, env, order[0]);
        ReconcileSucceeds(ApplyAll(st, t), env, order[1..]);
      }
    }
  }

  /** On success every listed campaign is as `Reconciled` says and nothing else changed. */
  ghost predicate AllReconciled(st: StoreState, post: StoreState, env: Env, order: seq<CampaignId>) {
    post.attempts == st.attempts && post.ledger == st.ledger && post.incarnation == st.incarnation &&
    post.epoch == st.epoch && (forall id :: id in post.campaigns <==> id in st.campaigns) &&
    forall id :: id in st.campaigns ==>
      post.campaigns[id] == if id in order then Reconciled(st.campaigns[id], st.incarnation, env.now)
                            else st.campaigns[id]
  }

  lemma {:induction false} ReconcileAllEffect(st: StoreState, env: Env, order: seq<CampaignId>)
    requires Distinct(order) && NoneRollingBack(st, order)
    ensures AllReconciled(st, ApplyAll(st, ReconcileAll(st, env, order).0), env, order)
    decreases |order|
  {
    hide ReconcileCampaign, ApplyAll, Reconciled;
    if order == [] {
      EmptyRun(st);
    } else {
      HeadAndTail(order);
      if order[0] !in st.campaigns {
        ReconcileAllEffect(st, env, order[1..]);
      } else {
        var t := ReconcileCampaign(st, env, order[0]).trace;
        var st1 := ApplyAll(st, t);
        ReconcileEffect(st, env, order[0]);
        ReconcileAllEffect(st1, env, order[1..]);
        ApplyAllAppend(st, t, ReconcileAll(st1, env, order[1..]).0);
      }
    }
  }

  /** A rolling-back campaign that reconciliation meets is still rolling back when it gives up. */
  lemma {:induction false} ReconcileStops(st: StoreState, env: Env, order: seq<CampaignId>, id: CampaignId)
    requires Distinct(order) && id in st.campaigns && st.campaigns[id].state.RollingBack?
    ensures var post := ApplyAll(st, ReconcileAll(st, env, order).0);
            id in post.campaigns && post.campaigns[id].state.RollingBack?
    decreases |order|
  {
    hide ReconcileCampaign, ApplyAll, Reconciled;
    if order == [] {
      EmptyRun(st);
    } else {
      HeadAndTail(order);
      if order[0] !in st.campaigns {
        ReconcileStops(st, env, order[1..], id);
      } else {
        var t := ReconcileCampaign(st, env, order[0]).trace;
        var st1 := ApplyAll(st, t);
        if st.campaigns[order[0]].state.RollingBack? {
          RefusedBlock(st, env, order[0]);
        } else {
          ReconcileEffect(st, env, order[0]);
          ReconcileStops(st1, env, order[1..], id);
          ApplyAllAppend(st, t, ReconcileAll(st1, env, order[1..]).0);
        }
      }
    }
  }

  lemma RefusedBlock(st: StoreState, env: Env, id: CampaignId)
    requires id in st.campaigns && st.campaigns[id].state.RollingBack?
    ensures ApplyAll(st, ReconcileCampaign(st, env, id).trace).campaigns == st.campaigns
  {
    hide GuardsOf;
    ApplyOne(st, DecisionEntry(id, Decision(DecBlock, Deny)));
  }

  // ---- the whole opening --------------------------------------------------------------------------------------

  ghost predicate NothingInFlight(st: StoreState) { forall k :: k in st.attempts ==> !InFlight(st.attempts[k].state) }

  function Booted(st: StoreState): StoreState { st.(incarnation := st.incarnation + 1, epoch := st.epoch + 1) }

  lemma BootEffect(st: StoreState)
    ensures ApplyAll(st, [BootEntry(st.incarnation + 1), EpochEntry(st.epoch + 1)]) == Booted(st)
  {
    ApplyTwo(st, BootEntry(st.incarnation + 1), EpochEntry(st.epoch + 1));
  }

  /** The three parts of an opening. */
  lemma OpenParts(st: StoreState, env: Env, attempts: seq<Key>, campaigns: seq<CampaignId>)
    ensures var st1 := Booted(st);
            var st2 := ApplyAll(st1, AbandonAll(st1, attempts));
            OpenTrace(st, env, attempts, campaigns).1 == ReconcileAll(st2, env, campaigns).1 &&
            ApplyAll(st, OpenTrace(st, env, attempts, campaigns).0) == ApplyAll(st2, ReconcileAll(st2, env, campaigns).0)
  {
    hide AbandonAll, ReconcileAll, ApplyAll;
    var head := [BootEntry(st.incarnation + 1), EpochEntry(st.epoch + 1)];
    BootEffect(st);
    var st1 := Booted(st);
    var t := AbandonAll(st1, attempts);
    var u := ReconcileAll(ApplyAll(st1, t), env, campaigns).0;
    ApplyAllAppend(st, head, t);
    ApplyAllAppend(st, head + t, u);
  }

  /** With every attempt listed, nothing stays in flight: whatever was in flight belonged to an earlier incarnation. */
  lemma AbandonedAll(st: StoreState, attempts: seq<Key>)
    requires Inv(st) && Lists(attempts, st.attempts.Keys)
    ensures var st1 := Booted(st);
            var st2 := ApplyAll(st1, AbandonAll(st1, attempts));
            Retired(st1, st2, AttAbandoned) && NothingInFlight(st2)
  {
    hide AttemptOk, ApplyAll, AbandonAll;
    var st1 := Booted(st);
    AbandonAllEffect(st1, attempts);
    var st2 := ApplyAll(st1, AbandonAll(st1, attempts));
    forall k | k in st2.attempts ensures !InFlight(st2.attempts[k].state) {
      assert AttemptIn(st, k);
      assert k in attempts;
    }
  }

  /** What was being prepared, activated, verified or rolled back is given up; every other attempt stays. */
  function Abandoned(attempts: map<Key, Attempt>): map<Key, Attempt> {
    map k | k in attempts ::
      if attempts[k].state in {AttPreparing, AttActivating, AttVerifying, AttRollingBack} then attempts[k].(state := AttAbandoned)
      else attempts[k]
  }

  /** What a successful opening leaves: the next incarnation and epoch, every attempt that was in flight abandoned and the others
      as they were, nothing executing, no ticket of another incarnation, and finished campaigns as they were apart from such a
      ticket. */
  ghost predicate Reopened(st: StoreState, post: StoreState, env: Env) {
    post.incarnation == st.incarnation + 1 && post.epoch == st.epoch + 1 && post.ledger == st.ledger &&
    post.attempts == Abandoned(st.attempts) && post.campaigns.Keys == st.campaigns.Keys &&
    (forall id :: id in st.campaigns ==> post.campaigns[id] == Reconciled(st.campaigns[id], post.incarnation, env.now))
  }

  /** Opening succeeds exactly when no stored campaign is rolling back. */
  lemma OpenSucceeds(st: StoreState, env: Env, attempts: seq<Key>, campaigns: seq<CampaignId>)
    requires Inv(st) && Lists(attempts, st.attempts.Keys) && Lists(campaigns, st.campaigns.Keys)
    ensures OpenTrace(st, env, attempts, campaigns).1 <==>
            forall id :: id in st.campaigns ==> !st.campaigns[id].state.RollingBack?
  {
    hide ApplyAll, AbandonAll, ReconcileAll, OpenTrace, Inv;
    var st1 := Booted(st);
    var st2 := ApplyAll(st1, AbandonAll(st1, attempts));
    OpenParts(st, env, attempts, campaigns);
    AbandonedAll(st, attempts);
    ReconcileSucceeds(st2, env, campaigns);
  }

  lemma OpenReconciles(st: StoreState, env: Env, attempts: seq<Key>, campaigns: seq<CampaignId>)
    requires Inv(st) && Lists(attempts, st.attempts.Keys) && Lists(campaigns, st.campaigns.Keys)
    requires OpenTrace(st, env, attempts, campaigns).1
    ensures Reopened(st, ApplyAll(st, OpenTrace(st, env, attempts, campaigns).0), env)
  {
    hide ApplyAll, AbandonAll, ReconcileAll, OpenTrace, Inv, Reconciled;
    var st1 := Booted(st);
    var st2 := ApplyAll(st1, AbandonAll(st1, attempts));
    OpenParts(st, env, attempts, campaigns);
    AbandonedAll(st, attempts);
    ReconcileSucceeds(st2, env, campaigns);
    ReconcileAllEffect(st2, env, campaigns);
  }

  /** No campaign executes after a successful opening, and no stale ticket is left. */
  lemma ReopenedIdle(st: StoreState, post: StoreState, env: Env)
    requires Reopened(st, post, env)
    requires forall id :: id in st.campaigns ==> !st.campaigns[id].state.RollingBack?
    ensures forall id :: id in post.campaigns ==>
      !Active(post.campaigns[id].state) && !StaleTicket(post, env, post.campaigns[id]) &&
      (Terminal(post.campaigns[id].state) ==> post.campaigns[id] == st.campaigns[id].(ticket := post.campaigns[id].ticket))
  {
  }

  lemma {:induction false} NothingToAbandon(st: StoreState, order: seq<Key>)
    requires NothingInFlight(st)
    ensures AbandonAll(st, order) == []
    decreases |order|
  {
    if order != [] { NothingToAbandon(st, order[1..]); }
  }

  lemma {:induction false} NothingToReconcile(st: StoreState, env: Env, order: seq<CampaignId>)
    requires forall id :: id in st.campaigns ==> !Active(st.campaigns[id].state) && !StaleTicket(st, env, st.campaigns[id])
    ensures ReconcileAll(st, env, order) == ([], true)
    decreases |order|
  {
    hide GuardsOf;
    if order != [] {
      EmptyRun(st);
      NothingToReconcile(st, env, order[1..]);
      if order[0] in st.campaigns {
        var t := ReconcileCampaign(st, env, order[0]).trace;
        assert t == [];
        assert ApplyAll(st, t) == st;
        assert t + ReconcileAll(ApplyAll(st, t), env, order[1..]).0 == [];
      }
    }
  }

  /** Planning reconciliation again, right after an engine opened, finds nothing to do. */
  lemma ReconciliationIsIdempotent(st: StoreState, env: Env, attempts: seq<Key>, campaigns: seq<CampaignId>,
                                   keys: seq<Key>, ids: seq<CampaignId>)
    requires Inv(st) && Lists(attempts, st.attempts.Keys) && Lists(campaigns, st.campaigns.Keys)
    requires OpenTrace(st, env, attempts, campaigns).1
    ensures var post := ApplyAll(st, OpenTrace(st, env, attempts, campaigns).0);
            AbandonAll(post, keys) == [] && ReconcileAll(post, env, ids) == ([], true)
  {
    hide ApplyAll, OpenTrace, Inv, AbandonAll, ReconcileAll, StaleTicket, Reconciled;
    var post := ApplyAll(st, OpenTrace(st, env, attempts, campaigns).0);
    OpenSucceeds(st, env, attempts, campaigns);
    OpenReconciles(st, env, attempts, campaigns);
    ReopenedIdle(st, post, env);
    NothingToAbandon(post, keys);
    NothingToReconcile(post, env, ids);
  }

  /** A store with a rolling-back campaign can never be opened again: the opening fails and leaves the campaign as it
      was, in whatever order things are listed. */
  lemma RollingBackStaysShut(st: StoreState, env: Env, attempts: seq<Key>, campaigns: seq<CampaignId>, id: CampaignId)
    requires Inv(st) && Lists(attempts, st.attempts.Keys) && Lists(campaigns, st.campaigns.Keys)
    requires id in st.campaigns && st.campaigns[id].state.RollingBack?
    ensures !OpenTrace(st, env, attempts, campaigns).1
    ensures var post := ApplyAll(st, OpenTrace(st, env, attempts, campaigns).0);
            id in post.campaigns && post.campaigns[id].state.RollingBack?
  {
    hide ApplyAll, AbandonAll, ReconcileAll, OpenTrace, Inv;
    OpenSucceeds(st, env, attempts, campaigns);
    OpenParts(st, env, attempts, campaigns);
    AbandonedAll(st, attempts);
    var st1 := Booted(st);
    ReconcileStops(ApplyAll(st1, AbandonAll(st1, attempts)), env, campaigns, id);
  }
}
