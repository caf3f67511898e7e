/** Commits do not lead a campaign back to staging: whatever comes back for outstanding work, a stage that was staged stays so. */
module Onward {
  import opened Lifecycle
  import opened Records
  import opened Store
  import opened Verification
  import opened Protocol

  /** If the campaign is staging afterwards, it was so before in the same stage, or has come to a later stage. */
  predicate NoReturn(c: Campaign, d: Campaign) { Staging(d) ==> (Staging(c) && d.active == c.active) || d.active > c.active }

  predicate Onward(es: seq<Entry>, id: CampaignId, c: Campaign) {
    forall e :: e in es ==> !e.SnapshotEntry? && (e.CampaignEntry? ==> e.id == id && NoReturn(c, e.campaign))
  }

  lemma {:induction false} OnwardEnds(st: StoreState, es: seq<Entry>, id: CampaignId, c: Campaign)
    requires Onward(es, id, c) && id in st.campaigns && NoReturn(c, st.campaigns[id])
    ensures id in ApplyAll(st, es).campaigns && NoReturn(c, ApplyAll(st, es).campaigns[id])
    decreases |es|
  {
    hide NoReturn;
    if es != [] {
      assert es[0] in es;
      assert forall e :: e in es[1..] ==> e in es;
      OnwardEnds(Apply(st, es[0]), es[1..], id, c);
    }
  }

  lemma OnwardAppend(p: seq<Entry>, q: seq<Entry>, id: CampaignId, c: Campaign)
    requires Onward(p, id, c) && Onward(q, id, c)
    ensures Onward(p + q, id, c)
  {
    hide NoReturn;
  }

  lemma MoveOnward(id: CampaignId, c: Campaign, d: Campaign, to: UpgradeState, g: Guards)
    requires NoReturn(c, Moved(d, to))
    ensures Onward(MoveTrace(id, d, to, g), id, c)
  {
    hide Permits, NoReturn;
  }

  lemma FailOnward(st: StoreState, env: Env, id: CampaignId, c: Campaign)
    ensures Onward(FailTrace(st, env, id, c), id, c)
  {
    hide Onward, MoveTrace, GuardsOf;
    var c1 := c.(failureRecorded := true);
    MoveOnward(id, c, c1, if c1.state.Proposed? then Blocked else Failed, GuardsOf(st, env, id, c1).(failureRecorded := true));
  }

  lemma PreparedOnward(st: StoreState, env: Env, id: CampaignId, c: Campaign, stage: nat)
    requires Accepts(Prepare, c.state)
    ensures Onward(AfterPrepared(st, env, id, c, stage), id, c)
  {
    hide MoveTrace, GuardsOf, StageAll;
    if stage < |c.progress| {
      var c1 := c.(progress := c.progress[stage := StagePrepared]);
      var st1 := Apply(st, CampaignEntry(id, c1));
      if c1.state.Prepared? { MoveOnward(id, c, c1, Staged, GuardsOf(st1, env, id, c1).(stagingComplete := true)); }
      OnwardAppend([CampaignEntry(id, c1)], StageIt(st1, env, id, c1), id, c);
    }
  }

  lemma BlockOnward(st: StoreState, env: Env, id: CampaignId, c: Campaign, d: Campaign)
    ensures Onward(BlockTrace(st, env, id, d), id, c)
  {
    hide Onward, MoveTrace, GuardsOf;
    MoveOnward(id, c, d, Blocked, GuardsOf(st, env, id, d).(failureRecorded := true));
  }

  lemma CheckMixOnward(st: StoreState, env: Env, id: CampaignId, c: Campaign, d: Campaign)
    ensures Onward(CheckMix(st, env, id, d), id, c)
  {
    hide MoveTrace, GuardsOf, SkewOk, BlockTrace;
    BlockOnward(st, env, id, c, d);
    MoveOnward(id, c, d, Verifying, GuardsOf(st, env, id, d));
  }

  lemma ActivatedOnward(st: StoreState, env: Env, id: CampaignId, c: Campaign)
    ensures Onward(AfterActivated(st, env, id, c), id, c)
  {
    hide Onward, MoveTrace, GuardsOf, CheckMix, ApplyAll;
    var g := GuardsOf(st, env, id, c);
    var t := MoveTrace(id, c, Activating, g);
    MoveOnward(id, c, c, Activating, g);
    CheckMixOnward(st, env, id, c, c);
    CheckMixOnward(ApplyAll(st, t), env, id, c, MoveResult(c, Activating, g));
    OnwardAppend(t, CheckMix(ApplyAll(st, t), env, id, MoveResult(c, Activating, g)), id, c);
  }

  lemma VerifiedOnward(st: StoreState, env: Env, id: CampaignId, c: Campaign, stage: nat)
    requires Accepts(Verify, c.state)
    ensures Onward(AfterVerified(st, env, id, c, stage), id, c)
  {
    hide MoveTrace, GuardsOf, StageAll, Permits;
    if c.active < |c.progress| {
      var c1 := StageCompletedRecord(c);
      var g := GuardsOf(Apply(st, CampaignEntry(id, c1)), env, id, c1);
      if c1.active > c.active { MoveOnward(id, c, c1, Staged, g); }
      MoveOnward(id, c, c1, Completed, g);
      OnwardAppend([CampaignEntry(id, c1)], AfterStage(Apply(st, CampaignEntry(id, c1)), env, id, c1, c1.active > c.active), id, c);
    }
  }

  lemma RolledBackOnward(st: StoreState, env: Env, id: CampaignId, c: Campaign)
    requires Accepts(Rollback, c.state)
    ensures Onward(AfterRolledBack(st, env, id, c), id, c)
  {
    hide MoveTrace, GuardsOf, NothingLeft;
    MoveOnward(id, c, c.(rollbackPerformed := true), RolledBack, GuardsOf(st, env, id, c));
  }

  lemma ThenOnward(e: Entry, rest: seq<Entry>, id: CampaignId, c: Campaign)
    requires Onward(rest, id, c) && !e.SnapshotEntry? && !e.CampaignEntry?
    ensures Onward([e] + rest, id, c)
  {
    hide NoReturn;
  }

  lemma PrepareOnward(st: StoreState, env: Env, item: Item, r: Report)
    requires FenceOk(st, item) && item.kind.Prepare?
    ensures Onward(CommitPrepare(st, env, item, r), item.campaign, st.campaigns[item.campaign])
  {
    hide Onward, AfterPrepared, FailTrace;
    var k, id, c := KeyOf(item), item.campaign, st.campaigns[item.campaign];
    var w := AttemptEntry(k, st.attempts[k].(state := if r.prepared then AttPrepared else AttFailed));
    PreparedOnward(Apply(st, w), env, id, c, item.stage);
    FailOnward(Apply(st, w), env, id, c);
    ThenOnward(w, if r.prepared then AfterPrepared(Apply(st, w), env, id, c, item.stage) else FailTrace(Apply(st, w), env, id, c), id, c);
  }

  lemma ActivateOnward(st: StoreState, env: Env, item: Item, r: Report)
    requires FenceOk(st, item) && item.kind.Activate?
    ensures Onward(CommitActivate(st, env, item, r), item.campaign, st.campaigns[item.campaign])
  {
    hide Onward, AfterActivated, FailTrace, BlockTrace, RecordOf;
    var k, id, c := KeyOf(item), item.campaign, st.campaigns[item.campaign];
    if r.gateRefused {
      var w := AttemptEntry(k, st.attempts[k].(state := AttPrepared));
      var d := DecisionEntry(id, Decision(DecBlock, Deny));
      BlockOnward(Apply(st, w), env, id, c, c);
      NothingOnward(id, c);
      ThenOnward(d, [], id, c);
      assert [d] + [] == [d];
      OnwardAppend(BlockTrace(Apply(st, w), env, id, c), [d], id, c);
      ThenOnward(w, BlockTrace(Apply(st, w), env, id, c) + [d], id, c);
    } else if r.activated {
      var w := AttemptEntry(k, st.attempts[k].(state := AttActivated, activationObserved := true));
      var l := LedgerEntry(RecordOf(st, env, item, Applied));
      var st2 := Apply(Apply(st, w), l);
      ActivatedOnward(st2, env, id, c);
      ThenOnward(l, AfterActivated(st2, env, id, c), id, c);
      ThenOnward(w, [l] + AfterActivated(st2, env, id, c), id, c);
    } else {
      var w := AttemptEntry(k, st.attempts[k].(state := AttFailed));
      FailOnward(Apply(st, w), env, id, c);
      ThenOnward(w, FailTrace(Apply(st, w), env, id, c), id, c);
    }
  }

  lemma NothingOnward(id: CampaignId, c: Campaign)
    ensures Onward([], id, c)
  {
  }

  lemma VerifyOnward(st: StoreState, env: Env, pol: Policy, item: Item, r: Report)
    requires FenceOk(st, item) && item.kind.Verify?
    ensures Onward(CommitVerify(st, env, pol, item, r), item.campaign, st.campaigns[item.campaign])
  {
    hide Onward, AfterVerified, FailTrace, RecordOf, Succeeded;
    var k, id, c, a := KeyOf(item), item.campaign, st.campaigns[item.campaign], st.attempts[KeyOf(item)];
    if Succeeded(item.artifact, r.verify, r.health, env.now, st.incarnation, pol.requireHealth) {
      var w := AttemptEntry(k, a.(state := AttVerified, evidenceAt := r.verify.at,
                                  evidenceValidity := r.verify.validity, observedVersion := r.verify.version));
      var l := LedgerEntry(RecordOf(st, env, item, Confirmed));
      var st2 := Apply(Apply(st, w), l);
      VerifiedOnward(st2, env, id, c, item.stage);
      ThenOnward(l, AfterVerified(st2, env, id, c, item.stage), id, c);
      ThenOnward(w, [l] + AfterVerified(st2, env, id, c, item.stage), id, c);
    } else if a.retries < pol.maxRetries {
      var w := AttemptEntry(k, a.(state := AttActivated, retries := a.retries + 1));
      NothingOnward(id, c);
      ThenOnward(w, [], id, c);
      assert [w] + [] == [w];
    } else {
      var w := AttemptEntry(k, a.(state := AttFailed));
      FailOnward(Apply(st, w), env, id, c);
      ThenOnward(w, FailTrace(Apply(st, w), env, id, c), id, c);
    }
  }

  lemma RollbackOnward(st: StoreState, env: Env, item: Item, r: Report)
    requires FenceOk(st, item) && item.kind.Rollback?
    ensures Onward(CommitRollback(st, env, item, r), item.campaign, st.campaigns[item.campaign])
  {
    hide Onward, AfterRolledBack, FailTrace, RecordOf;
    var k, id, c := KeyOf(item), item.campaign, st.campaigns[item.campaign];
    if r.rolledBack {
      var w := AttemptEntry(k, st.attempts[k].(state := AttRolledBack));
      var l := LedgerEntry(RecordOf(st, env, item, Reverted));
      var st2 := Apply(Apply(st, w), l);
      RolledBackOnward(st2, env, id, c);
      ThenOnward(l, AfterRolledBack(st2, env, id, c), id, c);
      ThenOnward(w, [l] + AfterRolledBack(st2, env, id, c), id, c);
    } else {
      var w := AttemptEntry(k, st.attempts[k].(state := AttFailed));
      FailOnward(Apply(st, w), env, id, c);
      ThenOnward(w, FailTrace(Apply(st, w), env, id, c), id, c);
    }
  }

  /** The campaign after an effective commit is staging only where it was staging before, or in a later stage. */
  lemma CommitNoReturn(st: StoreState, env: Env, pol: Policy, item: Item, r: Report)
    requires FenceOk(st, item)
    ensures var post := ApplyAll(st, CommitTrace(st, env, pol, item, r));
            item.campaign in post.campaigns && NoReturn(st.campaigns[item.campaign], post.campaigns[item.campaign])
  {
    hide Onward, ApplyAll, CommitPrepare, CommitActivate, CommitVerify, CommitRollback, Accepts;
    var id, c := item.campaign, st.campaigns[item.campaign];
    match item.kind {
      case Prepare => PrepareOnward(st, env, item, r);
      case Activate => ActivateOnward(st, env, item, r);
      case Verify => VerifyOnward(st, env, pol, item, r);
      case Rollback => RollbackOnward(st, env, item, r);
    }
    OnwardEnds(st, CommitTrace(st, env, pol, item, r), id, c);
  }
}
