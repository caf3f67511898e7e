/** Every critical section writes allowed entries only. */
module Sections {
  import opened Lifecycle
  import opened Skew
  import opened Records
  import opened Store
  import opened Verification
  import opened Protocol
  import opened Invariants

  // ---- moves --------------------------------------------------------------------------------------------------

  /** The stores agree on everything except one campaign record and the decision trail. */
  ghost predicate SameButCampaign(st: StoreState, post: StoreState, id: CampaignId, c: Campaign) {
    post.campaigns == st.campaigns[id := c] && post.attempts == st.attempts && post.ledger == st.ledger &&
    post.epoch == st.epoch && post.incarnation == st.incarnation && post.config == st.config
  }

  lemma MoveEffect(st: StoreState, id: CampaignId, c: Campaign, to: UpgradeState, g: Guards)
    requires id in st.campaigns
    ensures var post := ApplyAll(st, MoveTrace(id, c, to, g));
            SameButCampaign(st, post, id, if Permits(c.state, to, g) && c.state != to then Moved(c, to)
                                          else st.campaigns[id])
  {
    if !Permits(c.state, to, g) {
      ApplyOne(st, DecisionEntry(id, Decision(DecBlock, Deny)));
    } else if c.state != to {
      ApplyTwo(st, CampaignEntry(id, Moved(c, to)), DecisionEntry(id, DecisionFor(to)));
    } else {
      assert st.campaigns[id := st.campaigns[id]] == st.campaigns;
    }
  }

  lemma EmptyAllowed(st: StoreState)
    ensures AllowedAll(st, []) && ApplyAll(st, []) == st
  {
  }

  lemma StoredOk(st: StoreState, id: CampaignId)
    requires Inv(st) && id in st.campaigns
    ensures CampaignOk(st.campaigns[id])
  {
  }

  lemma StoredAttempt(st: StoreState, k: Key)
    requires Inv(st) && k in st.attempts
    ensures AttemptIn(st, k)
  {
  }

  lemma {:induction false} RecordAllowed(st: StoreState, id: CampaignId)
    requires Inv(st) && id in st.campaigns
    ensures AllowedCampaign(st, id, st.campaigns[id])
  {
    StoredOk(st, id);
  }

  /** A requested move writes allowed entries, for any working copy of the record that could itself be written. */
  lemma {:induction false} MoveAllowed(st: StoreState, id: CampaignId, c: Campaign, to: UpgradeState, g: Guards)
    requires id in st.campaigns && AllowedCampaign(st, id, c)
    requires Permits(c.state, to, g) && c.state != to ==> GatesOk(Moved(c, to))
    ensures AllowedAll(st, MoveTrace(id, c, to, g))
    ensures AllowedCampaign(ApplyAll(st, MoveTrace(id, c, to, g)), id, MoveResult(c, to, g))
  {
    var t := MoveTrace(id, c, to, g);
    MoveEffect(st, id, c, to, g);
    if !Permits(c.state, to, g) {
      assert t[1..] == [];
    } else if c.state != to {
      var d := Moved(c, to);
      NoReturnToForward(c.state, to, g);
      assert AllowedCampaign(st, id, d);
      assert t[1..] == [t[1]] && t[1..][1..] == [];
      assert AllowedAll(Apply(st, t[0]), t[1..]);
    }
  }

  // ---- attempts -----------------------------------------------------------------------------------------------

  /** An attempt that is not verified, or whose campaign left the forward side, may change as long as nothing the ledger
      relies on is undone. */
  lemma AttemptChange(st: StoreState, k: Key, b: Attempt)
    requires Inv(st) && k in st.attempts && !st.campaigns[k.campaign].state.Completed?
    requires b.generation == st.attempts[k].generation && b.owner <= st.incarnation
    requires EdgeOk(st.attempts[k], b)
    requires !st.attempts[k].state.AttVerified? || !Forward(st.campaigns[k.campaign].state)
    requires Forward(st.campaigns[k.campaign].state) ==> !b.state.AttRollingBack? && !b.state.AttRolledBack?
    requires ShowsActivation(b.state) ==> b.activationObserved
    requires b.state.AttVerified? ==> Same(b.observedVersion, st.campaigns[k.campaign].artifact.version)
    requires b.state.AttRollingBack? ==> CanRollBack(st.attempts[k].state) && st.attempts[k].activationObserved
    ensures AllowedAttempt(st, k, b)
  {
    StoredAttempt(st, k);
  }

  lemma SingleAllowed(st: StoreState, e: Entry)
    requires Allowed(st, e)
    ensures AllowedAll(st, [e]) && ApplyAll(st, [e]) == Apply(st, e)
  {
    assert [e][1..] == [];
    assert AllowedAll(Apply(st, e), []);
  }

  lemma {:induction false} ConsAllowed(st: StoreState, e: Entry, rest: seq<Entry>)
    requires Allowed(st, e) && AllowedAll(Apply(st, e), rest)
    ensures AllowedAll(st, [e] + rest) && ApplyAll(st, [e] + rest) == ApplyAll(Apply(st, e), rest)
  {
    assert ([e] + rest)[1..] == rest;
  }

  /** A stage that still holds an attempt in motion is the active one and is not complete. */
  lemma MovingStage(st: StoreState, k: Key)
    requires Inv(st) && k in st.attempts && Forward(st.campaigns[k.campaign].state)
    requires !st.attempts[k].state.AttVerified?
    ensures var c := st.campaigns[k.campaign];
            k.stage == c.active && c.active < |c.progress| && !c.progress[c.active].StageCompleted?
  {
    StoredAttempt(st, k);
    assert CampaignOk(st.campaigns[k.campaign]);
  }

  // ---- commits ------------------------------------------------------------------------------------------------

  lemma {:induction false} FailAllowed(st: StoreState, env: Env, id: CampaignId)
    requires Inv(st) && id in st.campaigns
    ensures AllowedAll(st, FailTrace(st, env, id, st.campaigns[id]))
  {
    hide Inv, AllowedAll, MoveTrace, GuardsOf;
    var c1 := st.campaigns[id].(failureRecorded := true);
    RecordAllowed(st, id);
    assert AllowedCampaign(st, id, c1);
    MoveAllowed(st, id, c1, if c1.state.Proposed? then Blocked else Failed,
                GuardsOf(st, env, id, c1).(failureRecorded := true));
  }

  lemma {:induction false} BlockAllowed(st: StoreState, env: Env, id: CampaignId, c: Campaign)
    requires Inv(st) && id in st.campaigns && AllowedCampaign(st, id, c)
    ensures AllowedAll(st, BlockTrace(st, env, id, c))
  {
    hide Inv, AllowedAll, MoveTrace, GuardsOf;
    MoveAllowed(st, id, c, Blocked, GuardsOf(st, env, id, c).(failureRecorded := true));
  }

  /** An allowed attempt write, and where it leaves the section. */
  lemma AttemptWrite(st: StoreState, k: Key, b: Attempt)
    requires Inv(st) && AllowedAttempt(st, k, b)
    ensures Inv(Apply(st, AttemptEntry(k, b)))
    ensures AllowedCampaign(Apply(st, AttemptEntry(k, b)), k.campaign, st.campaigns[k.campaign])
  {
    AllowedKeepsInv(st, AttemptEntry(k, b));
    RecordAllowed(Apply(st, AttemptEntry(k, b)), k.campaign);
  }

  /** The failure path of every commit. */
  lemma {:induction false} FailCommitAllowed(st: StoreState, env: Env, item: Item)
    requires Inv(st) && FenceOk(st, item)
    ensures var w := AttemptEntry(KeyOf(item), st.attempts[KeyOf(item)].(state := AttFailed));
            AllowedAll(st, [w] + FailTrace(Apply(st, w), env, item.campaign, st.campaigns[item.campaign]))
  {
    hide Inv, AllowedAll, FailTrace, ApplyAll;
    var k, id := KeyOf(item), item.campaign;
    StoredAttempt(st, k);
    var b := st.attempts[k].(state := AttFailed);
    AttemptChange(st, k, b);
    AttemptWrite(st, k, b);
    FailAllowed(Apply(st, AttemptEntry(k, b)), env, id);
    ConsAllowed(st, AttemptEntry(k, b), FailTrace(Apply(st, AttemptEntry(k, b)), env, id, st.campaigns[id]));
  }

  lemma {:induction false} AfterPreparedAllowed(st: StoreState, env: Env, id: CampaignId, stage: nat)
    requires Inv(st) && id in st.campaigns && (st.campaigns[id].state.Prepared? || st.campaigns[id].state.Staged?)
    requires var c := st.campaigns[id];
             stage == c.active && c.active < |c.progress| && !c.progress[c.active].StageCompleted?
    ensures AllowedAll(st, AfterPrepared(st, env, id, st.campaigns[id], stage))
  {
    hide Inv, AllowedAll, StageIt, ApplyAll;
    EmptyAllowed(st);
    var c := st.campaigns[id];
    var c1 := c.(progress := c.progress[stage := StagePrepared]);
    var w := CampaignEntry(id, c1);
    StoredOk(st, id);
    assert AllowedCampaign(st, id, c1);
    AllowedKeepsInv(st, w);
    StageItAllowed(Apply(st, w), env, id);
    ConsAllowed(st, w, StageIt(Apply(st, w), env, id, c1));
  }

  lemma {:induction false} StageItAllowed(st: StoreState, env: Env, id: CampaignId)
    requires Inv(st) && id in st.campaigns && (st.campaigns[id].state.Prepared? || st.campaigns[id].state.Staged?)
    ensures AllowedAll(st, StageIt(st, env, id, st.campaigns[id]))
  {
    hide Inv, AllowedAll, MoveTrace, GuardsOf;
    EmptyAllowed(st);
    var c := st.campaigns[id];
    RecordAllowed(st, id);
    if c.state.Prepared? { MoveAllowed(st, id, c, Staged, GuardsOf(st, env, id, c).(stagingComplete := true)); }
  }

  lemma {:induction false} CommitPrepareAllowed(st: StoreState, env: Env, item: Item, r: Report)
    requires Inv(st) && FenceOk(st, item) && item.kind.Prepare?
    ensures AllowedAll(st, CommitPrepare(st, env, item, r))
  {
    hide Inv, AllowedAll, AfterPrepared, FailTrace, ApplyAll;
    if !r.prepared {
      FailCommitAllowed(st, env, item);
    } else {
      var k := KeyOf(item);
      StoredAttempt(st, k);
      var b := st.attempts[k].(state := AttPrepared);
      AttemptChange(st, k, b);
      AttemptWrite(st, k, b);
      MovingStage(st, k);
      var st1 := Apply(st, AttemptEntry(k, b));
      AfterPreparedAllowed(st1, env, item.campaign, item.stage);
      ConsAllowed(st, AttemptEntry(k, b), AfterPrepared(st1, env, item.campaign, st.campaigns[item.campaign], item.stage));
    }
  }

  // ---- activation ---------------------------------------------------------------------------------------------

  /** An outcome whose witness the attempt does not show has not been recorded yet. */
  lemma NotRecorded(st: StoreState, k: Key, o: Outcome)
    requires Inv(st) && (k in st.attempts ==> !Witnesses(o, st.attempts[k]))
    ensures Count(st.ledger, k, o) == 0
  {
    assert RecordedOnce(st, k, o);
  }

  /** An attempt write followed by the record of what it reached. */
  lemma RecordedWrite(st: StoreState, k: Key, b: Attempt, r: Provenance)
    requires Inv(st) && AllowedAttempt(st, k, b) && k in st.attempts
    requires r.key == k && Reached(r.outcome, b.state) && b.activationObserved
    requires !Witnesses(r.outcome, st.attempts[k]) && Ledger.IsSealed(st.config.digest, st.head, st.sequence, r)
    ensures var w := AttemptEntry(k, b);
            Allowed(st, w) && Allowed(Apply(st, w), LedgerEntry(r)) && Inv(Apply(Apply(st, w), LedgerEntry(r)))
  {
    var w := AttemptEntry(k, b);
    AllowedKeepsInv(st, w);
    NotRecorded(st, k, r.outcome);
    AllowedKeepsInv(Apply(st, w), LedgerEntry(r));
  }

  lemma TwoThen(st: StoreState, a: Entry, b: Entry, rest: seq<Entry>)
    requires Allowed(st, a) && Allowed(Apply(st, a), b) && AllowedAll(Apply(Apply(st, a), b), rest)
    ensures AllowedAll(st, [a] + ([b] + rest))
  {
    ConsAllowed(Apply(st, a), b, rest);
    ConsAllowed(st, a, [b] + rest);
  }

  lemma {:induction false} CheckMixAllowed(st: StoreState, env: Env, id: CampaignId, c: Campaign)
    requires Inv(st) && id in st.campaigns && AllowedCampaign(st, id, c) && (c.state.Staged? || c.state.Activating?)
    ensures AllowedAll(st, CheckMix(st, env, id, c))
  {
    hide Inv, AllowedAll, MoveTrace, GuardsOf, BlockTrace, SkewOk;
    EmptyAllowed(st);
    if !SkewOk(st, env, id, c) {
      BlockAllowed(st, env, id, c);
    } else if GuardsOf(st, env, id, c).activationComplete {
      MoveAllowed(st, id, c, Verifying, GuardsOf(st, env, id, c));
    }
  }

  lemma {:induction false} AfterActivatedAllowed(st: StoreState, env: Env, id: CampaignId)
    requires Inv(st) && id in st.campaigns && (st.campaigns[id].state.Staged? || st.campaigns[id].state.Activating?)
    ensures AllowedAll(st, AfterActivated(st, env, id, st.campaigns[id]))
  {
    hide Inv, AllowedAll, MoveTrace, GuardsOf, CheckMix, ApplyAll;
    var c := st.campaigns[id];
    RecordAllowed(st, id);
    if c.state.Staged? {
      var g := GuardsOf(st, env, id, c);
      EnterActivating(st, env, id, g);
    } else {
      CheckMixAllowed(st, env, id, c);
    }
  }

  lemma {:induction false} EnterActivating(st: StoreState, env: Env, id: CampaignId, g: Guards)
    requires Inv(st) && id in st.campaigns && st.campaigns[id].state.Staged?
    ensures var c := st.campaigns[id]; var t := MoveTrace(id, c, Activating, g);
            AllowedAll(st, t + CheckMix(ApplyAll(st, t), env, id, MoveResult(c, Activating, g)))
  {
    hide Inv, AllowedAll, CheckMix, MoveTrace, ApplyAll;
    var c := st.campaigns[id];
    var t := MoveTrace(id, c, Activating, g);
    RecordAllowed(st, id);
    MoveAllowed(st, id, c, Activating, g);
    MoveEffect(st, id, c, Activating, g);
    AllowedAllKeepsInv(st, t);
    CheckMixAllowed(ApplyAll(st, t), env, id, MoveResult(c, Activating, g));
    AllowedAllAppend(st, t, CheckMix(ApplyAll(st, t), env, id, MoveResult(c, Activating, g)));
  }

  lemma {:induction false} GateRefusalAllowed(st: StoreState, env: Env, item: Item)
    requires Inv(st) && FenceOk(st, item) && item.kind.Activate?
    ensures var w := AttemptEntry(KeyOf(item), st.attempts[KeyOf(item)].(state := AttPrepared));
            AllowedAll(st, [w] + (BlockTrace(Apply(st, w), env, item.campaign, st.campaigns[item.campaign]) +
                                  [DecisionEntry(item.campaign, Decision(DecBlock, Deny))]))
  {
    hide Inv, AllowedAll, BlockTrace, ApplyAll;
    var k, id := KeyOf(item), item.campaign;
    var b := st.attempts[k].(state := AttPrepared);
    StoredAttempt(st, k);
    AttemptChange(st, k, b);
    AttemptWrite(st, k, b);
    var st1 := Apply(st, AttemptEntry(k, b));
    var d := DecisionEntry(id, Decision(DecBlock, Deny));
    var t := BlockTrace(st1, env, id, st.campaigns[id]);
    BlockAllowed(st1, env, id, st.campaigns[id]);
    SingleAllowed(ApplyAll(st1, t), d);
    AllowedAllAppend(st1, t, [d]);
    ConsAllowed(st, AttemptEntry(k, b), t + [d]);
  }

  lemma {:induction false} ActivationAllowed(st: StoreState, env: Env, item: Item)
    requires Inv(st) && FenceOk(st, item) && item.kind.Activate?
    ensures var k, id := KeyOf(item), item.campaign;
            var w := AttemptEntry(k, st.attempts[k].(state := AttActivated, activationObserved := true));
            var l := LedgerEntry(RecordOf(st, env, item, Applied));
            AllowedAll(st, [w] + ([l] + AfterActivated(Apply(Apply(st, w), l), env, id, st.campaigns[id])))
  {
    hide Inv, AllowedAll, AfterActivated, ApplyAll;
    var k, id := KeyOf(item), item.campaign;
    var b := st.attempts[k].(state := AttActivated, activationObserved := true);
    var l := LedgerEntry(RecordOf(st, env, item, Applied));
    StoredAttempt(st, k);
    AttemptChange(st, k, b);
    RecordedWrite(st, k, b, l.record);
    var st2 := Apply(Apply(st, AttemptEntry(k, b)), l);
    AfterActivatedAllowed(st2, env, id);
    TwoThen(st, AttemptEntry(k, b), l, AfterActivated(st2, env, id, st.campaigns[id]));
  }

  lemma {:induction false} CommitActivateAllowed(st: StoreState, env: Env, item: Item, r: Report)
    requires Inv(st) && FenceOk(st, item) && item.kind.Activate?
    ensures AllowedAll(st, CommitActivate(st, env, item, r))
  {
    hide Inv, AllowedAll, AfterActivated, BlockTrace, FailTrace;
    if r.gateRefused { GateRefusalAllowed(st, env, item); }
    else if r.activated { ActivationAllowed(st, env, item); }
    else { FailCommitAllowed(st, env, item); }
  }

  // ---- verification -------------------------------------------------------------------------------------------

  lemma {:induction false} AfterStageAllowed(st: StoreState, env: Env, id: CampaignId, advanced: bool)
    requires Inv(st) && id in st.campaigns && (st.campaigns[id].state.Activating? || st.campaigns[id].state.Verifying?)
    ensures AllowedAll(st, AfterStage(st, env, id, st.campaigns[id], advanced))
  {
    hide Inv, AllowedAll, MoveTrace, ApplyAll;
    var c := st.campaigns[id];
    var g := GuardsOf(st, env, id, c);
    RecordAllowed(st, id);
    if advanced {
      MoveAllowed(st, id, c, Staged, g);
    } else {
      var t := MoveTrace(id, c, Completed, g);
      MoveAllowed(st, id, c, Completed, g);
      if Permits(c.state, Completed, g) {
        assert t + [] == t;
      } else {
        var d := DecisionEntry(id, Decision(DecVerify, Defer));
        SingleAllowed(ApplyAll(st, t), d);
        AllowedAllAppend(st, t, [d]);
      }
    }
  }

  /** Completing the active stage, once all its targets are verified, is an allowed write. */
  lemma {:induction false} StageCompletionAllowed(st: StoreState, id: CampaignId)
    requires Inv(st) && id in st.campaigns && (st.campaigns[id].state.Activating? || st.campaigns[id].state.Verifying?)
    requires var c := st.campaigns[id];
             c.active < |c.progress| && !c.progress[c.active].StageCompleted? && StageAll(st, id, c, c.active, {AttVerified})
    ensures AllowedCampaign(st, id, StageCompletedRecord(st.campaigns[id]))
  {
    hide Inv, ShapeOk, StageAll;
    StoredOk(st, id);
    CompletedShape(st.campaigns[id]);
  }

  lemma PendingAlready(p: seq<StageState>, i: nat)
    requires i < |p| && p[i].StagePending?
    ensures p[i := StagePending] == p
  {
  }

  /** Completing the active stage: what the progress and the active stage become. */
  lemma CompletedProgress(c: Campaign)
    requires ShapeOk(c) && c.active < |c.progress|
    ensures var d := StageCompletedRecord(c);
            d == c.(progress := c.progress[c.active := StageCompleted], active := d.active) &&
            d.active == if c.active + 1 < |c.progress| then c.active + 1 else c.active
  {
    var p := c.progress[c.active := StageCompleted];
    if c.active + 1 < |p| { PendingAlready(p, c.active + 1); }
  }

  lemma CompletedShape(c: Campaign)
    requires ShapeOk(c) && c.active < |c.progress|
    ensures ShapeOk(StageCompletedRecord(c))
  {
    hide StageCompletedRecord;
    CompletedProgress(c);
    var p := c.progress[c.active := StageCompleted];
    assert forall i :: 0 <= i <= c.active ==> p[i].StageCompleted?;
    assert forall i :: c.active < i < |p| ==> p[i].StagePending?;
  }

  lemma {:induction false} AfterVerifiedAllowed(st: StoreState, env: Env, id: CampaignId, stage: nat)
    requires Inv(st) && id in st.campaigns && (st.campaigns[id].state.Activating? || st.campaigns[id].state.Verifying?)
    requires var c := st.campaigns[id];
             stage == c.active && c.active < |c.progress| && !c.progress[c.active].StageCompleted?
    ensures AllowedAll(st, AfterVerified(st, env, id, st.campaigns[id], stage))
  {
    hide Inv, AllowedAll, AfterStage, ApplyAll;
    EmptyAllowed(st);
    var c := st.campaigns[id];
    if StageAll(st, id, c, stage, {AttVerified}) {
      StageCompletionAllowed(st, id);
      var c1 := StageCompletedRecord(c);
      var w := CampaignEntry(id, c1);
      AllowedKeepsInv(st, w);
      AfterStageAllowed(Apply(st, w), env, id, c1.active > c.active);
      ConsAllowed(st, w, AfterStage(Apply(st, w), env, id, c1, c1.active > c.active));
    }
  }

  /** Outstanding work belongs to a campaign and an attempt of the store: artifact and epoch are the campaign's, which
      never change, and the generation is one the campaign has or had. */
  predicate ItemOk(st: StoreState, item: Item) {
    item.campaign in st.campaigns && KeyOf(item) in st.attempts &&
    var c := st.campaigns[item.campaign];
    item.artifact == c.artifact && item.epoch == c.epoch && item.generation <= c.generation
  }

  lemma {:induction false} ConfirmationAllowed(st: StoreState, env: Env, item: Item, b: Attempt)
    requires Inv(st) && FenceOk(st, item) && item.kind.Verify? && ItemOk(st, item)
    requires b == st.attempts[KeyOf(item)].(state := AttVerified, evidenceAt := b.evidenceAt,
                                            evidenceValidity := b.evidenceValidity, observedVersion := b.observedVersion)
    requires Same(b.observedVersion, item.artifact.version)
    ensures var k, id := KeyOf(item), item.campaign;
            var w := AttemptEntry(k, b);
            var l := LedgerEntry(RecordOf(st, env, item, Confirmed));
            AllowedAll(st, [w] + ([l] + AfterVerified(Apply(Apply(st, w), l), env, id, st.campaigns[id], item.stage)))
  {
    hide Inv, AllowedAll, AfterVerified, ApplyAll;
    var k, id := KeyOf(item), item.campaign;
    var l := LedgerEntry(RecordOf(st, env, item, Confirmed));
    StoredAttempt(st, k);
    MovingStage(st, k);
    AttemptChange(st, k, b);
    RecordedWrite(st, k, b, l.record);
    var st2 := Apply(Apply(st, AttemptEntry(k, b)), l);
    AfterVerifiedAllowed(st2, env, id, item.stage);
    TwoThen(st, AttemptEntry(k, b), l, AfterVerified(st2, env, id, st.campaigns[id], item.stage));
  }

  lemma {:induction false} RetryAllowed(st: StoreState, item: Item)
    requires Inv(st) && FenceOk(st, item) && item.kind.Verify?
    ensures var a := st.attempts[KeyOf(item)];
            AllowedAll(st, [AttemptEntry(KeyOf(item), a.(state := AttActivated, retries := a.retries + 1))])
  {
    hide Inv, AllowedAll;
    var k := KeyOf(item);
    StoredAttempt(st, k);
    var b := st.attempts[k].(state := AttActivated, retries := st.attempts[k].retries + 1);
    AttemptChange(st, k, b);
    SingleAllowed(st, AttemptEntry(k, b));
  }

  lemma {:induction false} CommitVerifyAllowed(st: StoreState, env: Env, pol: Policy, item: Item, r: Report)
    requires Inv(st) && FenceOk(st, item) && item.kind.Verify? && ItemOk(st, item)
    ensures AllowedAll(st, CommitVerify(st, env, pol, item, r))
  {
    hide Inv, AllowedAll, AfterVerified, FailTrace, Fresh;
    var a := st.attempts[KeyOf(item)];
    if Succeeded(item.artifact, r.verify, r.health, env.now, st.incarnation, pol.requireHealth) {
      ConfirmationAllowed(st, env, item, a.(state := AttVerified, evidenceAt := r.verify.at,
                                            evidenceValidity := r.verify.validity, observedVersion := r.verify.version));
    } else if a.retries < pol.maxRetries {
      RetryAllowed(st, item);
    } else {
      FailCommitAllowed(st, env, item);
    }
  }

  // ---- rollback -----------------------------------------------------------------------------------------------

  lemma {:induction false} AfterRolledBackAllowed(st: StoreState, env: Env, id: CampaignId, g: Guards)
    requires Inv(st) && id in st.campaigns && st.campaigns[id].state.RollingBack?
    ensures var c1 := st.campaigns[id].(rollbackPerformed := true);
            AllowedAll(st, [CampaignEntry(id, c1)] + MoveTrace(id, c1, RolledBack, g))
  {
    hide Inv, AllowedAll, MoveTrace, ApplyAll;
    var c1 := st.campaigns[id].(rollbackPerformed := true);
    var w := CampaignEntry(id, c1);
    RecordAllowed(st, id);
    AllowedKeepsInv(st, w);
    RecordAllowed(Apply(st, w), id);
    MoveAllowed(Apply(st, w), id, c1, RolledBack, g);
    ConsAllowed(st, w, MoveTrace(id, c1, RolledBack, g));
  }

  lemma {:induction false} ReversionAllowed(st: StoreState, env: Env, item: Item)
    requires Inv(st) && FenceOk(st, item) && item.kind.Rollback?
    ensures var k, id := KeyOf(item), item.campaign;
            var w := AttemptEntry(k, st.attempts[k].(state := AttRolledBack));
            var l := LedgerEntry(RecordOf(st, env, item, Reverted));
            AllowedAll(st, [w] + ([l] + AfterRolledBack(Apply(Apply(st, w), l), env, id, st.campaigns[id])))
  {
    hide Inv, AllowedAll, NothingLeft, MoveTrace, ApplyAll, GuardsOf;
    var k, id := KeyOf(item), item.campaign;
    var b := st.attempts[k].(state := AttRolledBack);
    var l := LedgerEntry(RecordOf(st, env, item, Reverted));
    StoredAttempt(st, k);
    AttemptChange(st, k, b);
    RecordedWrite(st, k, b, l.record);
    var st2 := Apply(Apply(st, AttemptEntry(k, b)), l);
    if NothingLeft(st2, id) { AfterRolledBackAllowed(st2, env, id, GuardsOf(st2, env, id, st.campaigns[id])); }
    TwoThen(st, AttemptEntry(k, b), l, AfterRolledBack(st2, env, id, st.campaigns[id]));
  }

  lemma {:induction false} CommitRollbackAllowed(st: StoreState, env: Env, item: Item, r: Report)
    requires Inv(st) && FenceOk(st, item) && item.kind.Rollback?
    ensures AllowedAll(st, CommitRollback(st, env, item, r))
  {
    hide Inv, AllowedAll, AfterRolledBack, FailTrace;
    if r.rolledBack { ReversionAllowed(st, env, item); } else { FailCommitAllowed(st, env, item); }
  }

  /** Whatever comes back for outstanding work, the commit writes allowed entries only. */
  lemma {:induction false} CommitAllowed(st: StoreState, env: Env, pol: Policy, item: Item, r: Report)
    requires Inv(st) && ItemOk(st, item)
    ensures AllowedAll(st, CommitTrace(st, env, pol, item, r))
  {
    if !FenceOk(st, item) {
      SingleAllowed(st, DecisionEntry(item.campaign, Decision(DecFence, Deny)));
    } else {
      match item.kind
      case Prepare => CommitPrepareAllowed(st, env, item, r);
      case Activate => CommitActivateAllowed(st, env, item, r);
      case Verify => CommitVerifyAllowed(st, env, pol, item, r);
      case Rollback => CommitRollbackAllowed(st, env, item, r);
    }
  }
}
