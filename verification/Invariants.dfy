/** The state the protocol keeps in the journal, stated write by write. `Allowed` says which single journal entry may
    follow a given state; `Inv` is what every allowed entry keeps. Because it is kept by every entry and not just by whole
    sections, it holds of every prefix of the journal and so of whatever a crash leaves behind. */
module Invariants {
  import opened Lifecycle
  import opened Skew
  import opened Records
  import opened Store
  import opened Protocol
  import Ledger

  // ---- one campaign -------------------------------------------------------------------------------------------

  /** Stages before the active one are complete, stages after it are untouched. */
  predicate ShapeOk(c: Campaign) {
    |c.progress| == |c.plan.stages| &&
    (c.active < |c.progress| || (c.active == 0 && c.progress == [])) &&
    (forall i :: 0 <= i < c.active && i < |c.progress| ==> c.progress[i].StageCompleted?) &&
    (forall i :: c.active < i < |c.progress| ==> c.progress[i].StagePending?) &&
    (c.active < |c.progress| ==>
       c.progress[c.active].StagePending? || c.progress[c.active].StagePrepared? || c.progress[c.active].StageCompleted?)
  }

  /** Execution needs a recorded rollback plan, which needs an executable plan and acknowledged irreversible steps; the
      rollback side needs a reversible artifact; completion needs every stage complete. */
  predicate GatesOk(c: Campaign) {
    (c.rollbackRecorded ==> c.plan.executable && (c.plan.irreversible ==> c.acknowledged)) &&
    (c.state.Prepared? || c.state.Staged? || c.state.Activating? || c.state.Verifying? || c.state.Completed? ==>
       c.rollbackRecorded) &&
    (c.state.RollbackPlanned? || c.state.RollingBack? || c.state.RolledBack? ==> c.artifact.reversible) &&
    (c.state.Completed? ==> c.progress != [] && forall i :: 0 <= i < |c.progress| ==> c.progress[i].StageCompleted?)
  }

  predicate CampaignOk(c: Campaign) { ShapeOk(c) && GatesOk(c) }

  // ---- one attempt --------------------------------------------------------------------------------------------

  predicate ShowsActivation(s: AttemptState) {
    s.AttActivated? || s.AttVerifying? || s.AttVerified? || s.AttRollingBack? || s.AttRolledBack?
  }

  /** The target has not been touched yet. */
  predicate Early(s: AttemptState) { s.AttCreated? || s.AttPreparing? || s.AttPrepared? || s.AttActivating? }

  /** The attempt can never be verified (again). */
  predicate Settled(s: AttemptState) {
    s.AttVerified? || s.AttRollingBack? || s.AttRolledBack? || s.AttFailed? || s.AttAbandoned? || s.AttAborted?
  }

  /** While the campaign is on the forward side, no attempt lies beyond the active stage, none has been rolled back, and a
      completed stage holds verified attempts only. */
  predicate InStep(c: Campaign, k: Key, a: Attempt) {
    k.stage <= c.active && !a.state.AttRollingBack? && !a.state.AttRolledBack? &&
    (k.stage < |c.progress| && c.progress[k.stage].StageCompleted? ==> a.state.AttVerified?)
  }

  predicate AttemptOk(c: Campaign, k: Key, a: Attempt) {
    Planned(c, k.stage, k.target) && c.rollbackRecorded && a.generation <= c.generation &&
    (Forward(c.state) ==> InStep(c, k, a)) &&
    (ShowsActivation(a.state) ==> a.activationObserved) &&
    (a.state.AttVerified? ==> Same(a.observedVersion, c.artifact.version))
  }

  /** How an attempt may change under one key, as far as the ledger is concerned: facts already recorded are not undone. */
  predicate EdgeOk(a: Attempt, b: Attempt) {
    (a.activationObserved ==> b.activationObserved) &&
    (!Early(a.state) ==> !Early(b.state)) &&
    (Settled(a.state) ==> Settled(b.state)) &&
    (a.state.AttRolledBack? ==> b.state.AttRolledBack?)
  }

  // ---- the ledger ---------------------------------------------------------------------------------------------

  function Count(ledger: seq<Provenance>, k: Key, o: Outcome): nat
    decreases |ledger|
  {
    if ledger == [] then 0
    else Count(ledger[..|ledger| - 1], k, o) +
         (if ledger[|ledger| - 1].key == k && ledger[|ledger| - 1].outcome == o then 1 else 0)
  }

  lemma CountPush(ledger: seq<Provenance>, r: Provenance, k: Key, o: Outcome)
    ensures Count(ledger + [r], k, o) == Count(ledger, k, o) + (if r.key == k && r.outcome == o then 1 else 0)
  {
    assert (ledger + [r])[..|ledger + [r]| - 1] == ledger;
  }

  /** What a recorded outcome says about the attempt it was recorded for. */
  predicate Witnesses(o: Outcome, a: Attempt) {
    match o
    case Applied => a.activationObserved && !Early(a.state)
    case Confirmed => Settled(a.state)
    case Reverted => a.state.AttRolledBack?
    case _ => false
  }

  /** Each outcome is recorded at most once per attempt, and never for an attempt that could still reach it again. */
  ghost predicate RecordedOnce(st: StoreState, k: Key, o: Outcome) {
    Count(st.ledger, k, o) <= 1 &&
    (Count(st.ledger, k, o) == 1 ==> k in st.attempts && Witnesses(o, st.attempts[k]))
  }

  ghost predicate LedgerOk(st: StoreState) { forall k, o :: RecordedOnce(st, k, o) }

  // ---- the store ----------------------------------------------------------------------------------------------

  /** A completed stage has an attempt for each of its targets. */
  ghost predicate StagesDone(st: StoreState, id: CampaignId, c: Campaign) {
    forall i, t :: 0 <= i < |c.progress| && c.progress[i].StageCompleted? && Planned(c, i, t) ==> Key(id, i, t) in st.attempts
  }

  ghost predicate CampaignsOk(st: StoreState) {
    forall id :: id in st.campaigns ==> CampaignOk(st.campaigns[id]) && StagesDone(st, id, st.campaigns[id])
  }

  predicate AttemptIn(st: StoreState, k: Key) {
    k in st.attempts && k.campaign in st.campaigns && AttemptOk(st.campaigns[k.campaign], k, st.attempts[k]) &&
    st.attempts[k].owner <= st.incarnation
  }

  ghost predicate AttemptsOk(st: StoreState) { forall k :: k in st.attempts ==> AttemptIn(st, k) }

  ghost predicate Inv(st: StoreState) { CampaignsOk(st) && AttemptsOk(st) && LedgerOk(st) && Ledger.Verifies(st.config.digest, st.ledger, st.head, st.sequence) }

  lemma EmptyStoreIsOk(config: Config)
    ensures Inv(EmptyStore(config))
  {
    Ledger.NothingVerifies(config.digest);
  }

  // ---- single writes ------------------------------------------------------------------------------------------

  /** How a campaign record may change, apart from its stage progress. */
  predicate CampaignStep(c: Campaign, d: Campaign) {
    d.plan == c.plan && d.artifact == c.artifact && d.epoch == c.epoch && c.generation <= d.generation &&
    (c.rollbackRecorded ==> d.rollbackRecorded) && (Forward(d.state) ==> Forward(c.state)) &&
    (Terminal(c.state) ==> d.state == c.state)
  }

  /** How stage progress may change: not at all, the active stage becomes prepared, or the active stage completes because
      all its targets are verified. */
  predicate ProgressStep(st: StoreState, id: CampaignId, c: Campaign, d: Campaign) {
    (d.progress == c.progress && d.active == c.active) ||
    (c.active < |c.progress| && !c.progress[c.active].StageCompleted? && !Terminal(c.state) &&
     d.active == c.active && d.progress == c.progress[c.active := StagePrepared]) ||
    (c.active < |c.progress| && Forward(c.state) && !Terminal(c.state) &&
     StageAll(st, id, c, c.active, {AttVerified}) &&
     d.progress == StageCompletedRecord(c).progress && d.active == StageCompletedRecord(c).active)
  }

  predicate AllowedCampaign(st: StoreState, id: CampaignId, d: Campaign) {
    CampaignOk(d) &&
    (if id in st.campaigns then CampaignStep(st.campaigns[id], d) && ProgressStep(st, id, st.campaigns[id], d)
     else d.state.Proposed? && forall i :: 0 <= i < |d.progress| ==> d.progress[i].StagePending?)
  }

  predicate CanRollBack(s: AttemptState) { s.AttVerified? || s.AttActivated? || s.AttFailed? }

  predicate AllowedAttempt(st: StoreState, k: Key, b: Attempt) {
    k.campaign in st.campaigns && !st.campaigns[k.campaign].state.Completed? &&
    AttemptOk(st.campaigns[k.campaign], k, b) && b.owner <= st.incarnation &&
    (if k in st.attempts
     then EdgeOk(st.attempts[k], b) &&
          (b.state.AttRollingBack? ==> CanRollBack(st.attempts[k].state) && st.attempts[k].activationObserved)
     else b.state.AttPreparing?)
  }

  predicate Reached(o: Outcome, s: AttemptState) {
    match o
    case Applied => s.AttActivated?
    case Confirmed => s.AttVerified?
    case Reverted => s.AttRolledBack?
    case _ => false
  }

  /** An outcome is recorded right after the attempt reached it, only if it was not recorded before, and linked to the head. */
  predicate AllowedLedger(st: StoreState, r: Provenance) {
    r.key in st.attempts && Reached(r.outcome, st.attempts[r.key].state) && st.attempts[r.key].activationObserved &&
    Count(st.ledger, r.key, r.outcome) == 0 && Ledger.IsSealed(st.config.digest, st.head, st.sequence, r)
  }

  predicate Allowed(st: StoreState, e: Entry) {
    match e
    case CampaignEntry(id, c) => AllowedCampaign(st, id, c)
    case AttemptEntry(k, a) => AllowedAttempt(st, k, a)
    case LedgerEntry(r) => AllowedLedger(st, r)
    case DecisionEntry(_, _) => true
    case EpochEntry(n) => n > st.epoch
    case BootEntry(n) => n > st.incarnation
    case SnapshotEntry(_, _, _, _, _, _, _) => false
    case ShutdownEntry => true
  }

  /** Each entry of a trace is allowed in the state the entries before it lead to. */
  predicate AllowedAll(st: StoreState, es: seq<Entry>)
    decreases |es|
  {
    es == [] || (Allowed(st, es[0]) && AllowedAll(Apply(st, es[0]), es[1..]))
  }

  lemma {:induction false} AllowedAllAppend(st: StoreState, p: seq<Entry>, q: seq<Entry>)
    requires AllowedAll(st, p) && AllowedAll(ApplyAll(st, p), q)
    ensures AllowedAll(st, p + q)
    decreases |p|
  {
    if p == [] {
      assert p + q == q;
    } else {
      assert (p + q)[1..] == p[1..] + q;
      AllowedAllAppend(Apply(st, p[0]), p[1..], q);
    }
  }

  // ---- every allowed write keeps the invariant ----------------------------------------------------------------

  /** A completed stage stays completed or became so with all targets verified. */
  lemma CompletedStages(st: StoreState, id: CampaignId, d: Campaign, i: nat, t: TargetId)
    requires Inv(st) && AllowedCampaign(st, id, d)
    requires i < |d.progress| && d.progress[i].StageCompleted? && Planned(d, i, t)
    ensures Key(id, i, t) in st.attempts
    ensures id in st.campaigns && Planned(st.campaigns[id], i, t)
    ensures Forward(st.campaigns[id].state) ==> st.attempts[Key(id, i, t)].state.AttVerified?
  {
    var c := st.campaigns[id];
    var k := Key(id, i, t);
    assert CampaignOk(c) && StagesDone(st, id, c);
    if c.progress[i].StageCompleted? {
      assert AttemptIn(st, k);
    } else {
      assert i == c.active && StageAll(st, id, c, c.active, {AttVerified});
      assert Holding(st, k, {AttVerified});
    }
  }

  /** An attempt in step with a campaign record is in step with the next one. */
  lemma AttemptSurvives(st: StoreState, id: CampaignId, d: Campaign, k: Key)
    requires Inv(st) && AllowedCampaign(st, id, d) && k in st.attempts && k.campaign == id
    ensures AttemptOk(d, k, st.attempts[k])
  {
    assert AttemptIn(st, k);
    var c, a := st.campaigns[id], st.attempts[k];
    assert CampaignOk(c);
    if Forward(d.state) {
      assert InStep(c, k, a);
      assert c.active <= d.active;
      if k.stage < |d.progress| && d.progress[k.stage].StageCompleted? {
        CompletedStages(st, id, d, k.stage, k.target);
        assert k == Key(id, k.stage, k.target);
      }
    }
  }

  lemma CampaignWriteKeepsInv(st: StoreState, id: CampaignId, d: Campaign)
    requires Inv(st) && AllowedCampaign(st, id, d)
    ensures Inv(Apply(st, CampaignEntry(id, d)))
  {
    hide Ledger.Verifies;
    var post := Apply(st, CampaignEntry(id, d));
    forall x | x in post.campaigns ensures CampaignOk(post.campaigns[x]) && StagesDone(post, x, post.campaigns[x]) {
      if x == id {
        forall i, t | 0 <= i < |d.progress| && d.progress[i].StageCompleted? && Planned(d, i, t)
          ensures Key(id, i, t) in post.attempts
        {
          CompletedStages(st, id, d, i, t);
        }
      } else {
        assert StagesDone(st, x, st.campaigns[x]);
      }
    }
    forall k | k in post.attempts ensures AttemptIn(post, k) {
      assert AttemptIn(st, k);
      if k.campaign == id { AttemptSurvives(st, id, d, k); }
    }
    forall k, o ensures RecordedOnce(post, k, o) { assert RecordedOnce(st, k, o); }
  }

  lemma AttemptWriteKeepsInv(st: StoreState, k: Key, b: Attempt)
    requires Inv(st) && AllowedAttempt(st, k, b)
    ensures Inv(Apply(st, AttemptEntry(k, b)))
  {
    hide Ledger.Verifies;
    var post := Apply(st, AttemptEntry(k, b));
    forall x | x in post.campaigns ensures CampaignOk(post.campaigns[x]) && StagesDone(post, x, post.campaigns[x]) {
      assert StagesDone(st, x, st.campaigns[x]);
    }
    forall q | q in post.attempts ensures AttemptIn(post, q) {
      if q != k { assert AttemptIn(st, q); }
    }
    forall q, o ensures RecordedOnce(post, q, o) { assert RecordedOnce(st, q, o); }
  }

  lemma LedgerWriteKeepsInv(st: StoreState, r: Provenance)
    requires Inv(st) && AllowedLedger(st, r)
    ensures Inv(Apply(st, LedgerEntry(r)))
  {
    hide Ledger.Verifies, Ledger.IsSealed;
    Ledger.VerifiesOn(st.config.digest, st.ledger, st.head, st.sequence, r);
    var post := Apply(st, LedgerEntry(r));
    forall x | x in post.campaigns ensures CampaignOk(post.campaigns[x]) && StagesDone(post, x, post.campaigns[x]) {
      assert StagesDone(st, x, st.campaigns[x]);
    }
    forall q | q in post.attempts ensures AttemptIn(post, q) { assert AttemptIn(st, q); }
    forall q, o ensures RecordedOnce(post, q, o) {
      assert RecordedOnce(st, q, o);
      CountPush(st.ledger, r, q, o);
    }
  }

  lemma QuietWriteKeepsInv(st: StoreState, e: Entry)
    requires Inv(st) && Allowed(st, e) && (e.DecisionEntry? || e.EpochEntry? || e.BootEntry? || e.ShutdownEntry?)
    ensures Inv(Apply(st, e)) && Inv(Reload(st, e))
  {
    hide Ledger.Verifies;
    forall post | post == Apply(st, e) || post == Reload(st, e) ensures Inv(post) {
      forall x | x in post.campaigns ensures CampaignOk(post.campaigns[x]) && StagesDone(post, x, post.campaigns[x]) {
        assert StagesDone(st, x, st.campaigns[x]);
      }
      forall q | q in post.attempts ensures AttemptIn(post, q) { assert AttemptIn(st, q); }
      forall q, o ensures RecordedOnce(post, q, o) { assert RecordedOnce(st, q, o); }
    }
  }

  /** The central step: an allowed entry keeps the invariant, whether it is applied or read back. */
  lemma AllowedKeepsInv(st: StoreState, e: Entry)
    requires Inv(st) && Allowed(st, e)
    ensures Inv(Apply(st, e)) && Inv(Reload(st, e))
  {
    hide Ledger.Verifies, Ledger.IsSealed;
    match e
    case CampaignEntry(id, c) => CampaignWriteKeepsInv(st, id, c);
    case AttemptEntry(k, a) => AttemptWriteKeepsInv(st, k, a);
    case LedgerEntry(r) => LedgerWriteKeepsInv(st, r);
    case DecisionEntry(_, _) => QuietWriteKeepsInv(st, e);
    case EpochEntry(n) => QuietWriteKeepsInv(st, e);
    case BootEntry(n) => QuietWriteKeepsInv(st, e);
    case ShutdownEntry => QuietWriteKeepsInv(st, e);
  }

  lemma {:induction false} AllowedAllKeepsInv(st: StoreState, es: seq<Entry>)
    requires Inv(st) && AllowedAll(st, es)
    ensures Inv(ApplyAll(st, es))
    decreases |es|
  {
    if es != [] {
      AllowedKeepsInv(st, es[0]);
      AllowedAllKeepsInv(Apply(st, es[0]), es[1..]);
    }
  }
}
