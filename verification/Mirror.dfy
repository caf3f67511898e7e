/** The live maps against what a replay of the journal rebuilds, after every single write. */
module Mirror {
  import opened Lifecycle
  import opened Records
  import opened Store
  import opened Protocol
  import opened Invariants

  // ---- the store on its own -----------------------------------------------------------------------------------

  predicate Suffix<T(==)>(a: seq<T>, b: seq<T>) { |a| <= |b| && b[|b| - |a|..] == a }

  /** The live store and the replayed one agree on campaigns, ledger with its head and sequence, epoch, incarnation and every attempt that can be
      read back; a live decision list is the tail of the replayed one. */
  ghost predicate Mirrors(live: StoreState, replayed: StoreState) {
    live.campaigns == replayed.campaigns && live.ledger == replayed.ledger && live.head == replayed.head &&
    live.sequence == replayed.sequence && live.epoch == replayed.epoch &&
    live.incarnation == replayed.incarnation && live.config == replayed.config &&
    (forall k :: k in live.attempts && Reloadable(live.attempts[k]) ==>
       k in replayed.attempts && replayed.attempts[k] == live.attempts[k]) &&
    (forall k :: k in replayed.attempts ==> k in live.attempts && Reloadable(replayed.attempts[k])) &&
    Trails(live, replayed)
  }

  /** Every live decision list is the tail of the replayed one. */
  ghost predicate Trails(live: StoreState, replayed: StoreState) {
    forall id :: id in live.decisions ==> Suffix(live.decisions[id], DecisionsOf(replayed, id))
  }

  lemma PushedSuffix(a: seq<Decision>, b: seq<Decision>, d: Decision, bound: nat)
    requires Suffix(a, b)
    ensures Suffix(PushBounded(a, d, bound), b + [d])
  {
    var p := PushBounded(a, d, bound);
    var tail := (b + [d])[|b| + 1 - |p|..];
    assert |tail| == |p|;
    forall i | 0 <= i < |p| ensures tail[i] == p[i] {
      if i < |p| - 1 {
        assert b[|b| - |a|..][i + |a| + 1 - |p|] == a[i + |a| + 1 - |p|];
      }
    }
  }

  /** One write keeps the live store and the replayed one in agreement. */
  lemma MirrorsStep(live: StoreState, replayed: StoreState, e: Entry)
    requires Mirrors(live, replayed) && !e.SnapshotEntry?
    ensures Mirrors(Apply(live, e), Reload(replayed, e))
  {
    hide Trails;
    TrailsStep(live, replayed, e);
  }

  lemma TrailsStep(live: StoreState, replayed: StoreState, e: Entry)
    requires Trails(live, replayed) && !e.SnapshotEntry?
    ensures Trails(Apply(live, e), Reload(replayed, e))
  {
    hide Suffix, PushBounded;
    if e.DecisionEntry? { DecisionTrails(live, replayed, e.subject, e.decision); }
  }

  lemma DecisionTrails(live: StoreState, replayed: StoreState, id: CampaignId, d: Decision)
    requires Trails(live, replayed)
    ensures Suffix(PushBounded(DecisionsOf(live, id), d, live.config.decisions), DecisionsOf(replayed, id) + [d])
  {
    hide PushBounded;
    assert DecisionsOf(live, id) == [] || Suffix(DecisionsOf(live, id), DecisionsOf(replayed, id));
    PushedSuffix(DecisionsOf(live, id), DecisionsOf(replayed, id), d, live.config.decisions);
  }

  /** The entries that single writes append; snapshots are written by compaction only. */
  predicate Written(es: seq<Entry>) { forall e :: e in es ==> !e.SnapshotEntry? }

  lemma {:induction false} MirrorsAll(live: StoreState, replayed: StoreState, es: seq<Entry>)
    requires Mirrors(live, replayed) && Written(es)
    ensures Mirrors(ApplyAll(live, es), ReloadAll(replayed, es))
    decreases |es|
  {
    hide Mirrors;
    if es != [] {
      MirrorsStep(live, replayed, es[0]);
      MirrorsAll(Apply(live, es[0]), Reload(replayed, es[0]), es[1..]);
    }
  }

  lemma {:induction false} ReplayedReloadable(st: StoreState, es: seq<Entry>)
    requires forall k :: k in st.attempts ==> Reloadable(st.attempts[k])
    ensures forall k :: k in ReloadAll(st, es).attempts ==> Reloadable(ReloadAll(st, es).attempts[k])
    decreases |es|
  {
    if es != [] { ReplayedReloadable(Reload(st, es[0]), es[1..]); }
  }

  lemma ItselfMirrors(st: StoreState)
    requires forall k :: k in st.attempts ==> Reloadable(st.attempts[k])
    ensures Mirrors(st, st)
  {
    forall id | id in st.decisions ensures Suffix(st.decisions[id], DecisionsOf(st, id)) {
      assert st.decisions[id][0..] == st.decisions[id];
    }
  }

  /** A store opened on any journal and then written to, one entry after another: after every write the journal replays to
      what the live maps hold. */
  lemma {:induction false} EveryPrefixReplays(log: seq<Entry>, config: Config, writes: seq<Entry>, n: nat)
    requires Written(writes) && n <= |writes|
    ensures Mirrors(ApplyAll(Replay(log, config), writes[..n]), Replay(log + writes[..n], config))
  {
    ReplayedReloadable(EmptyStore(config), log);
    var st := Replay(log, config);
    ItselfMirrors(st);
    MirrorsAll(st, st, writes[..n]);
    ReloadAllAppend(EmptyStore(config), log, writes[..n]);
  }

  // ---- the store under the engine -----------------------------------------------------------------------------

  /** Where the two differ: the attempt is rolling back, and its last readable record shows an activation. */
  predicate Lagging(live: Attempt, replayed: Attempt) {
    !Reloadable(live) && CanRollBack(replayed.state) && replayed.activationObserved
  }

  /** `Mirrors`, and moreover every live attempt is either read back exactly or lagging. */
  ghost predicate Agree(live: StoreState, replayed: StoreState) {
    Mirrors(live, replayed) &&
    forall k :: k in live.attempts ==>
      k in replayed.attempts &&
      (replayed.attempts[k] == live.attempts[k] || Lagging(live.attempts[k], replayed.attempts[k]))
  }

  lemma AgreeStep(live: StoreState, replayed: StoreState, e: Entry)
    requires Inv(live) && Agree(live, replayed) && Allowed(live, e)
    ensures Agree(Apply(live, e), Reload(replayed, e))
  {
    hide Mirrors, Inv;
    MirrorsStep(live, replayed, e);
    MirrorKeys(live, replayed);
  }

  lemma MirrorKeys(live: StoreState, replayed: StoreState)
    requires Mirrors(live, replayed)
    ensures forall k :: k in replayed.attempts ==> k in live.attempts
    ensures live.campaigns == replayed.campaigns && live.incarnation == replayed.incarnation
    ensures live.ledger == replayed.ledger && live.head == replayed.head && live.sequence == replayed.sequence
    ensures live.config == replayed.config
    ensures live.epoch == replayed.epoch
    ensures forall k :: k in replayed.attempts ==> Reloadable(replayed.attempts[k])
  {
  }

  lemma AttemptTransfer(live: StoreState, replayed: StoreState, k: Key, b: Attempt)
    requires Inv(live) && Agree(live, replayed) && AllowedAttempt(live, k, b) && Reloadable(b)
    ensures AllowedAttempt(replayed, k, b)
  {
    hide Mirrors, AttemptOk;
    MirrorKeys(live, replayed);
    if k in live.attempts { assert AttemptIn(live, k); LaggingEdge(live, replayed, k, b); }
  }

  lemma LaggingEdge(live: StoreState, replayed: StoreState, k: Key, b: Attempt)
    requires Inv(live) && Agree(live, replayed) && k in live.attempts && EdgeOk(live.attempts[k], b)
    ensures k in replayed.attempts && EdgeOk(replayed.attempts[k], b)
  {
    hide Mirrors;
    assert AttemptIn(live, k);
  }

  lemma CampaignTransfer(live: StoreState, replayed: StoreState, id: CampaignId, d: Campaign)
    requires Agree(live, replayed) && AllowedCampaign(live, id, d)
    ensures AllowedCampaign(replayed, id, d)
  {
    hide Mirrors, CampaignOk, CampaignStep;
    MirrorKeys(live, replayed);
    if id in live.campaigns {
      var c := live.campaigns[id];
      if StageAll(live, id, c, c.active, {AttVerified}) {
        forall t | t in c.plan.stages[c.active].targets ensures Holding(replayed, Key(id, c.active, t), {AttVerified}) {
          assert Holding(live, Key(id, c.active, t), {AttVerified});
        }
      }
    }
  }

  lemma LedgerTransfer(live: StoreState, replayed: StoreState, r: Provenance)
    requires Agree(live, replayed) && AllowedLedger(live, r)
    ensures AllowedLedger(replayed, r)
  {
    hide Mirrors;
    MirrorKeys(live, replayed);
  }

  /** An entry that is allowed live is allowed for the replayed store too, unless it cannot be read back at all. */
  lemma Transfer(live: StoreState, replayed: StoreState, e: Entry)
    requires Inv(live) && Agree(live, replayed) && Allowed(live, e)
    ensures Allowed(replayed, e) || Reload(replayed, e) == replayed
  {
    hide Mirrors, Inv, AllowedCampaign, AllowedAttempt, AllowedLedger;
    MirrorKeys(live, replayed);
    match e
    case CampaignEntry(id, c) => CampaignTransfer(live, replayed, id, c);
    case AttemptEntry(k, a) => if Reloadable(a) { AttemptTransfer(live, replayed, k, a); }
    case LedgerEntry(r) => LedgerTransfer(live, replayed, r);
    case _ =>
  }

  /** What is known of a running store: the invariant live, the invariant of what a replay would rebuild, and their
      agreement. */
  ghost predicate Sound(live: StoreState, replayed: StoreState) { Inv(live) && Inv(replayed) && Agree(live, replayed) }

  lemma SoundStep(live: StoreState, replayed: StoreState, e: Entry)
    requires Sound(live, replayed) && Allowed(live, e)
    ensures Sound(Apply(live, e), Reload(replayed, e))
  {
    hide Inv, Agree, Allowed;
    AgreeStep(live, replayed, e);
    Transfer(live, replayed, e);
    AllowedKeepsInv(live, e);
    if Allowed(replayed, e) { AllowedKeepsInv(replayed, e); }
  }

  /** After any prefix of an allowed section: the store is sound, live and replayed. This is what a crash leaves. */
  lemma {:induction false} SoundAfter(live: StoreState, log: seq<Entry>, config: Config, es: seq<Entry>, n: nat)
    requires Sound(live, Replay(log, config)) && AllowedAll(live, es) && n <= |es|
    ensures Sound(ApplyAll(live, es[..n]), Replay(log + es[..n], config))
    decreases n
  {
    hide Sound, Allowed;
    if n == 0 {
      assert log + es[..0] == log;
    } else {
      var e := es[0];
      SoundStep(live, Replay(log, config), e);
      ReplayPush(log, config, e);
      SoundAfter(Apply(live, e), log + [e], config, es[1..], n - 1);
      assert es[..n][1..] == es[1..][..n - 1];
      assert log + [e] + es[1..][..n - 1] == log + es[..n];
    }
  }
}
