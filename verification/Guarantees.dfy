/** What the engine promises, over every run: any interleaving of sections, crashes and restarts from an empty journal. */
module Guarantees {
  import opened Lifecycle
  import opened Skew
  import opened Records
  import opened Store
  import opened Protocol
  import opened Commands
  import opened Invariants
  import opened Sections
  import opened CommandSections
  import opened Mirror
  import opened Work
  import opened Effects
  import opened Exclusive
  import opened Restart
  import opened Runs
  import opened DurableStores

  /** The store at some point of a run: what a running engine holds, or what a prefix of the journal replays to. */
  ghost predicate Seen(config: Config, events: seq<Event>, st: StoreState) {
    var n := RunAll(Down([], config), events);
    (n.Up? && st == n.live) || (exists m: nat :: m <= |n.log| && st == Replay(n.log[..m], ConfigOf(n)))
  }

  lemma SeenOk(config: Config, events: seq<Event>, st: StoreState)
    requires Seen(config, events, st)
    ensures Inv(st)
  {
    hide Inv, Replay, RunAll, ItemOk, Calm, Agree, TopEpoch;
    FirstNodeOk(config);
    EveryRunOk(Down([], config), events);
    var n := RunAll(Down([], config), events);
    if n.Up? && st == n.live {
    } else {
      var m: nat :| m <= |n.log| && st == Replay(n.log[..m], ConfigOf(n));
    }
  }

  // ---- what completed means -----------------------------------------------------------------------------------

  predicate VerifiedAt(st: StoreState, k: Key, artifact: Artifact) {
    k in st.attempts && st.attempts[k].state.AttVerified? && st.attempts[k].activationObserved &&
    Same(st.attempts[k].observedVersion, artifact.version)
  }

  /** Every stage is complete, and the attempts of the campaign are exactly one verified attempt per planned target, with
      the activation observed and the artifact's version seen live. */
  ghost predicate Delivered(st: StoreState, id: CampaignId, c: Campaign) {
    c.progress != [] && |c.progress| == |c.plan.stages| &&
    (forall i :: 0 <= i < |c.progress| ==> c.progress[i].StageCompleted?) &&
    (forall i, t :: Planned(c, i, t) ==> VerifiedAt(st, Key(id, i, t), c.artifact)) &&
    (forall k :: k in st.attempts && k.campaign == id ==> Planned(c, k.stage, k.target))
  }

  lemma CompletedDelivers(st: StoreState, id: CampaignId)
    requires Inv(st) && id in st.campaigns && st.campaigns[id].state.Completed?
    ensures Delivered(st, id, st.campaigns[id])
  {
    var c := st.campaigns[id];
    assert CampaignOk(c) && StagesDone(st, id, c);
    forall i: nat, t | Planned(c, i, t) ensures VerifiedAt(st, Key(id, i, t), c.artifact) {
      assert c.progress[i].StageCompleted?;
      assert AttemptIn(st, Key(id, i, t));
    }
    forall k | k in st.attempts && k.campaign == id ensures Planned(c, k.stage, k.target) { assert AttemptIn(st, k); }
  }

  /** At every point of every run, a completed campaign has delivered. */
  lemma CompletedMeansVerified(config: Config, events: seq<Event>, st: StoreState, id: CampaignId)
    requires Seen(config, events, st) && id in st.campaigns && st.campaigns[id].state.Completed?
    ensures Delivered(st, id, st.campaigns[id])
  {
    hide Inv, Seen, Delivered;
    SeenOk(config, events, st);
    CompletedDelivers(st, id);
  }

  // ---- exactly-once effects -----------------------------------------------------------------------------------

  /** At every point of every run, each outcome is recorded at most once for each campaign, stage and target, and whoever
      has it recorded has an attempt that bears it out. */
  lemma OutcomesAreRecordedOnce(config: Config, events: seq<Event>, st: StoreState, k: Key, o: Outcome)
    requires Seen(config, events, st)
    ensures Count(st.ledger, k, o) <= 1
    ensures Count(st.ledger, k, o) == 1 ==> k in st.attempts && Witnesses(o, st.attempts[k])
  {
    hide Seen;
    SeenOk(config, events, st);
    assert RecordedOnce(st, k, o);
  }

  // ---- gates --------------------------------------------------------------------------------------------------

  /** No attempt exists unless the plan is executable, a rollback plan is recorded and irreversible steps are
      acknowledged, and the attempt is one the plan asks for. */
  lemma ExecutionIsGated(config: Config, events: seq<Event>, st: StoreState, k: Key)
    requires Seen(config, events, st) && k in st.attempts
    ensures k.campaign in st.campaigns
    ensures var c := st.campaigns[k.campaign];
            c.plan.executable && c.rollbackRecorded && (c.plan.irreversible ==> c.acknowledged) &&
            Planned(c, k.stage, k.target)
  {
    hide Seen;
    SeenOk(config, events, st);
    assert AttemptIn(st, k);
    assert CampaignOk(st.campaigns[k.campaign]);
  }

  /** Only reversible artifacts are ever rolled back. */
  lemma RollbackIsGated(config: Config, events: seq<Event>, st: StoreState, id: CampaignId)
    requires Seen(config, events, st) && id in st.campaigns
    requires var s := st.campaigns[id].state; s.RollbackPlanned? || s.RollingBack? || s.RolledBack?
    ensures st.campaigns[id].artifact.reversible
  {
    hide Seen;
    SeenOk(config, events, st);
    assert CampaignOk(st.campaigns[id]);
  }

  // ---- volatile promises --------------------------------------------------------------------------------------

  lemma RunningCalm(config: Config, events: seq<Event>)
    ensures var n := RunAll(Down([], config), events);
            n.Up? ==> RunningOk(n.live, n.log, n.work, n.policy)
  {
    hide LogOk, RunningOk, RunAll;
    FirstNodeOk(config);
    EveryRunOk(Down([], config), events);
  }

  /** In a running engine at most one operation that touches a target is outstanding for its attempt. */
  lemma NoDoubleOperation(config: Config, events: seq<Event>, i: Item, j: Item)
    requires var n := RunAll(Down([], config), events);
             n.Up? && i in n.work && j in n.work && KeyOf(i) == KeyOf(j) && !i.kind.Prepare? && !j.kind.Prepare?
    ensures i == j && RunAll(Down([], config), events).work[i] == 1
  {
    hide WithinLimits, PausedIdle, Sound, ItemOk, RunAll;
    RunningCalm(config, events);
  }

  /** The activating attempts of a stage never exceed the smaller of the stage's and the policy's limit. */
  lemma ActivationIsBounded(config: Config, events: seq<Event>, id: CampaignId, s: nat)
    requires var n := RunAll(Down([], config), events);
             n.Up? && id in n.live.campaigns && s < |n.live.campaigns[id].plan.stages|
    ensures var n := RunAll(Down([], config), events);
            var activating := set k | k in n.live.attempts && k.campaign == id && k.stage == s &&
                                      n.live.attempts[k].state.AttActivating?;
            |activating| <= n.live.campaigns[id].plan.stages[s].maxParallel && |activating| <= n.policy.maxConcurrent
  {
    hide OneEach, PausedIdle, Sound, ItemOk, RunAll;
    RunningCalm(config, events);
    var n := RunAll(Down([], config), events);
    assert LimitHolds(n.live, n.policy, id, s);
    var activating := set k | k in n.live.attempts && k.campaign == id && k.stage == s &&
                              n.live.attempts[k].state.AttActivating?;
    assert activating == InStage(n.live, id, s, AttActivating);
  }

  /** A paused campaign of a running engine has nothing in flight. */
  lemma PausedMeansIdle(config: Config, events: seq<Event>, k: Key)
    requires var n := RunAll(Down([], config), events);
             n.Up? && k in n.live.attempts && k.campaign in n.live.campaigns && n.live.campaigns[k.campaign].state.Paused?
    ensures !InFlight(RunAll(Down([], config), events).live.attempts[k].state)
  {
    hide OneEach, WithinLimits, Sound, ItemOk, RunAll;
    RunningCalm(config, events);
  }

  // ---- the journal follows the live store ---------------------------------------------------------------------

  /** What a restart would rebuild agrees with the live store, up to attempts that are rolling back and to decisions that
      the live list no longer holds. */
  lemma JournalFollowsStore(config: Config, events: seq<Event>)
    ensures var n := RunAll(Down([], config), events);
            n.Up? ==> Agree(n.live, Replay(n.log, n.live.config))
  {
    hide Agree, Inv, Calm, ItemOk, RunAll;
    RunningCalm(config, events);
  }

  /** The recovery of the store, which corrects the replayed epoch by a backward scan, finds nothing to correct: on any journal
      a run can leave, cut anywhere, it is the plain replay. */
  lemma RecoveryIsReplay(config: Config, events: seq<Event>, m: nat)
    requires m <= |RunAll(Down([], config), events).log|
    ensures var n := RunAll(Down([], config), events);
            Recovered(n.log[..m], ConfigOf(n)) == Replay(n.log[..m], ConfigOf(n))
  {
    hide Inv, RunAll, Replay, ScanEpoch, RunningOk;
    FirstNodeOk(config);
    EveryRunOk(Down([], config), events);
    var n := RunAll(Down([], config), events);
    var log := n.log[..m];
    assert JournalOk(log, ConfigOf(n));
    forall e | e in log && (e.EpochEntry? || e.SnapshotEntry?) ensures e.epoch <= Replay(log, ConfigOf(n)).epoch {
      assert EpochOf(e) <= Replay(log, ConfigOf(n)).epoch;
    }
    ScanEpochMeets(log, 0, Replay(log, ConfigOf(n)).epoch);
  }

  // ---- what stays ---------------------------------------------------------------------------------------------

  /** Restarts of the run lose no record that was written. */
  ghost predicate Lossless(n: Node, events: seq<Event>)
    decreases |events|
  {
    events == [] ||
    ((events[0].Open? || events[0].CrashOpening? || events[0].Compact? ==> events[0].cut >= |n.log|) &&
     Lossless(Step(n, events[0]), events[1..]))
  }

  /** A finished campaign keeps its state, plan and artifact, and its attempts; a generation never goes back. */
  ghost predicate Keeps(st: StoreState, post: StoreState) {
    Follows(st, post) &&
    forall k :: k in st.attempts && k.campaign in st.campaigns && st.campaigns[k.campaign].state.Completed? ==>
      k in post.attempts && post.attempts[k] == st.attempts[k]
  }

  lemma KeepsTrans(a: StoreState, b: StoreState, c: StoreState)
    requires Keeps(a, b) && Keeps(b, c)
    ensures Keeps(a, c)
  {
  }

  lemma KeepsItself(st: StoreState)
    ensures Keeps(st, st)
  {
  }

  lemma KeepsStep(st: StoreState, e: Entry)
    requires Allowed(st, e)
    ensures Keeps(st, Reload(st, e))
  {
    hide Follows, CampaignOk, ProgressStep, AttemptOk, AllowedLedger;
    FollowsStep(st, e);
    if e.AttemptEntry? && !Reloadable(e.attempt) { KeepsItself(st); }
    ReloadedLike(st, e);
  }

  /** Reading an entry back differs from writing it in the decisions and in unreadable attempts only. */
  lemma ReloadedLike(st: StoreState, e: Entry)
    requires Allowed(st, e)
    requires Follows(st, Apply(st, e))
    ensures Follows(st, Reload(st, e))
  {
    hide CampaignOk, ProgressStep, AttemptOk, AllowedLedger, AllowedCampaign;
  }

  lemma {:induction false} KeepsAfter(live: StoreState, log: seq<Entry>, config: Config, es: seq<Entry>, n: nat)
    requires Sound(live, Replay(log, config)) && AllowedAll(live, es) && n <= |es|
    ensures Keeps(Replay(log, config), Replay(log + es[..n], config))
    decreases n
  {
    hide Inv, Agree, Allowed, Replay, Keeps;
    if n == 0 {
      assert log + es[..0] == log;
      KeepsItself(Replay(log, config));
    } else {
      var e := es[0];
      SoundStep(live, Replay(log, config), e);
      ReplayPush(log, config, e);
      Transfer(live, Replay(log, config), e);
      if Allowed(Replay(log, config), e) { KeepsStep(Replay(log, config), e); } else { KeepsItself(Replay(log, config)); }
      KeepsAfter(Apply(live, e), log + [e], config, es[1..], n - 1);
      assert es[..n][1..] == es[1..][..n - 1];
      assert log + [e] + es[1..][..n - 1] == log + es[..n];
      KeepsTrans(Replay(log, config), Replay(log + [e], config), Replay(log + es[..n], config));
    }
  }

  function Durable(n: Node): StoreState { Replay(n.log, ConfigOf(n)) }

  lemma KeepsCut(live: StoreState, log: seq<Entry>, config: Config, t: seq<Entry>, k: nat)
    requires Sound(live, Replay(log, config)) && AllowedAll(live, t)
    ensures Keeps(Replay(log, config), Replay(log + Cut(t, k), config))
    ensures Keeps(Replay(log, config), Replay(log + t, config))
  {
    hide Sound, AllowedAll, Replay, Keeps;
    KeepsAfter(live, log, config, t, |Cut(t, k)|);
    KeepsAfter(live, log, config, t, |t|);
    assert t[..|t|] == t && Cut(t, k) == t[..|Cut(t, k)|];
  }

  lemma SectionKeeps(n: Node, s: Section, k: nat)
    requires n.Up? && NodeOk(n) && Enabled(n.live, n.work, s)
    ensures Keeps(Durable(n), Durable(Step(n, Run(s)))) && Keeps(Durable(n), Durable(Step(n, Crash(s, k))))
  {
    hide Calm, Sound, AllowedAll, ItemOk, Enabled, LogOk, ApplyAll, TraceOf, WorkAfter, Replay, Keeps;
    var t := TraceOf(n.live, n.policy, s);
    SectionAllowed(n, s);
    ConfigStays(n.live, t);
    KeepsCut(n.live, n.log, n.live.config, t, k);
  }

  lemma OpenKeeps(n: Node, cut: nat, env: Env, policy: Policy, attempts: seq<Key>, campaigns: seq<CampaignId>, k: nat)
    requires n.Down? && NodeOk(n) && cut >= |n.log| && CanOpen(Replay(Cut(n.log, cut), n.config), attempts, campaigns)
    ensures Keeps(Durable(n), Durable(Step(n, Open(cut, env, policy, attempts, campaigns))))
    ensures Keeps(Durable(n), Durable(Step(n, CrashOpening(cut, env, attempts, campaigns, k))))
  {
    hide Calm, Sound, AllowedAll, ItemOk, LogOk, ApplyAll, OpenTrace, OpenWrites, Replay, Inv, Keeps, TopEpoch;
    var log := Cut(n.log, cut);
    assert log == n.log;
    CutOk(n.log, n.config, cut);
    ReplayedSound(log, n.config);
    var st := Replay(log, n.config);
    var t := OpenWrites(st, env, attempts, campaigns);
    OpenWritesAllowed(st, env, attempts, campaigns);
    ConfigStays(st, t);
    KeepsCut(st, log, n.config, t, k);
  }

  lemma CloseKeeps(n: Node)
    requires n.Up? && NodeOk(n)
    ensures Keeps(Durable(n), Durable(Step(n, Close)))
  {
    hide Calm, Sound, AllowedAll, ItemOk, LogOk, Replay, Keeps;
    SingleAllowed(n.live, ShutdownEntry);
    KeepsCut(n.live, n.log, n.live.config, [ShutdownEntry], 0);
  }

  /** A compaction loses nothing but decisions, and takes a new incarnation. */
  lemma CompactKeeps(n: Node, cut: nat, stage: nat)
    requires n.Down? && NodeOk(n) && cut >= |n.log|
    ensures Keeps(Durable(n), Durable(Step(n, Compact(cut, stage))))
  {
    hide Sound, AllowedAll, LogOk, Replay, Inv, TopEpoch, Keeps;
    var log := Cut(n.log, cut);
    assert log == n.log;
    CutOk(n.log, n.config, cut);
    ReplayedSound(log, n.config);
    ReplayedReloadable(EmptyStore(n.config), log);
    ReplayIs(log, n.config);
    var st := Replay(log, n.config);
    var boot := BootEntry(st.incarnation + 1);
    BootOnly(st);
    KeepsCut(st, log, n.config, [boot], 0);
    KeepsCut(st, log, n.config, [boot, ShutdownEntry], 0);
    KeepsItself(st);
    var st1 := Apply(st, boot);
    var s := SnapshotOf(st1);
    assert [s] + [ShutdownEntry] == [s, ShutdownEntry];
    assert [s] + [ShutdownEntry, ShutdownEntry] == [s, ShutdownEntry, ShutdownEntry];
    CompactedReplay(st1, n.config, [ShutdownEntry]);
    CompactedReplay(st1, n.config, [ShutdownEntry, ShutdownEntry]);
    KeepsBooted(st, st1, Replay([s, ShutdownEntry], n.config));
    KeepsBooted(st, st1, Replay([s, ShutdownEntry, ShutdownEntry], n.config));
  }

  lemma KeepsBooted(st: StoreState, st1: StoreState, post: StoreState)
    requires st1 == st.(incarnation := st.incarnation + 1) && SameButDecisions(st1, post)
    ensures Keeps(st, post)
  {
  }

  lemma StepKeeps(n: Node, e: Event)
    requires NodeOk(n) && (e.Open? || e.CrashOpening? || e.Compact? ==> e.cut >= |n.log|)
    ensures Keeps(Durable(n), Durable(Step(n, e)))
  {
    hide NodeOk, Enabled, CanOpen, TraceOf, WorkAfter, OpenTrace, OpenWrites, CompactFiles, ApplyAll, Replay, Keeps, Durable;
    KeepsItself(Durable(n));
    match e
    case Run(s) => if n.Up? && Enabled(n.live, n.work, s) { SectionKeeps(n, s, 0); }
    case Crash(s, k) => if n.Up? && Enabled(n.live, n.work, s) { SectionKeeps(n, s, k); }
    case Open(cut, env, policy, attempts, campaigns) =>
      if n.Down? && CanOpen(Replay(Cut(n.log, cut), n.config), attempts, campaigns) {
        OpenKeeps(n, cut, env, policy, attempts, campaigns, 0);
      }
    case CrashOpening(cut, env, attempts, campaigns, k) =>
      if n.Down? && CanOpen(Replay(Cut(n.log, cut), n.config), attempts, campaigns) {
        OpenKeeps(n, cut, env, Policy(0, 0, 0, false), attempts, campaigns, k);
      }
    case Close => if n.Up? { CloseKeeps(n); }
    case Compact(cut, stage) => if n.Down? { CompactKeeps(n, cut, stage); }
  }

  /** As long as no written record is lost, whatever happens later: plans and artifacts stay, generations do not go back, a
      terminal campaign stays terminal, and the attempts of a completed one stay exactly as they were. */
  lemma {:induction false} NothingIsUndone(n: Node, events: seq<Event>)
    requires NodeOk(n) && Lossless(n, events)
    ensures Keeps(Durable(n), Durable(RunAll(n, events)))
    decreases |events|
  {
    hide NodeOk, Step, Keeps, Durable;
    if events == [] {
      KeepsItself(Durable(n));
    } else {
      StepOk(n, events[0]);
      StepKeeps(n, events[0]);
      NothingIsUndone(Step(n, events[0]), events[1..]);
      KeepsTrans(Durable(n), Durable(Step(n, events[0])), Durable(RunAll(n, events)));
    }
  }

  /** No restart of the run loses the last boot record or snapshot of its journal; anything else may be lost. */
  ghost predicate BootsKept(n: Node, events: seq<Event>)
    decreases |events|
  {
    events == [] ||
    ((events[0].Open? || events[0].CrashOpening? || events[0].Compact? ==>
        ScanBoot(Cut(n.log, events[0].cut)) >= ScanBoot(n.log)) &&
     BootsKept(Step(n, events[0]), events[1..]))
  }

  lemma BootIsDurable(n: Node)
    ensures Durable(n).incarnation == ScanBoot(n.log)
  {
    hide Replay, ScanBoot;
    ScanBootIsReplayed(n.log, ConfigOf(n));
  }

  /** An event that meets a journal with its tail cut off meets the cut journal. */
  lemma CutFirst(n: Node, e: Event)
    requires n.Down? && (e.Open? || e.CrashOpening? || e.Compact?)
    ensures Step(Down(Cut(n.log, e.cut), n.config), e) == Step(n, e) || Step(n, e) == n
  {
    hide Replay, CanOpen, OpenTrace, OpenWrites, CompactFiles, ApplyAll;
    assert Cut(Cut(n.log, e.cut), e.cut) == Cut(n.log, e.cut);
  }

  lemma StepIncarnation(n: Node, e: Event)
    requires NodeOk(n)
    requires e.Open? || e.CrashOpening? || e.Compact? ==> ScanBoot(Cut(n.log, e.cut)) >= ScanBoot(n.log)
    ensures Durable(n).incarnation <= Durable(Step(n, e)).incarnation
  {
    hide RunningOk, LogOk, Step, Keeps, Durable, ScanBoot;
    if n.Down? && (e.Open? || e.CrashOpening? || e.Compact?) {
      var cut := Down(Cut(n.log, e.cut), n.config);
      CutOk(n.log, n.config, e.cut);
      CutFirst(n, e);
      BootIsDurable(n);
      BootIsDurable(cut);
      StepKeeps(cut, e);
      KeptIncarnation(Durable(cut), Durable(Step(cut, e)));
    } else if e.Open? || e.CrashOpening? || e.Compact? {
      NoStep(n, e);
    } else {
      StepKeeps(n, e);
      KeptIncarnation(Durable(n), Durable(Step(n, e)));
    }
  }

  lemma NoStep(n: Node, e: Event)
    requires n.Up? && (e.Open? || e.CrashOpening? || e.Compact?)
    ensures Step(n, e) == n
  {
    hide Replay, CanOpen, OpenTrace, OpenWrites, CompactFiles, ApplyAll;
  }

  /** The incarnation in the journal never goes back, however many records restarts lose, as long as none of them loses the
      last boot record. */
  lemma {:induction false} IncarnationsOnlyRise(n: Node, events: seq<Event>)
    requires NodeOk(n) && BootsKept(n, events)
    ensures Durable(n).incarnation <= Durable(RunAll(n, events)).incarnation
    decreases |events|
  {
    hide NodeOk, Step, Durable, ScanBoot;
    if events != [] {
      StepIncarnation(n, events[0]);
      StepOk(n, events[0]);
      IncarnationsOnlyRise(Step(n, events[0]), events[1..]);
    }
  }

  /** The incarnation an opening takes is one above the last boot record or snapshot of the journal that survived: so it is above
      any given incarnation exactly when a boot or snapshot of at least that incarnation survived last. */
  lemma NextIncarnation(n: Node, cut: nat, env: Env, policy: Policy, attempts: seq<Key>, campaigns: seq<CampaignId>, earlier: nat)
    requires n.Down? && NodeOk(n) && CanOpen(Replay(Cut(n.log, cut), n.config), attempts, campaigns)
    requires OpenTrace(Replay(Cut(n.log, cut), n.config), env, attempts, campaigns).1
    ensures var after := Step(n, Open(cut, env, policy, attempts, campaigns));
            after.Up? && after.live.incarnation == ScanBoot(Cut(n.log, cut)) + 1 &&
            (after.live.incarnation > earlier <==> ScanBoot(Cut(n.log, cut)) >= earlier)
  {
    hide Inv, Replay, OpenTrace, OpenWrites, ApplyAll, Lists, TopEpoch, Reconciled, LogOk, ScanBoot;
    var log := Cut(n.log, cut);
    CutOk(n.log, n.config, cut);
    assert log[..|log|] == log;
    DownOk(Down(log, n.config));
    BootIsDurable(Down(log, n.config));
    OpenReconciles(Replay(log, n.config), env, attempts, campaigns);
    OpenedWrites(Replay(log, n.config), env, attempts, campaigns);
  }

  /** Incarnations are fresh: an engine that opens, after whatever happened, runs under a higher incarnation than any engine
      or compaction before it, unless a restart in between lost a boot record. */
  lemma IncarnationsAreFresh(n: Node, events: seq<Event>, cut: nat, env: Env, policy: Policy, attempts: seq<Key>,
                             campaigns: seq<CampaignId>)
    requires NodeOk(n) && BootsKept(n, events)
    requires var m := RunAll(n, events);
             m.Down? && ScanBoot(Cut(m.log, cut)) >= ScanBoot(m.log) &&
             CanOpen(Replay(Cut(m.log, cut), m.config), attempts, campaigns) &&
             OpenTrace(Replay(Cut(m.log, cut), m.config), env, attempts, campaigns).1
    ensures var after := Step(RunAll(n, events), Open(cut, env, policy, attempts, campaigns));
            after.Up? && after.live.incarnation > Durable(n).incarnation
  {
    hide RunAll, Replay, OpenTrace, CanOpen, Step, BootsKept, NodeOk, ScanBoot;
    var m := RunAll(n, events);
    StepsOk(n, events);
    IncarnationsOnlyRise(n, events);
    BootIsDurable(m);
    NextIncarnation(m, cut, env, policy, attempts, campaigns, Durable(n).incarnation);
  }

  lemma KeptIncarnation(st: StoreState, post: StoreState)
    requires Keeps(st, post)
    ensures st.incarnation <= post.incarnation
  {
  }

  lemma DownOk(n: Node)
    requires NodeOk(n) && n.Down?
    ensures Inv(Durable(n))
  {
    hide Inv, Replay, TopEpoch;
    assert n.log[..|n.log|] == n.log;
  }

  // ---- fencing ------------------------------------------------------------------------------------------------

  /** A commit that changes a campaign, an attempt or the ledger was claimed under the generation that both the campaign
      and the attempt carry, and the attempt belongs to the running incarnation and waits for this operation. */
  lemma EffectiveCommitIsCurrent(st: StoreState, env: Env, pol: Policy, item: Item, r: Report)
    requires var post := ApplyAll(st, CommitTrace(st, env, pol, item, r));
             post.campaigns != st.campaigns || post.attempts != st.attempts || post.ledger != st.ledger
    ensures item.campaign in st.campaigns && KeyOf(item) in st.attempts
    ensures var c, a := st.campaigns[item.campaign], st.attempts[KeyOf(item)];
            item.generation == c.generation == a.generation && item.epoch == c.epoch && a.owner == st.incarnation &&
            a.state == Expected(item.kind) && Accepts(item.kind, c.state)
  {
    hide CommitTrace, ApplyAll, Accepts;
    if !FenceOk(st, item) { FencedCommit(st, env, pol, item, r); }
  }

  lemma StartBumps(st: StoreState, env: Env, id: CampaignId, allow: bool)
    requires Inv(st) && StartAdmits(st, env, id, allow)
    ensures var post := ApplyAll(st, StartTrace(st, env, id, allow));
            id in post.campaigns && post.campaigns[id].generation >= Next(st.campaigns[id].generation)
  {
    hide Inv, StartAdmits, Follows, GuardsOf, MoveResult, MoveTrace, Permits, AllowedAll, ApplyAll;
    var t := StartTrace(st, env, id, allow);
    StartAllowed(st, env, id, allow);
    StartsWithRecord(st, env, id, allow);
    var w := t[0];
    AllowedTail(st, t);
    FollowsAll(Apply(st, w), t[1..]);
    FollowedGeneration(Apply(st, w), ApplyAll(Apply(st, w), t[1..]), id);
  }

  lemma AllowedTail(st: StoreState, t: seq<Entry>)
    requires AllowedAll(st, t) && t != []
    ensures AllowedAll(Apply(st, t[0]), t[1..]) && ApplyAll(st, t) == ApplyAll(Apply(st, t[0]), t[1..])
  {
  }

  lemma FollowedGeneration(st: StoreState, post: StoreState, id: CampaignId)
    requires Follows(st, post) && id in st.campaigns
    ensures id in post.campaigns && post.campaigns[id].generation >= st.campaigns[id].generation
  {
  }

  lemma StartsWithRecord(st: StoreState, env: Env, id: CampaignId, allow: bool)
    requires StartAdmits(st, env, id, allow)
    ensures var t := StartTrace(st, env, id, allow);
            t != [] && t[0] == CampaignEntry(id, StartedRecord(env, st.campaigns[id], allow)) &&
            t[0].campaign.generation == Next(st.campaigns[id].generation)
  {
    hide GuardsOf, MoveTo, AdaptersRollBack;
  }

  /** Once a campaign is started again, nothing claimed before can ever take effect: not in this incarnation, and not after
      any number of restarts that lose no record. Only a campaign that has used up its 64-bit generation counter escapes. */
  lemma StartFencesOutstanding(n: Node, env: Env, id: CampaignId, allow: bool, events: seq<Event>, item: Item)
    requires n.Up? && NodeOk(n) && StartAdmits(n.live, env, id, allow)
    requires item in n.work && item.campaign == id && n.live.campaigns[id].generation < COUNTER_MAX
    requires Lossless(Step(n, Run(Start(env, id, allow))), events)
    ensures var later := RunAll(Step(n, Run(Start(env, id, allow))), events);
            later.Up? ==> !FenceOk(later.live, item)
  {
    hide Inv, Keeps, RunAll, Replay, StartTrace, ApplyAll, LogOk, Calm, Mirrors, StartAdmits, Lossless;
    var s := Start(env, id, allow);
    var n1 := Step(n, Run(s));
    assert n1 == Up(ApplyAll(n.live, TraceOf(n.live, n.policy, s)), n.log + TraceOf(n.live, n.policy, s), n.work, n.policy);
    StepOk(n, Run(s));
    StartBumps(n.live, env, id, allow);
    NothingIsUndone(n1, events);
    StepsOk(n1, events);
    var later := RunAll(n1, events);
    if later.Up? {
      SameCampaigns(n1);
      SameCampaigns(later);
      KeptGeneration(Durable(n1), Durable(later), id);
    }
  }

  lemma StepsOk(n: Node, events: seq<Event>)
    requires NodeOk(n)
    ensures NodeOk(RunAll(n, events))
  {
    hide NodeOk, RunAll;
    EveryRunOk(n, events);
  }

  lemma SameCampaigns(n: Node)
    requires n.Up? && NodeOk(n)
    ensures Durable(n).campaigns == n.live.campaigns
  {
    hide Inv, Calm, ItemOk, LogOk, Replay, Trails;
  }

  lemma KeptGeneration(st: StoreState, post: StoreState, id: CampaignId)
    requires Keeps(st, post) && id in st.campaigns
    ensures id in post.campaigns && post.campaigns[id].generation >= st.campaigns[id].generation
  {
  }

  lemma StartOfReleased(st: StoreState, env: Env, id: CampaignId, allow: bool)
    requires StartAdmits(st, env, id, allow) && (st.campaigns[id].state.Prepared? || st.campaigns[id].state.Staged?)
    ensures var post := ApplyAll(st, StartTrace(st, env, id, allow));
            SameButCampaign(st, post, id, StartedRecord(env, st.campaigns[id], allow))
  {
    hide GuardsOf, AdaptersRollBack;
    var w, d := CampaignEntry(id, StartedRecord(env, st.campaigns[id], allow)), DecisionEntry(id, Decision(DecAdmit, Allow));
    ApplyTwo(st, w, d);
    assert StartTrace(st, env, id, allow) == [w, d];
  }

  /** The exact exception: an item that would have taken effect is fenced by an admitted start of its campaign if and only if
      the generation counter is not exhausted. */
  lemma StartFencesUnlessExhausted(st: StoreState, env: Env, id: CampaignId, allow: bool, item: Item)
    requires StartAdmits(st, env, id, allow) && st.campaigns[id].generation <= COUNTER_MAX
    requires FenceOk(st, item) && item.campaign == id
    ensures !FenceOk(ApplyAll(st, StartTrace(st, env, id, allow)), item) <==> st.campaigns[id].generation < COUNTER_MAX
  {
    hide StartTrace, ApplyAll, GuardsOf, AdaptersRollBack, TicketCurrent;
    StartOfReleased(st, env, id, allow);
  }

  /** After a restart, no operation claimed by an earlier incarnation can take effect: nothing is in flight any more. */
  lemma RestartFencesEverything(st: StoreState, env: Env, attempts: seq<Key>, campaigns: seq<CampaignId>, item: Item)
    requires Inv(st) && CanOpen(st, attempts, campaigns) && OpenTrace(st, env, attempts, campaigns).1
    ensures !FenceOk(ApplyAll(st, OpenTrace(st, env, attempts, campaigns).0), item)
  {
    hide Inv, OpenTrace, ApplyAll, Reconciled, Lists;
    OpenReconciles(st, env, attempts, campaigns);
  }

  // ---- version skew -------------------------------------------------------------------------------------------

  /** Every planned target is known, and tolerated as it is installed. */
  ghost predicate Coverable(env: Env, c: Campaign) {
    forall s, t :: Planned(c, s, t) ==>
      t in env.inventory && Tolerated(c.plan.budget, env.inventory[t].installed, c.artifact.version)
  }

  /** With a given inventory, no state a campaign can be in exceeds the skew budget, however many targets have been upgraded and
      whatever happened to their attempts, if and only if every planned target is known and tolerated before any is upgraded. */
  lemma MixStaysWithinIff(env: Env, id: CampaignId, c: Campaign)
    requires c.artifact.version.reported
    ensures (forall st :: SkewOk(st, env, id, c)) <==> Coverable(env, c)
  {
    hide Waived, SkewOk;
    if Coverable(env, c) {
      forall st ensures SkewOk(st, env, id, c) { CoveredMix(st, env, id, c); }
    }
    if forall st :: SkewOk(st, env, id, c) {
      var st := EmptyStore(Config(0, (head, r) => []));
      assert SkewOk(st, env, id, c);
      NothingUpgraded(st, env, id, c);
    }
  }

  /** An attempt of the campaign at the target is activated or verified. */
  ghost predicate ReachedNew(st: StoreState, id: CampaignId, t: TargetId) {
    exists k :: k in st.attempts && k.campaign == id && k.target == t && st.attempts[k].state in {AttActivated, AttVerified}
  }

  /** In one state: the mix is within budget exactly when each planned target has reached the new version, or is known and tolerated as it
      is installed. While its verification is under way a target counts as still on the old one. */
  lemma MixWithinIff(st: StoreState, env: Env, id: CampaignId, c: Campaign)
    requires c.artifact.version.reported
    ensures SkewOk(st, env, id, c) <==>
            forall s, t :: Planned(c, s, t) ==>
              ReachedNew(st, id, t) || (t in env.inventory && Tolerated(c.plan.budget, env.inventory[t].installed, c.artifact.version))
  {
    hide Tolerated, Planned;
    assert forall t :: ReachedNew(st, id, t) <==> TargetUpgraded(st, id, t);
    ToleratedOtherwise(c.plan.budget, c.artifact.version, c.artifact.version, 0);
    ToleratedOtherwise(c.plan.budget, Version(0, 0, 0, [], false), c.artifact.version, 0);
    if SkewOk(st, env, id, c) {
      forall s, t | Planned(c, s, t) ensures ReachedNew(st, id, t) ||
          (t in env.inventory && Tolerated(c.plan.budget, env.inventory[t].installed, c.artifact.version)) {
        assert Tolerated(c.plan.budget, LiveVersion(st, env, id, c, t), c.artifact.version);
      }
    }
  }

  lemma CoveredMix(st: StoreState, env: Env, id: CampaignId, c: Campaign)
    requires c.artifact.version.reported && Coverable(env, c)
    ensures SkewOk(st, env, id, c)
  {
    hide Waived;
    forall s, t | Planned(c, s, t)
      ensures Tolerated(c.plan.budget, LiveVersion(st, env, id, c, t), c.artifact.version)
    {
      assert t in env.inventory;
    }
    if s, t :| Planned(c, s, t) { assert t in env.inventory; }
  }

  lemma NothingUpgraded(st: StoreState, env: Env, id: CampaignId, c: Campaign)
    requires st.attempts == map[] && SkewOk(st, env, id, c)
    ensures Coverable(env, c)
  {
    hide Waived;
    forall s, t | Planned(c, s, t)
      ensures t in env.inventory && Tolerated(c.plan.budget, env.inventory[t].installed, c.artifact.version)
    {
      assert !TargetUpgraded(st, id, t);
      assert Tolerated(c.plan.budget, LiveVersion(st, env, id, c, t), c.artifact.version);
    }
  }
}
