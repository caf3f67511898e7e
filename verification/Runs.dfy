/** Whole runs: any interleaving of critical sections, crashes in the middle of any section, and restarts over whatever
    prefix of the journal survived. */
module Runs {
  import opened Lifecycle
  import opened Records
  import opened Store
  import opened Protocol
  import opened Commands
  import opened Invariants
  import opened Sections
  import opened PlanSections
  import opened CommandSections
  import opened Mirror
  import opened Work
  import opened Effects
  import opened Exclusive
  import opened Restart

  /** One critical section of the engine mutex, with everything it sees of the outside. */
  datatype Section =
    | Pass(env: Env, order: seq<CampaignId>, room: nat)
    | Commit(env: Env, item: Item, report: Report)
    | Create(id: CampaignId, artifact: Artifact, plan: Plan, acknowledge: bool)
    | Preflight(env: Env, id: CampaignId, passed: bool, integrity: bool, ticket: Ticket)
    | Start(env: Env, id: CampaignId, allowIrreversible: bool)
    | Pause(env: Env, id: CampaignId, attempts: seq<Key>)
    | Resume(env: Env, id: CampaignId)
    | Abort(env: Env, id: CampaignId, attempts: seq<Key>)
    | RollBack(env: Env, id: CampaignId, execute: bool)

  /** A running engine with its store, journal and outstanding work, or a journal without a process. */
  datatype Node =
    | Up(live: StoreState, log: seq<Entry>, work: multiset<Item>, policy: Policy)
    | Down(log: seq<Entry>, config: Config)

  /** A section runs to its end; the process dies after some writes of a section; an engine shuts down; an engine opens over
      the first `cut` records of the journal; the process dies after some writes of an opening; a closed store is compacted
      and the process stops at one of the contents the journal file goes through. */
  datatype Event =
    | Run(section: Section)
    | Crash(section: Section, writes: nat)
    | Close
    | Open(cut: nat, env: Env, policy: Policy, attempts: seq<Key>, campaigns: seq<CampaignId>)
    | CrashOpening(cut: nat, env: Env, attempts: seq<Key>, campaigns: seq<CampaignId>, writes: nat)
    | Compact(cut: nat, stage: nat)

  /** Work commits only while it is outstanding, and a command that walks over the attempts sees each of them once. */
  ghost predicate Enabled(st: StoreState, work: multiset<Item>, s: Section) {
    (s.Commit? ==> s.item in work) && (s.Pause? || s.Abort? ==> Lists(s.attempts, st.attempts.Keys))
  }

  ghost function TraceOf(st: StoreState, pol: Policy, s: Section): seq<Entry> {
    match s
    case Pass(env, order, room) => PlanWork(st, env, pol, order, room).trace
    case Commit(env, item, report) => CommitTrace(st, env, pol, item, report)
    case Create(id, artifact, plan, acknowledge) => CreateTrace(st, id, artifact, plan, acknowledge)
    case Preflight(env, id, passed, integrity, ticket) => PreflightTrace(st, env, id, passed, integrity, ticket)
    case Start(env, id, allow) => StartTrace(st, env, id, allow)
    case Pause(env, id, attempts) => PauseTrace(st, env, id, attempts)
    case Resume(env, id) => ResumeTrace(st, env, id)
    case Abort(env, id, attempts) => AbortTrace(st, env, id, attempts)
    case RollBack(env, id, execute) => RollbackTrace(st, env, id, execute)
  }

  ghost function WorkAfter(st: StoreState, pol: Policy, work: multiset<Item>, s: Section): multiset<Item> {
    if s.Pass? then work + multiset(PlanWork(st, s.env, pol, s.order, s.room).items)
    else if s.Commit? then work - multiset{s.item}
    else work
  }

  function Cut<T>(s: seq<T>, n: nat): seq<T> { if n <= |s| then s[..n] else s }

  ghost predicate CanOpen(st: StoreState, attempts: seq<Key>, campaigns: seq<CampaignId>) {
    Lists(attempts, st.attempts.Keys) && Lists(campaigns, st.campaigns.Keys)
  }

  /** What an opening writes: the engine's part, and the shutdown record of the store when the engine does not open. */
  ghost function OpenWrites(st: StoreState, env: Env, attempts: seq<Key>, campaigns: seq<CampaignId>): seq<Entry> {
    var (t, ok) := OpenTrace(st, env, attempts, campaigns);
    t + (if ok then [] else [ShutdownEntry])
  }

  /** The snapshot of a store: what it can read back, without decisions. */
  function SnapshotOf(st: StoreState): Entry {
    SnapshotEntry(st.campaigns, st.attempts, st.ledger, st.head, st.sequence, st.epoch, st.incarnation)
  }

  /** The contents the journal file goes through while a store is opened, compacted and closed. */
  function CompactFiles(log: seq<Entry>, st: StoreState): seq<seq<Entry>> {
    var boot := BootEntry(st.incarnation + 1);
    var snapshot := SnapshotOf(Apply(st, boot));
    [log, log + [boot], log + [boot, ShutdownEntry], [snapshot, ShutdownEntry], [snapshot, ShutdownEntry, ShutdownEntry]]
  }

  function ConfigOf(n: Node): Config { if n.Up? then n.live.config else n.config }

  /** An event that is not possible leaves the node as it is. */
  ghost function Step(n: Node, e: Event): Node {
    match e
    case Run(s) =>
      if n.Up? && Enabled(n.live, n.work, s) then
        var t := TraceOf(n.live, n.policy, s);
        Up(ApplyAll(n.live, t), n.log + t, WorkAfter(n.live, n.policy, n.work, s), n.policy)
      else n
    case Crash(s, writes) =>
      if n.Up? && Enabled(n.live, n.work, s) then Down(n.log + Cut(TraceOf(n.live, n.policy, s), writes), n.live.config)
      else n
    case Close => if n.Up? then Down(n.log + [ShutdownEntry], n.live.config) else n
    case Open(cut, env, policy, attempts, campaigns) =>
      var log := Cut(n.log, cut);
      var st := Replay(log, ConfigOf(n));
      if n.Down? && CanOpen(st, attempts, campaigns) then
        var t := OpenWrites(st, env, attempts, campaigns);
        if OpenTrace(st, env, attempts, campaigns).1 then Up(ApplyAll(st, t), log + t, multiset{}, policy)
        else Down(log + t, n.config)
      else n
    case CrashOpening(cut, env, attempts, campaigns, writes) =>
      var log := Cut(n.log, cut);
      var st := Replay(log, ConfigOf(n));
      if n.Down? && CanOpen(st, attempts, campaigns) then
        Down(log + Cut(OpenWrites(st, env, attempts, campaigns), writes), n.config)
      else n
    case Compact(cut, stage) =>
      var log := Cut(n.log, cut);
      if n.Down? && stage < 5 then Down(CompactFiles(log, Replay(log, n.config))[stage], n.config) else n
  }

  ghost function RunAll(n: Node, events: seq<Event>): Node
    decreases |events|
  {
    if events == [] then n else RunAll(Step(n, events[0]), events[1..])
  }

  // ---- what holds of every node -------------------------------------------------------------------------------

  function EpochOf(e: Entry): nat { if e.EpochEntry? || e.SnapshotEntry? then e.epoch else 0 }

  /** No entry carries a higher epoch. */
  predicate TopEpoch(log: seq<Entry>, epoch: nat) { forall e :: e in log ==> EpochOf(e) <= epoch }

  /** The journal replays to a store that meets the invariant, and the replayed epoch is the highest one recorded. */
  ghost predicate JournalOk(log: seq<Entry>, config: Config) {
    Inv(Replay(log, config)) && TopEpoch(log, Replay(log, config).epoch)
  }

  /** So does every prefix of the journal. */
  ghost predicate LogOk(log: seq<Entry>, config: Config) {
    forall m: nat :: m <= |log| ==> JournalOk(log[..m], config)
  }

  ghost predicate RunningOk(live: StoreState, log: seq<Entry>, work: multiset<Item>, pol: Policy) {
    Sound(live, Replay(log, live.config)) && (forall i :: i in work ==> ItemOk(live, i)) && Calm(live, work, pol)
  }

  ghost predicate NodeOk(n: Node) {
    LogOk(n.log, ConfigOf(n)) && (n.Up? ==> RunningOk(n.live, n.log, n.work, n.policy))
  }

  lemma FirstNodeOk(config: Config)
    ensures NodeOk(Down([], config))
  {
    EmptyJournalOk(config);
    var log: seq<Entry> := [];
    assert forall m: nat :: m <= 0 ==> log[..m] == log;
  }

  /** A section of a running engine writes allowed entries only. */
  lemma SectionAllowed(n: Node, s: Section)
    requires n.Up? && NodeOk(n) && Enabled(n.live, n.work, s)
    ensures AllowedAll(n.live, TraceOf(n.live, n.policy, s))
  {
    hide Calm, Inv, AllowedAll, ItemOk, Lists;
    match s
    case Pass(env, order, room) => PlanAllowed(n.live, env, n.policy, order, room);
    case Commit(env, item, report) => CommitAllowed(n.live, env, n.policy, item, report);
    case Create(id, artifact, plan, acknowledge) => CreateAllowed(n.live, id, artifact, plan, acknowledge);
    case Preflight(env, id, passed, integrity, ticket) => PreflightAllowed(n.live, env, id, passed, integrity, ticket);
    case Start(env, id, allow) => StartAllowed(n.live, env, id, allow);
    case Pause(env, id, attempts) => PauseAllowed(n.live, env, id, attempts);
    case Resume(env, id) => ResumeAllowed(n.live, env, id);
    case Abort(env, id, attempts) => AbortAllowed(n.live, env, id, attempts);
    case RollBack(env, id, execute) => RollbackAllowed(n.live, env, id, execute);
  }

  lemma {:induction false} EpochAfter(live: StoreState, log: seq<Entry>, config: Config, es: seq<Entry>, n: nat)
    requires Sound(live, Replay(log, config)) && AllowedAll(live, es) && n <= |es|
    requires TopEpoch(log, Replay(log, config).epoch)
    ensures TopEpoch(log + es[..n], Replay(log + es[..n], config).epoch)
    decreases n
  {
    hide Inv, Agree, Allowed, Replay, TopEpoch;
    if n == 0 {
      assert log + es[..0] == log;
    } else {
      var e := es[0];
      SoundStep(live, Replay(log, config), e);
      ReplayPush(log, config, e);
      EpochStep(live, log, Replay(log, config), e);
      EpochAfter(Apply(live, e), log + [e], config, es[1..], n - 1);
      assert log + [e] + es[1..][..n - 1] == log + es[..n];
    }
  }

  lemma EpochStep(live: StoreState, log: seq<Entry>, replayed: StoreState, e: Entry)
    requires Sound(live, replayed) && Allowed(live, e) && TopEpoch(log, replayed.epoch)
    ensures TopEpoch(log + [e], Reload(replayed, e).epoch)
  {
    hide Inv, AllowedCampaign, AllowedAttempt, AllowedLedger;
    MirrorKeys(live, replayed);
  }

  /** After any prefix of an allowed section the journal is in order. */
  lemma JournalAfter(live: StoreState, log: seq<Entry>, config: Config, t: seq<Entry>, n: nat)
    requires JournalOk(log, config) && Sound(live, Replay(log, config)) && AllowedAll(live, t) && n <= |t|
    ensures JournalOk(log + t[..n], config)
  {
    hide Inv, Agree, AllowedAll, Replay, TopEpoch;
    SoundAfter(live, log, config, t, n);
    EpochAfter(live, log, config, t, n);
  }

  /** The journal after a prefix of an allowed section. */
  lemma LogGrows(live: StoreState, log: seq<Entry>, config: Config, t: seq<Entry>)
    requires LogOk(log, config) && Sound(live, Replay(log, config)) && AllowedAll(live, t)
    ensures LogOk(log + t, config)
    ensures forall k: nat :: k <= |t| ==> LogOk(log + t[..k], config)
    ensures Sound(ApplyAll(live, t), Replay(log + t, config))
  {
    hide JournalOk, Sound, AllowedAll, Replay, ApplyAll;
    assert log[..|log|] == log;
    forall m: nat | m <= |log + t| ensures JournalOk((log + t)[..m], config) {
      if m <= |log| {
        assert (log + t)[..m] == log[..m];
      } else {
        assert (log + t)[..m] == log + t[..m - |log|];
        JournalAfter(live, log, config, t, m - |log|);
      }
    }
    forall k: nat | k <= |t| ensures LogOk(log + t[..k], config) {
      forall m: nat | m <= |log + t[..k]| ensures JournalOk((log + t[..k])[..m], config) {
        assert (log + t[..k])[..m] == (log + t)[..m];
      }
    }
    SoundAfter(live, log, config, t, |t|);
    assert t[..|t|] == t;
  }

  // ---- the engine stays calm ----------------------------------------------------------------------------------

  /** The writes of an abort after the attempts are retired. */
  function AbortTail(id: CampaignId, c: Campaign, g: Guards): seq<Entry> {
    var to := if c.state.Proposed? then Blocked else Failed;
    MoveTrace(id, c, to, g) + (if Permits(c.state, to, g) then [DecisionEntry(id, Decision(DecAbort, Allow))] else [])
  }

  lemma AbortTailCalm(st: StoreState, id: CampaignId, g: Guards, work: multiset<Item>, pol: Policy)
    requires Inv(st) && Calm(st, work, pol) && id in st.campaigns
    ensures Calm(ApplyAll(st, AbortTail(id, st.campaigns[id].(failureRecorded := true), g)), work, pol)
  {
    hide Inv, Calm, AllowedAll, ApplyAll, MoveTrace, Quiet, Permits, GatesOk, AllowedCampaign;
    var c := st.campaigns[id].(failureRecorded := true);
    var to := if c.state.Proposed? then Blocked else Failed;
    var d := if Permits(c.state, to, g) then [DecisionEntry(id, Decision(DecAbort, Allow))] else [];
    RecordAllowed(st, id);
    FailureNoted(st, id);
    MoveAllowed(st, id, c, to, g);
    ThenMaybeDecision(st, MoveTrace(id, c, to, g), id, Decision(DecAbort, Allow), Permits(c.state, to, g));
    MoveQuiet(id, c, to, g, No(c));
    DecisionQuiet(id, Decision(DecAbort, Allow), No(c));
    QuietAppend(MoveTrace(id, c, to, g), d, id, No(c));
    QuietCalm(st, AbortTail(id, c, g), id, No(c), work, pol);
  }

  lemma AbortCalm(st: StoreState, env: Env, id: CampaignId, order: seq<Key>, work: multiset<Item>, pol: Policy)
    requires Inv(st) && Calm(st, work, pol)
    ensures Calm(ApplyAll(st, AbortTrace(st, env, id, order)), work, pol)
  {
    hide Inv, Calm, AllowedAll, ApplyAll, RetireAll, MoveTrace, GuardsOf, Permits;
    EmptyRun(st);
    if id in st.campaigns && !Terminal(st.campaigns[id].state) {
      var c := st.campaigns[id].(failureRecorded := true);
      var t := RetireAll(st, id, order, AttAborted);
      RetireAllAllowed(st, id, order, AttAborted);
      RetireCalm(st, id, order, AttAborted, work, pol);
      AllowedAllKeepsInv(st, t);
      var st1 := ApplyAll(st, t);
      var g := GuardsOf(st1, env, id, c).(failureRecorded := true);
      AbortTailCalm(st1, id, g, work, pol);
      ApplyAllAppend(st, t, AbortTail(id, c, g));
      AbortParts(st, env, id, order);
    }
  }

  lemma AbortParts(st: StoreState, env: Env, id: CampaignId, order: seq<Key>)
    requires id in st.campaigns && !Terminal(st.campaigns[id].state)
    ensures var c := st.campaigns[id].(failureRecorded := true);
            var t := RetireAll(st, id, order, AttAborted);
            AbortTrace(st, env, id, order) ==
            t + AbortTail(id, c, GuardsOf(ApplyAll(st, t), env, id, c).(failureRecorded := true))
  {
    hide ApplyAll, RetireAll, MoveTrace, GuardsOf, Permits;
  }

  lemma FailureNoted(st: StoreState, id: CampaignId)
    requires id in st.campaigns && AllowedCampaign(st, id, st.campaigns[id])
    ensures AllowedCampaign(st, id, st.campaigns[id].(failureRecorded := true))
    ensures var c := st.campaigns[id].(failureRecorded := true); !c.state.Proposed? ==> GatesOk(Moved(c, Failed))
    ensures var c := st.campaigns[id].(failureRecorded := true); GatesOk(Moved(c, Blocked))
  {
  }

  lemma PauseSectionCalm(st: StoreState, env: Env, id: CampaignId, order: seq<Key>, work: multiset<Item>, pol: Policy)
    requires Inv(st) && Calm(st, work, pol) && Lists(order, st.attempts.Keys)
    ensures Calm(ApplyAll(st, PauseTrace(st, env, id, order)), work, pol)
  {
    hide Inv, Calm, AllowedAll, ApplyAll, RetireAll, MoveTrace, Quiet, GuardsOf, Permits, Lists;
    EmptyRun(st);
    if id in st.campaigns && !st.campaigns[id].state.Paused? && PermitsPause(st.campaigns[id].state) {
      var c := st.campaigns[id];
      var g := GuardsOf(st, env, id, c).(manualRelease := true);
      var t := MoveTrace(id, c, Paused, g);
      UngatedGood(st, id, Paused, g);
      MoveQuiet(id, c, Paused, g, May(Paused, Now(st, id).generation));
      PauseCalm(st, id, t, order, work, pol);
      var st1 := ApplyAll(st, t);
      AllowedAllKeepsInv(st, t);
      var u := RetireAll(st1, id, order, AttAbandoned);
      RetireAllAllowed(st1, id, order, AttAbandoned);
      AllowedAllAppend(st, t, u);
      AllowedAllKeepsInv(st, t + u);
      var d := DecisionEntry(id, Decision(DecPause, Allow));
      DecisionCalm(ApplyAll(st, t + u), id, Decision(DecPause, Allow), work, pol);
      ApplyAllAppend(st, t + u, [d]);
    }
  }

  lemma DecisionCalm(st: StoreState, id: CampaignId, d: Decision, work: multiset<Item>, pol: Policy)
    requires Inv(st) && Calm(st, work, pol)
    ensures Calm(ApplyAll(st, [DecisionEntry(id, d)]), work, pol)
  {
    hide Inv, Calm, Quiet;
    SingleAllowed(st, DecisionEntry(id, d));
    DecisionQuiet(id, d, May(Proposed, 1));
    QuietCalm(st, [DecisionEntry(id, d)], id, May(Proposed, 1), work, pol);
  }

  /** The sections that leave the attempts alone. */
  lemma QuietSectionCalm(n: Node, s: Section)
    requires n.Up? && NodeOk(n) && Enabled(n.live, n.work, s)
    requires s.Create? || s.Preflight? || s.Start? || s.Resume? || s.RollBack?
    ensures Calm(ApplyAll(n.live, TraceOf(n.live, n.policy, s)), n.work, n.policy)
  {
    hide Calm, Inv, AllowedAll, ItemOk, Lists, Quiet, LogOk, Agree, ApplyAll;
    SectionAllowed(n, s);
    var st := n.live;
    var t := TraceOf(st, n.policy, s);
    match s {
      case Create(id, artifact, plan, acknowledge) => CreateQuiet(st, id, artifact, plan, acknowledge);
      case Preflight(env, id, passed, integrity, ticket) => PreflightQuiet(st, env, id, passed, integrity, ticket);
      case Start(env, id, allow) => StartQuiet(st, env, id, allow);
      case Resume(env, id) => ResumeQuiet(st, env, id);
      case RollBack(env, id, execute) => RollbackQuiet(st, env, id, execute);
    }
    var now := Now(st, s.id);
    QuietCalm(st, t, s.id,
              if s.Create? then May(Proposed, 1) else if s.Resume? then now.(state := Proposed)
              else if s.RollBack? then now.(state := RollingBack) else if s.Start? then Restarted(st, s.id) else now,
              n.work, n.policy);
  }

  lemma SectionCalm(n: Node, s: Section)
    requires n.Up? && NodeOk(n) && Enabled(n.live, n.work, s)
    ensures Calm(ApplyAll(n.live, TraceOf(n.live, n.policy, s)), WorkAfter(n.live, n.policy, n.work, s), n.policy)
  {
    hide Calm, Inv, AllowedAll, ItemOk, Lists, LogOk, Agree, ApplyAll;
    match s
    case Pass(env, order, room) => PlanCalm(n.live, env, n.policy, order, room, n.work);
    case Commit(env, item, report) => CommitCalm(n.live, env, n.policy, item, report, n.work);
    case Pause(env, id, attempts) => PauseSectionCalm(n.live, env, id, attempts, n.work, n.policy);
    case Abort(env, id, attempts) => AbortCalm(n.live, env, id, attempts, n.work, n.policy);
    case _ => QuietSectionCalm(n, s);
  }

  lemma WorkStaysOk(n: Node, s: Section)
    requires n.Up? && NodeOk(n) && Enabled(n.live, n.work, s)
    ensures forall i :: i in WorkAfter(n.live, n.policy, n.work, s) ==> ItemOk(ApplyAll(n.live, TraceOf(n.live, n.policy, s)), i)
  {
    hide Calm, Inv, AllowedAll, ItemOk, Lists, LogOk, Agree, ApplyAll, Follows;
    var post := ApplyAll(n.live, TraceOf(n.live, n.policy, s));
    SectionAllowed(n, s);
    FollowsAll(n.live, TraceOf(n.live, n.policy, s));
    if s.Pass? { PlanItemsOk(n.live, s.env, n.policy, s.order, s.room); }
    forall i | i in WorkAfter(n.live, n.policy, n.work, s) ensures ItemOk(post, i) {
      if i in n.work { ItemStays(n.live, post, i); }
    }
  }

  lemma ConfigStays(st: StoreState, es: seq<Entry>)
    requires AllowedAll(st, es)
    ensures ApplyAll(st, es).config == st.config
  {
    hide AllowedAll, ApplyAll;
    FollowsAll(st, es);
  }

  lemma RunSectionOk(n: Node, s: Section)
    requires n.Up? && NodeOk(n) && Enabled(n.live, n.work, s)
    ensures NodeOk(Step(n, Run(s))) && forall k: nat :: NodeOk(Step(n, Crash(s, k)))
  {
    hide Calm, Sound, AllowedAll, ItemOk, Enabled, LogOk, ApplyAll, TraceOf, WorkAfter;
    var t := TraceOf(n.live, n.policy, s);
    SectionAllowed(n, s);
    LogGrows(n.live, n.log, n.live.config, t);
    ConfigStays(n.live, t);
    SectionCalm(n, s);
    WorkStaysOk(n, s);
    forall k: nat ensures NodeOk(Step(n, Crash(s, k))) {
      if k <= |t| { assert Cut(t, k) == t[..k]; }
    }
  }

  // ---- restarts -----------------------------------------------------------------------------------------------

  /** What replay rebuilds is sound against itself. */
  lemma ReplayedSound(log: seq<Entry>, config: Config)
    requires Inv(Replay(log, config))
    ensures Sound(Replay(log, config), Replay(log, config)) && Replay(log, config).config == config
  {
    hide Inv;
    ReplayedReloadable(EmptyStore(config), log);
    ItselfMirrors(Replay(log, config));
    ReplayKeepsBound(EmptyStore(config), log);
  }

  lemma {:induction false} ReplayKeepsBound(st: StoreState, log: seq<Entry>)
    ensures ReloadAll(st, log).config == st.config
    decreases |log|
  {
    if log != [] { ReplayKeepsBound(Reload(st, log[0]), log[1..]); }
  }

  lemma CutOk(log: seq<Entry>, config: Config, cut: nat)
    requires LogOk(log, config)
    ensures LogOk(Cut(log, cut), config) && JournalOk(Cut(log, cut), config)
  {
    hide JournalOk;
    var short := Cut(log, cut);
    assert short == log[..|short|];
    forall m: nat | m <= |short| ensures JournalOk(short[..m], config) {
      assert short[..m] == log[..m];
    }
  }

  lemma OpenWritesAllowed(st: StoreState, env: Env, attempts: seq<Key>, campaigns: seq<CampaignId>)
    requires Inv(st)
    ensures AllowedAll(st, OpenWrites(st, env, attempts, campaigns))
  {
    hide Inv, OpenTrace, AllowedAll, ApplyAll;
    var t := OpenTrace(st, env, attempts, campaigns).0;
    OpenAllowed(st, env, attempts, campaigns);
    SingleAllowed(ApplyAll(st, t), ShutdownEntry);
    EmptyAllowed(ApplyAll(st, t));
    AllowedAllAppend(st, t, if OpenTrace(st, env, attempts, campaigns).1 then [] else [ShutdownEntry]);
  }

  lemma IdleCalm(st: StoreState, pol: Policy)
    requires NothingInFlight(st)
    ensures Calm(st, multiset{}, pol)
  {
    forall id, s: nat | id in st.campaigns && s < |st.campaigns[id].plan.stages| ensures LimitHolds(st, pol, id, s) {
      assert InStage(st, id, s, AttActivating) == {};
    }
  }

  lemma OpenOk(n: Node, cut: nat, env: Env, policy: Policy, attempts: seq<Key>, campaigns: seq<CampaignId>)
    requires n.Down? && NodeOk(n) && CanOpen(Replay(Cut(n.log, cut), n.config), attempts, campaigns)
    ensures NodeOk(Step(n, Open(cut, env, policy, attempts, campaigns)))
    ensures forall k: nat :: NodeOk(Step(n, CrashOpening(cut, env, attempts, campaigns, k)))
  {
    hide Calm, Sound, AllowedAll, ItemOk, LogOk, ApplyAll, OpenTrace, OpenWrites, Replay, Inv, Reopened, TopEpoch;
    var log := Cut(n.log, cut);
    CutOk(n.log, n.config, cut);
    ReplayedSound(log, n.config);
    var st := Replay(log, n.config);
    var t := OpenWrites(st, env, attempts, campaigns);
    OpenWritesAllowed(st, env, attempts, campaigns);
    LogGrows(st, log, n.config, t);
    ConfigStays(st, t);
    forall k: nat ensures NodeOk(Step(n, CrashOpening(cut, env, attempts, campaigns, k))) {
      if k <= |t| { assert Cut(t, k) == t[..k]; }
    }
    if OpenTrace(st, env, attempts, campaigns).1 {
      OpenReconciles(st, env, attempts, campaigns);
      OpenedWrites(st, env, attempts, campaigns);
      ReopenedCalm(st, ApplyAll(st, t), env, policy);
    }
  }

  lemma OpenedWrites(st: StoreState, env: Env, attempts: seq<Key>, campaigns: seq<CampaignId>)
    requires OpenTrace(st, env, attempts, campaigns).1
    ensures OpenWrites(st, env, attempts, campaigns) == OpenTrace(st, env, attempts, campaigns).0
  {
    hide OpenTrace;
  }

  lemma CloseOk(n: Node)
    requires n.Up? && NodeOk(n)
    ensures NodeOk(Step(n, Close))
  {
    hide Calm, Sound, AllowedAll, ItemOk, LogOk, ApplyAll, Replay;
    SingleAllowed(n.live, ShutdownEntry);
    LogGrows(n.live, n.log, n.live.config, [ShutdownEntry]);
  }

  // ---- compaction ---------------------------------------------------------------------------------------------

  /** Two stores that differ in their decisions only. */
  ghost predicate SameButDecisions(a: StoreState, b: StoreState) { b == a.(decisions := b.decisions) }

  lemma DecisionsDoNotMatter(a: StoreState, b: StoreState)
    requires Inv(a) && SameButDecisions(a, b)
    ensures Inv(b)
  {
    forall id | id in b.campaigns ensures CampaignOk(b.campaigns[id]) && StagesDone(b, id, b.campaigns[id]) {
      assert StagesDone(a, id, a.campaigns[id]);
    }
    forall k | k in b.attempts ensures AttemptIn(b, k) { assert AttemptIn(a, k); }
    forall k, o ensures RecordedOnce(b, k, o) { assert RecordedOnce(a, k, o); }
  }

  /** The compacted journal replays to the store it was made from, decisions aside. */
  lemma CompactedReplay(st: StoreState, config: Config, tail: seq<Entry>)
    requires st.config == config && (forall k :: k in st.attempts ==> Reloadable(st.attempts[k]))
    requires tail == [] || tail == [ShutdownEntry] || tail == [ShutdownEntry, ShutdownEntry]
    ensures SameButDecisions(st, Replay([SnapshotOf(st)] + tail, config))
  {
    var s := SnapshotOf(st);
    assert ReloadableOnly(st.attempts) == st.attempts;
    assert ([s] + tail)[1..] == tail;
    var st1 := Reload(EmptyStore(config), s);
    assert ReloadAll(st1, tail) == st1 by {
      if tail != [] {
        assert ReloadAll(st1, tail) == ReloadAll(st1, tail[1..]);
        if tail[1..] != [] { assert tail[1..][1..] == []; }
      }
    }
  }

  lemma CompactedOk(st: StoreState, config: Config, tail: seq<Entry>)
    requires Inv(st) && st.config == config && (forall k :: k in st.attempts ==> Reloadable(st.attempts[k]))
    requires tail == [] || tail == [ShutdownEntry] || tail == [ShutdownEntry, ShutdownEntry]
    ensures JournalOk([SnapshotOf(st)] + tail, config)
  {
    hide Inv, Replay;
    CompactedReplay(st, config, tail);
    DecisionsDoNotMatter(st, Replay([SnapshotOf(st)] + tail, config));
  }

  lemma CompactedLogOk(st: StoreState, config: Config, log: seq<Entry>)
    requires Inv(st) && st.config == config && (forall k :: k in st.attempts ==> Reloadable(st.attempts[k]))
    requires log == [SnapshotOf(st), ShutdownEntry] || log == [SnapshotOf(st), ShutdownEntry, ShutdownEntry]
    ensures LogOk(log, config)
  {
    hide Inv, Replay, JournalOk;
    var s := SnapshotOf(st);
    EmptyJournalOk(config);
    forall m: nat | m <= |log| ensures JournalOk(log[..m], config) {
      if m == 0 {
        assert log[..m] == [];
      } else {
        var tail := if m == 1 then [] else if m == 2 then [ShutdownEntry] else [ShutdownEntry, ShutdownEntry];
        SnapshotPrefix(log, s, m);
        CompactedOk(st, config, tail);
      }
    }
  }

  lemma SnapshotPrefix(log: seq<Entry>, s: Entry, m: nat)
    requires log == [s, ShutdownEntry] || log == [s, ShutdownEntry, ShutdownEntry]
    requires 0 < m <= |log|
    ensures log[..m] == [s] + (if m == 1 then [] else if m == 2 then [ShutdownEntry] else [ShutdownEntry, ShutdownEntry])
  {
    assert m == 1 || m == 2 || m == 3;
  }

  lemma EmptyJournalOk(config: Config)
    ensures JournalOk([], config)
  {
    hide Inv;
    EmptyStoreIsOk(config);
  }

  lemma BootOnly(st: StoreState)
    requires Inv(st)
    ensures var boot := BootEntry(st.incarnation + 1);
            AllowedAll(st, [boot]) && AllowedAll(st, [boot, ShutdownEntry]) && Inv(Apply(st, boot))
  {
    hide Inv;
    var boot := BootEntry(st.incarnation + 1);
    AllowedKeepsInv(st, boot);
    SingleAllowed(st, boot);
    SingleAllowed(Apply(st, boot), ShutdownEntry);
    AllowedAllAppend(st, [boot], [ShutdownEntry]);
    assert [boot] + [ShutdownEntry] == [boot, ShutdownEntry];
  }

  /** Whatever moment a compaction stops at, the journal file it leaves is in order. */
  lemma CompactOk(n: Node, cut: nat, stage: nat)
    requires n.Down? && NodeOk(n)
    ensures NodeOk(Step(n, Compact(cut, stage)))
  {
    hide Sound, AllowedAll, LogOk, ApplyAll, Replay, Inv, TopEpoch;
    var log := Cut(n.log, cut);
    CutOk(n.log, n.config, cut);
    ReplayedSound(log, n.config);
    ReplayedReloadable(EmptyStore(n.config), log);
    ReplayIs(log, n.config);
    var st := Replay(log, n.config);
    var boot := BootEntry(st.incarnation + 1);
    BootOnly(st);
    LogGrows(st, log, n.config, [boot]);
    LogGrows(st, log, n.config, [boot, ShutdownEntry]);
    var st1 := Apply(st, boot);
    CompactedLogOk(st1, n.config, [SnapshotOf(st1), ShutdownEntry]);
    CompactedLogOk(st1, n.config, [SnapshotOf(st1), ShutdownEntry, ShutdownEntry]);
  }

  lemma ReplayIs(log: seq<Entry>, config: Config)
    ensures Replay(log, config) == ReloadAll(EmptyStore(config), log)
  {
  }

  lemma ReopenedCalm(st: StoreState, post: StoreState, env: Env, pol: Policy)
    requires Reopened(st, post, env)
    ensures Calm(post, multiset{}, pol)
  {
    IdleCalm(post, pol);
  }

  // ---- the main results ---------------------------------------------------------------------------------------

  lemma StepOk(n: Node, e: Event)
    requires NodeOk(n)
    ensures NodeOk(Step(n, e))
  {
    hide NodeOk, Enabled, CanOpen, TraceOf, WorkAfter, OpenTrace, OpenWrites, CompactFiles, ApplyAll, Replay;
    match e
    case Run(s) => if n.Up? && Enabled(n.live, n.work, s) { RunSectionOk(n, s); }
    case Crash(s, k) => if n.Up? && Enabled(n.live, n.work, s) { RunSectionOk(n, s); }
    case Open(cut, env, policy, attempts, campaigns) =>
      if n.Down? && CanOpen(Replay(Cut(n.log, cut), n.config), attempts, campaigns) {
        OpenOk(n, cut, env, policy, attempts, campaigns);
      }
    case CrashOpening(cut, env, attempts, campaigns, k) =>
      if n.Down? && CanOpen(Replay(Cut(n.log, cut), n.config), attempts, campaigns) {
        OpenOk(n, cut, env, Policy(0, 0, 0, false), attempts, campaigns);
      }
    case Close => if n.Up? { CloseOk(n); }
    case Compact(cut, stage) => if n.Down? { CompactOk(n, cut, stage); }
  }

  /** Every node of every run, from an empty journal, is in order. */
  lemma {:induction false} EveryRunOk(n: Node, events: seq<Event>)
    requires NodeOk(n)
    ensures NodeOk(RunAll(n, events))
    decreases |events|
  {
    hide NodeOk, Step;
    if events != [] {
      StepOk(n, events[0]);
      EveryRunOk(Step(n, events[0]), events[1..]);
    }
  }
}
