/** The beginning of every run that executes a campaign: a first engine opens a new store, and a campaign is created, passes its
    preflight and is started. */
module FirstRuns {
  import opened Lifecycle
  import opened Records
  import opened Store
  import opened Protocol
  import opened Commands
  import opened CommandEffects
  import opened Runs

  /** The first engine of a new store, with this campaign alone and these attempts. */
  predicate FirstHolds(st: StoreState, id: CampaignId, c: Campaign, attempts: map<Key, Attempt>) {
    st.campaigns == map[id := c] && st.attempts == attempts && st.incarnation == 1 && st.epoch == 2
  }

  lemma FirstOpening(config: Config, env: Env)
    ensures var st := EmptyStore(config);
            var post := ApplyAll(st, OpenWrites(st, env, [], []));
            OpenTrace(st, env, [], []).1 && post.campaigns == map[] && post.attempts == map[] && post.incarnation == 1 &&
            post.epoch == 2
  {
    var st := EmptyStore(config);
    ApplyTwo(st, BootEntry(1), EpochEntry(2));
    var head := [BootEntry(1), EpochEntry(2)];
    assert head + [] + [] + [] == head;
    assert AbandonAll(ApplyAll(st, head), []) == [];
    assert ReconcileAll(ApplyAll(ApplyAll(st, head), []), env, []) == ([], true);
  }

  lemma Created(st: StoreState, id: CampaignId, artifact: Artifact, plan: Plan)
    requires st.campaigns == map[] && st.attempts == map[] && st.incarnation == 1 && st.epoch == 2
    ensures FirstHolds(ApplyAll(st, CreateTrace(st, id, artifact, plan, false)), id, NewCampaign(st, artifact, plan, false), map[])
  {
    var t := CreateTrace(st, id, artifact, plan, false);
    ApplyTwo(st, t[0], t[1]);
  }

  lemma Preflighted(st: StoreState, env: Env, id: CampaignId, c: Campaign, ticket: Ticket)
    requires FirstHolds(st, id, c, map[]) && c.state.Proposed?
    ensures FirstHolds(ApplyAll(st, PreflightTrace(st, env, id, true, true, ticket)), id, c.(ticket := ticket, state := Validated), map[])
  {
    hide ApplyAll, PreflightTrace, Noted;
    PreflightMeans(st, env, id, true, true, ticket);
    assert map[id := c][id := c.(ticket := ticket, state := Validated)] == map[id := c.(ticket := ticket, state := Validated)];
  }

  lemma RunCons(n: Node, e: Event, events: seq<Event>)
    ensures RunAll(n, [e] + events) == RunAll(Step(n, e), events)
  {
    hide Step;
    assert ([e] + events)[1..] == events;
  }

  lemma {:induction false} RunAppend(n: Node, p: seq<Event>, q: seq<Event>)
    ensures RunAll(n, p + q) == RunAll(RunAll(n, p), q)
    decreases |p|
  {
    hide Step;
    if p == [] {
      assert p + q == q;
    } else {
      assert (p + q)[0] == p[0] && (p + q)[1..] == p[1..] + q;
      RunAppend(Step(n, p[0]), p[1..], q);
    }
  }

  /** The ticket of the first preflight. */
  function FirstTicket(env: Env): Ticket { Ticket(1, 1, 2, env.now + 1, true) }

  /** From an empty journal: open, create, preflight, start, with the irreversible steps acknowledged if there are any. */
  function StartingRun(env: Env, policy: Policy, id: CampaignId, artifact: Artifact, plan: Plan): seq<Event> {
    [Open(0, env, policy, [], [])] + ([Run(Create(id, artifact, plan, false))] +
    ([Run(Preflight(env, id, true, true, FirstTicket(env)))] + ([Run(Start(env, id, plan.irreversible))] + [])))
  }

  /** The campaign as it is when it has been started for the first time. */
  ghost function FirstStarted(env: Env, c: Campaign): Campaign {
    StartedRecord(env, c.(ticket := FirstTicket(env), state := Validated), c.plan.irreversible).(state := Prepared)
  }

  lemma StartedOnce(st: StoreState, env: Env, id: CampaignId, c: Campaign)
    requires FirstHolds(st, id, c.(ticket := FirstTicket(env), state := Validated), map[])
    requires c.generation == 1 && c.plan.executable && env.verified && env.verifiedDigest == c.artifact.digest
    ensures FirstHolds(ApplyAll(st, StartTrace(st, env, id, c.plan.irreversible)), id, FirstStarted(env, c), map[])
  {
    hide ApplyAll, StartTrace, AdaptersRollBack;
    StartEffect(st, env, id, c.plan.irreversible);
    assert forall x, y: Campaign :: map[id := x][id := y] == map[id := y];
  }

  lemma NewCampaignIs(st: StoreState, artifact: Artifact, plan: Plan)
    ensures var c := NewCampaign(st, artifact, plan, false);
            c.state.Proposed? && c.generation == 1 && c.plan == plan && c.artifact == artifact && c.active == 0 &&
            |c.progress| == |plan.stages| && forall i :: 0 <= i < |c.progress| ==> c.progress[i].StagePending?
  {
  }

  lemma FirstStartedIs(env: Env, c: Campaign)
    requires c.generation == 1
    ensures var d := FirstStarted(env, c);
            d.generation == 2 && d.state.Prepared? && d.plan == c.plan && d.artifact == c.artifact && d.active == c.active &&
            d.progress == c.progress
  {
    hide AdaptersRollBack;
  }

  lemma OpenedNode(config: Config, policy: Policy, env: Env) returns (n: Node)
    ensures n == Step(Down([], config), Open(0, env, policy, [], []))
    ensures n.Up? && n.policy == policy && n.work == multiset{} && n.live.campaigns == map[] && n.live.attempts == map[] &&
            n.live.incarnation == 1 && n.live.epoch == 2
  {
    hide OpenTrace, OpenWrites, ApplyAll;
    FirstOpening(config, env);
    var log: seq<Entry> := [];
    assert Cut(log, 0) == [];
    n := Step(Down([], config), Open(0, env, policy, [], []));
  }

  lemma Ran(n: Node, s: Section) returns (post: Node)
    requires n.Up? && Enabled(n.live, n.work, s)
    ensures post == Step(n, Run(s)) && post.Up? && post.policy == n.policy
    ensures post.live == ApplyAll(n.live, TraceOf(n.live, n.policy, s)) && post.work == WorkAfter(n.live, n.policy, n.work, s)
  {
    hide ApplyAll, TraceOf, WorkAfter, Enabled;
    post := Step(n, Run(s));
  }

  /** What the first start leaves: the campaign prepared, in its second generation, and nothing outstanding. */
  lemma RunToStart(config: Config, policy: Policy, env: Env, id: CampaignId, artifact: Artifact, plan: Plan)
    returns (n: Node, c: Campaign)
    requires plan.executable && env.verified && env.verifiedDigest == artifact.digest
    ensures n == RunAll(Down([], config), StartingRun(env, policy, id, artifact, plan))
    ensures n.Up? && n.policy == policy && n.work == multiset{} && FirstHolds(n.live, id, FirstStarted(env, c), map[])
    ensures c.generation == 1 && c.plan == plan && c.artifact == artifact && c.active == 0 &&
            |c.progress| == |plan.stages| && forall i :: 0 <= i < |c.progress| ==> c.progress[i].StagePending?
  {
    hide Step, OpenTrace, OpenWrites, ApplyAll, CreateTrace, PreflightTrace, StartTrace, NewCampaign, FirstStarted, FirstTicket;
    var n1 := OpenedNode(config, policy, env);
    c := NewCampaign(n1.live, artifact, plan, false);
    NewCampaignIs(n1.live, artifact, plan);
    var n2 := Ran(n1, Create(id, artifact, plan, false));
    Created(n1.live, id, artifact, plan);
    var n3 := Ran(n2, Preflight(env, id, true, true, FirstTicket(env)));
    Preflighted(n2.live, env, id, c, FirstTicket(env));
    n := Ran(n3, Start(env, id, plan.irreversible));
    StartedOnce(n3.live, env, id, c);
    FourEvents(Down([], config), env, policy, id, artifact, plan);
  }

  lemma FourEvents(n: Node, env: Env, policy: Policy, id: CampaignId, artifact: Artifact, plan: Plan)
    ensures RunAll(n, StartingRun(env, policy, id, artifact, plan)) ==
            Step(Step(Step(Step(n, Open(0, env, policy, [], [])), Run(Create(id, artifact, plan, false))),
                 Run(Preflight(env, id, true, true, FirstTicket(env)))), Run(Start(env, id, plan.irreversible)))
  {
    hide Step, FirstTicket;
    var r3 := [Run(Start(env, id, plan.irreversible))] + [];
    var r2 := [Run(Preflight(env, id, true, true, FirstTicket(env)))] + r3;
    var r1 := [Run(Create(id, artifact, plan, false))] + r2;
    var n1 := Step(n, Open(0, env, policy, [], []));
    var n2 := Step(n1, r1[0]);
    var n3 := Step(n2, r2[0]);
    RunCons(n, Open(0, env, policy, [], []), r1);
    RunCons(n1, r1[0], r2);
    RunCons(n2, r2[0], r3);
    RunCons(n3, r3[0], []);
  }
}
