/** The provenance ledger over whole runs of the engine. */
module LedgerRuns {
  import opened Records
  import opened Store
  import opened Protocol
  import opened Commands
  import opened Invariants
  import opened Runs
  import opened Guarantees
  import Ledger

  lemma {:induction false} ReplayedConfig(st: StoreState, es: seq<Entry>)
    ensures ReloadAll(st, es).config == st.config
    decreases |es|
  {
    if es != [] { ReplayedConfig(Reload(st, es[0]), es[1..]); }
  }

  lemma StepConfig(n: Node, e: Event)
    requires NodeOk(n)
    ensures ConfigOf(Step(n, e)) == ConfigOf(n)
  {
    hide NodeOk, ApplyAll, AllowedAll, TraceOf, WorkAfter, OpenTrace, OpenWrites, CompactFiles, Replay, Enabled;
    match e
    case Run(s) =>
      if n.Up? && Enabled(n.live, n.work, s) {
        SectionAllowed(n, s);
        ConfigStays(n.live, TraceOf(n.live, n.policy, s));
      }
    case Open(cut, env, policy, attempts, campaigns) =>
      if n.Down? && CanOpen(Replay(Cut(n.log, cut), n.config), attempts, campaigns) { OpenConfig(n, cut, env, attempts, campaigns); }
    case _ =>
  }

  lemma OpenConfig(n: Node, cut: nat, env: Env, attempts: seq<Key>, campaigns: seq<CampaignId>)
    requires n.Down? && NodeOk(n) && CanOpen(Replay(Cut(n.log, cut), n.config), attempts, campaigns)
    ensures var st := Replay(Cut(n.log, cut), n.config);
            ApplyAll(st, OpenWrites(st, env, attempts, campaigns)).config == n.config
  {
    hide Inv, ApplyAll, AllowedAll, OpenTrace, OpenWrites, LogOk, TopEpoch;
    var st := Replay(Cut(n.log, cut), n.config);
    CutOk(n.log, n.config, cut);
    OpenWritesAllowed(st, env, attempts, campaigns);
    ConfigStays(st, OpenWrites(st, env, attempts, campaigns));
    ReplayedConfig(EmptyStore(n.config), Cut(n.log, cut));
  }

  lemma {:induction false} RunConfig(n: Node, events: seq<Event>)
    requires NodeOk(n)
    ensures ConfigOf(RunAll(n, events)) == ConfigOf(n)
    decreases |events|
  {
    hide NodeOk, Step;
    if events != [] {
      StepConfig(n, events[0]);
      StepOk(n, events[0]);
      RunConfig(Step(n, events[0]), events[1..]);
    }
  }

  lemma SeenConfig(config: Config, events: seq<Event>, st: StoreState)
    requires Seen(config, events, st)
    ensures st.config == config
  {
    hide NodeOk, RunAll;
    var n := RunAll(Down([], config), events);
    FirstNodeOk(config);
    RunConfig(Down([], config), events);
    if !(n.Up? && st == n.live) {
      var m: nat :| m <= |n.log| && st == Replay(n.log[..m], ConfigOf(n));
      ReplayedConfig(EmptyStore(config), n.log[..m]);
    }
  }

  /** At every point of every run, live or rebuilt from any prefix of the journal, crashes and compactions included: the
      ledger the store holds verifies, and the head and the sequence it goes on from are those of the last record. */
  lemma LedgerVerifies(decisions: nat, events: seq<Event>, st: StoreState)
    requires Seen(Config(decisions, Ledger.ComputeChain), events, st)
    ensures Ledger.Accepted(Ledger.ComputeChain, st.ledger)
    ensures st.head == Ledger.Head(st.ledger) && st.sequence == Ledger.LastSequence(st.ledger)
  {
    hide Seen, Ledger.Accepted, Ledger.Head, Ledger.LastSequence, Ledger.ComputeChain, CampaignsOk, AttemptsOk, LedgerOk;
    var config := Config(decisions, Ledger.ComputeChain);
    SeenOk(config, events, st);
    SeenConfig(config, events, st);
  }

  /** As long as no written record is lost, the ledger in the journal is only ever extended at its end. */
  lemma LedgerOnlyGrows(n: Node, events: seq<Event>)
    requires NodeOk(n) && Lossless(n, events)
    ensures Durable(n).ledger <= Durable(RunAll(n, events)).ledger
  {
    hide NodeOk, RunAll, Durable, Lossless;
    NothingIsUndone(n, events);
  }
}
