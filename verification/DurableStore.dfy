/** The journal-backed store as an object: in-memory maps that follow an append-only list of records. */
module DurableStores {
  import opened Bytes
  import opened Records
  import opened Store
  import Ledger

  // ---- what opening reads off the end of the journal ----------------------------------------------------------

  /** The scan for the last epoch: backwards to the last boot or snapshot, keeping the last value it meets. */
  function ScanEpoch(log: seq<Entry>, seen: nat): nat
    decreases |log|
  {
    if log == [] then seen
    else
      var e := log[|log| - 1];
      var now := if e.EpochEntry? || e.SnapshotEntry? then e.epoch else seen;
      if e.BootEntry? || e.SnapshotEntry? then now else ScanEpoch(log[..|log| - 1], now)
  }

  /** The incarnation of the last boot or snapshot, zero if there is none. */
  function ScanBoot(log: seq<Entry>): nat
    decreases |log|
  {
    if log == [] then 0
    else
      var e := log[|log| - 1];
      if e.BootEntry? || e.SnapshotEntry? then e.incarnation else ScanBoot(log[..|log| - 1])
  }

  /** What `recover` leaves in memory: the replay, with the scanned epoch if that is higher. */
  function Recovered(log: seq<Entry>, config: Config): StoreState {
    var st := Replay(log, config);
    if ScanEpoch(log, 0) > st.epoch then st.(epoch := ScanEpoch(log, 0)) else st
  }

  /** The backward scan and the forward replay agree on the incarnation. */
  lemma {:induction false} ScanBootIsReplayed(log: seq<Entry>, config: Config)
    ensures ScanBoot(log) == Replay(log, config).incarnation
    decreases |log|
  {
    if log != [] {
      var rest, e := log[..|log| - 1], log[|log| - 1];
      assert log == rest + [e];
      ReplayPush(rest, config, e);
      ScanBootIsReplayed(rest, config);
    }
  }

  lemma {:induction false} ScanEpochMeets(log: seq<Entry>, seen: nat, top: nat)
    requires seen <= top && forall e :: e in log && (e.EpochEntry? || e.SnapshotEntry?) ==> e.epoch <= top
    ensures ScanEpoch(log, seen) <= top
    decreases |log|
  {
    if log != [] {
      var e := log[|log| - 1];
      assert e in log;
      ScanEpochMeets(log[..|log| - 1], if e.EpochEntry? || e.SnapshotEntry? then e.epoch else seen, top);
    }
  }

  /** Compaction forgets the decisions and the attempts that cannot be read back, and nothing else. */
  lemma CompactionKeeps(st: StoreState)
    ensures var snapshot := SnapshotEntry(st.campaigns, st.attempts, st.ledger, st.head, st.sequence, st.epoch, st.incarnation);
            Recovered([snapshot, ShutdownEntry], st.config) ==
            st.(attempts := ReloadableOnly(st.attempts), decisions := map[])
  {
    var snapshot := SnapshotEntry(st.campaigns, st.attempts, st.ledger, st.head, st.sequence, st.epoch, st.incarnation);
    var log := [snapshot, ShutdownEntry];
    assert log[1..] == [ShutdownEntry] && log[1..][1..] == [];
    assert log[..1] == [snapshot];
    var st1 := Reload(EmptyStore(st.config), snapshot);
    assert ReloadAll(st1, [ShutdownEntry]) == ReloadAll(st1, []);
    assert ScanEpoch(log, 0) == ScanEpoch([snapshot], 0) == st.epoch;
  }

  class DurableStore {
    const config: Config
    var campaigns: map<CampaignId, Campaign>
    var attempts: map<Key, Attempt>
    var ledger: seq<Provenance>
    var head: Text
    var sequence: nat
    var decisions: map<CampaignId, seq<Decision>>
    var epoch: nat
    var incarnation: nat
    var log: seq<Entry>

    function View(): StoreState
      reads this
    {
      StoreState(campaigns, attempts, ledger, head, sequence, decisions, epoch, incarnation, config)
    }

    /** The entries were journaled and took effect, in order, and nothing else happened. */
    twostate predicate Wrote(t: seq<Entry>)
      reads this
    {
      View() == ApplyAll(old(View()), t) && log == old(log) + t
    }

    /** A store over a journal that was just read: replay, then a fresh incarnation. */
    constructor (records: seq<Entry>, config: Config)
      ensures this.config == config
      ensures var boot := BootEntry(Replay(records, config).incarnation + 1);
              log == records + [boot] && View() == Apply(Recovered(records, config), boot)
    {
      this.config := config;
      campaigns, attempts, ledger, head, sequence, decisions, epoch, incarnation := map[], map[], [], [], 0, map[], 1, 0;
      log := records;
      new;
      Recover();
      var last := LastBoot();
      ScanBootIsReplayed(records, config);
      incarnation := last + 1;
      log := log + [BootEntry(incarnation)];
    }

    method ApplyRecord(e: Entry)
      modifies this
      ensures View() == Reload(old(View()), e) && log == old(log)
    {
      match e
      case CampaignEntry(id, c) => campaigns := campaigns[id := c];
      case AttemptEntry(k, a) => if Reloadable(a) { attempts := attempts[k := a]; }
      case LedgerEntry(r) =>
        head, sequence := r.chain, r.sequence;
        ledger := ledger + [r];
      case DecisionEntry(id, d) =>
        var list := if id in decisions then decisions[id] else [];
        decisions := decisions[id := list + [d]];
      case EpochEntry(n) => epoch := n;
      case BootEntry(n) => incarnation := n;
      case SnapshotEntry(cs, ats, l, h, s, n, i) =>
        campaigns, decisions, ledger, head, sequence, epoch, incarnation := cs, map[], l, h, s, n, i;
        attempts := ReloadableOnly(ats);
      case ShutdownEntry =>
    }

    method LastEpoch() returns (last: nat)
      ensures last == ScanEpoch(log, 0)
    {
      last := 0;
      var i := |log|;
      assert log[..i] == log;
      while i > 0
        invariant 0 <= i <= |log|
        invariant ScanEpoch(log, 0) == ScanEpoch(log[..i], last)
      {
        i := i - 1;
        assert log[..i + 1][..i] == log[..i];
        if log[i].EpochEntry? || log[i].SnapshotEntry? { last := log[i].epoch; }
        if log[i].BootEntry? || log[i].SnapshotEntry? { return; }
      }
    }

    method LastBoot() returns (last: nat)
      ensures last == ScanBoot(log)
    {
      var i := |log|;
      assert log[..i] == log;
      while i > 0
        invariant 0 <= i <= |log|
        invariant ScanBoot(log) == ScanBoot(log[..i])
      {
        i := i - 1;
        assert log[..i + 1][..i] == log[..i];
        if log[i].BootEntry? || log[i].SnapshotEntry? { return log[i].incarnation; }
      }
      return 0;
    }

    method Recover()
      modifies this
      ensures View() == Recovered(log, config) && log == old(log)
    {
      campaigns, attempts, ledger, head, sequence, decisions, epoch, incarnation := map[], map[], [], [], 0, map[], 1, 0;
      for i := 0 to |log|
        invariant log == old(log)
        invariant View() == Replay(log[..i], config)
      {
        ApplyRecord(log[i]);
        assert log[..i + 1] == log[..i] + [log[i]];
        ReplayPush(log[..i], config, log[i]);
      }
      assert log[..|log|] == log;
      var last := LastEpoch();
      if last > epoch { epoch := last; }
    }

    method PutCampaign(id: CampaignId, c: Campaign)
      modifies this
      ensures Wrote([CampaignEntry(id, c)])
    {
      log := log + [CampaignEntry(id, c)];
      campaigns := campaigns[id := c];
      ApplyOne(old(View()), CampaignEntry(id, c));
    }

    method PutAttempt(k: Key, a: Attempt)
      modifies this
      ensures Wrote([AttemptEntry(k, a)])
    {
      log := log + [AttemptEntry(k, a)];
      attempts := attempts[k := a];
      ApplyOne(old(View()), AttemptEntry(k, a));
    }

    /** The record is given the next sequence, the head, and its digest, and becomes the head. */
    method AppendProvenance(r: Provenance)
      modifies this
      ensures Wrote([LedgerEntry(Ledger.Seal(config.digest, old(head), old(sequence), r))])
    {
      var s := r.(sequence := sequence + 1, previous := head);
      s := s.(chain := config.digest(head, Ledger.Bare(s)));
      log := log + [LedgerEntry(s)];
      ledger := ledger + [s];
      head, sequence := s.chain, s.sequence;
      ApplyOne(old(View()), LedgerEntry(s));
    }

    /** The checks that come first: the bound on the ledger, and the 64-bit counter. */
    method TryAppendProvenance(r: Provenance, limit: nat) returns (ok: bool)
      modifies this
      ensures ok <==> |old(ledger)| < limit && old(sequence) < COUNTER_MAX
      ensures Wrote(if ok then [LedgerEntry(Ledger.Seal(config.digest, old(head), old(sequence), r))] else [])
    {
      ok := |ledger| < limit && sequence < COUNTER_MAX;
      if ok { AppendProvenance(r); }
    }

    method AppendDecision(id: CampaignId, d: Decision)
      modifies this
      ensures Wrote([DecisionEntry(id, d)])
    {
      var list := if id in decisions then decisions[id] else [];
      if |list| >= config.decisions && |list| > 0 { list := list[1..]; }
      log := log + [DecisionEntry(id, d)];
      decisions := decisions[id := list + [d]];
      ApplyOne(old(View()), DecisionEntry(id, d));
    }

    /** An epoch that does not advance is refused. */
    method SetEpoch(n: nat) returns (ok: bool)
      modifies this
      ensures ok <==> n > old(epoch)
      ensures Wrote(if ok then [EpochEntry(n)] else [])
    {
      if n <= epoch { return false; }
      log := log + [EpochEntry(n)];
      epoch := n;
      ApplyOne(old(View()), EpochEntry(n));
      return true;
    }

    /** The journal is replaced by a snapshot and read again. */
    method Compact()
      modifies this
      ensures var was := old(View());
              log == [SnapshotEntry(was.campaigns, was.attempts, was.ledger, was.head, was.sequence, was.epoch, was.incarnation), ShutdownEntry] &&
              View() == was.(attempts := ReloadableOnly(was.attempts), decisions := map[])
    {
      CompactionKeeps(View());
      log := [SnapshotEntry(campaigns, attempts, ledger, head, sequence, epoch, incarnation), ShutdownEntry];
      Recover();
    }
  }
}
