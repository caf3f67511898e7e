/** The durable store: a journal of typed records, the maps it maintains in memory, and what a replay rebuilds.
    `Apply` is what a successful `put_*`/`append_*` does to the live maps; `Reload` is what `apply_record` does when the
    same record is read back. A ledger record comes with its sequence and digests filled in. The two differ in two places only: an attempt written while rolling back cannot be read
    back, and a live decision list is bounded. */
module Store {
  import opened Bytes
  import opened Records
  import Ledger

  datatype Entry =
    | CampaignEntry(id: CampaignId, campaign: Campaign)
    | AttemptEntry(key: Key, attempt: Attempt)
    | LedgerEntry(record: Provenance)
    | DecisionEntry(subject: CampaignId, decision: Decision)
    | EpochEntry(epoch: nat)
    | BootEntry(incarnation: nat)
    | SnapshotEntry(campaigns: map<CampaignId, Campaign>, attempts: map<Key, Attempt>, ledger: seq<Provenance>,
                    head: Text, sequence: nat, epoch: nat, incarnation: nat)
    | ShutdownEntry

  /** The length of a live decision list, and the digest that chains the ledger. */
  datatype Config = Config(decisions: nat, digest: Ledger.Digester)

  /** The in-memory state. The digest and the sequence of the last ledger record are kept beside the ledger; `config` does
      not change. */
  datatype StoreState = StoreState(
    campaigns: map<CampaignId, Campaign>, attempts: map<Key, Attempt>,
    ledger: seq<Provenance>, head: Text, sequence: nat,
    decisions: map<CampaignId, seq<Decision>>, epoch: nat, incarnation: nat,
    config: Config)

  /** What replay starts from. No boot has happened yet, so the last incarnation is zero. */
  function EmptyStore(config: Config): StoreState { StoreState(map[], map[], [], [], 0, map[], 1, 0, config) }

  /** `AttemptRecord::from_json` scans the state names up to "abandoned" and so refuses "rolling-back". */
  predicate Reloadable(a: Attempt) { !a.state.AttRollingBack? }

  function ReloadableOnly(attempts: map<Key, Attempt>): (r: map<Key, Attempt>)
    ensures forall k :: k in r <==> k in attempts && Reloadable(attempts[k])
    ensures forall k :: k in r ==> r[k] == attempts[k]
  {
    map k | k in attempts && Reloadable(attempts[k]) :: attempts[k]
  }

  function DecisionsOf(st: StoreState, id: CampaignId): seq<Decision> {
    if id in st.decisions then st.decisions[id] else []
  }

  /** The bounded append of the live list: the oldest decision makes room. */
  function PushBounded(list: seq<Decision>, d: Decision, bound: nat): seq<Decision> {
    (if |list| >= bound && |list| > 0 then list[1..] else list) + [d]
  }

  /** The effect of a successful write on the live maps, for entries the store writes one at a time. */
  function Apply(st: StoreState, e: Entry): StoreState {
    match e
    case CampaignEntry(id, c) => st.(campaigns := st.campaigns[id := c])
    case AttemptEntry(k, a) => st.(attempts := st.attempts[k := a])
    case LedgerEntry(r) => st.(ledger := st.ledger + [r], head := r.chain, sequence := r.sequence)
    case DecisionEntry(id, d) => st.(decisions := st.decisions[id := PushBounded(DecisionsOf(st, id), d, st.config.decisions)])
    case EpochEntry(n) => st.(epoch := n)
    case BootEntry(n) => st.(incarnation := n)
    case SnapshotEntry(_, _, _, _, _, _, _) => Reload(st, e)
    case ShutdownEntry => st
  }

  /** The effect of reading the entry back. */
  function Reload(st: StoreState, e: Entry): StoreState {
    match e
    case CampaignEntry(id, c) => st.(campaigns := st.campaigns[id := c])
    case AttemptEntry(k, a) => if Reloadable(a) then st.(attempts := st.attempts[k := a]) else st
    case LedgerEntry(r) => st.(ledger := st.ledger + [r], head := r.chain, sequence := r.sequence)
    case DecisionEntry(id, d) => st.(decisions := st.decisions[id := DecisionsOf(st, id) + [d]])
    case EpochEntry(n) => st.(epoch := n)
    case BootEntry(n) => st.(incarnation := n)
    case SnapshotEntry(cs, ats, l, head, sequence, n, i) =>
      StoreState(cs, ReloadableOnly(ats), l, head, sequence, map[], n, i, st.config)
    case ShutdownEntry => st
  }

  function ApplyAll(st: StoreState, es: seq<Entry>): StoreState
    decreases |es|
  {
    if es == [] then st else ApplyAll(Apply(st, es[0]), es[1..])
  }

  function ReloadAll(st: StoreState, es: seq<Entry>): StoreState
    decreases |es|
  {
    if es == [] then st else ReloadAll(Reload(st, es[0]), es[1..])
  }

  /** `DurableStore::recover`. */
  function Replay(log: seq<Entry>, config: Config): StoreState { ReloadAll(EmptyStore(config), log) }

  lemma {:induction false} ApplyAllAppend(st: StoreState, p: seq<Entry>, q: seq<Entry>)
    ensures ApplyAll(st, p + q) == ApplyAll(ApplyAll(st, p), q)
    decreases |p|
  {
    if p == [] {
      assert p + q == q;
    } else {
      assert (p + q)[1..] == p[1..] + q;
      ApplyAllAppend(Apply(st, p[0]), p[1..], q);
    }
  }

  lemma ApplyOne(st: StoreState, a: Entry)
    ensures ApplyAll(st, [a]) == Apply(st, a)
  {
    assert [a][1..] == [];
  }

  lemma ApplyTwo(st: StoreState, a: Entry, b: Entry)
    ensures ApplyAll(st, [a, b]) == Apply(Apply(st, a), b)
  {
    assert [a, b][1..] == [b];
    ApplyOne(Apply(st, a), b);
  }

  lemma ApplyCons(st: StoreState, e: Entry, rest: seq<Entry>)
    ensures ApplyAll(st, [e] + rest) == ApplyAll(Apply(st, e), rest)
  {
    assert ([e] + rest)[1..] == rest;
  }

  lemma {:induction false} ReloadAllAppend(st: StoreState, p: seq<Entry>, q: seq<Entry>)
    ensures ReloadAll(st, p + q) == ReloadAll(ReloadAll(st, p), q)
    decreases |p|
  {
    if p == [] {
      assert p + q == q;
    } else {
      assert (p + q)[1..] == p[1..] + q;
      ReloadAllAppend(Reload(st, p[0]), p[1..], q);
    }
  }

  lemma ReplayPush(log: seq<Entry>, config: Config, e: Entry)
    ensures Replay(log + [e], config) == Reload(Replay(log, config), e)
  {
    ReloadAllAppend(EmptyStore(config), log, [e]);
    assert ReloadAll(Replay(log, config), [e]) == ReloadAll(Reload(Replay(log, config), e), [e][1..]);
  }
}
