/** How the selected targets are divided into stages: all at once, one by one, or in waves across redundancy groups. */
module Staging {
  import opened Bytes
  import opened TextOrder
  import opened Skew
  import opened Records

  /** What the planner reads of a target. The adapter's claims are its strategies and whether service removal is needed. */
  datatype Candidate = Candidate(id: TargetId, component: Text, platform: Text, capabilities: seq<Text>,
                                   strategies: seq<Strategy>, removal: bool, installed: Version, group: Text)

  function Ids(targets: seq<Candidate>): (r: seq<TargetId>)
    ensures |r| == |targets| && forall i :: 0 <= i < |r| ==> r[i] == targets[i].id
  {
    seq(|targets|, i requires 0 <= i < |targets| => targets[i].id)
  }

  predicate NeedsRemoval(targets: seq<Candidate>) { exists i :: 0 <= i < |targets| && targets[i].removal }

  /** The parts of `make_stage` the engine reads. */
  function StageOf(targets: seq<Candidate>, maxParallel: nat): StagePlan {
    StagePlan(Ids(targets), if maxParallel == 0 then 1 else maxParallel, NeedsRemoval(targets))
  }

  method MakeStage(targets: seq<Candidate>, maxParallel: nat) returns (stage: StagePlan)
    ensures stage == StageOf(targets, maxParallel)
  {
    stage := StagePlan([], if maxParallel == 0 then 1 else maxParallel, false);
    for i := 0 to |targets|
      invariant stage == StageOf(targets[..i], maxParallel)
    {
      stage := stage.(targets := stage.targets + [targets[i].id]);
      if targets[i].removal { stage := stage.(requiresRemoval := true); }
      assert Ids(targets[..i + 1]) == Ids(targets[..i]) + [targets[i].id];
      assert targets[..i + 1] == targets[..i] + [targets[i]];
    }
    assert targets[..|targets|] == targets;
  }

  // ---- redundancy groups --------------------------------------------------------------------------------------

  /** The members of a group, in the order they were selected. */
  function Members(selected: seq<Candidate>, g: Text): (r: seq<Candidate>)
    ensures |r| <= |selected|
    decreases |selected|
  {
    if selected == [] then []
    else
      var front, last := selected[..|selected| - 1], selected[|selected| - 1];
      Members(front, g) + (if last.group == g then [last] else [])
  }

  predicate Increasing(keys: seq<Text>) { forall i, j :: 0 <= i < j < |keys| ==> TextLess(keys[i], keys[j]) }

  /** A key takes its place in the order of the map. */
  function InsertKey(keys: seq<Text>, g: Text): seq<Text>
    decreases |keys|
  {
    if keys == [] || TextLess(g, keys[0]) then [g] + keys
    else if keys[0] == g then keys
    else [keys[0]] + InsertKey(keys[1..], g)
  }

  /** The keys of the map of groups. */
  function Groups(selected: seq<Candidate>): seq<Text>
    decreases |selected|
  {
    if selected == [] then []
    else
      var front, last := selected[..|selected| - 1], selected[|selected| - 1];
      if last.group == [] then Groups(front) else InsertKey(Groups(front), last.group)
  }

  /** The members at `index` of every group that has one, in key order. */
  function Wave(keys: seq<Text>, selected: seq<Candidate>, index: nat): seq<Candidate>
    decreases |keys|
  {
    if keys == [] then []
    else
      var members := Members(selected, keys[|keys| - 1]);
      Wave(keys[..|keys| - 1], selected, index) + (if index < |members| then [members[index]] else [])
  }

  function LargestGroup(keys: seq<Text>, selected: seq<Candidate>): (n: nat)
    ensures forall i :: 0 <= i < |keys| ==> |Members(selected, keys[i])| <= n
    ensures n > 0 ==> exists i :: 0 <= i < |keys| && |Members(selected, keys[i])| == n
    decreases |keys|
  {
    if keys == [] then 0
    else
      var front := keys[..|keys| - 1];
      var n, m := LargestGroup(front, selected), |Members(selected, keys[|keys| - 1])|;
      assert n > 0 ==> exists i :: 0 <= i < |front| && |Members(selected, front[i])| == n;
      assert forall i :: 0 <= i < |front| ==> front[i] == keys[i];
      if n < m then m else n
  }

  function Waves(selected: seq<Candidate>, maxParallel: nat): seq<StagePlan> {
    var keys := Groups(selected);
    seq(LargestGroup(keys, selected), k requires k >= 0 => StageOf(Wave(keys, selected, k), maxParallel))
  }

  // ---- the keys -----------------------------------------------------------------------------------------------

  lemma {:induction false} InsertedKey(keys: seq<Text>, g: Text)
    requires Increasing(keys)
    ensures Increasing(InsertKey(keys, g))
    ensures forall h :: h in InsertKey(keys, g) <==> h in keys || h == g
    decreases |keys|
  {
    hide TextLess;
    if keys == [] {
    } else if TextLess(g, keys[0]) {
      forall j | 0 < j < |keys| ensures TextLess(g, keys[j]) { LessIsTransitive(g, keys[0], keys[j]); }
    } else if keys[0] != g {
      LessIsTotal(g, keys[0]);
      InsertedKey(keys[1..], g);
      assert keys == [keys[0]] + keys[1..];
      var rest := InsertKey(keys[1..], g);
      forall j | 0 <= j < |rest| ensures TextLess(keys[0], rest[j]) { assert rest[j] in keys[1..] || rest[j] == g; }
    }
  }

  /** The keys are the groups that occur, each once and in order. */
  lemma {:induction false} GroupsAreKeys(selected: seq<Candidate>)
    ensures Increasing(Groups(selected))
    ensures forall g :: g in Groups(selected) <==> g != [] && Members(selected, g) != []
    decreases |selected|
  {
    hide TextLess, InsertKey, Increasing;
    if selected != [] {
      var front, last := selected[..|selected| - 1], selected[|selected| - 1];
      GroupsAreKeys(front);
      if last.group != [] { InsertedKey(Groups(front), last.group); }
    } else {
      NoKeys();
    }
  }

  lemma NoKeys()
    ensures Increasing([])
  {
  }

  lemma IncreasingIsDistinct(keys: seq<Text>, i: nat, j: nat)
    requires Increasing(keys) && i < |keys| && j < |keys| && keys[i] == keys[j]
    ensures i == j
  {
    LessIsTotal(keys[i], keys[i]);
  }

  // ---- places -------------------------------------------------------------------------------------------------

  /** How many members of its group were selected before it. */
  function Rank(selected: seq<Candidate>, i: nat): nat
    requires i < |selected|
  {
    |Members(selected[..i], selected[i].group)|
  }

  /** Where the `k`-th member of a group stands among the selected targets. */
  function Place(selected: seq<Candidate>, g: Text, k: nat): (i: nat)
    requires k < |Members(selected, g)|
    ensures i < |selected| && selected[i] == Members(selected, g)[k] && selected[i].group == g && Rank(selected, i) == k
    decreases |selected|
  {
    var front, last := selected[..|selected| - 1], selected[|selected| - 1];
    if k == |Members(front, g)| then |selected| - 1
    else
      var i := Place(front, g, k);
      assert selected[..i] == front[..i];
      i
  }

  lemma {:induction false} RankIsPlace(selected: seq<Candidate>, i: nat)
    requires i < |selected|
    ensures var members := Members(selected, selected[i].group);
            Rank(selected, i) < |members| && members[Rank(selected, i)] == selected[i]
    decreases |selected|
  {
    var front := selected[..|selected| - 1];
    if i < |front| {
      assert selected[..i] == front[..i];
      RankIsPlace(front, i);
    }
  }

  /** Which key a position of a wave belongs to. */
  function KeyOf(keys: seq<Text>, selected: seq<Candidate>, index: nat, p: nat): (j: nat)
    requires p < |Wave(keys, selected, index)|
    ensures j < |keys| && index < |Members(selected, keys[j])| &&
            Members(selected, keys[j])[index] == Wave(keys, selected, index)[p]
    decreases |keys|
  {
    var front := keys[..|keys| - 1];
    if p == |Wave(front, selected, index)| then |keys| - 1 else KeyOf(front, selected, index, p)
  }

  lemma {:induction false} KeysOfWave(keys: seq<Text>, selected: seq<Candidate>, index: nat, p: nat, q: nat)
    requires p < |Wave(keys, selected, index)| && q < |Wave(keys, selected, index)|
    requires KeyOf(keys, selected, index, p) == KeyOf(keys, selected, index, q)
    ensures p == q
    decreases |keys|
  {
    var front := keys[..|keys| - 1];
    var n := |Wave(front, selected, index)|;
    if p < n && q < n { KeysOfWave(front, selected, index, p, q); }
  }

  lemma {:induction false} WaveHas(keys: seq<Text>, selected: seq<Candidate>, index: nat, j: nat) returns (p: nat)
    requires j < |keys| && index < |Members(selected, keys[j])|
    ensures p < |Wave(keys, selected, index)| && Wave(keys, selected, index)[p] == Members(selected, keys[j])[index]
    decreases |keys|
  {
    var front := keys[..|keys| - 1];
    if j < |front| {
      p := WaveHas(front, selected, index, j);
    } else {
      p := |Wave(front, selected, index)|;
    }
  }

  // ---- what the stages divide ---------------------------------------------------------------------------------

  predicate At(stages: seq<StagePlan>, s: nat, p: nat, t: TargetId) {
    s < |stages| && p < |stages[s].targets| && stages[s].targets[p] == t
  }

  /** Each of the targets stands in exactly one place of exactly one stage, and nothing else does. */
  ghost predicate Partition(stages: seq<StagePlan>, ids: seq<TargetId>) {
    (forall s: nat, p: nat, t :: At(stages, s, p, t) ==> t in ids) &&
    (forall t :: t in ids ==> exists s: nat, p: nat :: At(stages, s, p, t)) &&
    (forall s: nat, p: nat, t, s': nat, p': nat :: At(stages, s, p, t) && At(stages, s', p', t) ==> s == s' && p == p')
  }

  predicate Distinct(ids: seq<TargetId>) { forall i, j :: 0 <= i < j < |ids| ==> ids[i] != ids[j] }

  lemma OneStagePartitions(selected: seq<Candidate>, maxParallel: nat)
    requires Distinct(Ids(selected))
    ensures Partition([StageOf(selected, maxParallel)], Ids(selected))
  {
    var ids, stages := Ids(selected), [StageOf(selected, maxParallel)];
    forall t | t in ids ensures exists s: nat, p: nat :: At(stages, s, p, t) {
      var i :| 0 <= i < |ids| && ids[i] == t;
      assert At(stages, 0, i, t);
    }
  }

  /** One stage a target, activated one at a time. */
  function Singles(selected: seq<Candidate>): (r: seq<StagePlan>)
    ensures |r| == |selected|
    ensures forall i :: 0 <= i < |r| ==> r[i] == StageOf([selected[i]], 1)
  {
    seq(|selected|, i requires 0 <= i < |selected| => StageOf([selected[i]], 1))
  }

  lemma SinglesPartition(selected: seq<Candidate>)
    requires Distinct(Ids(selected))
    ensures Partition(Singles(selected), Ids(selected))
  {
    var ids, stages := Ids(selected), Singles(selected);
    assert forall s: nat, p: nat, t :: At(stages, s, p, t) ==> p == 0 && t == ids[s];
    forall t | t in ids ensures exists s: nat, p: nat :: At(stages, s, p, t) {
      var i :| 0 <= i < |ids| && ids[i] == t;
      assert At(stages, i, 0, t);
    }
  }

  /** The selected target at a place of a wave plan, and the key it came from. */
  lemma WavePlace(selected: seq<Candidate>, maxParallel: nat, s: nat, p: nat, t: TargetId) returns (i: nat, j: nat)
    requires At(Waves(selected, maxParallel), s, p, t)
    ensures i < |selected| && selected[i].id == t && Rank(selected, i) == s
    ensures j < |Groups(selected)| && Groups(selected)[j] == selected[i].group
    ensures p < |Wave(Groups(selected), selected, s)| && j == KeyOf(Groups(selected), selected, s, p)
  {
    var keys := Groups(selected);
    hide Groups, Wave, Rank, Members;
    j := KeyOf(keys, selected, s, p);
    i := Place(selected, keys[j], s);
  }

  lemma WavesPartition(selected: seq<Candidate>, maxParallel: nat)
    requires Distinct(Ids(selected)) && forall i :: 0 <= i < |selected| ==> selected[i].group != []
    ensures Partition(Waves(selected, maxParallel), Ids(selected))
  {
    var ids, stages, keys := Ids(selected), Waves(selected, maxParallel), Groups(selected);
    hide Waves, Groups, Rank, KeyOf, Increasing;
    GroupsAreKeys(selected);
    forall s: nat, p: nat, t | At(stages, s, p, t) ensures t in ids {
      var i, _ := WavePlace(selected, maxParallel, s, p, t);
      assert ids[i] == t;
    }
    forall t | t in ids ensures exists s: nat, p: nat :: At(stages, s, p, t) {
      var i :| 0 <= i < |ids| && ids[i] == t;
      var p := WaveOf(selected, maxParallel, i);
      assert At(stages, Rank(selected, i), p, t);
    }
    forall s: nat, p: nat, t, s': nat, p': nat | At(stages, s, p, t) && At(stages, s', p', t) ensures s == s' && p == p' {
      var i, j := WavePlace(selected, maxParallel, s, p, t);
      var i', j' := WavePlace(selected, maxParallel, s', p', t);
      assert ids[i] == ids[i'];
      IncreasingIsDistinct(keys, j, j');
      KeysOfWave(keys, selected, s, p, p');
    }
  }

  /** A target of a group stands in the stage of its rank. */
  lemma WaveOf(selected: seq<Candidate>, maxParallel: nat, i: nat) returns (p: nat)
    requires i < |selected| && selected[i].group != []
    ensures At(Waves(selected, maxParallel), Rank(selected, i), p, selected[i].id)
  {
    var keys, k := Groups(selected), Rank(selected, i);
    hide Groups, Rank, Members;
    RankIsPlace(selected, i);
    GroupsAreKeys(selected);
    var j :| 0 <= j < |keys| && keys[j] == selected[i].group;
    p := WaveHas(keys, selected, k, j);
  }

  /** Position `p` of stage `s` is for the `i`-th selected target. */
  predicate Holds(stages: seq<StagePlan>, selected: seq<Candidate>, s: nat, p: nat, i: nat) {
    i < |selected| && At(stages, s, p, selected[i].id)
  }

  /** Rolling replacement: stage `k` holds the `k`-th member of every group that has one, never two members of the same
      group, and there are as many stages as the largest group has members. */
  lemma WavesSpreadGroups(selected: seq<Candidate>, maxParallel: nat)
    requires Distinct(Ids(selected))
    ensures var stages := Waves(selected, maxParallel);
            (forall g, k :: g != [] && 0 <= k < |Members(selected, g)| ==>
               k < |stages| && Members(selected, g)[k].id in stages[k].targets) &&
            (forall s: nat, p: nat, i: nat, p': nat, i': nat ::
               (Holds(stages, selected, s, p, i) && Holds(stages, selected, s, p', i') &&
                selected[i].group == selected[i'].group) ==> i == i' && p == p') &&
            (|stages| > 0 ==> exists g :: g != [] && |Members(selected, g)| == |stages|)
  {
    var ids, stages, keys := Ids(selected), Waves(selected, maxParallel), Groups(selected);
    hide Groups, Rank, KeyOf, Increasing, Members, Wave;
    GroupsAreKeys(selected);
    forall g, k | g != [] && 0 <= k < |Members(selected, g)|
      ensures k < |stages| && Members(selected, g)[k].id in stages[k].targets
    {
      var i := Place(selected, g, k);
      var p := WaveOf(selected, maxParallel, i);
      assert stages[k].targets[p] == selected[i].id;
    }
    hide Waves;
    forall s: nat, p: nat, i: nat, p': nat, i': nat
      | Holds(stages, selected, s, p, i) && Holds(stages, selected, s, p', i') && selected[i].group == selected[i'].group
      ensures i == i' && p == p'
    {
      var m, j := WavePlace(selected, maxParallel, s, p, selected[i].id);
      var m', j' := WavePlace(selected, maxParallel, s, p', selected[i'].id);
      assert ids[m] == ids[i] && ids[m'] == ids[i'];
      IncreasingIsDistinct(keys, j, j');
      KeysOfWave(keys, selected, s, p, p');
    }
  }

  // ---- no empty stage -----------------------------------------------------------------------------------------

  /** Every wave holds a target. */
  lemma NoEmptyWave(selected: seq<Candidate>, maxParallel: nat)
    ensures forall k :: 0 <= k < |Waves(selected, maxParallel)| ==>
              Waves(selected, maxParallel)[k].targets != [] && Waves(selected, maxParallel)[k].maxParallel > 0
  {
    var keys := Groups(selected);
    forall k | 0 <= k < LargestGroup(keys, selected)
      ensures Waves(selected, maxParallel)[k].targets != [] && Waves(selected, maxParallel)[k].maxParallel > 0
    {
      var i :| 0 <= i < |keys| && |Members(selected, keys[i])| == LargestGroup(keys, selected);
      var _ := WaveHas(keys, selected, k, i);
    }
  }
}
