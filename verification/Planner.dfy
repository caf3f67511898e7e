/** `build_plan`: selecting the targets, collecting the reasons to reject the plan, and building its stages. */
module Planner {
  import opened Bytes
  import opened TextOrder
  import opened Skew
  import opened Records
  import opened Staging

  /** The artifact as the planner reads it. `fixedStages` are the stages whose activation step the artifact names as
      irreversible, and `fixedAll` says that it names every activation. */
  datatype Release = Release(artifact: Artifact, component: Text, platforms: seq<Text>, needs: seq<Text>,
                             fixedAll: bool, fixedStages: set<nat>)

  datatype Request = Request(campaign: Text, component: Text, targets: seq<TargetId>, strategy: Strategy, budget: Budget,
                             maxParallel: nat, acknowledged: bool)

  datatype Bounds = Bounds(maxTargets: nat, maxStages: nat)

  datatype Code =
    | ArtifactMismatch | UnknownTarget | DuplicateTarget | NoTargets | TooManyTargets | MixedComponent | PlatformUnsupported
    | CapabilityMissing | StrategyUnsupported | VersionRegression | AlreadyAtVersion | TooManyStages | Unacknowledged

  datatype Rejection = Rejection(code: Code, subject: Text)

  // ---- selection ----------------------------------------------------------------------------------------------

  /** `InventorySnapshot::find`: the first target with the name, or -1. */
  function Find(inventory: seq<Candidate>, id: TargetId): (r: int)
    ensures -1 <= r < |inventory|
    ensures r >= 0 ==> inventory[r].id == id
    ensures r < 0 ==> forall j :: 0 <= j < |inventory| ==> inventory[j].id != id
    decreases |inventory|
  {
    if inventory == [] then -1
    else if inventory[0].id == id then 0
    else
      var r := Find(inventory[1..], id);
      assert inventory == [inventory[0]] + inventory[1..];
      if r < 0 then -1 else r + 1
  }

  /** The targets of the component, or those that were asked for and are known, in the order given. */
  function Resolved(request: Request, inventory: seq<Candidate>): seq<Candidate> {
    if request.targets == [] then OfComponent(inventory, request.component) else Known(inventory, request.targets)
  }

  function OfComponent(inventory: seq<Candidate>, component: Text): seq<Candidate>
    decreases |inventory|
  {
    if inventory == [] then []
    else
      var last := inventory[|inventory| - 1];
      OfComponent(inventory[..|inventory| - 1], component) + (if last.component == component then [last] else [])
  }

  function Known(inventory: seq<Candidate>, asked: seq<TargetId>): seq<Candidate>
    decreases |asked|
  {
    if asked == [] then []
    else
      var at := Find(inventory, asked[|asked| - 1]);
      Known(inventory, asked[..|asked| - 1]) + (if at >= 0 then [inventory[at]] else [])
  }

  function Name(d: Candidate): Text { d.id }

  function Selected(request: Request, inventory: seq<Candidate>): seq<Candidate> { SortBy(Name, Resolved(request, inventory)) }

  // ---- what rejects a plan ------------------------------------------------------------------------------------

  predicate LacksCapability(d: Candidate, needs: seq<Text>) { exists i :: 0 <= i < |needs| && needs[i] !in d.capabilities }

  /** What is wrong with one target, for the codes that are about one. */
  predicate Unfit(code: Code, d: Candidate, request: Request, release: Release) {
    match code
    case MixedComponent => d.component != request.component
    case PlatformUnsupported => d.platform !in release.platforms
    case CapabilityMissing => LacksCapability(d, release.needs)
    case StrategyUnsupported => request.strategy !in d.strategies
    case VersionRegression => d.installed.reported && Newer(d.installed, release.artifact.version)
    case AlreadyAtVersion => Same(d.installed, release.artifact.version) && release.artifact.version.reported
    case _ => false
  }

  predicate UnfitTarget(code: Code, subject: Text, request: Request, release: Release, selected: seq<Candidate>) {
    exists i :: 0 <= i < |selected| && selected[i].id == subject && Unfit(code, selected[i], request, release)
  }

  predicate Twice(selected: seq<Candidate>, subject: Text) {
    exists i, j :: 0 <= i < j < |selected| && selected[i].id == subject && selected[j].id == subject
  }

  predicate Ungrouped(selected: seq<Candidate>, subject: Text) {
    exists i :: 0 <= i < |selected| && selected[i].id == subject && selected[i].group == []
  }

  predicate SmallGroup(selected: seq<Candidate>, g: Text) { g != [] && |Members(selected, g)| == 1 }

  function PlannedStages(request: Request, selected: seq<Candidate>): seq<StagePlan> {
    match request.strategy
    case RestartBased => Singles(selected)
    case RedundantPairRolling => Waves(selected, request.maxParallel)
    case _ => [StageOf(selected, request.maxParallel)]
  }

  /** A step of the stage cannot be undone: its activation, or the generation handoff. */
  predicate FixedStage(request: Request, release: Release, k: nat) {
    request.strategy.GenerationHandoff? || !release.artifact.reversible || release.fixedAll || k in release.fixedStages
  }

  predicate Irreversible(request: Request, release: Release, stages: nat) {
    exists k :: 0 <= k < stages && FixedStage(request, release, k)
  }

  /** Exactly when a rejection is recorded. */
  predicate Justified(r: Rejection, request: Request, release: Release, inventory: seq<Candidate>, bounds: Bounds) {
    var selected := Selected(request, inventory);
    var stages := |PlannedStages(request, selected)|;
    match r.code
    case ArtifactMismatch => release.component != request.component && r.subject == request.component
    case UnknownTarget => r.subject in request.targets && Find(inventory, r.subject) < 0
    case DuplicateTarget => Twice(selected, r.subject)
    case NoTargets => selected == [] && r.subject == request.component
    case TooManyTargets => |selected| > bounds.maxTargets && r.subject == request.component
    case StrategyUnsupported =>
      UnfitTarget(r.code, r.subject, request, release, selected) ||
      (request.strategy.RedundantPairRolling? && (Ungrouped(selected, r.subject) || SmallGroup(selected, r.subject)))
    case TooManyStages => stages > bounds.maxStages && r.subject == request.component
    case Unacknowledged => Irreversible(request, release, stages) && !request.acknowledged && r.subject == request.campaign
    case _ => UnfitTarget(r.code, r.subject, request, release, selected)
  }

  /** `reject`, under a condition. */
  function Reject(rejections: seq<Rejection>, rejecting: bool, code: Code, subject: Text): (r: seq<Rejection>)
    ensures forall x :: x in r <==> x in rejections || (rejecting && x.code == code && x.subject == subject)
  {
    if rejecting then rejections + [Rejection(code, subject)] else rejections
  }

  // ---- building the plan --------------------------------------------------------------------------------------

  method Resolve(request: Request, inventory: seq<Candidate>) returns (selected: seq<Candidate>, rejections: seq<Rejection>)
    ensures selected == Resolved(request, inventory)
    ensures forall r :: r in rejections <==> r.code.UnknownTarget? && r.subject in request.targets && Find(inventory, r.subject) < 0
  {
    selected, rejections := [], [];
    if request.targets == [] {
      for i := 0 to |inventory|
        invariant selected == OfComponent(inventory[..i], request.component)
      {
        assert inventory[..i + 1][..i] == inventory[..i];
        if inventory[i].component == request.component { selected := selected + [inventory[i]]; }
      }
      assert inventory[..|inventory|] == inventory;
    } else {
      var asked := request.targets;
      for i := 0 to |asked|
        invariant selected == Known(inventory, asked[..i])
        invariant forall r :: r in rejections <==> r.code.UnknownTarget? && r.subject in asked[..i] && Find(inventory, r.subject) < 0
      {
        assert asked[..i + 1] == asked[..i] + [asked[i]];
        var at := Find(inventory, asked[i]);
        if at < 0 {
          rejections := rejections + [Rejection(UnknownTarget, asked[i])];
        } else {
          selected := selected + [inventory[at]];
        }
      }
      assert asked[..|asked|] == asked;
    }
  }

  lemma SameNamesMeet(selected: seq<Candidate>, i: nat, j: nat)
    requires Ordered(Name, selected) && i < j < |selected| && selected[i].id == selected[j].id
    ensures selected[i + 1].id == selected[i].id
  {
    hide TextLess;
    LessIsTotal(selected[i].id, selected[i + 1].id);
  }

  method CheckDuplicates(selected: seq<Candidate>) returns (rejections: seq<Rejection>)
    requires Ordered(Name, selected)
    ensures forall r :: r in rejections <==> r.code.DuplicateTarget? && Twice(selected, r.subject)
  {
    hide Ordered;
    rejections := [];
    var i := 1;
    while i < |selected|
      invariant 1 <= i
      invariant forall r :: r in rejections <==>
        r.code.DuplicateTarget? && exists j :: 1 <= j < i && j < |selected| && selected[j].id == selected[j - 1].id == r.subject
    {
      if selected[i].id == selected[i - 1].id { rejections := rejections + [Rejection(DuplicateTarget, selected[i].id)]; }
      i := i + 1;
    }
    forall r: Rejection | r.code.DuplicateTarget? && Twice(selected, r.subject) ensures r in rejections {
      var j, k :| 0 <= j < k < |selected| && selected[j].id == r.subject && selected[k].id == r.subject;
      SameNamesMeet(selected, j, k);
      assert selected[j + 1].id == selected[(j + 1) - 1].id == r.subject;
    }
  }

  method CheckTarget(d: Candidate, request: Request, release: Release) returns (rejections: seq<Rejection>)
    ensures forall r :: r in rejections <==> r.subject == d.id && Unfit(r.code, d, request, release)
  {
    hide LacksCapability, Newer, Same, Reject;
    var version := release.artifact.version;
    rejections := Reject([], d.component != request.component, MixedComponent, d.id);
    rejections := Reject(rejections, d.platform !in release.platforms, PlatformUnsupported, d.id);
    var missing := MissingCapabilities(d, release.needs);
    rejections := Reject(rejections, missing != [], CapabilityMissing, d.id);
    rejections := Reject(rejections, request.strategy !in d.strategies, StrategyUnsupported, d.id);
    rejections := Reject(rejections, d.installed.reported && Newer(d.installed, version), VersionRegression, d.id);
    rejections := Reject(rejections, Same(d.installed, version) && version.reported, AlreadyAtVersion, d.id);
  }

  method MissingCapabilities(d: Candidate, needs: seq<Text>) returns (missing: seq<Text>)
    ensures missing != [] <==> LacksCapability(d, needs)
  {
    missing := [];
    for i := 0 to |needs|
      invariant missing != [] <==> exists j :: 0 <= j < i && needs[j] !in d.capabilities
    {
      if needs[i] !in d.capabilities { missing := missing + [needs[i]]; }
    }
  }

  method CheckTargets(selected: seq<Candidate>, request: Request, release: Release) returns (rejections: seq<Rejection>)
    ensures forall r :: r in rejections <==> UnfitTarget(r.code, r.subject, request, release, selected)
  {
    hide Unfit;
    rejections := [];
    for i := 0 to |selected|
      invariant forall r :: r in rejections <==> UnfitTarget(r.code, r.subject, request, release, selected[..i])
    {
      var more := CheckTarget(selected[i], request, release);
      UnfitStep(selected, i, request, release);
      rejections := rejections + more;
    }
    assert selected[..|selected|] == selected;
  }

  lemma UnfitStep(selected: seq<Candidate>, i: nat, request: Request, release: Release)
    requires i < |selected|
    ensures forall code, subject :: UnfitTarget(code, subject, request, release, selected[..i + 1]) <==>
              UnfitTarget(code, subject, request, release, selected[..i]) ||
              (selected[i].id == subject && Unfit(code, selected[i], request, release))
  {
    hide Unfit;
    forall code, subject
      ensures UnfitTarget(code, subject, request, release, selected[..i + 1]) <==>
              UnfitTarget(code, subject, request, release, selected[..i]) ||
              (selected[i].id == subject && Unfit(code, selected[i], request, release))
    {
      assert selected[..i + 1][i] == selected[i];
      assert forall j :: 0 <= j < i ==> selected[..i + 1][j] == selected[..i][j];
    }
  }

  /** The map of groups, as its keys in order and the members under each. */
  ghost predicate Grouped(keys: seq<Text>, groups: map<Text, seq<Candidate>>, selected: seq<Candidate>) {
    keys == Groups(selected) && (forall g :: g in groups <==> g in keys) &&
    forall g :: g in groups ==> groups[g] == Members(selected, g)
  }

  method GroupTargets(selected: seq<Candidate>)
    returns (keys: seq<Text>, groups: map<Text, seq<Candidate>>, rejections: seq<Rejection>)
    ensures Grouped(keys, groups, selected)
    ensures forall r :: r in rejections <==> r.code.StrategyUnsupported? && Ungrouped(selected, r.subject)
  {
    hide InsertKey, Grouped, Ungrouped;
    keys, groups, rejections := [], map[], [];
    NoGroups();
    for i := 0 to |selected|
      invariant Grouped(keys, groups, selected[..i])
      invariant forall r :: r in rejections <==> r.code.StrategyUnsupported? && Ungrouped(selected[..i], r.subject)
    {
      var t := selected[i];
      GroupStep(keys, groups, selected, i);
      UngroupedStep(selected, i);
      if t.group == [] {
        rejections := rejections + [Rejection(StrategyUnsupported, t.id)];
      } else {
        var members := if t.group in groups then groups[t.group] else [];
        groups := groups[t.group := members + [t]];
        keys := InsertKey(keys, t.group);
      }
    }
    assert selected[..|selected|] == selected;
  }

  lemma NoGroups()
    ensures Grouped([], map[], []) && forall subject :: !Ungrouped([], subject)
  {
  }

  lemma GroupStep(keys: seq<Text>, groups: map<Text, seq<Candidate>>, selected: seq<Candidate>, i: nat)
    requires i < |selected| && Grouped(keys, groups, selected[..i])
    ensures var t := selected[i];
            var members := if t.group in groups then groups[t.group] else [];
            if t.group == [] then Grouped(keys, groups, selected[..i + 1])
            else Grouped(InsertKey(keys, t.group), groups[t.group := members + [t]], selected[..i + 1])
  {
    hide InsertKey, Increasing, Groups, Members;
    var before, after, t := selected[..i], selected[..i + 1], selected[i];
    assert after[..i] == before && after[i] == t;
    GroupsAreKeys(before);
    GroupsAreKeys(after);
    GroupsGrow(before, t);
    assert after == before + [t];
    if t.group != [] { InsertedKey(keys, t.group); }
  }

  lemma GroupsGrow(before: seq<Candidate>, t: Candidate)
    ensures Groups(before + [t]) == (if t.group == [] then Groups(before) else InsertKey(Groups(before), t.group))
    ensures forall g :: Members(before + [t], g) == if t.group == g then Members(before, g) + [t] else Members(before, g)
  {
    hide InsertKey;
    assert (before + [t])[..|before|] == before;
  }

  lemma UngroupedStep(selected: seq<Candidate>, i: nat)
    requires i < |selected|
    ensures forall subject :: Ungrouped(selected[..i + 1], subject) <==>
              Ungrouped(selected[..i], subject) || (selected[i].id == subject && selected[i].group == [])
  {
    forall subject
      ensures Ungrouped(selected[..i + 1], subject) <==>
              Ungrouped(selected[..i], subject) || (selected[i].id == subject && selected[i].group == [])
    {
      assert selected[..i + 1][i] == selected[i];
      assert forall j :: 0 <= j < i ==> selected[..i + 1][j] == selected[..i][j];
    }
  }

  lemma WavesEnd(keys: seq<Text>, selected: seq<Candidate>, index: nat)
    ensures Wave(keys, selected, index) != [] <==> index < LargestGroup(keys, selected)
  {
    hide Wave, Members, LargestGroup;
    var largest := LargestGroup(keys, selected);
    if index < largest {
      var j :| 0 <= j < |keys| && |Members(selected, keys[j])| == largest;
      var _ := WaveHas(keys, selected, index, j);
    }
    if Wave(keys, selected, index) != [] {
      var _ := KeyOf(keys, selected, index, 0);
    }
  }

  /** The wave loop: stage after stage takes the next member of every group, until no group has one. */
  method RollingStages(selected: seq<Candidate>, maxParallel: nat) returns (stages: seq<StagePlan>, rejections: seq<Rejection>)
    ensures stages == Waves(selected, maxParallel)
    ensures forall r :: r in rejections <==>
              r.code.StrategyUnsupported? && (Ungrouped(selected, r.subject) || SmallGroup(selected, r.subject))
  {
    hide Wave, Members, LargestGroup, StageOf, Groups, Ungrouped;
    var keys, groups, ungrouped := GroupTargets(selected);
    assert Grouped(keys, groups, selected);
    stages := [];
    var index, progressing := 0, true;
    while progressing
      invariant |stages| <= LargestGroup(keys, selected)
      invariant if progressing then index == |stages| else |stages| == LargestGroup(keys, selected)
      invariant forall k :: 0 <= k < |stages| ==> stages[k] == StageOf(Wave(keys, selected, k), maxParallel)
      decreases progressing, LargestGroup(keys, selected) - |stages|
    {
      WavesEnd(keys, selected, index);
      var wave := TakeWave(keys, groups, selected, index);
      progressing := wave != [];
      if wave != [] {
        var stage := MakeStage(wave, maxParallel);
        stages := stages + [stage];
      }
      index := index + 1;
    }
    var small := CheckGroups(keys, groups, selected);
    rejections := ungrouped + small;
  }

  method TakeWave(keys: seq<Text>, groups: map<Text, seq<Candidate>>, selected: seq<Candidate>, index: nat)
    returns (wave: seq<Candidate>)
    requires forall g :: g in keys ==> g in groups && groups[g] == Members(selected, g)
    ensures wave == Wave(keys, selected, index)
  {
    hide Members;
    wave := [];
    for j := 0 to |keys|
      invariant wave == Wave(keys[..j], selected, index)
    {
      assert keys[..j + 1][..j] == keys[..j] && keys[..j + 1][j] == keys[j];
      if index < |groups[keys[j]]| { wave := wave + [groups[keys[j]][index]]; }
    }
    assert keys[..|keys|] == keys;
  }

  method CheckGroups(keys: seq<Text>, groups: map<Text, seq<Candidate>>, selected: seq<Candidate>)
    returns (rejections: seq<Rejection>)
    requires keys == Groups(selected)
    requires forall g :: g in keys ==> g in groups && groups[g] == Members(selected, g)
    ensures forall r :: r in rejections <==> r.code.StrategyUnsupported? && SmallGroup(selected, r.subject)
  {
    hide Members, Groups;
    GroupsAreKeys(selected);
    rejections := [];
    for j := 0 to |keys|
      invariant forall r :: r in rejections <==> r.code.StrategyUnsupported? && r.subject in keys[..j] && SmallGroup(selected, r.subject)
    {
      assert keys[..j + 1] == keys[..j] + [keys[j]];
      if |groups[keys[j]]| < 2 { rejections := rejections + [Rejection(StrategyUnsupported, keys[j])]; }
    }
    assert keys[..|keys|] == keys;
  }

  method BuildStages(request: Request, selected: seq<Candidate>) returns (stages: seq<StagePlan>, rejections: seq<Rejection>)
    ensures stages == PlannedStages(request, selected)
    ensures forall r :: r in rejections <==> r.code.StrategyUnsupported? && request.strategy.RedundantPairRolling? &&
                                             (Ungrouped(selected, r.subject) || SmallGroup(selected, r.subject))
  {
    hide Waves, StageOf, Ungrouped, SmallGroup;
    stages, rejections := [], [];
    match request.strategy
    case InPlace =>
      var stage := MakeStage(selected, request.maxParallel);
      stages := [stage];
    case GenerationHandoff =>
      var stage := MakeStage(selected, request.maxParallel);
      stages := [stage];
    case RestartBased =>
      for i := 0 to |selected|
        invariant |stages| == i && forall k :: 0 <= k < i ==> stages[k] == StageOf([selected[k]], 1)
      {
        var stage := MakeStage([selected[i]], 1);
        stages := stages + [stage];
      }
    case RedundantPairRolling =>
      stages, rejections := RollingStages(selected, request.maxParallel);
  }

  method HasIrreversible(request: Request, release: Release, stages: nat) returns (found: bool)
    ensures found <==> Irreversible(request, release, stages)
  {
    hide FixedStage;
    found := false;
    for k := 0 to stages
      invariant found <==> exists j :: 0 <= j < k && FixedStage(request, release, j)
    {
      if FixedStage(request, release, k) { found := true; }
    }
  }

  // ---- an executable plan -------------------------------------------------------------------------------------

  /** A plan without rejections divides the selected targets among its stages. */
  lemma ExecutablePartitions(request: Request, release: Release, inventory: seq<Candidate>, bounds: Bounds)
    requires forall r :: !Justified(r, request, release, inventory, bounds)
    ensures var selected := Selected(request, inventory);
            selected != [] && Partition(PlannedStages(request, selected), Ids(selected)) &&
            |PlannedStages(request, selected)| <= bounds.maxStages && |selected| <= bounds.maxTargets
  {
    hide Partition, Waves, StageOf, UnfitTarget, Irreversible, Selected;
    var selected := Selected(request, inventory);
    assert !Justified(Rejection(NoTargets, request.component), request, release, inventory, bounds);
    assert !Justified(Rejection(TooManyTargets, request.component), request, release, inventory, bounds);
    assert !Justified(Rejection(TooManyStages, request.component), request, release, inventory, bounds);
    forall i, j | 0 <= i < j < |selected| ensures selected[i].id != selected[j].id {
      assert !Justified(Rejection(DuplicateTarget, selected[i].id), request, release, inventory, bounds);
    }
    match request.strategy
    case RestartBased => SinglesPartition(selected);
    case RedundantPairRolling =>
      forall i | 0 <= i < |selected| ensures selected[i].group != [] {
        assert !Justified(Rejection(StrategyUnsupported, selected[i].id), request, release, inventory, bounds);
      }
      WavesPartition(selected, request.maxParallel);
    case _ => OneStagePartitions(selected, request.maxParallel);
  }

  /** The plan is executable exactly when nothing rejects it, and then each selected target has exactly one place. */
  method BuildPlan(request: Request, release: Release, inventory: seq<Candidate>, bounds: Bounds)
    returns (plan: Plan, rejections: seq<Rejection>)
    ensures forall r :: r in rejections <==> Justified(r, request, release, inventory, bounds)
    ensures plan.executable <==> forall r :: !Justified(r, request, release, inventory, bounds)
    ensures plan.stages == PlannedStages(request, Selected(request, inventory))
    ensures plan.executable ==> Partition(plan.stages, Ids(Selected(request, inventory)))
    ensures plan.irreversible <==> Irreversible(request, release, |plan.stages|)
    ensures plan.strategy == request.strategy && plan.budget == request.budget
  {
    hide Partition, PlannedStages, UnfitTarget, Irreversible, Twice, Ungrouped, SmallGroup, Find, Ids, Reject, Justified, Selected,
         Ordered, Resolved, SortBy;
    rejections := Reject([], release.component != request.component, ArtifactMismatch, request.component);
    var resolved, unknown := Resolve(request, inventory);
    var selected := SortBy(Name, resolved);
    SortOrders(Name, resolved);
    var duplicates := CheckDuplicates(selected);
    rejections := rejections + unknown + duplicates;
    rejections := Reject(rejections, selected == [], NoTargets, request.component);
    rejections := Reject(rejections, |selected| > bounds.maxTargets, TooManyTargets, request.component);
    var unfit := CheckTargets(selected, request, release);
    var stages, ungrouped := BuildStages(request, selected);
    rejections := rejections + unfit + ungrouped;
    rejections := Reject(rejections, |stages| > bounds.maxStages, TooManyStages, request.component);
    var irreversible := HasIrreversible(request, release, |stages|);
    rejections := Reject(rejections, irreversible && !request.acknowledged, Unacknowledged, request.campaign);
    plan := Plan(stages, rejections == [], irreversible, request.strategy, request.budget);
    forall r ensures r in rejections <==> Justified(r, request, release, inventory, bounds) {
      UnfitCode(r, request, release, selected);
      JustifiedBy(r, request, release, inventory, bounds);
    }
    SelectedIs(request, inventory);
    NoneRejected(rejections);
    if rejections == [] { ExecutablePartitions(request, release, inventory, bounds); }
  }

  lemma SelectedIs(request: Request, inventory: seq<Candidate>)
    ensures Selected(request, inventory) == SortBy(Name, Resolved(request, inventory))
  {
  }

  lemma JustifiedBy(r: Rejection, request: Request, release: Release, inventory: seq<Candidate>, bounds: Bounds)
    ensures var selected := SortBy(Name, Resolved(request, inventory));
            var stages := |PlannedStages(request, selected)|;
            selected == Selected(request, inventory) &&
            (Justified(r, request, release, inventory, bounds) <==>
             (r.code.ArtifactMismatch? && release.component != request.component && r.subject == request.component) ||
             (r.code.UnknownTarget? && r.subject in request.targets && Find(inventory, r.subject) < 0) ||
             (r.code.DuplicateTarget? && Twice(selected, r.subject)) ||
             (r.code.NoTargets? && selected == [] && r.subject == request.component) ||
             (r.code.TooManyTargets? && |selected| > bounds.maxTargets && r.subject == request.component) ||
             (r.code.TooManyStages? && stages > bounds.maxStages && r.subject == request.component) ||
             (r.code.Unacknowledged? && Irreversible(request, release, stages) && !request.acknowledged && r.subject == request.campaign) ||
             UnfitTarget(r.code, r.subject, request, release, selected) ||
             (r.code.StrategyUnsupported? && request.strategy.RedundantPairRolling? &&
              (Ungrouped(selected, r.subject) || SmallGroup(selected, r.subject))))
  {
    hide SortBy, Resolved, PlannedStages, Twice, Irreversible, Ungrouped, SmallGroup, Find, UnfitTarget;
    UnfitCode(r, request, release, Selected(request, inventory));
  }

  lemma NoneRejected(rejections: seq<Rejection>)
    ensures rejections == [] <==> forall r :: r !in rejections
  {
    if rejections != [] { assert rejections[0] in rejections; }
  }

  lemma UnfitCode(r: Rejection, request: Request, release: Release, selected: seq<Candidate>)
    ensures UnfitTarget(r.code, r.subject, request, release, selected) ==>
              r.code.MixedComponent? || r.code.PlatformUnsupported? || r.code.CapabilityMissing? || r.code.StrategyUnsupported? ||
              r.code.VersionRegression? || r.code.AlreadyAtVersion?
  {
  }
}
