/** The campaign lifecycle: states, guards and the table of guarded transitions.
    `RuleAt` is the table the program carries, `EvaluateTransition` is the scan over it, and `Permits` is an
    independent statement of which moves are legal that the rest of the model reasons with. */
module Lifecycle {

  datatype UpgradeState =
    | Proposed | Validated | Prepared | Staged | Activating | Verifying | Completed
    | Blocked | Paused | Failed | RollbackPlanned | RollingBack | RolledBack

  datatype AttemptState =
    | AttCreated | AttPreparing | AttPrepared | AttActivating | AttActivated | AttVerifying | AttVerified
    | AttFailed | AttAborted | AttRolledBack | AttAbandoned | AttRollingBack

  datatype StageState =
    | StagePending | StagePreparing | StagePrepared | StageActivating | StageActivatingPartial
    | StageVerifying | StageCompleted | StageFailed | StageBlocked | StageSkipped

  /** Everything a transition may depend on; each flag defaults to "not proven" in the program. */
  datatype Guards = Guards(
    preflightCurrent: bool, integrityVerified: bool, rollbackPlanRecorded: bool,
    irreversibleAcknowledged: bool, adapterSupports: bool, stagingComplete: bool,
    activationComplete: bool, verificationFresh: bool, skewWithinBudget: bool, drainSatisfied: bool,
    allStagesComplete: bool, failureRecorded: bool, rollbackEligible: bool, rollbackComplete: bool,
    manualRelease: bool)

  datatype Guard =
    | NoGuard | PreflightCurrent | IntegrityVerified | RollbackPlanRecorded | IrreversibleAcknowledged
    | AdapterSupports | StagingComplete | ActivationComplete | VerificationFresh | SkewWithinBudget
    | DrainSatisfied | AllStagesComplete | FailureRecorded | RollbackEligible | RollbackComplete

  /** A row of the table: the pair of states and up to two required guards. */
  datatype Rule = Rule(from: UpgradeState, to: UpgradeState, first: Guard, second: Guard)

  predicate Holds(g: Guards, which: Guard) {
    match which
    case NoGuard => true
    case PreflightCurrent => g.preflightCurrent
    case IntegrityVerified => g.integrityVerified
    case RollbackPlanRecorded => g.rollbackPlanRecorded
    case IrreversibleAcknowledged => g.irreversibleAcknowledged
    case AdapterSupports => g.adapterSupports
    case StagingComplete => g.stagingComplete
    case ActivationComplete => g.activationComplete
    case VerificationFresh => g.verificationFresh
    case SkewWithinBudget => g.skewWithinBudget
    case DrainSatisfied => g.drainSatisfied
    case AllStagesComplete => g.allStagesComplete
    case FailureRecorded => g.failureRecorded
    case RollbackEligible => g.rollbackEligible
    case RollbackComplete => g.rollbackComplete
  }

  predicate Terminal(s: UpgradeState) { s.Completed? || s.RolledBack? }

  predicate Active(s: UpgradeState) { s.Activating? || s.Verifying? || s.RollingBack? }

  predicate PermitsPause(s: UpgradeState) {
    s.Validated? || s.Prepared? || s.Staged? || s.Paused? || s.Blocked?
  }

  /** An operation is executing right now. */
  predicate InFlight(s: AttemptState) {
    s.AttPreparing? || s.AttActivating? || s.AttVerifying? || s.AttRollingBack?
  }

  /** The states of a campaign that still moves forward or has finished doing so: everything except the
      failure and rollback side of the lifecycle. */
  predicate Forward(s: UpgradeState) {
    !s.Failed? && !s.RollbackPlanned? && !s.RollingBack? && !s.RolledBack?
  }

  const RULE_COUNT: nat := 33

  /** The transition table in the program's order: row `i`. */
  function RuleAt(i: nat): Rule
    requires i < RULE_COUNT
  {
    match i
    case 0 => Rule(Proposed, Validated, PreflightCurrent, IntegrityVerified)
    case 1 => Rule(Blocked, Validated, PreflightCurrent, IntegrityVerified)
    case 2 => Rule(Paused, Validated, PreflightCurrent, IntegrityVerified)
    case 3 => Rule(Validated, Prepared, RollbackPlanRecorded, IrreversibleAcknowledged)
    case 4 => Rule(Prepared, Staged, AdapterSupports, StagingComplete)
    case 5 => Rule(Staged, Activating, SkewWithinBudget, DrainSatisfied)
    case 6 => Rule(Activating, Verifying, ActivationComplete, NoGuard)
    case 7 => Rule(Verifying, Staged, SkewWithinBudget, DrainSatisfied)
    case 8 => Rule(Verifying, Completed, VerificationFresh, AllStagesComplete)
    case 9 => Rule(Verifying, Failed, FailureRecorded, NoGuard)
    case 10 => Rule(Activating, Failed, FailureRecorded, NoGuard)
    case 11 => Rule(Staged, Failed, FailureRecorded, NoGuard)
    case 12 => Rule(Prepared, Failed, FailureRecorded, NoGuard)
    case 13 => Rule(Paused, Failed, FailureRecorded, NoGuard)
    case 14 => Rule(Validated, Failed, FailureRecorded, NoGuard)
    case 15 => Rule(Failed, RollbackPlanned, RollbackEligible, NoGuard)
    case 16 => Rule(RollbackPlanned, RollingBack, RollbackEligible, NoGuard)
    case 17 => Rule(RollingBack, RolledBack, RollbackComplete, NoGuard)
    case 18 => Rule(RollingBack, Failed, FailureRecorded, NoGuard)
    case 19 => Rule(Validated, Paused, NoGuard, NoGuard)
    case 20 => Rule(Prepared, Paused, NoGuard, NoGuard)
    case 21 => Rule(Staged, Paused, NoGuard, NoGuard)
    case 22 => Rule(Paused, Staged, StagingComplete, NoGuard)
    case 23 => Rule(Blocked, Paused, NoGuard, NoGuard)
    case 24 => Rule(Blocked, Failed, FailureRecorded, NoGuard)
    case 25 => Rule(Proposed, Blocked, FailureRecorded, NoGuard)
    case 26 => Rule(Validated, Blocked, FailureRecorded, NoGuard)
    case 27 => Rule(Prepared, Blocked, FailureRecorded, NoGuard)
    case 28 => Rule(Staged, Blocked, FailureRecorded, NoGuard)
    case 29 => Rule(Activating, Blocked, FailureRecorded, NoGuard)
    case 30 => Rule(Verifying, Blocked, FailureRecorded, NoGuard)
    case 31 => Rule(Paused, Paused, NoGuard, NoGuard)
    case _ => Rule(Blocked, Blocked, NoGuard, NoGuard)
  }

  /** Which moves are legal under which guards, stated per source state rather than as a table. */
  predicate Permits(from: UpgradeState, to: UpgradeState, g: Guards) {
    from == to ||
    match from
    case Proposed =>
      (to.Validated? && g.preflightCurrent && g.integrityVerified) || (to.Blocked? && g.failureRecorded)
    case Validated =>
      (to.Prepared? && g.rollbackPlanRecorded && g.irreversibleAcknowledged) || to.Paused? ||
      ((to.Failed? || to.Blocked?) && g.failureRecorded)
    case Prepared =>
      (to.Staged? && g.adapterSupports && g.stagingComplete) || to.Paused? ||
      ((to.Failed? || to.Blocked?) && g.failureRecorded)
    case Staged =>
      (to.Activating? && g.skewWithinBudget && g.drainSatisfied) || to.Paused? ||
      ((to.Failed? || to.Blocked?) && g.failureRecorded)
    case Activating =>
      (to.Verifying? && g.activationComplete) || ((to.Failed? || to.Blocked?) && g.failureRecorded)
    case Verifying =>
      (to.Staged? && g.skewWithinBudget && g.drainSatisfied) ||
      (to.Completed? && g.verificationFresh && g.allStagesComplete) ||
      ((to.Failed? || to.Blocked?) && g.failureRecorded)
    case Blocked =>
      (to.Validated? && g.preflightCurrent && g.integrityVerified) || to.Paused? ||
      (to.Failed? && g.failureRecorded)
    case Paused =>
      (to.Validated? && g.preflightCurrent && g.integrityVerified) || (to.Staged? && g.stagingComplete) ||
      (to.Failed? && g.failureRecorded)
    case Failed => to.RollbackPlanned? && g.rollbackEligible
    case RollbackPlanned => to.RollingBack? && g.rollbackEligible
    case RollingBack => (to.RolledBack? && g.rollbackComplete) || (to.Failed? && g.failureRecorded)
    case Completed => false
    case RolledBack => false
  }

  predicate RuleHolds(r: Rule, g: Guards) { Holds(g, r.first) && Holds(g, r.second) }

  predicate Matches(r: Rule, from: UpgradeState, to: UpgradeState) { r.from == from && r.to == to }

  /** Row `i` of the table grants exactly what `Permits` grants for its pair of states. */
  predicate RowIsSound(i: nat, g: Guards)
    requires i < RULE_COUNT
  {
    var r := RuleAt(i);
    !Terminal(r.from) && (r.from != r.to ==> (RuleHolds(r, g) <==> Permits(r.from, r.to, g)))
  }

  lemma FirstRows(i: nat, g: Guards)
    requires 0 <= i < 6
    ensures RowIsSound(i, g)
  {
    if i < 3 {} else {}
  }

  lemma SecondRows(i: nat, g: Guards)
    requires 6 <= i < 12
    ensures RowIsSound(i, g)
  {
    if i < 9 {} else {}
  }

  lemma ThirdRows(i: nat, g: Guards)
    requires 12 <= i < 18
    ensures RowIsSound(i, g)
  {
    if i < 15 {} else {}
  }

  lemma FourthRows(i: nat, g: Guards)
    requires 18 <= i < 25
    ensures RowIsSound(i, g)
  {
    if i < 21 {} else {}
  }

  lemma LastRows(i: nat, g: Guards)
    requires 25 <= i < RULE_COUNT
    ensures RowIsSound(i, g)
  {
    if i < 29 {} else {}
  }

  lemma RowsAreSound(i: nat, g: Guards)
    requires i < RULE_COUNT
    ensures RowIsSound(i, g)
  {
    if i < 6 { FirstRows(i, g); } else if i < 12 { SecondRows(i, g); } else if i < 18 { ThirdRows(i, g); }
    else if i < 25 { FourthRows(i, g); } else { LastRows(i, g); }
  }

  /** The pairs of distinct states that some rule mentions; used to show that a failed scan really refuses. */
  function RuleIndex(from: UpgradeState, to: UpgradeState, g: Guards): (i: nat)
    requires from != to && Permits(from, to, g)
    ensures i < RULE_COUNT && Matches(RuleAt(i), from, to)
  {
    match from
    case Proposed => if to.Validated? then 0 else 25
    case Blocked => if to.Validated? then 1 else if to.Paused? then 23 else 24
    case Paused => if to.Validated? then 2 else if to.Staged? then 22 else 13
    case Validated => if to.Prepared? then 3 else if to.Paused? then 19 else if to.Failed? then 14 else 26
    case Prepared => if to.Staged? then 4 else if to.Paused? then 20 else if to.Failed? then 12 else 27
    case Staged => if to.Activating? then 5 else if to.Paused? then 21 else if to.Failed? then 11 else 28
    case Activating => if to.Verifying? then 6 else if to.Failed? then 10 else 29
    case Verifying => if to.Staged? then 7 else if to.Completed? then 8 else if to.Failed? then 9 else 30
    case Failed => 15
    case RollbackPlanned => 16
    case RollingBack => if to.RolledBack? then 17 else 18
  }

  lemma NoRowNoPermit(from: UpgradeState, to: UpgradeState, g: Guards)
    requires from != to && forall j: nat :: j < RULE_COUNT ==> !Matches(RuleAt(j), from, to)
    ensures !Permits(from, to, g)
  {
    if Permits(from, to, g) { var i := RuleIndex(from, to, g); }
  }

  lemma FixedPoints(from: UpgradeState, to: UpgradeState, g: Guards)
    ensures Permits(from, from, g)
    ensures Terminal(from) ==> (Permits(from, to, g) <==> from == to)
  {
  }

  predicate FirstRule(i: nat, from: UpgradeState, to: UpgradeState) {
    i < RULE_COUNT && Matches(RuleAt(i), from, to) && forall j: nat :: j < i ==> !Matches(RuleAt(j), from, to)
  }

  /** The scan for the first rule of a pair of states. */
  method FindRule(from: UpgradeState, to: UpgradeState) returns (r: nat)
    ensures r <= RULE_COUNT && (r < RULE_COUNT ==> FirstRule(r, from, to))
    ensures forall j: nat :: j < r ==> !Matches(RuleAt(j), from, to)
  {
    r := 0;
    while r < RULE_COUNT && !Matches(RuleAt(r), from, to)
      invariant r <= RULE_COUNT
      invariant forall j: nat :: j < r ==> !Matches(RuleAt(j), from, to)
    {
      r := r + 1;
    }
  }

  /** The decision on a requested move: the first rule for the pair decides, and its unmet guards are reported. */
  method EvaluateTransition(from: UpgradeState, to: UpgradeState, g: Guards) returns (allowed: bool, unmet: seq<Guard>)
    ensures allowed <==> Permits(from, to, g)
    ensures allowed ==> unmet == []
    ensures forall i: nat, u :: from != to && !Terminal(from) && FirstRule(i, from, to) ==>
              (u in unmet <==> (u == RuleAt(i).first || u == RuleAt(i).second) && !Holds(g, u))
  {
    hide RuleAt, Permits, Holds;
    FixedPoints(from, to, g);
    if from == to { return true, []; }
    if Terminal(from) { return false, []; }
    var r := FindRule(from, to);
    if r == RULE_COUNT {
      NoRowNoPermit(from, to, g);
      return false, [];
    }
    var rule := RuleAt(r);
    RowsAreSound(r, g);
    assert forall i: nat :: FirstRule(i, from, to) ==> i == r;
    unmet := (if Holds(g, rule.first) then [] else [rule.first]) + (if Holds(g, rule.second) then [] else [rule.second]);
    allowed := unmet == [];
  }

  /** Whatever the guards say, the failure and rollback side never leads back to forward execution, and the
      two terminal states lead nowhere. */
  lemma NoReturnToForward(from: UpgradeState, to: UpgradeState, g: Guards)
    requires Permits(from, to, g)
    ensures Forward(to) ==> Forward(from)
    ensures Terminal(from) ==> to == from
  {
  }

  /** Completion is entered only from verifying, with fresh verification and every stage complete. */
  lemma CompletionIsGuarded(from: UpgradeState, g: Guards)
    requires Permits(from, Completed, g) && from != Completed
    ensures from == Verifying && g.verificationFresh && g.allStagesComplete
  {
  }

  /** What each state demands of whoever enters it, and from where it can be entered. Every way into activation passes the mix and the
      drain, and a paused campaign may go on to staged with its staging alone. */
  lemma EntryGates(from: UpgradeState, to: UpgradeState, g: Guards)
    requires from != to
    ensures Permits(from, to, g) <==>
            match to
            case Proposed => false
            case Validated => from in {Proposed, Blocked, Paused} && g.preflightCurrent && g.integrityVerified
            case Prepared => from.Validated? && g.rollbackPlanRecorded && g.irreversibleAcknowledged
            case Staged =>
              (from.Prepared? && g.adapterSupports && g.stagingComplete) ||
              (from.Verifying? && g.skewWithinBudget && g.drainSatisfied) || (from.Paused? && g.stagingComplete)
            case Activating => from.Staged? && g.skewWithinBudget && g.drainSatisfied
            case Verifying => from.Activating? && g.activationComplete
            case Completed => from.Verifying? && g.verificationFresh && g.allStagesComplete
            case Blocked => from in {Proposed, Validated, Prepared, Staged, Activating, Verifying} && g.failureRecorded
            case Paused => from in {Validated, Prepared, Staged, Blocked}
            case Failed =>
              from in {Validated, Prepared, Staged, Activating, Verifying, Blocked, Paused, RollingBack} && g.failureRecorded
            case RollbackPlanned => from.Failed? && g.rollbackEligible
            case RollingBack => from.RollbackPlanned? && g.rollbackEligible
            case RolledBack => from.RollingBack? && g.rollbackComplete
  {
  }

  /** Moves one after another, each permitted under its own guards. */
  predicate Path(states: seq<UpgradeState>, guards: seq<Guards>) {
    |states| == |guards| + 1 && forall i :: 0 <= i < |guards| ==> Permits(states[i], states[i + 1], guards[i])
  }

  /** A move from paused straight to staged. */
  predicate Shortcut(states: seq<UpgradeState>) {
    exists i :: 0 <= i < |states| - 1 && states[i].Paused? && states[i + 1].Staged?
  }

  /** On its way forward, past the preflight. */
  predicate UnderWay(s: UpgradeState) {
    s in {Validated, Prepared, Staged, Activating, Verifying, Completed}
  }

  predicate Preflighted(states: seq<UpgradeState>, guards: seq<Guards>)
    requires |states| == |guards| + 1
  {
    exists i :: 0 <= i < |guards| && states[i + 1].Validated? && guards[i].preflightCurrent && guards[i].integrityVerified
  }

  lemma ShortcutStays(states: seq<UpgradeState>, n: nat)
    requires n <= |states|
    ensures Shortcut(states[..n]) ==> Shortcut(states)
  {
  }

  /** Whatever moves a proposed campaign has made, it is not under way without a preflight on the way, as long as it was never
      taken from paused straight to staged. */
  lemma {:induction false} PathIsPreflighted(states: seq<UpgradeState>, guards: seq<Guards>)
    requires Path(states, guards) && states[0].Proposed? && UnderWay(states[|guards|]) && !Shortcut(states)
    ensures Preflighted(states, guards)
    decreases |guards|
  {
    hide Permits;
    var n := |guards| - 1;
    if n >= 0 {
      var before, last := states[n], states[n + 1];
      assert Permits(before, last, guards[n]);
      if UnderWay(before) {
        assert states[..n + 1][n] == before;
        ShortcutStays(states, n + 1);
        PathIsPreflighted(states[..n + 1], guards[..n]);
        var i :| 0 <= i < n && states[..n + 1][i + 1].Validated? && guards[..n][i].preflightCurrent && guards[..n][i].integrityVerified;
        assert states[i + 1].Validated? && guards[i].preflightCurrent;
      } else {
        EntryGates(before, last, guards[n]);
        assert !(states[n].Paused? && states[n + 1].Staged?);
      }
    }
  }

  /** The exception: the rules let a blocked campaign be paused and a paused one be staged, so that one is activated without any
      preflight. No section of the engine asks for that move. */
  lemma StagedWithoutPreflight(g: Guards)
    requires g.failureRecorded && g.stagingComplete && g.skewWithinBudget && g.drainSatisfied && !g.preflightCurrent
    ensures var states := [Proposed, Blocked, Paused, Staged, Activating];
            Path(states, [g, g, g, g]) && Shortcut(states) && !Preflighted(states, [g, g, g, g])
  {
    var states := [Proposed, Blocked, Paused, Staged, Activating];
    assert states[2].Paused? && states[3].Staged?;
  }
}
