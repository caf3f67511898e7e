/** `execute_item`: the gates before an activation, the retry loops around the adapter, and what becomes of an
    acknowledgement that is lost. */
module Execution {
  import opened Skew
  import opened Verification
  import opened Protocol

  // ---- one operation and its retries --------------------------------------------------------------------------

  /** An adapter's answer to one call. */
  datatype Reply<T> = Done(value: T) | Lost(retryable: bool)

  /** The calls end with the first answer, with an error that is not worth a retry, or with the retry budget. */
  ghost predicate EndsAfter<T>(replies: nat -> Reply<T>, maxRetries: nat, calls: nat) {
    1 <= calls <= maxRetries + 1 &&
    (forall i :: 0 <= i < calls - 1 ==> replies(i).Lost? && replies(i).retryable) &&
    (replies(calls - 1).Lost? && replies(calls - 1).retryable ==> calls == maxRetries + 1)
  }

  /** The loop around `prepare`, `verify` and `rollback`. */
  method Retry<T>(replies: nat -> Reply<T>, maxRetries: nat) returns (calls: nat, reply: Reply<T>)
    ensures EndsAfter(replies, maxRetries, calls) && reply == replies(calls - 1)
  {
    var retries := 0;
    while true
      invariant retries <= maxRetries
      invariant forall i :: 0 <= i < retries ==> replies(i).Lost? && replies(i).retryable
      decreases maxRetries - retries
    {
      reply := replies(retries);
      if reply.Done? || !reply.retryable || retries >= maxRetries { return retries + 1, reply; }
      retries := retries + 1;
    }
  }

  // ---- activation ---------------------------------------------------------------------------------------------

  datatype Sight = Blind | Sees(version: Version)

  /** One round of the activation loop: whether the call put the version on the target, what came back, and what an
      observation made right after it shows. */
  datatype Round = Round(effect: bool, reply: Reply<bool>, sight: Sight)

  predicate SeenLive(r: Round, version: Version) { r.sight.Sees? && Same(r.sight.version, version) }

  /** The round is followed by another call, if the budget allows. */
  predicate Repeats(r: Round, version: Version) { r.reply.Lost? && r.reply.retryable && !SeenLive(r, version) }

  ghost predicate Ends(rounds: nat -> Round, maxRetries: nat, version: Version, calls: nat, activated: bool, recovered: bool) {
    1 <= calls <= maxRetries + 1 &&
    (forall i :: 0 <= i < calls - 1 ==> Repeats(rounds(i), version)) &&
    var last := rounds(calls - 1);
    match last.reply
    case Done(value) => activated == value && !recovered
    case Lost(retryable) =>
      if !retryable || calls == maxRetries + 1 then !activated && !recovered
      else SeenLive(last, version) && activated && recovered
  }

  /** The activation loop: a lost acknowledgement is looked into before the call is repeated. */
  method Activate(rounds: nat -> Round, maxRetries: nat, version: Version) returns (calls: nat, activated: bool, recovered: bool)
    ensures Ends(rounds, maxRetries, version, calls, activated, recovered)
  {
    hide Same;
    var retries := 0;
    while true
      invariant retries <= maxRetries
      invariant forall i :: 0 <= i < retries ==> Repeats(rounds(i), version)
      decreases maxRetries - retries
    {
      var round := rounds(retries);
      if round.reply.Done? { return retries + 1, round.reply.value, false; }
      if !round.reply.retryable { return retries + 1, false, false; }
      if retries >= maxRetries { return retries + 1, false, false; }
      retries := retries + 1;
      if SeenLive(round, version) { return retries, true, true; }
    }
  }

  /** Some of the first `n` calls has put the version on the target. */
  ghost predicate Live(rounds: nat -> Round, n: nat) { exists i :: 0 <= i < n && rounds(i).effect }

  /** The target was not live before, and nothing that answers lies: neither the adapter nor the observation. */
  ghost predicate Honest(rounds: nat -> Round, version: Version) {
    forall i :: 0 <= i ==>
      (rounds(i).reply.Done? ==> (rounds(i).reply.value <==> Live(rounds, i + 1))) &&
      (rounds(i).sight.Sees? ==> (Same(rounds(i).sight.version, version) <==> Live(rounds, i + 1)))
  }

  /** A live target is called again only if it could not be observed after the call that made it live. */
  lemma RepeatNeedsBlindness(rounds: nat -> Round, maxRetries: nat, version: Version, calls: nat, activated: bool,
                             recovered: bool, i: nat)
    requires Honest(rounds, version) && Ends(rounds, maxRetries, version, calls, activated, recovered)
    requires 0 < i < calls && Live(rounds, i)
    ensures rounds(i - 1).sight.Blind?
  {
    hide Same, Live;
    assert Repeats(rounds(i - 1), version);
  }

  /** How many of the first `n` calls took effect. */
  function Effects(rounds: nat -> Round, n: nat): nat {
    if n == 0 then 0 else Effects(rounds, n - 1) + (if rounds(n - 1).effect then 1 else 0)
  }

  /** After how many of the first `n` calls the target could not be observed. */
  function Blinds(rounds: nat -> Round, n: nat): nat {
    if n == 0 then 0 else Blinds(rounds, n - 1) + (if rounds(n - 1).sight.Blind? then 1 else 0)
  }

  lemma {:induction false} NoEffectBeforeLive(rounds: nat -> Round, n: nat)
    requires !Live(rounds, n)
    ensures Effects(rounds, n) == 0
  {
    if n > 0 {
      assert !rounds(n - 1).effect;
      NoEffectBeforeLive(rounds, n - 1);
    }
  }

  /** Every effective call but the first is paid for by an observation that failed before it. */
  lemma {:induction false} EffectsBound(rounds: nat -> Round, maxRetries: nat, version: Version, calls: nat, activated: bool,
                                        recovered: bool, n: nat)
    requires Honest(rounds, version) && Ends(rounds, maxRetries, version, calls, activated, recovered)
    requires 0 < n <= calls
    ensures Effects(rounds, n) <= 1 + Blinds(rounds, n - 1)
    decreases n
  {
    hide Honest, Ends, Live;
    if n > 1 {
      EffectsBound(rounds, maxRetries, version, calls, activated, recovered, n - 1);
      if Live(rounds, n - 1) {
        RepeatNeedsBlindness(rounds, maxRetries, version, calls, activated, recovered, n - 1);
      } else {
        NoEffectBeforeLive(rounds, n - 1);
      }
    } else {
      assert Effects(rounds, 0) == 0;
    }
  }

  /** With the target in sight, no call is made on a live target, so at most one call takes effect. */
  lemma OneEffect(rounds: nat -> Round, maxRetries: nat, version: Version, calls: nat, activated: bool, recovered: bool)
    requires Honest(rounds, version) && Ends(rounds, maxRetries, version, calls, activated, recovered)
    requires forall i :: 0 <= i < calls ==> rounds(i).sight.Sees?
    ensures !Live(rounds, calls - 1)
    ensures forall i, j :: 0 <= i < calls && 0 <= j < calls && rounds(i).effect && rounds(j).effect ==> i == j
  {
    hide Same;
    if calls > 1 && Live(rounds, calls - 1) {
      RepeatNeedsBlindness(rounds, maxRetries, version, calls, activated, recovered, calls - 1);
    }
  }

  // ---- what the caller can know -------------------------------------------------------------------------------

  /** The loop looks at the target after a loss that it may retry. */
  predicate Looks(reply: Reply<bool>, calls: nat, maxRetries: nat) { reply.Lost? && reply.retryable && calls <= maxRetries }

  /** The loop gave up on a loss without looking. */
  predicate Unresolved(reply: Reply<bool>, calls: nat, maxRetries: nat) { reply.Lost? && !Looks(reply, calls, maxRetries) }

  /** Two courses of events that the loop cannot tell apart: the same replies, and the same sights wherever it looked. */
  ghost predicate SameView(rounds: nat -> Round, world: nat -> Round, calls: nat, maxRetries: nat) {
    forall i :: 0 <= i < calls ==>
      world(i).reply == rounds(i).reply && (Looks(rounds(i).reply, i + 1, maxRetries) ==> world(i).sight == rounds(i).sight)
  }

  lemma RightWhenResolved(rounds: nat -> Round, maxRetries: nat, version: Version, calls: nat, activated: bool, recovered: bool)
    requires Honest(rounds, version) && Ends(rounds, maxRetries, version, calls, activated, recovered)
    requires !Unresolved(rounds(calls - 1).reply, calls, maxRetries)
    ensures activated <==> Live(rounds, calls)
  {
    hide Same, Live;
    assert rounds(calls - 1).reply.Done? || SeenLive(rounds(calls - 1), version);
  }

  lemma SameEnd(rounds: nat -> Round, world: nat -> Round, maxRetries: nat, version: Version, calls: nat, activated: bool,
                recovered: bool)
    requires Ends(rounds, maxRetries, version, calls, activated, recovered) && SameView(rounds, world, calls, maxRetries)
    ensures Ends(world, maxRetries, version, calls, activated, recovered)
  {
    hide Same;
    forall i | 0 <= i < calls - 1 ensures Repeats(world(i), version) { assert Repeats(rounds(i), version); }
  }

  /** A course of events that looks the same and in which the last call did take effect. */
  function LateEffect(rounds: nat -> Round, calls: nat): nat -> Round {
    (n: nat) => if n + 1 < calls then rounds(n)
         else if n + 1 == calls then Round(true, rounds(n).reply, Blind)
         else Round(false, Lost(true), Blind)
  }

  lemma LateEffectIsHonest(rounds: nat -> Round, maxRetries: nat, version: Version, calls: nat, activated: bool, recovered: bool)
    requires Honest(rounds, version) && Ends(rounds, maxRetries, version, calls, activated, recovered)
    requires Unresolved(rounds(calls - 1).reply, calls, maxRetries)
    ensures var world := LateEffect(rounds, calls);
            Honest(world, version) && SameView(rounds, world, calls, maxRetries) && Live(world, calls)
  {
    hide Same;
    var world := LateEffect(rounds, calls);
    assert world(calls - 1).effect;
    assert forall n: nat :: n < calls ==> (Live(world, n) <==> Live(rounds, n)) by {
      assert forall i: nat :: i + 1 < calls ==> world(i) == rounds(i);
    }
    assert forall i :: 0 <= i < calls - 1 ==> Repeats(rounds(i), version);
  }

  /** The report can be trusted, in every honest course of events that looks like this one, if and only if the last reply is
      not a loss the loop gave up on: one that is not worth a retry, or comes with the budget used up. */
  lemma ReportIsRightIff(rounds: nat -> Round, maxRetries: nat, version: Version, calls: nat, activated: bool, recovered: bool)
    requires Honest(rounds, version) && Ends(rounds, maxRetries, version, calls, activated, recovered)
    ensures (forall world: nat -> Round :: Honest(world, version) && SameView(rounds, world, calls, maxRetries) ==>
               (activated <==> Live(world, calls))) <==>
            !Unresolved(rounds(calls - 1).reply, calls, maxRetries)
  {
    hide Honest, Live, SeenLive;
    if Unresolved(rounds(calls - 1).reply, calls, maxRetries) {
      LateEffectIsHonest(rounds, maxRetries, version, calls, activated, recovered);
    } else {
      forall world: nat -> Round | Honest(world, version) && SameView(rounds, world, calls, maxRetries)
        ensures activated <==> Live(world, calls)
      {
        SameEnd(rounds, world, maxRetries, version, calls, activated, recovered);
        RightWhenResolved(world, maxRetries, version, calls, activated, recovered);
      }
    }
  }

  /** Whatever the budget, it can happen: the last permitted call takes effect and its acknowledgement is lost. */
  lemma LostForGood(maxRetries: nat, version: Version, other: Version) returns (rounds: nat -> Round)
    requires !Same(other, version)
    ensures Honest(rounds, version) && (forall i :: 0 <= i ==> rounds(i).sight.Sees?)
    ensures Ends(rounds, maxRetries, version, maxRetries + 1, false, false) && Live(rounds, maxRetries + 1)
  {
    rounds := n => Round(n == maxRetries, Lost(true), Sees(if n < maxRetries then other else version));
    assert rounds(maxRetries).effect;
    assert Same(version, version);
    assert forall n: nat :: Live(rounds, n) <==> n > maxRetries;
  }

  // ---- the gates ----------------------------------------------------------------------------------------------

  datatype Drain = NoDrain | Grants | Refuses

  /** Where the health of a target comes from: a health port, or else an observation by the adapter, which may not know. */
  datatype HealthSource =
    | Probed(health: Health)
    | ProbeFailed
    | Observed(known: bool, health: Health)
    | ObservationFailed

  predicate DrainRefuses(needsRemoval: bool, held: bool, drain: Drain) { needsRemoval && !held && drain.Refuses? }

  /** Unknown health does not refuse; unhealthy and stale evidence does. */
  predicate HealthRefuses(source: HealthSource, now: int, current: nat) {
    match source
    case Probed(h) => !h.healthy || !Fresh(h.at, h.validity, h.incarnation, now, current)
    case Observed(known, h) => known && (!h.healthy || !Fresh(h.at, h.validity, h.incarnation, now, current))
    case _ => true
  }

  const NO_VERSION := Version(0, 0, 0, [], false)
  const NO_HEALTH := Health(0, 0, 0, false)
  const NO_REPORT := Report(false, false, false, VerifyReport(false, NO_VERSION, [], 0, 0, 0, false), NO_HEALTH, false)

  /** The health gate of an activation: whether it refuses, and the evidence it leaves in the report. */
  method HealthGate(source: HealthSource, now: int, current: nat) returns (refused: bool, health: Health)
    ensures refused <==> HealthRefuses(source, now, current)
    ensures health == if source.Probed? || (source.Observed? && source.known) then source.health else NO_HEALTH
  {
    refused, health := false, NO_HEALTH;
    var have := false;
    match source {
      case Probed(h) => health, have := h, true;
      case ProbeFailed => refused := true;
      case Observed(known, h) => if known { health, have := h, true; }
      case ObservationFailed => refused := true;
    }
    if have && !refused {
      var isFresh := Fresh(health.at, health.validity, health.incarnation, now, current);
      if !isFresh || !health.healthy { refused := true; }
    }
  }

  // ---- one work item ------------------------------------------------------------------------------------------

  /** Everything outside the engine that an item meets. */
  datatype Ports = Ports(
    registered: bool, needsRemoval: bool, held: bool, drain: Drain, health: HealthSource,
    prepare: nat -> Reply<bool>, activate: nat -> Round, verify: nat -> Reply<VerifyReport>, rollback: nat -> Reply<bool>,
    delivered: bool)

  predicate Gated(item: Item, ports: Ports, policy: Policy, now: int, current: nat) {
    item.kind.Activate? &&
    (DrainRefuses(ports.needsRemoval, ports.held, ports.drain) ||
     (policy.requireHealth && HealthRefuses(ports.health, now, current)))
  }

  /** The report handed to the commit, and how often the adapter was asked to operate: never without an adapter, never past
      a gate that refuses, and never more often than the retry budget allows. Health evidence is only gathered for an
      activation, so a verification never carries any. */
  method ExecuteItem(item: Item, ports: Ports, policy: Policy, now: int, current: nat)
    returns (report: Report, calls: nat)
    ensures report.gateRefused <==> ports.registered && Gated(item, ports, policy, now, current)
    ensures calls == 0 <==> !ports.registered || report.gateRefused
    ensures calls <= policy.maxRetries + 1
    ensures calls > 0 ==>
      match item.kind
      case Prepare =>
        EndsAfter(ports.prepare, policy.maxRetries, calls) && (report.prepared <==> ports.prepare(calls - 1) == Done(true))
      case Activate =>
        exists recovered :: Ends(ports.activate, policy.maxRetries, item.artifact.version, calls, report.activated, recovered)
      case Verify =>
        EndsAfter(ports.verify, policy.maxRetries, calls) &&
        (report.verify.verified <==> ports.verify(calls - 1).Done? && ports.verify(calls - 1).value.verified && ports.delivered)
      case Rollback =>
        EndsAfter(ports.rollback, policy.maxRetries, calls) && (report.rolledBack <==> ports.rollback(calls - 1) == Done(true))
    ensures !item.kind.Activate? ==> report.health == NO_HEALTH && !report.activated
    ensures calls == 0 ==> !report.prepared && !report.activated && !report.verify.verified && !report.rolledBack
  {
    hide Ends, EndsAfter, HealthRefuses, DrainRefuses;
    report, calls := NO_REPORT, 0;
    if !ports.registered { return; }
    if item.kind.Activate? {
      if DrainRefuses(ports.needsRemoval, ports.held, ports.drain) { return report.(gateRefused := true), 0; }
      if policy.requireHealth {
        var refused, health := HealthGate(ports.health, now, current);
        report := report.(gateRefused := refused, health := health);
        if refused { return; }
      }
    }
    match item.kind {
      case Prepare =>
        var reply;
        calls, reply := Retry(ports.prepare, policy.maxRetries);
        AtLeastOnce(ports.prepare, policy.maxRetries, calls);
        report := report.(prepared := reply == Done(true));
      case Activate =>
        var activated, recovered;
        calls, activated, recovered := Activate(ports.activate, policy.maxRetries, item.artifact.version);
        ActivatedAtLeastOnce(ports.activate, policy.maxRetries, item.artifact.version, calls, activated, recovered);
        report := report.(activated := activated);
      case Verify =>
        var reply;
        calls, reply := Retry(ports.verify, policy.maxRetries);
        AtLeastOnce(ports.verify, policy.maxRetries, calls);
        if reply.Done? { report := report.(verify := reply.value); }
        if report.verify.verified && !ports.delivered { report := report.(verify := report.verify.(verified := false)); }
      case Rollback =>
        var reply;
        calls, reply := Retry(ports.rollback, policy.maxRetries);
        AtLeastOnce(ports.rollback, policy.maxRetries, calls);
        report := report.(rolledBack := reply == Done(true));
    }
  }

  lemma AtLeastOnce<T>(replies: nat -> Reply<T>, maxRetries: nat, calls: nat)
    requires EndsAfter(replies, maxRetries, calls)
    ensures 1 <= calls <= maxRetries + 1
  {
  }

  lemma ActivatedAtLeastOnce(rounds: nat -> Round, maxRetries: nat, version: Version, calls: nat, activated: bool, recovered: bool)
    requires Ends(rounds, maxRetries, version, calls, activated, recovered)
    ensures 1 <= calls <= maxRetries + 1
  {
  }
}
