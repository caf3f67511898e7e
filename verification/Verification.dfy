/** Evidence freshness and the success criterion of an upgrade. */
module Verification {
  import opened Bytes
  import opened Skew
  import opened Records

  /** `evaluate_freshness`: observed in this incarnation, inside a positive window, not in the future. */
  predicate Fresh(observedAt: int, validity: int, observedIn: nat, now: int, current: nat) {
    observedIn == current && validity > 0 && 0 <= now - observedAt <= validity
  }

  /** A health report; `at == 0` means that none was gathered. */
  datatype Health = Health(at: int, validity: int, incarnation: nat, healthy: bool)

  /** What the adapter reported for a verify operation. */
  datatype VerifyReport = VerifyReport(
    verified: bool, version: Version, build: Text, at: int, validity: int, incarnation: nat, healthy: bool)

  datatype Finding =
    | NotConfirmed | WrongVersion | WrongBuild | NoBuild | StaleEvidence | Unhealthy | StaleHealth | HealthGate

  /** What a verified attempt means: the adapter confirmed, the artifact's version and build are live, the evidence is
      fresh in this incarnation, and the target is healthy where health is required. */
  predicate Succeeded(a: Artifact, r: VerifyReport, h: Health, now: int, current: nat, requireHealth: bool) {
    r.verified && Same(r.version, a.version) && r.build != [] && (a.build == [] || r.build == a.build) &&
    Fresh(r.at, r.validity, r.incarnation, now, current) &&
    (requireHealth ==>
       r.healthy && (h.at != 0 ==> h.healthy && Fresh(h.at, h.validity, h.incarnation, now, current)))
  }

  /** `assess_verification`: the findings are collected one check after another; none means verified. */
  method AssessVerification(a: Artifact, r: VerifyReport, h: Health, now: int, current: nat, requireHealth: bool)
    returns (verified: bool, findings: seq<Finding>)
    ensures verified <==> Succeeded(a, r, h, now, current, requireHealth)
    ensures verified <==> findings == []
    ensures WrongVersion in findings <==> !Same(r.version, a.version)
    ensures StaleEvidence in findings <==> !Fresh(r.at, r.validity, r.incarnation, now, current)
  {
    findings := [];
    if !r.verified { findings := findings + [NotConfirmed]; }
    if !Same(r.version, a.version) { findings := findings + [WrongVersion]; }
    if a.build != [] && r.build != [] && r.build != a.build { findings := findings + [WrongBuild]; }
    if r.build == [] { findings := findings + [NoBuild]; }
    if !Fresh(r.at, r.validity, r.incarnation, now, current) { findings := findings + [StaleEvidence]; }
    if requireHealth {
      if !r.healthy { findings := findings + [Unhealthy]; }
      if h.at != 0 {
        if !Fresh(h.at, h.validity, h.incarnation, now, current) { findings := findings + [StaleHealth]; }
        if !h.healthy { findings := findings + [HealthGate]; }
      }
    }
    verified := findings == [];
  }
}
