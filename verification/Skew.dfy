/** Versions and the version-skew budget of a staged upgrade. */
module Skew {
  import opened Bytes
  import opened TextOrder

  /** A dotted version; `reported` is false for the default-constructed version, which has no text. Equality of
      versions compares the numbers and the prerelease tag only. */
  datatype Version = Version(major: nat, minor: nat, patch: nat, prerelease: Text, reported: bool)

  predicate Same(a: Version, b: Version) {
    a.major == b.major && a.minor == b.minor && a.patch == b.patch && a.prerelease == b.prerelease
  }

  /** Release order: numbers first; a release outranks its prereleases. */
  predicate Newer(a: Version, b: Version) {
    if a.major != b.major then a.major > b.major
    else if a.minor != b.minor then a.minor > b.minor
    else if a.patch != b.patch then a.patch > b.patch
    else if a.prerelease == b.prerelease then false
    else if a.prerelease == [] then true
    else if b.prerelease == [] then false
    else !TextLess(a.prerelease, b.prerelease)
  }

  /** How far a live target may trail the newest version, plus waived pairs. */
  datatype Budget = Budget(maxMajor: nat, maxMinor: nat, maxPatch: nat, waivers: seq<(Version, Version)>)

  type Live = (Text, Version)

  ghost predicate Waived(b: Budget, x: Version, y: Version) {
    exists i :: 0 <= i < |b.waivers| && WaiverFor(b.waivers[i], x, y)
  }

  predicate WaiverFor(w: (Version, Version), x: Version, y: Version) {
    (Same(w.0, x) && Same(w.1, y)) || (Same(w.0, y) && Same(w.1, x))
  }

  /** `SkewBudget::pair_allowed`. */
  method PairAllowed(b: Budget, x: Version, y: Version) returns (allowed: bool)
    ensures allowed <==> Waived(b, x, y)
  {
    for i := 0 to |b.waivers|
      invariant forall j :: 0 <= j < i ==> !WaiverFor(b.waivers[j], x, y)
    {
      if WaiverFor(b.waivers[i], x, y) { return true; }
    }
    return false;
  }

  function Behind(newest: nat, observed: nat): nat { if newest > observed then newest - observed else 0 }

  /** The verdict on one target, independent of every other target: it reports a version, and that version is
      the newest, or waived against it, or older within the limit of the most significant differing part. */
  ghost predicate Tolerated(b: Budget, observed: Version, newest: Version) {
    observed.reported &&
    (Same(observed, newest) || Waived(b, observed, newest) ||
     (!Newer(observed, newest) &&
      var major := Behind(newest.major, observed.major);
      var minor := Behind(newest.minor, observed.minor);
      var patch := Behind(newest.patch, observed.patch);
      major <= b.maxMajor && (major == 0 ==> minor <= b.maxMinor) &&
      (major == 0 && minor == 0 ==> patch <= b.maxPatch)))
  }

  ghost predicate WithinBudget(b: Budget, live: seq<Live>, newest: Version) {
    forall i :: 0 <= i < |live| ==> Tolerated(b, live[i].1, newest)
  }

  function Subject(live: Live): Text { live.0 }

  /** The verdict depends on which entries are present, not on their order or multiplicity. */
  lemma {:induction false} BudgetIgnoresOrder(b: Budget, p: seq<Live>, q: seq<Live>, newest: Version)
    requires forall e :: e in p <==> e in q
    ensures WithinBudget(b, p, newest) <==> WithinBudget(b, q, newest)
  {
    forall i | 0 <= i < |p| && WithinBudget(b, q, newest) ensures Tolerated(b, p[i].1, newest) {
      assert p[i] in q;
      var j :| 0 <= j < |q| && q[j] == p[i];
    }
    forall i | 0 <= i < |q| && WithinBudget(b, p, newest) ensures Tolerated(b, q[i].1, newest) {
      assert q[i] in p;
      var j :| 0 <= j < |p| && p[j] == q[i];
    }
  }

  lemma SameEntries(p: seq<Live>, q: seq<Live>)
    requires multiset(p) == multiset(q)
    ensures forall e :: e in p <==> e in q
  {
    forall e ensures e in p <==> e in q {
      assert e in p <==> multiset(p)[e] > 0;
      assert e in q <==> multiset(q)[e] > 0;
    }
  }

  /** `assess_skew`: one pass over the entries in subject order, collecting the subjects that violate the budget. */
  method AssessSkew(b: Budget, live: seq<Live>, newest: Version) returns (within: bool, violations: seq<Text>)
    ensures within <==> WithinBudget(b, live, newest)
    ensures within <==> violations == []
    ensures forall v :: v in violations ==> exists i :: 0 <= i < |live| && live[i].0 == v && !Tolerated(b, live[i].1, newest)
  {
    var ordered := SortBy(Subject, live);
    SameEntries(ordered, live);
    BudgetIgnoresOrder(b, ordered, live, newest);
    within, violations := true, [];
    for i := 0 to |ordered|
      invariant within <==> forall j :: 0 <= j < i ==> Tolerated(b, ordered[j].1, newest)
      invariant within <==> violations == []
      invariant forall v :: v in violations ==>
        exists j :: 0 <= j < i && ordered[j].0 == v && !Tolerated(b, ordered[j].1, newest)
    {
      var ok := AssessTarget(b, ordered[i].1, newest);
      if !ok {
        within := false;
        violations := violations + [ordered[i].0];
      }
    }
    forall v | v in violations
      ensures exists i :: 0 <= i < |live| && live[i].0 == v && !Tolerated(b, live[i].1, newest)
    {
      var j :| 0 <= j < |ordered| && ordered[j].0 == v && !Tolerated(b, ordered[j].1, newest);
      assert ordered[j] in live;
      var i :| 0 <= i < |live| && live[i] == ordered[j];
    }
  }

  /** The chain of checks `assess_skew` makes for one entry, in its order. */
  method AssessTarget(b: Budget, observed: Version, newest: Version) returns (ok: bool)
    ensures ok <==> Tolerated(b, observed, newest)
  {
    if !observed.reported { return false; }
    if Same(observed, newest) { return true; }
    var waived := PairAllowed(b, observed, newest);
    if waived { return true; }
    var major := Behind(newest.major, observed.major);
    var minor := Behind(newest.minor, observed.minor);
    var patch := Behind(newest.patch, observed.patch);
    if Newer(observed, newest) { return false; }
    if major > b.maxMajor { return false; }
    if major == 0 && minor > b.maxMinor { return false; }
    if major == 0 && minor == 0 && patch > b.maxPatch { return false; }
    return true;
  }

  // ---- what the order and the budget mean -------------------------------------------------------------------

  /** The numbers of `a` come before those of `b`: the first that differs decides. */
  predicate NumbersBelow(a: Version, b: Version) {
    a.major < b.major || (a.major == b.major && a.minor < b.minor) ||
    (a.major == b.major && a.minor == b.minor && a.patch < b.patch)
  }

  predicate SameNumbers(a: Version, b: Version) { a.major == b.major && a.minor == b.minor && a.patch == b.patch }

  /** The release order is a strict total order up to `Same`. */
  lemma NewerIsOrder(a: Version, b: Version, c: Version)
    ensures !Newer(a, a)
    ensures (Newer(a, b) || Newer(b, a)) <==> !Same(a, b)
    ensures !(Newer(a, b) && Newer(b, a))
    ensures Newer(a, b) && Newer(b, c) ==> Newer(a, c)
  {
    hide TextLess;
    LessIsTotal(a.prerelease, b.prerelease);
    LessIsTotal(b.prerelease, c.prerelease);
    LessIsTotal(a.prerelease, c.prerelease);
    if Newer(a, b) && Newer(b, c) && SameNumbers(a, b) && SameNumbers(b, c) { PrereleaseTransitive(a, b, c); }
  }

  lemma PrereleaseTransitive(a: Version, b: Version, c: Version)
    requires Newer(a, b) && Newer(b, c) && SameNumbers(a, b) && SameNumbers(b, c)
    ensures Newer(a, c)
  {
    hide TextLess;
    LessIsTotal(a.prerelease, b.prerelease);
    LessIsTotal(b.prerelease, c.prerelease);
    LessIsTotal(a.prerelease, c.prerelease);
    if a.prerelease != [] {
      NotLessIsTransitive(a.prerelease, b.prerelease, c.prerelease);
    }
  }

  /** It goes by the numbers first; between equal numbers a release is newer than any prerelease, and prereleases go by their
      text. */
  lemma NewerByNumbers(a: Version, b: Version)
    ensures NumbersBelow(b, a) ==> Newer(a, b)
    ensures SameNumbers(a, b) && a.prerelease == [] && b.prerelease != [] ==> Newer(a, b)
    ensures SameNumbers(a, b) && a.prerelease != [] && b.prerelease != [] ==>
      (Newer(a, b) <==> TextLess(b.prerelease, a.prerelease))
  {
    hide TextLess;
    LessIsTotal(a.prerelease, b.prerelease);
  }

  /** The budget in plain terms: a version other than the newest, for which there is no waiver, is tolerated if and only if it is
      not newer and the first of its numbers that differs trails by no more than the limit for that number. */
  lemma ToleratedIff(b: Budget, observed: Version, newest: Version)
    requires observed.reported && !Same(observed, newest) && !Waived(b, observed, newest)
    ensures Tolerated(b, observed, newest) <==>
            !NumbersBelow(newest, observed) &&
            (SameNumbers(observed, newest) ==>
               observed.prerelease != [] &&
               (newest.prerelease == [] || TextLess(observed.prerelease, newest.prerelease))) &&
            newest.major <= observed.major + b.maxMajor &&
            (newest.major == observed.major ==> newest.minor <= observed.minor + b.maxMinor) &&
            (newest.major == observed.major && newest.minor == observed.minor ==> newest.patch <= observed.patch + b.maxPatch)
  {
    hide TextLess;
    NewerIsOrder(observed, newest, newest);
    NewerByNumbers(observed, newest);
    NewerByNumbers(newest, observed);
  }

  /** Without a reported version a target is never tolerated; at the newest version, or with a waiver in either order, it always
      is. */
  lemma ToleratedOtherwise(b: Budget, observed: Version, newest: Version, i: nat)
    ensures !observed.reported ==> !Tolerated(b, observed, newest)
    ensures observed.reported && Same(observed, newest) ==> Tolerated(b, observed, newest)
    ensures observed.reported && i < |b.waivers| && (b.waivers[i] == (observed, newest) || b.waivers[i] == (newest, observed)) ==>
      Tolerated(b, observed, newest)
  {
    if i < |b.waivers| && (b.waivers[i] == (observed, newest) || b.waivers[i] == (newest, observed)) {
      assert WaiverFor(b.waivers[i], observed, newest);
    }
  }

  /** The mix after some of the targets have moved to the newest version. */
  function Upgraded(live: seq<Live>, moved: set<Text>, newest: Version): (r: seq<Live>)
    ensures |r| == |live|
    ensures forall i :: 0 <= i < |live| ==> r[i] == (live[i].0, if live[i].0 in moved then newest else live[i].1)
  {
    seq(|live|, i requires 0 <= i < |live| => (live[i].0, if live[i].0 in moved then newest else live[i].1))
  }

  /** A mix within budget stays within budget whichever targets have already moved to the newest version, and any
      part of such a mix is within budget too: so a mix accepted by preflight covers every mix the campaign passes
      through on the same inventory. */
  lemma UpgradingKeepsBudget(b: Budget, live: seq<Live>, moved: set<Text>, newest: Version, part: seq<Live>)
    requires newest.reported && WithinBudget(b, live, newest)
    requires forall e :: e in part ==> e in Upgraded(live, moved, newest)
    ensures WithinBudget(b, part, newest)
  {
    var mix := Upgraded(live, moved, newest);
    forall i | 0 <= i < |part| ensures Tolerated(b, part[i].1, newest) {
      assert part[i] in mix;
      var j :| 0 <= j < |mix| && mix[j] == part[i];
    }
  }
}
