/** The provenance ledger: records chained by digests, and what its verification finds out. */
module Ledger {
  import opened Bytes
  import opened Json
  import opened Records
  import Journal

  function OutcomeName(o: Outcome): Text {
    match o
    case Applied => Journal.Ascii("applied")
    case Confirmed => Journal.Ascii("verified")
    case Reverted => Journal.Ascii("rolled-back")
    case Unsuccessful => Journal.Ascii("failed")
    case Cancelled => Journal.Ascii("aborted")
    case Superseded => Journal.Ascii("superseded")
  }

  const SLASH: Text := [47]

  /** The identifier the planner gives a stage. */
  function StageText(campaign: Text, stage: nat): Text { campaign + (Journal.Ascii(":stage-") + Digits(stage + 1)) }

  function RecordText(r: Provenance): Text { r.key.campaign + (SLASH + (r.key.target + (SLASH + Digits(r.sequence)))) }

  const FIELD_COUNT: nat := 18

  function FieldKey(i: nat): Text
    requires i < FIELD_COUNT
  {
    match i
    case 0 => Journal.Ascii("record_id")
    case 1 => Journal.Ascii("sequence")
    case 2 => Journal.Ascii("campaign_id")
    case 3 => Journal.Ascii("generation")
    case 4 => Journal.Ascii("stage_id")
    case 5 => Journal.Ascii("attempt_id")
    case 6 => Journal.Ascii("target_id")
    case 7 => Journal.Ascii("component_id")
    case 8 => Journal.Ascii("artifact_id")
    case 9 => Journal.Ascii("build_id")
    case 10 => Journal.Ascii("from_version")
    case 11 => Journal.Ascii("to_version")
    case 12 => Journal.Ascii("digest")
    case 13 => Journal.Ascii("outcome")
    case 14 => Journal.Ascii("authority")
    case 15 => Journal.Ascii("incarnation")
    case 16 => Journal.Ascii("recorded_at")
    case _ => Journal.Ascii("detail")
  }

  function FieldValue(r: Provenance, i: nat): Value
    requires i < FIELD_COUNT
  {
    match i
    case 0 => Str(RecordText(r))
    case 1 => UInt(r.sequence)
    case 2 => Str(r.key.campaign)
    case 3 => UInt(r.generation)
    case 4 => Str(StageText(r.key.campaign, r.key.stage))
    case 5 => Str(r.notes.attempt)
    case 6 => Str(r.key.target)
    case 7 => Str(r.notes.component)
    case 8 => Str(r.notes.artifact)
    case 9 => Str(r.notes.build)
    case 10 => Str(r.notes.fromVersion)
    case 11 => Str(r.notes.toVersion)
    case 12 => Str(r.notes.digest)
    case 13 => Str(OutcomeName(r.outcome))
    case 14 => Str(r.notes.authority)
    case 15 => UInt(r.incarnation)
    case 16 => Str(r.notes.at)
    case _ => Str(r.notes.detail)
  }

  /** The JSON form of a record without its two digests. */
  function Material(r: Provenance): Value {
    hide FieldKey, FieldValue;
    Object(seq(FIELD_COUNT, i requires 0 <= i < FIELD_COUNT => Member(FieldKey(i), FieldValue(r, i))))
  }

  function Body(r: Provenance): Text { Dump(Material(r), 0, 0) }

  /** What the digest of a record is taken of. */
  function Linked(previous: Text, r: Provenance): Text { Journal.Material(previous, Body(r)) }

  /** `ProvenanceRecord::compute_chain`. */
  function ComputeChain(previous: Text, r: Provenance): Text { Journal.DigestText(Linked(previous, r)) }

  function Head(records: seq<Provenance>): Text { if records == [] then [] else records[|records| - 1].chain }

  function LastSequence(records: seq<Provenance>): nat { if records == [] then 0 else records[|records| - 1].sequence }

  // ---- chaining -----------------------------------------------------------------------------------------------

  /** A digest of a record and its predecessor's digest. The ledger works the same for any of them; `ComputeChain` is the
      one in use. */
  type Digester = (Text, Provenance) -> Text

  /** A digest does not cover itself. */
  function Bare(r: Provenance): Provenance { r.(chain := []) }

  /** What appending fills in: the next sequence, the link to the record before, and the digest over both. */
  function Seal(digest: Digester, head: Text, last: nat, r: Provenance): (s: Provenance)
    ensures s == r.(sequence := last + 1, previous := head, chain := s.chain)
  {
    var s := r.(sequence := last + 1, previous := head);
    s.(chain := digest(head, Bare(s)))
  }

  /** The record continues a ledger with that head and that last sequence. */
  predicate IsSealed(digest: Digester, head: Text, last: nat, r: Provenance) {
    r.sequence == last + 1 && r.previous == head && r.chain == digest(head, Bare(r))
  }

  lemma SealIsSealed(digest: Digester, head: Text, last: nat, r: Provenance)
    ensures IsSealed(digest, head, last, Seal(digest, head, last, r))
  {
    assert Bare(r.(sequence := last + 1, previous := head)) == Bare(Seal(digest, head, last, r));
  }

  function Append(digest: Digester, records: seq<Provenance>, r: Provenance): seq<Provenance> {
    records + [Seal(digest, Head(records), LastSequence(records), r)]
  }

  function Chained(digest: Digester, drafts: seq<Provenance>): seq<Provenance>
    decreases |drafts|
  {
    if drafts == [] then [] else Append(digest, Chained(digest, drafts[..|drafts| - 1]), drafts[|drafts| - 1])
  }

  // ---- verification -------------------------------------------------------------------------------------------

  datatype Fault = None | NotIncreasing | BrokenLink | WrongDigest

  /** What is wrong with the record at `i`, given the one before it. */
  function FaultAt(digest: Digester, records: seq<Provenance>, i: nat): Fault
    requires i < |records|
  {
    var r := records[i];
    if i != 0 && r.sequence <= records[i - 1].sequence then NotIncreasing
    else if r.previous != Head(records[..i]) then BrokenLink
    else if digest(Head(records[..i]), Bare(r)) != r.chain then WrongDigest
    else None
  }

  ghost predicate Accepted(digest: Digester, records: seq<Provenance>) {
    forall i :: 0 <= i < |records| ==> FaultAt(digest, records, i).None?
  }

  lemma SameButChain(r: Provenance, i: nat)
    requires i < FIELD_COUNT
    ensures FieldValue(Bare(r), i) == FieldValue(r, i)
  {
  }

  lemma BareChain(previous: Text, r: Provenance)
    ensures ComputeChain(previous, Bare(r)) == ComputeChain(previous, r)
  {
    hide FieldValue, Journal.DigestText, Journal.Material, Dump, FieldKey;
    forall i | 0 <= i < FIELD_COUNT ensures FieldValue(Bare(r), i) == FieldValue(r, i) { SameButChain(r, i); }
    assert Material(Bare(r)) == Material(r);
  }

  /** `verify_ledger` accepts exactly the ledgers in which no record is at fault, and otherwise reports the first that is. */
  method VerifyLedger(records: seq<Provenance>) returns (valid: bool, firstBad: nat, reason: Fault)
    ensures valid <==> Accepted(ComputeChain, records)
    ensures !valid ==>
      firstBad < |records| && reason == FaultAt(ComputeChain, records, firstBad) && !reason.None? &&
      Accepted(ComputeChain, records[..firstBad])
  {
    hide ComputeChain;
    var previous: Text := [];
    for i := 0 to |records|
      invariant previous == Head(records[..i])
      invariant forall j :: 0 <= j < i ==> FaultAt(ComputeChain, records, j).None?
    {
      var record := records[i];
      reason := None;
      if i != 0 && record.sequence <= records[i - 1].sequence {
        reason := NotIncreasing;
      } else if record.previous != previous {
        reason := BrokenLink;
      } else {
        var expected := ComputeChain(previous, record);
        BareChain(previous, record);
        if expected != record.chain { reason := WrongDigest; }
      }
      assert reason == FaultAt(ComputeChain, records, i);
      if !reason.None? {
        PrefixFaults(ComputeChain, records, i);
        return false, i, reason;
      }
      previous := record.chain;
      assert records[..i + 1][i] == record;
    }
    return true, 0, None;
  }

  lemma PrefixFaults(digest: Digester, records: seq<Provenance>, n: nat)
    requires n <= |records|
    ensures forall i :: 0 <= i < n ==> FaultAt(digest, records[..n], i) == FaultAt(digest, records, i)
  {
    forall i | 0 <= i < n ensures FaultAt(digest, records[..n], i) == FaultAt(digest, records, i) {
      assert records[..n][..i] == records[..i];
    }
  }

  /** Every prefix of an accepted ledger is accepted. */
  lemma PrefixAccepted(digest: Digester, records: seq<Provenance>, n: nat)
    requires Accepted(digest, records) && n <= |records|
    ensures Accepted(digest, records[..n])
  {
    hide FaultAt;
    PrefixFaults(digest, records, n);
  }

  /** A ledger is extended by the records that continue it. */
  lemma Extends(digest: Digester, records: seq<Provenance>, r: Provenance)
    requires Accepted(digest, records) && IsSealed(digest, Head(records), LastSequence(records), r)
    ensures Accepted(digest, records + [r])
  {
    var next := records + [r];
    assert next[..|records|] == records;
    PrefixFaults(digest, next, |records|);
    assert forall i :: 0 <= i < |records| ==> FaultAt(digest, next, i) == FaultAt(digest, records, i);
    assert next[|records|] == r;
  }

  lemma AppendExtends(digest: Digester, records: seq<Provenance>, r: Provenance)
    requires Accepted(digest, records)
    ensures Accepted(digest, Append(digest, records, r)) && records <= Append(digest, records, r)
  {
    hide Accepted, IsSealed, Seal;
    SealIsSealed(digest, Head(records), LastSequence(records), r);
    Extends(digest, records, Seal(digest, Head(records), LastSequence(records), r));
  }

  /** A ledger that was only ever appended to is accepted. */
  lemma {:induction false} ChainedIsAccepted(digest: Digester, drafts: seq<Provenance>)
    ensures Accepted(digest, Chained(digest, drafts))
    decreases |drafts|
  {
    hide Append, FaultAt;
    if drafts != [] {
      ChainedIsAccepted(digest, drafts[..|drafts| - 1]);
      AppendExtends(digest, Chained(digest, drafts[..|drafts| - 1]), drafts[|drafts| - 1]);
    }
  }

  // ---- a ledger with its head kept beside it ------------------------------------------------------------------

  /** The ledger verifies, and these are its head and its last sequence. */
  ghost predicate Verifies(digest: Digester, records: seq<Provenance>, head: Text, last: nat) {
    Accepted(digest, records) && head == Head(records) && last == LastSequence(records)
  }

  lemma NothingVerifies(digest: Digester)
    ensures Verifies(digest, [], [], 0)
  {
  }

  lemma VerifiesOn(digest: Digester, records: seq<Provenance>, head: Text, last: nat, r: Provenance)
    requires Verifies(digest, records, head, last) && IsSealed(digest, head, last, r)
    ensures Verifies(digest, records + [r], r.chain, r.sequence)
  {
    hide Accepted, FaultAt;
    Extends(digest, records, r);
    assert (records + [r])[|records|] == r;
  }
}
