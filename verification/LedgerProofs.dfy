/** What the head of a ledger commits to: everything in it. */
module LedgerProofs {
  import opened Bytes
  import opened Json
  import opened JsonRoundTrip
  import opened JsonNormalForm
  import opened Records
  import opened Ledger
  import Hex
  import Journal
  import Sha256

  // ---- the text determines the record -------------------------------------------------------------------------

  /** The place of a key, from its length and its second letter. */
  function PlaceOf(length: nat, letter: int): nat {
    match length
    case 6 => if letter == 'i' as int then 12 else 17
    case 7 => 13
    case 8 => if letter == 'e' as int then 1 else if letter == 't' as int then 4 else 9
    case 9 => if letter == 'e' as int then 0 else if letter == 'a' as int then 6 else 14
    case 10 => if letter == 'e' as int then 3 else if letter == 't' as int then 5 else 11
    case 11 => if letter == 'a' as int then 2 else if letter == 'r' as int then 8 else if letter == 'n' as int then 15 else 16
    case _ => if letter == 'o' as int then 7 else 10
  }

  lemma KeyPlace(i: nat)
    requires i < FIELD_COUNT
    ensures |FieldKey(i)| > 1 && PlaceOf(|FieldKey(i)|, FieldKey(i)[1]) == i
  {
  }

  lemma KeysDiffer(i: nat, j: nat)
    requires i < FIELD_COUNT && j < FIELD_COUNT && FieldKey(i) == FieldKey(j)
    ensures i == j
  {
    hide FieldKey, PlaceOf;
    KeyPlace(i);
    KeyPlace(j);
  }

  lemma OutcomeNamesDiffer(o: Outcome, p: Outcome)
    requires OutcomeName(o) == OutcomeName(p)
    ensures o == p
  {
    assert |OutcomeName(o)| == |OutcomeName(p)| && OutcomeName(o)[1] == OutcomeName(p)[1];
  }

  /** Two records of the same ledger position say the same, apart from their links. */
  predicate SameContent(r: Provenance, s: Provenance) { r == s.(previous := r.previous, chain := r.chain) }

  /** The counters of a record are 64-bit. */
  predicate Counted(r: Provenance) { r.sequence <= UINT64_MAX && r.generation <= UINT64_MAX && r.incarnation <= UINT64_MAX }

  ghost predicate AllCounted(records: seq<Provenance>) { forall r :: r in records ==> Counted(r) }

  /** A field is a string or an unsigned integer, and its normal form tells which. */
  lemma SameField(r: Provenance, s: Provenance, i: nat)
    requires i < FIELD_COUNT && Norm(FieldValue(r, i)) == Norm(FieldValue(s, i))
    ensures FieldValue(r, i) == FieldValue(s, i)
  {
    hide OutcomeName, StageText, RecordText;
  }

  lemma DigitsDiffer(m: nat, n: nat)
    requires Digits(m) == Digits(n)
    ensures m == n
  {
    DigitsAreDigits(m);
    DigitsValue(m);
    DigitsAreDigits(n);
    DigitsValue(n);
  }

  lemma StageTextsDiffer(campaign: Text, m: nat, n: nat)
    requires StageText(campaign, m) == StageText(campaign, n)
    ensures m == n
  {
    hide Digits;
    var p := campaign + Journal.Ascii(":stage-");
    assert StageText(campaign, m) == p + Digits(m + 1) && StageText(campaign, n) == p + Digits(n + 1);
    assert (p + Digits(m + 1))[|p|..] == Digits(m + 1) && (p + Digits(n + 1))[|p|..] == Digits(n + 1);
    DigitsDiffer(m + 1, n + 1);
  }

  lemma SameFields(r: Provenance, s: Provenance)
    requires forall i :: 0 <= i < FIELD_COUNT ==> FieldValue(r, i) == FieldValue(s, i)
    ensures SameContent(r, s)
  {
    hide OutcomeName, StageText, RecordText;
    assert FieldValue(r, 0) == FieldValue(s, 0) && FieldValue(r, 1) == FieldValue(s, 1);
    assert FieldValue(r, 2) == FieldValue(s, 2) && FieldValue(r, 3) == FieldValue(s, 3);
    assert FieldValue(r, 4) == FieldValue(s, 4) && FieldValue(r, 5) == FieldValue(s, 5);
    assert FieldValue(r, 6) == FieldValue(s, 6) && FieldValue(r, 7) == FieldValue(s, 7);
    assert FieldValue(r, 8) == FieldValue(s, 8) && FieldValue(r, 9) == FieldValue(s, 9);
    assert FieldValue(r, 10) == FieldValue(s, 10) && FieldValue(r, 11) == FieldValue(s, 11);
    assert FieldValue(r, 12) == FieldValue(s, 12) && FieldValue(r, 13) == FieldValue(s, 13);
    assert FieldValue(r, 14) == FieldValue(s, 14) && FieldValue(r, 15) == FieldValue(s, 15);
    assert FieldValue(r, 16) == FieldValue(s, 16) && FieldValue(r, 17) == FieldValue(s, 17);
    OutcomeNamesDiffer(r.outcome, s.outcome);
    StageTextsDiffer(r.key.campaign, r.key.stage, s.key.stage);
  }

  /** The text that is digested determines every field of the record. */
  lemma BodyIsInjective(r: Provenance, s: Provenance)
    requires Counted(r) && Counted(s) && Body(r) == Body(s)
    ensures SameContent(r, s)
  {
    hide Dump, Norm, FieldKey, FieldValue, DistinctKeys, Representable, Canonical;
    MaterialOk(r);
    MaterialOk(s);
    DumpIsInjective(Material(r), Material(s), 0);
    MaterialNorm(r);
    MaterialNorm(s);
    forall i | 0 <= i < FIELD_COUNT ensures FieldValue(r, i) == FieldValue(s, i) { SameField(r, s, i); }
    SameFields(r, s);
  }

  lemma FieldOk(r: Provenance, i: nat)
    requires Counted(r) && i < FIELD_COUNT
    ensures Representable(FieldValue(r, i))
  {
    hide OutcomeName, StageText, RecordText;
  }

  lemma MaterialOk(r: Provenance)
    requires Counted(r)
    ensures Representable(Material(r)) && DistinctKeys(Material(r).members)
  {
    hide FieldKey, FieldValue;
    forall i, j | 0 <= i < j < FIELD_COUNT ensures FieldKey(i) != FieldKey(j) { if FieldKey(i) == FieldKey(j) { KeysDiffer(i, j); } }
    forall i | 0 <= i < FIELD_COUNT ensures Representable(FieldValue(r, i)) { FieldOk(r, i); }
  }

  lemma MaterialNorm(r: Provenance)
    requires Counted(r)
    ensures Norm(Material(r)).Object? && |Norm(Material(r)).members| == FIELD_COUNT
    ensures forall i :: 0 <= i < FIELD_COUNT ==> Norm(Material(r)).members[i].value == Norm(FieldValue(r, i))
  {
    hide FieldKey, FieldValue, DistinctKeys, Norm, Representable;
    MaterialOk(r);
    NormObject(Material(r).members);
  }

  lemma {:induction false} HexHasNoBar(d: seq<byte>)
    ensures Journal.BAR !in Hex.ToHex(d)
    decreases |d|
  {
    if d != [] { HexHasNoBar(d[1..]); }
  }

  lemma HeadHasNoBar(records: seq<Provenance>)
    requires Accepted(ComputeChain, records)
    ensures Journal.BAR !in Head(records) && (Head(records) == [] <==> records == [])
  {
    hide Linked, Sha256.Digest;
    if records != [] {
      var last := |records| - 1;
      assert FaultAt(ComputeChain, records, last).None?;
      BareChain(Head(records[..last]), records[last]);
      HexHasNoBar(Sha256.Digest(Linked(Head(records[..last]), records[last])));
    }
  }

  lemma SplitAtBar(p: Text, x: Text, q: Text, y: Text)
    requires Journal.BAR !in p && Journal.BAR !in q && Journal.Material(p, x) == Journal.Material(q, y)
    ensures p == q && x == y
  {
    var t, u := Journal.Material(p, x), Journal.Material(q, y);
    assert t[|p|] == Journal.BAR && u[|q|] == Journal.BAR;
    assert forall k :: 0 <= k < |p| ==> t[k] == p[k] && p[k] in p;
    assert forall k :: 0 <= k < |q| ==> u[k] == q[k] && q[k] in q;
    assert |p| == |q|;
    assert t[..|p|] == p && u[..|q|] == q && t[|p| + 1..] == x && u[|q| + 1..] == y;
  }

  /** The text the digest of the record at `i` was taken of. */
  function LinkedAt(records: seq<Provenance>, i: nat): Text
    requires i < |records|
  {
    Linked(Head(records[..i]), records[i])
  }

  predicate Collide(x: Text, y: Text) { x != y && Journal.DigestText(x) == Journal.DigestText(y) }

  lemma LastRecord(records: seq<Provenance>)
    requires records != [] && Accepted(ComputeChain, records)
    ensures var last := |records| - 1;
            Head(records) == Journal.DigestText(LinkedAt(records, last)) &&
            records[last] == records[last].(previous := Head(records[..last]), chain := Head(records))
  {
    hide Linked, Journal.DigestText;
    assert FaultAt(ComputeChain, records, |records| - 1).None?;
    BareChain(Head(records[..|records| - 1]), records[|records| - 1]);
  }

  /** Two accepted ledgers with the same head are the same ledger, field by field, or two of their records exhibit different
      texts with the same digest. */
  lemma {:induction false} SameHeadSameLedger(a: seq<Provenance>, b: seq<Provenance>) returns (i: nat, j: nat)
    requires Accepted(ComputeChain, a) && Accepted(ComputeChain, b) && AllCounted(a) && AllCounted(b) && Head(a) == Head(b)
    ensures a == b || (i < |a| && j < |b| && Collide(LinkedAt(a, i), LinkedAt(b, j)))
    decreases |a|
  {
    hide Accepted, Body, Journal.DigestText, Journal.Material;
    i, j := 0, 0;
    HeadHasNoBar(a);
    HeadHasNoBar(b);
    if a != [] {
      var m, n := |a| - 1, |b| - 1;
      LastRecord(a);
      LastRecord(b);
      if LinkedAt(a, m) != LinkedAt(b, n) { return m, n; }
      PrefixAccepted(ComputeChain, a, m);
      PrefixAccepted(ComputeChain, b, n);
      HeadHasNoBar(a[..m]);
      HeadHasNoBar(b[..n]);
      SplitAtBar(Head(a[..m]), Body(a[m]), Head(b[..n]), Body(b[n]));
      BodyIsInjective(a[m], b[n]);
      i, j := SameHeadSameLedger(a[..m], b[..n]);
      if a[..m] == b[..n] {
        assert a == a[..m] + [a[m]] && b == b[..n] + [b[n]];
      } else {
        assert a[..m][..i] == a[..i] && b[..n][..j] == b[..j];
      }
    }
  }
}
