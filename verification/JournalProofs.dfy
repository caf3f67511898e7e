/** What the journal reader recovers: from a file as it was written, from any cut of a file, and from arbitrary bytes. */
module JournalProofs {
  import opened Bytes
  import opened Json
  import opened JsonRoundTrip
  import opened JsonNormalForm
  import opened Hex
  import opened Journal
  import Sha256

  // ---- names --------------------------------------------------------------------------------------------------

  lemma {:induction false} NameBack(k: Kind, from: nat)
    requires from <= |KINDS| && k in KINDS[from..]
    ensures ParseKind(KindName(k), from) == Got(k, 0)
    decreases |KINDS| - from
  {
    hide KindName;
    assert KINDS[from..][1..] == KINDS[from + 1..];
    if KINDS[from] != k {
      NamesDiffer(KINDS[from], k);
      NameBack(k, from + 1);
    }
  }

  function FirstLetters(k: Kind): (byte, byte, nat) {
    (KindName(k)[0], KindName(k)[1], |KindName(k)|)
  }

  lemma NamesDiffer(j: Kind, k: Kind)
    requires j != k
    ensures KindName(j) != KindName(k)
  {
    assert FirstLetters(Boot) == (98, 111, 4) && FirstLetters(Epoch) == (101, 112, 5) && FirstLetters(Policy) == (112, 111, 6);
    assert FirstLetters(Campaign) == (99, 97, 8) && FirstLetters(Attempt) == (97, 116, 7);
    assert FirstLetters(Provenance) == (112, 114, 10) && FirstLetters(Decision) == (100, 101, 8);
    assert FirstLetters(Ticket) == (116, 105, 6) && FirstLetters(Note) == (110, 111, 4);
    assert FirstLetters(Snapshot) == (117, 110, 7) && FirstLetters(Shutdown) == (115, 104, 8);
    assert FirstLetters(j) != FirstLetters(k);
  }

  /** Every record type reads back from the name it is written with, the nameless snapshot included. */
  lemma KindBack(k: Kind)
    ensures ParseKind(KindName(k), 0) == Got(k, 0)
  {
    hide KindName, ParseKind;
    assert k in KINDS;
    assert KINDS[0..] == KINDS;
    NameBack(k, 0);
  }

  // ---- frames look at their own bytes only --------------------------------------------------------------------

  lemma ExtentLocal(bytes: seq<byte>, n: nat, offset: nat, max: nat)
    requires offset < n <= |bytes|
    ensures var r := FrameExtent(bytes, offset, max);
            FrameExtent(bytes[..n], offset, max) == if r.Got? && r.pos <= n then r else Refused
  {
    if n - offset >= PREFIX_BYTES { assert bytes[..n][offset..offset + 4] == bytes[offset..offset + 4]; }
  }

  lemma SliceLocal(bytes: seq<byte>, n: nat, a: nat, b: nat)
    requires a <= b <= n <= |bytes|
    ensures bytes[..n][a..b] == bytes[a..b]
  {
  }

  /** Cutting the file after a frame does not change how the frame reads; cutting into it makes it damage. */
  lemma FrameLocal(bytes: seq<byte>, n: nat, offset: nat, opts: Options, records: seq<Record>)
    requires offset < n <= |bytes|
    ensures var r := ReadFrame(bytes, offset, opts, records);
            ReadFrame(bytes[..n], offset, opts, records) == if r.Got? && r.pos <= n then r else Refused
  {
    hide FrameExtent, Check, ReadPayload, ToHex;
    ExtentLocal(bytes, n, offset, opts.maxRecord);
    var e := FrameExtent(bytes, offset, opts.maxRecord);
    if e.Got? && e.pos <= n {
      SliceLocal(bytes, n, e.value, e.pos);
      SliceLocal(bytes, n, offset + 12, offset + 44);
    }
  }

  /** Where the accepted frames end. */
  function Ends(bytes: seq<byte>, offset: nat, opts: Options, records: seq<Record>): (r: seq<nat>)
    requires offset <= |bytes|
    decreases |bytes| - offset
  {
    if offset == |bytes| then []
    else
      match ReadFrame(bytes, offset, opts, records)
      case Refused => []
      case Got(record, next) => [next] + Ends(bytes, next, opts, records + [record])
  }

  /** How many of the frames fit in the first `n` bytes. */
  function FitCount(ends: seq<nat>, n: nat): (k: nat)
    ensures k <= |ends| && (k < |ends| ==> ends[k] > n) && (forall i :: 0 <= i < k ==> ends[i] <= n)
    decreases |ends|
  {
    if ends == [] || ends[0] > n then 0 else 1 + FitCount(ends[1..], n)
  }

  /** What reading a cut file is to give, from the records and frame ends of the whole. */
  function CutResult(full: seq<Record>, base: nat, offset: nat, ends: seq<nat>, n: nat): Scanned
    requires |full| == base + |ends|
  {
    var k := FitCount(ends, n);
    var end := if k == 0 then offset else ends[k - 1];
    Scanned(full[..base + k], end, end != n)
  }

  lemma {:induction false} EndsCount(bytes: seq<byte>, offset: nat, opts: Options, records: seq<Record>)
    requires offset <= |bytes| && Scan(bytes, offset, opts, records).Scanned?
    ensures |Scan(bytes, offset, opts, records).records| == |records| + |Ends(bytes, offset, opts, records)|
    decreases |bytes| - offset
  {
    hide ReadFrame;
    if offset < |bytes| {
      match ReadFrame(bytes, offset, opts, records)
      case Refused =>
      case Got(record, next) => EndsCount(bytes, next, opts, records + [record]);
    }
  }

  lemma NothingFits(full: seq<Record>, records: seq<Record>, offset: nat, ends: seq<nat>, n: nat)
    requires |full| == |records| + |ends| && records <= full && (ends == [] || ends[0] > n)
    ensures CutResult(full, |records|, offset, ends, n) == Scanned(records, offset, offset != n)
  {
  }

  lemma OneFits(full: seq<Record>, base: nat, offset: nat, next: nat, ends: seq<nat>, n: nat)
    requires |full| == base + 1 + |ends| && next <= n
    ensures CutResult(full, base, offset, [next] + ends, n) == CutResult(full, base + 1, next, ends, n)
  {
    assert ([next] + ends)[1..] == ends;
  }

  /** Reading a file cut at `n` gives exactly the records whose frames fit, and damage exactly when the cut is not at the end
      of one of them. */
  lemma {:induction false} CutScan(bytes: seq<byte>, n: nat, offset: nat, opts: Options, records: seq<Record>)
    requires offset <= n <= |bytes| && Scan(bytes, offset, opts, records).Scanned?
    ensures var full := Scan(bytes, offset, opts, records).records;
            var ends := Ends(bytes, offset, opts, records);
            |full| == |records| + |ends| &&
            Scan(bytes[..n], offset, opts, records) == CutResult(full, |records|, offset, ends, n)
    decreases |bytes| - offset
  {
    hide ReadFrame, CutResult, FitCount;
    var full := Scan(bytes, offset, opts, records).records;
    var ends := Ends(bytes, offset, opts, records);
    EndsCount(bytes, offset, opts, records);
    if offset < n { FrameLocal(bytes, n, offset, opts, records); }
    if offset < |bytes| && ReadFrame(bytes, offset, opts, records).Got? && ReadFrame(bytes, offset, opts, records).pos <= n {
      var Got(record, next) := ReadFrame(bytes, offset, opts, records);
      CutScan(bytes, n, next, opts, records + [record]);
      OneFits(full, |records|, offset, next, Ends(bytes, next, opts, records + [record]), n);
    } else {
      NothingFits(full, records, offset, ends, n);
    }
  }

  /** Dropping exactly the bytes that could not be verified leaves a file that reads cleanly, with the same records. */
  lemma RepairIsClean(bytes: seq<byte>, opts: Options)
    requires OpenFile(bytes, opts).Ready?
    ensures var r := OpenFile(bytes, opts);
            OpenFile(bytes[..r.end], opts) == Ready(r.records, r.end, false)
  {
    hide Scan, ReadU32;
    var r := OpenFile(bytes, opts);
    HeaderLocal(bytes, r.end);
    CleanPrefix(bytes, HEADER_BYTES, opts, []);
  }

  lemma HeaderLocal(bytes: seq<byte>, n: nat)
    requires HEADER_BYTES <= n <= |bytes|
    ensures HeaderOk(bytes[..n]) <==> HeaderOk(bytes)
  {
    SliceLocal(bytes, n, 0, 8);
    assert bytes[..n][..8] == bytes[..8];
  }

  lemma {:induction false} CleanPrefix(bytes: seq<byte>, offset: nat, opts: Options, records: seq<Record>)
    requires offset <= |bytes| && Scan(bytes, offset, opts, records).Scanned?
    ensures var r := Scan(bytes, offset, opts, records);
            Scan(bytes[..r.end], offset, opts, records) == Scanned(r.records, r.end, false)
    decreases |bytes| - offset
  {
    hide ReadFrame;
    var r := Scan(bytes, offset, opts, records);
    if offset < |bytes| {
      if offset < r.end { FrameLocal(bytes, r.end, offset, opts, records); }
      match ReadFrame(bytes, offset, opts, records)
      case Refused =>
      case Got(record, next) => CleanPrefix(bytes, next, opts, records + [record]);
    }
  }

  /** The last frame end at or before `n`. */
  function BoundaryBefore(start: nat, ends: seq<nat>, n: nat): (end: nat)
    ensures start <= n ==> end <= n
  {
    var k := FitCount(ends, n);
    if k == 0 then start else ends[k - 1]
  }

  /** How a file that holds these records reads when it is cut at `n`: exactly the records whose frames fit, damage unless the
      cut is between frames, and after dropping the damaged bytes the same records again. */
  ghost predicate CutReads(bytes: seq<byte>, opts: Options, records: seq<Record>, n: nat)
    requires n <= |bytes|
  {
    HEADER_BYTES <= n &&
    var ends := Ends(bytes, HEADER_BYTES, opts, []);
    var end := BoundaryBefore(HEADER_BYTES, ends, n);
    |records| == |ends| && OpenFile(bytes[..n], opts) == Ready(records[..FitCount(ends, n)], end, end != n) &&
    OpenFile(bytes[..end], opts) == Ready(records[..FitCount(ends, n)], end, false)
  }

  /** Any file, cut anywhere after its header. */
  lemma CutFile(bytes: seq<byte>, n: nat, opts: Options)
    requires OpenFile(bytes, opts).Ready? && HEADER_BYTES <= n <= |bytes|
    ensures CutReads(bytes, opts, OpenFile(bytes, opts).records, n)
  {
    hide Scan, ReadU32, Ends, FitCount, ReadFrame;
    CutScan(bytes, n, HEADER_BYTES, opts, []);
    HeaderLocal(bytes, n);
    RepairIsClean(bytes[..n], opts);
    var end := OpenFile(bytes[..n], opts).end;
    assert bytes[..n][..end] == bytes[..end];
  }

  // ---- arbitrary bytes ----------------------------------------------------------------------------------------

  /** The record continues the chain and the sequence of the records before it. */
  ghost predicate LinkedAt(records: seq<Record>, i: nat)
    requires i < |records|
  {
    records[i].previous == ChainOf(records[..i]) && (i > 0 ==> records[i].seq_ > records[i - 1].seq_) &&
    IsDigest(records[i].chain) &&
    exists payload :: records[i].chain == DigestText(Material(records[i].previous, payload))
  }

  ghost predicate Linked(records: seq<Record>) { forall i :: 0 <= i < |records| ==> LinkedAt(records, i) }

  /** The record says what a payload with its digest says when it is read after the records before it. */
  ghost predicate ReadAt(records: seq<Record>, i: nat, opts: Options)
    requires i < |records|
  {
    exists payload :: ReadPayload(payload, records[i].chain, opts, records[..i]) == Got(records[i], 0)
  }

  ghost predicate ReadThrough(records: seq<Record>, opts: Options) { forall i :: 0 <= i < |records| ==> ReadAt(records, i, opts) }

  lemma ReadPush(bytes: seq<byte>, offset: nat, opts: Options, records: seq<Record>)
    requires offset < |bytes| && ReadFrame(bytes, offset, opts, records).Got? && ReadThrough(records, opts)
    ensures ReadThrough(records + [ReadFrame(bytes, offset, opts, records).value], opts)
  {
    hide FrameExtent, Check, ReadU32, ReadRecord, Parse, ToHex;
    var r := ReadFrame(bytes, offset, opts, records).value;
    var more := records + [r];
    var e := FrameExtent(bytes, offset, opts.maxRecord);
    var payload := bytes[e.value..e.pos];
    PayloadKeepsChain(payload, StoredChain(bytes, offset), opts, records);
    assert ReadPayload(payload, r.chain, opts, records) == Got(r, 0);
    forall i | 0 <= i < |more| ensures ReadAt(more, i, opts) {
      if i < |records| {
        assert more[..i] == records[..i];
        assert ReadAt(records, i, opts);
        var said :| ReadPayload(said, records[i].chain, opts, records[..i]) == Got(records[i], 0);
        assert ReadPayload(said, more[i].chain, opts, more[..i]) == Got(more[i], 0);
      } else {
        assert more[..i] == records;
        assert ReadPayload(payload, more[i].chain, opts, more[..i]) == Got(more[i], 0);
      }
    }
  }

  lemma PayloadKeepsChain(payload: Text, chain: Text, opts: Options, records: seq<Record>)
    requires ReadPayload(payload, chain, opts, records).Got?
    ensures var r := ReadPayload(payload, chain, opts, records);
            r.pos == 0 && r.value.chain == chain
  {
    hide Parse, IsDigest, DigestText, ParseKind, RequireUint, RequireText, Lookup, Material;
  }

  lemma AcceptedRecord(bytes: seq<byte>, offset: nat, opts: Options, records: seq<Record>)
    requires offset < |bytes| && ReadFrame(bytes, offset, opts, records).Got?
    ensures var r := ReadFrame(bytes, offset, opts, records).value;
            r.previous == ChainOf(records) && (records != [] ==> r.seq_ > LastSeq(records)) && IsDigest(r.chain) &&
            exists payload :: r.chain == DigestText(Material(r.previous, payload))
  {
    hide FrameExtent, Check, ReadU32, ParseKind, RequireUint, RequireText, Lookup, DigestText, Material, Parse;
    var e := FrameExtent(bytes, offset, opts.maxRecord);
    var payload := bytes[e.value..e.pos];
    DigestBack(bytes[offset + 12..offset + 44]);
    assert StoredChain(bytes, offset) == DigestText(Material(ChainOf(records), payload));
  }

  lemma LinkedPush(records: seq<Record>, r: Record)
    requires Linked(records) && r.previous == ChainOf(records) && (records != [] ==> r.seq_ > LastSeq(records))
    requires IsDigest(r.chain) && exists payload :: r.chain == DigestText(Material(r.previous, payload))
    ensures Linked(records + [r])
  {
    hide DigestText, Material, IsDigest;
    var more := records + [r];
    forall i | 0 <= i < |more| ensures LinkedAt(more, i) {
      if i < |records| {
        assert more[..i] == records[..i];
        assert LinkedAt(records, i);
      } else {
        assert more[..i] == records;
      }
    }
  }

  lemma {:induction false} ScanLinks(bytes: seq<byte>, offset: nat, opts: Options, records: seq<Record>)
    requires offset <= |bytes| && Linked(records) && ReadThrough(records, opts) && Scan(bytes, offset, opts, records).Scanned?
    ensures var all := Scan(bytes, offset, opts, records).records;
            Linked(all) && ReadThrough(all, opts)
    decreases |bytes| - offset
  {
    hide ReadFrame, Linked, ReadThrough;
    if offset < |bytes| {
      match ReadFrame(bytes, offset, opts, records)
      case Refused =>
      case Got(record, next) =>
        AcceptedRecord(bytes, offset, opts, records);
        LinkedPush(records, record);
        ReadPush(bytes, offset, opts, records);
        ScanLinks(bytes, next, opts, records + [record]);
    }
  }

  /** Whatever the bytes are, the accepted records form a chain of digests with strictly increasing sequence numbers, and every
      field of each is what a payload with its digest says. */
  lemma AnyFileLinks(bytes: seq<byte>, opts: Options)
    requires OpenFile(bytes, opts).Ready?
    ensures Linked(OpenFile(bytes, opts).records) && ReadThrough(OpenFile(bytes, opts).records, opts)
  {
    hide Scan, HeaderOk;
    ScanLinks(bytes, HEADER_BYTES, opts, []);
  }

  // ---- a frame as it was written ------------------------------------------------------------------------------

  lemma {:induction false} FindAt(members: seq<Member>, i: nat)
    requires DistinctKeys(members) && i < |members|
    ensures Find(members, members[i].key) == i
    decreases |members|
  {
    if i > 0 { FindAt(members[1..], i - 1); }
  }

  lemma KeysDiffer()
    ensures KEY_SEQ != KEY_TYPE && KEY_SEQ != KEY_AT && KEY_SEQ != KEY_PREVIOUS && KEY_SEQ != KEY_DATA
    ensures KEY_TYPE != KEY_AT && KEY_TYPE != KEY_PREVIOUS && KEY_TYPE != KEY_DATA
    ensures KEY_AT != KEY_PREVIOUS && KEY_AT != KEY_DATA && KEY_PREVIOUS != KEY_DATA
  {
    assert KEY_TYPE[0] != KEY_DATA[0];
  }

  /** Looking up a member of a normalised object. */
  lemma LookupBack(members: seq<Member>, i: nat)
    requires DistinctKeys(members) && i < |members|
    ensures Lookup(Norm(Object(members)), members[i].key) == Got(Norm(members[i].value), 0)
  {
    hide Norm, Find;
    NormObject(members);
    FindAt(NormEach(members), i);
  }

  lemma ScalarNorm(s: Text)
    ensures Norm(Str(s)) == Str(s)
  {
  }

  /** The parsed payload, member by member. */
  lemma PayloadBack(records: seq<Record>, kind: Kind, at: Text, data: Value)
    ensures var v := Norm(Payload(records, kind, at, data));
            Lookup(v, KEY_SEQ) == Got(Norm(UInt(LastSeq(records) + 1)), 0) &&
            Lookup(v, KEY_TYPE) == Got(Str(KindName(kind)), 0) && Lookup(v, KEY_AT) == Got(Str(at), 0) &&
            Lookup(v, KEY_PREVIOUS) == Got(Str(ChainOf(records)), 0) && Lookup(v, KEY_DATA) == Got(Norm(data), 0)
  {
    hide KindName, ChainOf, LastSeq, Lookup, Norm, Ascii;
    var members := Payload(records, kind, at, data).members;
    PayloadKeys(records, kind, at, data);
    LookupBack(members, 0);
    LookupBack(members, 1);
    LookupBack(members, 2);
    LookupBack(members, 3);
    LookupBack(members, 4);
    ScalarNorm(KindName(kind));
    ScalarNorm(at);
    ScalarNorm(ChainOf(records));
  }

  lemma PayloadKeys(records: seq<Record>, kind: Kind, at: Text, data: Value)
    ensures DistinctKeys(Payload(records, kind, at, data).members)
  {
    hide KindName, ChainOf, LastSeq, Ascii;
    KeysDiffer();
  }

  lemma PayloadRepresentable(records: seq<Record>, kind: Kind, at: Text, data: Value)
    requires Representable(data) && LastSeq(records) < UINT64_MAX
    ensures Representable(Payload(records, kind, at, data))
  {
    hide KindName, ChainOf, LastSeq;
  }

  /** The payload as parsed makes the record that was written, with its data normalised. */
  lemma RecordBack(opts: Options, records: seq<Record>, kind: Kind, at: Text, data: Value)
    requires opts.timeOk(at) && IsDigest(ChainOf(records))
    ensures var written := Appended(records, kind, at, data);
            ReadRecord(Norm(Payload(records, kind, at, data)), Body(records, kind, at, data), written.chain, opts, records) ==
            Got(written.(data := Norm(data)), 0)
  {
    hide KindName, ChainOf, LastSeq, ParseKind, Lookup, Payload, Body, DigestText, Material, IsDigest;
    PayloadBack(records, kind, at, data);
    KindBack(kind);
  }

  /** What the reader of payloads must be able to hold: the exact condition for a record to read back. */
  predicate Readable(opts: Options, records: seq<Record>, kind: Kind, at: Text, data: Value) {
    |Body(records, kind, at, data)| <= opts.limits.maxInput && Fits(Payload(records, kind, at, data), opts.limits, 0, 0)
  }

  lemma BodyBack(opts: Options, records: seq<Record>, kind: Kind, at: Text, data: Value)
    requires opts.timeOk(at) && IsDigest(ChainOf(records)) && Representable(data) && LastSeq(records) < UINT64_MAX
    ensures var written := Appended(records, kind, at, data);
            ReadPayload(Body(records, kind, at, data), written.chain, opts, records) ==
            if Readable(opts, records, kind, at, data) then Got(written.(data := Norm(data)), 0) else Refused
  {
    hide Dump, Parse, ReadRecord, Fits, IsDigest, Payload, Norm, Appended, Representable;
    PayloadRepresentable(records, kind, at, data);
    RoundTrip(Payload(records, kind, at, data), opts.limits, 0);
    RecordBack(opts, records, kind, at, data);
  }

  lemma Middle(a: seq<byte>, b: seq<byte>, c: seq<byte>)
    ensures (a + (b + c))[|a|..|a| + |b|] == b
  {
  }

  lemma Regroup(a: seq<byte>, b: seq<byte>, c: seq<byte>)
    ensures a + (b + c) == (a + b) + c && |a + b| == |a| + |b|
  {
  }

  lemma FrameSplit(previous: Text, body: Text, after: seq<byte>)
    requires |body| < TWO_32
    ensures Frame(previous, body) + after ==
            RECORD_MAGIC + (PutU32(|body|) + (PutU32(Check(body)) + (Sha256.Digest(Material(previous, body)) + (body + after))))
    ensures |Frame(previous, body)| == PREFIX_BYTES + |body|
  {
    hide Check, PutU32, Material, Sha256.Digest;
    var d := Sha256.Digest(Material(previous, body));
    Regroup(d, body, after);
    Regroup(PutU32(Check(body)), d + body, after);
    Regroup(PutU32(|body|), PutU32(Check(body)) + (d + body), after);
    Regroup(RECORD_MAGIC, PutU32(|body|) + (PutU32(Check(body)) + (d + body)), after);
  }

  /** The parts of a written frame, wherever it stands in the file. */
  lemma FrameParts(before: seq<byte>, previous: Text, body: Text, after: seq<byte>)
    requires |body| < TWO_32
    ensures var bytes := before + (Frame(previous, body) + after);
            var o := |before|;
            |bytes| == o + PREFIX_BYTES + |body| + |after| &&
            bytes[o..o + 4] == RECORD_MAGIC && bytes[o + 4..o + 8] == PutU32(|body|) &&
            bytes[o + 8..o + 12] == PutU32(Check(body)) && bytes[o + 12..o + 44] == Sha256.Digest(Material(previous, body)) &&
            bytes[o + 44..o + 44 + |body|] == body
  {
    hide Check, PutU32, Material, Frame, Sha256.Digest;
    FrameSplit(previous, body, after);
    var d := Sha256.Digest(Material(previous, body));
    var t3 := body + after;
    var t2 := d + t3;
    var t1 := PutU32(Check(body)) + t2;
    var t0 := PutU32(|body|) + t1;
    Middle(before, RECORD_MAGIC, t0);
    Regroup(before, RECORD_MAGIC, t0);
    Middle(before + RECORD_MAGIC, PutU32(|body|), t1);
    Regroup(before + RECORD_MAGIC, PutU32(|body|), t1);
    Middle(before + RECORD_MAGIC + PutU32(|body|), PutU32(Check(body)), t2);
    Regroup(before + RECORD_MAGIC + PutU32(|body|), PutU32(Check(body)), t2);
    Middle(before + RECORD_MAGIC + PutU32(|body|) + PutU32(Check(body)), d, t3);
    Regroup(before + RECORD_MAGIC + PutU32(|body|) + PutU32(Check(body)), d, t3);
    Middle(before + RECORD_MAGIC + PutU32(|body|) + PutU32(Check(body)) + d, body, after);
  }

  /** The extent, checksum and stored digest of a written frame. */
  lemma FrameFields(before: seq<byte>, previous: Text, body: Text, after: seq<byte>, max: nat)
    requires 0 < |body| <= max < TWO_32
    ensures var bytes := before + (Frame(previous, body) + after);
            var o := |before|;
            |bytes| == o + PREFIX_BYTES + |body| + |after| &&
            FrameExtent(bytes, o, max) == Got(o + PREFIX_BYTES, o + PREFIX_BYTES + |body|) &&
            ReadU32(bytes, o + 8) == Check(body) && StoredChain(bytes, o) == DigestText(Material(previous, body)) &&
            bytes[o + PREFIX_BYTES..o + PREFIX_BYTES + |body|] == body
  {
    hide Check, PutU32, Material, Frame, ReadU32, Sha256.Digest, ToHex;
    var bytes := before + (Frame(previous, body) + after);
    var o := |before|;
    FrameParts(before, previous, body, after);
    assert bytes[o + 4..o + 4 + 4] == PutU32(|body|) && bytes[o + 8..o + 8 + 4] == PutU32(Check(body));
    ReadPut(|body|, bytes, o + 4);
    ReadPut(Check(body), bytes, o + 8);
  }

  /** A written frame reads back as its record with normalised data, exactly when the payload is within the reader's bounds;
      otherwise the reader takes it for damage. */
  lemma FrameBack(before: seq<byte>, after: seq<byte>, opts: Options, records: seq<Record>, kind: Kind, at: Text, data: Value)
    requires opts.timeOk(at) && IsDigest(ChainOf(records)) && Representable(data) && LastSeq(records) < UINT64_MAX
    requires |Body(records, kind, at, data)| <= opts.maxRecord < TWO_32
    ensures var body := Body(records, kind, at, data);
            var bytes := before + (Frame(ChainOf(records), body) + after);
            |before| < |bytes| &&
            ReadFrame(bytes, |before|, opts, records) ==
            if Readable(opts, records, kind, at, data)
            then Got(Appended(records, kind, at, data).(data := Norm(data)), |before| + PREFIX_BYTES + |body|) else Refused
  {
    hide Body, Frame, ReadPayload, IsDigest, Norm, Readable, ReadU32, Check, Representable, ChainOf, Material, DigestText,
         FrameExtent, StoredChain;
    var body := Body(records, kind, at, data);
    BodyNotEmpty(records, kind, at, data);
    FrameFields(before, ChainOf(records), body, after, opts.maxRecord);
    BodyBack(opts, records, kind, at, data);
  }

  lemma BodyNotEmpty(records: seq<Record>, kind: Kind, at: Text, data: Value)
    ensures Body(records, kind, at, data) != []
  {
    hide DumpMembers;
  }

  // ---- a file as it was written -------------------------------------------------------------------------------

  /** Bytes after a cleanly read file do not change how it reads. */
  lemma {:induction false} ScanExtends(bytes: seq<byte>, after: seq<byte>, offset: nat, opts: Options, records: seq<Record>)
    requires offset <= |bytes| && Scan(bytes, offset, opts, records).Scanned? && !Scan(bytes, offset, opts, records).damaged
    ensures |bytes| <= |bytes + after|
    ensures Scan(bytes + after, offset, opts, records) ==
            Scan(bytes + after, |bytes|, opts, Scan(bytes, offset, opts, records).records)
    decreases |bytes| - offset
  {
    hide ReadFrame;
    var all := bytes + after;
    if offset < |bytes| {
      assert all[..|bytes|] == bytes;
      FrameLocal(all, |bytes|, offset, opts, records);
      var Got(record, next) := ReadFrame(bytes, offset, opts, records);
      ScanExtends(bytes, after, next, opts, records + [record]);
    }
  }

  /** The record a write adds, as it reads back. */
  function ReadBack(records: seq<Record>, kind: Kind, at: Text, data: Value): Record {
    Appended(records, kind, at, data).(data := Norm(data))
  }

  /** What a writer may be asked to write. */
  predicate Writable(opts: Options, records: seq<Record>, kind: Kind, at: Text, data: Value) {
    opts.timeOk(at) && Representable(data) && LastSeq(records) < UINT64_MAX && opts.maxRecord < TWO_32 &&
    |Body(records, kind, at, data)| <= opts.maxRecord && |records| < opts.maxRecords
  }

  lemma ScanFrame(bytes: seq<byte>, opts: Options, records: seq<Record>, kind: Kind, at: Text, data: Value)
    requires IsDigest(ChainOf(records)) && Writable(opts, records, kind, at, data)
    ensures var file := bytes + Frame(ChainOf(records), Body(records, kind, at, data));
            |bytes| < |file| &&
            Scan(file, |bytes|, opts, records) ==
            if Readable(opts, records, kind, at, data)
            then Scanned(records + [ReadBack(records, kind, at, data)], |file|, false) else Scanned(records, |bytes|, true)
  {
    hide Body, Frame, ReadFrame, IsDigest, Norm, Readable, Representable, ChainOf, Appended, Scan;
    var body := Body(records, kind, at, data);
    var file := bytes + Frame(ChainOf(records), body);
    assert Frame(ChainOf(records), body) + [] == Frame(ChainOf(records), body);
    FrameBack(bytes, [], opts, records, kind, at, data);
    FrameSplit(ChainOf(records), body, []);
    ScanOne(file, |bytes|, opts, records);
  }

  lemma ScanOne(bytes: seq<byte>, offset: nat, opts: Options, records: seq<Record>)
    requires offset < |bytes| && |records| < opts.maxRecords
    ensures var r := ReadFrame(bytes, offset, opts, records);
            (r.Refused? ==> Scan(bytes, offset, opts, records) == Scanned(records, offset, true)) &&
            (r.Got? && r.pos == |bytes| ==>
               Scan(bytes, offset, opts, records) == Scanned(records + [r.value], |bytes|, false))
  {
    hide ReadFrame;
  }

  lemma LastLinked(records: seq<Record>)
    requires Linked(records)
    ensures IsDigest(ChainOf(records))
  {
    hide DigestText, Material;
    if records != [] { assert LinkedAt(records, |records| - 1); }
  }

  /** Appending to any file that reads cleanly: the new file reads cleanly with one more record, exactly when the payload is
      within the reader's bounds; otherwise the new frame is taken for damage and everything before it is kept. */
  lemma AppendReads(bytes: seq<byte>, opts: Options, kind: Kind, at: Text, data: Value)
    requires OpenFile(bytes, opts).Ready? && !OpenFile(bytes, opts).damaged
    requires Writable(opts, OpenFile(bytes, opts).records, kind, at, data)
    ensures var records := OpenFile(bytes, opts).records;
            var file := bytes + Frame(ChainOf(records), Body(records, kind, at, data));
            OpenFile(file, opts) ==
            if Readable(opts, records, kind, at, data)
            then Ready(records + [ReadBack(records, kind, at, data)], |file|, false) else Ready(records, |bytes|, true)
  {
    hide Body, Frame, Scan, IsDigest, Readable, ChainOf, ReadBack, ReadU32, Representable;
    var records := OpenFile(bytes, opts).records;
    var frame := Frame(ChainOf(records), Body(records, kind, at, data));
    AnyFileLinks(bytes, opts);
    LastLinked(records);
    ScanExtends(bytes, frame, HEADER_BYTES, opts, []);
    ScanFrame(bytes, opts, records, kind, at, data);
    assert (bytes + frame)[..|bytes|] == bytes;
    HeaderLocal(bytes + frame, |bytes|);
  }

  datatype Op = Op(kind: Kind, at: Text, data: Value)

  /** The records in memory after some writes, and the file they leave. */
  function RecordsOf(ops: seq<Op>): seq<Record>
    decreases |ops|
  {
    if ops == [] then []
    else
      var done, op := RecordsOf(ops[..|ops| - 1]), ops[|ops| - 1];
      done + [Appended(done, op.kind, op.at, op.data)]
  }

  function FileOf(created: seq<byte>, ops: seq<Op>): seq<byte>
    requires |created| == 8
    decreases |ops|
  {
    if ops == [] then Header(created)
    else
      var done, op := RecordsOf(ops[..|ops| - 1]), ops[|ops| - 1];
      var body := Body(done, op.kind, op.at, op.data);
      FileOf(created, ops[..|ops| - 1]) + (if |body| < TWO_32 then Frame(ChainOf(done), body) else [])
  }

  function NormRecords(records: seq<Record>): (r: seq<Record>)
    ensures |r| == |records| && forall i :: 0 <= i < |r| ==> r[i] == records[i].(data := Norm(records[i].data))
  {
    seq(|records|, i requires 0 <= i < |records| => records[i].(data := Norm(records[i].data)))
  }

  /** Every write was accepted by the writer, and its payload is within the reader's bounds. */
  predicate AllReadable(opts: Options, ops: seq<Op>)
    decreases |ops|
  {
    ops == [] ||
    (AllReadable(opts, ops[..|ops| - 1]) &&
     var done, op := RecordsOf(ops[..|ops| - 1]), ops[|ops| - 1];
     Writable(opts, done, op.kind, op.at, op.data) && Readable(opts, done, op.kind, op.at, op.data))
  }

  lemma NormRecordsPush(records: seq<Record>, r: Record)
    ensures NormRecords(records + [r]) == NormRecords(records) + [r.(data := Norm(r.data))]
    ensures ChainOf(NormRecords(records)) == ChainOf(records) && LastSeq(NormRecords(records)) == LastSeq(records)
  {
  }

  /** Chain and sequence are all a write depends on. */
  lemma SameTail(a: seq<Record>, b: seq<Record>, opts: Options, op: Op)
    requires ChainOf(a) == ChainOf(b) && LastSeq(a) == LastSeq(b) && |a| == |b|
    ensures Body(a, op.kind, op.at, op.data) == Body(b, op.kind, op.at, op.data)
    ensures Appended(a, op.kind, op.at, op.data) == Appended(b, op.kind, op.at, op.data)
    ensures Writable(opts, a, op.kind, op.at, op.data) <==> Writable(opts, b, op.kind, op.at, op.data)
    ensures Readable(opts, a, op.kind, op.at, op.data) <==> Readable(opts, b, op.kind, op.at, op.data)
  {
    hide Dump, KindName, DigestText, Fits, Representable, ChainOf, LastSeq;
  }

  lemma HeaderReads(created: seq<byte>, opts: Options)
    requires |created| == 8
    ensures OpenFile(Header(created), opts) == Ready([], HEADER_BYTES, false) && |Header(created)| == HEADER_BYTES
  {
    hide PutU32, ReadU32, ReadFrame;
    var bytes := Header(created);
    assert bytes[8..8 + 4] == PutU32(FORMAT_VERSION);
    ReadPut(FORMAT_VERSION, bytes, 8);
    assert bytes[..8] == FILE_MAGIC;
  }

  /** A file written record by record reads back in full, data normalised. */
  lemma {:induction false} WrittenFileReads(created: seq<byte>, ops: seq<Op>, opts: Options)
    requires |created| == 8 && AllReadable(opts, ops)
    ensures OpenFile(FileOf(created, ops), opts) == Ready(NormRecords(RecordsOf(ops)), |FileOf(created, ops)|, false)
    decreases |ops|
  {
    hide Body, Frame, OpenFile, Readable, Writable, ChainOf, LastSeq, Appended, Header;
    if ops == [] {
      HeaderReads(created, opts);
      assert NormRecords([]) == [];
    } else {
      var before, op := ops[..|ops| - 1], ops[|ops| - 1];
      var done := RecordsOf(before);
      WrittenFileReads(created, before, opts);
      NormRecordsPush(done, Appended(done, op.kind, op.at, op.data));
      SameTail(NormRecords(done), done, opts, op);
      WritableSize(opts, done, op);
      AppendReads(FileOf(created, before), opts, op.kind, op.at, op.data);
      AppendedData(done, op);
    }
  }

  lemma WritableSize(opts: Options, records: seq<Record>, op: Op)
    requires Writable(opts, records, op.kind, op.at, op.data)
    ensures |Body(records, op.kind, op.at, op.data)| < TWO_32
  {
    hide Body;
  }

  lemma AppendedData(records: seq<Record>, op: Op)
    ensures Appended(records, op.kind, op.at, op.data).data == op.data
  {
    hide Body, DigestText;
  }

  /** A written file, cut anywhere after its header. */
  lemma WrittenFileCut(created: seq<byte>, ops: seq<Op>, opts: Options, n: nat)
    requires |created| == 8 && AllReadable(opts, ops) && HEADER_BYTES <= n <= |FileOf(created, ops)|
    ensures |RecordsOf(ops)| == |ops| && CutReads(FileOf(created, ops), opts, NormRecords(RecordsOf(ops)), n)
  {
    hide OpenFile, Ends, FitCount, AllReadable, FileOf, CutReads;
    WrittenFileReads(created, ops, opts);
    RecordCount(ops);
    CutFile(FileOf(created, ops), n, opts);
  }

  lemma {:induction false} RecordCount(ops: seq<Op>)
    ensures |RecordsOf(ops)| == |ops|
    decreases |ops|
  {
    hide Appended;
    if ops != [] { RecordCount(ops[..|ops| - 1]); }
  }
}
