/** The journal's format, field by field: what the writer puts where, and that the reader accepts exactly that. */
module JournalFormat {
  import opened Bytes
  import opened Json
  import opened Hex
  import opened Journal
  import opened JournalProofs
  import Crc32c
  import Sha256

  // ---- numbers and fields -------------------------------------------------------------------------------------

  /** The least significant byte comes first. */
  function LittleEndian(b: seq<byte>): nat
    decreases |b|
  {
    if b == [] then 0 else var first: int := b[0]; first + 256 * LittleEndian(b[1..])
  }

  lemma LittleOne(b: seq<byte>)
    requires |b| == 1
    ensures LittleEndian(b) == b[0]
  {
    assert b[1..] == [];
  }

  lemma LittleFour(b: seq<byte>)
    requires |b| == 4
    ensures var b0: int, b1: int, b2: int, b3: int := b[0], b[1], b[2], b[3];
            LittleEndian(b) == b0 + 256 * (b1 + 256 * (b2 + 256 * b3))
  {
    assert b[1..][1..] == b[2..] && b[2..][1..] == b[3..] && b[3..][1..] == [];
    assert b[3..][0] == b[3] && b[2..][0] == b[2] && b[1..][0] == b[1];
    LittleOne(b[3..]);
  }

  lemma ReadIsLittle(bytes: seq<byte>, offset: nat)
    requires offset + 4 <= |bytes|
    ensures ReadU32(bytes, offset) == LittleEndian(bytes[offset..offset + 4])
  {
    LittleFour(bytes[offset..offset + 4]);
  }

  lemma PutIsLittle(v: nat)
    requires v < TWO_32
    ensures LittleEndian(PutU32(v)) == v
  {
    hide LittleEndian;
    ReadPut(v, PutU32(v), 0);
    ReadIsLittle(PutU32(v), 0);
    assert PutU32(v)[0..4] == PutU32(v);
  }

  /** The first member of that name has this value. */
  ghost predicate Field(v: Value, name: Text, x: Value) {
    v.Object? && exists i :: 0 <= i < |v.members| && v.members[i] == Member(name, x) && forall j :: 0 <= j < i ==> v.members[j].key != name
  }

  predicate NoField(v: Value, name: Text) { v.Object? ==> forall m :: m in v.members ==> m.key != name }

  lemma {:induction false} FindFirst(members: seq<Member>, key: Text)
    ensures Find(members, key) >= 0 ==> forall j :: 0 <= j < Find(members, key) ==> members[j].key != key
    decreases |members|
  {
    if members != [] {
      FindFirst(members[1..], key);
      assert members == [members[0]] + members[1..];
    }
  }

  lemma LookupIff(v: Value, name: Text, x: Value)
    ensures Lookup(v, name) == Got(x, 0) <==> Field(v, name, x)
    ensures Lookup(v, name).Refused? <==> NoField(v, name)
    ensures Lookup(v, name).Got? ==> Lookup(v, name).pos == 0
  {
    if v.Object? {
      FindFirst(v.members, name);
      var at := Find(v.members, name);
      if at >= 0 { assert v.members[at] in v.members; }
    }
  }

  // ---- what a payload says ------------------------------------------------------------------------------------

  /** The number is written as an unsigned integer, as a signed one that is not negative, or as a real that stands for it. */
  predicate Counts(x: Value, n: nat, opts: Options) {
    match x
    case UInt(u) => n == u
    case Int(i) => n == i
    case Real(token) => opts.wholeReal(token).Got? && opts.wholeReal(token).value == n
    case _ => false
  }

  /** The parsed payload says this of the record that follows the given ones. */
  ghost predicate Says(v: Value, r: Record, opts: Options, records: seq<Record>) {
    (exists x :: Field(v, Ascii("seq"), x) && Counts(x, r.seq_, opts)) &&
    Field(v, Ascii("type"), Str(KindName(r.kind))) &&
    Field(v, Ascii("at"), Str(r.at)) && opts.timeOk(r.at) &&
    Field(v, Ascii("prev_chain"), Str(r.previous)) && IsDigest(r.previous) && r.previous == ChainOf(records) &&
    (records != [] ==> r.seq_ > LastSeq(records)) &&
    (Field(v, Ascii("data"), r.data) || (NoField(v, Ascii("data")) && r.data == Object([])))
  }

  lemma NumberIff(v: Value, name: Text, n: nat, opts: Options)
    ensures (RequireUint(v, name, opts.wholeReal).Got? && RequireUint(v, name, opts.wholeReal).value == n) <==>
            exists x :: Field(v, name, x) && Counts(x, n, opts)
  {
    hide Lookup, Field;
    match Lookup(v, name)
    case Refused =>
      forall x ensures !Field(v, name, x) { LookupIff(v, name, x); }
    case Got(y, _) =>
      LookupIff(v, name, y);
      forall x | Field(v, name, x) ensures x == y { LookupIff(v, name, x); }
  }

  lemma TextIff(v: Value, name: Text, s: Text)
    ensures (RequireText(v, name).Got? && RequireText(v, name).value == s) <==> Field(v, name, Str(s))
  {
    hide Lookup, Field;
    LookupIff(v, name, Str(s));
  }

  lemma {:induction false} KindNamed(name: Text, from: nat)
    requires from <= |KINDS|
    ensures ParseKind(name, from).Got? ==> KindName(ParseKind(name, from).value) == name
    decreases |KINDS| - from
  {
    hide KindName;
    if from < |KINDS| && KindName(KINDS[from]) != name { KindNamed(name, from + 1); }
  }

  lemma KindIff(name: Text, k: Kind)
    ensures (ParseKind(name, 0).Got? && ParseKind(name, 0).value == k) <==> KindName(k) == name
  {
    hide KindName, ParseKind;
    KindNamed(name, 0);
    KindBack(k);
  }

  /** The checks on a payload pass exactly when it says what the record holds and its digest is the stored one. */
  lemma RecordIff(v: Value, payload: Text, chain: Text, opts: Options, records: seq<Record>, r: Record)
    ensures ReadRecord(v, payload, chain, opts, records) == Got(r, 0) <==>
            Says(v, r, opts, records) && r.chain == chain == DigestText(Material(ChainOf(records), payload))
    ensures ReadRecord(v, payload, chain, opts, records).Got? ==> ReadRecord(v, payload, chain, opts, records).pos == 0
  {
    hide IsDigest, DigestText, ParseKind, RequireUint, RequireText, Lookup, Material, Field, NoField, Counts, ChainOf, LastSeq, KindName;
    Names();
    NumberIff(v, KEY_SEQ, r.seq_, opts);
    TextIff(v, KEY_TYPE, KindName(r.kind));
    TextIff(v, KEY_AT, r.at);
    TextIff(v, KEY_PREVIOUS, r.previous);
    LookupIff(v, KEY_DATA, r.data);
    KindIff(KindName(r.kind), r.kind);
    var name := RequireText(v, KEY_TYPE);
    if name.Got? { KindIff(name.value, r.kind); }
  }

  lemma Names()
    ensures KEY_SEQ == Ascii("seq") && KEY_TYPE == Ascii("type") && KEY_AT == Ascii("at") &&
            KEY_PREVIOUS == Ascii("prev_chain") && KEY_DATA == Ascii("data")
  {
  }

  // ---- a frame ------------------------------------------------------------------------------------------------

  /** From `offset` to `next` the file holds a frame of this payload: four letters, its length, its checksum, and the digest of it
      behind the previous digest. */
  predicate FrameStands(bytes: seq<byte>, offset: nat, next: nat, previous: Text) {
    offset + 44 <= next <= |bytes| &&
    var payload := bytes[offset + 44..next];
    bytes[offset..offset + 4] == Ascii("FUMR") &&
    LittleEndian(bytes[offset + 4..offset + 8]) == |payload| &&
    LittleEndian(bytes[offset + 8..offset + 12]) == Crc32c.Crc(0, payload) as int &&
    bytes[offset + 12..offset + 44] == Sha256.Digest(previous + Ascii("|") + payload)
  }

  lemma Letters()
    ensures RECORD_MAGIC == Ascii("FUMR") && FILE_MAGIC == Ascii("FUMJRNL1") && [BAR] == Ascii("|")
  {
  }

  lemma MaterialIs(previous: Text, body: Text)
    ensures Material(previous, body) == previous + Ascii("|") + body
  {
    Letters();
    assert previous + ([BAR] + body) == previous + [BAR] + body;
  }

  lemma SameHex(d: seq<byte>, e: seq<byte>)
    requires |d| == |e| == 32
    ensures ToHex(d) == ToHex(e) <==> d == e
  {
    DigestBack(d);
    DigestBack(e);
  }

  lemma ExtentIff(bytes: seq<byte>, offset: nat, maxRecord: nat, next: nat)
    requires offset < |bytes|
    ensures FrameExtent(bytes, offset, maxRecord) == Got(offset + 44, next) <==>
            offset + 44 < next <= |bytes| && next - offset - 44 <= maxRecord && bytes[offset..offset + 4] == Ascii("FUMR") &&
            LittleEndian(bytes[offset + 4..offset + 8]) == next - offset - 44
  {
    hide LittleEndian, ReadU32;
    Letters();
    if |bytes| - offset >= 44 { ReadIsLittle(bytes, offset + 4); }
  }

  /** The reader accepts a frame exactly when one stands there, its payload within the bound on records, and the payload says
      what the record holds. */
  lemma FrameAcceptedIff(bytes: seq<byte>, offset: nat, opts: Options, records: seq<Record>, r: Record, next: nat)
    requires offset < |bytes|
    ensures ReadFrame(bytes, offset, opts, records) == Got(r, next) <==>
            FrameStands(bytes, offset, next, ChainOf(records)) && offset + 44 < next <= offset + 44 + opts.maxRecord &&
            r.chain == ToHex(bytes[offset + 12..offset + 44]) &&
            Parse(bytes[offset + 44..next], opts.limits).Got? &&
            Says(Parse(bytes[offset + 44..next], opts.limits).value, r, opts, records)
  {
    hide LittleEndian, ReadU32, FrameExtent, ReadRecord, Says, Sha256.Digest, ToHex, Parse, Material, ChainOf, Crc32c.Crc;
    ExtentIff(bytes, offset, opts.maxRecord, next);
    if offset + 44 < next <= |bytes| {
      var payload := bytes[offset + 44..next];
      ReadIsLittle(bytes, offset + 8);
      MaterialIs(ChainOf(records), payload);
      SameHex(bytes[offset + 12..offset + 44], Sha256.Digest(Material(ChainOf(records), payload)));
      if Parse(payload, opts.limits).Got? {
        RecordIff(Parse(payload, opts.limits).value, payload, StoredChain(bytes, offset), opts, records, r);
      }
    }
  }

  /** What the writer appends is such a frame, wherever it is put. */
  lemma WrittenStands(before: seq<byte>, previous: Text, body: Text, after: seq<byte>)
    requires |body| < TWO_32
    ensures var bytes := before + (Frame(previous, body) + after);
            var next := |before| + 44 + |body|;
            |Frame(previous, body)| == 44 + |body| && FrameStands(bytes, |before|, next, previous) && bytes[|before| + 44..next] == body
  {
    hide LittleEndian, PutU32, Frame, Sha256.Digest, Material, Crc32c.Crc;
    FrameSplit(previous, body, after);
    FrameParts(before, previous, body, after);
    PutIsLittle(|body|);
    PutIsLittle(Check(body));
    MaterialIs(previous, body);
    Letters();
  }

  // ---- the file -----------------------------------------------------------------------------------------------

  /** The header: eight letters, version 1, an empty word and eight bytes of creation time. The reader looks at the first two. */
  lemma HeaderIff(bytes: seq<byte>)
    ensures HeaderOk(bytes) <==>
            |bytes| >= 24 && bytes[..8] == Ascii("FUMJRNL1") && LittleEndian(bytes[8..12]) == 1
  {
    hide LittleEndian, ReadU32;
    Letters();
    if |bytes| >= 24 { ReadIsLittle(bytes, 8); }
  }

  lemma HeaderStands(created: seq<byte>)
    requires |created| == 8
    ensures var h := Header(created);
            |h| == 24 && h[..8] == Ascii("FUMJRNL1") && LittleEndian(h[8..12]) == 1 && LittleEndian(h[12..16]) == 0 && h[16..] == created
  {
    hide LittleEndian, PutU32;
    Letters();
    var h := Header(created);
    PutIsLittle(1);
    PutIsLittle(0);
    assert h[8..12] == PutU32(1) && h[12..16] == PutU32(0);
  }
}
