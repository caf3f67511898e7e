/** The journal file as bytes: the frames the writer appends and the conservative reader that accepts a prefix of them. */
module Journal {
  import opened Bytes
  import opened Json
  import opened Hex
  import Crc32c
  import Sha256

  // ---- names and records --------------------------------------------------------------------------------------

  /** ASCII text as bytes. */
  function Ascii(s: string): (r: Text)
    requires forall i :: 0 <= i < |s| ==> s[i] < 128 as char
    ensures |r| == |s| && forall i :: 0 <= i < |s| ==> r[i] == s[i] as int
  {
    seq(|s|, i requires 0 <= i < |s| => s[i] as int)
  }

  datatype Kind =
    | Boot | Epoch | Policy | Campaign | Attempt | Provenance | Decision | Ticket | Note | Snapshot | Shutdown

  const KINDS: seq<Kind> :=
    [Boot, Epoch, Policy, Campaign, Attempt, Provenance, Decision, Ticket, Note, Snapshot, Shutdown]

  /** `journal_record_type_name`: a snapshot has no name of its own. */
  function KindName(k: Kind): Text {
    match k
    case Boot => Ascii("boot")
    case Epoch => Ascii("epoch")
    case Policy => Ascii("policy")
    case Campaign => Ascii("campaign")
    case Attempt => Ascii("attempt")
    case Provenance => Ascii("provenance")
    case Decision => Ascii("decision")
    case Ticket => Ascii("ticket")
    case Note => Ascii("note")
    case Snapshot => Ascii("unknown")
    case Shutdown => Ascii("shutdown")
  }

  /** `parse_journal_record_type`: the first type with the name. */
  function ParseKind(name: Text, from: nat): (r: Read<Kind>)
    requires from <= |KINDS|
    decreases |KINDS| - from
  {
    if from == |KINDS| then Refused
    else if KindName(KINDS[from]) == name then Got(KINDS[from], 0)
    else ParseKind(name, from + 1)
  }

  /** A digest is its hexadecimal text; the empty text stands before the first record. */
  datatype Record = Record(seq_: nat, kind: Kind, at: Text, data: Value, previous: Text, chain: Text)

  /** The bounds of the journal, the bounds of the reader of payloads, which timestamps are well formed, and what an unsigned
      integer read makes of a real number. */
  datatype Options = Options(maxRecord: nat, maxRecords: nat, maxFile: nat, limits: Limits, timeOk: Text -> bool,
                             wholeReal: Text -> Read<nat>)

  /** What `Journal::open` demands of the bounds. */
  predicate OptionsOk(opts: Options) {
    1024 <= opts.maxRecord <= 0x4000_0000 && opts.maxRecord <= opts.maxFile && opts.maxRecords > 0
  }

  const RECORD_MAGIC: seq<byte> := [70, 85, 77, 82]
  const FILE_MAGIC: seq<byte> := [70, 85, 77, 74, 82, 78, 76, 49]
  const FORMAT_VERSION: nat := 1
  const HEADER_BYTES: nat := 24
  const PREFIX_BYTES: nat := 44
  const BAR: byte := 124

  const KEY_SEQ: Text := Ascii("seq")
  const KEY_TYPE: Text := Ascii("type")
  const KEY_AT: Text := Ascii("at")
  const KEY_PREVIOUS: Text := Ascii("prev_chain")
  const KEY_DATA: Text := Ascii("data")
  const KEY_EPOCH: Text := Ascii("epoch")
  const KEY_INCARNATION: Text := Ascii("incarnation")

  function DigestText(t: Text): (r: Text)
    ensures |r| == 64
  {
    ToHex(Sha256.Digest(t))
  }

  function Material(previous: Text, body: Text): Text { previous + ([BAR] + body) }

  function Check(body: Text): (r: nat)
    ensures r < TWO_32
  {
    Crc32c.Crc(0, body) as int
  }

  function ChainOf(records: seq<Record>): Text { if records == [] then [] else records[|records| - 1].chain }

  function LastSeq(records: seq<Record>): nat { if records == [] then 0 else records[|records| - 1].seq_ }

  // ---- writing ------------------------------------------------------------------------------------------------

  /** The payload of a record that follows the given ones. */
  function Payload(records: seq<Record>, kind: Kind, at: Text, data: Value): Value {
    Object([Member(KEY_SEQ, UInt(LastSeq(records) + 1)), Member(KEY_TYPE, Str(KindName(kind))), Member(KEY_AT, Str(at)),
            Member(KEY_PREVIOUS, Str(ChainOf(records))), Member(KEY_DATA, data)])
  }

  function Body(records: seq<Record>, kind: Kind, at: Text, data: Value): Text { Dump(Payload(records, kind, at, data), 0, 0) }

  function Frame(previous: Text, body: Text): seq<byte>
    requires |body| < TWO_32
  {
    hide Check, PutU32, Material;
    RECORD_MAGIC + (PutU32(|body|) + (PutU32(Check(body)) + (Sha256.Digest(Material(previous, body)) + body)))
  }

  /** The record in memory after it was written. */
  function Appended(records: seq<Record>, kind: Kind, at: Text, data: Value): Record {
    Record(LastSeq(records) + 1, kind, at, data, ChainOf(records),
           DigestText(Material(ChainOf(records), Body(records, kind, at, data))))
  }

  // ---- reading ------------------------------------------------------------------------------------------------

  function Lookup(v: Value, key: Text): Read<Value> {
    if !v.Object? then Refused
    else
      var at := Find(v.members, key);
      if at >= 0 then Got(v.members[at].value, 0) else Refused
  }

  /** `require_uint`. */
  function RequireUint(v: Value, key: Text, wholeReal: Text -> Read<nat>): Read<nat> {
    match Lookup(v, key)
    case Refused => Refused
    case Got(x, _) =>
      if x.UInt? then Got(x.u, 0)
      else if x.Int? && x.i >= 0 then Got(x.i, 0)
      else if x.Real? then wholeReal(x.token)
      else Refused
  }

  /** `require_string`. */
  function RequireText(v: Value, key: Text): Read<Text> {
    match Lookup(v, key)
    case Refused => Refused
    case Got(x, _) => if x.Str? then Got(x.s, 0) else Refused
  }

  /** `Digest::parse`: empty, or 64 hexadecimal digits of either case, kept as they are. */
  predicate IsDigest(t: Text) { t == [] || FromHex(t).Got? }

  /** The checks on a parsed payload, in the reader's order; `chain` is the digest stored in the frame. */
  function ReadRecord(v: Value, payload: Text, chain: Text, opts: Options, records: seq<Record>): Read<Record> {
    hide IsDigest, DigestText, ParseKind, RequireUint, RequireText, Lookup, Material;
    var seq_ := RequireUint(v, KEY_SEQ, opts.wholeReal);
    var name := RequireText(v, KEY_TYPE);
    var at := RequireText(v, KEY_AT);
    var previous := RequireText(v, KEY_PREVIOUS);
    if seq_.Refused? || name.Refused? then Refused
    else
      var kind := ParseKind(name.value, 0);
      if kind.Refused? || at.Refused? || !opts.timeOk(at.value) || previous.Refused? || !IsDigest(previous.value) then Refused
      else if previous.value != ChainOf(records) then Refused
      else if DigestText(Material(ChainOf(records), payload)) != chain then Refused
      else if records != [] && seq_.value <= LastSeq(records) then Refused
      else
        var data := Lookup(v, KEY_DATA);
        Got(Record(seq_.value, kind.value, at.value, if data.Got? then data.value else Object([]), previous.value, chain), 0)
  }

  function ReadPayload(payload: Text, chain: Text, opts: Options, records: seq<Record>): Read<Record> {
    match Parse(payload, opts.limits)
    case Refused => Refused
    case Got(v, _) => ReadRecord(v, payload, chain, opts, records)
  }

  /** Where the payload of a frame starts and ends, if prefix, magic and length are as they should be. */
  function FrameExtent(bytes: seq<byte>, offset: nat, maxRecord: nat): (r: Read<nat>)
    requires offset < |bytes|
    ensures r.Got? ==> r.value == offset + PREFIX_BYTES < r.pos <= |bytes|
  {
    hide ReadU32;
    if |bytes| - offset < PREFIX_BYTES then Refused
    else if bytes[offset..offset + 4] != RECORD_MAGIC then Refused
    else
      var size := ReadU32(bytes, offset + 4);
      if size == 0 || size > maxRecord || offset + PREFIX_BYTES + size > |bytes| then Refused
      else Got(offset + PREFIX_BYTES, offset + PREFIX_BYTES + size)
  }

  /** The stored digest of a frame, as text. */
  function StoredChain(bytes: seq<byte>, offset: nat): Text
    requires offset + PREFIX_BYTES <= |bytes|
  {
    ToHex(bytes[offset + 12..offset + 44])
  }

  /** One frame: a record and where the next frame starts, or damage. */
  function ReadFrame(bytes: seq<byte>, offset: nat, opts: Options, records: seq<Record>): (r: Read<Record>)
    requires offset < |bytes|
    ensures r.Got? ==> offset + PREFIX_BYTES < r.pos <= |bytes|
  {
    hide Check, ReadPayload, StoredChain, ReadU32, FrameExtent;
    match FrameExtent(bytes, offset, opts.maxRecord)
    case Refused => Refused
    case Got(from, next) =>
      var payload := bytes[from..next];
      if Check(payload) != ReadU32(bytes, offset + 8) then Refused
      else
        match ReadPayload(payload, StoredChain(bytes, offset), opts, records)
        case Refused => Refused
        case Got(record, _) => Got(record, next)
  }

  datatype Scanned = TooMany | Scanned(records: seq<Record>, end: nat, damaged: bool)

  /** The replay loop: frames are accepted until the file ends, the first damage, or the bound on records. */
  function Scan(bytes: seq<byte>, offset: nat, opts: Options, records: seq<Record>): (r: Scanned)
    requires offset <= |bytes|
    ensures r.Scanned? ==> offset <= r.end <= |bytes| && (r.damaged <==> r.end != |bytes|) && records <= r.records
    decreases |bytes| - offset
  {
    hide ReadFrame;
    if offset == |bytes| then Scanned(records, offset, false)
    else
      match ReadFrame(bytes, offset, opts, records)
      case Refused => Scanned(records, offset, true)
      case Got(record, next) =>
        if |records| + 1 > opts.maxRecords then TooMany else Scan(bytes, next, opts, records + [record])
  }

  datatype Opened = Corrupt | Exhausted | Ready(records: seq<Record>, end: nat, damaged: bool)

  function Header(created: seq<byte>): seq<byte>
    requires |created| == 8
  {
    FILE_MAGIC + (PutU32(FORMAT_VERSION) + (PutU32(0) + created))
  }

  predicate HeaderOk(bytes: seq<byte>) {
    |bytes| >= HEADER_BYTES && bytes[..8] == FILE_MAGIC && ReadU32(bytes, 8) == FORMAT_VERSION
  }

  /** `Journal::open` on the bytes of a file that is not empty and within the bounds. */
  function OpenFile(bytes: seq<byte>, opts: Options): Opened {
    if !HeaderOk(bytes) then Corrupt
    else
      match Scan(bytes, HEADER_BYTES, opts, [])
      case TooMany => Exhausted
      case Scanned(records, end, damaged) => Ready(records, end, damaged)
  }

  // ---- what the accepted records say of the last start --------------------------------------------------------

  /** How many records stand before the last boot or snapshot. */
  function LastOpening(records: seq<Record>): (n: nat)
    ensures n <= |records|
    ensures n > 0 ==> n < |records| && (records[n].kind.Boot? || records[n].kind.Snapshot?)
    ensures forall i :: n < i < |records| ==> !records[i].kind.Boot? && !records[i].kind.Snapshot?
  {
    if records == [] then 0
    else
      var last := |records| - 1;
      if records[last].kind.Boot? || records[last].kind.Snapshot? then last else LastOpening(records[..last])
  }

  /** The first unsigned integer of that name in the data of the records, or zero. */
  function FirstNumber(records: seq<Record>, key: Text, opts: Options): nat {
    hide RequireUint;
    if records == [] then 0
    else
      match RequireUint(records[0].data, key, opts.wholeReal)
      case Got(n, _) => n
      case Refused => FirstNumber(records[1..], key, opts)
  }

  /** A shutdown after which the journal was not started again. */
  predicate ShutDownCleanly(records: seq<Record>) {
    exists i :: 0 <= i < |records| && records[i].kind.Shutdown? && forall j :: i < j < |records| ==> !records[j].kind.Boot?
  }
}
