/** The journal as an object over the bytes of its file: opening replays them, appending adds one frame. */
module JournalFiles {
  import opened Bytes
  import opened Json
  import opened JsonParser
  import opened Hex
  import opened Journal
  import opened JournalProofs
  import Crc32c
  import Sha256

  method Checksum(body: Text) returns (check: nat)
    ensures check == Check(body)
  {
    var table := Crc32c.BuildTable();
    var crc := Crc32c.Checksum(table, 0, body);
    check := crc as int;
  }

  method HashText(t: Text) returns (digest: Text)
    ensures digest == DigestText(t)
  {
    hide Sha256.Digest, ToHex;
    var stream := new Sha256.Sha256Stream();
    stream.Update(t);
    assert [] + t == t;
    var d := stream.Finish();
    digest := WriteHex(d);
  }

  class JournalFile {
    const opts: Options
    var file: seq<byte>
    var records: seq<Record>
    var chain: Text
    var lastSequence: nat
    var isOpen: bool
    var tailDamaged: bool
    var lastEpoch: nat
    var lastBoot: nat
    var cleanShutdown: bool

    ghost predicate Valid()
      reads this
    {
      chain == ChainOf(records) && lastSequence == LastSeq(records) && Linked(records) &&
      (isOpen ==> OptionsOk(opts) && |file| <= opts.maxFile)
    }

    constructor (opts: Options)
      ensures this.opts == opts && file == [] && records == [] && Valid() && !isOpen && !tailDamaged
    {
      this.opts, file, records, chain, lastSequence, isOpen, tailDamaged := opts, [], [], [], 0, false, false;
      lastEpoch, lastBoot, cleanShutdown := 0, 0, false;
    }

    // ---- opening ------------------------------------------------------------------------------------------------

    /** The members the reader looks at, one after another; any that is missing or malformed is damage. */
    method RecordFrom(v: Value, payload: Text, stored: Text) returns (r: Read<Record>)
      requires Valid()
      ensures r == ReadRecord(v, payload, stored, opts, records)
    {
      hide RequireUint, RequireText, ParseKind, IsDigest, Lookup, DigestText, Material, Linked;
      var number := RequireUint(v, KEY_SEQ, opts.wholeReal);
      if number.Refused? { return Refused; }
      var name := RequireText(v, KEY_TYPE);
      if name.Refused? { return Refused; }
      var kind := ParseKind(name.value, 0);
      if kind.Refused? { return Refused; }
      var at := RequireText(v, KEY_AT);
      if at.Refused? { return Refused; }
      if !opts.timeOk(at.value) { return Refused; }
      var previous := RequireText(v, KEY_PREVIOUS);
      if previous.Refused? || !IsDigest(previous.value) { return Refused; }
      if previous.value != chain { return Refused; }
      var expected := HashText(Material(chain, payload));
      if expected != stored { return Refused; }
      if records != [] && number.value <= lastSequence { return Refused; }
      var data := Lookup(v, KEY_DATA);
      return Got(Record(number.value, kind.value, at.value, if data.Got? then data.value else Object([]), previous.value, stored), 0);
    }

    /** One round of the replay loop on the bytes at `offset`. */
    method FrameAt(bytes: seq<byte>, offset: nat) returns (r: Read<Record>)
      requires Valid() && offset < |bytes|
      ensures r == ReadFrame(bytes, offset, opts, records)
    {
      hide Check, ReadRecord, ReadU32, ToHex, Linked, Parse;
      if |bytes| - offset < PREFIX_BYTES { return Refused; }
      if bytes[offset..offset + 4] != RECORD_MAGIC { return Refused; }
      var size := ReadU32(bytes, offset + 4);
      var crc := ReadU32(bytes, offset + 8);
      if size == 0 || size > opts.maxRecord { return Refused; }
      var from := offset + PREFIX_BYTES;
      if from + size > |bytes| { return Refused; }
      var payload := bytes[from..from + size];
      var check := Checksum(payload);
      if check != crc { return Refused; }
      var stored := WriteHex(bytes[offset + 12..offset + 44]);
      var parser := new Parser(payload, opts.limits);
      var parsed := parser.Run();
      if parsed.Refused? { return Refused; }
      var record := RecordFrom(parsed.value, payload, stored);
      if record.Refused? { return Refused; }
      return Got(record.value, from + size);
    }

    method Accept(r: Record)
      requires Valid() && Linked(records + [r])
      modifies this`records, this`chain, this`lastSequence
      ensures Valid() && records == old(records) + [r]
    {
      hide Linked;
      records := records + [r];
      chain := r.chain;
      lastSequence := r.seq_;
    }

    /** The replay loop: it keeps what it has accepted when it meets damage. Returns whether the bound on records held. */
    method Replay(bytes: seq<byte>, start: nat) returns (ok: bool, end: nat)
      requires Valid() && start <= |bytes|
      modifies this`records, this`chain, this`lastSequence, this`tailDamaged
      ensures Valid() && end <= |bytes|
      ensures if ok then Scan(bytes, start, opts, old(records)) == Scanned(records, end, tailDamaged)
              else Scan(bytes, start, opts, old(records)) == TooMany
    {
      hide ReadFrame, Linked, Scan, ChainOf, LastSeq;
      tailDamaged := false;
      end := start;
      while end < |bytes|
        invariant start <= end <= |bytes| && Valid() && !tailDamaged
        invariant Scan(bytes, start, opts, old(records)) == Scan(bytes, end, opts, records)
        decreases |bytes| - end
      {
        var r := FrameAt(bytes, end);
        ScanStep(bytes, end, opts, records);
        if r.Refused? {
          tailDamaged := true;
          return true, end;
        }
        NextLinked(bytes, end, opts, records);
        if |records| + 1 > opts.maxRecords { return false, end; }
        Accept(r.value);
        end := r.pos;
      }
      ScanEnd(bytes, opts, records);
      return true, end;
    }

    /** What the records since the last boot or snapshot say of epoch and incarnation, looking backwards: each one met replaces
        the one before. */
    method LookBack()
      requires Valid()
      modifies this`lastEpoch, this`lastBoot
      ensures Valid()
      ensures lastEpoch == FirstNumber(records[LastOpening(records)..], KEY_EPOCH, opts)
      ensures lastBoot == FirstNumber(records[LastOpening(records)..], KEY_INCARNATION, opts)
    {
      hide Linked, RequireUint, LastOpening, FirstNumber;
      lastEpoch, lastBoot := 0, 0;
      var i := |records|;
      NoNumber(KEY_EPOCH, opts);
      NoNumber(KEY_INCARNATION, opts);
      assert records[i..] == [];
      while i > 0
        invariant LastOpening(records) <= i <= |records| && (i > 0 ==> LastOpening(records) < i) && Valid()
        invariant lastEpoch == FirstNumber(records[i..], KEY_EPOCH, opts)
        invariant lastBoot == FirstNumber(records[i..], KEY_INCARNATION, opts)
      {
        i := i - 1;
        NumberBefore(records, i, KEY_EPOCH, opts);
        NumberBefore(records, i, KEY_INCARNATION, opts);
        var epoch := RequireUint(records[i].data, KEY_EPOCH, opts.wholeReal);
        if epoch.Got? { lastEpoch := epoch.value; }
        var incarnation := RequireUint(records[i].data, KEY_INCARNATION, opts.wholeReal);
        if incarnation.Got? { lastBoot := incarnation.value; }
        if records[i].kind.Boot? || records[i].kind.Snapshot? { return; }
      }
    }

    /** Whether the last run was shut down. */
    method LookForShutdown()
      requires Valid()
      modifies this`cleanShutdown
      ensures Valid() && cleanShutdown == ShutDownCleanly(records)
    {
      hide Linked;
      cleanShutdown := false;
      var i := |records|;
      while i > 0
        invariant 0 <= i <= |records| && Valid() && !cleanShutdown
        invariant forall j :: i <= j < |records| ==> !records[j].kind.Shutdown? && !records[j].kind.Boot?
      {
        i := i - 1;
        if records[i].kind.Shutdown? {
          cleanShutdown := true;
          return;
        }
        if records[i].kind.Boot? { return; }
      }
    }

    /** `Journal::open`: a new file gets a header, an existing one is replayed. Returns false if the bounds are not sensible, or
        the file is not a journal, holds too many records or is too long to be appended to. */
    method Open(bytes: seq<byte>, created: seq<byte>) returns (ok: bool, ignored: nat)
      requires Valid() && records == [] && !isOpen && |created| == 8
      modifies this
      ensures Valid() && isOpen == ok
      ensures !OptionsOk(opts) || |bytes| > opts.maxFile ==> !ok
      ensures OptionsOk(opts) && bytes == [] ==> ok && file == Header(created) && records == [] && !tailDamaged && ignored == 0
      ensures OptionsOk(opts) && bytes != [] && |bytes| <= opts.maxFile ==>
        match OpenFile(bytes, opts)
        case Ready(rs, end, damaged) =>
          ok && file == bytes && records == rs && tailDamaged == damaged && ignored == |bytes| - end
        case _ => !ok
      ensures ok ==> var since := records[LastOpening(records)..];
                     lastEpoch == FirstNumber(since, KEY_EPOCH, opts) && lastBoot == FirstNumber(since, KEY_INCARNATION, opts) &&
                     cleanShutdown == ShutDownCleanly(records)
    {
      hide Scan, Linked, ReadU32, FirstNumber, LastOpening, ShutDownCleanly, PutU32;
      if opts.maxRecord < 1024 || opts.maxRecord > 0x4000_0000 { return false, 0; }
      if opts.maxFile < opts.maxRecord || opts.maxRecords == 0 { return false, 0; }
      var end := 0;
      if bytes != [] {
        if |bytes| > opts.maxFile + 0x10_0000 { return false, 0; }
        if |bytes| < HEADER_BYTES || bytes[..8] != FILE_MAGIC || ReadU32(bytes, 8) != FORMAT_VERSION { return false, 0; }
        ok, end := Replay(bytes, HEADER_BYTES);
        if !ok { return false, 0; }
      }
      LookBack();
      LookForShutdown();
      if |bytes| > opts.maxFile { return false, 0; }
      if bytes == [] {
        file, isOpen, tailDamaged := Header(created), true, false;
        return true, 0;
      }
      file, isOpen := bytes, true;
      return true, |bytes| - end;
    }

    // ---- appending ----------------------------------------------------------------------------------------------

    /** The payload, set member by member. */
    method PayloadOf(kind: Kind, at: Text, data: Value) returns (payload: Value)
      requires Valid()
      ensures payload == Payload(records, kind, at, data)
    {
      hide KindName, Linked, Ascii;
      KeysDiffer();
      var members := Set([], KEY_SEQ, UInt(lastSequence + 1));
      members := Set(members, KEY_TYPE, Str(KindName(kind)));
      members := Set(members, KEY_AT, Str(at));
      members := Set(members, KEY_PREVIOUS, Str(chain));
      members := Set(members, KEY_DATA, data);
      payload := Object(members);
    }

    method FrameFor(body: Text) returns (frame: seq<byte>, digest: Text)
      requires Valid() && |body| < TWO_32
      ensures frame == Frame(chain, body) && digest == DigestText(Material(chain, body))
    {
      hide Linked, Material, PutU32, Sha256.Digest, Check;
      digest := HashText(Material(chain, body));
      var check := Checksum(body);
      DigestBack(Sha256.Digest(Material(chain, body)));
      var ok, bytes := ReadHex(digest);
      frame := RECORD_MAGIC + (PutU32(|body|) + (PutU32(check) + (bytes + body)));
    }

    /** `write_record`: one frame at the end of the file, or nothing at all. */
    method WriteRecord(kind: Kind, at: Text, data: Value, allowDamage: bool) returns (ok: bool)
      requires Valid()
      modifies this`file, this`records, this`chain, this`lastSequence
      ensures Valid()
      ensures var body := Body(old(records), kind, at, data);
              ok == (isOpen && (allowDamage || !tailDamaged) && |old(records)| < opts.maxRecords &&
                     old(lastSequence) < UINT64_MAX && |body| <= opts.maxRecord &&
                     |old(file)| + PREFIX_BYTES + |body| <= opts.maxFile) &&
              (ok ==> file == old(file) + Frame(old(chain), body) &&
                      records == old(records) + [Appended(old(records), kind, at, data)]) &&
              (!ok ==> file == old(file) && records == old(records))
    {
      hide Frame, DigestText, Material, Dump, Linked, Payload;
      if !isOpen { return false; }
      if tailDamaged && !allowDamage { return false; }
      if |records| >= opts.maxRecords { return false; }
      if lastSequence >= UINT64_MAX { return false; }
      var payload := PayloadOf(kind, at, data);
      var body := DumpInto([], payload, 0, 0);
      assert [] + Dump(payload, 0, 0) == Dump(payload, 0, 0);
      if |body| > opts.maxRecord { return false; }
      var frame, digest := FrameFor(body);
      FrameLength(chain, body);
      if |file| + |frame| > opts.maxFile { return false; }
      var r := Record(lastSequence + 1, kind, at, data, chain, digest);
      NewLink(records, kind, at, data);
      file := file + frame;
      records := records + [r];
      chain := digest;
      lastSequence := lastSequence + 1;
      return true;
    }

    /** `close`: a shutdown record, unless the tail is damaged; whoever reads the records next finds a clean shutdown. */
    method Close(at: Text) returns (ok: bool)
      requires Valid()
      modifies this
      ensures Valid() && !isOpen
      ensures var body := Body(old(records), Shutdown, at, SHUTDOWN_DATA);
              if old(isOpen) && !old(tailDamaged) && |old(records)| < opts.maxRecords && old(lastSequence) < UINT64_MAX &&
                 |body| <= opts.maxRecord && |old(file)| + PREFIX_BYTES + |body| <= opts.maxFile
              then ok && file == old(file) + Frame(old(chain), body) &&
                   records == old(records) + [Appended(old(records), Shutdown, at, SHUTDOWN_DATA)] && ShutDownCleanly(records)
              else file == old(file) && records == old(records) && (ok <==> !old(isOpen) || old(tailDamaged))
    {
      hide Frame, Body, Linked, DigestText, Material, ShutDownCleanly;
      ok := true;
      if !isOpen { return; }
      ShutdownStep(records, Appended(records, Shutdown, at, SHUTDOWN_DATA));
      if !tailDamaged { ok := WriteRecord(Shutdown, at, SHUTDOWN_DATA, true); }
      isOpen := false;
    }
  }

  const SHUTDOWN_DATA: Value := Object([Member(Ascii("reason"), Str(Ascii("clean shutdown")))])

  /** One round of the replay loop. */
  lemma ScanStep(bytes: seq<byte>, offset: nat, opts: Options, records: seq<Record>)
    requires offset < |bytes|
    ensures Scan(bytes, offset, opts, records) ==
            match ReadFrame(bytes, offset, opts, records)
            case Refused => Scanned(records, offset, true)
            case Got(record, next) =>
              if |records| + 1 > opts.maxRecords then TooMany else Scan(bytes, next, opts, records + [record])
  {
    hide ReadFrame;
  }

  lemma ScanEnd(bytes: seq<byte>, opts: Options, records: seq<Record>)
    ensures Scan(bytes, |bytes|, opts, records) == Scanned(records, |bytes|, false)
  {
  }

  lemma NextLinked(bytes: seq<byte>, offset: nat, opts: Options, records: seq<Record>)
    requires offset < |bytes| && ReadFrame(bytes, offset, opts, records).Got? && Linked(records)
    ensures Linked(records + [ReadFrame(bytes, offset, opts, records).value])
  {
    hide ReadFrame, Linked;
    AcceptedRecord(bytes, offset, opts, records);
    LinkedPush(records, ReadFrame(bytes, offset, opts, records).value);
  }

  lemma NewLink(records: seq<Record>, kind: Kind, at: Text, data: Value)
    requires Linked(records)
    ensures Linked(records + [Appended(records, kind, at, data)])
  {
    hide Body, Linked, Sha256.Digest;
    var body := Body(records, kind, at, data);
    DigestBack(Sha256.Digest(Material(ChainOf(records), body)));
    LinkedPush(records, Appended(records, kind, at, data));
  }

  lemma FrameLength(previous: Text, body: Text)
    requires |body| < TWO_32
    ensures |Frame(previous, body)| == PREFIX_BYTES + |body|
  {
    hide Check, Material;
  }

  lemma NoNumber(key: Text, opts: Options)
    ensures FirstNumber([], key, opts) == 0
  {
  }

  lemma NumberBefore(records: seq<Record>, i: nat, key: Text, opts: Options)
    requires i < |records|
    ensures FirstNumber(records[i..], key, opts) ==
            match RequireUint(records[i].data, key, opts.wholeReal)
            case Got(n, _) => n
            case Refused => FirstNumber(records[i + 1..], key, opts)
  {
    hide RequireUint;
    assert records[i..][1..] == records[i + 1..];
  }

  /** One more record: a shutdown makes the end clean, a boot makes it unclean, any other leaves it as it was. */
  lemma ShutdownStep(records: seq<Record>, r: Record)
    ensures ShutDownCleanly(records + [r]) <==> r.kind.Shutdown? || (!r.kind.Boot? && ShutDownCleanly(records))
  {
    var more := records + [r];
    if r.kind.Shutdown? { assert more[|records|] == r; }
    if ShutDownCleanly(records) && !r.kind.Boot? {
      var i :| 0 <= i < |records| && records[i].kind.Shutdown? && forall j :: i < j < |records| ==> !records[j].kind.Boot?;
      assert more[i].kind.Shutdown?;
    }
    if ShutDownCleanly(more) && !r.kind.Shutdown? {
      var i :| 0 <= i < |more| && more[i].kind.Shutdown? && forall j :: i < j < |more| ==> !more[j].kind.Boot?;
      assert records[i].kind.Shutdown?;
      assert more[|records|] == r;
      assert forall j :: i < j < |records| ==> records[j] == more[j];
    }
  }
}
