/** SHA-256 (sections 5.1.1 and 6.2 of FIPS 180-4): the digest of a whole message as a function, and the streaming object that
    computes it from any chunking of the message. */
module Sha256 {
  import opened Bytes

  // ---- words --------------------------------------------------------------------------------------------------

  function Rotr(x: bv32, n: bv32): bv32
    requires 0 < n < 32
  {
    (x >> n) | (x << (32 - n))
  }

  function Shr(x: bv32, n: bv32): bv32
    requires n < 32
  {
    x >> n
  }

  function Xor(x: bv32, y: bv32): bv32 { x ^ y }

  function And(x: bv32, y: bv32): bv32 { x & y }

  function Not(x: bv32): bv32 { !x }

  function Xor3(x: bv32, y: bv32, z: bv32): bv32 { Xor(Xor(x, y), z) }

  function SmallSigma0(x: bv32): bv32 { Xor3(Rotr(x, 7), Rotr(x, 18), Shr(x, 3)) }

  function SmallSigma1(x: bv32): bv32 { Xor3(Rotr(x, 17), Rotr(x, 19), Shr(x, 10)) }

  function BigSigma0(x: bv32): bv32 { Xor3(Rotr(x, 2), Rotr(x, 13), Rotr(x, 22)) }

  function BigSigma1(x: bv32): bv32 { Xor3(Rotr(x, 6), Rotr(x, 11), Rotr(x, 25)) }

  function Choose(e: bv32, f: bv32, g: bv32): bv32 { Xor(And(e, f), And(Not(e), g)) }

  function Majority(a: bv32, b: bv32, c: bv32): bv32 { Xor3(And(a, b), And(a, c), And(b, c)) }

  function Sum4(a: bv32, b: bv32, c: bv32, d: bv32): bv32 { a + b + c + d }

  function Wide(b: byte): bv32 { (b as bv8) as bv32 }

  function WordAt(block: seq<byte>, i: nat): bv32
    requires i + 4 <= |block|
  {
    (Wide(block[i]) << 24) | (Wide(block[i + 1]) << 16) | (Wide(block[i + 2]) << 8) | Wide(block[i + 3])
  }

  function Constants0(t: nat): bv32
    requires t < 16
  {
    match t
    case 0 => 0x428a2f98 case 1 => 0x71374491 case 2 => 0xb5c0fbcf case 3 => 0xe9b5dba5
    case 4 => 0x3956c25b case 5 => 0x59f111f1 case 6 => 0x923f82a4 case 7 => 0xab1c5ed5
    case 8 => 0xd807aa98 case 9 => 0x12835b01 case 10 => 0x243185be case 11 => 0x550c7dc3
    case 12 => 0x72be5d74 case 13 => 0x80deb1fe case 14 => 0x9bdc06a7 case _ => 0xc19bf174
  }

  function Constants1(t: nat): bv32
    requires t < 16
  {
    match t
    case 0 => 0xe49b69c1 case 1 => 0xefbe4786 case 2 => 0x0fc19dc6 case 3 => 0x240ca1cc
    case 4 => 0x2de92c6f case 5 => 0x4a7484aa case 6 => 0x5cb0a9dc case 7 => 0x76f988da
    case 8 => 0x983e5152 case 9 => 0xa831c66d case 10 => 0xb00327c8 case 11 => 0xbf597fc7
    case 12 => 0xc6e00bf3 case 13 => 0xd5a79147 case 14 => 0x06ca6351 case _ => 0x14292967
  }

  function Constants2(t: nat): bv32
    requires t < 16
  {
    match t
    case 0 => 0x27b70a85 case 1 => 0x2e1b2138 case 2 => 0x4d2c6dfc case 3 => 0x53380d13
    case 4 => 0x650a7354 case 5 => 0x766a0abb case 6 => 0x81c2c92e case 7 => 0x92722c85
    case 8 => 0xa2bfe8a1 case 9 => 0xa81a664b case 10 => 0xc24b8b70 case 11 => 0xc76c51a3
    case 12 => 0xd192e819 case 13 => 0xd6990624 case 14 => 0xf40e3585 case _ => 0x106aa070
  }

  function Constants3(t: nat): bv32
    requires t < 16
  {
    match t
    case 0 => 0x19a4c116 case 1 => 0x1e376c08 case 2 => 0x2748774c case 3 => 0x34b0bcb5
    case 4 => 0x391c0cb3 case 5 => 0x4ed8aa4a case 6 => 0x5b9cca4f case 7 => 0x682e6ff3
    case 8 => 0x748f82ee case 9 => 0x78a5636f case 10 => 0x84c87814 case 11 => 0x8cc70208
    case 12 => 0x90befffa case 13 => 0xa4506ceb case 14 => 0xbef9a3f7 case _ => 0xc67178f2
  }

  /** The constant of round `t`. */
  function RoundConstant(t: nat): bv32
    requires t < 64
  {
    if t < 32 then if t < 16 then Constants0(t) else Constants1(t - 16)
    else if t < 48 then Constants2(t - 32)
    else Constants3(t - 48)
  }

  // ---- one block ----------------------------------------------------------------------------------------------

  datatype State = State(a: bv32, b: bv32, c: bv32, d: bv32, e: bv32, f: bv32, g: bv32, h: bv32)

  function Initial(): State {
    State(0x6a09e667, 0xbb67ae85, 0x3c6ef372, 0xa54ff53a, 0x510e527f, 0x9b05688c, 0x1f83d9ab, 0x5be0cd19)
  }

  function Schedule(block: seq<byte>, t: nat): bv32
    requires |block| == 64 && t < 64
    decreases t
  {
    if t < 16 then WordAt(block, 4 * t)
    else Sum4(Schedule(block, t - 16), SmallSigma0(Schedule(block, t - 15)), Schedule(block, t - 7),
              SmallSigma1(Schedule(block, t - 2)))
  }

  function Round(s: State, k: bv32, w: bv32): State {
    var t1 := s.h + BigSigma1(s.e) + Choose(s.e, s.f, s.g) + k + w;
    var t2 := BigSigma0(s.a) + Majority(s.a, s.b, s.c);
    State(t1 + t2, s.a, s.b, s.c, s.d + t1, s.e, s.f, s.g)
  }

  function Rounds(s: State, block: seq<byte>, t: nat): State
    requires |block| == 64 && t <= 64
    decreases t
  {
    if t == 0 then s else Round(Rounds(s, block, t - 1), RoundConstant(t - 1), Schedule(block, t - 1))
  }

  function Plus(s: State, r: State): State {
    State(s.a + r.a, s.b + r.b, s.c + r.c, s.d + r.d, s.e + r.e, s.f + r.f, s.g + r.g, s.h + r.h)
  }

  function Compress(s: State, block: seq<byte>): State
    requires |block| == 64
  {
    Plus(s, Rounds(s, block, 64))
  }

  // ---- messages -----------------------------------------------------------------------------------------------

  /** A whole number of blocks. */
  predicate Whole(n: int) { n >= 0 && n % 64 == 0 }

  lemma WholeSum(a: nat, b: nat)
    requires Whole(a)
    ensures Whole(a + b) <==> Whole(b)
  {
  }

  lemma WholeBlock(n: nat)
    requires Whole(n) && n > 0
    ensures n >= 64 && Whole(n - 64)
  {
  }

  /** The state after a whole number of blocks. */
  function Hash(s: State, data: seq<byte>): State
    requires Whole(|data|)
    decreases |data|
  {
    hide Compress, Whole;
    if data == [] then s
    else
      WholeBlock(|data|);
      Hash(Compress(s, data[..64]), data[64..])
  }

  lemma {:induction false} HashAppend(s: State, a: seq<byte>, b: seq<byte>)
    requires Whole(|a|) && Whole(|b|)
    ensures Whole(|a + b|) && Hash(s, a + b) == Hash(Hash(s, a), b)
    decreases |a|
  {
    hide Compress, Whole;
    WholeSum(|a|, |b|);
    if a == [] {
      assert a + b == b;
    } else {
      WholeBlock(|a|);
      assert (a + b)[..64] == a[..64] && (a + b)[64..] == a[64..] + b;
      HashAppend(Compress(s, a[..64]), a[64..], b);
    }
  }

  lemma OneBlock(s: State, block: seq<byte>)
    requires |block| == 64
    ensures Whole(64) && Hash(s, block) == Compress(s, block)
  {
    hide Compress;
    assert block[..64] == block && block[64..] == [];
  }

  lemma HashBlock(s: State, a: seq<byte>, block: seq<byte>)
    requires Whole(|a|) && |block| == 64
    ensures Whole(|a + block|) && Hash(s, a + block) == Compress(Hash(s, a), block)
  {
    hide Compress, Whole, Hash;
    OneBlock(Hash(s, a), block);
    HashAppend(s, a, block);
  }

  function Zeros(n: nat): (r: seq<byte>)
    ensures |r| == n
  {
    seq(n, i => 0)
  }

  /** The smallest number of zero bytes that leaves room for exactly the length in the last block. */
  function ZeroCount(n: nat): nat { (119 - n % 64) % 64 }

  function BigEndian64(v: nat): (r: seq<byte>)
    ensures |r| == 8
  {
    [v / 0x100_0000_0000_0000 % 256, v / 0x1_0000_0000_0000 % 256, v / 0x100_0000_0000 % 256, v / 0x1_0000_0000 % 256,
     v / 0x100_0000 % 256, v / 0x1_0000 % 256, v / 0x100 % 256, v % 256]
  }

  lemma PaddedIsWhole(n: nat)
    ensures Whole(n + 1 + ZeroCount(n) + 8)
  {
  }

  /** The padded message: a one bit, zeros, and the length in bits. */
  function Pad(m: seq<byte>): (r: seq<byte>)
    ensures Whole(|r|)
  {
    hide Whole, ZeroCount, BigEndian64;
    PaddedIsWhole(|m|);
    m + [0x80] + Zeros(ZeroCount(|m|)) + BigEndian64(8 * |m|)
  }

  function WordBytes(w: bv32): (r: seq<byte>)
    ensures |r| == 4
  {
    [((w >> 24) & 0xFF) as bv8 as int, ((w >> 16) & 0xFF) as bv8 as int, ((w >> 8) & 0xFF) as bv8 as int, (w & 0xFF) as bv8 as int]
  }

  function Output(s: State): (r: seq<byte>)
    ensures |r| == 32
  {
    WordBytes(s.a) + WordBytes(s.b) + WordBytes(s.c) + WordBytes(s.d) +
    WordBytes(s.e) + WordBytes(s.f) + WordBytes(s.g) + WordBytes(s.h)
  }

  /** SHA-256 of a message. */
  function Digest(m: seq<byte>): (r: seq<byte>)
    ensures |r| == 32
  {
    Output(Hash(Initial(), Pad(m)))
  }

  // ---- padding ------------------------------------------------------------------------------------------------

  /** A number below 2^64 from its eight bytes. */
  function Value64(r: seq<byte>): nat
    requires |r| == 8
  {
    var r0: int, r1: int, r2: int, r3: int := r[0], r[1], r[2], r[3];
    var r4: int, r5: int, r6: int, r7: int := r[4], r[5], r[6], r[7];
    ((((((r0 * 256 + r1) * 256 + r2) * 256 + r3) * 256 + r4) * 256 + r5) * 256 + r6) * 256 + r7
  }

  lemma BigEndianValue(v: nat)
    requires v < 0x1_0000_0000_0000_0000
    ensures Value64(BigEndian64(v)) == v
  {
    hide BigEndian64;
    var a0 := v / 0x100_0000_0000_0000;
    var a1, a2, a3 := v / 0x1_0000_0000_0000, v / 0x100_0000_0000, v / 0x1_0000_0000;
    var a4, a5, a6 := v / 0x100_0000, v / 0x1_0000, v / 0x100;
    Quotients(v);
    assert a0 % 256 == a0;
    Bytes64(v);
  }

  lemma Quotients(v: nat)
    ensures v / 0x1_0000_0000_0000 / 256 == v / 0x100_0000_0000_0000 && v / 0x100_0000_0000 / 256 == v / 0x1_0000_0000_0000
    ensures v / 0x1_0000_0000 / 256 == v / 0x100_0000_0000 && v / 0x100_0000 / 256 == v / 0x1_0000_0000
    ensures v / 0x1_0000 / 256 == v / 0x100_0000 && v / 0x100 / 256 == v / 0x1_0000
  {
  }

  lemma Bytes64(v: nat)
    ensures var r := BigEndian64(v);
            r[0] == v / 0x100_0000_0000_0000 % 256 && r[1] == v / 0x1_0000_0000_0000 % 256 &&
            r[2] == v / 0x100_0000_0000 % 256 && r[3] == v / 0x1_0000_0000 % 256 &&
            r[4] == v / 0x100_0000 % 256 && r[5] == v / 0x1_0000 % 256 && r[6] == v / 0x100 % 256 && r[7] == v % 256
  {
  }

  /** Different messages have different padded forms, as long as their lengths in bits fit the length field. */
  lemma PadIsInjective(m: seq<byte>, n: seq<byte>)
    requires |m| < 0x2000_0000_0000_0000 && |n| < 0x2000_0000_0000_0000 && Pad(m) == Pad(n)
    ensures m == n
  {
    hide BigEndian64, ZeroCount, Whole;
    var p, q := Pad(m), Pad(n);
    assert p[|p| - 8..] == BigEndian64(8 * |m|) && q[|q| - 8..] == BigEndian64(8 * |n|);
    BigEndianValue(8 * |m|);
    BigEndianValue(8 * |n|);
    assert p[..|m|] == m && q[..|n|] == n;
  }

  // ---- the stream ---------------------------------------------------------------------------------------------

  class Sha256Stream {
    var state: State
    var buffer: array<byte>
    var buffered: nat
    var totalBytes: nat
    var finished: bool
    ghost var message: seq<byte>
    ghost var absorbed: seq<byte>

    /** The absorbed bytes are the whole blocks behind the state and the bytes in the buffer. */
    ghost predicate Consistent()
      reads this`state, this`buffer, this`buffered, this`absorbed, buffer
    {
      buffer.Length == 64 && buffered < 64 && buffered <= |absorbed| && Whole(|absorbed| - buffered) &&
      state == Hash(Initial(), absorbed[..|absorbed| - buffered]) && buffer[..buffered] == absorbed[|absorbed| - buffered..]
    }

    ghost predicate Valid()
      reads this, buffer
    {
      Consistent() && if finished then absorbed == Pad(message) else absorbed == message && totalBytes == |message|
    }

    constructor ()
      ensures Valid() && !finished && message == [] && fresh(buffer)
    {
      state, buffered, totalBytes, finished := Initial(), 0, 0, false;
      buffer := new byte[64](i => 0);
      message, absorbed := [], [];
    }

    /** The message schedule of `compress`. */
    method Expand(block: seq<byte>) returns (w: array<bv32>)
      requires |block| == 64
      ensures fresh(w) && w.Length == 64 && forall j :: 0 <= j < 64 ==> w[j] == Schedule(block, j)
    {
      hide SmallSigma0, SmallSigma1, Sum4, WordAt;
      w := new bv32[64];
      for t := 0 to 16
        invariant forall j :: 0 <= j < t ==> w[j] == Schedule(block, j)
      {
        w[t] := WordAt(block, 4 * t);
      }
      for t := 16 to 64
        invariant forall j :: 0 <= j < t ==> w[j] == Schedule(block, j)
      {
        w[t] := Sum4(w[t - 16], SmallSigma0(w[t - 15]), w[t - 7], SmallSigma1(w[t - 2]));
      }
    }

    /** `compress`: the rounds over the schedule. */
    method CompressBlock(block: seq<byte>)
      requires |block| == 64
      modifies this`state
      ensures state == Compress(old(state), block)
    {
      hide Round, RoundConstant, Plus, Schedule;
      var w := Expand(block);
      var v := state;
      NoRounds(state, block);
      for t := 0 to 64
        invariant v == Rounds(old(state), block, t) && state == old(state)
      {
        v := Round(v, RoundConstant(t), w[t]);
      }
      state := Plus(state, v);
    }

    /** Copying into the buffer. */
    method Fill(data: seq<byte>, from: nat)
      requires buffer.Length == 64 && from + |data| <= 64
      modifies buffer
      ensures buffer[..from + |data|] == old(buffer[..from]) + data
    {
      for i := 0 to |data|
        invariant buffer[..from + i] == old(buffer[..from]) + data[..i]
      {
        buffer[from + i] := data[i];
        assert data[..i + 1] == data[..i] + [data[i]];
        assert buffer[..from + i + 1] == buffer[..from + i] + [data[i]];
      }
      assert data[..|data|] == data;
    }

    /** The first part of `update`: top up a started block. Returns how much of the data it took. */
    method TopUp(data: seq<byte>) returns (taken: nat)
      requires Consistent() && buffered > 0
      modifies this`state, this`buffered, this`absorbed, buffer
      ensures taken <= |data| && Consistent() && absorbed == old(absorbed) + data[..taken]
      ensures buffered == 0 || taken == |data|
    {
      hide Hash, Compress, Whole, Initial;
      var need := 64 - buffered;
      taken := if |data| < need then |data| else need;
      ghost var whole := absorbed[..|absorbed| - buffered];
      assert absorbed == whole + buffer[..buffered];
      Fill(data[..taken], buffered);
      buffered := buffered + taken;
      absorbed := absorbed + data[..taken];
      assert absorbed == whole + buffer[..buffered];
      if buffered == 64 {
        assert buffer[..64] == buffer[..];
        HashBlock(Initial(), whole, buffer[..]);
        CompressBlock(buffer[..]);
        buffered := 0;
        assert absorbed[..|absorbed|] == absorbed;
      } else {
        assert absorbed[..|absorbed| - buffered] == whole;
      }
    }

    /** One whole block straight from the data. */
    method TakeBlock(block: seq<byte>)
      requires Consistent() && buffered == 0 && |block| == 64
      modifies this`state, this`absorbed
      ensures Consistent() && absorbed == old(absorbed) + block
    {
      hide Hash, Compress, Whole, Initial;
      ghost var whole := absorbed;
      assert whole[..|whole| - 0] == whole;
      HashBlock(Initial(), whole, block);
      CompressBlock(block);
      absorbed := absorbed + block;
      assert absorbed[..|absorbed| - 0] == absorbed;
    }

    /** The rest of the data goes into the empty buffer. */
    method KeepRest(rest: seq<byte>)
      requires Consistent() && buffered == 0 && |rest| < 64
      modifies this`buffered, this`absorbed, buffer
      ensures Consistent() && absorbed == old(absorbed) + rest
    {
      hide Hash, Whole, Initial;
      ghost var whole := absorbed;
      Fill(rest, 0);
      buffered := |rest|;
      absorbed := absorbed + rest;
      assert absorbed[..|absorbed| - buffered] == whole[..|whole| - 0];
    }

    /** The second part of `update`: whole blocks straight from the data, and the rest into the buffer. */
    method Blocks(data: seq<byte>, start: nat)
      requires Consistent() && start <= |data| && (buffered == 0 || start == |data|)
      modifies this`state, this`buffered, this`absorbed, buffer
      ensures Consistent() && absorbed == old(absorbed) + data[start..]
    {
      hide Hash, Compress, Whole, Initial, Consistent;
      var offset := start;
      assert data[start..start] == [] && absorbed + [] == absorbed;
      while offset + 64 <= |data|
        invariant start <= offset <= |data| && (buffered == 0 || offset == |data|)
        invariant Consistent() && absorbed == old(absorbed) + data[start..offset]
        modifies this`state, this`absorbed
      {
        TakeBlock(data[offset..offset + 64]);
        assert data[start..offset] + data[offset..offset + 64] == data[start..offset + 64];
        offset := offset + 64;
      }
      assert data[start..offset] + data[offset..] == data[start..];
      if offset < |data| {
        KeepRest(data[offset..]);
      } else {
        assert data[offset..] == [] && absorbed + [] == absorbed;
      }
    }

    /** What `update` does to the state, whoever calls it. */
    method Absorb(data: seq<byte>)
      requires Consistent()
      modifies this`state, this`buffered, this`absorbed, buffer
      ensures Consistent() && absorbed == old(absorbed) + data
    {
      hide Hash, Initial, Consistent;
      var offset := 0;
      if buffered > 0 { offset := TopUp(data); }
      assert data[..offset] + data[offset..] == data;
      Blocks(data, offset);
    }

    /** How full the buffer is follows from how much was absorbed. */
    lemma BufferedIs()
      requires Consistent()
      ensures buffered == |absorbed| % 64
    {
      hide Hash;
    }

    /** `update`: it takes any chunk of the message, and nothing once the digest was taken. */
    method Update(data: seq<byte>)
      requires Valid()
      modifies this, buffer
      ensures Valid() && finished == old(finished) && buffer == old(buffer)
      ensures message == if finished then old(message) else old(message) + data
    {
      hide Hash, Pad, Initial, Consistent;
      if finished { return; }
      totalBytes := totalBytes + |data|;
      message := message + data;
      Absorb(data);
    }

    /** The zero bytes of the padding, one at a time until the length fits. */
    method FillZeros(ghost n: nat)
      requires Consistent() && |absorbed| == n + 1
      modifies this`state, this`buffered, this`absorbed, buffer
      ensures Consistent() && absorbed == old(absorbed) + Zeros(ZeroCount(n))
    {
      hide Hash, Initial, Consistent, ZeroCount;
      ghost var zeros := 0;
      assert absorbed + Zeros(0) == absorbed;
      BufferedIs();
      ZerosLeft(n, 0);
      while buffered != 56
        invariant Consistent() && absorbed == old(absorbed) + Zeros(zeros) && zeros <= ZeroCount(n)
        invariant buffered == (n + 1 + zeros) % 64
        decreases ZeroCount(n) - zeros
      {
        ZerosLeft(n, zeros);
        Absorb([0]);
        BufferedIs();
        assert Zeros(zeros) + [0] == Zeros(zeros + 1);
        zeros := zeros + 1;
      }
      ZerosLeft(n, zeros);
    }

    /** `finish`: the padding is fed through the same path as the message, then the length. */
    method Finish() returns (digest: seq<byte>)
      requires Valid()
      modifies this, buffer
      ensures Valid() && finished && message == old(message) && buffer == old(buffer)
      ensures digest == Digest(message)
    {
      hide Hash, Initial, Output, Consistent, Pad, BigEndian64, ZeroCount;
      if !finished {
        var bits := totalBytes * 8;
        Absorb([0x80]);
        FillZeros(|message|);
        Absorb(BigEndian64(bits));
        PadIs(message);
        finished := true;
      }
      PadDone();
      digest := Output(state);
    }

    lemma PadDone()
      requires Consistent() && absorbed == Pad(message)
      ensures state == Hash(Initial(), Pad(message))
    {
      hide Pad, Hash, Initial;
      BufferedIs();
      assert absorbed[..|absorbed| - 0] == absorbed;
    }
  }

  /** After `zeros` zero bytes the length fits exactly when enough of them were written. */
  lemma ZerosLeft(n: nat, zeros: nat)
    requires zeros <= ZeroCount(n)
    ensures (n + 1 + zeros) % 64 == 56 <==> zeros == ZeroCount(n)
  {
  }

  lemma PadIs(m: seq<byte>)
    ensures Pad(m) == m + [0x80] + Zeros(ZeroCount(|m|)) + BigEndian64(|m| * 8)
  {
    hide ZeroCount, BigEndian64, Whole;
    assert |m| * 8 == 8 * |m|;
  }

  lemma NoRounds(s: State, block: seq<byte>)
    requires |block| == 64
    ensures Rounds(s, block, 0) == s
  {
  }

  function Concat(chunks: seq<seq<byte>>): seq<byte>
    decreases |chunks|
  {
    if chunks == [] then [] else Concat(chunks[..|chunks| - 1]) + chunks[|chunks| - 1]
  }

  /** Feeding a message in any chunks gives the digest of the whole. */
  method DigestOfChunks(chunks: seq<seq<byte>>) returns (digest: seq<byte>)
    ensures digest == Digest(Concat(chunks))
  {
    hide Digest, Hash, Initial, Pad;
    var stream := new Sha256Stream();
    for i := 0 to |chunks|
      invariant stream.Valid() && !stream.finished && fresh(stream) && fresh(stream.buffer)
      invariant stream.message == Concat(chunks[..i])
    {
      stream.Update(chunks[i]);
      assert chunks[..i + 1][..i] == chunks[..i];
    }
    assert chunks[..|chunks|] == chunks;
    digest := stream.Finish();
  }
}
