/** CRC-32C with a byte table (section 12.1 of RFC 3720), against the bit-serial division it abbreviates. The word operations
    have names so that the algebra can be done without looking at bits. */
module Crc32c {
  import opened Bytes

  const POLYNOMIAL: bv32 := 0x82F6_3B78

  function Xor(a: bv32, b: bv32): bv32 { a ^ b }

  function Half(x: bv32): bv32 { x >> 1 }

  function LowByte(x: bv32): bv32 { x & 0xFF }

  function HighBytes(x: bv32): bv32 { x >> 8 }

  function Flip(x: bv32): bv32 { !x }

  predicate Low(x: bv32) { x & 1 != 0 }

  // ---- the reference: one message bit at a time ---------------------------------------------------------------

  function Divisor(taken: bool): bv32 { if taken then POLYNOMIAL else 0 }

  /** Shift one message bit into the reflected remainder. */
  function Feed(remainder: bv32, bit: bool): bv32 { Xor(Half(remainder), Divisor(Low(remainder) != bit)) }

  /** The low `n` bits of `w`, least significant first. */
  function FeedBits(remainder: bv32, w: bv32, n: nat): bv32
    decreases n
  {
    if n == 0 then remainder else FeedBits(Feed(remainder, Low(w)), Half(w), n - 1)
  }

  function Word(b: byte): bv32 { (b as bv8) as bv32 }

  function Divide(remainder: bv32, data: seq<byte>): bv32
    decreases |data|
  {
    if data == [] then remainder else Divide(FeedBits(remainder, Word(data[0]), 8), data[1..])
  }

  /** CRC-32C of a message, continuing from the CRC of what came before (zero at the start). */
  function Crc(seed: bv32, data: seq<byte>): bv32 { Flip(Divide(Flip(seed), data)) }

  /** The checksum of a message can be computed piece by piece. */
  lemma {:induction false} CrcAppend(seed: bv32, a: seq<byte>, b: seq<byte>)
    ensures Crc(Crc(seed, a), b) == Crc(seed, a + b)
  {
    hide Flip, FeedBits, Word;
    DivideAppend(Flip(seed), a, b);
    FlipFlip(Divide(Flip(seed), a));
  }

  lemma FlipFlip(x: bv32)
    ensures Flip(Flip(x)) == x
  {
  }

  lemma {:induction false} DivideAppend(remainder: bv32, a: seq<byte>, b: seq<byte>)
    ensures Divide(remainder, a + b) == Divide(Divide(remainder, a), b)
    decreases |a|
  {
    hide FeedBits, Word;
    if a == [] {
      assert a + b == b;
    } else {
      assert (a + b)[0] == a[0] && (a + b)[1..] == a[1..] + b;
      DivideAppend(FeedBits(remainder, Word(a[0]), 8), a[1..], b);
    }
  }

  // ---- table steps --------------------------------------------------------------------------------------------

  function Step(x: bv32): bv32 { Xor(Half(x), Divisor(Low(x))) }

  function Steps(x: bv32, n: nat): bv32
    decreases n
  {
    if n == 0 then x else Steps(Step(x), n - 1)
  }

  lemma HalfXor(a: bv32, b: bv32)
    ensures Half(Xor(a, b)) == Xor(Half(a), Half(b))
  {
  }

  lemma LowBits(a: bv32, b: bv32)
    ensures (a ^ b) & 1 == (a & 1) ^ (b & 1)
    ensures a & 1 == 0 || a & 1 == 1
    ensures b & 1 == 0 || b & 1 == 1
  {
  }

  lemma LowXor(a: bv32, b: bv32)
    ensures Low(Xor(a, b)) <==> Low(a) != Low(b)
  {
    LowBits(a, b);
  }

  lemma DivisorXor(p: bool, q: bool)
    ensures Divisor(p != q) == Xor(Divisor(p), Divisor(q))
  {
  }

  lemma Shuffle(a: bv32, b: bv32, c: bv32, d: bv32)
    ensures Xor(Xor(a, b), Xor(c, d)) == Xor(Xor(a, c), Xor(b, d))
  {
    hide Xor;
    XorAssociates(Xor(a, b), c, d);
    XorSwap(a, b, c);
    XorAssociates(Xor(a, c), b, d);
  }

  lemma XorAssociates(a: bv32, b: bv32, c: bv32)
    ensures Xor(a, Xor(b, c)) == Xor(Xor(a, b), c)
  {
  }

  lemma XorSwap(a: bv32, b: bv32, c: bv32)
    ensures Xor(Xor(a, b), c) == Xor(Xor(a, c), b)
  {
    hide Xor;
    XorAssociates(a, b, c);
    XorAssociates(a, c, b);
    XorCommutes(b, c);
  }

  lemma XorCommutes(a: bv32, b: bv32)
    ensures Xor(a, b) == Xor(b, a)
  {
  }

  lemma XorZero(x: bv32)
    ensures Xor(x, 0) == x
  {
  }

  /** A step is linear over exclusive or. */
  lemma StepXor(a: bv32, b: bv32)
    ensures Step(Xor(a, b)) == Xor(Step(a), Step(b))
  {
    hide Xor, Half, Low, Divisor;
    HalfXor(a, b);
    LowXor(a, b);
    DivisorXor(Low(a), Low(b));
    Shuffle(Half(a), Half(b), Divisor(Low(a)), Divisor(Low(b)));
  }

  lemma {:induction false} StepsXor(a: bv32, b: bv32, n: nat)
    ensures Steps(Xor(a, b), n) == Xor(Steps(a, n), Steps(b, n))
    decreases n
  {
    hide Step, Xor;
    if n > 0 {
      StepXor(a, b);
      StepsXor(Step(a), Step(b), n - 1);
    }
  }

  function Down(x: bv32, n: nat): bv32
    decreases n
  {
    if n == 0 then x else Down(Half(x), n - 1)
  }

  /** No low bit is met on the way. */
  predicate EvenFor(x: bv32, n: nat)
    decreases n
  {
    n == 0 || (!Low(x) && EvenFor(Half(x), n - 1))
  }

  lemma EvenStep(x: bv32)
    requires !Low(x)
    ensures Step(x) == Half(x)
  {
    hide Xor, Half, Low;
    XorZero(Half(x));
  }

  lemma {:induction false} EvenSteps(x: bv32, n: nat)
    requires EvenFor(x, n)
    ensures Steps(x, n) == Down(x, n)
    decreases n
  {
    hide Step, Half, Low;
    if n > 0 {
      EvenStep(x);
      EvenSteps(Half(x), n - 1);
    }
  }

  /** `Down` and `EvenFor` for eight steps, four at a time. */
  lemma EightDown(x: bv32)
    ensures Down(x, 8) == Half(Half(Half(Half(Half(Half(Half(Half(x))))))))
    ensures EvenFor(x, 8) <==>
      !Low(x) && !Low(Half(x)) && !Low(Half(Half(x))) && !Low(Half(Half(Half(x)))) &&
      EvenFor(Half(Half(Half(Half(x)))), 4)
  {
    hide Half, Low;
    var x4 := Half(Half(Half(Half(x))));
    assert Down(x, 8) == Down(x4, 4);
  }

  lemma FourEven(x: bv32)
    ensures EvenFor(x, 4) <==> !Low(x) && !Low(Half(x)) && !Low(Half(Half(x))) && !Low(Half(Half(Half(x))))
  {
    hide Half, Low;
  }

  lemma EightBits(x: bv32)
    ensures Half(Half(Half(Half(Half(Half(Half(Half(x)))))))) == HighBytes(x)
    ensures LowByte(x) == 0 ==>
      !Low(x) && !Low(Half(x)) && !Low(Half(Half(x))) && !Low(Half(Half(Half(x))))
    ensures LowByte(x) == 0 ==>
      var y := Half(Half(Half(Half(x)))); !Low(y) && !Low(Half(y)) && !Low(Half(Half(y))) && !Low(Half(Half(Half(y))))
  {
  }

  lemma EightDownIsHigh(x: bv32)
    ensures Down(x, 8) == HighBytes(x) && (LowByte(x) == 0 ==> EvenFor(x, 8))
  {
    hide Half, Low, LowByte, HighBytes, Down, EvenFor;
    EightDown(x);
    EightBits(x);
    FourEven(Half(Half(Half(Half(x)))));
  }

  function Cleared(x: bv32): bv32 { x & 0xFFFF_FF00 }

  lemma SplitWord(x: bv32)
    ensures Xor(LowByte(x), Cleared(x)) == x && LowByte(Cleared(x)) == 0 && HighBytes(Cleared(x)) == HighBytes(x)
  {
  }

  /** Eight steps are one look-up by the low byte and a shift of the rest. */
  lemma {:induction false} TableStep(x: bv32)
    ensures Steps(x, 8) == Xor(Steps(LowByte(x), 8), HighBytes(x))
  {
    hide Steps, Xor, LowByte, HighBytes, Cleared, Down, EvenFor;
    SplitWord(x);
    StepsXor(LowByte(x), Cleared(x), 8);
    EightDownIsHigh(Cleared(x));
    EvenSteps(Cleared(x), 8);
  }

  // ---- table steps are message bits ---------------------------------------------------------------------------

  lemma StepIsFeed(remainder: bv32, w: bv32)
    ensures Step(Xor(remainder, w)) == Xor(Feed(remainder, Low(w)), Half(w))
  {
    hide Xor, Half, Low, Divisor;
    LowXor(remainder, w);
    HalfXor(remainder, w);
    XorSwap(Half(remainder), Half(w), Divisor(Low(remainder) != Low(w)));
  }

  lemma {:induction false} StepsAreFeeds(remainder: bv32, w: bv32, n: nat)
    ensures Steps(Xor(remainder, w), n) == Xor(FeedBits(remainder, w, n), Down(w, n))
    decreases n
  {
    hide Step, Feed, Xor, Half, Low;
    if n > 0 {
      StepIsFeed(remainder, w);
      StepsAreFeeds(Feed(remainder, Low(w)), Half(w), n - 1);
    }
  }

  lemma SmallWord(b: bv8)
    ensures (b as bv32) >> 8 == 0
  {
  }

  lemma ByteIsSmall(b: byte)
    ensures HighBytes(Word(b)) == 0
  {
    SmallWord(b as bv8);
  }

  /** The eight bits of a message byte, fed one by one, are eight steps of the remainder with the byte mixed in. */
  lemma {:induction false} ByteStep(remainder: bv32, b: byte)
    ensures Steps(Xor(remainder, Word(b)), 8) == FeedBits(remainder, Word(b), 8)
  {
    hide Steps, FeedBits, Down, Word, Xor, HighBytes, LowByte, EvenFor;
    StepsAreFeeds(remainder, Word(b), 8);
    EightDownIsHigh(Word(b));
    ByteIsSmall(b);
    XorZero(FeedBits(remainder, Word(b), 8));
  }

  lemma HighXor(a: bv32, b: bv32)
    ensures HighBytes(Xor(a, b)) == Xor(HighBytes(a), HighBytes(b))
  {
  }

  lemma HighOfMixed(remainder: bv32, b: byte)
    ensures HighBytes(Xor(remainder, Word(b))) == HighBytes(remainder)
  {
    hide HighBytes, Xor, Word;
    HighXor(remainder, Word(b));
    ByteIsSmall(b);
    XorZero(HighBytes(remainder));
  }

  // ---- the program's two loops --------------------------------------------------------------------------------

  /** The table entry for a byte. */
  function Entry(i: byte): bv32 { Steps(Word(i), 8) }

  lemma StepBranches(crc: bv32)
    ensures Step(crc) == if Low(crc) then Xor(Half(crc), POLYNOMIAL) else Half(crc)
  {
    hide Xor, Half, Low;
    XorZero(Half(crc));
  }

  /** `build_table`. */
  method BuildTable() returns (table: array<bv32>)
    ensures fresh(table) && table.Length == 256
    ensures forall i: byte :: table[i] == Entry(i)
  {
    hide Step, Steps, Word, Low, Xor, Half;
    table := new bv32[256];
    for i := 0 to 256
      invariant forall j: byte :: j < i ==> table[j] == Entry(j)
    {
      var crc := Word(i);
      var bit := 0;
      while bit < 8
        modifies {}
        invariant 0 <= bit <= 8
        invariant Steps(Word(i), 8) == Steps(crc, 8 - bit)
      {
        OneStep(crc, 8 - bit);
        StepBranches(crc);
        crc := if Low(crc) then Xor(Half(crc), POLYNOMIAL) else Half(crc);
        bit := bit + 1;
      }
      NoStep(crc);
      table[i] := crc;
      var index: byte := i;
      assert table[index] == Entry(index);
    }
  }

  lemma OneStep(x: bv32, n: nat)
    requires n > 0
    ensures Steps(x, n) == Steps(Step(x), n - 1)
  {
    hide Step;
  }

  lemma NoStep(x: bv32)
    ensures Steps(x, 0) == x
  {
  }

  lemma LowByteIndex(x: bv32)
    ensures 0 <= LowByte(x) as int < 256 && Word(LowByte(x) as int) == LowByte(x)
  {
    LowByteWord(x);
  }

  lemma LowByteWord(x: bv32)
    ensures (x & 0xFF) as int < 256 && (((x & 0xFF) as int) as bv8) as bv32 == x & 0xFF
  {
  }

  /** `crc32c`: one look-up per byte computes the bit-serial remainder. */
  method Checksum(table: array<bv32>, seed: bv32, data: seq<byte>) returns (crc: bv32)
    requires table.Length == 256 && forall i: byte :: table[i] == Entry(i)
    ensures crc == Crc(seed, data)
  {
    hide Steps, FeedBits, Word, Xor, HighBytes, LowByte, Flip, Divide;
    crc := Flip(seed);
    assert data[0..] == data;
    for k := 0 to |data|
      invariant Divide(Flip(seed), data) == Divide(crc, data[k..])
    {
      DivideStep(crc, data, k);
      var x := Xor(crc, Word(data[k]));
      LowByteIndex(x);
      TableStep(x);
      ByteStep(crc, data[k]);
      HighOfMixed(crc, data[k]);
      crc := Xor(table[LowByte(x) as int], HighBytes(crc));
    }
    assert data[|data|..] == [];
    DivideNothing(crc);
    crc := Flip(crc);
  }

  lemma DivideStep(remainder: bv32, data: seq<byte>, k: nat)
    requires k < |data|
    ensures Divide(remainder, data[k..]) == Divide(FeedBits(remainder, Word(data[k]), 8), data[k + 1..])
  {
    hide FeedBits, Word;
    assert data[k..][0] == data[k] && data[k..][1..] == data[k + 1..];
  }

  lemma DivideNothing(remainder: bv32)
    ensures Divide(remainder, []) == remainder
  {
  }
}
