/** Digests as hexadecimal text. */
module Hex {
  import opened Bytes
  import opened Json

  const DIGEST_BYTES: nat := 32

  function ToHex(d: seq<byte>): (r: Text)
    ensures |r| == 2 * |d|
    decreases |d|
  {
    if d == [] then [] else [HexDigit(d[0] / 16), HexDigit(d[0] % 16)] + ToHex(d[1..])
  }

  /** Two digits a byte; either case is read. */
  function FromPairs(h: Text): (r: Read<seq<byte>>)
    requires |h| % 2 == 0
    ensures r.Got? ==> |r.value| == |h| / 2
    decreases |h|
  {
    if h == [] then Got([], 0)
    else
      var hi, lo := HexValue(h[0]), HexValue(h[1]);
      match FromPairs(h[2..])
      case Refused => Refused
      case Got(rest, _) => if hi < 0 || lo < 0 then Refused else Got([hi * 16 + lo] + rest, 0)
  }

  function FromHex(h: Text): (r: Read<seq<byte>>)
    ensures r.Got? ==> |r.value| == DIGEST_BYTES
  {
    if |h| != 2 * DIGEST_BYTES then Refused else FromPairs(h)
  }

  lemma {:induction false} PairsBack(d: seq<byte>)
    ensures FromPairs(ToHex(d)) == Got(d, 0)
    decreases |d|
  {
    if d != [] {
      DigitBack(d[0] / 16);
      DigitBack(d[0] % 16);
      assert d[0] / 16 * 16 + d[0] % 16 == d[0];
      assert ToHex(d)[2..] == ToHex(d[1..]);
      PairsBack(d[1..]);
      assert d == [d[0]] + d[1..];
    }
  }

  /** A digest reads back from its text, so different digests have different texts. */
  lemma DigestBack(d: seq<byte>)
    requires |d| == DIGEST_BYTES
    ensures FromHex(ToHex(d)) == Got(d, 0)
  {
    PairsBack(d);
  }

  /** `to_hex`. */
  method WriteHex(d: seq<byte>) returns (out: Text)
    ensures out == ToHex(d)
  {
    hide ToHex;
    out := [];
    assert d[0..] == d && [] + ToHex(d) == ToHex(d);
    for i := 0 to |d|
      invariant out + ToHex(d[i..]) == ToHex(d)
    {
      DigitRound(d, i, out);
      out := out + [HexDigit(d[i] / 16), HexDigit(d[i] % 16)];
    }
    NoDigits();
    assert d[|d|..] == [] && out + [] == out;
  }

  lemma DigitRound(d: seq<byte>, i: nat, out: Text)
    requires i < |d|
    ensures out + ToHex(d[i..]) == out + [HexDigit(d[i] / 16), HexDigit(d[i] % 16)] + ToHex(d[i + 1..])
  {
    hide HexDigit;
    assert d[i..][0] == d[i] && d[i..][1..] == d[i + 1..];
    assert out + ([HexDigit(d[i] / 16), HexDigit(d[i] % 16)] + ToHex(d[i + 1..])) ==
           out + [HexDigit(d[i] / 16), HexDigit(d[i] % 16)] + ToHex(d[i + 1..]);
  }

  lemma NoDigits()
    ensures ToHex([]) == []
  {
  }

  /** `from_hex`. */
  method ReadHex(h: Text) returns (ok: bool, out: seq<byte>)
    ensures if ok then FromHex(h) == Got(out, 0) else FromHex(h).Refused?
  {
    hide HexValue;
    if |h| != 2 * DIGEST_BYTES { return false, []; }
    out := [];
    assert h[0..] == h;
    JoinedNothing(FromPairs(h));
    for i := 0 to DIGEST_BYTES
      invariant |out| == i
      invariant Joined(out, FromPairs(h[2 * i..])) == FromPairs(h)
    {
      var hi, lo := HexValue(h[2 * i]), HexValue(h[2 * i + 1]);
      PairRound(h, i, out);
      if hi < 0 || lo < 0 { return false, []; }
      out := out + [hi * 16 + lo];
    }
    assert h[2 * DIGEST_BYTES..] == [];
    assert out + [] == out;
    ok := true;
  }

  /** Bytes read so far, in front of what the rest gives. */
  function Joined(done: seq<byte>, rest: Read<seq<byte>>): Read<seq<byte>> {
    match rest
    case Refused => Refused
    case Got(d, p) => Got(done + d, p)
  }

  lemma JoinedNothing(rest: Read<seq<byte>>)
    ensures Joined([], rest) == rest
  {
    if rest.Got? { assert [] + rest.value == rest.value; }
  }

  lemma PairRound(h: Text, i: nat, done: seq<byte>)
    requires |h| == 2 * DIGEST_BYTES && i < DIGEST_BYTES
    ensures var hi, lo := HexValue(h[2 * i]), HexValue(h[2 * i + 1]);
            if hi < 0 || lo < 0 then FromPairs(h[2 * i..]).Refused?
            else Joined(done, FromPairs(h[2 * i..])) == Joined(done + [hi * 16 + lo], FromPairs(h[2 * (i + 1)..]))
  {
    hide HexValue;
    var t := h[2 * i..];
    assert t[0] == h[2 * i] && t[1] == h[2 * i + 1] && t[2..] == h[2 * (i + 1)..];
    match FromPairs(t[2..])
    case Refused =>
    case Got(rest, _) =>
      var hi, lo := HexValue(h[2 * i]), HexValue(h[2 * i + 1]);
      if hi >= 0 && lo >= 0 { assert done + ([hi * 16 + lo] + rest) == done + [hi * 16 + lo] + rest; }
  }
}
