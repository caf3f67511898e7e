/** What the reader of JSON strings makes of `\\u` escapes: the UTF-8 bytes (section 3 of RFC 3629) of the code point that the
    UTF-16 code units stand for (section 2.1 of RFC 2781). */
module JsonUnicode {
  import opened Bytes
  import opened Json
  import opened JsonRoundTrip

  // ---- UTF-8 --------------------------------------------------------------------------------------------------

  predicate Continues(b: byte) { 0x80 <= b < 0xC0 }

  /** How many bytes a character takes, by its first one. */
  function CharLength(lead: byte): nat {
    if lead < 0x80 then 1 else if lead < 0xC0 then 0 else if lead < 0xE0 then 2 else if lead < 0xF0 then 3
    else if lead < 0xF8 then 4 else 0
  }

  /** Six more bits from each continuation byte. */
  function Continue(high: nat, rest: Text): nat
    requires forall b :: b in rest ==> Continues(b)
    decreases |rest|
  {
    if rest == [] then high
    else
      assert rest[0] in rest && Continues(rest[0]);
      var bits: int := rest[0];
      Continue(high * 64 + (bits - 0x80), rest[1..])
  }

  /** The bits of the first byte that belong to the character. */
  function LeadBits(lead: byte): nat
    requires CharLength(lead) > 0
  {
    match CharLength(lead)
    case 1 => lead
    case 2 => lead - 0xC0
    case 3 => lead - 0xE0
    case _ => lead - 0xF0
  }

  /** A single character, in as many bytes as its first one says. */
  predicate OneChar(bytes: Text) {
    bytes != [] && CharLength(bytes[0]) == |bytes| && forall b :: b in bytes[1..] ==> Continues(b)
  }

  function CodePointOf(bytes: Text): nat
    requires OneChar(bytes)
  {
    Continue(LeadBits(bytes[0]), bytes[1..])
  }

  /** The fewest bytes that have room for the code point. */
  function FewestBytes(codePoint: nat): nat {
    if codePoint < 0x80 then 1 else if codePoint < 0x800 then 2 else if codePoint < 0x1_0000 then 3 else 4
  }

  lemma ContinueOne(high: nat, a: byte)
    requires Continues(a)
    ensures Continue(high, [a]) == high * 64 + (a - 0x80)
  {
    assert [a][1..] == [];
  }

  lemma ContinueTwo(high: nat, a: byte, b: byte)
    requires Continues(a) && Continues(b)
    ensures Continue(high, [a, b]) == (high * 64 + (a - 0x80)) * 64 + (b - 0x80)
  {
    assert [a, b][1..] == [b];
    ContinueOne(high * 64 + (a - 0x80), b);
  }

  lemma ContinueThree(high: nat, a: byte, b: byte, c: byte)
    requires Continues(a) && Continues(b) && Continues(c)
    ensures Continue(high, [a, b, c]) == ((high * 64 + (a - 0x80)) * 64 + (b - 0x80)) * 64 + (c - 0x80)
  {
    assert [a, b, c][1..] == [b, c];
    ContinueTwo(high * 64 + (a - 0x80), b, c);
  }

  /** Every code point is written in the fewest bytes, and decodes to itself. */
  lemma Utf8Back(codePoint: nat)
    requires codePoint < 0x11_0000
    ensures OneChar(Utf8(codePoint)) && CodePointOf(Utf8(codePoint)) == codePoint
    ensures |Utf8(codePoint)| == FewestBytes(codePoint)
  {
    var u, high := Utf8(codePoint), codePoint / 0x40;
    var higher := high / 0x40;
    assert codePoint / 0x1000 == higher && codePoint / 0x4_0000 == higher / 0x40;
    if codePoint > 0xFFFF {
      assert u[1..] == [u[1], u[2], u[3]];
      ContinueThree(LeadBits(u[0]), u[1], u[2], u[3]);
    } else if codePoint > 0x7FF {
      assert u[1..] == [u[1], u[2]];
      ContinueTwo(LeadBits(u[0]), u[1], u[2]);
    } else if codePoint > 0x7F {
      assert u[1..] == [u[1]];
      ContinueOne(LeadBits(u[0]), u[1]);
    }
  }

  // ---- UTF-16 escapes -----------------------------------------------------------------------------------------

  predicate Surrogate(unit: nat) { 0xD800 <= unit < 0xE000 }

  /** The UTF-16 code units of a code point. */
  function Units(codePoint: nat): seq<nat> {
    if codePoint < 0x1_0000 then [codePoint]
    else [0xD800 + (codePoint - 0x1_0000) / 0x400, 0xDC00 + (codePoint - 0x1_0000) % 0x400]
  }

  function Hex4(unit: nat): (r: Text)
    requires unit < 0x1_0000
    ensures |r| == 4
  {
    [HexDigit(unit / 0x1000), HexDigit(unit / 0x100 % 16), HexDigit(unit / 16 % 16), HexDigit(unit % 16)]
  }

  /** The escape of a code point, after its first backslash. */
  function UnicodeEscape(codePoint: nat): Text
    requires codePoint < 0x11_0000
  {
    if codePoint < 0x1_0000 then [117] + Hex4(codePoint)
    else [117] + (Hex4(Units(codePoint)[0]) + ([BACKSLASH, 117] + Hex4(Units(codePoint)[1])))
  }

  lemma Hex4Back(text: Text, pos: nat, unit: nat)
    requires unit < 0x1_0000 && Starts(text, pos, Hex4(unit))
    ensures ReadHex4(text, pos) == Got(unit, pos + 4)
  {
    var w := Hex4(unit);
    StartsAt(text, pos, w, 0);
    StartsAt(text, pos, w, 1);
    StartsAt(text, pos, w, 2);
    StartsAt(text, pos, w, 3);
    DigitBack(unit / 0x1000);
    DigitBack(unit / 0x100 % 16);
    DigitBack(unit / 16 % 16);
    DigitBack(unit % 16);
    assert unit / 0x1000 == unit / 16 / 16 / 16 && unit / 0x100 == unit / 16 / 16;
  }

  /** Any code point outside the surrogates that is written as an escape, as a pair of them where one does not suffice, reads
      back as one character that decodes to it. */
  lemma EscapeReads(text: Text, pos: nat, codePoint: nat)
    requires codePoint < 0x11_0000 && !Surrogate(codePoint) && Starts(text, pos, UnicodeEscape(codePoint))
    ensures var r := ReadEscape(text, pos);
            r.Got? && r.pos == pos + |UnicodeEscape(codePoint)| && OneChar(r.value) && CodePointOf(r.value) == codePoint
  {
    hide Hex4, Utf8, ReadHex4, OneChar, CodePointOf;
    Utf8Back(codePoint);
    if codePoint < 0x1_0000 {
      StartsParts(text, pos, [117], Hex4(codePoint));
      StartsAt(text, pos, [117], 0);
      Hex4Back(text, pos + 1, codePoint);
    } else {
      var high, low := Units(codePoint)[0], Units(codePoint)[1];
      StartsParts(text, pos, [117], Hex4(high) + ([BACKSLASH, 117] + Hex4(low)));
      StartsAt(text, pos, [117], 0);
      StartsParts(text, pos + 1, Hex4(high), [BACKSLASH, 117] + Hex4(low));
      Hex4Back(text, pos + 1, high);
      StartsParts(text, pos + 5, [BACKSLASH, 117], Hex4(low));
      StartsAt(text, pos + 5, [BACKSLASH, 117], 0);
      StartsAt(text, pos + 5, [BACKSLASH, 117], 1);
      Hex4Back(text, pos + 7, low);
      assert 0x1_0000 + (high - 0xD800) * 0x400 + (low - 0xDC00) == codePoint;
    }
  }

  /** An escape for this code unit, in digits of either case. */
  predicate ReadsUnit(text: Text, pos: nat, unit: nat) {
    At(text, pos, BACKSLASH) && At(text, pos + 1, 117) && ReadHex4(text, pos + 2) == Got(unit, pos + 6)
  }

  /** No escape for the second half of a pair stands here. */
  ghost predicate NoLowHalf(text: Text, pos: nat) { forall low: nat :: 0xDC00 <= low < 0xE000 ==> !ReadsUnit(text, pos, low) }

  /** A surrogate that is not the first half of a pair is refused. */
  lemma LoneSurrogate(text: Text, pos: nat, unit: nat)
    requires Surrogate(unit) && Starts(text, pos, [117] + Hex4(unit))
    requires unit < 0xDC00 ==> NoLowHalf(text, pos + 5)
    ensures ReadEscape(text, pos).Refused?
  {
    hide Hex4, ReadHex4;
    StartsParts(text, pos, [117], Hex4(unit));
    StartsAt(text, pos, [117], 0);
    Hex4Back(text, pos + 1, unit);
    if unit < 0xDC00 && ReadHex4(text, pos + 7).Got? {
      var low := ReadHex4(text, pos + 7).value;
      assert !(0xDC00 <= low < 0xE000 && ReadsUnit(text, pos + 5, low));
    }
  }

  // ---- the alphabet -------------------------------------------------------------------------------------------

  const LOWER: string := "0123456789abcdef"
  const UPPER: string := "0123456789ABCDEF"

  /** Spaces are space, tab, line feed and carriage return. Hexadecimal digits are written in lower case and read in either
      case, and nothing else is one. */
  lemma Alphabet(c: byte)
    ensures IsSpace(c) <==> c as char in " \t\n\r"
    ensures HexValue(c) >= 0 ==> c as char == LOWER[HexValue(c)] || c as char == UPPER[HexValue(c)]
    ensures forall d: nat :: d < 16 ==>
      HexDigit(d) as char == LOWER[d] && HexValue(LOWER[d] as int) == d && HexValue(UPPER[d] as int) == d
  {
    AlphabetValues(c);
    assert " \t\n\r" == [' ', '\t', '\n', '\r'];
    forall d: nat | d < 16
      ensures HexDigit(d) as char == LOWER[d] && HexValue(LOWER[d] as int) == d && HexValue(UPPER[d] as int) == d
    {
      AlphabetDigit(d);
    }
  }

  lemma AlphabetValues(c: byte)
    ensures HexValue(c) >= 0 ==> c as char == LOWER[HexValue(c)] || c as char == UPPER[HexValue(c)]
  {
    if HexValue(c) >= 0 { AlphabetDigit(HexValue(c)); }
  }

  lemma AlphabetDigit(d: nat)
    requires d < 16
    ensures LOWER[d] as int == (if d < 10 then 48 + d else 87 + d) && UPPER[d] as int == (if d < 10 then 48 + d else 55 + d)
    ensures HexDigit(d) as char == LOWER[d] && HexValue(LOWER[d] as int) == d && HexValue(UPPER[d] as int) == d
  {
    if d < 4 {} else if d < 8 {} else if d < 12 {} else {}
  }
}
