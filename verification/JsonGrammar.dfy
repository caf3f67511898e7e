/** The grammar of JSON texts (sections 2 to 7 of RFC 8259) within the bounds of a reader, as a relation between a stretch of text
    and a value that is independent of how a reader goes through it; and the proof that whatever the reader accepts is such a
    text. */
module JsonGrammar {
  import opened Bytes
  import opened Json
  import opened JsonUnicode

  // ---- the grammar: spaces, strings, numbers ------------------------------------------------------------------

  predicate Blank(text: Text, a: nat, b: nat) { a <= b <= |text| && forall i :: a <= i < b ==> text[i] in {9, 10, 13, 32} }

  predicate Stretch(text: Text, a: nat, b: nat, word: Text) { a + |word| == b <= |text| && text[a..b] == word }

  predicate DigitsIn(text: Text, a: nat, b: nat) { a < b <= |text| && forall i :: a <= i < b ==> 48 <= text[i] <= 57 }

  /** A zero stands alone. */
  predicate IsWhole(text: Text, a: nat, b: nat) { DigitsIn(text, a, b) && (text[a] == 48 ==> b == a + 1) }

  /** Nothing, or a point and digits. */
  predicate IsFraction(text: Text, a: nat, b: nat) { a == b || (At(text, a, 46) && DigitsIn(text, a + 1, b)) }

  /** Nothing, or a letter, perhaps a sign, and digits. */
  predicate IsExponent(text: Text, a: nat, b: nat) {
    a == b ||
    ((At(text, a, 101) || At(text, a, 69)) &&
     (DigitsIn(text, a + 1, b) || ((At(text, a + 1, 43) || At(text, a + 1, 45)) && DigitsIn(text, a + 2, b))))
  }

  function Reading(text: Text, a: nat, b: nat): nat
    requires DigitsIn(text, a, b)
    decreases b
  {
    var digit: int := text[b - 1];
    (if b == a + 1 then 0 else 10 * Reading(text, a, b - 1)) + (digit - 48)
  }

  /** Past the sign. */
  function Unsigned(text: Text, a: nat): nat { if At(text, a, 45) then a + 1 else a }

  /** A number without fraction and exponent is an integer if a signed or an unsigned word holds it; all others are left to the
      platform. */
  predicate Denotes(text: Text, a: nat, p: nat, b: nat, v: Value, finite: Text -> bool)
    requires a < b <= |text| && IsWhole(text, Unsigned(text, a), p)
  {
    var n: int := Reading(text, Unsigned(text, a), p);
    var i := if At(text, a, 45) then -n else n;
    if p == b && -0x8000_0000_0000_0000 <= i <= 0x7FFF_FFFF_FFFF_FFFF then v == Int(i)
    else if p == b && 0 <= i <= 0xFFFF_FFFF_FFFF_FFFF then v == UInt(i)
    else finite(text[a..b]) && v == Real(text[a..b])
  }

  ghost predicate IsNumber(text: Text, a: nat, b: nat, v: Value, finite: Text -> bool) {
    a < b <= |text| &&
    exists p, q ::
      IsWhole(text, Unsigned(text, a), p) && IsFraction(text, p, q) && IsExponent(text, q, b) && Denotes(text, a, p, b, v, finite)
  }

  /** The letters after a backslash, other than `u`, and the byte each stands for. */
  const LETTERS: set<(byte, byte)> := {(34, 34), (92, 92), (47, 47), (98, 8), (102, 12), (110, 10), (114, 13), (116, 9)}

  predicate ReadsPair(text: Text, a: nat, h: nat, l: nat) {
    0xD800 <= h < 0xDC00 <= l < 0xE000 && ReadsUnit(text, a, h) && ReadsUnit(text, a + 6, l)
  }

  /** One character of a string: itself, or a letter behind a backslash, or the UTF-8 of one escape or of two that are the halves
      of a pair. */
  ghost predicate Stands(text: Text, a: nat, b: nat, bytes: Text) {
    a < b <= |text| &&
    ((b == a + 1 && text[a] >= 32 && text[a] != 34 && text[a] != 92 && bytes == [text[a]]) ||
     (b == a + 2 && text[a] == 92 && |bytes| == 1 && (text[a + 1], bytes[0]) in LETTERS) ||
     (b == a + 6 && exists u: nat :: u < 0x1_0000 && !Surrogate(u) && ReadsUnit(text, a, u) && bytes == Utf8(u)) ||
     (b == a + 12 && exists h: nat, l: nat :: ReadsPair(text, a, h, l) && bytes == Utf8(0x1_0000 + (h - 0xD800) * 0x400 + (l - 0xDC00))))
  }

  /** The characters after the first `sofar` bytes: one that stands for itself must still fit the bound on strings. */
  ghost predicate Spells(text: Text, a: nat, b: nat, s: Text, sofar: nat, max: nat)
    decreases b - a
  {
    a <= b <= |text| &&
    if a == b then s == []
    else exists m, bytes ::
      a < m <= b && Stands(text, a, m, bytes) && bytes <= s && (text[a] != 92 ==> sofar + 1 <= max) &&
      Spells(text, m, b, s[|bytes|..], sofar + |bytes|, max)
  }

  ghost predicate IsString(text: Text, a: nat, b: nat, s: Text, max: nat) {
    a + 2 <= b <= |text| && text[a] == 34 && text[b - 1] == 34 && Spells(text, a + 1, b - 1, s, 0, max)
  }

  // ---- the grammar: values ------------------------------------------------------------------------------------

  /** A later member replaces an earlier one of the same key. */
  function SetEach(acc: seq<Member>, members: seq<Member>): seq<Member>
    decreases |members|
  {
    if members == [] then acc else SetEach(Set(acc, members[0].key, members[0].value), members[1..])
  }

  /** A key with its colon, and spaces around both. */
  ghost predicate IsKey(text: Text, a: nat, b: nat, key: Text, max: nat) {
    exists k: nat, l: nat, m: nat ::
      Blank(text, a, k) && IsString(text, k, l, key, max) && Blank(text, l, m) && At(text, m, 58) && Blank(text, m + 1, b)
  }

  /** A value at this depth that is made of `n` values, itself among them. */
  ghost predicate IsValue(text: Text, a: nat, b: nat, v: Value, lim: Limits, depth: nat, n: nat)
    decreases b - a, 0
  {
    a < b <= |text| && depth <= lim.maxDepth && n > 0 &&
    match v
    case Null => n == 1 && Stretch(text, a, b, NULL_TEXT)
    case Bool(t) => n == 1 && Stretch(text, a, b, if t then TRUE_TEXT else FALSE_TEXT)
    case Str(s) => n == 1 && IsString(text, a, b, s, lim.maxString)
    case Array(items) =>
      b >= a + 2 && text[a] == 91 && text[b - 1] == 93 &&
      (if items == [] then n == 1 && Blank(text, a + 1, b - 1) else IsItems(text, a + 1, b - 1, items, lim, depth + 1, n - 1))
    case Object(members) =>
      b >= a + 2 && text[a] == 123 && text[b - 1] == 125 &&
      ((members == [] && n == 1 && Blank(text, a + 1, b - 1)) ||
       exists ms :: IsMembers(text, a + 1, b - 1, ms, lim, depth + 1, n - 1) && members == SetEach([], ms))
    case _ => n == 1 && IsNumber(text, a, b, v, lim.finite)
  }

  /** Values between commas. */
  ghost predicate IsItems(text: Text, a: nat, b: nat, items: seq<Value>, lim: Limits, depth: nat, n: nat)
    decreases b - a, 1
  {
    items != [] && b <= |text| &&
    exists x, y, z, k: nat ::
      a <= x < y <= z <= b && k <= n && Blank(text, a, x) && IsValue(text, x, y, items[0], lim, depth, k) && Blank(text, y, z) &&
      (if |items| == 1 then z == b && k == n else z < b && text[z] == 44 && IsItems(text, z + 1, b, items[1..], lim, depth, n - k))
  }

  ghost predicate IsMembers(text: Text, a: nat, b: nat, ms: seq<Member>, lim: Limits, depth: nat, n: nat)
    decreases b - a, 1
  {
    ms != [] && b <= |text| &&
    exists x, y, z, k: nat ::
      a <= x < y <= z <= b && k <= n && IsKey(text, a, x, ms[0].key, lim.maxString) &&
      IsValue(text, x, y, ms[0].value, lim, depth, k) && Blank(text, y, z) &&
      (if |ms| == 1 then z == b && k == n else z < b && text[z] == 44 && IsMembers(text, z + 1, b, ms[1..], lim, depth, n - k))
  }

  /** The whole text is one value with spaces around it, and within the bounds. */
  ghost predicate IsJson(text: Text, v: Value, lim: Limits) {
    |text| <= lim.maxInput &&
    exists a, b, n: nat :: n <= lim.maxNodes && Blank(text, 0, a) && IsValue(text, a, b, v, lim, 0, n) && Blank(text, b, |text|)
  }

  // ---- what is accepted is JSON: spaces, strings, numbers -----------------------------------------------------

  lemma {:induction false} SkippedBlank(text: Text, pos: nat)
    requires pos <= |text|
    ensures Blank(text, pos, SkipSpace(text, pos))
    decreases |text| - pos
  {
    if pos < |text| && IsSpace(text[pos]) { SkippedBlank(text, pos + 1); }
  }

  lemma UnitRead(text: Text, a: nat)
    requires a + 2 <= |text| && text[a] == 92 && text[a + 1] == 117 && ReadHex4(text, a + 2).Got?
    ensures ReadsUnit(text, a, ReadHex4(text, a + 2).value)
  {
  }

  lemma EscapeStands(text: Text, a: nat)
    requires a < |text| && text[a] == 92 && ReadEscape(text, a + 1).Got?
    ensures var e := ReadEscape(text, a + 1);
            Stands(text, a, e.pos, e.value)
  {
    hide Utf8, ReadsUnit;
    var e := ReadEscape(text, a + 1);
    if text[a + 1] == 117 {
      var u := ReadHex4(text, a + 2);
      UnitRead(text, a);
      if Surrogate(u.value) {
        UnitRead(text, a + 6);
        var l := ReadHex4(text, a + 8);
        assert ReadsPair(text, a, u.value, l.value);
      } else {
        assert ReadsUnit(text, a, u.value) && u.value < 0x1_0000;
      }
    } else {
      assert (text[a + 1], e.value[0]) in LETTERS;
    }
  }

  lemma SpellsNothing(text: Text, a: nat, sofar: nat, max: nat)
    requires a <= |text|
    ensures Spells(text, a, a, [], sofar, max)
  {
  }

  lemma SpellsMore(text: Text, a: nat, m: nat, b: nat, bytes: Text, rest: Text, sofar: nat, max: nat)
    requires a < m <= b <= |text| && Stands(text, a, m, bytes) && (text[a] != 92 ==> sofar + 1 <= max)
    requires Spells(text, m, b, rest, sofar + |bytes|, max)
    ensures Spells(text, a, b, bytes + rest, sofar, max)
  {
    hide Stands;
    var s := bytes + rest;
    assert bytes <= s && s[|bytes|..] == rest;
  }

  lemma {:induction false} StringSpells(text: Text, max: nat, pos: nat, acc: Text) returns (s: Text)
    requires ReadString(text, max, pos, acc).Got?
    ensures var r := ReadString(text, max, pos, acc);
            r.value == acc + s && text[r.pos - 1] == 34 && Spells(text, pos, r.pos - 1, s, |acc|, max)
    decreases |text| - pos
  {
    hide ReadEscape, Stands, Spells;
    var c := text[pos];
    var r := ReadString(text, max, pos, acc);
    if c == QUOTE {
      s := [];
      SpellsNothing(text, pos, |acc|, max);
    } else {
      var m, bytes := pos + 1, [c];
      if c == BACKSLASH {
        var e := ReadEscape(text, pos + 1);
        EscapeStands(text, pos);
        m, bytes := e.pos, e.value;
      } else {
        PlainStands(text, pos);
      }
      var rest := StringSpells(text, max, m, acc + bytes);
      s := bytes + rest;
      SpellsMore(text, pos, m, r.pos - 1, bytes, rest, |acc|, max);
      assert acc + s == acc + bytes + rest;
    }
  }

  lemma PlainStands(text: Text, a: nat)
    requires a < |text| && text[a] >= 32 && text[a] != 34 && text[a] != 92
    ensures Stands(text, a, a + 1, [text[a]])
  {
  }

  lemma StringAccepted(text: Text, max: nat, pos: nat)
    requires At(text, pos, QUOTE) && ReadString(text, max, pos + 1, []).Got?
    ensures var r := ReadString(text, max, pos + 1, []);
            IsString(text, pos, r.pos, r.value, max)
  {
    var s := StringSpells(text, max, pos + 1, []);
    assert [] + s == s;
  }

  lemma {:induction false} SkippedDigits(text: Text, pos: nat)
    requires pos <= |text| && DigitAt(text, pos)
    ensures DigitsIn(text, pos, SkipDigits(text, pos))
    decreases |text| - pos
  {
    if DigitAt(text, pos + 1) { SkippedDigits(text, pos + 1); }
  }

  lemma {:induction false} MagnitudeReads(text: Text, a: nat, b: nat)
    requires DigitsIn(text, a, b)
    ensures forall c :: c in text[a..b] ==> IsDigit(c)
    ensures Magnitude(text[a..b]) == Reading(text, a, b)
    decreases b
  {
    var digits := text[a..b];
    assert digits[..|digits| - 1] == text[a..b - 1] && digits[|digits| - 1] == text[b - 1];
    if b > a + 1 { MagnitudeReads(text, a, b - 1); } else { assert digits[..|digits| - 1] == []; }
  }

  /** The value of a token of the grammar. */
  lemma TokenValue(text: Text, a: nat, p: nat, b: nat, finite: Text -> bool)
    requires a < b <= |text| && IsWhole(text, Unsigned(text, a), p) && p <= b
    ensures var r := NumberValue(text[a..b], p == b, finite);
            (forall v :: Denotes(text, a, p, b, v, finite) <==> r == Got(v, 0)) && (r.Got? ==> r.pos == 0)
  {
    hide Magnitude, Reading;
    var token, s := text[a..b], Unsigned(text, a);
    if p == b {
      MagnitudeReads(text, s, p);
      if At(text, a, 45) {
        assert token[1..] == text[s..p] && token[0] == 45;
        assert token[0] in token && !IsDigit(token[0]);
      } else {
        assert token == text[s..p] && token[0] == text[a];
      }
    }
  }

  lemma WholeAccepted(text: Text, pos: nat)
    requires SkipWhole(text, pos).Got?
    ensures IsWhole(text, pos, SkipWhole(text, pos).pos)
  {
    SkippedDigits(text, pos);
  }

  lemma TailAccepted(text: Text, pos: nat)
    requires pos <= |text|
    ensures SkipFraction(text, pos).Got? ==>
              IsFraction(text, pos, SkipFraction(text, pos).pos) && (SkipFraction(text, pos).value <==> SkipFraction(text, pos).pos > pos)
    ensures SkipExponent(text, pos).Got? ==>
              IsExponent(text, pos, SkipExponent(text, pos).pos) && (SkipExponent(text, pos).value <==> SkipExponent(text, pos).pos > pos)
  {
    if DigitAt(text, pos + 1) { SkippedDigits(text, pos + 1); }
    if DigitAt(text, pos + 2) { SkippedDigits(text, pos + 2); }
  }

  lemma NumberAccepted(text: Text, finite: Text -> bool, pos: nat)
    requires pos <= |text| && ReadNumber(text, finite, pos).Got?
    ensures var r := ReadNumber(text, finite, pos);
            IsNumber(text, pos, r.pos, r.value, finite) && (r.value.Int? || r.value.UInt? || r.value.Real?)
  {
    hide SkipWhole, SkipFraction, SkipExponent, NumberValue, IsWhole, IsFraction, IsExponent, Denotes;
    var r := ReadNumber(text, finite, pos);
    var s := Unsigned(text, pos);
    var p := SkipWhole(text, s).pos;
    WholeAccepted(text, s);
    TailAccepted(text, p);
    var q := SkipFraction(text, p).pos;
    TailAccepted(text, q);
    TokenValue(text, pos, p, r.pos, finite);
    assert Denotes(text, pos, p, r.pos, r.value, finite);
    DenotesNumber(text, pos, p, r.pos, r.value, finite);
  }

  lemma DenotesNumber(text: Text, a: nat, p: nat, b: nat, v: Value, finite: Text -> bool)
    requires a < b <= |text| && IsWhole(text, Unsigned(text, a), p) && Denotes(text, a, p, b, v, finite)
    ensures v.Int? || v.UInt? || v.Real?
  {
  }

  // ---- what is accepted is JSON: values -----------------------------------------------------------------------

  lemma ScalarAccepted(text: Text, lim: Limits, pos: nat, nodes: nat, depth: nat)
    requires pos < |text| && depth <= lim.maxDepth && ParseScalar(text, lim, pos, nodes).Done?
    ensures var r := ParseScalar(text, lim, pos, nodes);
            r.nodes == nodes && IsValue(text, pos, r.pos, r.value, lim, depth, 1)
  {
    hide ReadString, ReadNumber, IsString, IsNumber;
    if text[pos] == QUOTE {
      StringAccepted(text, lim.maxString, pos);
    } else if text[pos] != 116 && text[pos] != 102 && text[pos] != 110 {
      NumberAccepted(text, lim.finite, pos);
    }
  }

  lemma KeyAccepted(text: Text, lim: Limits, pos: nat)
    requires pos <= |text| && ParseKey(text, lim, pos).Got?
    ensures var r := ParseKey(text, lim, pos);
            IsKey(text, pos, r.pos, r.value, lim.maxString)
  {
    hide ReadString, IsString, SkipSpace, Blank;
    var k := SkipSpace(text, pos);
    var s := ReadString(text, lim.maxString, k + 1, []);
    var m := SkipSpace(text, s.pos);
    SkippedBlank(text, pos);
    StringAccepted(text, lim.maxString, k);
    SkippedBlank(text, s.pos);
    SkippedBlank(text, m + 1);
  }

  lemma {:induction false} ValueAccepted(text: Text, lim: Limits, pos: nat, nodes: nat, depth: nat)
    requires pos <= |text| && ParseValue(text, lim, pos, nodes, depth).Done?
    ensures var r := ParseValue(text, lim, pos, nodes, depth);
            nodes < r.nodes <= lim.maxNodes && IsValue(text, pos, r.pos, r.value, lim, depth, r.nodes - nodes)
    decreases |text| - pos, 0
  {
    hide ParseScalar, ParseItems, ParseMembers, IsItems, IsMembers, SkipSpace, Blank, SetEach;
    var r := ParseValue(text, lim, pos, nodes, depth);
    SkippedBlank(text, pos + 1);
    var p := SkipSpace(text, pos + 1);
    if text[pos] == LBRACE {
      if !At(text, p, RBRACE) {
        var ms := MembersAccepted(text, lim, p, nodes + 1, depth, []);
        MembersLater(text, pos + 1, p, r.pos - 1, ms, lim, depth + 1, r.nodes - nodes - 1);
      }
    } else if text[pos] == LBRACKET {
      if !At(text, p, RBRACKET) {
        var items := ItemsAccepted(text, lim, p, nodes + 1, depth, []);
        ItemsLater(text, pos + 1, p, r.pos - 1, items, lim, depth + 1, r.nodes - nodes - 1);
        ItemsWithin(text, p, r.pos - 1, items, lim, depth + 1, r.nodes - nodes - 1);
        assert [] + items == items;
      }
    } else {
      ScalarAccepted(text, lim, pos, nodes + 1, depth);
    }
  }

  lemma BlankJoin(text: Text, a: nat, m: nat, b: nat)
    requires Blank(text, a, m) && Blank(text, m, b)
    ensures Blank(text, a, b) && a <= b
  {
  }

  lemma ItemsParts(text: Text, a: nat, b: nat, items: seq<Value>, lim: Limits, depth: nat, n: nat)
    returns (x: nat, y: nat, z: nat, k: nat)
    requires IsItems(text, a, b, items, lim, depth, n)
    ensures items != [] && a <= x < y <= z <= b <= |text| && 0 < k <= n
    ensures Blank(text, a, x) && IsValue(text, x, y, items[0], lim, depth, k) && Blank(text, y, z)
    ensures if |items| == 1 then z == b && k == n else z < b && text[z] == 44 && IsItems(text, z + 1, b, items[1..], lim, depth, n - k)
  {
    hide Blank, IsString, IsNumber, Stretch, IsMembers;
    x, y, z, k :| a <= x < y <= z <= b && k <= n && Blank(text, a, x) && IsValue(text, x, y, items[0], lim, depth, k) &&
      Blank(text, y, z) &&
      (if |items| == 1 then z == b && k == n else z < b && text[z] == 44 && IsItems(text, z + 1, b, items[1..], lim, depth, n - k));
  }

  lemma MembersParts(text: Text, a: nat, b: nat, ms: seq<Member>, lim: Limits, depth: nat, n: nat)
    returns (x: nat, y: nat, z: nat, k: nat)
    requires IsMembers(text, a, b, ms, lim, depth, n)
    ensures ms != [] && a <= x < y <= z <= b <= |text| && 0 < k <= n
    ensures IsKey(text, a, x, ms[0].key, lim.maxString) && IsValue(text, x, y, ms[0].value, lim, depth, k) && Blank(text, y, z)
    ensures if |ms| == 1 then z == b && k == n else z < b && text[z] == 44 && IsMembers(text, z + 1, b, ms[1..], lim, depth, n - k)
  {
    hide Blank, IsKey, IsString, IsNumber, Stretch, IsItems;
    x, y, z, k :| a <= x < y <= z <= b && k <= n && IsKey(text, a, x, ms[0].key, lim.maxString) &&
      IsValue(text, x, y, ms[0].value, lim, depth, k) && Blank(text, y, z) &&
      (if |ms| == 1 then z == b && k == n else z < b && text[z] == 44 && IsMembers(text, z + 1, b, ms[1..], lim, depth, n - k));
  }

  lemma ItemsWithin(text: Text, a: nat, b: nat, items: seq<Value>, lim: Limits, depth: nat, n: nat)
    requires IsItems(text, a, b, items, lim, depth, n)
    ensures a < b <= |text| && items != [] && n > 0
  {
    hide IsItems;
    var _, _, _, _ := ItemsParts(text, a, b, items, lim, depth, n);
  }

  lemma MembersWithin(text: Text, a: nat, b: nat, ms: seq<Member>, lim: Limits, depth: nat, n: nat)
    requires IsMembers(text, a, b, ms, lim, depth, n)
    ensures a < b <= |text| && ms != [] && n > 0
  {
    hide IsMembers;
    var _, _, _, _ := MembersParts(text, a, b, ms, lim, depth, n);
  }

  /** Spaces before the first element belong to it. */
  lemma ItemsLater(text: Text, a: nat, m: nat, b: nat, items: seq<Value>, lim: Limits, depth: nat, n: nat)
    requires Blank(text, a, m) && IsItems(text, m, b, items, lim, depth, n)
    ensures IsItems(text, a, b, items, lim, depth, n)
  {
    hide IsValue, Blank, IsItems;
    var x, y, z, k := ItemsParts(text, m, b, items, lim, depth, n);
    BlankJoin(text, a, m, x);
    if |items| == 1 {
      assert items == [items[0]];
      ItemsOne(text, a, x, y, z, items[0], lim, depth, n);
    } else {
      assert items == [items[0]] + items[1..];
      ItemsMore(text, a, x, y, z, b, items[0], items[1..], lim, depth, k, n - k);
    }
  }

  lemma KeyLater(text: Text, a: nat, m: nat, b: nat, key: Text, max: nat)
    requires Blank(text, a, m) && IsKey(text, m, b, key, max)
    ensures IsKey(text, a, b, key, max) && a <= b
  {
    hide IsString, Blank;
    var k: nat, l: nat, c: nat :|
      Blank(text, m, k) && IsString(text, k, l, key, max) && Blank(text, l, c) && At(text, c, 58) && Blank(text, c + 1, b);
    BlankJoin(text, a, m, k);
    StringLength(text, k, l, key, max);
    BlankSpan(text, l, c);
    BlankSpan(text, c + 1, b);
  }

  lemma BlankSpan(text: Text, a: nat, b: nat)
    requires Blank(text, a, b)
    ensures a <= b <= |text|
  {
  }

  lemma StringLength(text: Text, a: nat, b: nat, s: Text, max: nat)
    requires IsString(text, a, b, s, max)
    ensures a + 2 <= b <= |text|
  {
    hide Spells;
  }

  lemma MembersLater(text: Text, a: nat, m: nat, b: nat, ms: seq<Member>, lim: Limits, depth: nat, n: nat)
    requires Blank(text, a, m) && IsMembers(text, m, b, ms, lim, depth, n)
    ensures IsMembers(text, a, b, ms, lim, depth, n)
  {
    hide IsValue, Blank, IsKey, IsMembers;
    var x, y, z, k := MembersParts(text, m, b, ms, lim, depth, n);
    KeyLater(text, a, m, x, ms[0].key, lim.maxString);
    if |ms| == 1 {
      assert ms == [ms[0]];
      MembersOne(text, a, x, y, z, ms[0], lim, depth, n);
    } else {
      assert ms == [ms[0]] + ms[1..];
      MembersMore(text, a, x, y, z, b, ms[0], ms[1..], lim, depth, k, n - k);
    }
  }

  lemma ItemsOne(text: Text, a: nat, x: nat, y: nat, z: nat, v: Value, lim: Limits, depth: nat, n: nat)
    requires a <= x < y <= z <= |text| && Blank(text, a, x) && IsValue(text, x, y, v, lim, depth, n) && Blank(text, y, z)
    ensures IsItems(text, a, z, [v], lim, depth, n)
  {
    hide IsValue, Blank;
    var items := [v];
    assert Blank(text, a, x) && IsValue(text, x, y, items[0], lim, depth, n) && Blank(text, y, z);
  }

  lemma ItemsMore(text: Text, a: nat, x: nat, y: nat, z: nat, b: nat, v: Value, rest: seq<Value>, lim: Limits, depth: nat, k: nat, n: nat)
    requires a <= x < y <= z < b <= |text| && Blank(text, a, x) && IsValue(text, x, y, v, lim, depth, k) && Blank(text, y, z)
    requires text[z] == 44 && IsItems(text, z + 1, b, rest, lim, depth, n)
    ensures IsItems(text, a, b, [v] + rest, lim, depth, k + n)
  {
    hide IsValue, Blank;
    ItemsWithin(text, z + 1, b, rest, lim, depth, n);
    var items := [v] + rest;
    assert Blank(text, a, x) && IsValue(text, x, y, items[0], lim, depth, k) && Blank(text, y, z);
    assert items[1..] == rest;
  }

  lemma {:induction false} ItemsAccepted(text: Text, lim: Limits, pos: nat, nodes: nat, depth: nat, acc: seq<Value>) returns (items: seq<Value>)
    requires pos <= |text| && ParseItems(text, lim, pos, nodes, depth, acc).Done?
    ensures var r := ParseItems(text, lim, pos, nodes, depth, acc);
            r.value == Array(acc + items) && text[r.pos - 1] == 93 && nodes < r.nodes <= lim.maxNodes &&
            IsItems(text, pos, r.pos - 1, items, lim, depth + 1, r.nodes - nodes)
    decreases |text| - pos, 1
  {
    hide ParseValue, IsItems, IsValue, SkipSpace, Blank;
    var r := ParseItems(text, lim, pos, nodes, depth, acc);
    var x := SkipSpace(text, pos);
    var e := ParseValue(text, lim, x, nodes, depth + 1);
    var z := SkipSpace(text, e.pos);
    SkippedBlank(text, pos);
    ValueAccepted(text, lim, x, nodes, depth + 1);
    SkippedBlank(text, e.pos);
    if At(text, z, COMMA) {
      var rest := ItemsAccepted(text, lim, z + 1, e.nodes, depth, acc + [e.value]);
      items := [e.value] + rest;
      assert acc + items == acc + [e.value] + rest;
      ItemsWithin(text, z + 1, r.pos - 1, rest, lim, depth + 1, r.nodes - e.nodes);
      ItemsMore(text, pos, x, e.pos, z, r.pos - 1, e.value, rest, lim, depth + 1, e.nodes - nodes, r.nodes - e.nodes);
    } else {
      items := [e.value];
      ItemsOne(text, pos, x, e.pos, z, e.value, lim, depth + 1, e.nodes - nodes);
    }
  }

  lemma MembersOne(text: Text, a: nat, x: nat, y: nat, z: nat, m: Member, lim: Limits, depth: nat, n: nat)
    requires a <= x < y <= z <= |text| && IsKey(text, a, x, m.key, lim.maxString) && IsValue(text, x, y, m.value, lim, depth, n)
    requires Blank(text, y, z)
    ensures IsMembers(text, a, z, [m], lim, depth, n)
  {
    hide IsValue, Blank, IsKey;
    var ms := [m];
    assert IsKey(text, a, x, ms[0].key, lim.maxString) && IsValue(text, x, y, ms[0].value, lim, depth, n) && Blank(text, y, z);
  }

  lemma MembersMore(text: Text, a: nat, x: nat, y: nat, z: nat, b: nat, m: Member, rest: seq<Member>, lim: Limits, depth: nat, k: nat,
                    n: nat)
    requires a <= x < y <= z < b <= |text| && IsKey(text, a, x, m.key, lim.maxString) && IsValue(text, x, y, m.value, lim, depth, k)
    requires Blank(text, y, z) && text[z] == 44 && IsMembers(text, z + 1, b, rest, lim, depth, n)
    ensures IsMembers(text, a, b, [m] + rest, lim, depth, k + n)
  {
    hide IsValue, Blank, IsKey;
    MembersWithin(text, z + 1, b, rest, lim, depth, n);
    var ms := [m] + rest;
    assert IsKey(text, a, x, ms[0].key, lim.maxString) && IsValue(text, x, y, ms[0].value, lim, depth, k) && Blank(text, y, z);
    assert ms[1..] == rest;
  }

  lemma {:induction false} MembersAccepted(text: Text, lim: Limits, pos: nat, nodes: nat, depth: nat, acc: seq<Member>) returns (ms: seq<Member>)
    requires pos <= |text| && ParseMembers(text, lim, pos, nodes, depth, acc).Done?
    ensures var r := ParseMembers(text, lim, pos, nodes, depth, acc);
            r.value == Object(SetEach(acc, ms)) && text[r.pos - 1] == 125 && nodes < r.nodes <= lim.maxNodes &&
            IsMembers(text, pos, r.pos - 1, ms, lim, depth + 1, r.nodes - nodes)
    decreases |text| - pos, 1
  {
    hide ParseKey, ParseValue, IsMembers, IsValue, IsKey, SkipSpace, Blank, Set;
    var r := ParseMembers(text, lim, pos, nodes, depth, acc);
    var k := ParseKey(text, lim, pos);
    var e := ParseValue(text, lim, k.pos, nodes, depth + 1);
    var m, z := Member(k.value, e.value), SkipSpace(text, e.pos);
    KeyAccepted(text, lim, pos);
    ValueAccepted(text, lim, k.pos, nodes, depth + 1);
    SkippedBlank(text, e.pos);
    if At(text, z, COMMA) {
      var rest := MembersAccepted(text, lim, z + 1, e.nodes, depth, Set(acc, k.value, e.value));
      ms := [m] + rest;
      assert ms[1..] == rest;
      MembersWithin(text, z + 1, r.pos - 1, rest, lim, depth + 1, r.nodes - e.nodes);
      MembersMore(text, pos, k.pos, e.pos, z, r.pos - 1, m, rest, lim, depth + 1, e.nodes - nodes, r.nodes - e.nodes);
    } else {
      ms := [m];
      SetOne(acc, m);
      MembersOne(text, pos, k.pos, e.pos, z, m, lim, depth + 1, e.nodes - nodes);
    }
  }

  lemma SetOne(acc: seq<Member>, m: Member)
    ensures SetEach(acc, [m]) == Set(acc, m.key, m.value)
  {
    hide Set;
    assert [m][1..] == [];
    assert SetEach(Set(acc, m.key, m.value), []) == Set(acc, m.key, m.value);
  }

  /** Malformed text is refused: whatever is read is the value of a JSON text within the bounds, all of it. */
  lemma OnlyJsonIsAccepted(text: Text, lim: Limits)
    requires Parse(text, lim).Got?
    ensures IsJson(text, Parse(text, lim).value, lim) && Parse(text, lim).pos == |text|
  {
    hide ParseValue, IsValue, SkipSpace, Blank;
    var a := SkipSpace(text, 0);
    SkippedBlank(text, 0);
    ValueAccepted(text, lim, a, 0, 0);
    SkippedBlank(text, ParseValue(text, lim, a, 0, 0).pos);
  }
}
