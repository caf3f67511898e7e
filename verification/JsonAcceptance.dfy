/** Every text of the grammar is accepted, with the value it denotes: together with the converse, the reader accepts exactly the
    JSON texts within its bounds. */
module JsonAcceptance {
  import opened Bytes
  import opened Json
  import opened JsonRoundTrip
  import opened JsonUnicode
  import opened JsonGrammar

  // ---- spaces and strings -------------------------------------------------------------------------------------

  predicate NoBlank(text: Text, b: nat) { b < |text| ==> text[b] !in {9, 10, 13, 32} }

  lemma {:induction false} SkipExact(text: Text, a: nat, b: nat)
    requires Blank(text, a, b) && NoBlank(text, b)
    ensures SkipSpace(text, a) == b
    decreases b - a
  {
    if a < b { SkipExact(text, a + 1, b); }
  }

  /** One character of the grammar is one step of the reader. */
  lemma CharacterExact(text: Text, a: nat, b: nat, bytes: Text)
    requires Stands(text, a, b, bytes)
    ensures text[a] != 34 && text[a] >= 32
    ensures if text[a] == 92 then ReadEscape(text, a + 1) == Got(bytes, b) else b == a + 1 && bytes == [text[a]]
  {
    hide Utf8, ReadHex4;
    if text[a] == 92 {
      if b == a + 2 {
        assert bytes == [bytes[0]];
      } else if b == a + 6 {
        var u: nat :| u < 0x1_0000 && !Surrogate(u) && ReadsUnit(text, a, u) && bytes == Utf8(u);
      } else {
        var h: nat, l: nat :| ReadsPair(text, a, h, l) && bytes == Utf8(0x1_0000 + (h - 0xD800) * 0x400 + (l - 0xDC00));
      }
    }
  }

  lemma {:induction false} StringExact(text: Text, max: nat, pos: nat, b: nat, acc: Text, s: Text)
    requires Spells(text, pos, b, s, |acc|, max) && At(text, b, 34)
    ensures ReadString(text, max, pos, acc) == Got(acc + s, b + 1)
    decreases b - pos
  {
    hide Stands, ReadEscape;
    if pos < b {
      var m, bytes :|
        pos < m <= b && Stands(text, pos, m, bytes) && bytes <= s && (text[pos] != 92 ==> |acc| + 1 <= max) &&
        Spells(text, m, b, s[|bytes|..], |acc| + |bytes|, max);
      CharacterExact(text, pos, m, bytes);
      StringExact(text, max, m, b, acc + bytes, s[|bytes|..]);
      assert acc + bytes + s[|bytes|..] == acc + s;
    } else {
      assert acc + [] == acc;
    }
  }

  lemma QuotedExact(text: Text, max: nat, a: nat, b: nat, s: Text)
    requires IsString(text, a, b, s, max)
    ensures At(text, a, QUOTE) && ReadString(text, max, a + 1, []) == Got(s, b)
  {
    hide Spells, ReadString;
    StringExact(text, max, a + 1, b - 1, [], s);
    assert [] + s == s;
  }

  // ---- numbers ------------------------------------------------------------------------------------------------

  /** What can follow a value. */
  predicate Ends(text: Text, b: nat) { b >= |text| || text[b] in {9, 10, 13, 32, 44, 93, 125} }

  lemma {:induction false} DigitsExact(text: Text, a: nat, b: nat)
    requires DigitsIn(text, a, b) && !DigitAt(text, b)
    ensures SkipDigits(text, a) == b
    decreases b - a
  {
    if a + 1 < b { DigitsExact(text, a + 1, b); }
  }

  lemma WholeExact(text: Text, a: nat, b: nat)
    requires IsWhole(text, a, b) && !DigitAt(text, b)
    ensures SkipWhole(text, a) == Got(true, b)
  {
    DigitsExact(text, a, b);
  }

  lemma FractionExact(text: Text, a: nat, b: nat)
    requires IsFraction(text, a, b) && a <= |text| && !DigitAt(text, b) && (a == b ==> !At(text, b, 46))
    ensures SkipFraction(text, a) == Got(a < b, b)
  {
    if a < b { DigitsExact(text, a + 1, b); }
  }

  lemma ExponentExact(text: Text, a: nat, b: nat)
    requires IsExponent(text, a, b) && a <= |text| && Ends(text, b)
    ensures SkipExponent(text, a) == Got(a < b, b)
  {
    if a < b {
      if DigitsIn(text, a + 1, b) { DigitsExact(text, a + 1, b); } else { DigitsExact(text, a + 2, b); }
    }
  }

  lemma NumberExact(text: Text, a: nat, b: nat, v: Value, finite: Text -> bool)
    requires IsNumber(text, a, b, v, finite) && Ends(text, b)
    ensures ReadNumber(text, finite, a) == Got(v, b)
    ensures text[a] == 45 || 48 <= text[a] <= 57
  {
    hide NumberValue, Denotes, SkipWhole, SkipFraction, SkipExponent;
    var s := Unsigned(text, a);
    var p, q :| IsWhole(text, s, p) && IsFraction(text, p, q) && IsExponent(text, q, b) && Denotes(text, a, p, b, v, finite);
    WholeExact(text, s, p);
    FractionExact(text, p, q);
    ExponentExact(text, q, b);
    TokenValue(text, a, p, b, finite);
  }

  // ---- values -------------------------------------------------------------------------------------------------

  /** No value starts with a space, a comma or a closing bracket. */
  lemma FirstByteOf(text: Text, a: nat, b: nat, v: Value, lim: Limits, depth: nat, n: nat)
    requires IsValue(text, a, b, v, lim, depth, n)
    ensures a < b <= |text| && n > 0 && text[a] !in {9, 10, 13, 32, 44, 93, 125}
    ensures (v.Int? || v.UInt? || v.Real?) ==> text[a] == 45 || 48 <= text[a] <= 57
  {
    hide Spells, IsItems, IsMembers, Blank, Denotes, IsFraction, IsExponent, SetEach;
    match v
    case Null => assert text[a] == text[a..b][0];
    case Bool(_) => assert text[a] == text[a..b][0];
    case _ =>
  }

  lemma ScalarExact(text: Text, lim: Limits, a: nat, b: nat, v: Value, depth: nat, n: nat, nodes: nat)
    requires IsValue(text, a, b, v, lim, depth, n) && Ends(text, b) && !v.Array? && !v.Object?
    ensures n == 1 && ParseScalar(text, lim, a, nodes) == Done(v, b, nodes) && text[a] != LBRACE && text[a] != LBRACKET
  {
    hide ReadString, ReadNumber, IsNumber, Spells;
    FirstByteOf(text, a, b, v, lim, depth, n);
    match v
    case Null => assert text[a] == text[a..b][0];
    case Bool(_) => assert text[a] == text[a..b][0];
    case Str(s) => QuotedExact(text, lim.maxString, a, b, s);
    case _ => NumberExact(text, a, b, v, lim.finite);
  }

  lemma KeyExact(text: Text, lim: Limits, a: nat, b: nat, key: Text)
    requires IsKey(text, a, b, key, lim.maxString) && NoBlank(text, b)
    ensures a <= b && ParseKey(text, lim, a) == Got(key, b)
  {
    hide ReadString, SkipSpace, Spells;
    var k: nat, l: nat, m: nat :|
      Blank(text, a, k) && IsString(text, k, l, key, lim.maxString) && Blank(text, l, m) && At(text, m, 58) && Blank(text, m + 1, b);
    SkipExact(text, a, k);
    QuotedExact(text, lim.maxString, k, l, key);
    SkipExact(text, l, m);
    SkipExact(text, m + 1, b);
  }

  /** Spaces, and then a byte that can follow a value. */
  lemma EndsBefore(text: Text, y: nat, z: nat)
    requires Blank(text, y, z) && Ends(text, z)
    ensures Ends(text, y)
  {
  }

  lemma {:induction false} ValueExact(text: Text, lim: Limits, a: nat, b: nat, v: Value, nodes: nat, depth: nat, n: nat)
    requires IsValue(text, a, b, v, lim, depth, n) && nodes + n <= lim.maxNodes && Ends(text, b)
    ensures ParseValue(text, lim, a, nodes, depth) == Done(v, b, nodes + n)
    decreases b - a, 1
  {
    hide ParseScalar, ParseItems, ParseMembers, SkipSpace, Blank, IsItems, IsMembers, IsNumber, IsString, SetEach;
    match v
    case Array(items) => ArrayExact(text, lim, a, b, items, nodes, depth, n);
    case Object(members) => ObjectExact(text, lim, a, b, members, nodes, depth, n);
    case _ => ScalarExact(text, lim, a, b, v, depth, n, nodes + 1);
  }

  lemma {:induction false} ArrayExact(text: Text, lim: Limits, a: nat, b: nat, items: seq<Value>, nodes: nat, depth: nat, n: nat)
    requires IsValue(text, a, b, Array(items), lim, depth, n) && nodes + n <= lim.maxNodes && Ends(text, b)
    ensures ParseValue(text, lim, a, nodes, depth) == Done(Array(items), b, nodes + n)
    decreases b - a, 0
  {
    hide ParseScalar, ParseItems, ParseMembers, SkipSpace, IsItems, IsNumber, IsString;
    if items == [] {
      SkipExact(text, a + 1, b - 1);
    } else {
      var x, y, _, k := ItemsParts(text, a + 1, b - 1, items, lim, depth + 1, n - 1);
      FirstByteOf(text, x, y, items[0], lim, depth + 1, k);
      SkipExact(text, a + 1, x);
      ItemsAfterSpace(text, lim, a + 1, nodes + 1, depth, []);
      ItemsExact(text, lim, a + 1, b - 1, items, nodes + 1, depth, n - 1, []);
      assert [] + items == items;
    }
  }

  lemma {:induction false} ItemsExact(text: Text, lim: Limits, a: nat, b: nat, items: seq<Value>, nodes: nat, depth: nat, n: nat,
                                      acc: seq<Value>)
    requires IsItems(text, a, b, items, lim, depth + 1, n) && nodes + n <= lim.maxNodes && At(text, b, RBRACKET)
    ensures a < b && ParseItems(text, lim, a, nodes, depth, acc) == Done(Array(acc + items), b + 1, nodes + n)
    decreases b - a, 2
  {
    hide ParseValue, SkipSpace, IsItems, IsValue, Blank;
    var x, y, z, k := ItemsParts(text, a, b, items, lim, depth + 1, n);
    FirstByteOf(text, x, y, items[0], lim, depth + 1, k);
    SkipExact(text, a, x);
    EndsBefore(text, y, z);
    ValueExact(text, lim, x, y, items[0], nodes, depth + 1, k);
    SkipExact(text, y, z);
    if |items| == 1 {
      assert items == [items[0]];
    } else {
      ItemsExact(text, lim, z + 1, b, items[1..], nodes + k, depth, n - k, acc + [items[0]]);
      assert acc + [items[0]] + items[1..] == acc + items;
    }
  }

  lemma {:induction false} ObjectExact(text: Text, lim: Limits, a: nat, b: nat, members: seq<Member>, nodes: nat, depth: nat, n: nat)
    requires IsValue(text, a, b, Object(members), lim, depth, n) && nodes + n <= lim.maxNodes && Ends(text, b)
    ensures ParseValue(text, lim, a, nodes, depth) == Done(Object(members), b, nodes + n)
    decreases b - a, 0
  {
    hide ParseScalar, ParseItems, ParseMembers, SkipSpace, IsMembers, IsNumber, IsString, SetEach, Blank;
    if members == [] && n == 1 && Blank(text, a + 1, b - 1) {
      SkipExact(text, a + 1, b - 1);
    } else {
      var ms: seq<Member> :| IsMembers(text, a + 1, b - 1, ms, lim, depth + 1, n - 1) && members == SetEach([], ms);
      var x, _, _, _ := MembersParts(text, a + 1, b - 1, ms, lim, depth + 1, n - 1);
      QuoteFirst(text, a + 1, x, ms[0].key, lim.maxString);
      MembersAfterSpace(text, lim, a + 1, nodes + 1, depth, []);
      MembersExact(text, lim, a + 1, b - 1, ms, nodes + 1, depth, n - 1, []);
    }
  }

  lemma QuoteFirst(text: Text, a: nat, b: nat, key: Text, max: nat)
    requires IsKey(text, a, b, key, max)
    ensures At(text, SkipSpace(text, a), QUOTE)
  {
    hide SkipSpace, Spells;
    var k: nat, l: nat, m: nat :|
      Blank(text, a, k) && IsString(text, k, l, key, max) && Blank(text, l, m) && At(text, m, 58) && Blank(text, m + 1, b);
    SkipExact(text, a, k);
  }

  lemma {:induction false} MembersExact(text: Text, lim: Limits, a: nat, b: nat, ms: seq<Member>, nodes: nat, depth: nat, n: nat,
                                        acc: seq<Member>)
    requires IsMembers(text, a, b, ms, lim, depth + 1, n) && nodes + n <= lim.maxNodes && At(text, b, RBRACE)
    ensures a < b && ParseMembers(text, lim, a, nodes, depth, acc) == Done(Object(SetEach(acc, ms)), b + 1, nodes + n)
    decreases b - a, 2
  {
    hide ParseKey, ParseValue, SkipSpace, IsMembers, IsValue, IsKey, Blank, Set;
    var x, y, z, k := MembersParts(text, a, b, ms, lim, depth + 1, n);
    FirstByteOf(text, x, y, ms[0].value, lim, depth + 1, k);
    KeyExact(text, lim, a, x, ms[0].key);
    EndsBefore(text, y, z);
    ValueExact(text, lim, x, y, ms[0].value, nodes, depth + 1, k);
    SkipExact(text, y, z);
    if |ms| == 1 {
      assert ms == [ms[0]];
      SetOne(acc, ms[0]);
    } else {
      MembersExact(text, lim, z + 1, b, ms[1..], nodes + k, depth, n - k, Set(acc, ms[0].key, ms[0].value));
    }
  }

  // ---- the main result ----------------------------------------------------------------------------------------

  lemma JsonIsAccepted(text: Text, lim: Limits, v: Value)
    requires IsJson(text, v, lim)
    ensures Parse(text, lim) == Got(v, |text|)
  {
    hide ParseValue, IsValue, SkipSpace, Blank;
    var a, b, n: nat :| n <= lim.maxNodes && Blank(text, 0, a) && IsValue(text, a, b, v, lim, 0, n) && Blank(text, b, |text|);
    FirstByteOf(text, a, b, v, lim, 0, n);
    SkipExact(text, 0, a);
    EndsBefore(text, b, |text|);
    ValueExact(text, lim, a, b, v, 0, 0, n);
    SkipExact(text, b, |text|);
  }

  /** The reader accepts the JSON texts within its bounds and no others, and gives each the one value it denotes. */
  lemma AcceptsExactlyJson(text: Text, lim: Limits, v: Value)
    ensures Parse(text, lim) == Got(v, |text|) <==> IsJson(text, v, lim)
    ensures Parse(text, lim).Refused? <==> forall w :: !IsJson(text, w, lim)
  {
    hide Parse, IsJson;
    if Parse(text, lim).Got? { OnlyJsonIsAccepted(text, lim); }
    forall w | IsJson(text, w, lim) ensures Parse(text, lim) == Got(w, |text|) { JsonIsAccepted(text, lim, w); }
  }
}
