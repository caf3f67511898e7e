/** What the writer produced, the reader reads back: exactly when the value is within the reader's bounds, and with small
    unsigned integers read as signed ones. */
module JsonRoundTrip {
  import opened Bytes
  import opened Json

  // ---- the value that comes back, and the bounds --------------------------------------------------------------

  /** Integers have one form, and members with the same key are merged. */
  function Norm(v: Value): Value
    decreases v
  {
    match v
    case UInt(u) => if u <= INT64_MAX then Int(u) else UInt(u)
    case Array(items) => Array(NormItems(items))
    case Object(members) => Object(NormMembers([], members))
    case _ => v
  }

  function NormItems(items: seq<Value>): seq<Value>
    decreases items
  {
    if items == [] then [] else [Norm(items[0])] + NormItems(items[1..])
  }

  function NormMembers(acc: seq<Member>, members: seq<Member>): seq<Member>
    decreases members
  {
    if members == [] then acc else NormMembers(Set(acc, members[0].key, Norm(members[0].value)), members[1..])
  }

  /** The integers fit their C++ types, and there are no reals. */
  predicate Representable(v: Value)
    decreases v
  {
    match v
    case Int(i) => INT64_MIN <= i <= INT64_MAX
    case UInt(u) => u <= UINT64_MAX
    case Real(_) => false
    case Array(items) => forall i :: 0 <= i < |items| ==> Representable(items[i])
    case Object(members) => forall i :: 0 <= i < |members| ==> Representable(members[i].value)
    case _ => true
  }

  function Nodes(v: Value): (n: nat)
    ensures n > 0
    decreases v
  {
    match v
    case Array(items) => 1 + NodesOfItems(items)
    case Object(members) => 1 + NodesOfMembers(members)
    case _ => 1
  }

  function NodesOfItems(items: seq<Value>): nat
    decreases items
  {
    if items == [] then 0 else Nodes(items[0]) + NodesOfItems(items[1..])
  }

  function NodesOfMembers(members: seq<Member>): nat
    decreases members
  {
    if members == [] then 0 else Nodes(members[0].value) + NodesOfMembers(members[1..])
  }

  predicate Plain(c: byte) { Escape(c) == [c] }

  /** No plain character of the string stands beyond the size bound, with `n` bytes before it. */
  predicate StringFits(s: Text, n: nat, max: nat)
    decreases |s|
  {
    s == [] || ((Plain(s[0]) ==> n + 1 <= max) && StringFits(s[1..], n + 1, max))
  }

  /** Every string and key fits, and no value is nested too deep. */
  predicate ShapeFits(v: Value, lim: Limits, depth: nat)
    decreases v
  {
    depth <= lim.maxDepth &&
    match v
    case Str(s) => StringFits(s, 0, lim.maxString)
    case Array(items) => ItemsFit(items, lim, depth)
    case Object(members) => MembersFit(members, lim, depth)
    case _ => true
  }

  predicate ItemsFit(items: seq<Value>, lim: Limits, depth: nat)
    decreases items
  {
    items == [] || (ShapeFits(items[0], lim, depth + 1) && ItemsFit(items[1..], lim, depth))
  }

  predicate MembersFit(members: seq<Member>, lim: Limits, depth: nat)
    decreases members
  {
    members == [] ||
    (StringFits(members[0].key, 0, lim.maxString) && ShapeFits(members[0].value, lim, depth + 1) &&
     MembersFit(members[1..], lim, depth))
  }

  // ---- text ---------------------------------------------------------------------------------------------------

  lemma StartsParts(text: Text, pos: nat, a: Text, b: Text)
    ensures Starts(text, pos, a + b) <==> Starts(text, pos, a) && Starts(text, pos + |a|, b)
  {
    if Starts(text, pos, a + b) {
      var p := text[pos..pos + |a + b|];
      assert p[..|a|] == a && p[|a|..] == b;
      assert text[pos..pos + |a|] == p[..|a|];
      assert text[pos + |a|..pos + |a| + |b|] == p[|a|..];
    }
  }

  lemma StartsOne(text: Text, pos: nat, c: byte)
    ensures Starts(text, pos, [c]) <==> At(text, pos, c)
  {
    if pos < |text| { assert text[pos..pos + 1] == [text[pos]]; }
  }

  lemma StartsAt(text: Text, pos: nat, word: Text, k: nat)
    requires Starts(text, pos, word) && k < |word|
    ensures At(text, pos + k, word[k])
  {
    assert text[pos..pos + |word|][k] == word[k];
  }

  // ---- strings ------------------------------------------------------------------------------------------------

  lemma ControlHex(text: Text, pos: nat, c: byte)
    requires c < 32 && Starts(text, pos, [48, 48, HexDigit(c / 16), HexDigit(c % 16)])
    ensures ReadHex4(text, pos) == Got(c, pos + 4)
  {
    var w := [48, 48, HexDigit(c / 16), HexDigit(c % 16)];
    StartsAt(text, pos, w, 0);
    StartsAt(text, pos, w, 1);
    StartsAt(text, pos, w, 2);
    StartsAt(text, pos, w, 3);
    DigitBack(c / 16);
    DigitBack(c % 16);
    assert c == (c / 16) * 16 + c % 16;
  }

  /** The escape of one byte reads back as that byte. */
  lemma EscapeBack(text: Text, pos: nat, c: byte)
    requires Starts(text, pos, Escape(c)) && !Plain(c)
    ensures At(text, pos, BACKSLASH) && ReadEscape(text, pos + 1) == Got([c], pos + |Escape(c)|)
  {
    StartsAt(text, pos, Escape(c), 0);
    StartsAt(text, pos, Escape(c), 1);
    if c < 32 && c != 8 && c != 9 && c != 10 && c != 12 && c != 13 {
      assert Escape(c) == [BACKSLASH, 117] + [48, 48, HexDigit(c / 16), HexDigit(c % 16)];
      StartsParts(text, pos, [BACKSLASH, 117], [48, 48, HexDigit(c / 16), HexDigit(c % 16)]);
      ControlHex(text, pos + 2, c);
    }
  }

  /** A quoted string of any bytes reads back, unless a plain character stands beyond the size bound. */
  lemma {:induction false} StringBack(text: Text, max: nat, pos: nat, acc: Text, s: Text)
    requires Starts(text, pos, EscapeAll(s) + [QUOTE])
    ensures ReadString(text, max, pos, acc) ==
            if StringFits(s, |acc|, max) then Got(acc + s, pos + |EscapeAll(s)| + 1) else Refused
    decreases |s|
  {
    hide Escape, ReadEscape;
    if s == [] {
      assert EscapeAll(s) + [QUOTE] == [QUOTE];
      StartsOne(text, pos, QUOTE);
      assert acc + s == acc;
    } else {
      var c, rest := s[0], EscapeAll(s[1..]) + [QUOTE];
      assert EscapeAll(s) + [QUOTE] == Escape(c) + rest;
      StartsParts(text, pos, Escape(c), rest);
      StringBack(text, max, pos + |Escape(c)|, acc + [c], s[1..]);
      assert acc + [c] + s[1..] == acc + s;
      if Plain(c) {
        StartsOne(text, pos, c);
        PlainBytes(c);
      } else {
        EscapeBack(text, pos, c);
      }
    }
  }

  lemma PlainBytes(c: byte)
    ensures Plain(c) <==> c >= 32 && c != QUOTE && c != BACKSLASH
  {
  }

  // ---- numbers ------------------------------------------------------------------------------------------------

  predicate AllDigits(t: Text) { forall c :: c in t ==> IsDigit(c) }

  lemma {:induction false} DigitsAreDigits(n: nat)
    ensures AllDigits(Digits(n)) && (Digits(n)[0] == ZERO <==> n == 0) && (Digits(n)[0] == ZERO ==> |Digits(n)| == 1)
    decreases n
  {
    if n >= 10 { DigitsAreDigits(n / 10); }
  }

  lemma {:induction false} DigitsValue(n: nat)
    requires AllDigits(Digits(n))
    ensures Magnitude(Digits(n)) == n
    decreases n
  {
    if n >= 10 {
      var d := Digits(n / 10);
      assert Digits(n)[..|Digits(n)| - 1] == d;
      DigitsAreDigits(n / 10);
      DigitsValue(n / 10);
    } else {
      assert Digits(n)[..0] == [];
    }
  }

  lemma {:induction false} SkipsDigits(text: Text, pos: nat, word: Text)
    requires Starts(text, pos, word) && AllDigits(word) && !DigitAt(text, pos + |word|)
    ensures SkipDigits(text, pos) == pos + |word|
    decreases |word|
  {
    if word != [] {
      assert word == [word[0]] + word[1..];
      StartsParts(text, pos, [word[0]], word[1..]);
      StartsOne(text, pos, word[0]);
      SkipsDigits(text, pos + 1, word[1..]);
    }
  }

  /** What may not follow an integer: anything that would make it a longer number. */
  predicate EndsNumber(text: Text, pos: nat) {
    pos < |text| ==> !IsDigit(text[pos]) && text[pos] != 46 && text[pos] != 101 && text[pos] != 69
  }

  lemma WholeBack(text: Text, pos: nat, n: nat)
    requires Starts(text, pos, Digits(n)) && EndsNumber(text, pos + |Digits(n)|)
    ensures SkipWhole(text, pos) == Got(true, pos + |Digits(n)|) && IsDigit(text[pos])
  {
    DigitsAreDigits(n);
    StartsAt(text, pos, Digits(n), 0);
    SkipsDigits(text, pos, Digits(n));
  }

  lemma NumberEnds(text: Text, end: nat)
    requires EndsNumber(text, end) && end <= |text|
    ensures SkipFraction(text, end) == Got(false, end) && SkipExponent(text, end) == Got(false, end)
  {
  }

  lemma ReadsWhole(text: Text, finite: Text -> bool, pos: nat, end: nat)
    requires pos <= end <= |text| && EndsNumber(text, end)
    requires SkipWhole(text, if At(text, pos, MINUS) then pos + 1 else pos) == Got(true, end)
    ensures ReadNumber(text, finite, pos) ==
            match NumberValue(text[pos..end], true, finite) case Refused => Refused case Got(v, _) => Got(v, end)
  {
    hide SkipWhole, SkipFraction, SkipExponent, NumberValue;
    NumberEnds(text, end);
  }

  lemma IntegerToken(i: int, finite: Text -> bool)
    requires INT64_MIN <= i <= UINT64_MAX
    ensures NumberValue(Decimal(i), true, finite) == Got(if i <= INT64_MAX then Int(i) else UInt(i), 0)
  {
    hide Decimal, IsIntegral, IntegralValue;
    DecimalValue(i);
  }

  /** The digits of an integer, after its sign if it has one. */
  lemma SignBack(text: Text, pos: nat, i: int)
    requires Starts(text, pos, Decimal(i)) && EndsNumber(text, pos + |Decimal(i)|)
    ensures SkipWhole(text, if At(text, pos, MINUS) then pos + 1 else pos) == Got(true, pos + |Decimal(i)|)
  {
    hide SkipWhole, Digits, Starts;
    if i < 0 {
      StartsParts(text, pos, [MINUS], Digits(-i));
      StartsOne(text, pos, MINUS);
      WholeBack(text, pos + 1, -i);
    } else {
      WholeBack(text, pos, i);
    }
  }

  lemma {:induction false} IntegerBack(text: Text, finite: Text -> bool, pos: nat, i: int)
    requires Starts(text, pos, Decimal(i)) && EndsNumber(text, pos + |Decimal(i)|) && pos <= |text|
    requires INT64_MIN <= i <= UINT64_MAX
    ensures ReadNumber(text, finite, pos) == Got(if i <= INT64_MAX then Int(i) else UInt(i), pos + |Decimal(i)|)
  {
    hide SkipWhole, ReadNumber, Decimal, NumberValue, EndsNumber;
    SignBack(text, pos, i);
    var end := pos + |Decimal(i)|;
    assert text[pos..end] == Decimal(i);
    ReadsWhole(text, finite, pos, end);
    IntegerToken(i, finite);
  }

  lemma DecimalValue(i: int)
    ensures IsIntegral(Decimal(i)) && IntegralValue(Decimal(i)) == i
  {
    var n: nat := if i < 0 then -i else i;
    DigitsAreDigits(n);
    DigitsValue(n);
    if i < 0 {
      assert Decimal(i)[1..] == Digits(n);
    } else {
      assert Decimal(i)[0] in Decimal(i);
    }
  }

  // ---- space --------------------------------------------------------------------------------------------------

  lemma {:induction false} SkipsSpaces(text: Text, pos: nat, gap: Text)
    requires Starts(text, pos, gap) && forall c :: c in gap ==> IsSpace(c)
    ensures SkipSpace(text, pos) == SkipSpace(text, pos + |gap|)
    decreases |gap|
  {
    if gap != [] {
      assert gap == [gap[0]] + gap[1..];
      StartsParts(text, pos, [gap[0]], gap[1..]);
      StartsOne(text, pos, gap[0]);
      SkipsSpaces(text, pos + 1, gap[1..]);
    }
  }

  lemma SkipsGap(text: Text, pos: nat, indent: nat, depth: nat)
    requires Starts(text, pos, Gap(indent, depth)) && pos + |Gap(indent, depth)| < |text|
    requires !IsSpace(text[pos + |Gap(indent, depth)|])
    ensures SkipSpace(text, pos) == pos + |Gap(indent, depth)|
  {
    SkipsSpaces(text, pos, Gap(indent, depth));
  }

  // ---- values -------------------------------------------------------------------------------------------------

  /** A value is written starting with a character that is neither space nor a closing bracket. */
  lemma FirstByte(v: Value, indent: nat, depth: nat)
    requires Representable(v)
    ensures var t := Dump(v, indent, depth);
            t != [] && !IsSpace(t[0]) && t[0] != RBRACKET && t[0] != RBRACE && t[0] != COMMA
  {
    hide DumpItems, DumpMembers, EscapeAll;
    match v
    case Int(i) => DigitsAreDigits(if i < 0 then -i else i); assert Digits(if i < 0 then -i else i)[0] in Digits(if i < 0 then -i else i);
    case UInt(u) => DigitsAreDigits(u); assert Digits(u)[0] in Digits(u);
    case _ =>
  }

  lemma WordBack(text: Text, lim: Limits, pos: nat, nodes: nat, v: Value, indent: nat, depth: nat)
    requires v.Null? || v.Bool?
    requires Starts(text, pos, Dump(v, indent, depth)) && pos < |text|
    ensures ParseScalar(text, lim, pos, nodes) == Done(v, pos + |Dump(v, indent, depth)|, nodes)
    ensures text[pos] != LBRACE && text[pos] != LBRACKET
  {
    StartsAt(text, pos, Dump(v, indent, depth), 0);
  }

  lemma NumberBack(text: Text, lim: Limits, pos: nat, nodes: nat, i: int)
    requires INT64_MIN <= i <= UINT64_MAX
    requires Starts(text, pos, Decimal(i)) && pos < |text| && EndsNumber(text, pos + |Decimal(i)|)
    ensures ParseScalar(text, lim, pos, nodes) ==
            Done(if i <= INT64_MAX then Int(i) else UInt(i), pos + |Decimal(i)|, nodes)
    ensures text[pos] != LBRACE && text[pos] != LBRACKET
  {
    hide ReadNumber;
    IntegerBack(text, lim.finite, pos, i);
    StartsAt(text, pos, Decimal(i), 0);
    var n: nat := if i < 0 then -i else i;
    DigitsAreDigits(n);
    assert Digits(n)[0] in Digits(n);
  }

  lemma TextBack(text: Text, lim: Limits, pos: nat, nodes: nat, s: Text)
    requires Starts(text, pos, Quoted(s)) && pos < |text|
    ensures ParseScalar(text, lim, pos, nodes) ==
            if StringFits(s, 0, lim.maxString) then Done(Str(s), pos + |Quoted(s)|, nodes) else Failed
    ensures At(text, pos, QUOTE)
  {
    hide EscapeAll, ReadString;
    StartsParts(text, pos, [QUOTE], EscapeAll(s) + [QUOTE]);
    StartsOne(text, pos, QUOTE);
    StringBack(text, lim.maxString, pos + 1, [], s);
    assert [] + s == s;
  }

  lemma ScalarBack(v: Value, text: Text, lim: Limits, pos: nat, nodes: nat, indent: nat, depth: nat)
    requires Representable(v) && !v.Array? && !v.Object?
    requires Starts(text, pos, Dump(v, indent, depth)) && pos < |text| && EndsNumber(text, pos + |Dump(v, indent, depth)|)
    ensures ParseScalar(text, lim, pos, nodes) ==
            if v.Str? && !StringFits(v.s, 0, lim.maxString) then Failed
            else Done(Norm(v), pos + |Dump(v, indent, depth)|, nodes)
    ensures text[pos] != LBRACE && text[pos] != LBRACKET
  {
    hide ParseScalar;
    match v
    case Int(i) => NumberBack(text, lim, pos, nodes, i);
    case UInt(u) => NumberBack(text, lim, pos, nodes, u);
    case Str(s) => TextBack(text, lim, pos, nodes, s);
    case _ => WordBack(text, lim, pos, nodes, v, indent, depth);
  }

  lemma NoSpace(text: Text, pos: nat, c: byte)
    requires At(text, pos, c) && !IsSpace(c)
    ensures SkipSpace(text, pos) == pos
  {
  }

  lemma {:induction false} SkipTwice(text: Text, pos: nat)
    requires pos <= |text|
    ensures SkipSpace(text, SkipSpace(text, pos)) == SkipSpace(text, pos)
    decreases |text| - pos
  {
    if pos < |text| && IsSpace(text[pos]) { SkipTwice(text, pos + 1); }
  }

  /** The element loop starts with skipping space, so it does not matter whether some was skipped before. */
  lemma ItemsAfterSpace(text: Text, lim: Limits, pos: nat, nodes: nat, depth: nat, acc: seq<Value>)
    requires pos <= |text|
    ensures ParseItems(text, lim, SkipSpace(text, pos), nodes, depth, acc) == ParseItems(text, lim, pos, nodes, depth, acc)
  {
    hide ParseValue;
    SkipTwice(text, pos);
  }

  lemma MembersAfterSpace(text: Text, lim: Limits, pos: nat, nodes: nat, depth: nat, acc: seq<Member>)
    requires pos <= |text|
    ensures ParseMembers(text, lim, SkipSpace(text, pos), nodes, depth, acc) == ParseMembers(text, lim, pos, nodes, depth, acc)
  {
    hide ParseValue, ReadString, SkipSpace, Set;
    SkipTwice(text, pos);
  }

  /** What follows an element or a member value. */
  function ItemsTail(items: seq<Value>, indent: nat, depth: nat): Text
    requires items != []
  {
    if |items| == 1 then Gap(indent, depth) + [RBRACKET] else [COMMA] + DumpItems(items[1..], indent, depth)
  }

  function MembersTail(members: seq<Member>, indent: nat, depth: nat): Text
    requires members != []
  {
    if |members| == 1 then Gap(indent, depth) + [RBRACE] else [COMMA] + DumpMembers(members[1..], indent, depth)
  }

  /** A closing gap and bracket: space, then the bracket. */
  lemma ClosingBack(text: Text, pos: nat, indent: nat, depth: nat, c: byte)
    requires Starts(text, pos, Gap(indent, depth) + [c]) && !IsSpace(c)
    requires !IsDigit(c) && c != 46 && c != 101 && c != 69
    ensures pos < |text| && EndsNumber(text, pos)
    ensures SkipSpace(text, pos) == pos + |Gap(indent, depth)| && At(text, pos + |Gap(indent, depth)|, c)
  {
    StartsParts(text, pos, Gap(indent, depth), [c]);
    StartsOne(text, pos + |Gap(indent, depth)|, c);
    SkipsGap(text, pos, indent, depth);
    if indent > 0 { StartsAt(text, pos, Gap(indent, depth), 0); }
  }

  lemma CommaBack(text: Text, pos: nat, rest: Text)
    requires Starts(text, pos, [COMMA] + rest)
    ensures pos < |text| && EndsNumber(text, pos) && SkipSpace(text, pos) == pos && At(text, pos, COMMA)
    ensures Starts(text, pos + 1, rest)
  {
    StartsParts(text, pos, [COMMA], rest);
    StartsOne(text, pos, COMMA);
  }

  /** The gap before a value, and where the value starts. */
  lemma ValueStart(text: Text, pos: nat, indent: nat, depth: nat, v: Value, rest: Text)
    requires Representable(v) && Starts(text, pos, Gap(indent, depth) + (Dump(v, indent, depth) + rest))
    ensures var p := pos + |Gap(indent, depth)|;
            pos <= |text| && p < |text| && SkipSpace(text, pos) == p && Starts(text, p, Dump(v, indent, depth)) &&
            Starts(text, p + |Dump(v, indent, depth)|, rest)
  {
    hide Dump;
    var t := Dump(v, indent, depth);
    FirstByte(v, indent, depth);
    StartsParts(text, pos, Gap(indent, depth), t + rest);
    StartsParts(text, pos + |Gap(indent, depth)|, t, rest);
    StartsAt(text, pos + |Gap(indent, depth)|, t, 0);
    SkipsGap(text, pos, indent, depth);
  }

  predicate Fits(v: Value, lim: Limits, nodes: nat, depth: nat) {
    ShapeFits(v, lim, depth) && nodes + Nodes(v) <= lim.maxNodes
  }

  lemma ArrayStart(items: seq<Value>, text: Text, pos: nat, depth: nat, indent: nat)
    requires items != [] && Representable(Array(items))
    requires Starts(text, pos, DumpItems(items, indent, depth))
    ensures pos <= |text|
    ensures var p := SkipSpace(text, pos); !At(text, p, RBRACKET)
    ensures Starts(text, pos, Gap(indent, depth + 1) + (Dump(items[0], indent, depth + 1) + ItemsTail(items, indent, depth)))
  {
    hide Dump;
    ValueStart(text, pos, indent, depth + 1, items[0], ItemsTail(items, indent, depth));
    FirstByte(items[0], indent, depth + 1);
    StartsAt(text, SkipSpace(text, pos), Dump(items[0], indent, depth + 1), 0);
  }

  /** A written value reads back, exactly when it fits. */
  lemma {:induction false} ValueBack(v: Value, text: Text, lim: Limits, pos: nat, nodes: nat, depth: nat, indent: nat)
    requires Representable(v) && pos < |text| && Starts(text, pos, Dump(v, indent, depth))
    requires EndsNumber(text, pos + |Dump(v, indent, depth)|)
    ensures ParseValue(text, lim, pos, nodes, depth) ==
            if Fits(v, lim, nodes, depth) then Done(Norm(v), pos + |Dump(v, indent, depth)|, nodes + Nodes(v)) else Failed
    decreases v
  {
    hide ParseScalar, ParseItems, ParseMembers, DumpItems, DumpMembers;
    match v
    case Array(items) => ArrayBack(items, text, lim, pos, nodes, depth, indent);
    case Object(members) => ObjectBack(members, text, lim, pos, nodes, depth, indent);
    case Real(_) => assert false;
    case _ => ScalarBack(v, text, lim, pos, nodes + 1, indent, depth);
  }

  lemma {:induction false} ArrayBack(items: seq<Value>, text: Text, lim: Limits, pos: nat, nodes: nat, depth: nat, indent: nat)
    requires Representable(Array(items)) && pos < |text| && Starts(text, pos, Dump(Array(items), indent, depth))
    ensures ParseValue(text, lim, pos, nodes, depth) ==
            if Fits(Array(items), lim, nodes, depth)
            then Done(Norm(Array(items)), pos + |Dump(Array(items), indent, depth)|, nodes + Nodes(Array(items))) else Failed
    decreases items, 1
  {
    hide ParseScalar, ParseItems, ParseMembers, DumpItems, DumpMembers, NormItems, NodesOfItems, ItemsFit;
    var body := if items == [] then [RBRACKET] else DumpItems(items, indent, depth);
    StartsParts(text, pos, [LBRACKET], body);
    StartsOne(text, pos, LBRACKET);
    if items == [] {
      StartsOne(text, pos + 1, RBRACKET);
      EmptyItems(lim, depth);
    } else {
      ArrayStart(items, text, pos + 1, depth, indent);
      ItemsAfterSpace(text, lim, pos + 1, nodes + 1, depth, []);
      ItemsBack(items, text, lim, pos + 1, nodes + 1, depth, indent, []);
      assert [] + NormItems(items) == NormItems(items);
    }
  }

  lemma EmptyItems(lim: Limits, depth: nat)
    ensures NormItems([]) == [] && NodesOfItems([]) == 0 && ItemsFit([], lim, depth)
    ensures NormMembers([], []) == [] && NodesOfMembers([]) == 0 && MembersFit([], lim, depth)
  {
  }

  /** One round of the element loop, for each way it can go on. */
  lemma ItemRefused(text: Text, lim: Limits, pos: nat, nodes: nat, depth: nat, acc: seq<Value>)
    requires pos <= |text| && ParseValue(text, lim, SkipSpace(text, pos), nodes, depth + 1).Failed?
    ensures ParseItems(text, lim, pos, nodes, depth, acc) == Failed
  {
    hide ParseValue, SkipSpace;
  }

  lemma ItemLast(text: Text, lim: Limits, pos: nat, nodes: nat, depth: nat, acc: seq<Value>, v: Value, next: nat, count: nat)
    requires pos <= |text| && next <= |text|
    requires ParseValue(text, lim, SkipSpace(text, pos), nodes, depth + 1) == Done(v, next, count)
    requires At(text, SkipSpace(text, next), RBRACKET)
    ensures ParseItems(text, lim, pos, nodes, depth, acc) == Done(Array(acc + [v]), SkipSpace(text, next) + 1, count)
  {
    hide ParseValue, SkipSpace;
  }

  lemma ItemMore(text: Text, lim: Limits, pos: nat, nodes: nat, depth: nat, acc: seq<Value>, v: Value, next: nat, count: nat)
    requires pos <= |text| && next <= |text|
    requires ParseValue(text, lim, SkipSpace(text, pos), nodes, depth + 1) == Done(v, next, count)
    requires SkipSpace(text, next) == next && At(text, next, COMMA)
    ensures ParseItems(text, lim, pos, nodes, depth, acc) == ParseItems(text, lim, next + 1, count, depth, acc + [v])
  {
    hide ParseValue, SkipSpace;
  }

  /** The list functions, unfolded once. */
  lemma ItemsUnfold(items: seq<Value>, lim: Limits, depth: nat, indent: nat)
    requires items != []
    ensures DumpItems(items, indent, depth) ==
            Gap(indent, depth + 1) + (Dump(items[0], indent, depth + 1) + ItemsTail(items, indent, depth))
    ensures NormItems(items) == [Norm(items[0])] + NormItems(items[1..])
    ensures NodesOfItems(items) == Nodes(items[0]) + NodesOfItems(items[1..])
    ensures ItemsFit(items, lim, depth) <==> ShapeFits(items[0], lim, depth + 1) && ItemsFit(items[1..], lim, depth)
  {
    hide Dump, ShapeFits, Nodes, Norm, Gap;
  }

  /** What the element loop is to return for these elements. */
  function ItemsRead(items: seq<Value>, lim: Limits, pos: nat, nodes: nat, depth: nat, indent: nat, acc: seq<Value>): Parsed<Value>
    requires items != []
  {
    if ItemsFit(items, lim, depth) && nodes + NodesOfItems(items) <= lim.maxNodes
    then Done(Array(acc + NormItems(items)), pos + |DumpItems(items, indent, depth)|, nodes + NodesOfItems(items))
    else Failed
  }

  lemma ItemsReadLast(items: seq<Value>, lim: Limits, pos: nat, nodes: nat, depth: nat, indent: nat, acc: seq<Value>)
    requires |items| == 1
    ensures var v := items[0];
            var end := pos + |Gap(indent, depth + 1)| + |Dump(v, indent, depth + 1)| + |Gap(indent, depth)| + 1;
            ItemsRead(items, lim, pos, nodes, depth, indent, acc) ==
            if Fits(v, lim, nodes, depth + 1) then Done(Array(acc + [Norm(v)]), end, nodes + Nodes(v)) else Failed
  {
    hide Dump, DumpItems, ShapeFits, Nodes, Norm, Gap, NormItems, NodesOfItems, ItemsFit;
    ItemsUnfold(items, lim, depth, indent);
    assert items[1..] == [];
    EmptyItems(lim, depth);
    assert acc + ([Norm(items[0])] + []) == acc + [Norm(items[0])];
  }

  lemma ItemsReadMore(items: seq<Value>, lim: Limits, pos: nat, nodes: nat, depth: nat, indent: nat, acc: seq<Value>)
    requires |items| > 1
    ensures var v := items[0];
            var next := pos + |Gap(indent, depth + 1)| + |Dump(v, indent, depth + 1)|;
            ItemsRead(items, lim, pos, nodes, depth, indent, acc) ==
            if Fits(v, lim, nodes, depth + 1)
            then ItemsRead(items[1..], lim, next + 1, nodes + Nodes(v), depth, indent, acc + [Norm(v)]) else Failed
  {
    hide Dump, DumpItems, ShapeFits, Nodes, Norm, Gap, NormItems, NodesOfItems, ItemsFit;
    ItemsUnfold(items, lim, depth, indent);
    assert acc + [Norm(items[0])] + NormItems(items[1..]) == acc + ([Norm(items[0])] + NormItems(items[1..]));
  }

  lemma {:induction false} ItemsBack(items: seq<Value>, text: Text, lim: Limits, pos: nat, nodes: nat, depth: nat, indent: nat,
                                     acc: seq<Value>)
    requires items != [] && Representable(Array(items)) && pos <= |text| && Starts(text, pos, DumpItems(items, indent, depth))
    ensures ParseItems(text, lim, pos, nodes, depth, acc) == ItemsRead(items, lim, pos, nodes, depth, indent, acc)
    decreases items, 0
  {
    hide ParseValue, ParseItems, Dump, DumpItems, Fits, Nodes, Norm, Gap, ItemsRead, SkipSpace, Starts, Representable;
    var v, tail := items[0], ItemsTail(items, indent, depth);
    ArrayStart(items, text, pos, depth, indent);
    TailRepresentable(items);
    ValueStart(text, pos, indent, depth + 1, v, tail);
    var from := pos + |Gap(indent, depth + 1)|;
    var next := from + |Dump(v, indent, depth + 1)|;
    if |items| == 1 {
      ItemsReadLast(items, lim, pos, nodes, depth, indent, acc);
      ClosingBack(text, next, indent, depth, RBRACKET);
      ValueBack(v, text, lim, from, nodes, depth + 1, indent);
      if Fits(v, lim, nodes, depth + 1) { ItemLast(text, lim, pos, nodes, depth, acc, Norm(v), next, nodes + Nodes(v)); }
      else { ItemRefused(text, lim, pos, nodes, depth, acc); }
    } else {
      ItemsReadMore(items, lim, pos, nodes, depth, indent, acc);
      CommaBack(text, next, DumpItems(items[1..], indent, depth));
      ValueBack(v, text, lim, from, nodes, depth + 1, indent);
      if Fits(v, lim, nodes, depth + 1) {
        ItemMore(text, lim, pos, nodes, depth, acc, Norm(v), next, nodes + Nodes(v));
        ItemsBack(items[1..], text, lim, next + 1, nodes + Nodes(v), depth, indent, acc + [Norm(v)]);
      } else {
        ItemRefused(text, lim, pos, nodes, depth, acc);
      }
    }
  }

  lemma TailRepresentable(items: seq<Value>)
    requires Representable(Array(items)) && items != []
    ensures Representable(Array(items[1..])) && Representable(items[0])
  {
  }

  lemma MemberTailRepresentable(members: seq<Member>)
    requires Representable(Object(members)) && members != []
    ensures Representable(Object(members[1..])) && Representable(members[0].value)
  {
  }

  lemma {:induction false} ObjectBack(members: seq<Member>, text: Text, lim: Limits, pos: nat, nodes: nat, depth: nat, indent: nat)
    requires Representable(Object(members)) && pos < |text| && Starts(text, pos, Dump(Object(members), indent, depth))
    ensures ParseValue(text, lim, pos, nodes, depth) ==
            if Fits(Object(members), lim, nodes, depth)
            then Done(Norm(Object(members)), pos + |Dump(Object(members), indent, depth)|, nodes + Nodes(Object(members)))
            else Failed
    decreases members, 1
  {
    hide ParseScalar, ParseItems, ParseMembers, DumpItems, DumpMembers, NormMembers, NodesOfMembers, MembersFit;
    var body := if members == [] then [RBRACE] else DumpMembers(members, indent, depth);
    StartsParts(text, pos, [LBRACE], body);
    StartsOne(text, pos, LBRACE);
    if members == [] {
      StartsOne(text, pos + 1, RBRACE);
      EmptyItems(lim, depth);
    } else {
      MemberStart(members, text, lim, pos + 1, depth, indent);
      MembersAfterSpace(text, lim, pos + 1, nodes + 1, depth, []);
      MembersBack(members, text, lim, pos + 1, nodes + 1, depth, indent, []);
    }
  }

  /** The value of the first member starts here. */
  function ValueAt(members: seq<Member>, pos: nat, depth: nat, indent: nat): nat
    requires members != []
  {
    pos + |Gap(indent, depth + 1)| + |Quoted(members[0].key)| + 1 + |AfterColon(indent)|
  }

  lemma MembersUnfold(members: seq<Member>, lim: Limits, depth: nat, indent: nat, acc: seq<Member>)
    requires members != []
    ensures var m := members[0];
            DumpMembers(members, indent, depth) ==
            Gap(indent, depth + 1) + (Quoted(m.key) + ([COLON] + (AfterColon(indent) + (Dump(m.value, indent, depth + 1) +
            MembersTail(members, indent, depth)))))
    ensures NormMembers(acc, members) == NormMembers(Set(acc, members[0].key, Norm(members[0].value)), members[1..])
    ensures NodesOfMembers(members) == Nodes(members[0].value) + NodesOfMembers(members[1..])
    ensures MembersFit(members, lim, depth) <==>
            StringFits(members[0].key, 0, lim.maxString) && ShapeFits(members[0].value, lim, depth + 1) &&
            MembersFit(members[1..], lim, depth)
  {
    hide Dump, ShapeFits, Nodes, Norm, Gap, Quoted, StringFits, AfterColon, Set;
  }

  lemma KeyBack(text: Text, lim: Limits, pos: nat, indent: nat, depth: nat, key: Text, rest: Text)
    requires Starts(text, pos, Gap(indent, depth) + (Quoted(key) + rest))
    ensures var p := pos + |Gap(indent, depth)|;
            pos <= |text| && SkipSpace(text, pos) == p && At(text, p, QUOTE) &&
            Starts(text, p + |Quoted(key)|, rest) &&
            ReadString(text, lim.maxString, p + 1, []) ==
            if StringFits(key, 0, lim.maxString) then Got(key, p + |Quoted(key)|) else Refused
  {
    hide EscapeAll, ReadString, StringFits;
    var p := pos + |Gap(indent, depth)|;
    StartsParts(text, pos, Gap(indent, depth), Quoted(key) + rest);
    StartsParts(text, p, Quoted(key), rest);
    StartsParts(text, p, [QUOTE], EscapeAll(key) + [QUOTE]);
    StartsOne(text, p, QUOTE);
    SkipsGap(text, pos, indent, depth);
    StringBack(text, lim.maxString, p + 1, [], key);
    assert [] + key == key;
  }

  /** The key of a written member reads back, and leads to its value. */
  lemma MemberStart(members: seq<Member>, text: Text, lim: Limits, pos: nat, depth: nat, indent: nat)
    requires members != [] && Representable(Object(members)) && Starts(text, pos, DumpMembers(members, indent, depth))
    ensures pos <= |text|
    ensures !At(text, SkipSpace(text, pos), RBRACE)
    ensures var from := ValueAt(members, pos, depth, indent);
            ParseKey(text, lim, pos) ==
            (if StringFits(members[0].key, 0, lim.maxString) then Got(members[0].key, from) else Refused) &&
            from < |text| && Starts(text, from, Dump(members[0].value, indent, depth + 1)) &&
            Starts(text, from + |Dump(members[0].value, indent, depth + 1)|, MembersTail(members, indent, depth))
  {
    hide Dump, DumpMembers, ReadString, Gap, Quoted, AfterColon, Starts, StringFits, SkipSpace, MembersTail;
    var m := members[0];
    var tail := MembersTail(members, indent, depth);
    var t := Dump(m.value, indent, depth + 1);
    MembersUnfold(members, lim, depth, indent, []);
    MemberTailRepresentable(members);
    KeyBack(text, lim, pos, indent, depth + 1, m.key, [COLON] + (AfterColon(indent) + (t + tail)));
    ColonBack(text, pos + |Gap(indent, depth + 1)| + |Quoted(m.key)|, indent, depth, m.value, tail);
  }

  lemma ColonBack(text: Text, pos: nat, indent: nat, depth: nat, v: Value, tail: Text)
    requires Representable(v)
    requires Starts(text, pos, [COLON] + (AfterColon(indent) + (Dump(v, indent, depth + 1) + tail)))
    ensures var from := pos + 1 + |AfterColon(indent)|;
            At(text, pos, COLON) && SkipSpace(text, pos) == pos && SkipSpace(text, pos + 1) == from < |text| &&
            Starts(text, from, Dump(v, indent, depth + 1)) && Starts(text, from + |Dump(v, indent, depth + 1)|, tail)
  {
    hide Dump, Starts, SkipSpace;
    var t := Dump(v, indent, depth + 1);
    StartsParts(text, pos, [COLON], AfterColon(indent) + (t + tail));
    StartsOne(text, pos, COLON);
    NoSpace(text, pos, COLON);
    StartsParts(text, pos + 1, AfterColon(indent), t + tail);
    StartsParts(text, pos + 1 + |AfterColon(indent)|, t, tail);
    FirstByte(v, indent, depth + 1);
    StartsAt(text, pos + 1 + |AfterColon(indent)|, t, 0);
    SkipsSpaces(text, pos + 1, AfterColon(indent));
    NoSpace(text, pos + 1 + |AfterColon(indent)|, t[0]);
  }

  /** One round of the member loop, for each way it can go on. */
  lemma MemberRefused(text: Text, lim: Limits, pos: nat, nodes: nat, depth: nat, acc: seq<Member>)
    requires pos <= |text|
    requires var k := ParseKey(text, lim, pos);
             k.Refused? || ParseValue(text, lim, k.pos, nodes, depth + 1).Failed?
    ensures ParseMembers(text, lim, pos, nodes, depth, acc) == Failed
  {
    hide ParseValue, ParseKey;
  }

  lemma MemberLast(text: Text, lim: Limits, pos: nat, nodes: nat, depth: nat, acc: seq<Member>, key: Text, from: nat, v: Value,
                   next: nat, count: nat)
    requires pos <= |text| && next <= |text| && from <= |text| && ParseKey(text, lim, pos) == Got(key, from)
    requires ParseValue(text, lim, from, nodes, depth + 1) == Done(v, next, count)
    requires At(text, SkipSpace(text, next), RBRACE)
    ensures ParseMembers(text, lim, pos, nodes, depth, acc) == Done(Object(Set(acc, key, v)), SkipSpace(text, next) + 1, count)
  {
    hide ParseValue, ParseKey, SkipSpace, Set;
  }

  lemma MemberMore(text: Text, lim: Limits, pos: nat, nodes: nat, depth: nat, acc: seq<Member>, key: Text, from: nat, v: Value,
                   next: nat, count: nat)
    requires pos <= |text| && next <= |text| && from <= |text| && ParseKey(text, lim, pos) == Got(key, from)
    requires ParseValue(text, lim, from, nodes, depth + 1) == Done(v, next, count)
    requires SkipSpace(text, next) == next && At(text, next, COMMA)
    ensures ParseMembers(text, lim, pos, nodes, depth, acc) ==
            ParseMembers(text, lim, next + 1, count, depth, Set(acc, key, v))
  {
    hide ParseValue, ParseKey, SkipSpace, Set;
  }

  /** What the member loop is to return for these members. */
  function MembersRead(members: seq<Member>, lim: Limits, pos: nat, nodes: nat, depth: nat, indent: nat, acc: seq<Member>):
      Parsed<Value>
    requires members != []
  {
    if MembersFit(members, lim, depth) && nodes + NodesOfMembers(members) <= lim.maxNodes
    then Done(Object(NormMembers(acc, members)), pos + |DumpMembers(members, indent, depth)|, nodes + NodesOfMembers(members))
    else Failed
  }

  predicate MemberFits(m: Member, lim: Limits, nodes: nat, depth: nat) {
    StringFits(m.key, 0, lim.maxString) && Fits(m.value, lim, nodes, depth)
  }

  lemma MembersReadLast(members: seq<Member>, lim: Limits, pos: nat, nodes: nat, depth: nat, indent: nat, acc: seq<Member>)
    requires |members| == 1
    ensures var m := members[0];
            var end := ValueAt(members, pos, depth, indent) + |Dump(m.value, indent, depth + 1)| + |Gap(indent, depth)| + 1;
            MembersRead(members, lim, pos, nodes, depth, indent, acc) ==
            if MemberFits(m, lim, nodes, depth + 1) then Done(Object(Set(acc, m.key, Norm(m.value))), end, nodes + Nodes(m.value))
            else Failed
  {
    hide Dump, DumpMembers, ShapeFits, Nodes, Norm, Gap, NormMembers, NodesOfMembers, MembersFit, StringFits, Set, Quoted, AfterColon;
    MembersUnfold(members, lim, depth, indent, acc);
    assert members[1..] == [];
    EmptyMembers(lim, depth, Set(acc, members[0].key, Norm(members[0].value)));
  }

  lemma MembersReadMore(members: seq<Member>, lim: Limits, pos: nat, nodes: nat, depth: nat, indent: nat, acc: seq<Member>)
    requires |members| > 1
    ensures var m := members[0];
            var next := ValueAt(members, pos, depth, indent) + |Dump(m.value, indent, depth + 1)|;
            MembersRead(members, lim, pos, nodes, depth, indent, acc) ==
            if MemberFits(m, lim, nodes, depth + 1)
            then MembersRead(members[1..], lim, next + 1, nodes + Nodes(m.value), depth, indent, Set(acc, m.key, Norm(m.value)))
            else Failed
  {
    hide Dump, DumpMembers, ShapeFits, Nodes, Norm, Gap, NormMembers, NodesOfMembers, MembersFit, StringFits, Set, Quoted, AfterColon;
    MembersUnfold(members, lim, depth, indent, acc);
  }

  lemma {:induction false} MembersBack(members: seq<Member>, text: Text, lim: Limits, pos: nat, nodes: nat, depth: nat,
                                       indent: nat, acc: seq<Member>)
    requires members != [] && Representable(Object(members)) && pos <= |text|
    requires Starts(text, pos, DumpMembers(members, indent, depth))
    ensures ParseMembers(text, lim, pos, nodes, depth, acc) == MembersRead(members, lim, pos, nodes, depth, indent, acc)
    decreases members, 0
  {
    hide ParseValue, ParseKey, ParseMembers, Dump, DumpMembers, Fits, Nodes, Norm, Gap, StringFits, Set, MembersRead, ValueAt,
         SkipSpace, Starts, Representable;
    var m, tail := members[0], MembersTail(members, indent, depth);
    MemberStart(members, text, lim, pos, depth, indent);
    MemberTailRepresentable(members);
    var from := ValueAt(members, pos, depth, indent);
    var next := from + |Dump(m.value, indent, depth + 1)|;
    if |members| == 1 {
      ClosingBack(text, next, indent, depth, RBRACE);
      MembersReadLast(members, lim, pos, nodes, depth, indent, acc);
    } else {
      CommaBack(text, next, DumpMembers(members[1..], indent, depth));
      MembersReadMore(members, lim, pos, nodes, depth, indent, acc);
    }
    ValueBack(m.value, text, lim, from, nodes, depth + 1, indent);
    if MemberFits(m, lim, nodes, depth + 1) {
      if |members| == 1 {
        MemberLast(text, lim, pos, nodes, depth, acc, m.key, from, Norm(m.value), next, nodes + Nodes(m.value));
      } else {
        MemberMore(text, lim, pos, nodes, depth, acc, m.key, from, Norm(m.value), next, nodes + Nodes(m.value));
        MembersBack(members[1..], text, lim, next + 1, nodes + Nodes(m.value), depth, indent, Set(acc, m.key, Norm(m.value)));
      }
    } else {
      MemberRefused(text, lim, pos, nodes, depth, acc);
    }
  }

  lemma EmptyMembers(lim: Limits, depth: nat, acc: seq<Member>)
    ensures NormMembers(acc, []) == acc && NodesOfMembers([]) == 0 && MembersFit([], lim, depth)
  {
  }

  // ---- the result ---------------------------------------------------------------------------------------------

  /** Reading what was written gives the normalised value, exactly when it is within the reader's bounds. */
  lemma RoundTrip(v: Value, lim: Limits, indent: nat)
    requires Representable(v)
    ensures var t := Dump(v, indent, 0);
            Parse(t, lim) == if |t| <= lim.maxInput && Fits(v, lim, 0, 0) then Got(Norm(v), |t|) else Refused
  {
    hide Dump, Norm, ParseValue, ShapeFits;
    var t := Dump(v, indent, 0);
    FirstByte(v, indent, 0);
    assert t[0..0 + |t|] == t;
    ValueBack(v, t, lim, 0, 0, 0, indent);
  }
}
