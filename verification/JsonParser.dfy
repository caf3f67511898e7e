/** The reader and the writer as the program runs them: a parser object with a position and a node count, and a writer that
    appends to a buffer. */
module JsonParser {
  import opened Bytes
  import opened Json

  class Parser {
    const text: Text
    const lim: Limits
    var pos: nat
    var nodes: nat

    constructor (text: Text, lim: Limits)
      ensures this.text == text && this.lim == lim && pos == 0 && nodes == 0
    {
      this.text, this.lim, pos, nodes := text, lim, 0, 0;
    }

    method SkipWhitespace()
      requires pos <= |text|
      modifies this`pos
      ensures pos == SkipSpace(text, old(pos)) && pos <= |text|
    {
      while pos < |text| && IsSpace(text[pos])
        invariant pos <= |text| && SkipSpace(text, old(pos)) == SkipSpace(text, pos)
        decreases |text| - pos
      {
        pos := pos + 1;
      }
    }

    method CountNode() returns (ok: bool)
      modifies this`nodes
      ensures nodes == old(nodes) + 1 && ok == (nodes <= lim.maxNodes)
    {
      nodes := nodes + 1;
      ok := nodes <= lim.maxNodes;
    }

    /** Leaves the position after the four digits. */
    method ParseHex4() returns (ok: bool, value: nat)
      requires pos <= |text|
      modifies this`pos
      ensures pos <= |text| && (if ok then ReadHex4(text, old(pos)) == Got(value, pos) else ReadHex4(text, old(pos)).Refused?)
    {
      if pos + 4 > |text| { return false, 0; }
      value := 0;
      var i := 0;
      ghost var digits := [HexValue(text[pos]), HexValue(text[pos + 1]), HexValue(text[pos + 2]), HexValue(text[pos + 3])];
      while i < 4
        invariant 0 <= i <= 4
        invariant forall j :: 0 <= j < i ==> digits[j] >= 0
        invariant value == if i == 0 then 0 else if i == 1 then digits[0] else if i == 2 then digits[0] * 16 + digits[1]
                           else if i == 3 then (digits[0] * 16 + digits[1]) * 16 + digits[2]
                           else ((digits[0] * 16 + digits[1]) * 16 + digits[2]) * 16 + digits[3]
      {
        var digit := HexValue(text[pos + i]);
        assert digit == digits[i];
        if digit < 0 { return false, 0; }
        value := value * 16 + digit;
        i := i + 1;
      }
      pos := pos + 4;
      return true, value;
    }

    /** A `\\u` escape, its surrogate pair included, after the `u`. */
    method ParseCodePoint() returns (ok: bool, codePoint: nat)
      requires pos <= |text|
      modifies this`pos
      ensures pos <= |text|
      ensures if ok then ReadCodePoint(text, old(pos)) == Got(codePoint, pos) else ReadCodePoint(text, old(pos)).Refused?
    {
      hide ReadHex4;
      ok, codePoint := ParseHex4();
      if !ok { return; }
      if 0xD800 <= codePoint <= 0xDBFF {
        if pos + 1 < |text| && text[pos] == BACKSLASH && text[pos + 1] == 117 {
          pos := pos + 2;
          var low;
          ok, low := ParseHex4();
          if !ok { return; }
          if low < 0xDC00 || low > 0xDFFF { return false, 0; }
          codePoint := 0x1_0000 + (codePoint - 0xD800) * 0x400 + (low - 0xDC00);
        } else {
          return false, 0;
        }
      } else if 0xDC00 <= codePoint <= 0xDFFF {
        return false, 0;
      }
    }

    method ParseEscape() returns (ok: bool, bytes: Text)
      requires pos <= |text|
      modifies this`pos
      ensures pos <= |text|
      ensures if ok then ReadEscape(text, old(pos)) == Got(bytes, pos) else ReadEscape(text, old(pos)).Refused?
    {
      hide ReadCodePoint, Utf8;
      if pos >= |text| { return false, []; }
      var escape := text[pos];
      pos := pos + 1;
      if escape == QUOTE || escape == BACKSLASH || escape == 47 { return true, [escape]; }
      if escape == 98 { return true, [8]; }
      if escape == 102 { return true, [12]; }
      if escape == 110 { return true, [10]; }
      if escape == 114 { return true, [13]; }
      if escape == 116 { return true, [9]; }
      if escape == 117 {
        var codePoint;
        ok, codePoint := ParseCodePoint();
        if !ok { return false, []; }
        return true, Utf8(codePoint);
      }
      return false, [];
    }

    method ParseString() returns (ok: bool, s: Text)
      requires pos < |text| && text[pos] == QUOTE
      modifies this`pos
      ensures pos <= |text|
      ensures if ok then ReadString(text, lim.maxString, old(pos) + 1, []) == Got(s, pos)
              else ReadString(text, lim.maxString, old(pos) + 1, []).Refused?
    {
      hide ReadEscape;
      pos := pos + 1;
      s := [];
      while true
        invariant pos <= |text|
        invariant ReadString(text, lim.maxString, old(pos) + 1, []) == ReadString(text, lim.maxString, pos, s)
        decreases |text| - pos
      {
        if pos >= |text| { return false, []; }
        var c := text[pos];
        if c == QUOTE {
          pos := pos + 1;
          return true, s;
        }
        if c < 32 { return false, []; }
        if c == BACKSLASH {
          pos := pos + 1;
          ghost var from := pos;
          var bytes;
          ok, bytes := ParseEscape();
          if !ok { return false, []; }
          assert from < pos;
          s := s + bytes;
        } else {
          s := s + [c];
          pos := pos + 1;
          if |s| > lim.maxString { return false, []; }
        }
      }
    }

    method SkipDigitRun()
      requires pos <= |text|
      modifies this`pos
      ensures pos == SkipDigits(text, old(pos)) && pos <= |text|
    {
      while pos < |text| && IsDigit(text[pos])
        invariant pos <= |text| && SkipDigits(text, old(pos)) == SkipDigits(text, pos)
        decreases |text| - pos
      {
        pos := pos + 1;
      }
    }

    method ParseWhole() returns (ok: bool)
      requires pos <= |text|
      modifies this`pos
      ensures pos <= |text|
      ensures if ok then SkipWhole(text, old(pos)) == Got(true, pos) else SkipWhole(text, old(pos)).Refused?
    {
      if pos >= |text| || !IsDigit(text[pos]) { return false; }
      if text[pos] == ZERO {
        pos := pos + 1;
        return !(pos < |text| && IsDigit(text[pos]));
      }
      SkipDigitRun();
      return true;
    }

    method ParseFraction() returns (ok: bool, present: bool)
      requires pos <= |text|
      modifies this`pos
      ensures pos <= |text|
      ensures if ok then SkipFraction(text, old(pos)) == Got(present, pos) else SkipFraction(text, old(pos)).Refused?
    {
      hide SkipDigits;
      if pos >= |text| || text[pos] != 46 { return true, false; }
      pos := pos + 1;
      if pos >= |text| || !IsDigit(text[pos]) { return false, true; }
      SkipDigitRun();
      return true, true;
    }

    method ParseExponent() returns (ok: bool, present: bool)
      requires pos <= |text|
      modifies this`pos
      ensures pos <= |text|
      ensures if ok then SkipExponent(text, old(pos)) == Got(present, pos) else SkipExponent(text, old(pos)).Refused?
    {
      hide SkipDigits;
      if pos >= |text| || (text[pos] != 101 && text[pos] != 69) { return true, false; }
      pos := pos + 1;
      if pos < |text| && (text[pos] == 43 || text[pos] == MINUS) { pos := pos + 1; }
      if pos >= |text| || !IsDigit(text[pos]) { return false, true; }
      SkipDigitRun();
      return true, true;
    }

    method ParseNumber() returns (ok: bool, v: Value)
      requires pos <= |text|
      modifies this`pos
      ensures pos <= |text|
      ensures if ok then ReadNumber(text, lim.finite, old(pos)) == Got(v, pos)
              else ReadNumber(text, lim.finite, old(pos)).Refused?
    {
      hide NumberValue, SkipWhole, SkipFraction, SkipExponent;
      var start := pos;
      if pos < |text| && text[pos] == MINUS { pos := pos + 1; }
      ok := ParseWhole();
      if !ok { return false, Null; }
      var fraction, exponent;
      ok, fraction := ParseFraction();
      if !ok { return false, Null; }
      ok, exponent := ParseExponent();
      if !ok { return false, Null; }
      assert start <= pos;
      var read := NumberValue(text[start..pos], !fraction && !exponent, lim.finite);
      if read.Refused? { return false, Null; }
      return true, read.value;
    }

    method ParseLiteral() returns (ok: bool, v: Value)
      requires pos < |text|
      modifies this`pos
      ensures pos <= |text|
      ensures var r := ParseScalar(text, lim, old(pos), nodes);
              if ok then r == Done(v, pos, nodes) else r.Failed?
    {
      hide ReadString, ReadNumber, Starts;
      if text[pos] == QUOTE {
        var s;
        ok, s := ParseString();
        return ok, Str(s);
      }
      if text[pos] == TRUE_TEXT[0] {
        ok := StartsHere(TRUE_TEXT);
        if ok { pos := pos + 4; }
        return ok, Bool(true);
      }
      if text[pos] == FALSE_TEXT[0] {
        ok := StartsHere(FALSE_TEXT);
        if ok { pos := pos + 5; }
        return ok, Bool(false);
      }
      if text[pos] == NULL_TEXT[0] {
        ok := StartsHere(NULL_TEXT);
        if ok { pos := pos + 4; }
        return ok, Null;
      }
      ok, v := ParseNumber();
    }

    method StartsHere(word: Text) returns (ok: bool)
      ensures ok <==> Starts(text, pos, word)
      ensures ok ==> pos + |word| <= |text|
    {
      ok := pos + |word| <= |text| && text[pos..pos + |word|] == word;
    }

    /** `parse_value`. */
    method ParseAny(depth: nat) returns (ok: bool, v: Value)
      requires pos <= |text|
      modifies this
      ensures pos <= |text|
      ensures var r := ParseValue(text, lim, old(pos), old(nodes), depth);
              if ok then r == Done(v, pos, nodes) else r.Failed?
      decreases |text| - pos, 1
    {
      hide ParseItems, ParseMembers, ParseScalar, SkipSpace;
      if depth > lim.maxDepth { return false, Null; }
      if pos == |text| { return false, Null; }
      ok := CountNode();
      if !ok { return false, Null; }
      if text[pos] == LBRACE {
        ok, v := ParseObjectBody(depth);
      } else if text[pos] == LBRACKET {
        ok, v := ParseArrayBody(depth);
      } else {
        ok, v := ParseLiteral();
      }
    }

    method ParseArrayBody(depth: nat) returns (ok: bool, v: Value)
      requires pos < |text| && text[pos] == LBRACKET
      modifies this
      ensures pos <= |text|
      ensures var p := SkipSpace(text, old(pos) + 1);
              if At(text, p, RBRACKET) then ok && v == Array([]) && pos == p + 1 && nodes == old(nodes)
              else
                var r := ParseItems(text, lim, p, old(nodes), depth, []);
                if ok then r == Done(v, pos, nodes) else r.Failed?
      decreases |text| - pos, 0
    {
      hide ParseValue, SkipSpace;
      ghost var start := pos;
      pos := pos + 1;
      SkipWhitespace();
      if pos < |text| && text[pos] == RBRACKET {
        pos := pos + 1;
        return true, Array([]);
      }
      var items: seq<Value> := [];
      ghost var total := ParseItems(text, lim, pos, nodes, depth, []);
      while true
        invariant start < pos <= |text|
        invariant total == ParseItems(text, lim, pos, nodes, depth, items)
        decreases |text| - pos
      {
        SkipWhitespace();
        var element;
        ok, element := ParseAny(depth + 1);
        if !ok { return false, Null; }
        items := items + [element];
        SkipWhitespace();
        if pos >= |text| { return false, Null; }
        if text[pos] == COMMA {
          pos := pos + 1;
        } else if text[pos] == RBRACKET {
          pos := pos + 1;
          return true, Array(items);
        } else {
          return false, Null;
        }
      }
    }

    method ParseObjectBody(depth: nat) returns (ok: bool, v: Value)
      requires pos < |text| && text[pos] == LBRACE
      modifies this
      ensures pos <= |text|
      ensures var p := SkipSpace(text, old(pos) + 1);
              if At(text, p, RBRACE) then ok && v == Object([]) && pos == p + 1 && nodes == old(nodes)
              else
                var r := ParseMembers(text, lim, p, old(nodes), depth, []);
                if ok then r == Done(v, pos, nodes) else r.Failed?
      decreases |text| - pos, 0
    {
      hide ParseValue, SkipSpace, Set, ParseKey;
      ghost var start := pos;
      pos := pos + 1;
      SkipWhitespace();
      if pos < |text| && text[pos] == RBRACE {
        pos := pos + 1;
        return true, Object([]);
      }
      var members: seq<Member> := [];
      ghost var total := ParseMembers(text, lim, pos, nodes, depth, []);
      while true
        invariant start < pos <= |text|
        invariant total == ParseMembers(text, lim, pos, nodes, depth, members)
        decreases |text| - pos
      {
        var key;
        ok, key := ParseKeyAndColon();
        if !ok { return false, Null; }
        var value;
        ok, value := ParseAny(depth + 1);
        if !ok { return false, Null; }
        members := Set(members, key, value);
        SkipWhitespace();
        if pos >= |text| { return false, Null; }
        if text[pos] == COMMA {
          pos := pos + 1;
        } else if text[pos] == RBRACE {
          pos := pos + 1;
          return true, Object(members);
        } else {
          return false, Null;
        }
      }
    }

    method ParseKeyAndColon() returns (ok: bool, key: Text)
      requires pos <= |text|
      modifies this`pos
      ensures pos <= |text|
      ensures if ok then ParseKey(text, lim, old(pos)) == Got(key, pos) else ParseKey(text, lim, old(pos)).Refused?
    {
      hide ReadString, SkipSpace;
      SkipWhitespace();
      if pos >= |text| || text[pos] != QUOTE { return false, []; }
      ok, key := ParseString();
      if !ok { return false, []; }
      SkipWhitespace();
      if pos >= |text| || text[pos] != COLON { return false, []; }
      pos := pos + 1;
      SkipWhitespace();
    }

    method Run() returns (r: Read<Value>)
      requires pos == 0 && nodes == 0
      modifies this
      ensures r == Parse(text, lim)
    {
      hide ParseValue, SkipSpace;
      if |text| > lim.maxInput { return Refused; }
      SkipWhitespace();
      var ok, v := ParseAny(0);
      if !ok { return Refused; }
      SkipWhitespace();
      if pos != |text| { return Refused; }
      return Got(v, pos);
    }
  }

  // ---- the writer ---------------------------------------------------------------------------------------------

  /** `append_escaped`. */
  method AppendEscaped(out: Text, s: Text) returns (r: Text)
    ensures r == out + Quoted(s)
  {
    hide Escape;
    r := out + [QUOTE];
    assert s[0..] == s;
    for i := 0 to |s|
      invariant r + EscapeAll(s[i..]) == out + [QUOTE] + EscapeAll(s)
    {
      assert s[i..][0] == s[i] && s[i..][1..] == s[i + 1..];
      assert r + EscapeAll(s[i..]) == r + Escape(s[i]) + EscapeAll(s[i + 1..]);
      r := r + Escape(s[i]);
    }
    assert s[|s|..] == [] && r + [] == r;
    r := r + [QUOTE];
    assert out + [QUOTE] + EscapeAll(s) + [QUOTE] == out + Quoted(s);
  }

  /** `dump_into`. */
  method DumpInto(out: Text, v: Value, indent: nat, depth: nat) returns (r: Text)
    ensures r == out + Dump(v, indent, depth)
    decreases v, 1
  {
    hide Decimal, Digits, Quoted, DumpItems, DumpMembers;
    match v
    case Null => r := out + NULL_TEXT;
    case Bool(b) => r := out + (if b then TRUE_TEXT else FALSE_TEXT);
    case Int(i) => r := out + Decimal(i);
    case UInt(u) => r := out + Digits(u);
    case Real(token) => r := out + token;
    case Str(s) => r := AppendEscaped(out, s);
    case Array(items) => r := DumpArray(out, items, indent, depth);
    case Object(members) => r := DumpObject(out, members, indent, depth);
  }

  method DumpArray(out: Text, items: seq<Value>, indent: nat, depth: nat) returns (r: Text)
    ensures r == out + Dump(Array(items), indent, depth)
    decreases items, 0
  {
    hide Gap, Dump, DumpItems, ItemsRest;
    if items == [] {
      EmptyDumps(indent, depth);
      return out + [LBRACKET, RBRACKET];
    }
    r := out + [LBRACKET];
    ItemsBegin(out, items, indent, depth);
    for i := 0 to |items|
      invariant r + ItemsRest(items, i, indent, depth) == out + Dump(Array(items), indent, depth)
    {
      ItemsRound(items, i, indent, depth, r);
      r := r + (if i > 0 then [COMMA] else []);
      r := r + Gap(indent, depth + 1);
      r := DumpInto(r, items[i], indent, depth + 1);
    }
    ItemsEnd(items, indent, depth, r);
    r := r + Gap(indent, depth);
    r := r + [RBRACKET];
  }

  method DumpObject(out: Text, members: seq<Member>, indent: nat, depth: nat) returns (r: Text)
    ensures r == out + Dump(Object(members), indent, depth)
    decreases members, 0
  {
    hide Gap, Dump, DumpMembers, MembersRest, Quoted, AfterColon;
    if members == [] {
      EmptyDumps(indent, depth);
      return out + [LBRACE, RBRACE];
    }
    r := out + [LBRACE];
    MembersBegin(out, members, indent, depth);
    for i := 0 to |members|
      invariant r + MembersRest(members, i, indent, depth) == out + Dump(Object(members), indent, depth)
    {
      MembersRound(members, i, indent, depth, r);
      r := r + (if i > 0 then [COMMA] else []);
      r := r + Gap(indent, depth + 1);
      r := AppendEscaped(r, members[i].key);
      r := r + [COLON];
      r := r + AfterColon(indent);
      r := DumpInto(r, members[i].value, indent, depth + 1);
    }
    MembersEnd(members, indent, depth, r);
    r := r + Gap(indent, depth);
    r := r + [RBRACE];
  }

  lemma EmptyDumps(indent: nat, depth: nat)
    ensures Dump(Array([]), indent, depth) == [LBRACKET, RBRACKET] && Dump(Object([]), indent, depth) == [LBRACE, RBRACE]
  {
  }

  lemma ItemsBegin(out: Text, items: seq<Value>, indent: nat, depth: nat)
    requires items != []
    ensures out + [LBRACKET] + ItemsRest(items, 0, indent, depth) == out + Dump(Array(items), indent, depth)
  {
    hide DumpItems;
    assert items[0..] == items;
    assert out + ([LBRACKET] + DumpItems(items, indent, depth)) == out + [LBRACKET] + ([] + DumpItems(items, indent, depth));
  }

  lemma MembersBegin(out: Text, members: seq<Member>, indent: nat, depth: nat)
    requires members != []
    ensures out + [LBRACE] + MembersRest(members, 0, indent, depth) == out + Dump(Object(members), indent, depth)
  {
    hide DumpMembers;
    assert members[0..] == members;
    assert out + ([LBRACE] + DumpMembers(members, indent, depth)) == out + [LBRACE] + ([] + DumpMembers(members, indent, depth));
  }

  lemma ItemsEnd(items: seq<Value>, indent: nat, depth: nat, r: Text)
    requires items != []
    ensures r + ItemsRest(items, |items|, indent, depth) == r + Gap(indent, depth) + [RBRACKET]
  {
    hide Gap;
  }

  lemma MembersEnd(members: seq<Member>, indent: nat, depth: nat, r: Text)
    requires members != []
    ensures r + MembersRest(members, |members|, indent, depth) == r + Gap(indent, depth) + [RBRACE]
  {
    hide Gap;
  }

  /** What is still to be written once `i` elements are. */
  function ItemsRest(items: seq<Value>, i: nat, indent: nat, depth: nat): Text
    requires items != [] && i <= |items|
  {
    if i == |items| then Gap(indent, depth) + [RBRACKET]
    else (if i == 0 then [] else [COMMA]) + DumpItems(items[i..], indent, depth)
  }

  function MembersRest(members: seq<Member>, i: nat, indent: nat, depth: nat): Text
    requires members != [] && i <= |members|
  {
    if i == |members| then Gap(indent, depth) + [RBRACE]
    else (if i == 0 then [] else [COMMA]) + DumpMembers(members[i..], indent, depth)
  }

  lemma ItemsRound(items: seq<Value>, i: nat, indent: nat, depth: nat, before: Text)
    requires i < |items|
    ensures before + ItemsRest(items, i, indent, depth) ==
            before + (if i == 0 then [] else [COMMA]) + Gap(indent, depth + 1) + Dump(items[i], indent, depth + 1) +
            ItemsRest(items, i + 1, indent, depth)
  {
    hide Gap, Dump;
    var rest := items[i..];
    assert rest[1..] == items[i + 1..];
    assert DumpItems(rest, indent, depth) ==
           Gap(indent, depth + 1) + (Dump(items[i], indent, depth + 1) + ItemsRest(items, i + 1, indent, depth));
  }

  lemma MembersRound(members: seq<Member>, i: nat, indent: nat, depth: nat, before: Text)
    requires i < |members|
    ensures before + MembersRest(members, i, indent, depth) ==
            before + (if i == 0 then [] else [COMMA]) + Gap(indent, depth + 1) + Quoted(members[i].key) + [COLON] +
            AfterColon(indent) + Dump(members[i].value, indent, depth + 1) + MembersRest(members, i + 1, indent, depth)
  {
    hide Gap, Dump, Quoted, AfterColon;
    var rest := members[i..];
    assert rest[1..] == members[i + 1..];
    var m := members[i];
    assert DumpMembers(rest, indent, depth) ==
           Gap(indent, depth + 1) + (Quoted(m.key) + ([COLON] + (AfterColon(indent) + (Dump(m.value, indent, depth + 1) +
           MembersRest(members, i + 1, indent, depth)))));
  }
}
