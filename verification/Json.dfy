/** JSON values over byte strings, the deterministic writer, and the strict bounded reader (sections 6 and 7 of RFC 8259) as
    functions of the text and a position. */
module Json {
  import opened Bytes

  datatype Member = Member(key: Text, value: Value)

  /** A real number is kept as the token it was written with. */
  datatype Value =
    | Null
    | Bool(b: bool)
    | Int(i: int)
    | UInt(u: nat)
    | Real(token: Text)
    | Str(s: Text)
    | Array(items: seq<Value>)
    | Object(members: seq<Member>)

  /** The bounds of the reader; `finite` says whether the platform reads a number token as a finite double. */
  datatype Limits = Limits(maxDepth: nat, maxString: nat, maxNodes: nat, maxInput: nat, finite: Text -> bool)

  const INT64_MAX: int := 0x7FFF_FFFF_FFFF_FFFF
  const INT64_MIN: int := -0x8000_0000_0000_0000
  const UINT64_MAX: int := 0xFFFF_FFFF_FFFF_FFFF

  const QUOTE: byte := 34
  const BACKSLASH: byte := 92
  const COMMA: byte := 44
  const COLON: byte := 58
  const LBRACKET: byte := 91
  const RBRACKET: byte := 93
  const LBRACE: byte := 123
  const RBRACE: byte := 125
  const NEWLINE: byte := 10
  const SPACE: byte := 32
  const ZERO: byte := 48
  const MINUS: byte := 45

  const NULL_TEXT: Text := [110, 117, 108, 108]
  const TRUE_TEXT: Text := [116, 114, 117, 101]
  const FALSE_TEXT: Text := [102, 97, 108, 115, 101]

  // ---- writing ------------------------------------------------------------------------------------------------

  function HexDigit(d: nat): byte
    requires d < 16
  {
    if d < 10 then 48 + d else 87 + d
  }

  /** The escaped form of one byte: bytes from 0x80 up are copied. */
  function Escape(c: byte): (r: Text)
    ensures r != []
  {
    if c == QUOTE then [BACKSLASH, QUOTE]
    else if c == BACKSLASH then [BACKSLASH, BACKSLASH]
    else if c == 8 then [BACKSLASH, 98]
    else if c == 12 then [BACKSLASH, 102]
    else if c == 10 then [BACKSLASH, 110]
    else if c == 13 then [BACKSLASH, 114]
    else if c == 9 then [BACKSLASH, 116]
    else if c < 32 then [BACKSLASH, 117, 48, 48, HexDigit(c / 16), HexDigit(c % 16)]
    else [c]
  }

  function EscapeAll(s: Text): Text
    decreases |s|
  {
    if s == [] then [] else Escape(s[0]) + EscapeAll(s[1..])
  }

  function Quoted(s: Text): Text { [QUOTE] + (EscapeAll(s) + [QUOTE]) }

  function Digits(n: nat): (r: Text)
    ensures r != []
    decreases n
  {
    if n < 10 then [48 + n] else Digits(n / 10) + [48 + n % 10]
  }

  function Decimal(i: int): (r: Text)
    ensures r != []
  {
    if i < 0 then [MINUS] + Digits(-i) else Digits(i)
  }

  function Spaces(n: nat): (r: Text)
    ensures |r| == n && forall k :: 0 <= k < n ==> r[k] == SPACE
  {
    seq(n, i => SPACE)
  }

  /** The line break and padding before an element; nothing in compact form. */
  function Gap(indent: nat, depth: nat): Text { if indent == 0 then [] else [NEWLINE] + Spaces(indent * depth) }

  function AfterColon(indent: nat): Text { if indent == 0 then [] else [SPACE] }

  /** `dump_into`: compact when `indent` is zero. */
  function Dump(v: Value, indent: nat, depth: nat): Text
    decreases v
  {
    match v
    case Null => NULL_TEXT
    case Bool(b) => if b then TRUE_TEXT else FALSE_TEXT
    case Int(i) => Decimal(i)
    case UInt(u) => Digits(u)
    case Real(token) => token
    case Str(s) => Quoted(s)
    case Array(items) => [LBRACKET] + (if items == [] then [RBRACKET] else DumpItems(items, indent, depth))
    case Object(members) => [LBRACE] + (if members == [] then [RBRACE] else DumpMembers(members, indent, depth))
  }

  /** The elements of an array from some point on, with what closes it. */
  function DumpItems(items: seq<Value>, indent: nat, depth: nat): Text
    requires items != []
    decreases items
  {
    Gap(indent, depth + 1) + (Dump(items[0], indent, depth + 1) +
    (if |items| == 1 then Gap(indent, depth) + [RBRACKET] else [COMMA] + DumpItems(items[1..], indent, depth)))
  }

  function DumpMembers(members: seq<Member>, indent: nat, depth: nat): Text
    requires members != []
    decreases members
  {
    Gap(indent, depth + 1) + (Quoted(members[0].key) + ([COLON] + (AfterColon(indent) +
    (Dump(members[0].value, indent, depth + 1) +
    (if |members| == 1 then Gap(indent, depth) + [RBRACE] else [COMMA] + DumpMembers(members[1..], indent, depth))))))
  }

  // ---- objects ------------------------------------------------------------------------------------------------

  /** `Value::find`: the first member with the key. */
  function Find(members: seq<Member>, key: Text): (r: int)
    ensures -1 <= r < |members|
    ensures r >= 0 ==> members[r].key == key
    ensures r == -1 ==> forall j :: 0 <= j < |members| ==> members[j].key != key
    decreases |members|
  {
    if members == [] then -1
    else if members[0].key == key then 0
    else
      var r := Find(members[1..], key);
      assert members == [members[0]] + members[1..];
      if r == -1 then -1 else r + 1
  }

  /** `Value::set`: replace in place, else append. */
  function Set(members: seq<Member>, key: Text, value: Value): seq<Member> {
    var at := Find(members, key);
    if at >= 0 then members[at := Member(key, value)] else members + [Member(key, value)]
  }

  // ---- reading: strings and numbers ---------------------------------------------------------------------------

  /** What was read, and where reading goes on. */
  datatype Read<T> = Refused | Got(value: T, pos: nat)

  predicate IsSpace(c: byte) { c == 32 || c == 9 || c == 10 || c == 13 }

  function SkipSpace(text: Text, pos: nat): (r: nat)
    requires pos <= |text|
    ensures pos <= r <= |text|
    decreases |text| - pos
  {
    if pos < |text| && IsSpace(text[pos]) then SkipSpace(text, pos + 1) else pos
  }

  predicate At(text: Text, pos: nat, c: byte) { pos < |text| && text[pos] == c }

  function HexValue(c: byte): (r: int)
    ensures -1 <= r < 16
  {
    if 48 <= c <= 57 then c - 48 else if 97 <= c <= 102 then c - 87 else if 65 <= c <= 70 then c - 55 else -1
  }

  lemma DigitBack(d: nat)
    requires d < 16
    ensures HexValue(HexDigit(d)) == d
  {
  }

  function ReadHex4(text: Text, pos: nat): (r: Read<nat>)
    ensures r.Got? ==> r.pos == pos + 4 <= |text| && r.value < 0x1_0000
  {
    if pos + 4 > |text| then Refused
    else
      var a, b, c, d := HexValue(text[pos]), HexValue(text[pos + 1]), HexValue(text[pos + 2]), HexValue(text[pos + 3]);
      if a < 0 || b < 0 || c < 0 || d < 0 then Refused else Got(((a * 16 + b) * 16 + c) * 16 + d, pos + 4)
  }

  function Utf8(codePoint: nat): (r: Text)
    requires codePoint < 0x11_0000
    ensures r != []
  {
    if codePoint <= 0x7F then [codePoint]
    else if codePoint <= 0x7FF then [0xC0 + codePoint / 0x40, 0x80 + codePoint % 0x40]
    else if codePoint <= 0xFFFF then [0xE0 + codePoint / 0x1000, 0x80 + codePoint / 0x40 % 0x40, 0x80 + codePoint % 0x40]
    else [0xF0 + codePoint / 0x4_0000, 0x80 + codePoint / 0x1000 % 0x40, 0x80 + codePoint / 0x40 % 0x40, 0x80 + codePoint % 0x40]
  }

  /** The code point of a `\u` escape whose four digits start at `pos`, surrogate pairs included. */
  function ReadCodePoint(text: Text, pos: nat): (r: Read<nat>)
    ensures r.Got? ==> pos < r.pos <= |text| && r.value < 0x11_0000
  {
    match ReadHex4(text, pos)
    case Refused => Refused
    case Got(high, next) =>
      if 0xD800 <= high <= 0xDBFF then
        if At(text, next, BACKSLASH) && At(text, next + 1, 117) then
          match ReadHex4(text, next + 2)
          case Refused => Refused
          case Got(low, end) =>
            if low < 0xDC00 || low > 0xDFFF then Refused
            else Got(0x1_0000 + (high - 0xD800) * 0x400 + (low - 0xDC00), end)
        else Refused
      else if 0xDC00 <= high <= 0xDFFF then Refused
      else Got(high, next)
  }

  /** The bytes an escape stands for; `pos` is the character after the backslash. */
  function ReadEscape(text: Text, pos: nat): (r: Read<Text>)
    ensures r.Got? ==> pos < r.pos <= |text|
  {
    if pos >= |text| then Refused
    else
      var c := text[pos];
      if c == QUOTE || c == BACKSLASH || c == 47 then Got([c], pos + 1)
      else if c == 98 then Got([8], pos + 1)
      else if c == 102 then Got([12], pos + 1)
      else if c == 110 then Got([10], pos + 1)
      else if c == 114 then Got([13], pos + 1)
      else if c == 116 then Got([9], pos + 1)
      else if c == 117 then
        match ReadCodePoint(text, pos + 1)
        case Refused => Refused
        case Got(codePoint, next) => Got(Utf8(codePoint), next)
      else Refused
  }

  /** `parse_string` after the opening quote: the size bound is looked at after plain characters only. */
  function ReadString(text: Text, max: nat, pos: nat, acc: Text): (r: Read<Text>)
    ensures r.Got? ==> pos < r.pos <= |text|
    decreases |text| - pos
  {
    if pos >= |text| then Refused
    else
      var c := text[pos];
      if c == QUOTE then Got(acc, pos + 1)
      else if c < 32 then Refused
      else if c == BACKSLASH then
        match ReadEscape(text, pos + 1)
        case Refused => Refused
        case Got(bytes, next) => ReadString(text, max, next, acc + bytes)
      else if |acc| + 1 > max then Refused
      else ReadString(text, max, pos + 1, acc + [c])
  }

  predicate IsDigit(c: byte) { 48 <= c <= 57 }

  predicate DigitAt(text: Text, pos: nat) { pos < |text| && IsDigit(text[pos]) }

  function SkipDigits(text: Text, pos: nat): (r: nat)
    requires pos <= |text|
    ensures pos <= r <= |text| && (DigitAt(text, pos) ==> pos < r)
    decreases |text| - pos
  {
    if DigitAt(text, pos) then SkipDigits(text, pos + 1) else pos
  }

  function Magnitude(digits: Text): nat
    requires forall c :: c in digits ==> IsDigit(c)
    decreases |digits|
  {
    if digits == [] then 0
    else
      assert digits[|digits| - 1] in digits && IsDigit(digits[|digits| - 1]);
      assert forall c :: c in digits[..|digits| - 1] ==> c in digits;
      var last: int := digits[|digits| - 1];
      Magnitude(digits[..|digits| - 1]) * 10 + (last - 48)
  }

  /** A token of digits with an optional sign. */
  predicate IsIntegral(token: Text) {
    (forall c :: c in token ==> IsDigit(c)) ||
    (token != [] && token[0] == MINUS && forall c :: c in token[1..] ==> IsDigit(c))
  }

  function IntegralValue(token: Text): int
    requires IsIntegral(token)
  {
    if token != [] && token[0] == MINUS then
      var m: int := Magnitude(token[1..]);
      -m
    else Magnitude(token)
  }

  /** The value of a number token: integers that fit, and reals for the rest. */
  function NumberValue(token: Text, integral: bool, finite: Text -> bool): Read<Value> {
    if integral && IsIntegral(token) && INT64_MIN <= IntegralValue(token) <= INT64_MAX then Got(Int(IntegralValue(token)), 0)
    else if integral && IsIntegral(token) && 0 <= IntegralValue(token) <= UINT64_MAX then Got(UInt(IntegralValue(token)), 0)
    else if finite(token) then Got(Real(token), 0)
    else Refused
  }

  /** The fraction after `pos`, if there is one: where it ends, or nothing if it is malformed. */
  function SkipFraction(text: Text, pos: nat): (r: Read<bool>)
    requires pos <= |text|
    ensures r.Got? ==> pos <= r.pos <= |text|
  {
    if At(text, pos, 46) then
      if !DigitAt(text, pos + 1) then Refused else Got(true, SkipDigits(text, pos + 1))
    else Got(false, pos)
  }

  function SkipExponent(text: Text, pos: nat): (r: Read<bool>)
    requires pos <= |text|
    ensures r.Got? ==> pos <= r.pos <= |text|
  {
    if At(text, pos, 101) || At(text, pos, 69) then
      var p := if At(text, pos + 1, 43) || At(text, pos + 1, MINUS) then pos + 2 else pos + 1;
      if !DigitAt(text, p) then Refused else Got(true, SkipDigits(text, p))
    else Got(false, pos)
  }

  /** Where the integer part of a number ends: a leading zero stands alone. */
  function SkipWhole(text: Text, pos: nat): (r: Read<bool>)
    ensures r.Got? ==> pos < r.pos <= |text|
  {
    if !DigitAt(text, pos) then Refused
    else if text[pos] == ZERO then if DigitAt(text, pos + 1) then Refused else Got(true, pos + 1)
    else Got(true, SkipDigits(text, pos))
  }

  /** `parse_number`. */
  function ReadNumber(text: Text, finite: Text -> bool, pos: nat): (r: Read<Value>)
    requires pos <= |text|
    ensures r.Got? ==> pos < r.pos <= |text|
  {
    match SkipWhole(text, if At(text, pos, MINUS) then pos + 1 else pos)
    case Refused => Refused
    case Got(_, whole) =>
      match SkipFraction(text, whole)
      case Refused => Refused
      case Got(fraction, p) =>
        match SkipExponent(text, p)
        case Refused => Refused
        case Got(exponent, end) =>
          match NumberValue(text[pos..end], !fraction && !exponent, finite)
          case Refused => Refused
          case Got(v, _) => Got(v, end)
  }

  // ---- reading: values ----------------------------------------------------------------------------------------

  /** What was read, where reading goes on, and how many nodes have been counted. */
  datatype Parsed<T> = Failed | Done(value: T, pos: nat, nodes: nat)

  predicate Starts(text: Text, pos: nat, word: Text) { pos + |word| <= |text| && text[pos..pos + |word|] == word }

  /** `parse_value`. */
  function ParseValue(text: Text, lim: Limits, pos: nat, nodes: nat, depth: nat): (r: Parsed<Value>)
    requires pos <= |text|
    ensures r.Done? ==> pos < r.pos <= |text|
    decreases |text| - pos, 0
  {
    if depth > lim.maxDepth || pos == |text| || nodes + 1 > lim.maxNodes then Failed
    else if text[pos] == LBRACE then
      var p := SkipSpace(text, pos + 1);
      if At(text, p, RBRACE) then Done(Object([]), p + 1, nodes + 1)
      else ParseMembers(text, lim, p, nodes + 1, depth, [])
    else if text[pos] == LBRACKET then
      var p := SkipSpace(text, pos + 1);
      if At(text, p, RBRACKET) then Done(Array([]), p + 1, nodes + 1)
      else ParseItems(text, lim, p, nodes + 1, depth, [])
    else ParseScalar(text, lim, pos, nodes + 1)
  }

  function ParseScalar(text: Text, lim: Limits, pos: nat, nodes: nat): (r: Parsed<Value>)
    requires pos < |text|
    ensures r.Done? ==> pos < r.pos <= |text|
  {
    if text[pos] == QUOTE then
      match ReadString(text, lim.maxString, pos + 1, [])
      case Refused => Failed
      case Got(s, next) => Done(Str(s), next, nodes)
    else if text[pos] == TRUE_TEXT[0] then
      if Starts(text, pos, TRUE_TEXT) then Done(Bool(true), pos + 4, nodes) else Failed
    else if text[pos] == FALSE_TEXT[0] then
      if Starts(text, pos, FALSE_TEXT) then Done(Bool(false), pos + 5, nodes) else Failed
    else if text[pos] == NULL_TEXT[0] then
      if Starts(text, pos, NULL_TEXT) then Done(Null, pos + 4, nodes) else Failed
    else
      match ReadNumber(text, lim.finite, pos)
      case Refused => Failed
      case Got(v, next) => Done(v, next, nodes)
  }

  /** The element loop of `parse_array_body`, with the elements read so far. */
  function ParseItems(text: Text, lim: Limits, pos: nat, nodes: nat, depth: nat, acc: seq<Value>): (r: Parsed<Value>)
    requires pos <= |text|
    ensures r.Done? ==> pos < r.pos <= |text|
    decreases |text| - pos, 1
  {
    match ParseValue(text, lim, SkipSpace(text, pos), nodes, depth + 1)
    case Failed => Failed
    case Done(v, next, count) =>
      var p := SkipSpace(text, next);
      if At(text, p, COMMA) then ParseItems(text, lim, p + 1, count, depth, acc + [v])
      else if At(text, p, RBRACKET) then Done(Array(acc + [v]), p + 1, count)
      else Failed
  }

  /** The member loop of `parse_object_body`, with the members read so far. */
  function ParseMembers(text: Text, lim: Limits, pos: nat, nodes: nat, depth: nat, acc: seq<Member>): (r: Parsed<Value>)
    requires pos <= |text|
    ensures r.Done? ==> pos < r.pos <= |text|
    decreases |text| - pos, 1
  {
    match ParseKey(text, lim, pos)
    case Refused => Failed
    case Got(key, from) =>
      match ParseValue(text, lim, from, nodes, depth + 1)
      case Failed => Failed
      case Done(v, next, count) =>
        var p := SkipSpace(text, next);
        if At(text, p, COMMA) then ParseMembers(text, lim, p + 1, count, depth, Set(acc, key, v))
        else if At(text, p, RBRACE) then Done(Object(Set(acc, key, v)), p + 1, count)
        else Failed
  }

  /** A key, its colon, and the space around them: where the value starts. */
  function ParseKey(text: Text, lim: Limits, pos: nat): (r: Read<Text>)
    requires pos <= |text|
    ensures r.Got? ==> pos < r.pos <= |text|
  {
    var p := SkipSpace(text, pos);
    if !At(text, p, QUOTE) then Refused
    else
      match ReadString(text, lim.maxString, p + 1, [])
      case Refused => Refused
      case Got(key, next) =>
        var q := SkipSpace(text, next);
        if !At(text, q, COLON) then Refused else Got(key, SkipSpace(text, q + 1))
  }

  /** `Parser::run`: one value, with nothing but space around it. */
  function Parse(text: Text, lim: Limits): Read<Value> {
    if |text| > lim.maxInput then Refused
    else
      match ParseValue(text, lim, SkipSpace(text, 0), 0, 0)
      case Failed => Refused
      case Done(v, next, _) =>
        var p := SkipSpace(text, next);
        if p != |text| then Refused else Got(v, p)
  }
}
