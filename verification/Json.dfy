/**
 JSON values with integer numbers, the text `json.dumps(..., ensure_ascii=False)`
 produces for them, and a decoder for that text (RFC 8259, sections 4, 5 and 7).

 A dictionary is a list of members in insertion order.  Rendering is written with
 the text that follows as a parameter (`PutValue(v, style, rest)` is the text of `v`
 followed by `rest`), so that the decoder can be compared with it case by case.
 */
module Json {
  import opened Prelude

  datatype Value =
    | Null
    | Bool(b: bool)
    | Num(n: int)
    | Str(s: string)
    | Arr(items: Items)
    | Obj(members: Members)

  datatype Items = Nil | Item(head: Value, tail: Items)

  datatype Members = End | Member(key: string, value: Value, rest: Members)

  /** `Compact` is separators=(",", ":"); `Spaced` is the default (", ", ": "). */
  datatype Style = Compact | Spaced

  // ---------------------------------------------------------------- dictionaries

  function Keys(ms: Members): set<string> {
    match ms
    case End => {}
    case Member(k, _, rest) => {k} + Keys(rest)
  }

  function Get(ms: Members, k: string): (r: Option<Value>)
    ensures r.Some? <==> k in Keys(ms)
  {
    match ms
    case End => None
    case Member(key, v, rest) => if key == k then Some(v) else Get(rest, k)
  }

  /** No dictionary inside the value binds a key twice, as in any Python dict. */
  predicate Valid(v: Value) {
    match v
    case Arr(items) => ValidItems(items)
    case Obj(ms) => ValidMembers(ms)
    case _ => true
  }

  predicate ValidItems(items: Items) {
    items.Item? ==> Valid(items.head) && ValidItems(items.tail)
  }

  predicate ValidMembers(ms: Members) {
    ms.Member? ==> ms.key !in Keys(ms.rest) && Valid(ms.value) && ValidMembers(ms.rest)
  }

  // ---------------------------------------------------------------- rendering

  const HEX := "0123456789abcdef"

  function PutChar(c: char, rest: string): string {
    if c == '\"' then ['\\', '\"'] + rest
    else if c == '\\' then ['\\', '\\'] + rest
    else if c == '\n' then ['\\', 'n'] + rest
    else if c == '\r' then ['\\', 'r'] + rest
    else if c == '\t' then ['\\', 't'] + rest
    else if c as int == 8 then ['\\', 'b'] + rest
    else if c as int == 12 then ['\\', 'f'] + rest
    else if c as int < 32 then ['\\', 'u', '0', '0', HEX[c as int / 16], HEX[c as int % 16]] + rest
    else [c] + rest
  }

  function PutChars(s: string, rest: string): string {
    if s == "" then rest else PutChar(s[0], PutChars(s[1..], rest))
  }

  function PutString(s: string, rest: string): string {
    ['\"'] + PutChars(s, ['\"'] + rest)
  }

  function DigitChar(d: int): char
    requires 0 <= d < 10
  {
    ('0' as int + d) as char
  }

  function PutNat(n: nat, rest: string): string {
    if n < 10 then [DigitChar(n)] + rest
    else PutNat(n / 10, [DigitChar(n % 10)] + rest)
  }

  function PutInt(n: int, rest: string): string {
    if n < 0 then ['-'] + PutNat(-n, rest) else PutNat(n, rest)
  }

  function PutSep(c: char, style: Style, rest: string): string {
    if style.Compact? then [c] + rest else [c, ' '] + rest
  }

  function PutValue(v: Value, style: Style, rest: string): string {
    match v
    case Null => ['n', 'u', 'l', 'l'] + rest
    case Bool(b) => if b then ['t', 'r', 'u', 'e'] + rest else ['f', 'a', 'l', 's', 'e'] + rest
    case Num(n) => PutInt(n, rest)
    case Str(s) => PutString(s, rest)
    case Arr(items) => ['['] + PutItems(items, style, [']'] + rest)
    case Obj(ms) => ['{'] + PutMembers(ms, style, ['}'] + rest)
  }

  function PutItems(items: Items, style: Style, rest: string): string {
    match items
    case Nil => rest
    case Item(v, Nil) => PutValue(v, style, rest)
    case Item(v, tail) => PutValue(v, style, PutSep(',', style, PutItems(tail, style, rest)))
  }

  function PutMembers(ms: Members, style: Style, rest: string): string {
    match ms
    case End => rest
    case Member(k, v, End) => PutString(k, PutSep(':', style, PutValue(v, style, rest)))
    case Member(k, v, tail) =>
      PutString(k, PutSep(':', style, PutValue(v, style, PutSep(',', style, PutMembers(tail, style, rest)))))
  }

  function Render(v: Value, style: Style): string { PutValue(v, style, "") }

  // ---------------------------------------------------------------- the text, piece by piece

  function Digits(n: nat): string {
    if n < 10 then ["0123456789"[n]] else Digits(n / 10) + ["0123456789"[n % 10]]
  }

  function EscapedChar(c: char): string {
    match c
    case '\"' => "\\\""
    case '\\' => "\\\\"
    case '\n' => "\\n"
    case '\r' => "\\r"
    case '\t' => "\\t"
    case _ =>
      if c == 8 as char then "\\b" else if c == 12 as char then "\\f"
      else if c < ' ' then "\\u00" + ["01"[c as int / 16]] + ["0123456789abcdef"[c as int % 16]]
      else [c]
  }

  function Escaped(s: string): string { if s == "" then "" else EscapedChar(s[0]) + Escaped(s[1..]) }

  function Quoted(s: string): string { "\"" + Escaped(s) + "\"" }

  function Comma(style: Style): string { if style.Compact? then "," else ", " }

  function Colon(style: Style): string { if style.Compact? then ":" else ": " }

  /** The text of a value by the grammar of JSON: brackets around what is separated by commas. */
  function Spelled(v: Value, style: Style): string {
    match v
    case Null => "null"
    case Bool(b) => if b then "true" else "false"
    case Num(n) => if n < 0 then "-" + Digits(-n) else Digits(n)
    case Str(s) => Quoted(s)
    case Arr(items) => "[" + SpelledItems(items, style) + "]"
    case Obj(ms) => "{" + SpelledMembers(ms, style) + "}"
  }

  function SpelledItems(items: Items, style: Style): string {
    match items
    case Nil => ""
    case Item(v, tail) => Spelled(v, style) + (if tail.Nil? then "" else Comma(style) + SpelledItems(tail, style))
  }

  function SpelledMembers(ms: Members, style: Style): string {
    match ms
    case End => ""
    case Member(k, v, tail) =>
      Quoted(k) + Colon(style) + Spelled(v, style) + (if tail.End? then "" else Comma(style) + SpelledMembers(tail, style))
  }

  lemma Regroup(a: string, b: string, c: string, d: string, rest: string)
    ensures a + b + c + d + rest == a + (b + (c + (d + rest)))
  {
  }

  lemma Regroup3(a: string, b: string, c: string, rest: string)
    ensures a + b + c + rest == a + (b + (c + rest))
  {
  }

  lemma Regroup2(a: string, b: string, rest: string)
    ensures a + b + rest == a + (b + rest)
  {
  }

  lemma {:induction false} DigitsPut(n: nat, rest: string)
    ensures PutNat(n, rest) == Digits(n) + rest
  {
    if n >= 10 {
      DigitsPut(n / 10, [DigitChar(n % 10)] + rest);
      assert [DigitChar(n % 10)] == ["0123456789"[n % 10]];
      Regroup2(Digits(n / 10), ["0123456789"[n % 10]], rest);
    }
  }

  lemma CharPut(c: char, rest: string)
    ensures PutChar(c, rest) == EscapedChar(c) + rest
  {
  }

  lemma {:induction false} CharsPut(s: string, rest: string)
    ensures PutChars(s, rest) == Escaped(s) + rest
    decreases |s|
  {
    hide PutChar, EscapedChar;
    if s != "" {
      CharsPut(s[1..], rest);
      CharPut(s[0], PutChars(s[1..], rest));
      Regroup2(EscapedChar(s[0]), Escaped(s[1..]), rest);
    }
  }

  lemma StringPut(s: string, rest: string)
    ensures PutString(s, rest) == Quoted(s) + rest
  {
    hide PutChars, Escaped;
    CharsPut(s, ['\"'] + rest);
    Regroup3("\"", Escaped(s), "\"", rest);
  }

  lemma NumberPut(n: int, rest: string)
    ensures PutInt(n, rest) == (if n < 0 then "-" + Digits(-n) else Digits(n)) + rest
  {
    hide PutNat, Digits;
    DigitsPut(if n < 0 then -n else n, rest);
    if n < 0 { Regroup2("-", Digits(-n), rest); }
  }

  lemma {:induction false} ValuePut(v: Value, style: Style, rest: string)
    ensures PutValue(v, style, rest) == Spelled(v, style) + rest
    decreases v
  {
    hide PutInt, PutString, Quoted, Digits, PutItems, PutMembers, SpelledItems, SpelledMembers;
    match v {
      case Num(n) => NumberPut(n, rest);
      case Str(s) => StringPut(s, rest);
      case Arr(items) =>
        ItemsPut(items, style, [']'] + rest);
        Regroup3("[", SpelledItems(items, style), "]", rest);
      case Obj(ms) =>
        MembersPut(ms, style, ['}'] + rest);
        Regroup3("{", SpelledMembers(ms, style), "}", rest);
      case _ =>
    }
  }

  lemma SepPut(c: char, style: Style, rest: string)
    ensures PutSep(',', style, rest) == Comma(style) + rest && PutSep(':', style, rest) == Colon(style) + rest
  {
  }

  lemma {:induction false} ItemsPut(items: Items, style: Style, rest: string)
    ensures PutItems(items, style, rest) == SpelledItems(items, style) + rest
    decreases items
  {
    hide PutValue, Spelled, PutSep, Comma;
    match items {
      case Nil =>
      case Item(v, Nil) =>
        ValuePut(v, style, rest);
        assert SpelledItems(items, style) == Spelled(v, style);
      case Item(v, tail) =>
        ItemsPut(tail, style, rest);
        SepPut(',', style, PutItems(tail, style, rest));
        ValuePut(v, style, PutSep(',', style, PutItems(tail, style, rest)));
        Regroup2(Comma(style), SpelledItems(tail, style), rest);
        Regroup2(Spelled(v, style), Comma(style) + SpelledItems(tail, style), rest);
    }
  }

  lemma {:induction false} MembersPut(ms: Members, style: Style, rest: string)
    ensures PutMembers(ms, style, rest) == SpelledMembers(ms, style) + rest
    decreases ms
  {
    hide PutValue, PutString, Spelled, Quoted, PutSep, Comma, Colon;
    match ms {
      case End =>
      case Member(k, v, tail) =>
        var more := if tail.End? then "" else Comma(style) + SpelledMembers(tail, style);
        var after := if tail.End? then rest else PutSep(',', style, PutMembers(tail, style, rest));
        if !tail.End? {
          MembersPut(tail, style, rest);
          SepPut(',', style, PutMembers(tail, style, rest));
          Regroup2(Comma(style), SpelledMembers(tail, style), rest);
        }
        ValuePut(v, style, after);
        SepPut(':', style, PutValue(v, style, after));
        StringPut(k, PutSep(':', style, PutValue(v, style, after)));
        Regroup(Quoted(k), Colon(style), Spelled(v, style), more, rest);
    }
  }

  /** What is rendered is the text of the grammar, in either style. */
  lemma RenderSpells(v: Value, style: Style)
    ensures Render(v, style) == Spelled(v, style)
  {
    ValuePut(v, style, "");
  }

  // ---------------------------------------------------------------- decoding

  predicate IsDigit(c: char) { '0' <= c <= '9' }

  function DigitValue(c: char): (d: int)
    requires IsDigit(c)
    ensures 0 <= d < 10
  {
    c as int - '0' as int
  }

  function HexValue(c: char): Option<int> {
    if '0' <= c <= '9' then Some(c as int - '0' as int)
    else if 'a' <= c <= 'f' then Some(c as int - 'a' as int + 10)
    else if 'A' <= c <= 'F' then Some(c as int - 'A' as int + 10)
    else None
  }

  function FourHex(s: string): Option<char>
    requires |s| >= 4
  {
    match (HexValue(s[0]), HexValue(s[1]), HexValue(s[2]), HexValue(s[3]))
    case (Some(a), Some(b), Some(c), Some(d)) =>
      var code := ((a * 16 + b) * 16 + c) * 16 + d;
      if 0 <= code < 0xD800 || 0xE000 <= code < 0x11_0000 then Some(code as char) else None
    case _ => None
  }

  function SimpleEscape(c: char): Option<char> {
    if c == '\"' then Some('\"')
    else if c == '\\' then Some('\\')
    else if c == '/' then Some('/')
    else if c == 'n' then Some('\n')
    else if c == 'r' then Some('\r')
    else if c == 't' then Some('\t')
    else if c == 'b' then Some(8 as char)
    else if c == 'f' then Some(12 as char)
    else None
  }

  datatype Parsed<T> = Fail | Got(result: T, left: string)

  /** The characters up to the closing quote. */
  function ParseChars(s: string): (r: Parsed<string>)
    ensures r.Got? ==> |r.left| < |s|
  {
    if s == "" || s[0] as int < 32 then Fail
    else if s[0] == '\"' then Got("", s[1..])
    else if s[0] != '\\' then PrependTo(s[0], ParseChars(s[1..]))
    else if |s| < 2 then Fail
    else if s[1] == 'u' then
      if |s| < 6 then Fail
      else match FourHex(s[2..6])
        case Some(c) => PrependTo(c, ParseChars(s[6..]))
        case None => Fail
    else match SimpleEscape(s[1])
      case Some(c) => PrependTo(c, ParseChars(s[2..]))
      case None => Fail
  }

  function PrependTo(c: char, p: Parsed<string>): (r: Parsed<string>)
    ensures r.Got? <==> p.Got?
    ensures r.Got? ==> r.left == p.left
  {
    match p
    case Fail => Fail
    case Got(t, left) => Got([c] + t, left)
  }

  /** Folds the leading digits of `s` into `acc`. */
  function ParseDigits(s: string, acc: nat): (r: (nat, string))
    ensures |r.1| <= |s|
  {
    if s != "" && IsDigit(s[0]) then ParseDigits(s[1..], acc * 10 + DigitValue(s[0])) else (acc, s)
  }

  function ParseNat(s: string): (r: Parsed<nat>)
    ensures r.Got? ==> |r.left| < |s|
  {
    if s == "" || !IsDigit(s[0]) then Fail
    else if s[0] == '0' then
      if |s| > 1 && IsDigit(s[1]) then Fail else Got(0, s[1..])
    else
      var (n, left) := ParseDigits(s[1..], DigitValue(s[0]));
      Got(n, left)
  }

  predicate StartsWith(s: string, word: string) {
    |word| <= |s| && s[..|word|] == word
  }

  function SkipSpace(s: string): (r: string)
    ensures |r| <= |s|
  {
    if s != "" && s[0] == ' ' then s[1..] else s
  }

  function ParseValue(s: string): (r: Parsed<Value>)
    ensures r.Got? ==> |r.left| < |s| && Valid(r.result)
    decreases |s|, 0
  {
    if s == "" then Fail
    else if s[0] == '\"' then
      match ParseChars(s[1..])
      case Got(t, left) => Got(Str(t), left)
      case Fail => Fail
    else if s[0] == '[' then
      if |s| > 1 && s[1] == ']' then Got(Arr(Nil), s[2..])
      else match ParseItems(s[1..])
        case Got(items, left) => Got(Arr(items), left)
        case Fail => Fail
    else if s[0] == '{' then
      if |s| > 1 && s[1] == '}' then Got(Obj(End), s[2..])
      else match ParseMembers(s[1..])
        case Got(ms, left) => Got(Obj(ms), left)
        case Fail => Fail
    else if s[0] == '-' then
      match ParseNat(s[1..])
      case Got(n, left) => var m: int := n; Got(Num(-m), left)
      case Fail => Fail
    else if StartsWith(s, "null") then Got(Null, s[4..])
    else if StartsWith(s, "true") then Got(Bool(true), s[4..])
    else if StartsWith(s, "false") then Got(Bool(false), s[5..])
    else match ParseNat(s)
      case Got(n, left) => Got(Num(n), left)
      case Fail => Fail
  }

  /** One or more values, up to and including the closing bracket. */
  function ParseItems(s: string): (r: Parsed<Items>)
    ensures r.Got? ==> |r.left| < |s| && ValidItems(r.result)
    decreases |s|, 1
  {
    match ParseValue(s)
    case Fail => Fail
    case Got(v, left) =>
      if left == "" then Fail
      else if left[0] == ']' then Got(Item(v, Nil), left[1..])
      else if left[0] != ',' then Fail
      else match ParseItems(SkipSpace(left[1..]))
        case Got(items, left') => Got(Item(v, items), left')
        case Fail => Fail
  }

  /** One or more members, up to and including the closing brace.  Of two members with
      the same key the later one stays, as in `json.loads`. */
  function ParseMembers(s: string): (r: Parsed<Members>)
    ensures r.Got? ==> |r.left| < |s| && ValidMembers(r.result)
    decreases |s|, 1
  {
    if s == "" || s[0] != '\"' then Fail
    else match ParseChars(s[1..])
      case Fail => Fail
      case Got(k, left) =>
        if left == "" || left[0] != ':' then Fail
        else match ParseValue(SkipSpace(left[1..]))
          case Fail => Fail
          case Got(v, left') =>
            if left' == "" then Fail
            else if left'[0] == '}' then Got(Member(k, v, End), left'[1..])
            else if left'[0] != ',' then Fail
            else match ParseMembers(SkipSpace(left'[1..]))
              case Got(ms, left'') => Got(if k in Keys(ms) then ms else Member(k, v, ms), left'')
              case Fail => Fail
  }

  /** The whole text is one value. */
  function Parse(s: string): (r: Option<Value>)
    ensures r.Some? ==> Valid(r.value)
  {
    match ParseValue(s)
    case Got(v, left) => if left == "" then Some(v) else None
    case Fail => None
  }

  // ---------------------------------------------------------------- round trip

  predicate Named(c: char) {
    c == '\"' || c == '\\' || c == '\n' || c == '\r' || c == '\t' || c as int == 8 || c as int == 12
  }

  lemma HexRoundTrip(d: int)
    requires 0 <= d < 16
    ensures HexValue(HEX[d]) == Some(d)
  {
  }

  lemma ParsePutControl(c: char, rest: string)
    requires c as int < 32 && !Named(c)
    ensures ParseChars(PutChar(c, rest)) == PrependTo(c, ParseChars(rest))
  {
    var s := PutChar(c, rest);
    HexRoundTrip(c as int / 16);
    HexRoundTrip(c as int % 16);
    assert s[2..6] == ['0', '0', HEX[c as int / 16], HEX[c as int % 16]];
    assert s[6..] == rest;
    assert FourHex(s[2..6]) == Some(c);
  }

  lemma ParsePutNamed(c: char, rest: string)
    requires Named(c)
    ensures ParseChars(PutChar(c, rest)) == PrependTo(c, ParseChars(rest))
  {
    var s := PutChar(c, rest);
    assert s[2..] == rest;
    assert s[0] == '\\' && s[1] != 'u' && SimpleEscape(s[1]) == Some(c);
  }

  lemma ParsePutChar(c: char, rest: string)
    ensures ParseChars(PutChar(c, rest)) == PrependTo(c, ParseChars(rest))
  {
    if Named(c) {
      ParsePutNamed(c, rest);
    } else if c as int < 32 {
      ParsePutControl(c, rest);
    } else {
      assert PutChar(c, rest)[1..] == rest;
    }
  }

  lemma {:induction false} ParsePutChars(s: string, rest: string)
    ensures ParseChars(PutChars(s, ['\"'] + rest)) == Got(s, rest)
  {
    if s == "" {
      assert (['\"'] + rest)[1..] == rest;
    } else {
      ParsePutChars(s[1..], rest);
      ParsePutChar(s[0], PutChars(s[1..], ['\"'] + rest));
      assert [s[0]] + s[1..] == s;
    }
  }

  predicate EndsNumber(rest: string) { rest == "" || !IsDigit(rest[0]) }

  /** A number's text starts with a digit, `0` only for zero itself, and folds back. */
  lemma {:induction false} ParsePutNat(n: nat, rest: string)
    ensures PutNat(n, rest) != "" && IsDigit(PutNat(n, rest)[0])
    ensures n > 0 ==> PutNat(n, rest)[0] != '0'
    ensures ParseDigits(PutNat(n, rest), 0) == ParseDigits(rest, n)
  {
    if n < 10 {
      assert ([DigitChar(n)] + rest)[1..] == rest;
    } else {
      var more := [DigitChar(n % 10)] + rest;
      ParsePutNat(n / 10, more);
      assert more[1..] == rest;
    }
  }

  lemma ParseNatPut(n: nat, rest: string)
    requires EndsNumber(rest)
    ensures ParseNat(PutNat(n, rest)) == Got(n, rest)
  {
    ParsePutNat(n, rest);
    var s := PutNat(n, rest);
    if n == 0 {
      assert s[1..] == rest;
    } else {
      assert ParseDigits(s, 0) == ParseDigits(s[1..], DigitValue(s[0]));
    }
  }

  lemma SkipPutSep(c: char, style: Style, rest: string)
    requires rest != "" && rest[0] != ' '
    ensures PutSep(c, style, rest)[0] == c && SkipSpace(PutSep(c, style, rest)[1..]) == rest
  {
    var s := PutSep(c, style, rest);
    if style.Compact? {
      assert s[1..] == rest;
    } else {
      assert s[1..] == [' '] + rest;
      assert s[1..][1..] == rest;
    }
  }

  /** The text of a value begins with none of the characters that end a list. */
  lemma ValueStart(v: Value, style: Style, rest: string)
    ensures var s := PutValue(v, style, rest);
            s != "" && s[0] != ' ' && s[0] != ']' && s[0] != '}'
  {
    match v {
      case Num(n) => ParsePutNat(if n < 0 then -n else n, rest);
      case _ =>
    }
  }

  /** RFC 8259, sections 4, 5 and 7: decoding the text of a value gives the value back,
      member order included, and leaves what follows it untouched. */
  lemma {:induction false} ParsePut(v: Value, style: Style, rest: string)
    requires Valid(v) && EndsNumber(rest)
    ensures ParseValue(PutValue(v, style, rest)) == Got(v, rest)
    decreases v, 0
  {
    hide ParseChars, PutChars, ParseItems, ParseMembers, ParseNat;
    var s := PutValue(v, style, rest);
    match v {
      case Null => assert s[..4] == "null" && s[4..] == rest;
      case Bool(b) =>
        if b { assert s[..4] == "true" && s[4..] == rest; }
        else { assert s[..5] == "false" && s[5..] == rest; }
      case Num(n) =>
        ParseNatPut(if n < 0 then -n else n, rest);
        ParsePutNat(if n < 0 then -n else n, rest);
        if n < 0 { assert s[1..] == PutNat(-n, rest); }
        else { NumberIsNoWord(s); }
      case Str(t) =>
        ParsePutChars(t, rest);
        assert s[1..] == PutChars(t, ['\"'] + rest);
      case Arr(items) =>
        assert s[1..] == PutItems(items, style, [']'] + rest);
        if items.Nil? {
          assert s[2..] == rest;
        } else {
          ItemsStart(items, style, [']'] + rest);
          ParsePutItems(items, style, rest);
        }
      case Obj(ms) =>
        assert s[1..] == PutMembers(ms, style, ['}'] + rest);
        if ms.End? {
          assert s[2..] == rest;
        } else {
          ParsePutMembers(ms, style, rest);
        }
    }
  }

  lemma NumberIsNoWord(s: string)
    requires s != "" && IsDigit(s[0])
    ensures !StartsWith(s, "null") && !StartsWith(s, "true") && !StartsWith(s, "false")
  {
    assert forall word: string :: StartsWith(s, word) && word != "" ==> word[0] == s[0];
    assert "null"[0] == 'n' && "true"[0] == 't' && "false"[0] == 'f';
  }

  lemma ItemsStart(items: Items, style: Style, rest: string)
    requires items.Item?
    ensures var s := PutItems(items, style, rest); s != "" && s[0] != ' ' && s[0] != ']'
  {
    if items.tail.Nil? {
      ValueStart(items.head, style, rest);
    } else {
      ValueStart(items.head, style, PutSep(',', style, PutItems(items.tail, style, rest)));
    }
  }

  lemma {:induction false} ParsePutItems(items: Items, style: Style, rest: string)
    requires items.Item? && ValidItems(items)
    ensures ParseItems(PutItems(items, style, [']'] + rest)) == Got(items, rest)
    decreases items, 1
  {
    var close := [']'] + rest;
    if items.tail.Nil? {
      ParsePut(items.head, style, close);
      assert close[1..] == rest;
    } else {
      var more := PutItems(items.tail, style, close);
      ItemsStart(items.tail, style, close);
      ParsePut(items.head, style, PutSep(',', style, more));
      SkipPutSep(',', style, more);
      ParsePutItems(items.tail, style, rest);
    }
  }

  lemma {:induction false} ParsePutMembers(ms: Members, style: Style, rest: string)
    requires ms.Member? && ValidMembers(ms)
    ensures ParseMembers(PutMembers(ms, style, ['}'] + rest)) == Got(ms, rest)
    decreases ms, 1
  {
    hide ParseChars, PutChars, ParseValue, PutValue, Valid;
    var close := ['}'] + rest;
    var after := if ms.rest.End? then close else PutSep(',', style, PutMembers(ms.rest, style, close));
    var text := PutValue(ms.value, style, after);
    ValueStart(ms.value, style, after);
    SkipPutSep(':', style, text);
    ParsePutChars(ms.key, PutSep(':', style, text));
    assert PutString(ms.key, PutSep(':', style, text))[1..]
        == PutChars(ms.key, ['\"'] + PutSep(':', style, text));
    ParsePut(ms.value, style, after);
    if ms.rest.End? {
      assert close[1..] == rest;
    } else {
      SkipPutSep(',', style, PutMembers(ms.rest, style, close));
      ParsePutMembers(ms.rest, style, rest);
    }
  }

  lemma ParseRender(v: Value, style: Style)
    requires Valid(v)
    ensures Parse(Render(v, style)) == Some(v)
  {
    ParsePut(v, style, "");
  }
}
