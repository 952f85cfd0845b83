/** The audit log's JSON: the canonical text of an event, the line written for it, and how a
    line is read.  The laws the chain relies on are proved of it. */
module AuditFormat {
  import opened Prelude
  import opened Json
  import Canonical
  import opened Hashing
  import opened AuditChain
  import opened Fields

  const EVENT_TYPE := "event_type"
  const CORRELATION_ID := "correlation_id"
  const DATA := "data"
  const TIMESTAMP := "timestamp"
  const PREV_HASH := "prev_hash"
  const HASH := "hash"

  lemma NamesDiffer()
    ensures EVENT_TYPE !in {CORRELATION_ID, DATA, TIMESTAMP, PREV_HASH, HASH}
    ensures CORRELATION_ID !in {DATA, TIMESTAMP, PREV_HASH, HASH}
    ensures DATA !in {TIMESTAMP, PREV_HASH, HASH}
    ensures TIMESTAMP !in {PREV_HASH, HASH} && PREV_HASH != HASH
  {
    assert EVENT_TYPE[0] == 'e' && CORRELATION_ID[0] == 'c' && DATA[0] == 'd';
    assert TIMESTAMP[0] == 't' && PREV_HASH[0] == 'p' && HASH[0] == 'h';
  }

  function WithEntry(e: Entry, rest: Members): Members {
    Member(EVENT_TYPE, e.kind, Member(CORRELATION_ID, e.cid, Member(DATA, e.data, Member(TIMESTAMP, e.time, rest))))
  }

  function CanonicalText(e: Entry): string { Canonical.Text(Obj(WithEntry(e, End))) }

  function HashFields(e: Event): Members {
    Member(PREV_HASH, Str(e.prev), Member(HASH, Str(e.hash), End))
  }

  function LineText(e: Event): string { Render(Obj(WithEntry(e.entry, HashFields(e))), Spaced) }

  /** `str.isspace`, which is what `line.strip()` removes. */
  predicate IsSpace(c: char) {
    var n := c as int;
    9 <= n <= 13 || 28 <= n <= 32 || n == 0x85 || n == 0xA0 || n == 0x1680 || 0x2000 <= n <= 0x200A
    || n == 0x2028 || n == 0x2029 || n == 0x202F || n == 0x205F || n == 0x3000
  }

  function SkipSpaces(s: string): string {
    if s != "" && IsSpace(s[0]) then SkipSpaces(s[1..]) else s
  }

  function Field(ms: Members, k: string, default: Value): Value { Get(ms, k).GetOr(default) }

  function FromDict(ms: Members, now: string): Line {
    if EVENT_TYPE !in Keys(ms) || CORRELATION_ID !in Keys(ms) then Missing
    else
      Record(Entry(Field(ms, EVENT_TYPE, Null), Field(ms, CORRELATION_ID, Null),
                   OrEmpty(Field(ms, DATA, Obj(End))), Field(ms, TIMESTAMP, Str(now))),
             Field(ms, PREV_HASH, Str("")), Field(ms, HASH, Str("")))
  }

  function ReadLine(line: string, now: string): Line {
    var s := SkipSpaces(line);
    if s == "" then Blank
    else match ParseValue(s)
      case Fail => NotJson
      case Got(v, left) =>
        if SkipSpaces(left) != "" then NotJson
        else if v.Obj? then FromDict(v.members, now) else Missing
  }

  function JsonFormat(h: HashFn): Format { FormatWith(h, (s, now) => ReadLine(s, now)) }

  // ---------------------------------------------------------------- the texts, spelled out

  lemma NamesQuoted()
    ensures Quoted(EVENT_TYPE) == "\"event_type\"" && Quoted(CORRELATION_ID) == "\"correlation_id\""
    ensures Quoted(DATA) == "\"data\"" && Quoted(TIMESTAMP) == "\"timestamp\""
    ensures Quoted(PREV_HASH) == "\"prev_hash\"" && Quoted(HASH) == "\"hash\""
  {
    hide Quoted, Plain;
    PlainNames();
    PlainQuoted("event_type");
    PlainQuoted("correlation_id");
    PlainQuoted("data");
    PlainQuoted("timestamp");
    PlainQuoted("prev_hash");
    PlainQuoted("hash");
  }

  lemma PlainNames()
    ensures Plain("event_type") && Plain("correlation_id") && Plain("data")
    ensures Plain("timestamp") && Plain("prev_hash") && Plain("hash")
  {
  }

  /** The four hashed fields in key order. */
  function Ordered(e: Entry): Members {
    Member("correlation_id", Canonical.Sorted(e.cid), Member("data", Canonical.Sorted(e.data),
      Member("event_type", Canonical.Sorted(e.kind), Member("timestamp", Canonical.Sorted(e.time), End))))
  }

  lemma EntryOrdered(e: Entry)
    ensures Canonical.SortedMembers(WithEntry(e, End)) == Ordered(e)
  {
    hide Canonical.Sorted, Canonical.SortedMembers;
    assert EVENT_TYPE[0] == 'e' && CORRELATION_ID[0] == 'c' && DATA[0] == 'd' && TIMESTAMP[0] == 't';
    Canonical.SortedStep(TIMESTAMP, e.time, End);
    Canonical.SortedStep(DATA, e.data, Member(TIMESTAMP, e.time, End));
    Canonical.SortedStep(CORRELATION_ID, e.cid, Member(DATA, e.data, Member(TIMESTAMP, e.time, End)));
    Canonical.SortedStep(EVENT_TYPE, e.kind, Member(CORRELATION_ID, e.cid, Member(DATA, e.data, Member(TIMESTAMP, e.time, End))));
    var t := Member(TIMESTAMP, Canonical.Sorted(e.time), End);
    var d := Member(DATA, Canonical.Sorted(e.data), t);
    assert Canonical.Insert(TIMESTAMP, Canonical.Sorted(e.time), End) == t;
    assert !Canonical.Less(TIMESTAMP, DATA) && Canonical.Insert(DATA, Canonical.Sorted(e.data), t) == d;
    var c := Member(CORRELATION_ID, Canonical.Sorted(e.cid), d);
    assert !Canonical.Less(DATA, CORRELATION_ID) && Canonical.Insert(CORRELATION_ID, Canonical.Sorted(e.cid), d) == c;
    var k := Canonical.Sorted(e.kind);
    assert !Canonical.Less(TIMESTAMP, EVENT_TYPE) && Canonical.Insert(EVENT_TYPE, k, t) == Member(EVENT_TYPE, k, t);
    assert Canonical.Less(DATA, EVENT_TYPE) && Canonical.Insert(EVENT_TYPE, k, d) == Member(DATA, d.value, Member(EVENT_TYPE, k, t));
    assert Canonical.Less(CORRELATION_ID, EVENT_TYPE);
  }

  /** The canonical text is exactly this: the four fields in key order, without white space. */
  lemma CanonicalLayout(e: Entry)
    ensures var time := "\"timestamp\"" + ":" + Canonical.Text(e.time) + "";
      var kind := "\"event_type\"" + ":" + Canonical.Text(e.kind) + ("," + time);
      var data := "\"data\"" + ":" + Canonical.Text(e.data) + ("," + kind);
      var cid := "\"correlation_id\"" + ":" + Canonical.Text(e.cid) + ("," + data);
      CanonicalText(e) == "{" + cid + "}"
  {
    hide Canonical.Sorted, Render, Quoted, SpelledMembers, Canonical.SortedMembers;
    EntryOrdered(e);
    Canonical.SortedStep("", Null, WithEntry(e, End));
    RenderSpells(Obj(Ordered(e)), Compact);
    RenderSpells(Canonical.Sorted(e.cid), Compact);
    RenderSpells(Canonical.Sorted(e.data), Compact);
    RenderSpells(Canonical.Sorted(e.kind), Compact);
    RenderSpells(Canonical.Sorted(e.time), Compact);
    var t := Member("timestamp", Canonical.Sorted(e.time), End);
    var k := Member("event_type", Canonical.Sorted(e.kind), t);
    var d := Member("data", Canonical.Sorted(e.data), k);
    MemberSpelled("timestamp", t.value, End, Compact);
    MemberSpelled("event_type", k.value, t, Compact);
    MemberSpelled("data", d.value, k, Compact);
    MemberSpelled("correlation_id", Canonical.Sorted(e.cid), d, Compact);
    NamesQuoted();
  }

  /** The flushed line is exactly this: the same fields as they were filled in, then the link and
      the hash, with a space after every separator. */
  lemma LineLayout(e: Event)
    ensures var hash := "\"hash\"" + ": " + Quoted(e.hash) + "";
      var prev := "\"prev_hash\"" + ": " + Quoted(e.prev) + (", " + hash);
      var time := "\"timestamp\"" + ": " + Render(e.entry.time, Spaced) + (", " + prev);
      var data := "\"data\"" + ": " + Render(e.entry.data, Spaced) + (", " + time);
      var cid := "\"correlation_id\"" + ": " + Render(e.entry.cid, Spaced) + (", " + data);
      LineText(e) == "{" + ("\"event_type\"" + ": " + Render(e.entry.kind, Spaced) + (", " + cid)) + "}"
  {
    hide Render, Quoted, SpelledMembers;
    var a, h := e.entry, Member(HASH, Str(e.hash), End);
    RenderSpells(Obj(WithEntry(a, HashFields(e))), Spaced);
    RenderSpells(a.kind, Spaced);
    RenderSpells(a.cid, Spaced);
    RenderSpells(a.data, Spaced);
    RenderSpells(a.time, Spaced);
    var t := Member(TIMESTAMP, a.time, HashFields(e));
    var d := Member(DATA, a.data, t);
    var c := Member(CORRELATION_ID, a.cid, d);
    MemberSpelled(HASH, Str(e.hash), End, Spaced);
    MemberSpelled(PREV_HASH, Str(e.prev), h, Spaced);
    MemberSpelled(TIMESTAMP, a.time, HashFields(e), Spaced);
    MemberSpelled(DATA, a.data, t, Spaced);
    MemberSpelled(CORRELATION_ID, a.cid, d, Spaced);
    MemberSpelled(EVENT_TYPE, a.kind, c, Spaced);
    NamesQuoted();
  }

  // ---------------------------------------------------------------- the laws

  /** Looking the four entry fields up in the dictionary gives the entry back. */
  lemma EntryFields(e: Entry, rest: Members)
    requires {EVENT_TYPE, CORRELATION_ID, DATA, TIMESTAMP} !! Keys(rest)
    requires WellFormed(e) && ValidMembers(rest)
    ensures var ms := WithEntry(e, rest);
      ValidMembers(ms) && (forall k | k in Keys(rest) :: Get(ms, k) == Get(rest, k))
      && Get(ms, EVENT_TYPE) == Some(e.kind) && Get(ms, CORRELATION_ID) == Some(e.cid)
      && Get(ms, DATA) == Some(e.data) && Get(ms, TIMESTAMP) == Some(e.time)
  {
    NamesDiffer();
    FourFields(EVENT_TYPE, e.kind, CORRELATION_ID, e.cid, DATA, e.data, TIMESTAMP, e.time, rest);
  }

  lemma HashFieldsValid(e: Event)
    ensures var ms := HashFields(e);
      Keys(ms) == {PREV_HASH, HASH} && ValidMembers(ms)
      && Get(ms, PREV_HASH) == Some(Str(e.prev)) && Get(ms, HASH) == Some(Str(e.hash))
  {
    NamesDiffer();
    var last := Member(HASH, Str(e.hash), End);
    assert Valid(Str(e.hash)) && Valid(Str(e.prev)) && ValidMembers(End) && ValidMembers(last);
    assert Get(last, HASH) == Some(Str(e.hash));
  }

  /** Equal canonical text means equal event type, correlation id, data and timestamp. */
  lemma TextFixesEntry(a: Entry, b: Entry)
    requires WellFormed(a) && WellFormed(b) && CanonicalText(a) == CanonicalText(b)
    ensures SameEntry(a, b)
  {
    EntryFields(a, End);
    EntryFields(b, End);
    var m, n := WithEntry(a, End), WithEntry(b, End);
    Canonical.TextIsSame(Obj(m), Obj(n));
    assert Canonical.SameMembers(m, n) && Canonical.SameMembers(m.rest, n);
    assert Canonical.SameMembers(m.rest.rest, n) && Canonical.SameMembers(m.rest.rest.rest, n);
  }

  lemma TextStarts(e: Entry)
    ensures CanonicalText(e) != "" && CanonicalText(e)[0] == '{'
  {
    Canonical.TextOfObject(WithEntry(e, End));
  }

  lemma ReadWritten(e: Event, now: string)
    requires WellFormed(e.entry)
    ensures ReadLine(LineText(e), now) == Record(e.entry, Str(e.prev), Str(e.hash))
  {
    HashFieldsValid(e);
    NamesDiffer();
    EntryFields(e.entry, HashFields(e));
    var ms := WithEntry(e.entry, HashFields(e));
    ParsePut(Obj(ms), Spaced, "");
    assert LineText(e)[0] == '{' && SkipSpaces(LineText(e)) == LineText(e);
    assert ParseValue(LineText(e)) == Got(Obj(ms), "");
    ReadDict(e, ms, now);
    hide Render, ParseValue;
  }

  lemma ReadDict(e: Event, ms: Members, now: string)
    requires WellFormed(e.entry)
    requires Get(ms, EVENT_TYPE) == Some(e.entry.kind) && Get(ms, CORRELATION_ID) == Some(e.entry.cid)
    requires Get(ms, DATA) == Some(e.entry.data) && Get(ms, TIMESTAMP) == Some(e.entry.time)
    requires Get(ms, PREV_HASH) == Some(Str(e.prev)) && Get(ms, HASH) == Some(Str(e.hash))
    ensures FromDict(ms, now) == Record(e.entry, Str(e.prev), Str(e.hash))
  {
  }

  lemma FieldValid(ms: Members, k: string, default: Value)
    requires ValidMembers(ms) && Valid(default)
    ensures Valid(Field(ms, k, default))
  {
    if k in Keys(ms) { Canonical.GetValid(ms, k); }
  }

  lemma ReadIsWellFormed(line: string, now: string)
    ensures ReadLine(line, now).Record? ==> WellFormed(ReadLine(line, now).entry)
  {
    if ReadLine(line, now).Record? {
      var ms := ParseValue(SkipSpaces(line)).result.members;
      FieldValid(ms, EVENT_TYPE, Null);
      FieldValid(ms, CORRELATION_ID, Null);
      FieldValid(ms, DATA, Obj(End));
      FieldValid(ms, TIMESTAMP, Str(now));
    }
  }

  /** A reader of lines, reduced to what matters: it reads what was written, and yields
      dictionaries.  It may accept any other spelling as well. */
  ghost predicate Reads(read: (string, string) -> Line) {
    (forall e: Event, now | WellFormed(e.entry) :: read(LineText(e), now) == Record(e.entry, Str(e.prev), Str(e.hash)))
    && (forall s, now | read(s, now).Record? :: WellFormed(read(s, now).entry))
  }

  function FormatWith(h: HashFn, read: (string, string) -> Line): Format {
    Format(h, e => CanonicalText(e), e => LineText(e), read)
  }

  /** The source's texts meet every law the chain relies on, with any such reader. */
  lemma AnyReaderLawful(h: HashFn, read: (string, string) -> Line)
    requires Reads(read)
    ensures Lawful(FormatWith(h, read))
  {
    hide CanonicalText, LineText, WellFormed, SameEntry;
    var f := FormatWith(h, read);
    forall a, b | WellFormed(a) && WellFormed(b) && f.text(a) == f.text(b) ensures SameEntry(a, b) {
      TextFixesEntry(a, b);
    }
    forall a | WellFormed(a) ensures f.text(a) != "" && f.text(a)[0] == '{' { TextStarts(a); }
  }

  /** And so does the reader given here. */
  lemma JsonFormatLawful(h: HashFn)
    ensures Lawful(JsonFormat(h))
  {
    hide CanonicalText, LineText, ReadLine, WellFormed, SameEntry, Lawful;
    var f := JsonFormat(h);
    forall e: Event, now | WellFormed(e.entry)
      ensures f.read(LineText(e), now) == Record(e.entry, Str(e.prev), Str(e.hash)) { ReadWritten(e, now); }
    forall s, now | f.read(s, now).Record? ensures WellFormed(f.read(s, now).entry) { ReadIsWellFormed(s, now); }
    AnyReaderLawful(h, f.read);
  }

  // ---------------------------------------------------------------- one event, one line

  /** No line break and no other control character. */
  predicate OneLine(s: string) { forall i | 0 <= i < |s| :: s[i] as int >= 32 }

  lemma {:induction false} PutCharsOneLine(s: string, rest: string)
    requires OneLine(rest)
    ensures OneLine(PutChars(s, rest))
  {
    if s != "" {
      PutCharsOneLine(s[1..], rest);
      PutCharOneLine(s[0], PutChars(s[1..], rest));
    }
  }

  lemma PutCharOneLine(c: char, rest: string)
    requires OneLine(rest)
    ensures OneLine(PutChar(c, rest))
  {
    if c as int < 32 && !Named(c) { HexOneLine(c as int / 16); HexOneLine(c as int % 16); }
  }

  lemma HexOneLine(d: int)
    requires 0 <= d < 16
    ensures HEX[d] as int >= 32
  {
  }

  lemma {:induction false} PutNatOneLine(n: nat, rest: string)
    requires OneLine(rest)
    ensures OneLine(PutNat(n, rest))
  {
    if n >= 10 { PutNatOneLine(n / 10, [DigitChar(n % 10)] + rest); }
  }

  /** The text of a value holds no raw line break, whatever strings are in it. */
  lemma {:induction false} PutOneLine(v: Value, style: Style, rest: string)
    requires OneLine(rest)
    ensures OneLine(PutValue(v, style, rest))
    decreases v, 0
  {
    match v {
      case Num(n) => PutNatOneLine(if n < 0 then -n else n, rest);
      case Str(s) => PutCharsOneLine(s, ['\"'] + rest);
      case Arr(items) => PutItemsOneLine(items, style, [']'] + rest);
      case Obj(ms) => PutMembersOneLine(ms, style, ['}'] + rest);
      case _ =>
    }
  }

  lemma {:induction false} PutItemsOneLine(items: Items, style: Style, rest: string)
    requires OneLine(rest)
    ensures OneLine(PutItems(items, style, rest))
    decreases items, 1
  {
    if items.Item? {
      var after := if items.tail.Nil? then rest else PutSep(',', style, PutItems(items.tail, style, rest));
      PutItemsOneLine(items.tail, style, rest);
      PutOneLine(items.head, style, after);
    }
  }

  lemma {:induction false} PutMembersOneLine(ms: Members, style: Style, rest: string)
    requires OneLine(rest)
    ensures OneLine(PutMembers(ms, style, rest))
    decreases ms, 1
  {
    if ms.Member? {
      var after := if ms.rest.End? then rest else PutSep(',', style, PutMembers(ms.rest, style, rest));
      PutMembersOneLine(ms.rest, style, rest);
      PutOneLine(ms.value, style, after);
      PutCharsOneLine(ms.key, ['\"'] + PutSep(':', style, PutValue(ms.value, style, after)));
    }
  }

  lemma LineTextOneLine(e: Event)
    ensures OneLine(LineText(e))
  {
    PutOneLine(Obj(WithEntry(e.entry, HashFields(e))), Spaced, "");
  }

  /** The file after writing the lines one by one, each with its newline. */
  function FileText(lines: seq<string>): string {
    if lines == [] then "" else lines[0] + ['\n'] + FileText(lines[1..])
  }

  function UpToNewline(s: string): nat {
    if s == "" || s[0] == '\n' then 0 else 1 + UpToNewline(s[1..])
  }

  lemma UpToNewlineInside(s: string)
    ensures UpToNewline(s) <= |s|
  {
  }

  /** Reading the file line by line. */
  function FileLines(s: string): seq<string> {
    UpToNewlineInside(s);
    if s == "" then []
    else
      var n := UpToNewline(s);
      [s[..n]] + (if n < |s| then FileLines(s[n + 1..]) else [])
  }

  lemma {:induction false} NewlineFound(line: string, rest: string)
    requires OneLine(line)
    ensures UpToNewline(line + ['\n'] + rest) == |line|
  {
    var s := line + ['\n'] + rest;
    if line != "" {
      assert s[1..] == line[1..] + ['\n'] + rest;
      assert s[0] as int >= 32;
      NewlineFound(line[1..], rest);
    }
  }

  /** One event is one line: reading back what was written yields the lines written. */
  lemma {:induction false} FileLinesOfText(lines: seq<string>)
    requires forall i | 0 <= i < |lines| :: OneLine(lines[i])
    ensures FileLines(FileText(lines)) == lines
  {
    if lines != [] {
      var rest := FileText(lines[1..]);
      var s := lines[0] + ['\n'] + rest;
      NewlineFound(lines[0], rest);
      assert s[..|lines[0]|] == lines[0] && s[|lines[0]| + 1..] == rest;
      FileLinesOfText(lines[1..]);
      assert lines == [lines[0]] + lines[1..];
    }
  }
}
