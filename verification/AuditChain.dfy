/** Hash functions as parameters: nothing is assumed of SHA-256 beyond the shape of its
    hexadecimal digest, so results read "equal, or here is an explicit collision". */
module Hashing {
  predicate IsDigest(d: string) {
    |d| == 64 && forall i | 0 <= i < |d| :: '0' <= d[i] <= '9' || 'a' <= d[i] <= 'f'
  }

  type HashFn = h: string -> string | forall s: string :: IsDigest(h(s))
    witness (s: string) => seq(64, i => '0')

  /** A keyed signature, HMAC-SHA-256 in the source: key and text to signature. */
  type MacFn = (string, string) -> string

  predicate Collision(h: HashFn, x: string, y: string) {
    x != y && h(x) == h(y)
  }

  /** What is hashed is `prev + canonical` with nothing in between.  The split can still be
      recovered: `prev` holds no brace and the canonical text starts with one. */
  lemma SplitUnique(p: string, c: string, q: string, d: string)
    requires '{' !in p && '{' !in q
    requires c != "" && c[0] == '{' && d != "" && d[0] == '{'
    ensures p + c == q + d <==> p == q && c == d
  {
    if p + c == q + d {
      var s := p + c;
      assert s[..|p|] == p && s[..|q|] == q && s[|p|] == '{' && s[|q|] == '{';
      assert |p| == |q|;
      assert p == (p + c)[..|p|] && q == (q + d)[..|q|];
      assert c == (p + c)[|p|..] && d == (q + d)[|q|..];
    }
  }
}

/**
 The hash chain of `audit/store.py`: events, the link between neighbours, loading a log
 line by line, and the result that the tail hash determines the whole log.

 How an event becomes text and how a line is read back is a parameter, `Format`; what is
 needed of it is stated once (`Lawful`) and proved of the source's JSON in `AuditFormat`.
 */
module AuditChain {
  import opened Prelude
  import opened Json
  import Canonical
  import opened Hashing

  const GENESIS := "GENESIS"

  /** The hashed part of an event: event_type, correlation_id, data, timestamp. */
  datatype Entry = Entry(kind: Value, cid: Value, data: Value, time: Value)

  datatype Event = Event(entry: Entry, prev: string, hash: string)

  /** Values a Python program can hold; an empty or missing payload is stored as `{}`. */
  predicate WellFormed(e: Entry) {
    Valid(e.kind) && Valid(e.cid) && Valid(e.data) && Valid(e.time) && OrEmpty(e.data) == e.data
  }

  predicate Falsy(v: Value) {
    v == Null || v == Bool(false) || v == Num(0) || v == Str("") || v == Arr(Nil) || v == Obj(End)
  }

  /** `data or {}` */
  function OrEmpty(v: Value): Value { if Falsy(v) then Obj(End) else v }

  /** What is stored for a payload: the payload itself unless Python takes it for false, which
      nothing, zero and everything empty are. */
  lemma PayloadKept(v: Value)
    ensures OrEmpty(v) == (match v
      case Null => Obj(End)
      case Bool(b) => if b then v else Obj(End)
      case Num(n) => if n != 0 then v else Obj(End)
      case Str(s) => if |s| > 0 then v else Obj(End)
      case Arr(items) => if items.Item? then v else Obj(End)
      case Obj(_) => v)
  {
  }

  predicate SameEntry(a: Entry, b: Entry) {
    Canonical.Same(a.kind, b.kind) && Canonical.Same(a.cid, b.cid)
    && Canonical.Same(a.data, b.data) && Canonical.Same(a.time, b.time)
  }

  /** A log line after `json.loads(line.strip())`.  `Missing` has no event_type or
      correlation_id, or is no dictionary at all. */
  datatype Line = Blank | NotJson | Missing | Record(entry: Entry, prev: Value, hash: Value)

  /** `text` is AuditEvent.canonical, `line` what `_flush` writes, `read` what a line read at a
      given time (which stands in for a missing timestamp) holds. */
  datatype Format = Format(hash: HashFn, text: Entry -> string, line: Event -> string,
                           read: (string, string) -> Line)

  ghost predicate Lawful(f: Format) {
    && (forall a, b | WellFormed(a) && WellFormed(b) && f.text(a) == f.text(b) :: SameEntry(a, b))
    && (forall a | WellFormed(a) :: f.text(a) != "" && f.text(a)[0] == '{')
    && (forall e: Event, now | WellFormed(e.entry) :: f.read(f.line(e), now) == Record(e.entry, Str(e.prev), Str(e.hash)))
    && (forall s, now | f.read(s, now).Record? :: WellFormed(f.read(s, now).entry))
  }

  function Tail(es: seq<Event>): string {
    if es == [] then GENESIS else es[|es| - 1].hash
  }

  predicate Linked(f: Format, prev: string, e: Event) {
    e.prev == prev && e.hash == f.hash(prev + f.text(e.entry)) && WellFormed(e.entry)
  }

  predicate Chain(f: Format, es: seq<Event>)
    decreases |es|
  {
    es == [] || (Chain(f, es[..|es| - 1]) && Linked(f, Tail(es[..|es| - 1]), es[|es| - 1]))
  }

  lemma ChainExtend(f: Format, es: seq<Event>, e: Event)
    ensures Chain(f, es + [e]) <==> Chain(f, es) && Linked(f, Tail(es), e)
    ensures Tail(es + [e]) == e.hash
  {
    assert (es + [e])[..|es|] == es;
  }

  lemma {:induction false} ChainPrefix(f: Format, es: seq<Event>, n: nat)
    requires Chain(f, es) && n <= |es|
    ensures Chain(f, es[..n])
    decreases |es|
  {
    hide Linked;
    if n < |es| {
      ChainPrefix(f, es[..|es| - 1], n);
      assert es[..|es| - 1][..n] == es[..n];
    } else {
      assert es[..n] == es;
    }
  }

  // ---------------------------------------------------------------- the tail fixes the log

  predicate SameEvent(a: Event, b: Event) {
    SameEntry(a.entry, b.entry) && a.prev == b.prev && a.hash == b.hash
  }

  predicate SameEvents(xs: seq<Event>, ys: seq<Event>) {
    |xs| == |ys| && forall i | 0 <= i < |xs| :: SameEvent(xs[i], ys[i])
  }

  /** Walks two chains back from their tails to the first pair of hash inputs that differ. */
  function WalkBack(f: Format, xs: seq<Event>, ys: seq<Event>): Option<(string, string)>
    decreases |xs|
  {
    if xs == [] || ys == [] then None
    else
      var a, b := xs[|xs| - 1], ys[|ys| - 1];
      var s, t := a.prev + f.text(a.entry), b.prev + f.text(b.entry);
      if s != t then Some((s, t)) else WalkBack(f, xs[..|xs| - 1], ys[..|ys| - 1])
  }

  lemma TailShape(f: Format, es: seq<Event>)
    requires Chain(f, es)
    ensures '{' !in Tail(es)
    ensures es != [] ==> IsDigest(Tail(es)) && Tail(es) != GENESIS
  {
    if es != [] { assert IsDigest(Tail(es)); }
  }

  /** GENESIS is never a digest, so an empty chain shares its tail with no other. */
  lemma EmptyTails(f: Format, xs: seq<Event>, ys: seq<Event>)
    requires Chain(f, xs) && Chain(f, ys) && Tail(xs) == Tail(ys)
    ensures xs == [] <==> ys == []
  {
    TailShape(f, xs);
    TailShape(f, ys);
  }

  lemma SameLink(f: Format, a: Event, b: Event)
    requires Lawful(f) && WellFormed(a.entry) && WellFormed(b.entry) && '{' !in a.prev && '{' !in b.prev
    requires a.prev + f.text(a.entry) == b.prev + f.text(b.entry) && a.hash == b.hash
    ensures SameEvent(a, b) && a.prev == b.prev
  {
    hide SameEntry, WellFormed;
    SplitUnique(a.prev, f.text(a.entry), b.prev, f.text(b.entry));
  }

  lemma InitAndLast(es: seq<Event>)
    requires es != []
    ensures es == es[..|es| - 1] + [es[|es| - 1]]
  {
  }

  lemma SameExtend(xs: seq<Event>, ys: seq<Event>, a: Event, b: Event)
    requires SameEvents(xs, ys) && SameEvent(a, b)
    ensures SameEvents(xs + [a], ys + [b])
  {
    hide SameEvent;
  }

  /** Two chains with the same tail hash hold the same events in the same order and number,
      or walking them back yields two different strings with the same hash. */
  lemma {:induction false} TailFixesLog(f: Format, xs: seq<Event>, ys: seq<Event>)
    requires Lawful(f) && Chain(f, xs) && Chain(f, ys) && Tail(xs) == Tail(ys)
    ensures match WalkBack(f, xs, ys)
      case None => SameEvents(xs, ys)
      case Some(st) => Collision(f.hash, st.0, st.1)
    decreases |xs|
  {
    hide Lawful, WellFormed, SameEvent, IsDigest;
    EmptyTails(f, xs, ys);
    if xs != [] && ys != [] {
      var xs', ys' := xs[..|xs| - 1], ys[..|ys| - 1];
      var a, b := xs[|xs| - 1], ys[|ys| - 1];
      if a.prev + f.text(a.entry) == b.prev + f.text(b.entry) {
        TailShape(f, xs');
        TailShape(f, ys');
        SameLink(f, a, b);
        TailFixesLog(f, xs', ys');
        if WalkBack(f, xs', ys').None? { SameExtend(xs', ys', a, b); }
        InitAndLast(xs);
        InitAndLast(ys);
      }
    }
  }

  // ---------------------------------------------------------------- loading a log

  /** `Broken` is ChainIntegrityError; `Crashed` is any other exception, raised before or
      after the store was marked unhealthy. */
  datatype LoadResult = Loaded(events: seq<Event>) | Broken | Crashed(quarantined: bool)

  /** One round of the verification loop.  The error text slices the stored hash, which only
      a string or a list allows. */
  function LoadLine(f: Format, r: LoadResult, line: string, now: string): LoadResult {
    if !r.Loaded? then r
    else match f.read(line, now)
      case Blank => r
      case NotJson => Broken
      case Missing => Crashed(false)
      case Record(entry, prev, hash) =>
        var last := Tail(r.events);
        var expected := f.hash(last + f.text(entry));
        if hash == Str(expected) && prev == Str(last) then Loaded(r.events + [Event(entry, last, expected)])
        else if hash.Str? || hash.Arr? then Broken else Crashed(true)
  }

  function Load(f: Format, lines: seq<string>, now: string): LoadResult
    decreases |lines|
  {
    if lines == [] then Loaded([])
    else LoadLine(f, Load(f, lines[..|lines| - 1], now), lines[|lines| - 1], now)
  }

  lemma LoadExtend(f: Format, lines: seq<string>, line: string, now: string)
    ensures Load(f, lines + [line], now) == LoadLine(f, Load(f, lines, now), line, now)
  {
    assert (lines + [line])[..|lines|] == lines;
  }

  /** Once a line fails, the rest of the file does not matter. */
  lemma {:induction false} FailsAt(f: Format, lines: seq<string>, n: nat, now: string)
    requires n <= |lines| && !Load(f, lines[..n], now).Loaded?
    ensures Load(f, lines, now) == Load(f, lines[..n], now)
    decreases |lines| - n
  {
    if n == |lines| {
      assert lines[..n] == lines;
    } else {
      assert lines[..n] + [lines[n]] == lines[..n + 1];
      LoadExtend(f, lines[..n], lines[n], now);
      FailsAt(f, lines, n + 1, now);
    }
  }

  /** What loads is a valid chain. */
  lemma {:induction false} LoadIsChain(f: Format, lines: seq<string>, now: string)
    requires Lawful(f)
    ensures Load(f, lines, now).Loaded? ==> Chain(f, Load(f, lines, now).events)
    decreases |lines|
  {
    hide WellFormed, SameEntry;
    if lines != [] {
      var before, line := lines[..|lines| - 1], lines[|lines| - 1];
      LoadIsChain(f, before, now);
      var r, r' := Load(f, before, now), Load(f, lines, now);
      if r'.Loaded? && r' != r {
        ChainExtend(f, r.events, r'.events[|r.events|]);
      }
    }
  }

  /** The line written for an event reads back as exactly that event, at any later time. */
  lemma LoadWritten(f: Format, es: seq<Event>, e: Event, now: string)
    requires Lawful(f) && Linked(f, Tail(es), e)
    ensures LoadLine(f, Loaded(es), f.line(e), now) == Loaded(es + [e])
  {
    hide WellFormed, SameEntry;
  }

  /** Any two log files accepted with the same tail hash hold the same events in the same
      order and number, or a collision is exhibited. */
  lemma AcceptedWithSameTail(f: Format, m: seq<string>, n: seq<string>, t: string, u: string)
    requires Lawful(f) && Load(f, m, t).Loaded? && Load(f, n, u).Loaded?
    requires Tail(Load(f, m, t).events) == Tail(Load(f, n, u).events)
    ensures var xs, ys := Load(f, m, t).events, Load(f, n, u).events;
      match WalkBack(f, xs, ys)
      case None => SameEvents(xs, ys)
      case Some(st) => Collision(f.hash, st.0, st.1)
  {
    hide Lawful, SameEvent;
    LoadIsChain(f, m, t);
    LoadIsChain(f, n, u);
    TailFixesLog(f, Load(f, m, t).events, Load(f, n, u).events);
  }
}
