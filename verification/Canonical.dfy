/**
 The canonical text `json.dumps(obj, sort_keys=True, separators=(",", ":"))` used for
 approvals and for the audit chain.  Two values have the same canonical text exactly
 when they are equal as JSON values, whatever the insertion order of their dictionaries.
 */
module Canonical {
  import opened Prelude
  import opened Json

  // ---------------------------------------------------------------- key order

  /** Python's order on strings: by code point, a proper prefix first. */
  predicate Less(a: string, b: string) {
    b != "" && (a == "" || a[0] < b[0] || (a[0] == b[0] && Less(a[1..], b[1..])))
  }

  lemma {:induction false} LessTotal(a: string, b: string)
    ensures Less(a, b) || a == b || Less(b, a)
  {
    if a != "" && b != "" && a[0] == b[0] {
      LessTotal(a[1..], b[1..]);
      assert a == [a[0]] + a[1..] && b == [b[0]] + b[1..];
    }
  }

  lemma {:induction false} LessTransitive(a: string, b: string, c: string)
    requires Less(a, b) && Less(b, c)
    ensures Less(a, c)
  {
    if a != "" && a[0] == b[0] && b[0] == c[0] {
      LessTransitive(a[1..], b[1..], c[1..]);
    }
  }

  lemma {:induction false} LessIrreflexive(a: string)
    ensures !Less(a, a)
  {
    if a != "" { LessIrreflexive(a[1..]); }
  }

  // ---------------------------------------------------------------- sorting

  function Insert(k: string, v: Value, ms: Members): (r: Members)
    ensures Keys(r) == {k} + Keys(ms)
  {
    if ms.End? || !Less(ms.key, k) then Member(k, v, ms)
    else Member(ms.key, ms.value, Insert(k, v, ms.rest))
  }

  /** The value with the members of every dictionary in key order. */
  function Sorted(v: Value): Value {
    match v
    case Arr(items) => Arr(SortedItems(items))
    case Obj(ms) => Obj(SortedMembers(ms))
    case _ => v
  }

  function SortedItems(items: Items): Items {
    match items
    case Nil => Nil
    case Item(v, tail) => Item(Sorted(v), SortedItems(tail))
  }

  function SortedMembers(ms: Members): (r: Members)
    ensures Keys(r) == Keys(ms)
  {
    match ms
    case End => End
    case Member(k, v, rest) => Insert(k, Sorted(v), SortedMembers(rest))
  }

  function Text(v: Value): string { Render(Sorted(v), Compact) }

  // ---------------------------------------------------------------- equality

  /** Equality of JSON values: lists in order, dictionaries by key. */
  predicate Same(a: Value, b: Value) {
    match (a, b)
    case (Arr(xs), Arr(ys)) => SameItems(xs, ys)
    case (Obj(ms), Obj(ns)) => Keys(ms) == Keys(ns) && SameMembers(ms, ns)
    case _ => a == b
  }

  predicate SameItems(xs: Items, ys: Items) {
    match (xs, ys)
    case (Nil, Nil) => true
    case (Item(x, xs'), Item(y, ys')) => Same(x, y) && SameItems(xs', ys')
    case _ => false
  }

  /** Every member of `ms` has an equal value in `ns`. */
  predicate SameMembers(ms: Members, ns: Members) {
    ms.End? || (
      match Get(ns, ms.key)
      case Some(w) => Same(ms.value, w) && SameMembers(ms.rest, ns)
      case None => false)
  }

  // ---------------------------------------------------------------- sorting is canonical

  ghost predicate Above(k: string, ms: Members) {
    forall key :: key in Keys(ms) ==> Less(k, key)
  }

  ghost predicate Ordered(ms: Members) {
    ms.Member? ==> Above(ms.key, ms.rest) && Ordered(ms.rest)
  }

  lemma {:induction false} InsertOrdered(k: string, v: Value, ms: Members)
    requires Ordered(ms) && k !in Keys(ms)
    ensures Ordered(Insert(k, v, ms))
    ensures forall key :: Get(Insert(k, v, ms), key) == if key == k then Some(v) else Get(ms, key)
  {
    if ms.Member? {
      LessTotal(ms.key, k);
      if Less(ms.key, k) {
        InsertOrdered(k, v, ms.rest);
      } else {
        forall key | key in Keys(ms) ensures Less(k, key) {
          if key != ms.key { LessTransitive(k, ms.key, key); }
        }
      }
    }
  }

  function SortedOption(o: Option<Value>): Option<Value> {
    match o
    case Some(v) => Some(Sorted(v))
    case None => None
  }

  lemma SortedStep(k: string, v: Value, rest: Members)
    ensures SortedMembers(Member(k, v, rest)) == Insert(k, Sorted(v), SortedMembers(rest))
    ensures SortedMembers(End) == End
    ensures Sorted(Obj(rest)) == Obj(SortedMembers(rest))
  {
  }

  /** Sorting orders the keys and changes no binding except to sort its value. */
  lemma {:induction false} SortedMembersGet(ms: Members)
    requires ValidMembers(ms)
    ensures Ordered(SortedMembers(ms))
    ensures forall key :: Get(SortedMembers(ms), key) == SortedOption(Get(ms, key))
  {
    if ms.Member? {
      SortedMembersGet(ms.rest);
      InsertOrdered(ms.key, Sorted(ms.value), SortedMembers(ms.rest));
    }
  }

  lemma {:induction false} OrderedUnique(ms: Members, ns: Members)
    requires Ordered(ms) && Ordered(ns)
    requires forall key :: Get(ms, key) == Get(ns, key)
    ensures ms == ns
  {
    forall key ensures key in Keys(ms) <==> key in Keys(ns) {
      assert Get(ms, key) == Get(ns, key);
    }
    assert ms.Member? ==> ms.key in Keys(ms);
    assert ns.Member? ==> ns.key in Keys(ns);
    if ms.Member? && ns.Member? {
      assert Get(ns, ms.key) == Some(ms.value);
      assert Get(ms, ns.key) == Some(ns.value);
      if ms.key != ns.key {
        LessTransitive(ms.key, ns.key, ms.key);
        LessIrreflexive(ms.key);
        assert false;
      }
      LessIrreflexive(ms.key);
      assert ms.key !in Keys(ms.rest) && ms.key !in Keys(ns.rest);
      forall key ensures Get(ms.rest, key) == Get(ns.rest, key) {
        assert Get(ms, key) == Get(ns, key);
      }
      OrderedUnique(ms.rest, ns.rest);
    }
  }

  /** The value under a key of a valid dictionary is valid. */
  lemma {:induction false} GetValid(ms: Members, k: string)
    requires ValidMembers(ms) && k in Keys(ms)
    ensures Valid(Get(ms, k).value)
  {
    if ms.key != k { GetValid(ms.rest, k); }
  }

  /** Equal values are exactly those with the same sorted form. */
  lemma {:induction false} SameIsSorted(a: Value, b: Value)
    requires Valid(a) && Valid(b)
    ensures Same(a, b) <==> Sorted(a) == Sorted(b)
    decreases a, 0
  {
    match (a, b) {
      case (Arr(xs), Arr(ys)) => SameIsSortedItems(xs, ys);
      case (Obj(ms), Obj(ns)) =>
        SortedMembersGet(ms);
        SortedMembersGet(ns);
        SameIsSortedMembers(ms, ns);
        if Same(a, b) {
          forall key ensures Get(SortedMembers(ms), key) == Get(SortedMembers(ns), key) {
            assert key in Keys(ms) <==> key in Keys(ns);
          }
          OrderedUnique(SortedMembers(ms), SortedMembers(ns));
        }
        if Sorted(a) == Sorted(b) {
          assert Keys(ms) == Keys(SortedMembers(ms)) == Keys(ns);
          forall k | k in Keys(ms)
            ensures k in Keys(ns) && Sorted(Get(ms, k).value) == Sorted(Get(ns, k).value)
          {
            assert Get(SortedMembers(ms), k) == Get(SortedMembers(ns), k);
          }
        }
      case _ =>
    }
  }

  lemma {:induction false} SameIsSortedItems(xs: Items, ys: Items)
    requires ValidItems(xs) && ValidItems(ys)
    ensures SameItems(xs, ys) <==> SortedItems(xs) == SortedItems(ys)
    decreases xs, 1
  {
    if xs.Item? && ys.Item? {
      SameIsSorted(xs.head, ys.head);
      SameIsSortedItems(xs.tail, ys.tail);
    }
  }

  lemma {:induction false} SameIsSortedMembers(ms: Members, ns: Members)
    requires ValidMembers(ms) && ValidMembers(ns)
    ensures SameMembers(ms, ns) <==>
      forall k | k in Keys(ms) :: k in Keys(ns) && Sorted(Get(ms, k).value) == Sorted(Get(ns, k).value)
    decreases ms, 1
  {
    if ms.Member? {
      SameIsSortedMembers(ms.rest, ns);
      assert Get(ms, ms.key) == Some(ms.value);
      forall k | k in Keys(ms.rest) ensures Get(ms, k) == Get(ms.rest, k) {}
      if ms.key in Keys(ns) {
        GetValid(ns, ms.key);
        SameIsSorted(ms.value, Get(ns, ms.key).value);
      }
    }
  }

  // ---------------------------------------------------------------- sorted values are valid

  lemma {:induction false} InsertValid(k: string, v: Value, ms: Members)
    requires ValidMembers(ms) && Valid(v) && k !in Keys(ms)
    ensures ValidMembers(Insert(k, v, ms))
  {
    if ms.Member? && Less(ms.key, k) { InsertValid(k, v, ms.rest); }
  }

  lemma {:induction false} SortedValid(v: Value)
    requires Valid(v)
    ensures Valid(Sorted(v))
    decreases v, 0
  {
    match v {
      case Arr(items) => SortedItemsValid(items);
      case Obj(ms) => SortedMembersValid(ms);
      case _ =>
    }
  }

  lemma {:induction false} SortedItemsValid(items: Items)
    requires ValidItems(items)
    ensures ValidItems(SortedItems(items))
    decreases items, 1
  {
    if items.Item? { SortedValid(items.head); SortedItemsValid(items.tail); }
  }

  lemma {:induction false} SortedMembersValid(ms: Members)
    requires ValidMembers(ms)
    ensures ValidMembers(SortedMembers(ms))
    decreases ms, 1
  {
    if ms.Member? {
      SortedValid(ms.value);
      SortedMembersValid(ms.rest);
      InsertValid(ms.key, Sorted(ms.value), SortedMembers(ms.rest));
    }
  }

  // ---------------------------------------------------------------- main results

  /** Decoding the canonical text gives back an equal value. */
  lemma DecodeText(v: Value)
    requires Valid(v)
    ensures Parse(Text(v)).Some? && Same(v, Parse(Text(v)).value)
  {
    SortedValid(v);
    ParseRender(Sorted(v), Compact);
    SortedTwice(v);
    SameIsSorted(v, Sorted(v));
  }

  lemma SortedTwice(v: Value)
    requires Valid(v)
    ensures Sorted(Sorted(v)) == Sorted(v)
    decreases v, 0
  {
    match v {
      case Arr(items) => SortedItemsTwice(items);
      case Obj(ms) =>
        SortedMembersValid(ms);
        SortedMembersGet(ms);
        SortedMembersGet(SortedMembers(ms));
        forall key ensures Get(SortedMembers(SortedMembers(ms)), key) == Get(SortedMembers(ms), key) {
          if key in Keys(ms) { GetTwice(ms, key); }
        }
        OrderedUnique(SortedMembers(SortedMembers(ms)), SortedMembers(ms));
      case _ =>
    }
  }

  lemma {:induction false} SortedItemsTwice(items: Items)
    requires ValidItems(items)
    ensures SortedItems(SortedItems(items)) == SortedItems(items)
    decreases items, 1
  {
    if items.Item? { SortedTwice(items.head); SortedItemsTwice(items.tail); }
  }

  lemma {:induction false} GetTwice(ms: Members, key: string)
    requires ValidMembers(ms) && key in Keys(ms)
    ensures Sorted(Sorted(Get(ms, key).value)) == Sorted(Get(ms, key).value)
    decreases ms, 1
  {
    if ms.key == key { SortedTwice(ms.value); } else { GetTwice(ms.rest, key); }
  }

  /** Equal canonical text means equal values, and equal values have equal text whatever
      the order in which their dictionaries were filled. */
  lemma TextIsSame(a: Value, b: Value)
    requires Valid(a) && Valid(b)
    ensures Text(a) == Text(b) <==> Same(a, b)
  {
    SortedValid(a);
    SortedValid(b);
    ParseRender(Sorted(a), Compact);
    ParseRender(Sorted(b), Compact);
    SameIsSorted(a, b);
  }

  lemma TextOfObject(ms: Members)
    ensures Text(Obj(ms)) != "" && Text(Obj(ms))[0] == '{'
  {
  }
}

/** Looking up the fields of a dictionary written out member by member. */
module Fields {
  import opened Prelude
  import opened Json

  lemma FourFields(k1: string, v1: Value, k2: string, v2: Value, k3: string, v3: Value, k4: string, v4: Value,
                   rest: Members)
    requires k1 !in {k2, k3, k4} && k2 !in {k3, k4} && k3 != k4
    requires {k1, k2, k3, k4} !! Keys(rest)
    ensures var ms := Member(k1, v1, Member(k2, v2, Member(k3, v3, Member(k4, v4, rest))));
      Get(ms, k1) == Some(v1) && Get(ms, k2) == Some(v2) && Get(ms, k3) == Some(v3) && Get(ms, k4) == Some(v4)
      && (forall k | k in Keys(rest) :: Get(ms, k) == Get(rest, k))
      && (Valid(v1) && Valid(v2) && Valid(v3) && Valid(v4) && ValidMembers(rest) ==> ValidMembers(ms))
  {
    var m4 := Member(k4, v4, rest);
    var m3 := Member(k3, v3, m4);
    var m2 := Member(k2, v2, m3);
    var m1 := Member(k1, v1, m2);
    assert Keys(m4) == {k4} + Keys(rest) && Keys(m3) == {k3, k4} + Keys(rest);
    assert Keys(m2) == {k2, k3, k4} + Keys(rest);
    forall k | k in Keys(rest) || k == k4 ensures Get(m1, k) == Get(m4, k) {
      assert Get(m1, k) == Get(m2, k) == Get(m3, k);
    }
    assert Get(m1, k3) == Get(m2, k3) == Get(m3, k3);
    if Valid(v1) && Valid(v2) && Valid(v3) && Valid(v4) && ValidMembers(rest) {
      assert ValidMembers(m4) && ValidMembers(m3) && ValidMembers(m2);
    }
  }

  /** How a named member is spelled, with what follows it. */
  lemma MemberSpelled(k: string, v: Value, rest: Members, style: Style)
    ensures SpelledMembers(Member(k, v, rest), style)
         == Quoted(k) + Colon(style) + Spelled(v, style) + (if rest.End? then "" else Comma(style) + SpelledMembers(rest, style))
  {
  }

  /** Letters and underscores need no escape. */
  predicate Plain(s: string) { forall i | 0 <= i < |s| :: 'a' <= s[i] <= 'z' || s[i] == '_' }

  lemma {:induction false} PlainEscaped(s: string)
    requires Plain(s)
    ensures Escaped(s) == s
    decreases |s|
  {
    if s != "" { PlainEscaped(s[1..]); }
  }

  lemma PlainQuoted(s: string)
    requires Plain(s)
    ensures Quoted(s) == "\"" + s + "\""
  {
    PlainEscaped(s);
  }
}
