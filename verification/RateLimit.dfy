/** The sliding-window rate limiter of `policy/engine.py`, with idempotent re-admission,
    compared with the full history of what it has admitted. */
module RateLimit {
  import opened Prelude

  datatype Limits = Limits(maxCalls: int, window: real)

  datatype Admission = Admission(time: real, cid: string)

  type Windows = map<string, seq<Admission>>

  datatype Call = Call(key: string, cid: string, now: real)

  /** The entries still inside the window at `now`. */
  function Prune(es: seq<Admission>, now: real, window: real): seq<Admission>
    decreases |es|
  {
    if es == [] then []
    else
      var e, before := es[|es| - 1], Prune(es[..|es| - 1], now, window);
      if now - e.time <= window then before + [e] else before
  }

  predicate HasCid(es: seq<Admission>, cid: string) { exists i | 0 <= i < |es| :: es[i].cid == cid }

  function Entries(ws: Windows, key: string): seq<Admission> { if key in ws then ws[key] else [] }

  /** `RateLimiter.check`: the new windows and the answer. */
  function Decide(l: Limits, ws: Windows, c: Call): (Windows, bool) {
    var pruned := Prune(Entries(ws, c.key), c.now, l.window);
    if HasCid(pruned, c.cid) then (ws[c.key := pruned], true)
    else if |pruned| >= l.maxCalls then (ws[c.key := pruned], false)
    else (ws[c.key := pruned + [Admission(c.now, c.cid)]], true)
  }

  class RateLimiter {
    const limits: Limits
    var events: Windows

    constructor (maxCalls: int, windowSeconds: real)
      ensures limits == Limits(maxCalls, windowSeconds) && events == map[]
    {
      limits, events := Limits(maxCalls, windowSeconds), map[];
    }

    method Check(key: string, cid: string, now: real) returns (ok: bool)
      modifies this
      ensures (events, ok) == Decide(limits, old(events), Call(key, cid, now))
    {
      if key !in events { events := events[key := []]; }
      var window := Prune(events[key], now, limits.window);
      events := events[key := window];
      assert events == old(events)[key := window];
      if HasCid(window, cid) { return true; }
      if |window| >= limits.maxCalls { return false; }
      events := events[key := window + [Admission(now, cid)]];
      assert events == old(events)[key := window + [Admission(now, cid)]];
      return true;
    }
  }

  // ---------------------------------------------------------------- runs and their history

  function After(l: Limits, calls: seq<Call>): Windows
    decreases |calls|
  {
    if calls == [] then map[] else Decide(l, After(l, calls[..|calls| - 1]), calls[|calls| - 1]).0
  }

  /** The answer to the last call. */
  function Answer(l: Limits, calls: seq<Call>): bool
    requires calls != []
  {
    Decide(l, After(l, calls[..|calls| - 1]), calls[|calls| - 1]).1
  }

  /** The windows still hold the entry that the last call took. */
  predicate TookSlot(l: Limits, calls: seq<Call>)
    requires calls != []
  {
    var c := calls[|calls| - 1];
    var pruned := Prune(Entries(After(l, calls[..|calls| - 1]), c.key), c.now, l.window);
    !HasCid(pruned, c.cid) && |pruned| < l.maxCalls
  }

  /** Everything ever admitted under `key`, never pruned. */
  function Admitted(l: Limits, calls: seq<Call>, key: string): seq<Admission>
    decreases |calls|
  {
    if calls == [] then []
    else
      var c, before := calls[|calls| - 1], Admitted(l, calls[..|calls| - 1], key);
      if c.key == key && TookSlot(l, calls) then before + [Admission(c.now, c.cid)] else before
  }

  predicate Monotone(calls: seq<Call>) {
    forall i, j | 0 <= i < j < |calls| :: calls[i].now <= calls[j].now
  }

  predicate NotBefore(calls: seq<Call>, now: real) {
    forall i | 0 <= i < |calls| :: calls[i].now <= now
  }

  // ---------------------------------------------------------------- pruning

  lemma PruneConcat(es: seq<Admission>, e: Admission, now: real, window: real)
    ensures Prune(es + [e], now, window)
         == if now - e.time <= window then Prune(es, now, window) + [e] else Prune(es, now, window)
  {
    assert (es + [e])[..|es|] == es;
  }

  /** Pruning at an earlier time first loses nothing that would survive later. */
  lemma {:induction false} PruneTwice(es: seq<Admission>, t: real, now: real, window: real)
    requires t <= now
    ensures Prune(Prune(es, t, window), now, window) == Prune(es, now, window)
    decreases |es|
  {
    if es != [] {
      var es', e := es[..|es| - 1], es[|es| - 1];
      PruneTwice(es', t, now, window);
      if t - e.time <= window { PruneConcat(Prune(es', t, window), e, now, window); }
    }
  }

  lemma {:induction false} PruneMember(es: seq<Admission>, now: real, window: real, e: Admission)
    ensures e in Prune(es, now, window) <==> e in es && now - e.time <= window
    decreases |es|
  {
    if es != [] {
      PruneMember(es[..|es| - 1], now, window, e);
      assert es == es[..|es| - 1] + [es[|es| - 1]];
    }
  }

  /** The windows agree with the full history on everything that can still matter. */
  lemma {:induction false} WindowIsHistory(l: Limits, calls: seq<Call>, key: string, now: real)
    requires Monotone(calls) && NotBefore(calls, now)
    ensures Prune(Entries(After(l, calls), key), now, l.window) == Prune(Admitted(l, calls, key), now, l.window)
    decreases |calls|
  {
    if calls != [] {
      var before, c := calls[..|calls| - 1], calls[|calls| - 1];
      WindowIsHistory(l, before, key, now);
      if c.key == key {
        var entries := Entries(After(l, before), key);
        PruneTwice(entries, c.now, now, l.window);
        PruneConcat(Prune(entries, c.now, l.window), Admission(c.now, c.cid), now, l.window);
        PruneConcat(Admitted(l, before, key), Admission(c.now, c.cid), now, l.window);
      }
    }
  }

  // ---------------------------------------------------------------- main results

  /** The limiter answers as if it had kept everything: the list it has pruned is the full
      history filtered to the current window, a known id is let through without a slot, and
      a new id is refused exactly when that filter already holds `maxCalls` entries. */
  lemma LimiterExact(l: Limits, calls: seq<Call>, c: Call)
    requires Monotone(calls + [c])
    ensures var recent := Prune(Admitted(l, calls, c.key), c.now, l.window);
      Prune(Entries(After(l, calls), c.key), c.now, l.window) == recent
      && (Answer(l, calls + [c]) <==> HasCid(recent, c.cid) || |recent| < l.maxCalls)
      && (TookSlot(l, calls + [c]) <==> !HasCid(recent, c.cid) && |recent| < l.maxCalls)
      && (!Answer(l, calls + [c]) <==> !HasCid(recent, c.cid) && |recent| >= l.maxCalls)
  {
    var all := calls + [c];
    assert all[..|calls|] == calls && all[|calls|] == c;
    assert Monotone(calls) && NotBefore(calls, c.now) by {
      forall i, j | 0 <= i < j < |calls| ensures calls[i].now <= calls[j].now { assert all[i].now <= all[j].now; }
      forall i | 0 <= i < |calls| ensures calls[i].now <= c.now { assert all[i].now <= all[|calls|].now; }
    }
    WindowIsHistory(l, calls, c.key, c.now);
  }

  /** The admissions with a time in the closed interval from `t` to `t + window`. */
  function Within(es: seq<Admission>, t: real, window: real): seq<Admission>
    decreases |es|
  {
    if es == [] then []
    else
      var e, before := es[|es| - 1], Within(es[..|es| - 1], t, window);
      if t <= e.time <= t + window then before + [e] else before
  }

  function AtLeastZero(n: int): nat { if n < 0 then 0 else n }

  lemma {:induction false} WithinIsRecent(es: seq<Admission>, t: real, now: real, window: real)
    requires now - window <= t
    ensures |Within(es, t, window)| <= |Prune(es, now, window)|
    decreases |es|
  {
    if es != [] { WithinIsRecent(es[..|es| - 1], t, now, window); }
  }

  /** In any closed interval of the window's length at most `maxCalls` calls are admitted. */
  lemma {:induction false} WindowBound(l: Limits, calls: seq<Call>, key: string, t: real)
    requires Monotone(calls)
    ensures |Within(Admitted(l, calls, key), t, l.window)| <= AtLeastZero(l.maxCalls)
    decreases |calls|
  {
    if calls != [] {
      var before, c := calls[..|calls| - 1], calls[|calls| - 1];
      WindowBound(l, before, key, t);
      assert before + [c] == calls;
      if c.key == key && TookSlot(l, calls) && t <= c.now <= t + l.window {
        LimiterExact(l, before, c);
        WithinIsRecent(Admitted(l, before, key), t, c.now, l.window);
        WithinConcat(Admitted(l, before, key), Admission(c.now, c.cid), t, l.window);
      } else if c.key == key && TookSlot(l, calls) {
        WithinConcat(Admitted(l, before, key), Admission(c.now, c.cid), t, l.window);
      }
    }
  }

  lemma WithinConcat(es: seq<Admission>, e: Admission, t: real, window: real)
    ensures Within(es + [e], t, window)
         == if t <= e.time <= t + window then Within(es, t, window) + [e] else Within(es, t, window)
  {
    assert (es + [e])[..|es|] == es;
  }

  /** The ids answered True under `key` between `t` and `t + window`, re-checks included. */
  function Passed(l: Limits, calls: seq<Call>, key: string, t: real): set<string>
    decreases |calls|
  {
    if calls == [] then {}
    else
      var c := calls[|calls| - 1];
      Passed(l, calls[..|calls| - 1], key, t)
        + (if c.key == key && t <= c.now <= t + l.window && Answer(l, calls) then {c.cid} else {})
  }

  function Cids(es: seq<Admission>): set<string>
    decreases |es|
  {
    if es == [] then {} else Cids(es[..|es| - 1]) + {es[|es| - 1].cid}
  }

  lemma {:induction false} CidsSmall(es: seq<Admission>)
    ensures |Cids(es)| <= |es|
    decreases |es|
  {
    if es != [] { CidsSmall(es[..|es| - 1]); }
  }

  lemma CidsConcat(es: seq<Admission>, e: Admission)
    ensures Cids(es + [e]) == Cids(es) + {e.cid}
  {
    assert (es + [e])[..|es|] == es;
  }

  /** Ids admitted in the interval or in the one just before it. */
  function Nearby(l: Limits, calls: seq<Call>, key: string, t: real): set<string> {
    var all := Admitted(l, calls, key);
    Cids(Within(all, t - l.window, l.window)) + Cids(Within(all, t, l.window))
  }

  lemma {:induction false} CidsWithin(es: seq<Admission>, e: Admission, t: real, window: real)
    requires e in es && t <= e.time <= t + window
    ensures e.cid in Cids(Within(es, t, window))
    decreases |es|
  {
    var es', last := es[..|es| - 1], es[|es| - 1];
    assert es == es' + [last];
    if e in es' { CidsWithin(es', e, t, window); }
    if t <= last.time <= t + window { CidsConcat(Within(es', t, window), last); }
  }

  lemma NearbyGrows(l: Limits, calls: seq<Call>, key: string, t: real)
    requires calls != []
    ensures Nearby(l, calls[..|calls| - 1], key, t) <= Nearby(l, calls, key, t)
  {
    var before, c := calls[..|calls| - 1], calls[|calls| - 1];
    var all, a := Admitted(l, before, key), Admission(c.now, c.cid);
    hide TookSlot;
    if c.key == key && TookSlot(l, calls) {
      WithinConcat(all, a, t, l.window);
      WithinConcat(all, a, t - l.window, l.window);
      CidsConcat(Within(all, t, l.window), a);
      CidsConcat(Within(all, t - l.window, l.window), a);
    }
  }

  /** An id that passes has an admission at most one window old. */
  lemma PassedHasAdmission(l: Limits, calls: seq<Call>, key: string, t: real)
    requires Monotone(calls) && calls != []
    requires var c := calls[|calls| - 1]; c.key == key && t <= c.now <= t + l.window && Answer(l, calls)
    ensures calls[|calls| - 1].cid in Nearby(l, calls, key, t)
  {
    var before, c := calls[..|calls| - 1], calls[|calls| - 1];
    assert before + [c] == calls;
    LimiterExact(l, before, c);
    var all := Admitted(l, calls, key);
    var e: Admission;
    if TookSlot(l, calls) {
      e := Admission(c.now, c.cid);
      assert e in all;
    } else {
      var recent := Prune(Admitted(l, before, key), c.now, l.window);
      var i :| 0 <= i < |recent| && recent[i].cid == c.cid;
      e := recent[i];
      PruneMember(Admitted(l, before, key), c.now, l.window, e);
      AdmittedNotAfter(l, before, key, c.now, e);
    }
    if e.time >= t { CidsWithin(all, e, t, l.window); } else { CidsWithin(all, e, t - l.window, l.window); }
  }

  lemma {:induction false} AdmittedNotAfter(l: Limits, calls: seq<Call>, key: string, now: real, e: Admission)
    requires e in Admitted(l, calls, key) && NotBefore(calls, now)
    ensures e.time <= now
    decreases |calls|
  {
    hide TookSlot;
    var before := calls[..|calls| - 1];
    if e in Admitted(l, before, key) { AdmittedNotAfter(l, before, key, now, e); }
  }

  lemma {:induction false} PassedIsNearby(l: Limits, calls: seq<Call>, key: string, t: real)
    requires Monotone(calls)
    ensures Passed(l, calls, key, t) <= Nearby(l, calls, key, t)
    decreases |calls|
  {
    hide Answer, Nearby;
    if calls != [] {
      var before, c := calls[..|calls| - 1], calls[|calls| - 1];
      PassedIsNearby(l, before, key, t);
      NearbyGrows(l, calls, key, t);
      if c.key == key && t <= c.now <= t + l.window && Answer(l, calls) { PassedHasAdmission(l, calls, key, t); }
    }
  }

  lemma SubsetSize<T>(a: set<T>, b: set<T>)
    requires a <= b
    ensures |a| <= |b|
  {
    assert b == a + (b - a);
  }

  /** Re-checks of older admissions included, at most twice `maxCalls` ids pass in any
      interval of the window's length. */
  lemma PassedBound(l: Limits, calls: seq<Call>, key: string, t: real)
    requires Monotone(calls)
    ensures |Passed(l, calls, key, t)| <= 2 * AtLeastZero(l.maxCalls)
  {
    PassedIsNearby(l, calls, key, t);
    var all := Admitted(l, calls, key);
    var xs, ys := Within(all, t - l.window, l.window), Within(all, t, l.window);
    WindowBound(l, calls, key, t - l.window);
    WindowBound(l, calls, key, t);
    CidsSmall(xs);
    CidsSmall(ys);
    SubsetSize(Passed(l, calls, key, t), Cids(xs) + Cids(ys));
    assert Cids(xs) + Cids(ys) == Cids(xs) + (Cids(ys) - Cids(xs));
    SubsetSize(Cids(ys) - Cids(xs), Cids(ys));
  }

  /** Exactly when a check takes a slot: no admission of the id lies within the window, and the
      window is not full.  A re-check within `window` of its admission is answered True, and
      a check is answered True in no other case than these two. */
  lemma RecheckExact(l: Limits, calls: seq<Call>, c: Call)
    requires Monotone(calls + [c])
    ensures var recent := exists e :: e in Admitted(l, calls, c.key) && e.cid == c.cid && c.now - e.time <= l.window;
      (TookSlot(l, calls + [c]) <==> !recent && |Prune(Admitted(l, calls, c.key), c.now, l.window)| < l.maxCalls)
      && (Answer(l, calls + [c]) <==> recent || TookSlot(l, calls + [c]))
      && (!TookSlot(l, calls + [c]) ==> Admitted(l, calls + [c], c.key) == Admitted(l, calls, c.key))
  {
    LimiterExact(l, calls, c);
    AdmittedStep(l, calls, c);
    var past := Admitted(l, calls, c.key);
    var recent := Prune(past, c.now, l.window);
    hide TookSlot, Answer, Admitted;
    if e :| e in past && e.cid == c.cid && c.now - e.time <= l.window {
      PruneMember(past, c.now, l.window, e);
      assert HasCid(recent, c.cid);
    } else if HasCid(recent, c.cid) {
      var i :| 0 <= i < |recent| && recent[i].cid == c.cid;
      PruneMember(past, c.now, l.window, recent[i]);
      assert false;
    }
  }

  lemma AdmittedStep(l: Limits, calls: seq<Call>, c: Call)
    ensures !TookSlot(l, calls + [c]) ==> Admitted(l, calls + [c], c.key) == Admitted(l, calls, c.key)
  {
    hide TookSlot;
    assert (calls + [c])[..|calls|] == calls;
  }

  lemma SingleEntry(e: Admission, now: real, window: real)
    ensures Prune([e], now, window) == if now - e.time <= window then [e] else []
  {
    PruneConcat([], e, now, window);
    assert [] + [e] == [e];
  }

  lemma FirstCall(l: Limits, c: Call)
    requires l.maxCalls >= 1
    ensures TookSlot(l, [c]) && Admitted(l, [c], c.key) == [Admission(c.now, c.cid)]
  {
    assert [c][..0] == [] && Entries(After(l, []), c.key) == [];
  }

  /** A resume later than the window does take a second slot for the same action. */
  lemma LateRecheckTakesASlot(l: Limits, first: Call, again: Call)
    requires l.maxCalls >= 1 && l.window >= 0.0
    requires again.key == first.key && again.cid == first.cid && again.now - first.now > l.window
    ensures Monotone([first, again]) && Answer(l, [first, again]) && |Admitted(l, [first, again], first.key)| == 2
  {
    assert [first] + [again] == [first, again] && [first, again][..1] == [first];
    FirstCall(l, first);
    hide TookSlot, Answer;
    LimiterExact(l, [first], again);
    SingleEntry(Admission(first.now, first.cid), again.now, l.window);
  }
}
