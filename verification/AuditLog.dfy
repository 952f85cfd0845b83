/**
 The audit store of `audit/store.py` as a state machine over its memory and its two files:
 append, checkpoint, load, and opening.  Every write may fail.
 */
module AuditLog {
  import opened Prelude
  import opened Json
  import opened Hashing
  import opened AuditChain

  /** The constructor arguments: a log path, a signing key, a checkpoint path, an interval. */
  datatype Config = Config(persistent: bool, key: Option<string>, ckptPath: bool, interval: Option<int>)

  /** The checkpoint file after `json.loads`: torn text, a value that is no dictionary, or a
      dictionary.  `last` is `last_hash` when that is a string, `cp` is `str(checkpoint)`. */
  datatype CkptFile = Torn | NotDict | Saved(last: Option<string>, cp: string)

  /** The two files; `None` means the file does not exist. */
  datatype Disk = Disk(log: Option<seq<string>>, ckpt: Option<CkptFile>)

  datatype Store = Store(cfg: Config, disk: Disk, events: seq<Event>, lastHash: string,
                         since: int, loaded: bool, healthy: bool)

  datatype Status = Fine | Integrity | Quarantined | OsError | OtherError

  /** What a failing checkpoint write leaves behind. */
  datatype CkptOutcome = Kept | Replaced | TornFile

  /** A write failure injected into one call.  A log line is written whole or not at all. */
  datatype Fault = NoFault | FlushFails(written: bool) | CkptFails(left: CkptOutcome)

  function Sign(mac: MacFn, key: Option<string>, digest: string): string {
    match key
    case None => digest
    case Some(k) => mac(k, digest)
  }

  // ---------------------------------------------------------------- checkpoint and load

  function VerifyCheckpoint(mac: MacFn, st: Store): (Store, Status) {
    if !st.cfg.ckptPath || st.disk.ckpt.None? then (st, Fine)
    else match st.disk.ckpt.value
      case Torn => (st.(healthy := false), Integrity)
      case NotDict => (st, OtherError)
      case Saved(last, cp) =>
        if last != Some(st.lastHash) || (st.cfg.key.Some? && cp != mac(st.cfg.key.value, st.lastHash))
        then (st.(healthy := false), Integrity) else (st, Fine)
  }

  function Adopt(st: Store, es: seq<Event>): Store {
    var since := match st.cfg.interval case Some(n) => (if n != 0 then |es| % n else 0) case None => st.since;
    st.(events := es, lastHash := Tail(es), since := since, loaded := true, healthy := true)
  }

  function LoadAndVerify(f: Format, mac: MacFn, st: Store, now: string): (Store, Status) {
    if !st.cfg.persistent || st.disk.log.None? then (st.(loaded := true, healthy := true), Fine)
    else match Load(f, st.disk.log.value, now)
      case Broken => (st.(healthy := false), Integrity)
      case Crashed(quarantined) => (if quarantined then st.(healthy := false) else st, OtherError)
      case Loaded(es) => VerifyCheckpoint(mac, Adopt(st, es))
  }

  /** `_checkpoint_unlocked(persist)`; the status is OsError when the write fails. */
  function WriteCheckpoint(mac: MacFn, st: Store, persist: bool, fault: Fault): (Store, Status) {
    if !persist || !st.cfg.ckptPath then (st, Fine)
    else
      var file := Saved(Some(st.lastHash), Sign(mac, st.cfg.key, st.lastHash));
      var written := st.(disk := st.disk.(ckpt := Some(file)));
      match fault
      case CkptFails(Kept) => (st, OsError)
      case CkptFails(Replaced) => (written, OsError)
      case CkptFails(TornFile) => (st.(disk := st.disk.(ckpt := Some(Torn))), OsError)
      case _ => (written, Fine)
  }

  /** The public `checkpoint()`: a failing write is passed on and changes no flag. */
  function Checkpoint(mac: MacFn, st: Store, persist: bool, fault: Fault): (Store, Status) {
    if !st.healthy then (st, Quarantined) else WriteCheckpoint(mac, st, persist, fault)
  }

  // ---------------------------------------------------------------- append

  function NewEntry(kind: string, cid: string, data: Value, time: string): Entry {
    Entry(Str(kind), Str(cid), OrEmpty(data), Str(time))
  }

  function NextEvent(f: Format, st: Store, entry: Entry): Event {
    Event(entry, st.lastHash, f.hash(st.lastHash + f.text(entry)))
  }

  function AddLine(disk: Disk, line: string): Disk { disk.(log := Some(disk.log.GetOr([]) + [line])) }

  /** The event is in memory and on disk; a checkpoint may be due. */
  function Count(mac: MacFn, st: Store, fault: Fault): (Store, Status) {
    if st.cfg.interval.None? then (st, Fine)
    else
      var st' := st.(since := st.since + 1);
      if st'.since < st.cfg.interval.value then (st', Fine)
      else
        var (st'', s) := WriteCheckpoint(mac, st', true, fault);
        if s.Fine? then (st''.(since := 0), Fine) else (st''.(healthy := false), Quarantined)
  }

  function Append(f: Format, mac: MacFn, st: Store, entry: Entry, fault: Fault): (Store, Status) {
    if !st.healthy then (st, Quarantined)
    else
      var e := NextEvent(f, st, entry);
      if st.cfg.persistent && fault.FlushFails? then
        (st.(disk := if fault.written then AddLine(st.disk, f.line(e)) else st.disk, healthy := false), Quarantined)
      else
        var disk := if st.cfg.persistent then AddLine(st.disk, f.line(e)) else st.disk;
        Count(mac, st.(disk := disk, lastHash := e.hash, events := st.events + [e]), fault)
  }

  lemma CountEffect(mac: MacFn, st: Store, fault: Fault)
    ensures var (st', s) := Count(mac, st, fault);
      st'.cfg == st.cfg && st'.disk.log == st.disk.log && st'.events == st.events && st'.loaded == st.loaded
      && st'.lastHash == st.lastHash
      && (s.Fine? || s.Quarantined?) && (s.Fine? ==> st'.healthy == st.healthy) && (s.Quarantined? ==> !st'.healthy)
      && (st.disk.ckpt.Some? ==> st'.disk.ckpt.Some?)
  {
  }

  /** What a call to `append` does to memory, the log file and the health flag. */
  lemma AppendEffect(f: Format, mac: MacFn, st: Store, entry: Entry, fault: Fault)
    ensures var (st', s) := Append(f, mac, st, entry, fault);
      var e := NextEvent(f, st, entry);
      st'.cfg == st.cfg && st'.loaded == st.loaded
      && (s.Fine? ==> st.healthy && st'.healthy && st'.events == st.events + [e])
      && (!s.Fine? ==> s.Quarantined? && !st'.healthy
                       && (st'.events == st.events || (st.healthy && st'.events == st.events + [e])))
      && (st'.disk.log == st.disk.log || (st.healthy && st'.disk.log == AddLine(st.disk, f.line(e)).log))
      && (st.disk.ckpt.Some? ==> st'.disk.ckpt.Some?)
  {
    hide NextEvent, Count;
    var e := NextEvent(f, st, entry);
    var disk := if st.cfg.persistent then AddLine(st.disk, f.line(e)) else st.disk;
    CountEffect(mac, st.(disk := disk, lastHash := e.hash, events := st.events + [e]), fault);
  }

  /** The event makes a checkpoint due. */
  predicate IsDue(st: Store) { st.cfg.interval.Some? && st.since + 1 >= st.cfg.interval.value }

  /** Exactly when an append succeeds, and all that it has changed then: one event linked to the
      last hash, its line on disk, and when it is due a checkpoint of the new hash. */
  lemma AppendExactly(f: Format, mac: MacFn, st: Store, entry: Entry, fault: Fault)
    ensures var (st', s) := Append(f, mac, st, entry, fault);
      var e := Event(entry, st.lastHash, f.hash(st.lastHash + f.text(entry)));
      var log := if st.cfg.persistent then Some(st.disk.log.GetOr([]) + [f.line(e)]) else st.disk.log;
      var sealed := IsDue(st) && st.cfg.ckptPath;
      (s.Fine? <==> st.healthy && !(st.cfg.persistent && fault.FlushFails?) && !(sealed && fault.CkptFails?))
      && (s.Fine? ==>
            st'.events == st.events + [e] && st'.lastHash == e.hash && st'.healthy && st'.disk.log == log
            && st'.since == (if st.cfg.interval.None? then st.since else if IsDue(st) then 0 else st.since + 1)
            && st'.disk.ckpt == (if sealed
                 then Some(Saved(Some(e.hash), if st.cfg.key.Some? then mac(st.cfg.key.value, e.hash) else e.hash))
                 else st.disk.ckpt))
      && (!st.healthy ==> st' == st)
      && (st.healthy && st.cfg.persistent && fault.FlushFails? ==>
            st' == st.(healthy := false, disk := st.disk.(log := if fault.written then log else st.disk.log)))
  {
    var e := NextEvent(f, st, entry);
    var disk := if st.cfg.persistent then AddLine(st.disk, f.line(e)) else st.disk;
    if st.healthy && !(st.cfg.persistent && fault.FlushFails?) {
      CountExactly(mac, st.(disk := disk, lastHash := e.hash, events := st.events + [e]), fault);
      hide Count;
    }
  }

  lemma CountExactly(mac: MacFn, st: Store, fault: Fault)
    ensures var (st', s) := Count(mac, st, fault);
      var sealed := IsDue(st) && st.cfg.ckptPath;
      (s.Fine? <==> !(sealed && fault.CkptFails?)) && st'.events == st.events && st'.lastHash == st.lastHash
      && (s.Fine? ==>
            st'.healthy == st.healthy && st'.disk.log == st.disk.log
            && st'.since == (if st.cfg.interval.None? then st.since else if IsDue(st) then 0 else st.since + 1)
            && st'.disk.ckpt == (if sealed
                 then Some(Saved(Some(st.lastHash), if st.cfg.key.Some? then mac(st.cfg.key.value, st.lastHash) else st.lastHash))
                 else st.disk.ckpt))
  {
  }

  /** The public checkpoint, exactly: refused in quarantine, else it replaces the checkpoint file
      if one is configured, unless the write fails, which leaves the old file, the new one or a
      torn one; no flag changes. */
  lemma CheckpointExactly(mac: MacFn, st: Store, persist: bool, fault: Fault)
    ensures var (st', s) := Checkpoint(mac, st, persist, fault);
      var file := Some(Saved(Some(st.lastHash), if st.cfg.key.Some? then mac(st.cfg.key.value, st.lastHash) else st.lastHash));
      if !st.healthy then (st', s) == (st, Quarantined)
      else if !persist || !st.cfg.ckptPath then (st', s) == (st, Fine)
      else s == (if fault.CkptFails? then OsError else Fine)
           && st' == st.(disk := st.disk.(ckpt := if !fault.CkptFails? || fault.left.Replaced? then file
                                                   else if fault.left.Kept? then st.disk.ckpt else Some(Torn)))
  {
  }

  /** Without a log file there is nothing to verify. */
  lemma LoadsNothing(f: Format, mac: MacFn, st: Store, now: string)
    requires !st.cfg.persistent || st.disk.log.None?
    ensures LoadAndVerify(f, mac, st, now) == (st.(loaded := true, healthy := true), Fine)
  {
  }

  /** Exactly when a checkpoint file is accepted, and what it does otherwise. */
  lemma CheckpointAccepted(mac: MacFn, st: Store)
    ensures var (st', s) := VerifyCheckpoint(mac, st);
      (s.Fine? <==> !st.cfg.ckptPath || st.disk.ckpt.None?
                    || (st.disk.ckpt.value.Saved? && st.disk.ckpt.value.last == Some(st.lastHash)
                        && (st.cfg.key.Some? ==> st.disk.ckpt.value.cp == mac(st.cfg.key.value, st.lastHash))))
      && (if s.Fine? || s.OtherError? then st' == st else s.Integrity? && st' == st.(healthy := false))
      && (s.OtherError? <==> st.cfg.ckptPath && st.disk.ckpt == Some(NotDict))
  {
  }

  /** What the constructor does without looking at any file, and when it refuses outright. */
  lemma OpenFresh(f: Format, mac: MacFn, cfg: Config, disk: Disk, autoLoad: bool, now: string, fault: Fault)
    ensures var r := Open(f, mac, cfg, disk, autoLoad, now, fault);
      (cfg.interval.Some? && cfg.interval.value < 1 ==> r.None?)
      && (!(cfg.interval.Some? && cfg.interval.value < 1) && (!autoLoad || !cfg.persistent) ==>
            r == Some(Store(cfg, disk, [], GENESIS, 0, false, true)))
  {
  }

  /** A store whose first checkpoint cannot be written does not open. */
  lemma OpenNeedsCheckpoint(f: Format, mac: MacFn, key: string, n: int, now: string, fault: Fault)
    requires n >= 1
    ensures Open(f, mac, Config(true, Some(key), true, Some(n)), Disk(None, None), true, now, fault).None? <==> fault.CkptFails?
  {
  }

  // ---------------------------------------------------------------- opening

  /** The constructor; `None` when it raises. */
  function Open(f: Format, mac: MacFn, cfg: Config, disk: Disk, autoLoad: bool, now: string, fault: Fault): Option<Store> {
    if cfg.interval.Some? && cfg.interval.value < 1 then None
    else
      var st := Store(cfg, disk, [], GENESIS, 0, false, true);
      if !autoLoad || !cfg.persistent then Some(st)
      else
        var touched := st.(disk := disk.(log := Some(disk.log.GetOr([]))));
        var (st', s) := LoadAndVerify(f, mac, touched, now);
        match s
        case Fine =>
          if cfg.interval.Some? && cfg.key.Some? && cfg.ckptPath && st'.disk.ckpt.None? then
            var (st'', s') := Checkpoint(mac, st', true, fault);
            if s'.Fine? then Some(st'') else None
          else Some(st')
        case Integrity => Some(st'.(healthy := false))
        case _ => None
  }

  function PhysicalReady(st: Store): bool {
    st.cfg.persistent && st.disk.log.Some? && st.loaded && st.healthy
    && st.cfg.ckptPath && st.disk.ckpt.Some? && st.cfg.key.Some?
    && st.cfg.interval.Some? && st.cfg.interval.value > 0
  }

  // ---------------------------------------------------------------- runs

  datatype Op =
    | DoAppend(kind: string, cid: string, data: Value, time: string, fault: Fault)
    | DoCheckpoint(persist: bool, fault: Fault)
    | DoLoad(now: string)

  function Step(f: Format, mac: MacFn, st: Store, op: Op): (Store, Status) {
    match op
    case DoAppend(kind, cid, data, time, fault) => Append(f, mac, st, NewEntry(kind, cid, data, time), fault)
    case DoCheckpoint(persist, fault) => Checkpoint(mac, st, persist, fault)
    case DoLoad(now) => LoadAndVerify(f, mac, st, now)
  }

  /** Payloads are dictionaries that can exist: no key twice. */
  predicate GoodOp(op: Op) { op.DoAppend? ==> Valid(op.data) }

  function Run(f: Format, mac: MacFn, st: Store, ops: seq<Op>): Store
    decreases |ops|
  {
    if ops == [] then st else Run(f, mac, Step(f, mac, st, ops[0]).0, ops[1..])
  }

  // ---------------------------------------------------------------- what every run keeps

  /** The events the log file holds. */
  ghost predicate OnDisk(f: Format, lines: seq<string>, es: seq<Event>) {
    forall now :: Load(f, lines, now) == Loaded(es)
  }

  /** Memory is the log on disk, or, once quarantined, the log without one last event. */
  ghost predicate MemoryMatches(f: Format, st: Store) {
    st.disk.log.Some? && (
      OnDisk(f, st.disk.log.value, st.events)
      || (!st.healthy && exists e :: Linked(f, Tail(st.events), e) && OnDisk(f, st.disk.log.value, st.events + [e])))
  }

  /** The checkpoint file signs the hash after the first `p` events. */
  predicate CkptAt(mac: MacFn, st: Store, p: int) {
    0 <= p <= |st.events| && st.disk.ckpt.Some? && st.disk.ckpt.value.Saved?
    && st.disk.ckpt.value.last == Some(Tail(st.events[..p]))
    && (st.cfg.key.Some? ==> st.disk.ckpt.value.cp == mac(st.cfg.key.value, Tail(st.events[..p])))
  }

  ghost predicate CkptWithin(mac: MacFn, st: Store, gap: int) {
    exists p :: CkptAt(mac, st, p) && |st.events| - p <= gap
  }

  predicate Counted(st: Store) {
    match st.cfg.interval
    case None => st.since == 0
    case Some(n) => n >= 1 && (st.healthy ==> st.since == |st.events| % n)
  }

  function MaxGap(st: Store): int { if st.cfg.interval.Some? then st.since else |st.events| }

  ghost predicate Consistent(f: Format, mac: MacFn, st: Store) {
    && st.cfg.persistent && st.loaded
    && Chain(f, st.events) && st.lastHash == Tail(st.events)
    && MemoryMatches(f, st)
    && Counted(st)
    && (st.healthy && st.cfg.ckptPath && st.disk.ckpt.Some? && st.disk.ckpt.value.Saved?
        ==> CkptWithin(mac, st, MaxGap(st)))
    && (st.cfg.interval.Some? && st.cfg.key.Some? && st.cfg.ckptPath ==> st.disk.ckpt.Some?)
  }

  // ---------------------------------------------------------------- each operation keeps it

  lemma OnDiskExtend(f: Format, lines: seq<string>, es: seq<Event>, e: Event)
    requires Lawful(f) && OnDisk(f, lines, es) && Linked(f, Tail(es), e)
    ensures OnDisk(f, lines + [f.line(e)], es + [e])
  {
    hide Lawful, Linked, Load, LoadLine;
    forall now ensures Load(f, lines + [f.line(e)], now) == Loaded(es + [e]) {
      LoadExtend(f, lines, f.line(e), now);
      LoadWritten(f, es, e, now);
    }
  }

  lemma ModStep(k: nat, n: int)
    requires n >= 1
    ensures (k + 1) % n == if k % n + 1 < n then k % n + 1 else 0
  {
    var q, r := k / n, k % n;
    assert k + 1 == n * q + (r + 1);
    if r + 1 < n {
      ModUnique(k + 1, n, q, r + 1);
    } else {
      assert k + 1 == n * (q + 1);
      ModUnique(k + 1, n, q + 1, 0);
    }
  }

  lemma ModUnique(x: int, n: int, q: int, r: int)
    requires n >= 1 && 0 <= r < n && x == n * q + r
    ensures x % n == r
  {
    var q', r' := x / n, x % n;
    Distribute(n, q, q');
    if q > q' { MulAtLeast(n, q - q'); }
    if q < q' { Distribute(n, q', q); MulAtLeast(n, q' - q); }
  }

  lemma Distribute(n: int, a: int, b: int)
    ensures n * a - n * b == n * (a - b)
  {
  }

  lemma MulAtLeast(n: int, d: int)
    requires n >= 1 && d >= 1
    ensures n * d >= n
  {
  }

  /** A checkpoint stays where it is when the log grows. */
  lemma CkptStays(mac: MacFn, st: Store, st': Store, p: int)
    requires CkptAt(mac, st, p) && st'.cfg == st.cfg && st'.disk.ckpt == st.disk.ckpt
    requires |st.events| <= |st'.events| && st'.events[..|st.events|] == st.events
    ensures CkptAt(mac, st', p)
  {
    assert st'.events[..p] == st.events[..p];
  }

  lemma CkptAtTail(mac: MacFn, st: Store)
    requires st.disk.ckpt == Some(Saved(Some(Tail(st.events)), Sign(mac, st.cfg.key, Tail(st.events))))
    ensures CkptAt(mac, st, |st.events|) && CkptWithin(mac, st, 0)
  {
    assert st.events[..|st.events|] == st.events;
    assert CkptAt(mac, st, |st.events|);
  }

  /** The state between writing the event and counting it towards the next checkpoint. */
  ghost predicate Appended(f: Format, mac: MacFn, st: Store) {
    && st.cfg.persistent && st.loaded && st.healthy && st.events != []
    && Chain(f, st.events) && st.lastHash == Tail(st.events)
    && st.disk.log.Some? && OnDisk(f, st.disk.log.value, st.events)
    && (match st.cfg.interval
        case None => st.since == 0
        case Some(n) => n >= 1 && st.since == (|st.events| - 1) % n)
    && (st.cfg.ckptPath && st.disk.ckpt.Some? && st.disk.ckpt.value.Saved?
        ==> CkptWithin(mac, st, if st.cfg.interval.Some? then st.since + 1 else |st.events|))
    && (st.cfg.interval.Some? && st.cfg.key.Some? && st.cfg.ckptPath ==> st.disk.ckpt.Some?)
  }

  lemma CountKeeps(f: Format, mac: MacFn, st: Store, fault: Fault)
    requires Appended(f, mac, st)
    ensures Consistent(f, mac, Count(mac, st, fault).0)
  {
    hide Chain, OnDisk, Tail;
    if st.cfg.interval.Some? {
      ModStep(|st.events| - 1, st.cfg.interval.value);
      var st' := st.(since := st.since + 1);
      forall p | CkptAt(mac, st, p) ensures CkptAt(mac, st', p) {}
      if st'.since >= st.cfg.interval.value && st.cfg.ckptPath {
        var done := Count(mac, st, fault).0;
        if done.healthy { CkptAtTail(mac, done); }
      }
    }
  }

  lemma AppendKeeps(f: Format, mac: MacFn, st: Store, entry: Entry, fault: Fault)
    requires Lawful(f) && WellFormed(entry) && Consistent(f, mac, st)
    ensures Consistent(f, mac, Append(f, mac, st, entry, fault).0)
  {
    hide Lawful, WellFormed, OnDisk, Chain;
    if st.healthy {
      var e := NextEvent(f, st, entry);
      assert Linked(f, Tail(st.events), e);
      OnDiskExtend(f, st.disk.log.value, st.events, e);
      if !fault.FlushFails? {
        var st' := st.(disk := AddLine(st.disk, f.line(e)), lastHash := e.hash, events := st.events + [e]);
        ChainExtend(f, st.events, e);
        forall p | CkptAt(mac, st, p) ensures CkptAt(mac, st', p) { CkptStays(mac, st, st', p); }
        CountKeeps(f, mac, st', fault);
      }
    }
  }

  lemma CheckpointKeeps(f: Format, mac: MacFn, st: Store, persist: bool, fault: Fault)
    requires Consistent(f, mac, st)
    ensures Consistent(f, mac, Checkpoint(mac, st, persist, fault).0)
  {
    hide Chain, OnDisk, Tail;
    var st' := Checkpoint(mac, st, persist, fault).0;
    if st' != st && st'.disk.ckpt.Some? && st'.disk.ckpt.value.Saved? {
      CkptAtTail(mac, st');
      assert CkptWithin(mac, st', MaxGap(st'));
    }
  }

  /** Verifying the checkpoint of a store whose log has just been loaded. */
  lemma VerifyKeeps(f: Format, mac: MacFn, st: Store)
    requires st.cfg.persistent && st.loaded && st.healthy && Counted(st)
    requires Chain(f, st.events) && st.lastHash == Tail(st.events)
    requires st.disk.log.Some? && OnDisk(f, st.disk.log.value, st.events)
    requires st.cfg.interval.Some? && st.cfg.key.Some? && st.cfg.ckptPath ==> st.disk.ckpt.Some?
    ensures var (st', s) := VerifyCheckpoint(mac, st);
      Consistent(f, mac, st') && st'.events == st.events && (s.Fine? ==> st' == st)
  {
    hide Chain, OnDisk, Tail;
    assert MaxGap(st) >= 0;
    hide Counted, MaxGap;
    var st' := VerifyCheckpoint(mac, st).0;
    if st'.healthy && st.cfg.ckptPath && st.disk.ckpt.Some? && st.disk.ckpt.value.Saved? {
      assert st.events[..|st.events|] == st.events;
      assert CkptAt(mac, st, |st.events|) && CkptWithin(mac, st, MaxGap(st));
    }
    if !st'.healthy { UnhealthyCounts(st); }
  }

  lemma UnhealthyCounts(st: Store)
    requires Counted(st)
    ensures Counted(st.(healthy := false))
  {
  }

  lemma AdoptCounts(st: Store, es: seq<Event>)
    requires Counted(st)
    ensures var st' := Adopt(st, es);
      Counted(st') && st'.cfg == st.cfg && st'.disk == st.disk && st'.events == es
      && st'.lastHash == Tail(es) && st'.loaded && st'.healthy
  {
  }

  lemma LoadKeeps(f: Format, mac: MacFn, st: Store, now: string)
    requires st.disk.log.Some? && Lawful(f) && Consistent(f, mac, st)
    ensures var (st', s) := LoadAndVerify(f, mac, st, now);
      Consistent(f, mac, st') && OnDisk(f, st.disk.log.value, st'.events) && (s.Fine? ==> st'.healthy)
  {
    hide Lawful, Chain, Consistent, OnDisk, Tail, Load, VerifyCheckpoint, Counted, Adopt;
    DiskEvents(f, mac, st, now);
    var es := Load(f, st.disk.log.value, now).events;
    AdoptCounts(st, es);
    VerifyKeeps(f, mac, Adopt(st, es));
  }

  /** The log file of a consistent store loads, and to the same events at any time. */
  lemma DiskEvents(f: Format, mac: MacFn, st: Store, now: string)
    requires Lawful(f) && Consistent(f, mac, st)
    ensures var lines := st.disk.log.value;
      Load(f, lines, now).Loaded? && OnDisk(f, lines, Load(f, lines, now).events)
      && Chain(f, Load(f, lines, now).events)
    ensures st.cfg.persistent && st.disk.log.Some? && Counted(st)
      && (st.cfg.interval.Some? && st.cfg.key.Some? && st.cfg.ckptPath ==> st.disk.ckpt.Some?)
    ensures st.healthy ==> Load(f, st.disk.log.value, now).events == st.events
  {
    hide Lawful, Chain, Linked, Load;
    LoadIsChain(f, st.disk.log.value, now);
  }

  lemma StepKeeps(f: Format, mac: MacFn, st: Store, op: Op)
    requires Lawful(f) && GoodOp(op) && Consistent(f, mac, st)
    ensures Consistent(f, mac, Step(f, mac, st, op).0)
  {
    hide Consistent, Lawful, Append, Checkpoint, LoadAndVerify;
    match op {
      case DoAppend(kind, cid, data, time, fault) => AppendKeeps(f, mac, st, NewEntry(kind, cid, data, time), fault);
      case DoCheckpoint(persist, fault) => CheckpointKeeps(f, mac, st, persist, fault);
      case DoLoad(now) => DiskEvents(f, mac, st, now); LoadKeeps(f, mac, st, now);
    }
  }

  /** Whatever fails and whenever, memory stays a valid chain that is the log on disk or the
      log without one last event, and a checkpoint lags by at most the events counted. */
  lemma {:induction false} RunKeeps(f: Format, mac: MacFn, st: Store, ops: seq<Op>)
    requires Lawful(f) && Consistent(f, mac, st)
    requires forall i | 0 <= i < |ops| :: GoodOp(ops[i])
    ensures Consistent(f, mac, Run(f, mac, st, ops))
    decreases |ops|
  {
    hide Consistent, Lawful, Step, GoodOp;
    if ops != [] {
      StepKeeps(f, mac, st, ops[0]);
      RunKeeps(f, mac, Step(f, mac, st, ops[0]).0, ops[1..]);
    }
  }
}
