/** What the audit store promises over whole runs: detection of truncation, restart, and
    behaviour after write failures. */
module AuditGuarantees {
  import opened Prelude
  import opened Json
  import opened Hashing
  import opened AuditChain
  import opened AuditLog
  import opened AuditFormat

  // ---------------------------------------------------------------- what an honest log looks like

  /** The lines written for a sequence of events. */
  function LinesOf(f: Format, es: seq<Event>): seq<string>
    decreases |es|
  {
    if es == [] then [] else LinesOf(f, es[..|es| - 1]) + [f.line(es[|es| - 1])]
  }

  lemma LinesOfExtend(f: Format, es: seq<Event>, e: Event)
    ensures LinesOf(f, es + [e]) == LinesOf(f, es) + [f.line(e)]
  {
    assert (es + [e])[..|es|] == es;
  }

  /** The lines of a chain load back to exactly that chain. */
  lemma {:induction false} LinesLoad(f: Format, es: seq<Event>)
    requires Lawful(f) && Chain(f, es)
    ensures OnDisk(f, LinesOf(f, es), es)
    decreases |es|
  {
    hide Lawful, Linked, LoadLine;
    if es != [] {
      LinesLoad(f, es[..|es| - 1]);
      OnDiskExtend(f, LinesOf(f, es[..|es| - 1]), es[..|es| - 1], es[|es| - 1]);
      InitAndLast(es);
    }
  }

  /** The log file was written by a chain of appends. */
  ghost predicate Written(f: Format, st: Store) {
    st.disk.log.Some? && exists es :: Chain(f, es) && st.disk.log.value == LinesOf(f, es)
  }

  lemma OnDiskUnique(f: Format, lines: seq<string>, xs: seq<Event>, ys: seq<Event>)
    requires OnDisk(f, lines, xs) && OnDisk(f, lines, ys)
    ensures xs == ys
  {
    assert Load(f, lines, "") == Loaded(xs) && Load(f, lines, "") == Loaded(ys);
  }

  /** While healthy, the file is line by line the events in memory. */
  lemma HealthyLog(f: Format, mac: MacFn, st: Store)
    requires Lawful(f) && Consistent(f, mac, st) && st.healthy && Written(f, st)
    ensures st.disk.log.Some? && st.disk.log.value == LinesOf(f, st.events)
    ensures OnDisk(f, st.disk.log.value, st.events) && Chain(f, st.events) && st.lastHash == Tail(st.events)
  {
    hide Lawful, OnDisk, Chain;
    var es :| Chain(f, es) && st.disk.log.value == LinesOf(f, es);
    LinesLoad(f, es);
    OnDiskUnique(f, st.disk.log.value, es, st.events);
  }

  /** The only way a step changes the log file is to add the line of the next event. */
  lemma StepLog(f: Format, mac: MacFn, st: Store, op: Op)
    requires st.disk.log.Some?
    ensures var log := Step(f, mac, st, op).0.disk.log;
      log == st.disk.log
      || (op.DoAppend? && st.healthy
          && var e := NextEvent(f, st, NewEntry(op.kind, op.cid, op.data, op.time));
             log == Some(st.disk.log.value + [f.line(e)]))
  {
    hide Load, NextEvent, NewEntry, Append, LoadAndVerify;
    if op.DoAppend? { AppendLog(f, mac, st, NewEntry(op.kind, op.cid, op.data, op.time), op.fault); }
    if op.DoLoad? { LoadLog(f, mac, st, op.now); }
  }

  lemma AppendLog(f: Format, mac: MacFn, st: Store, entry: Entry, fault: Fault)
    requires st.disk.log.Some?
    ensures var log := Append(f, mac, st, entry, fault).0.disk.log;
      log == st.disk.log || (st.healthy && log == Some(st.disk.log.value + [f.line(NextEvent(f, st, entry))]))
  {
    hide NextEvent, Append;
    AppendEffect(f, mac, st, entry, fault);
  }

  lemma LoadLog(f: Format, mac: MacFn, st: Store, now: string)
    ensures LoadAndVerify(f, mac, st, now).0.disk == st.disk
  {
    hide Load;
  }

  lemma StepWrites(f: Format, mac: MacFn, st: Store, op: Op)
    requires Lawful(f) && GoodOp(op) && Consistent(f, mac, st) && Written(f, st)
    ensures Written(f, Step(f, mac, st, op).0)
  {
    hide Lawful, Consistent, OnDisk, Step, Chain, LinesOf;
    StepLog(f, mac, st, op);
    if op.DoAppend? && st.healthy {
      HealthyLog(f, mac, st);
      var e := NextEvent(f, st, NewEntry(op.kind, op.cid, op.data, op.time));
      assert Linked(f, Tail(st.events), e);
      ChainExtend(f, st.events, e);
      LinesOfExtend(f, st.events, e);
    }
  }

  /** Every run keeps the store consistent and its file a chain of written lines. */
  lemma {:induction false} RunWrites(f: Format, mac: MacFn, st: Store, ops: seq<Op>)
    requires Lawful(f) && Consistent(f, mac, st) && Written(f, st)
    requires forall i | 0 <= i < |ops| :: GoodOp(ops[i])
    ensures Consistent(f, mac, Run(f, mac, st, ops)) && Written(f, Run(f, mac, st, ops))
    decreases |ops|
  {
    hide Consistent, Lawful, Step, GoodOp, Written;
    if ops != [] {
      StepKeeps(f, mac, st, ops[0]);
      StepWrites(f, mac, st, ops[0]);
      RunWrites(f, mac, Step(f, mac, st, ops[0]).0, ops[1..]);
    }
  }

  // ---------------------------------------------------------------- opening

  /** Opening an empty log gives an empty, healthy, consistent store. */
  lemma OpenEmpty(f: Format, mac: MacFn, cfg: Config, now: string)
    requires cfg.persistent && (cfg.interval.Some? ==> cfg.interval.value >= 1)
    ensures var r := Open(f, mac, cfg, Disk(None, None), true, now, NoFault);
      r.Some? && r.value.healthy && r.value.events == [] && r.value.cfg == cfg
      && Consistent(f, mac, r.value) && Written(f, r.value)
      && (r.value.disk.ckpt.Some? ==> r.value.disk.ckpt.value.Saved?)
  {
    var st := Open(f, mac, cfg, Disk(None, None), true, now, NoFault).value;
    assert st.disk.log == Some([]) && st.events == [];
    assert OnDisk(f, [], []);
    assert LinesOf(f, []) == [] && Chain(f, []);
    if st.disk.ckpt.Some? { CkptAtTail(mac, st); }
  }

  /** The condition under which a checkpoint does not stop a store from being reopened. */
  predicate CheckpointAgrees(st: Store) {
    !st.cfg.ckptPath || st.disk.ckpt.None?
    || (st.disk.ckpt.value.Saved? && st.disk.ckpt.value.last == Some(st.lastHash))
  }

  /** Opening a log that holds `es` next to a given checkpoint file. */
  lemma OpenHolding(f: Format, mac: MacFn, cfg: Config, lines: seq<string>, ckpt: Option<CkptFile>, es: seq<Event>, now: string)
    requires cfg.persistent && (cfg.interval.Some? ==> cfg.interval.value >= 1)
    requires Load(f, lines, now) == Loaded(es)
    requires ckpt != Some(NotDict) && (cfg.interval.Some? && cfg.key.Some? && cfg.ckptPath ==> ckpt.Some?)
    ensures var r := Open(f, mac, cfg, Disk(Some(lines), ckpt), true, now, NoFault);
      var st := Store(cfg, Disk(Some(lines), ckpt), es, Tail(es),
                      if cfg.interval.Some? then |es| % cfg.interval.value else 0, true, true);
      r == Some(VerifyCheckpoint(mac, st).0)
  {
    hide Load, Tail;
  }

  /** Restart refines no-restart.  Reopening the files of a healthy store gives back that
      very store, counters included, exactly when the checkpoint agrees with the tail;
      otherwise the reopened store holds the same events but is quarantined. */
  lemma RestartExact(f: Format, mac: MacFn, st: Store, now: string)
    requires Lawful(f) && Consistent(f, mac, st) && st.healthy && st.disk.ckpt != Some(NotDict)
    ensures Open(f, mac, st.cfg, st.disk, true, now, NoFault)
         == Some(if CheckpointAgrees(st) then st else st.(healthy := false))
  {
    DiskEvents(f, mac, st, now);
    RestartFields(f, mac, st);
    hide Lawful, Consistent, Chain, OnDisk, Load;
    OpenHolding(f, mac, st.cfg, st.disk.log.value, st.disk.ckpt, st.events, now);
    if st.cfg.ckptPath && st.disk.ckpt.Some? && st.disk.ckpt.value.Saved? {
      var p :| CkptAt(mac, st, p);
    }
  }

  lemma RestartFields(f: Format, mac: MacFn, st: Store)
    requires Consistent(f, mac, st) && st.healthy
    ensures st.loaded && st.lastHash == Tail(st.events) && (st.cfg.interval.Some? ==> st.cfg.interval.value >= 1)
    ensures st.since == if st.cfg.interval.Some? then |st.events| % st.cfg.interval.value else 0
    ensures st.cfg.ckptPath && st.disk.ckpt.Some? && st.disk.ckpt.value.Saved? ==> exists p :: CkptAt(mac, st, p)
  {
    hide Chain, MemoryMatches;
  }

  lemma EveryEventSigned(f: Format, mac: MacFn, st: Store)
    requires Consistent(f, mac, st) && st.healthy && st.cfg.interval == Some(1)
    requires st.cfg.ckptPath && (st.disk.ckpt.Some? ==> st.disk.ckpt.value.Saved?)
    ensures CheckpointAgrees(st)
  {
    hide Chain, MemoryMatches, Tail;
    if st.disk.ckpt.Some? {
      var p :| CkptAt(mac, st, p) && |st.events| - p <= st.since;
      assert st.since == |st.events| % 1 == 0;
      assert st.events[..p] == st.events;
    }
  }

  predicate FaultFree(op: Op) {
    GoodOp(op) && (op.DoAppend? || op.DoCheckpoint? ==> op.fault.NoFault?)
  }

  /** What fault-free runs keep: memory is the file, and only loading a file whose checkpoint
      does not agree has ever cleared the health flag. */
  ghost predicate Intact(f: Format, mac: MacFn, st: Store) {
    Consistent(f, mac, st.(healthy := true)) && (st.disk.ckpt.Some? ==> st.disk.ckpt.value.Saved?)
    && (st.healthy || !CheckpointAgrees(st))
  }

  lemma AdoptSame(f: Format, mac: MacFn, st: Store)
    requires Consistent(f, mac, st.(healthy := true))
    ensures Adopt(st, st.events) == st.(healthy := true)
  {
    hide Consistent, Tail;
    RestartFields(f, mac, st.(healthy := true));
  }

  /** A checkpoint verifies exactly if it agrees. */
  lemma VerifiedIfAgrees(f: Format, mac: MacFn, st: Store)
    requires Consistent(f, mac, st) && st.healthy && (st.disk.ckpt.Some? ==> st.disk.ckpt.value.Saved?)
    ensures VerifyCheckpoint(mac, st).0 == st.(healthy := CheckpointAgrees(st))
  {
    hide Consistent, Tail;
    RestartFields(f, mac, st);
    if st.cfg.ckptPath && st.disk.ckpt.Some? {
      var p :| CkptAt(mac, st, p);
    }
  }

  /** Loading again what a fault-free run has written. */
  lemma LoadIntact(f: Format, mac: MacFn, st: Store, now: string)
    requires Lawful(f) && Intact(f, mac, st)
    ensures LoadAndVerify(f, mac, st, now).0 == st.(healthy := CheckpointAgrees(st))
  {
    hide Lawful, Consistent, Load, OnDisk, Chain, Adopt, VerifyCheckpoint, CheckpointAgrees;
    var whole := st.(healthy := true);
    DiskEvents(f, mac, whole, now);
    AdoptSame(f, mac, st);
    VerifiedIfAgrees(f, mac, whole);
    FlagAside(st);
  }

  lemma FlagAside(st: Store)
    ensures CheckpointAgrees(st.(healthy := true)) == CheckpointAgrees(st)
  {
  }

  lemma FaultFreeStep(f: Format, mac: MacFn, st: Store, op: Op)
    requires Lawful(f) && Intact(f, mac, st) && FaultFree(op)
    ensures Intact(f, mac, Step(f, mac, st, op).0)
  {
    hide Consistent, Lawful, LoadAndVerify, NewEntry, NextEvent, CheckpointAgrees;
    if op.DoLoad? {
      LoadIntact(f, mac, st, op.now);
      FlagAside(st);
      FlagOff(st);
      assert st.(healthy := true).(healthy := true) == st.(healthy := true);
    } else if st.healthy {
      assert st.(healthy := true) == st;
      StepKeeps(f, mac, st, op);
      FaultFreeHealthy(f, mac, st, op);
      var st' := Step(f, mac, st, op).0;
      assert st'.(healthy := true) == st';
    }
  }

  lemma FlagOff(st: Store)
    ensures CheckpointAgrees(st.(healthy := false)) == CheckpointAgrees(st)
  {
  }

  lemma FaultFreeHealthy(f: Format, mac: MacFn, st: Store, op: Op)
    requires FaultFree(op) && !op.DoLoad? && st.healthy && (st.disk.ckpt.Some? ==> st.disk.ckpt.value.Saved?)
    ensures var st' := Step(f, mac, st, op).0; st'.healthy && (st'.disk.ckpt.Some? ==> st'.disk.ckpt.value.Saved?)
  {
    hide NewEntry, NextEvent, LoadAndVerify, Count;
    if op.DoAppend? {
      var e := NextEvent(f, st, NewEntry(op.kind, op.cid, op.data, op.time));
      var disk := if st.cfg.persistent then AddLine(st.disk, f.line(e)) else st.disk;
      CountFaultFree(mac, st.(disk := disk, lastHash := e.hash, events := st.events + [e]));
    }
  }

  lemma CountFaultFree(mac: MacFn, st: Store)
    requires st.healthy && (st.disk.ckpt.Some? ==> st.disk.ckpt.value.Saved?)
    ensures var st' := Count(mac, st, NoFault).0; st'.healthy && (st'.disk.ckpt.Some? ==> st'.disk.ckpt.value.Saved?)
  {
  }

  lemma {:induction false} FaultFreeRun(f: Format, mac: MacFn, st: Store, ops: seq<Op>)
    requires Lawful(f) && Intact(f, mac, st) && forall i | 0 <= i < |ops| :: FaultFree(ops[i])
    ensures Intact(f, mac, Run(f, mac, st, ops)) && Run(f, mac, st, ops).cfg == st.cfg
    decreases |ops|
  {
    hide Intact, Lawful, Step, FaultFree;
    if ops != [] {
      FaultFreeStep(f, mac, st, ops[0]);
      ConfigStays(f, mac, st, ops[0]);
      FaultFreeRun(f, mac, Step(f, mac, st, ops[0]).0, ops[1..]);
    }
  }

  lemma ConfigStays(f: Format, mac: MacFn, st: Store, op: Op)
    ensures Step(f, mac, st, op).0.cfg == st.cfg
  {
    hide NewEntry, NextEvent, Load, Tail, Append;
    if op.DoAppend? { AppendEffect(f, mac, st, NewEntry(op.kind, op.cid, op.data, op.time), op.fault); }
  }

  /** The checkpoint file cannot be behind: there is no path for it, no file, or one is
      written after every event. */
  predicate NeverBehind(st: Store) { !st.cfg.ckptPath || st.disk.ckpt.None? || st.cfg.interval == Some(1) }

  lemma NeverBehindAgrees(f: Format, mac: MacFn, st: Store)
    requires Intact(f, mac, st) && NeverBehind(st)
    ensures CheckpointAgrees(st)
  {
    hide Consistent;
    if st.cfg.ckptPath && st.disk.ckpt.Some? { EveryEventSigned(f, mac, st.(healthy := true)); }
  }

  /** Restart over whole runs, exactly: after any fault-free run, whatever is configured,
      reopening the files gives the store back with its health flag saying whether the
      checkpoint agrees with the tail.  So nothing that any later operation could tell has
      changed if and only if the store was quarantined already or the checkpoint agrees. */
  lemma RestartAfterRun(f: Format, mac: MacFn, cfg: Config, ops: seq<Op>, t: string, u: string)
    requires Lawful(f) && cfg.persistent && (cfg.interval.Some? ==> cfg.interval.value >= 1)
    requires forall i | 0 <= i < |ops| :: FaultFree(ops[i])
    ensures var start := Open(f, mac, cfg, Disk(None, None), true, t, NoFault);
      start.Some? && var st := Run(f, mac, start.value, ops);
      Open(f, mac, cfg, st.disk, true, u, NoFault) == Some(st.(healthy := CheckpointAgrees(st)))
      && (Open(f, mac, cfg, st.disk, true, u, NoFault) == Some(st) <==> !st.healthy || CheckpointAgrees(st))
      && (NeverBehind(st) ==> st.healthy && CheckpointAgrees(st))
  {
    hide Consistent, Lawful, FaultFree, Open, Run, CheckpointAgrees, NeverBehind;
    OpenEmpty(f, mac, cfg, t);
    var start := Open(f, mac, cfg, Disk(None, None), true, t, NoFault).value;
    assert start.(healthy := true) == start;
    FaultFreeRun(f, mac, start, ops);
    hide Intact;
    RestartIntact(f, mac, Run(f, mac, start, ops), u);
  }

  lemma RestartIntact(f: Format, mac: MacFn, st: Store, u: string)
    requires Lawful(f) && Intact(f, mac, st)
    ensures Open(f, mac, st.cfg, st.disk, true, u, NoFault) == Some(st.(healthy := CheckpointAgrees(st)))
    ensures st.healthy || !CheckpointAgrees(st)
    ensures NeverBehind(st) ==> CheckpointAgrees(st)
  {
    hide Consistent, Lawful, Open, CheckpointAgrees, NeverBehind;
    RestartExact(f, mac, st.(healthy := true), u);
    FlagAside(st);
    if NeverBehind(st) { NeverBehindAgrees(f, mac, st); }
  }

  /** Restart refines no-restart: after any fault-free run that ends without a checkpoint file,
      or with one signed after every event, closing and reopening changes nothing that any
      later operation could tell. */
  lemma RestartRefinesNoRestart(f: Format, mac: MacFn, cfg: Config, ops: seq<Op>, later: seq<Op>, t: string, u: string)
    requires Lawful(f) && cfg.persistent && (cfg.interval.Some? ==> cfg.interval.value >= 1)
    requires forall i | 0 <= i < |ops| :: FaultFree(ops[i])
    ensures var start := Open(f, mac, cfg, Disk(None, None), true, t, NoFault);
      start.Some? && var st := Run(f, mac, start.value, ops);
      var r := Open(f, mac, cfg, st.disk, true, u, NoFault);
      r.Some? && (NeverBehind(st) ==> st.healthy && r.value == st && Run(f, mac, r.value, later) == Run(f, mac, st, later))
  {
    hide Lawful, FaultFree, Open, Run, CheckpointAgrees, NeverBehind;
    RestartAfterRun(f, mac, cfg, ops, t, u);
  }

  /** With a longer interval a clean restart can be refused: one event after the first
      checkpoint is enough. */
  lemma RestartRefused(f: Format, mac: MacFn, cfg: Config, key: string, n: int, kind: string, cid: string, now: string)
    requires Lawful(f) && n >= 2 && cfg == Config(true, Some(key), true, Some(n))
    ensures var st := Open(f, mac, cfg, Disk(None, None), true, now, NoFault).value;
      var st' := Step(f, mac, st, DoAppend(kind, cid, Null, now, NoFault)).0;
      st'.healthy && |st'.events| == 1
      && Open(f, mac, cfg, st'.disk, true, now, NoFault) == Some(st'.(healthy := false))
  {
    OpenEmpty(f, mac, cfg, now);
    var op := DoAppend(kind, cid, Null, now, NoFault);
    FirstAppend(f, mac, cfg, op, now);
    hide Lawful, Consistent, Open, Step;
    var st := Open(f, mac, cfg, Disk(None, None), true, now, NoFault).value;
    StepKeeps(f, mac, st, op);
    RestartExact(f, mac, Step(f, mac, st, op).0, now);
  }

  lemma FirstAppend(f: Format, mac: MacFn, cfg: Config, op: Op, now: string)
    requires cfg.persistent && cfg.key.Some? && cfg.ckptPath && cfg.interval.Some? && cfg.interval.value >= 2
    requires op.DoAppend? && op.fault.NoFault?
    ensures var r := Open(f, mac, cfg, Disk(None, None), true, now, NoFault);
      r.Some? && var st := Step(f, mac, r.value, op).0;
      st.healthy && |st.events| == 1 && st.cfg == cfg && !CheckpointAgrees(st) && st.disk.ckpt != Some(NotDict)
  {
    var st := Open(f, mac, cfg, Disk(None, None), true, now, NoFault).value;
    assert st.disk.ckpt.value.last == Some(GENESIS);
    assert IsDigest(Step(f, mac, st, op).0.lastHash);
  }

  // ---------------------------------------------------------------- truncation

  lemma LengthsDiffer(xs: seq<Event>, ys: seq<Event>)
    requires |xs| != |ys|
    ensures !SameEvents(xs, ys)
  {
  }

  /** What opening a truncated copy does, in terms of the tail hashes alone. */
  lemma OpenCut(f: Format, mac: MacFn, st: Store, p: int, q: int, now: string)
    requires Lawful(f) && Consistent(f, mac, st) && st.cfg.ckptPath
    requires CkptAt(mac, st, p) && 0 <= q <= |st.events|
    ensures var r := Open(f, mac, st.cfg, Disk(Some(LinesOf(f, st.events[..q])), st.disk.ckpt), true, now, NoFault);
      r.Some? && r.value.events == st.events[..q]
      && (r.value.healthy <==> Tail(st.events[..q]) == Tail(st.events[..p]))
    ensures Chain(f, st.events[..q]) && Chain(f, st.events[..p])
  {
    hide Lawful, Chain, Load, LinesOf, MemoryMatches, Tail, Open;
    var cut := st.events[..q];
    ChainPrefix(f, st.events, q);
    ChainPrefix(f, st.events, p);
    LinesLoad(f, cut);
    OpenHolding(f, mac, st.cfg, LinesOf(f, cut), st.disk.ckpt, cut, now);
  }

  /** A copy of the log cut after `q` events, next to the checkpoint that signs the first
      `p`: it opens exactly when nothing was cut beyond the checkpoint, or else two
      different strings with the same hash are exhibited. */
  lemma TruncationCaught(f: Format, mac: MacFn, st: Store, p: int, q: int, now: string)
    requires Lawful(f) && Consistent(f, mac, st) && st.cfg.ckptPath
    requires CkptAt(mac, st, p) && 0 <= q <= |st.events|
    ensures var r := Open(f, mac, st.cfg, Disk(Some(LinesOf(f, st.events[..q])), st.disk.ckpt), true, now, NoFault);
      r.Some? && r.value.events == st.events[..q]
      && (p == q ==> r.value.healthy)
      && (p != q && r.value.healthy ==>
            match WalkBack(f, st.events[..q], st.events[..p])
            case Some(xy) => Collision(f.hash, xy.0, xy.1)
            case None => false)
  {
    hide Lawful, Chain, Load, LinesOf, Linked, Consistent, SameEvents, Open, OnDisk;
    var cut, kept := st.events[..q], st.events[..p];
    OpenCut(f, mac, st, p, q, now);
    if p != q && Tail(cut) == Tail(kept) {
      TailFixesLog(f, cut, kept);
      LengthsDiffer(cut, kept);
    }
  }

  /** With the checkpoint at the tail every strict truncation is refused, up to collisions. */
  lemma TailCheckpointCatchesAll(f: Format, mac: MacFn, st: Store, q: int, now: string)
    requires Lawful(f) && Consistent(f, mac, st) && st.cfg.ckptPath
    requires CkptAt(mac, st, |st.events|) && 0 <= q < |st.events|
    ensures var r := Open(f, mac, st.cfg, Disk(Some(LinesOf(f, st.events[..q])), st.disk.ckpt), true, now, NoFault);
      r.Some? && (r.value.healthy ==>
            match WalkBack(f, st.events[..q], st.events)
            case Some(xy) => Collision(f.hash, xy.0, xy.1)
            case None => false)
  {
    TruncationCaught(f, mac, st, |st.events|, q, now);
    assert st.events[..|st.events|] == st.events;
  }

  /** How far an honest log can run past its checkpoint. */
  lemma CheckpointLag(f: Format, mac: MacFn, st: Store)
    requires Consistent(f, mac, st) && st.healthy && st.cfg.ckptPath && st.cfg.interval.Some?
    requires st.disk.ckpt.Some? && st.disk.ckpt.value.Saved?
    ensures st.since < st.cfg.interval.value
    ensures exists p :: CkptAt(mac, st, p) && |st.events| - p <= st.since
  {
    hide Chain, MemoryMatches;
  }

  /** Any pair of files that opens healthily against a signing key either holds the events of
      some prefix of the honest log (or a collision is exhibited), or carries a valid
      signature on a hash that no prefix of the honest log has. */
  lemma AcceptedIsPrefixOrForged(f: Format, mac: MacFn, st: Store, lines: seq<string>, ckpt: CkptFile, now: string)
    requires Lawful(f) && Consistent(f, mac, st) && st.cfg.persistent && st.cfg.ckptPath && st.cfg.key.Some?
    ensures match Open(f, mac, st.cfg, Disk(Some(lines), Some(ckpt)), true, now, NoFault)
      case None => true
      case Some(got) => got.healthy ==>
        ckpt.Saved? && ckpt.last == Some(Tail(got.events)) && ckpt.cp == mac(st.cfg.key.value, Tail(got.events))
        && forall p | 0 <= p <= |st.events| && Tail(st.events[..p]) == Tail(got.events) ::
             match WalkBack(f, got.events, st.events[..p])
             case None => SameEvents(got.events, st.events[..p])
             case Some(xy) => Collision(f.hash, xy.0, xy.1)
  {
    hide Lawful, Chain, Load, Consistent, Open, SameEvents, WalkBack;
    OpenAccepts(f, mac, st.cfg, lines, ckpt, now);
    LoadIsChain(f, lines, now);
    if Load(f, lines, now).Loaded? {
      var es := Load(f, lines, now).events;
      forall p | 0 <= p <= |st.events| && Tail(st.events[..p]) == Tail(es)
        ensures match WalkBack(f, es, st.events[..p])
                case None => SameEvents(es, st.events[..p])
                case Some(xy) => Collision(f.hash, xy.0, xy.1)
      {
        ConsistentChain(f, mac, st);
        ChainPrefix(f, st.events, p);
        TailFixesLog(f, es, st.events[..p]);
      }
    }
  }

  lemma ConsistentChain(f: Format, mac: MacFn, st: Store)
    requires Consistent(f, mac, st)
    ensures Chain(f, st.events)
  {
    hide Chain;
  }

  lemma OpenAccepts(f: Format, mac: MacFn, cfg: Config, lines: seq<string>, ckpt: CkptFile, now: string)
    requires cfg.persistent && cfg.ckptPath && cfg.key.Some?
    ensures match Open(f, mac, cfg, Disk(Some(lines), Some(ckpt)), true, now, NoFault)
      case None => true
      case Some(got) => got.healthy ==>
        Load(f, lines, now) == Loaded(got.events)
        && ckpt == Saved(Some(Tail(got.events)), mac(cfg.key.value, Tail(got.events)))
  {
    hide Load;
  }

  // ---------------------------------------------------------------- tampering

  /** What one line that does not continue the log does to loading, whatever follows it. */
  datatype BadLine = Corrupt | Unkeyed | Mismatch(hash: Value)

  /** After the lines of a chain, this line does not continue it, for this reason. */
  predicate IsBad(f: Format, es: seq<Event>, line: string, now: string, bad: BadLine) {
    match f.read(line, now)
    case NotJson => bad.Corrupt?
    case Missing => bad.Unkeyed?
    case Record(entry, prev, hash) =>
      bad == Mismatch(hash) && !(prev == Str(Tail(es)) && hash == Str(f.hash(Tail(es) + f.text(entry))))
    case Blank => false
  }

  lemma BadLineFails(f: Format, es: seq<Event>, line: string, rest: seq<string>, now: string, bad: BadLine)
    requires Lawful(f) && Chain(f, es) && IsBad(f, es, line, now, bad)
    ensures Load(f, LinesOf(f, es) + [line] + rest, now)
         == if bad.Corrupt? || (bad.Mismatch? && (bad.hash.Str? || bad.hash.Arr?)) then LoadResult.Broken
            else LoadResult.Crashed(bad.Mismatch?)
  {
    LinesLoad(f, es);
    hide Lawful, Chain, LinesOf, Load;
    var good := LinesOf(f, es);
    assert Load(f, good, now) == Loaded(es);
    LoadExtend(f, good, line, now);
    var lines := good + [line] + rest;
    assert lines[..|good| + 1] == good + [line];
    hide IsBad, LoadLine, OnDisk;
    LineFails(f, es, line, now, bad);
    FailsAt(f, lines, |good| + 1, now);
  }

  lemma LineFails(f: Format, es: seq<Event>, line: string, now: string, bad: BadLine)
    requires IsBad(f, es, line, now, bad)
    ensures LoadLine(f, Loaded(es), line, now)
         == if bad.Corrupt? || (bad.Mismatch? && (bad.hash.Str? || bad.hash.Arr?)) then LoadResult.Broken
            else LoadResult.Crashed(bad.Mismatch?)
  {
    hide Tail;
  }

  /** Loading a file with a line that does not continue the chain: text that is no JSON, or a
      hash or a previous hash that does not fit, clears the health flag and leaves memory as it
      was; only a line without the two mandatory keys raises without touching the flag. */
  lemma BadLineQuarantines(f: Format, mac: MacFn, st: Store, es: seq<Event>, line: string, rest: seq<string>, now: string, bad: BadLine)
    requires Lawful(f) && Chain(f, es) && IsBad(f, es, line, now, bad)
    requires st.cfg.persistent && st.disk.log == Some(LinesOf(f, es) + [line] + rest)
    ensures LoadAndVerify(f, mac, st, now)
         == (if bad.Unkeyed? then st else st.(healthy := false),
             if bad.Corrupt? || (bad.Mismatch? && (bad.hash.Str? || bad.hash.Arr?)) then Integrity else OtherError)
  {
    hide Lawful, Chain, LinesOf, Load, IsBad;
    BadLineFails(f, es, line, rest, now, bad);
  }

  /** So an event that was changed after it was written, in its content, its hash or its link,
      quarantines the store: when loading, and when opening. */
  lemma TamperedFileQuarantines(f: Format, mac: MacFn, st: Store, es: seq<Event>, e: Event, rest: seq<string>, now: string, fault: Fault)
    requires Lawful(f) && Chain(f, es) && WellFormed(e.entry) && !Linked(f, Tail(es), e)
    requires st.cfg.persistent && st.disk.log == Some(LinesOf(f, es) + [f.line(e)] + rest)
    requires st.cfg.interval.Some? ==> st.cfg.interval.value >= 1
    ensures LoadAndVerify(f, mac, st, now) == (st.(healthy := false), Integrity)
    ensures var got := Open(f, mac, st.cfg, st.disk, true, now, fault);
      got.Some? && !got.value.healthy && got.value.events == [] && got.value.disk == st.disk
  {
    var bad := Mismatch(Str(e.hash));
    TamperedIsBad(f, es, e, now);
    hide Lawful, Chain, LinesOf, Load, IsBad, WellFormed, LoadAndVerify;
    BadLineQuarantines(f, mac, st, es, f.line(e), rest, now, bad);
    BadLineQuarantines(f, mac, Store(st.cfg, st.disk, [], GENESIS, 0, false, true), es, f.line(e), rest, now, bad);
  }

  lemma TamperedIsBad(f: Format, es: seq<Event>, e: Event, now: string)
    requires Lawful(f) && WellFormed(e.entry) && !Linked(f, Tail(es), e)
    ensures IsBad(f, es, f.line(e), now, Mismatch(Str(e.hash)))
  {
    hide Tail, WellFormed, SameEntry;
  }

  /** The same for a line that is no JSON at all. */
  lemma CorruptFileQuarantines(f: Format, mac: MacFn, st: Store, es: seq<Event>, line: string, rest: seq<string>, now: string, fault: Fault)
    requires Lawful(f) && Chain(f, es) && f.read(line, now).NotJson?
    requires st.cfg.persistent && st.disk.log == Some(LinesOf(f, es) + [line] + rest)
    requires st.cfg.interval.Some? ==> st.cfg.interval.value >= 1
    ensures LoadAndVerify(f, mac, st, now) == (st.(healthy := false), Integrity)
    ensures var got := Open(f, mac, st.cfg, st.disk, true, now, fault);
      got.Some? && !got.value.healthy && got.value.events == [] && got.value.disk == st.disk
  {
    assert IsBad(f, es, line, now, Corrupt);
    hide Lawful, Chain, LinesOf, Load, IsBad, LoadAndVerify;
    BadLineQuarantines(f, mac, st, es, line, rest, now, Corrupt);
    BadLineQuarantines(f, mac, Store(st.cfg, st.disk, [], GENESIS, 0, false, true), es, line, rest, now, Corrupt);
  }

  /** A line without the mandatory keys makes the constructor raise. */
  lemma UnkeyedFileRaises(f: Format, mac: MacFn, st: Store, es: seq<Event>, line: string, rest: seq<string>, now: string, fault: Fault)
    requires Lawful(f) && Chain(f, es) && f.read(line, now).Missing?
    requires st.cfg.persistent && st.disk.log == Some(LinesOf(f, es) + [line] + rest)
    ensures LoadAndVerify(f, mac, st, now) == (st, OtherError)
    ensures Open(f, mac, st.cfg, st.disk, true, now, fault).None?
  {
    assert IsBad(f, es, line, now, Unkeyed);
    hide Lawful, Chain, LinesOf, Load, IsBad, LoadAndVerify;
    BadLineQuarantines(f, mac, st, es, line, rest, now, Unkeyed);
    BadLineQuarantines(f, mac, Store(st.cfg, st.disk, [], GENESIS, 0, false, true), es, line, rest, now, Unkeyed);
  }

  // ---------------------------------------------------------------- after a failure

  /** A quarantined store stays exactly as it is until it is loaded again. */
  lemma {:induction false} QuarantineHolds(f: Format, mac: MacFn, st: Store, ops: seq<Op>)
    requires !st.healthy && forall i | 0 <= i < |ops| :: !ops[i].DoLoad?
    ensures Run(f, mac, st, ops) == st
    decreases |ops|
  {
    if ops != [] { QuarantineHolds(f, mac, st, ops[1..]); }
  }

  /** A failed append quarantines the store; once a load accepts the file again, memory is
      exactly what the file holds. */
  lemma LoadHeals(f: Format, mac: MacFn, st: Store, entry: Entry, fault: Fault, now: string)
    requires Lawful(f) && WellFormed(entry) && Consistent(f, mac, st)
    ensures var (st1, s1) := Append(f, mac, st, entry, fault);
      var (st2, s2) := LoadAndVerify(f, mac, st1, now);
      (!s1.Fine? ==> !st1.healthy)
      && (s2.Fine? ==> st2.healthy && st2.disk.log.Some? && OnDisk(f, st2.disk.log.value, st2.events))
  {
    hide Lawful, WellFormed, Consistent, Append, LoadAndVerify, OnDisk, NextEvent;
    AppendKeeps(f, mac, st, entry, fault);
    AppendEffect(f, mac, st, entry, fault);
    var st1 := Append(f, mac, st, entry, fault).0;
    DiskEvents(f, mac, st1, now);
    LoadLog(f, mac, st1, now);
    LoadKeeps(f, mac, st1, now);
  }

  /** An explicit `checkpoint()` is different: a write that fails halfway leaves the store
      healthy and appending, although it can no longer be reopened. */
  lemma FailedCheckpointGoesUnnoticed(f: Format, mac: MacFn, st: Store, now: string)
    requires Lawful(f) && Consistent(f, mac, st) && st.healthy && st.cfg.ckptPath
    ensures var (st', s) := Checkpoint(mac, st, true, CkptFails(TornFile));
      s.OsError? && st'.healthy && st'.events == st.events
      && Open(f, mac, st'.cfg, st'.disk, true, now, NoFault) == Some(st'.(healthy := false))
  {
    CheckpointKeeps(f, mac, st, true, CkptFails(TornFile));
    hide Lawful, Consistent;
    RestartExact(f, mac, Checkpoint(mac, st, true, CkptFails(TornFile)).0, now);
  }

  // ---------------------------------------------------------------- the source's own format

  lemma {:induction false} WrittenLinesAreOneLine(f: Format, es: seq<Event>)
    requires forall e :: f.line(e) == LineText(e)
    ensures forall i | 0 <= i < |LinesOf(f, es)| :: OneLine(LinesOf(f, es)[i])
    decreases |es|
  {
    hide LineText, OneLine;
    if es != [] {
      WrittenLinesAreOneLine(f, es[..|es| - 1]);
      LineTextOneLine(es[|es| - 1]);
    }
  }

  /** The log file as text: what was appended line by line is read back line by line, and
      loads to exactly the chain it was written from. */
  lemma HonestFileLoads(h: HashFn, read: (string, string) -> Line, es: seq<Event>, now: string)
    requires Reads(read) && Chain(FormatWith(h, read), es)
    ensures var f := FormatWith(h, read); Load(f, FileLines(FileText(LinesOf(f, es))), now) == Loaded(es)
  {
    var f := FormatWith(h, read);
    AnyReaderLawful(h, read);
    hide Reads, LineText, CanonicalText, Load, LinesOf, Chain, FileLines, FileText, OneLine, Lawful;
    WrittenLinesAreOneLine(f, es);
    FileLinesOfText(LinesOf(f, es));
    LinesLoad(f, es);
  }

  /** Two accepted logs hold the same events, or walking them back finds a collision. */
  predicate AgreeOrCollide(f: Format, xs: seq<Event>, ys: seq<Event>) {
    match WalkBack(f, xs, ys)
    case None => SameEvents(xs, ys)
    case Some(st) => Collision(f.hash, st.0, st.1)
  }

  lemma LogsAgree(f: Format, m: seq<string>, n: seq<string>, t: string, u: string)
    requires Lawful(f) && Load(f, m, t).Loaded? && Load(f, n, u).Loaded?
    requires Tail(Load(f, m, t).events) == Tail(Load(f, n, u).events)
    ensures AgreeOrCollide(f, Load(f, m, t).events, Load(f, n, u).events)
  {
    hide Load, Lawful, SameEvents, WalkBack, Collision;
    AcceptedWithSameTail(f, m, n, t, u);
  }

  /** Two log files that are accepted with the same tail hash hold the same events, or two
      different strings with the same SHA-256 are exhibited; for the source's texts and any
      reader that inverts them, whatever other spellings it accepts. */
  lemma JsonLogsAgree(h: HashFn, read: (string, string) -> Line, m: string, n: string, t: string, u: string)
    requires Reads(read)
    requires var f := FormatWith(h, read);
      Load(f, FileLines(m), t).Loaded? && Load(f, FileLines(n), u).Loaded?
      && Tail(Load(f, FileLines(m), t).events) == Tail(Load(f, FileLines(n), u).events)
    ensures var f := FormatWith(h, read);
      AgreeOrCollide(f, Load(f, FileLines(m), t).events, Load(f, FileLines(n), u).events)
  {
    hide Reads, FormatWith, Load, FileLines, Lawful, AgreeOrCollide, Tail;
    AnyReaderLawful(h, read);
    LogsAgree(FormatWith(h, read), FileLines(m), FileLines(n), t, u);
  }
}
