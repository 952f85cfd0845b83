/** The audit store as the object the source has: fields updated in place and two files.
    Every method is proved to do what the state machine of `AuditLog` does. */
module AuditStore {
  import opened Prelude
  import opened Json
  import opened Hashing
  import opened AuditChain
  import opened AuditLog

  class AuditStore {
    const format: Format
    const mac: MacFn
    const cfg: Config
    var disk: Disk
    var events: seq<Event>
    var lastHash: string
    var eventsSinceCheckpoint: int
    var loaded: bool
    var healthy: bool

    function View(): Store
      reads this
    {
      Store(cfg, disk, events, lastHash, eventsSinceCheckpoint, loaded, healthy)
    }

    /** The store before anything is loaded. */
    constructor (format: Format, mac: MacFn, cfg: Config, disk: Disk)
      ensures View() == Store(cfg, disk, [], GENESIS, 0, false, true)
      ensures this.format == format && this.mac == mac
    {
      this.format, this.mac, this.cfg, this.disk := format, mac, cfg, disk;
      events, lastHash, eventsSinceCheckpoint, loaded, healthy := [], GENESIS, 0, false, true;
    }

    /** `AuditStore(...)`, which touches and loads the log and writes the first checkpoint;
        no store when the source's constructor raises. */
    static method Create(format: Format, mac: MacFn, cfg: Config, disk: Disk, autoLoad: bool, now: string, fault: Fault)
      returns (store: AuditStore?)
      ensures store != null ==> fresh(store) && store.format == format && store.mac == mac
      ensures Open(format, mac, cfg, disk, autoLoad, now, fault) == if store == null then None else Some(store.View())
    {
      if cfg.interval.Some? && cfg.interval.value < 1 { return null; }
      var st := new AuditStore(format, mac, cfg, disk);
      if autoLoad && cfg.persistent {
        st.disk := st.disk.(log := Some(st.disk.log.GetOr([])));
        var s := st.LoadAndVerify(now);
        match s {
          case Fine =>
            if cfg.interval.Some? && cfg.key.Some? && cfg.ckptPath && st.disk.ckpt.None? {
              var s' := st.Checkpoint(true, fault);
              if !s'.Fine? { return null; }
            }
          case Integrity => st.healthy := false;
          case _ => return null;
        }
      }
      return st;
    }

    /** The verification loop: stops at the first line that does not continue the chain. */
    method ReadLog(lines: seq<string>, now: string) returns (r: LoadResult)
      ensures r == Load(format, lines, now)
    {
      hide LoadLine;
      var read: seq<Event>, prev := [], GENESIS;
      for i := 0 to |lines|
        invariant prev == Tail(read) && Load(format, lines[..i], now) == Loaded(read)
      {
        LoadExtend(format, lines[..i], lines[i], now);
        assert lines[..i] + [lines[i]] == lines[..i + 1];
        var next := ReadOne(lines[i], read, prev, now);
        if !next.Loaded? {
          FailsAt(format, lines, i + 1, now);
          return next;
        }
        read := next.events;
        prev := Tail(read);
      }
      assert lines[..|lines|] == lines;
      return Loaded(read);
    }

    method ReadOne(line: string, read: seq<Event>, prev: string, now: string) returns (r: LoadResult)
      requires prev == Tail(read)
      ensures r == LoadLine(format, Loaded(read), line, now)
    {
      match format.read(line, now) {
        case Blank => return Loaded(read);
        case NotJson => return Broken;
        case Missing => return Crashed(false);
        case Record(entry, givenPrev, given) =>
          var expected := format.hash(prev + format.text(entry));
          if given != Str(expected) || givenPrev != Str(prev) {
            return if given.Str? || given.Arr? then Broken else Crashed(true);
          }
          return Loaded(read + [Event(entry, prev, expected)]);
      }
    }

    method LoadAndVerify(now: string) returns (s: Status)
      modifies this
      ensures (View(), s) == AuditLog.LoadAndVerify(format, mac, old(View()), now)
    {
      if !cfg.persistent || disk.log.None? {
        loaded, healthy := true, true;
        return Fine;
      }
      var r := ReadLog(disk.log.value, now);
      match r {
        case Broken =>
          healthy := false;
          return Integrity;
        case Crashed(quarantined) =>
          if quarantined { healthy := false; }
          return OtherError;
        case Loaded(read) =>
          events, lastHash := read, Tail(read);
          if cfg.interval.Some? {
            eventsSinceCheckpoint := if cfg.interval.value != 0 then |read| % cfg.interval.value else 0;
          }
          loaded, healthy := true, true;
          s := VerifyCheckpoint();
      }
    }

    method VerifyCheckpoint() returns (s: Status)
      modifies this
      ensures (View(), s) == AuditLog.VerifyCheckpoint(mac, old(View()))
    {
      if !cfg.ckptPath || disk.ckpt.None? { return Fine; }
      match disk.ckpt.value {
        case Torn =>
          healthy := false;
          return Integrity;
        case NotDict => return OtherError;
        case Saved(last, cp) =>
          if last != Some(lastHash) || (cfg.key.Some? && cp != mac(cfg.key.value, lastHash)) {
            healthy := false;
            return Integrity;
          }
          return Fine;
      }
    }

    method Append(kind: string, cid: string, data: Value, time: string, fault: Fault) returns (s: Status)
      modifies this
      ensures (View(), s) == AuditLog.Append(format, mac, old(View()), NewEntry(kind, cid, data, time), fault)
    {
      hide AuditLog.Count;
      if !healthy { return Quarantined; }
      var entry := NewEntry(kind, cid, data, time);
      var event := Event(entry, lastHash, format.hash(lastHash + format.text(entry)));
      var written := WriteLine(format.line(event), fault);
      if !written { return Quarantined; }
      Remember(event);
      s := Count(fault);
    }

    /** The durable write comes first; a failing one quarantines the store. */
    method WriteLine(line: string, fault: Fault) returns (ok: bool)
      modifies this`disk, this`healthy
      ensures ok == !(cfg.persistent && fault.FlushFails?)
      ensures View() == if ok then old(View()).(disk := if cfg.persistent then AddLine(old(disk), line) else old(disk))
                        else old(View()).(disk := if fault.written then AddLine(old(disk), line) else old(disk), healthy := false)
    {
      if !cfg.persistent { return true; }
      if fault.FlushFails? {
        if fault.written { disk := AddLine(disk, line); }
        healthy := false;
        return false;
      }
      disk := AddLine(disk, line);
      return true;
    }

    method Remember(event: Event)
      modifies this`lastHash, this`events
      ensures View() == old(View()).(lastHash := event.hash, events := old(events) + [event])
    {
      lastHash := event.hash;
      events := events + [event];
    }

    method Count(fault: Fault) returns (s: Status)
      modifies this
      ensures (View(), s) == AuditLog.Count(mac, old(View()), fault)
    {
      if cfg.interval.Some? {
        eventsSinceCheckpoint := eventsSinceCheckpoint + 1;
        if eventsSinceCheckpoint >= cfg.interval.value {
          var w := WriteCheckpoint(true, fault);
          if !w.Fine? {
            healthy := false;
            return Quarantined;
          }
          eventsSinceCheckpoint := 0;
        }
      }
      return Fine;
    }

    method WriteCheckpoint(persist: bool, fault: Fault) returns (s: Status)
      modifies this`disk
      ensures (View(), s) == AuditLog.WriteCheckpoint(mac, old(View()), persist, fault)
    {
      if !persist || !cfg.ckptPath { return Fine; }
      var file := Saved(Some(lastHash), Sign(mac, cfg.key, lastHash));
      if fault.CkptFails? {
        match fault.left {
          case Kept =>
          case Replaced => disk := disk.(ckpt := Some(file));
          case TornFile => disk := disk.(ckpt := Some(Torn));
        }
        return OsError;
      }
      disk := disk.(ckpt := Some(file));
      return Fine;
    }

    method Checkpoint(persist: bool, fault: Fault) returns (s: Status)
      modifies this
      ensures (View(), s) == AuditLog.Checkpoint(mac, old(View()), persist, fault)
    {
      if !healthy { return Quarantined; }
      s := WriteCheckpoint(persist, fault);
    }

    /** `verify_chain`: recomputes the hashes of the events in memory.  It fails exactly when
        some stored hash is not the hash of its predecessor and its own text. */
    method VerifyChain() returns (ok: bool)
      modifies this`healthy
      ensures ok <==> forall i | 0 <= i < |events| :: HashFits(format, events, i)
      ensures healthy == (old(healthy) && ok)
    {
      var prev := GENESIS;
      for i := 0 to |events|
        invariant prev == Tail(events[..i]) && healthy == old(healthy)
        invariant forall j | 0 <= j < i :: HashFits(format, events, j)
      {
        var event := events[i];
        var fits := event.hash == format.hash(prev + format.text(event.entry));
        assert fits == HashFits(format, events, i);
        if !fits {
          healthy := false;
          assert !HashFits(format, events, i);
          return false;
        }
        prev := event.hash;
      }
      return true;
    }
  }

  predicate HashFits(f: Format, es: seq<Event>, i: nat)
    requires i < |es|
  {
    es[i].hash == f.hash(Tail(es[..i]) + f.text(es[i].entry))
  }

  /** A chain passes `verify_chain`. */
  lemma {:induction false} ChainFits(f: Format, es: seq<Event>)
    requires Chain(f, es)
    ensures forall i | 0 <= i < |es| :: HashFits(f, es, i)
    decreases |es|
  {
    if es != [] {
      var es' := es[..|es| - 1];
      ChainFits(f, es');
      forall i | 0 <= i < |es| ensures HashFits(f, es, i) {
        if i < |es'| {
          assert HashFits(f, es', i) && es'[..i] == es[..i];
        }
      }
    }
  }
}
