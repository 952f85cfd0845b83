/**
 The execution objects of the source: a state machine per execution, a record that owns
 it, and the coordinator's table of records.  A caller that holds a record advances its
 machine in place, and the coordinator sees it.
 */
module Coordinator {
  import opened Prelude
  import opened Json
  import opened Capability
  import opened Policy
  import opened Execution

  class ExecutionStateMachine {
    var state: State
    var history: seq<State>

    ghost function View(): Machine
      reads this
    {
      Machine(state, history)
    }

    constructor ()
      ensures View() == NEW_MACHINE
    {
      state, history := Requested, [Requested];
    }

    /** `advance`; false when it raises, and then nothing has changed. */
    method Advance(next: State) returns (ok: bool)
      modifies this
      ensures ok == Legal(old(state), next)
      ensures View() == if ok then Machine(next, old(history) + [next]) else old(View())
    {
      if next !in Transitions(state) { return false; }
      state := next;
      history := history + [next];
      return true;
    }

    /** `_advance_state`: takes the steps up to the level, skipping those already taken. */
    method AdvanceTo(level: Level) returns (ok: bool)
      modifies this
      ensures (View(), ok) == AdvanceThrough(old(View()), StepsFor(level))
    {
      var rank := StepsFor(level);
      for i := 0 to 3
        invariant (View(), true) == AdvanceThrough(old(View()), if i < rank then i else rank)
      {
        if rank >= i + 1 && STEPS[i] !in history {
          var legal := Advance(STEPS[i]);
          if !legal {
            StuckThrough(old(View()), i + 1, rank);
            return false;
          }
        }
      }
      return true;
    }
  }

  /** Once a step was illegal, the later ones are not reached. */
  lemma {:induction false} StuckThrough(m: Machine, i: nat, n: nat)
    requires i <= n <= 3 && !AdvanceThrough(m, i).1
    ensures AdvanceThrough(m, n) == AdvanceThrough(m, i)
    decreases n
  {
    if i < n { StuckThrough(m, i, n - 1); }
  }

  class ExecutionRecord {
    const capabilityId: string
    const parameters: Members
    const machine: ExecutionStateMachine
    const decision: Decision
    var adapterResult: Option<Evidence>

    ghost function View(): Record
      reads this, machine
    {
      Record(capabilityId, parameters, machine.View(), decision, adapterResult)
    }

    constructor (capabilityId: string, parameters: Members, machine: ExecutionStateMachine, decision: Decision)
      ensures View() == Record(capabilityId, parameters, machine.View(), decision, None)
      ensures this.machine == machine
    {
      this.capabilityId, this.parameters, this.machine, this.decision := capabilityId, parameters, machine, decision;
      adapterResult := None;
    }
  }

  class ExecutionCoordinator {
    var records: map<string, ExecutionRecord>

    ghost var Repr: set<object>

    /** No two ids share a record or a machine. */
    ghost predicate Valid()
      reads this, Repr
    {
      this in Repr
      && (forall x | x in records :: records[x] in Repr && records[x].machine in Repr)
      && (forall x, y | x in records && y in records && x != y ::
            records[x] != records[y] && records[x].machine != records[y].machine)
    }

    ghost function View(): Records
      requires Valid()
      reads this, Repr
    {
      map cid | cid in records :: records[cid].View()
    }

    constructor ()
      ensures Valid() && View() == map[] && fresh(Repr)
    {
      records, Repr := map[], {this};
    }

    predicate Has(cid: string)
      reads this
    {
      cid in records
    }

    lemma ViewKeys()
      requires Valid()
      ensures View().Keys == records.Keys
    {
    }

    /** Only the record of `cid` has changed. */
    twostate lemma OnlyChanged(cid: string)
      requires old(Valid()) && Valid()
      requires cid in records && records.Keys == old(records.Keys) + {cid}
      requires forall x | x in old(records) && x != cid :: records[x].View() == old(records[x].View())
      ensures View() == old(View())[cid := records[cid].View()]
    {
    }

    /** A record in the first state after REQUESTED. */
    static method NewRecord(r: Request, d: Decision) returns (record: ExecutionRecord)
      ensures fresh(record) && fresh(record.machine)
      ensures var first := if d.requiresApproval then NeedsApproval else Authorized;
        record.View() == Record(r.capabilityId, r.parameters, Machine(first, [Requested, first]), d, None)
    {
      var machine := new ExecutionStateMachine();
      var ok := machine.Advance(if d.requiresApproval then NeedsApproval else Authorized);
      record := new ExecutionRecord(r.capabilityId, r.parameters, machine, d);
    }

    method Register(cid: string, record: ExecutionRecord)
      requires Valid() && cid !in records && record !in Repr && record.machine !in Repr
      modifies this
      ensures Valid() && Repr == old(Repr) + {record, record.machine}
      ensures View() == old(View())[cid := old(record.View())]
    {
      records, Repr := records[cid := record], Repr + {record, record.machine};
      OnlyChanged(cid);
    }

    /** `begin` */
    method Begin(r: Request, d: Decision) returns (failure: Option<Failure>)
      requires Valid()
      modifies this
      ensures Valid() && fresh(Repr - old(Repr))
      ensures match Execution.Begin(old(View()), r, d)
        case Raised(rs, f) => failure == Some(f) && View() == rs
        case Done(rs) => failure == None && View() == rs
    {
      ViewKeys();
      hide View, Valid;
      if !d.allowed { return Some(PolicyDenied); }
      if r.cid in records { return Some(Duplicate); }
      var record := NewRecord(r, d);
      Register(r.cid, record);
      return None;
    }

    /** `approve`: NEEDS_APPROVAL to APPROVED to AUTHORIZED. */
    method Approve(cid: string) returns (failure: Option<Failure>)
      requires Valid()
      modifies Repr
      ensures Valid() && records == old(records) && Repr == old(Repr)
      ensures match Execution.Approve(old(View()), cid)
        case Raised(rs, f) => failure == Some(f) && View() == rs
        case Done(rs) => failure == None && View() == rs
    {
      if cid !in records { return Some(UnknownRecord); }
      hide View;
      var ok := AdvanceRecord(cid, Approved);
      if !ok { return Some(Illegal); }
      ok := AdvanceRecord(cid, Authorized);
      if !ok { return Some(Illegal); }
      return None;
    }

    /** `mark_dispatched`: the result is stored before the transition is tried. */
    method MarkDispatched(cid: string, e: Evidence) returns (failure: Option<Failure>)
      requires Valid()
      modifies Repr
      ensures Valid() && records == old(records) && Repr == old(Repr)
      ensures match Execution.MarkDispatched(old(View()), cid, e)
        case Raised(rs, f) => failure == Some(f) && View() == rs
        case Done(rs) => failure == None && View() == rs
    {
      if cid !in records { return Some(UnknownRecord); }
      var record := records[cid];
      record.adapterResult := Some(e);
      var ok := record.machine.Advance(Dispatched);
      OnlyChanged(cid);
      return if ok then None else Some(Illegal);
    }

    /** `advance`, also what a holder of the record does with its machine. */
    method AdvanceRecord(cid: string, next: State) returns (ok: bool)
      requires Valid() && cid in records
      modifies Repr
      ensures Valid() && records == old(records) && Repr == old(Repr)
      ensures match Execution.Advance(old(View())[cid].machine, next)
        case None => !ok && View() == old(View())
        case Some(m) => ok && View() == old(View())[cid := old(View())[cid].(machine := m)]
    {
      ok := records[cid].machine.Advance(next);
      OnlyChanged(cid);
    }

    /** `_advance_state` on the record. */
    method AdvanceRecordTo(cid: string, level: Level) returns (ok: bool)
      requires Valid() && cid in records
      modifies Repr
      ensures Valid() && records == old(records) && Repr == old(Repr)
      ensures var (m, legal) := AdvanceThrough(old(View())[cid].machine, StepsFor(level));
        ok == legal && View() == old(View())[cid := old(View())[cid].(machine := m)]
    {
      ok := records[cid].machine.AdvanceTo(level);
      OnlyChanged(cid);
    }
  }
}
