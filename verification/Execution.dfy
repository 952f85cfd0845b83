/** The execution state machine and the coordinator's records (`execution/state_machine.py`,
    `execution/coordinator.py`), and what evidence is worth (`verification/engine.py`). */
module Execution {
  import opened Prelude
  import opened Json
  import opened Capability
  import opened Policy

  datatype Mode = Simulation | Physical

  datatype State =
    | Requested | NeedsApproval | Approved | Authorized | Dispatched
    | ActuationObserved | DeviceEvidence | PhysicalEffect | Failed | Cancelled | Rejected

  /** The table of legal transitions. */
  function Transitions(s: State): set<State> {
    match s
    case Requested => {NeedsApproval, Authorized, Rejected, Cancelled}
    case NeedsApproval => {Approved, Rejected, Cancelled}
    case Approved => {Authorized, Cancelled}
    case Authorized => {Dispatched, Cancelled, Failed}
    case Dispatched => {ActuationObserved, Failed, Cancelled}
    case ActuationObserved => {DeviceEvidence, Failed}
    case DeviceEvidence => {PhysicalEffect, Failed}
    case _ => {}
  }

  predicate Legal(s: State, t: State) { t in Transitions(s) }

  datatype Machine = Machine(state: State, history: seq<State>)

  const NEW_MACHINE := Machine(Requested, [Requested])

  function Advance(m: Machine, next: State): Option<Machine> {
    if Legal(m.state, next) then Some(Machine(next, m.history + [next])) else None
  }

  /** The history starts at REQUESTED, ends at the current state and makes only legal steps. */
  predicate Lived(m: Machine) {
    m.history != [] && m.history[0] == Requested && m.history[|m.history| - 1] == m.state
    && forall i | 0 <= i < |m.history| - 1 :: Legal(m.history[i], m.history[i + 1])
  }

  lemma AdvanceLived(m: Machine, next: State)
    requires Lived(m) && Legal(m.state, next)
    ensures Lived(Machine(next, m.history + [next]))
  {
    hide Legal;
  }

  /** The table has no cycle: every legal step goes up. */
  function Height(s: State): int {
    match s
    case Requested => 0 case NeedsApproval => 1 case Approved => 2 case Authorized => 3 case Dispatched => 4
    case ActuationObserved => 5 case DeviceEvidence => 6 case PhysicalEffect => 7 case _ => 8
  }

  lemma LegalGoesUp(s: State, t: State)
    requires Legal(s, t)
    ensures Height(s) < Height(t)
  {
  }

  /** So no state is ever entered twice. */
  lemma {:induction false} NoStateTwice(m: Machine, i: nat, j: nat)
    requires Lived(m) && i < j < |m.history|
    ensures Height(m.history[i]) < Height(m.history[j]) && m.history[i] != m.history[j]
    decreases j
  {
    LegalGoesUp(m.history[j - 1], m.history[j]);
    if i < j - 1 { NoStateTwice(m, i, j - 1); }
  }

  /** What an adapter reports. `error` is the detail's error text, if any. */
  datatype Evidence = Evidence(cid: string, dispatched: bool, actuation: bool, device: bool, effect: bool,
                               physicalEffect: string, error: Option<string>)

  function LevelOf(e: Evidence): Level {
    if e.effect then V4 else if e.device then V3 else if e.actuation then V2 else V1
  }

  /** `VerificationEngine.verify`: later, stronger evidence overrides. */
  method Verify(e: Evidence) returns (level: Level)
    ensures level == LevelOf(e)
  {
    level := V1;
    if e.actuation { level := V2; }
    if e.device { level := V3; }
    if e.effect { level := V4; }
  }

  // ---------------------------------------------------------------- advancing by level

  const STEPS := [ActuationObserved, DeviceEvidence, PhysicalEffect]

  function StepsFor(level: Level): (n: nat)
    ensures n <= 3
  {
    match level case V0 => 0 case V1 => 0 case V2 => 1 case V3 => 2 case V4 => 3
  }

  /** `_advance_state`: the first `n` steps are taken, those already in the history skipped;
      the flag is false when a step was illegal and an exception was raised there. */
  function AdvanceThrough(m: Machine, n: nat): (Machine, bool)
    requires n <= 3
  {
    if n == 0 then (m, true)
    else
      var (m', ok) := AdvanceThrough(m, n - 1);
      if !ok || STEPS[n - 1] in m'.history then (m', ok)
      else match Advance(m', STEPS[n - 1])
        case Some(m'') => (m'', true)
        case None => (m', false)
  }

  /** A freshly dispatched machine can be advanced to any level. */
  lemma AdvanceFromDispatched(m: Machine, level: Level)
    requires Lived(m) && m.state == Dispatched
    ensures var (m', ok) := AdvanceThrough(m, StepsFor(level));
      ok && Lived(m') && m'.state == (match level case V2 => ActuationObserved case V3 => DeviceEvidence
                                       case V4 => PhysicalEffect case _ => Dispatched)
  {
    NotYet(m, ActuationObserved);
    NotYet(m, DeviceEvidence);
    NotYet(m, PhysicalEffect);
    var m1 := Machine(ActuationObserved, m.history + [ActuationObserved]);
    AdvanceLived(m, ActuationObserved);
    assert AdvanceThrough(m, 0) == (m, true);
    assert AdvanceThrough(m, 1) == (m1, true);
    var m2 := Machine(DeviceEvidence, m1.history + [DeviceEvidence]);
    AdvanceLived(m1, DeviceEvidence);
    assert AdvanceThrough(m, 2) == (m2, true);
    AdvanceLived(m2, PhysicalEffect);
    assert AdvanceThrough(m, 3) == (Machine(PhysicalEffect, m2.history + [PhysicalEffect]), true);
  }

  /** Advancing goes on from where the machine stands and skips what it has passed; before it
      was dispatched there is no legal first step. */
  lemma AdvanceFromAny(m: Machine, level: Level)
    requires Lived(m) && Height(m.state) <= Height(PhysicalEffect)
    ensures var (m', ok) := AdvanceThrough(m, StepsFor(level));
      var goal := match level case V2 => ActuationObserved case V3 => DeviceEvidence case V4 => PhysicalEffect case _ => Dispatched;
      if Height(m.state) >= Height(Dispatched)
      then ok && Lived(m') && m'.state == (if Height(m.state) >= Height(goal) then m.state else goal)
      else m' == m && (ok <==> goal == Dispatched)
  {
    if m.state == Dispatched {
      AdvanceFromDispatched(m, level);
    } else if Height(m.state) < Height(Dispatched) {
      NotYet(m, ActuationObserved);
      NotYet(m, DeviceEvidence);
      NotYet(m, PhysicalEffect);
      assert AdvanceThrough(m, 0) == (m, true);
      assert AdvanceThrough(m, 1) == (m, false);
      assert AdvanceThrough(m, 2) == (m, false);
    } else {
      PassedThrough(m);
      if m.state == ActuationObserved || m.state == DeviceEvidence { NotYet(m, PhysicalEffect); }
      if m.state == ActuationObserved { NotYet(m, DeviceEvidence); }
      StepsAhead(m, level);
    }
  }

  /** A machine that has come past DISPATCHED has taken every step in between. */
  lemma {:induction false} PassedThrough(m: Machine)
    requires Lived(m) && Height(Dispatched) < Height(m.state) <= Height(PhysicalEffect)
    ensures ActuationObserved in m.history
      && (Height(m.state) >= Height(DeviceEvidence) ==> DeviceEvidence in m.history)
      && (m.state == PhysicalEffect ==> PhysicalEffect in m.history)
    decreases |m.history|
  {
    var n := |m.history| - 1;
    assert m.history[n] == m.state && Legal(m.history[n - 1], m.history[n]);
    if m.state != ActuationObserved {
      var before := Machine(m.history[n - 1], m.history[..n]);
      forall i | 0 <= i < |before.history| - 1 ensures Legal(before.history[i], before.history[i + 1]) {
        assert Legal(m.history[i], m.history[i + 1]);
      }
      PassedThrough(before);
    }
  }

  lemma StepsAhead(m: Machine, level: Level)
    requires Lived(m) && m.state in {ActuationObserved, DeviceEvidence, PhysicalEffect} && ActuationObserved in m.history
    requires DeviceEvidence in m.history <==> Height(m.state) >= Height(DeviceEvidence)
    requires PhysicalEffect in m.history <==> m.state == PhysicalEffect
    ensures var (m', ok) := AdvanceThrough(m, StepsFor(level));
      var goal := match level case V2 => ActuationObserved case V3 => DeviceEvidence case V4 => PhysicalEffect case _ => Dispatched;
      ok && Lived(m') && m'.state == (if Height(m.state) >= Height(goal) then m.state else goal)
  {
    var m1 := if DeviceEvidence in m.history then m else Machine(DeviceEvidence, m.history + [DeviceEvidence]);
    if m1 != m { AdvanceLived(m, DeviceEvidence); }
    var m2 := if PhysicalEffect in m1.history then m1 else Machine(PhysicalEffect, m1.history + [PhysicalEffect]);
    assert AdvanceThrough(m, 0) == (m, true);
    assert AdvanceThrough(m, 1) == (m, true);
    assert AdvanceThrough(m, 2) == (m1, true);
    if m2 != m1 { AdvanceLived(m1, PhysicalEffect); }
    assert AdvanceThrough(m, 3) == (m2, true);
  }

  lemma NotYet(m: Machine, s: State)
    requires Lived(m) && Height(s) > Height(m.state)
    ensures s !in m.history
  {
    if s in m.history {
      var i :| 0 <= i < |m.history| && m.history[i] == s;
      if i < |m.history| - 1 { NoStateTwice(m, i, |m.history| - 1); }
    }
  }

  // ---------------------------------------------------------------- the coordinator's table

  datatype Record = Record(capabilityId: string, parameters: Members, machine: Machine, decision: Decision,
                           result: Option<Evidence>)

  type Records = map<string, Record>

  datatype Failure = PolicyDenied | Duplicate | UnknownRecord | Illegal

  datatype Outcome = Done(records: Records) | Raised(records: Records, failure: Failure)

  function Begin(rs: Records, r: Request, d: Decision): Outcome {
    if !d.allowed then Raised(rs, PolicyDenied)
    else if r.cid in rs then Raised(rs, Duplicate)
    else
      var first := if d.requiresApproval then NeedsApproval else Authorized;
      Done(rs[r.cid := Record(r.capabilityId, r.parameters, Machine(first, [Requested, first]), d, None)])
  }

  function Approve(rs: Records, cid: string): Outcome {
    if cid !in rs then Raised(rs, UnknownRecord)
    else match Advance(rs[cid].machine, Approved)
      case None => Raised(rs, Illegal)
      case Some(m) =>
        match Advance(m, Authorized)
        case None => Raised(rs[cid := rs[cid].(machine := m)], Illegal)
        case Some(m') => Done(rs[cid := rs[cid].(machine := m')])
  }

  function MarkDispatched(rs: Records, cid: string, e: Evidence): Outcome {
    if cid !in rs then Raised(rs, UnknownRecord)
    else
      var rec := rs[cid].(result := Some(e));
      match Advance(rec.machine, Dispatched)
      case None => Raised(rs[cid := rec], Illegal)
      case Some(m) => Done(rs[cid := rec.(machine := m)])
  }

  /** Exactly when a record can be opened, and what it holds then. */
  lemma BeginExactly(rs: Records, r: Request, d: Decision)
    ensures (Begin(rs, r, d).Done? <==> d.allowed && r.cid !in rs)
      && (Begin(rs, r, d).Done? ==>
            var first := if d.requiresApproval then NeedsApproval else Authorized;
            Begin(rs, r, d).records == rs[r.cid := Record(r.capabilityId, r.parameters, Machine(first, [Requested, first]), d, None)])
      && (!d.allowed ==> Begin(rs, r, d) == Raised(rs, PolicyDenied))
      && (d.allowed && r.cid in rs ==> Begin(rs, r, d) == Raised(rs, Duplicate))
  {
  }

  /** Approving works for exactly the records that wait for it, and leads to AUTHORIZED. */
  lemma ApproveExact(rs: Records, cid: string)
    requires cid in rs ==> Lived(rs[cid].machine)
    ensures Approve(rs, cid).Done? <==> cid in rs && rs[cid].machine.state == NeedsApproval
    ensures Approve(rs, cid).Done? ==>
      var m := Approve(rs, cid).records[cid].machine;
      Lived(m) && m.state == Authorized
      && Approve(rs, cid).records == rs[cid := rs[cid].(machine := m)]
    ensures Approve(rs, cid).Raised? ==> Approve(rs, cid).records == rs
  {
    if cid in rs && rs[cid].machine.state == NeedsApproval {
      AdvanceLived(rs[cid].machine, Approved);
      AdvanceLived(Machine(Approved, rs[cid].machine.history + [Approved]), Authorized);
    }
  }
}
