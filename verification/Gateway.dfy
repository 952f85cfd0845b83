/** Adapter routing (`adapters/registry.py`) and the write gate (`safety/write_gate.py`). */
module Adapters {
  import opened Prelude
  import opened Execution

  datatype Domain = SimulationOnly | PhysicalOnly | Both

  predicate Allows(d: Domain, mode: Mode) {
    d.Both? || (mode.Simulation? && d.SimulationOnly?) || (mode.Physical? && d.PhysicalOnly?)
  }

  /** `capability_id.split(".", 1)[0]` */
  function NamespaceOf(id: string): string {
    if id == "" || id[0] == '.' then "" else [id[0]] + NamespaceOf(id[1..])
  }

  /** The id is routed to an adapter of this domain. */
  predicate RoutesTo(routes: map<string, Domain>, id: string, d: Domain) {
    NamespaceOf(id) in routes && routes[NamespaceOf(id)] == d
  }

  datatype Registration = Registration(namespace: string, domain: Domain)

  /** The routes after these registrations. */
  function RoutesAfter(regs: seq<Registration>): map<string, Domain>
    decreases |regs|
  {
    if regs == [] then map[]
    else
      var last := regs[|regs| - 1];
      RoutesAfter(regs[..|regs| - 1])[last.namespace := last.domain]
  }

  /** No later registration is for the same namespace. */
  predicate IsLast(regs: seq<Registration>, i: nat, namespace: string) {
    i < |regs| && regs[i].namespace == namespace && forall j | i < j < |regs| :: regs[j].namespace != namespace
  }

  /** An id is routed by the last registration of its namespace, and by no other. */
  lemma {:induction false} RoutedByLast(regs: seq<Registration>, id: string, d: Domain)
    ensures RoutesTo(RoutesAfter(regs), id, d) <==> exists i: nat :: IsLast(regs, i, NamespaceOf(id)) && regs[i].domain == d
  {
    hide NamespaceOf, RoutesAfter;
    LastBinds(regs, NamespaceOf(id));
    LastUnique(regs, NamespaceOf(id));
  }

  lemma LastUnique(regs: seq<Registration>, ns: string)
    ensures forall i: nat, j: nat | IsLast(regs, i, ns) && IsLast(regs, j, ns) :: i == j
  {
  }

  lemma {:induction false} LastBinds(regs: seq<Registration>, ns: string)
    ensures ns in RoutesAfter(regs) ==> exists i: nat :: IsLast(regs, i, ns) && regs[i].domain == RoutesAfter(regs)[ns]
    ensures ns !in RoutesAfter(regs) ==> forall i: nat :: !IsLast(regs, i, ns)
    decreases |regs|
  {
    if regs != [] {
      var n := |regs| - 1;
      LastBinds(regs[..n], ns);
      if regs[n].namespace == ns {
        assert IsLast(regs, n, ns);
      } else {
        hide RoutesAfter;
        forall i: nat ensures IsLast(regs, i, ns) <==> IsLast(regs[..n], i, ns) {}
      }
    }
  }

  /** The namespace is what stands before the first dot, or the whole id when there is none. */
  lemma {:induction false} NamespaceSplit(id: string)
    ensures var ns := NamespaceOf(id);
      '.' !in ns && |ns| <= |id| && id[..|ns|] == ns && (|ns| < |id| ==> id[|ns|] == '.')
    decreases |id|
  {
    if id != "" && id[0] != '.' { NamespaceSplit(id[1..]); }
  }

  class AdapterRegistry {
    var routes: map<string, Domain>
    var loaded: bool

    constructor ()
      ensures routes == map[] && !loaded
    {
      routes, loaded := map[], false;
    }

    method Register(namespace: string, domain: Domain)
      modifies this`routes
      ensures routes == old(routes)[namespace := domain]
      ensures forall regs :: old(routes) == RoutesAfter(regs) ==> routes == RoutesAfter(regs + [Registration(namespace, domain)])
    {
      forall regs | routes == RoutesAfter(regs)
        ensures RoutesAfter(regs + [Registration(namespace, domain)]) == routes[namespace := domain]
      {
        assert (regs + [Registration(namespace, domain)])[..|regs|] == regs;
      }
      routes := routes[namespace := domain];
    }

    method MarkLoaded()
      modifies this`loaded
      ensures loaded
    {
      loaded := true;
    }
  }
}

/**
 The capability gateway (`safety/gateway.py`) as a concurrent protocol.

 A call runs without interruption up to an adapter await and is then parked under a token;
 any parked call or any new call may go next.  Each such stretch reads the outside world
 once (`Env`), the adapters answer anything or fail, and any audit append may fail.
 */
module Gateway {
  import opened Prelude
  import opened Json
  import opened AuditLog
  import opened AuditChain
  import opened Hashing
  import opened Capability
  import opened RateLimit
  import opened Policy
  import opened Execution
  import opened Approval
  import opened Adapters
  import Risk

  /** What never changes while the gateway lives. */
  datatype Setup = Setup(mode: Mode, format: Format, mac: MacFn, binding: Binding, ttl: real, limits: Limits)

  /** What one stretch reads from outside: rules and kill state, the environment switch, the
      routes, the clock, the outcome of its audit writes, and the random id it draws. */
  datatype Env = Env(rules: Rules, enabled: bool, routes: map<string, Domain>, routesLoaded: bool,
                     now: real, stamp: string, faults: seq<Fault>, freshId: string)

  /** Kinds of audit entry written by the gateway. */
  datatype Kind =
    | KRequested | KCapabilityRejected | KPolicyEvaluated | KNeedsApproval | KWriteBlocked | KApprovalGranted
    | KRejectedAfterApproval | KApprovalRejected | KApproved | KAdapterRejected | KPolicyRejected
    | KObserved | KDispatchFailed | KDispatched | KVerification | KExecutionState

  function KindText(k: Kind): string {
    match k
    case KRequested => "capability_requested" case KCapabilityRejected => "capability_rejected"
    case KPolicyEvaluated => "policy_evaluated" case KNeedsApproval => "needs_approval"
    case KWriteBlocked => "write_blocked" case KApprovalGranted => "approval_granted"
    case KRejectedAfterApproval => "policy_rejected_after_approval" case KApprovalRejected => "approval_rejected"
    case KApproved => "approved" case KAdapterRejected => "adapter_rejected" case KPolicyRejected => "policy_rejected"
    case KObserved => "observed" case KDispatchFailed => "dispatch_failed" case KDispatched => "dispatched"
    case KVerification => "verification" case KExecutionState => "execution_state"
  }

  /** The entry point a dispatch came through. */
  datatype Entry = Direct | ByApproval(id: string) | Preauthorized

  /** One adapter call: `execute` when it actuates, else `observe`.  `env` and `audit` are what
      the outside world and the audit store were when it was made. */
  datatype AdapterCall = AdapterCall(actuates: bool, request: Request, tier: int, entry: Entry, domain: Domain, env: Env, audit: Store)

  /** A call parked at an await. */
  datatype Parked =
    | AwaitObserve(request: Request)
    | AwaitExecute(request: Request, definition: Definition)
    | AwaitVerify(request: Request, definition: Definition)

  datatype Note = Note(kind: Kind, cid: string)

  /** The request that opened a record. */
  datatype Opening = Opening(request: Request, tier: int, needsApproval: bool, entry: Entry)

  /** The shared state, the parked calls by token, and history variables: every adapter call
      in order (its index is the token), the audit entries of this gateway, the openings. */
  datatype Sys = Sys(records: Records, approvals: Approvals, windows: Windows, audit: Store,
                     parked: map<nat, Parked>, calls: seq<AdapterCall>, trail: seq<Note>, openings: map<string, Opening>,
                     faults: seq<Fault>, stamp: string)

  datatype Closed = NotEnabled | KillActive | PolicyNotLoaded | AuditNotReady | AllowlistNotLoaded

  datatype Reject =
    | DuplicateCid | AuditUnready | NotRegistered | Denied(why: Why) | GateClosed(closed: Closed)
    | Refused(refusal: Refusal) | NotSimulation | NoNamespace | DomainForbids

  datatype Error =
    | AuditQuarantined | UnknownCapabilityError | TierError | CoordinatorError(failure: Failure)
    | ApprovalError(refusal: Refusal) | AdapterError

  datatype Reply =
    | Rejection(why: Reject)
    | AwaitsApproval(id: string, tier: int)
    | Waiting(token: nat)
    | Finished(completed: bool, level: Level)
    | DispatchFailed
    | Exception(error: Error)
    | NoReply

  function Start(audit: Store): Sys {
    Sys(map[], NO_APPROVALS, map[], audit, map[], [], [], map[], [], "")
  }

  // ---------------------------------------------------------------- audit and write gate

  /** `audit.append`, with the next write outcome; false when it raises. */
  function Log(g: Setup, s: Sys, kind: Kind, cid: string): (Sys, bool) {
    var fault := if s.faults == [] then NoFault else s.faults[0];
    var (audit, status) := Append(g.format, g.mac, s.audit, NewEntry(KindText(kind), cid, Null, s.stamp), fault);
    var trail := if |audit.events| > |s.audit.events| then s.trail + [Note(kind, cid)] else s.trail;
    (s.(audit := audit, trail := trail, faults := if s.faults == [] then [] else s.faults[1..]), status.Fine?)
  }

  /** Log an entry, then answer; an append that raises takes precedence. */
  function LogThen(g: Setup, s: Sys, kind: Kind, cid: string, reply: Reply): (Sys, Reply) {
    var (s', ok) := Log(g, s, kind, cid);
    (s', if ok then reply else Exception(AuditQuarantined))
  }

  /** `WriteGate.check`: `None` when writing is allowed.  The approval engine is always healthy. */
  function CheckGate(env: Env, audit: Store): Option<Closed> {
    if !env.enabled then Some(NotEnabled)
    else if env.rules.killFile then Some(KillActive)
    else if env.rules.registry == map[] then Some(PolicyNotLoaded)
    else if !PhysicalReady(audit) then Some(AuditNotReady)
    else if !env.routesLoaded || env.routes == map[] then Some(AllowlistNotLoaded)
    else None
  }

  predicate NeedsGate(g: Setup, d: Definition) { !d.ReadOnly() && g.mode.Physical? }

  // ---------------------------------------------------------------- dispatch

  /** Parks a call at the adapter; its token is its place among the adapter calls. */
  function Park(s: Sys, call: AdapterCall, parked: Parked): (Sys, Reply) {
    var token := |s.calls|;
    (s.(calls := s.calls + [call], parked := s.parked[token := parked]), Waiting(token))
  }

  /** Opens a record in the coordinator and remembers by which request. */
  function OpenRecord(s: Sys, r: Request, d: Decision, entry: Entry): (Sys, Option<Failure>) {
    match Begin(s.records, r, d)
    case Raised(_, failure) => (s, Some(failure))
    case Done(records) =>
      (s.(records := records, openings := s.openings[r.cid := Opening(r, d.tier, d.requiresApproval, entry)]), None)
  }

  /** `_dispatch` up to its await. */
  function Dispatch(g: Setup, s: Sys, r: Request, def: Definition, d: Decision, entry: Entry, env: Env): (Sys, Reply) {
    var ns := NamespaceOf(r.capabilityId);
    if ns !in env.routes then LogThen(g, s, KAdapterRejected, r.cid, Rejection(NoNamespace))
    else if !Allows(env.routes[ns], g.mode) then LogThen(g, s, KAdapterRejected, r.cid, Rejection(DomainForbids))
    else
      var call := AdapterCall(!def.ReadOnly(), r, d.tier, entry, env.routes[ns], env, s.audit);
      if def.ReadOnly() then Park(s, call, AwaitObserve(r))
      else
        var (s', failure) := if r.cid in s.records then (s, None) else OpenRecord(s, r, d, entry);
        if failure.Some? then (s', Exception(CoordinatorError(failure.value)))
        else Park(s', call, AwaitExecute(r, def))
  }

  /** The write gate, then dispatch. */
  function GateAndDispatch(g: Setup, s: Sys, r: Request, def: Definition, d: Decision, entry: Entry, env: Env): (Sys, Reply) {
    if NeedsGate(g, def) && CheckGate(env, s.audit).Some?
    then LogThen(g, s, KWriteBlocked, r.cid, Rejection(GateClosed(CheckGate(env, s.audit).value)))
    else Dispatch(g, s, r, def, d, entry, env)
  }

  // ---------------------------------------------------------------- the entry points

  /** `execute` */
  function Execute(g: Setup, s: Sys, r: Request, ctx: Option<Risk.Context>, env: Env): (Sys, Reply) {
    if r.cid in s.records then (s, Rejection(DuplicateCid))
    else if g.mode.Physical? && !PhysicalReady(s.audit) then (s, Rejection(AuditUnready))
    else ExecuteRequested(g, s, r, ctx, env)
  }

  function ExecuteRequested(g: Setup, s: Sys, r: Request, ctx: Option<Risk.Context>, env: Env): (Sys, Reply) {
    var (s1, ok) := Log(g, s, KRequested, r.cid);
    if !ok then (s1, Exception(AuditQuarantined))
    else
      var (ws, v) := Evaluate(env.rules, g.limits, s1.windows, r, ctx, env.now);
      ExecuteJudged(g, s1.(windows := ws), r, v, env)
  }

  function ExecuteJudged(g: Setup, s: Sys, r: Request, v: Verdict, env: Env): (Sys, Reply) {
    if v.UnknownCapability? || r.capabilityId !in env.rules.registry
    then LogThen(g, s, KCapabilityRejected, r.cid, Rejection(NotRegistered))
    else if v.BadTier? then (s, Exception(TierError))
    else ExecuteDecided(g, s, r, v.decision, env.rules.registry[r.capabilityId], env)
  }

  function ExecuteDecided(g: Setup, s: Sys, r: Request, d: Decision, def: Definition, env: Env): (Sys, Reply) {
    var (s1, ok) := Log(g, s, KPolicyEvaluated, r.cid);
    if !ok then (s1, Exception(AuditQuarantined)) else Proceed(g, s1, r, d, def, env)
  }

  function Proceed(g: Setup, s: Sys, r: Request, d: Decision, def: Definition, env: Env): (Sys, Reply) {
    if !d.allowed then (s, Rejection(Denied(d.why)))
    else if d.requiresApproval then AskApproval(g, s, r, d, env)
    else GateAndDispatch(g, s, r, def, d, Direct, env)
  }

  function AskApproval(g: Setup, s: Sys, r: Request, d: Decision, env: Env): (Sys, Reply) {
    var asked := s.(approvals := RequestApproval(g.binding, g.ttl, s.approvals, env.freshId, r, d.tier, env.now));
    var (s', failure) := OpenRecord(asked, r, d, Direct);
    if failure.Some? then (s', Exception(CoordinatorError(failure.value)))
    else LogThen(g, s', KNeedsApproval, r.cid, AwaitsApproval(env.freshId, d.tier))
  }

  /** `approve` */
  function ApproveGrant(g: Setup, s: Sys, id: string, approver: string, env: Env): (Sys, Reply) {
    match CheckGrant(s.approvals, id, env.now)
    case Some(refusal) => (s, Exception(ApprovalError(refusal)))
    case None =>
      LogThen(g, s.(approvals := GiveGrant(s.approvals, id, approver, env.now)), KApprovalGranted,
              s.approvals.requests[id].cid, AwaitsApproval(id, s.approvals.requests[id].tier))
  }

  /** `execute_approved` */
  function ExecuteApproved(g: Setup, s: Sys, r: Request, id: string, ctx: Option<Risk.Context>, env: Env): (Sys, Reply) {
    if r.capabilityId !in env.rules.registry then (s, Exception(UnknownCapabilityError))
    else
      var (ws, v) := Evaluate(env.rules, g.limits, s.windows, r, ctx, env.now);
      ApprovedJudged(g, s.(windows := ws), r, id, v, env)
  }

  function ApprovedJudged(g: Setup, s: Sys, r: Request, id: string, v: Verdict, env: Env): (Sys, Reply) {
    if v.UnknownCapability? || r.capabilityId !in env.rules.registry then (s, Exception(UnknownCapabilityError))
    else if v.BadTier? then (s, Exception(TierError))
    else if !v.decision.allowed
    then LogThen(g, s, KRejectedAfterApproval, r.cid, Rejection(Denied(v.decision.why)))
    else Redeem(g, s, r, id, v.decision, env.rules.registry[r.capabilityId], env)
  }

  function Redeem(g: Setup, s: Sys, r: Request, id: string, d: Decision, def: Definition, env: Env): (Sys, Reply) {
    match CheckConsume(g.binding, s.approvals, id, r, d.tier, env.now)
    case Some(refusal) => LogThen(g, s, KApprovalRejected, r.cid, Rejection(Refused(refusal)))
    case None =>
      ApprovedUsed(g, s.(approvals := Consume(g.binding, s.approvals, id, r, d.tier, env.now)), r, id, d, def, env)
  }

  function ApprovedUsed(g: Setup, s: Sys, r: Request, id: string, d: Decision, def: Definition, env: Env): (Sys, Reply) {
    match Approve(s.records, r.cid)
    case Raised(records, failure) => (s.(records := records), Exception(CoordinatorError(failure)))
    case Done(records) =>
      var (s', ok) := Log(g, s.(records := records), KApproved, r.cid);
      if !ok then (s', Exception(AuditQuarantined))
      else GateAndDispatch(g, s', r, def, d, ByApproval(id), env)
  }

  /** `execute_authorized_simulation`; the decision is whatever the caller passes. */
  function ExecutePreauthorized(g: Setup, s: Sys, r: Request, d: Decision, env: Env): (Sys, Reply) {
    if g.mode.Physical? then LogThen(g, s, KAdapterRejected, r.cid, Rejection(NotSimulation))
    else if r.cid in s.records then (s, Rejection(DuplicateCid))
    else if !d.allowed then LogThen(g, s, KPolicyRejected, r.cid, Rejection(Denied(d.why)))
    else if r.capabilityId !in env.rules.registry
    then LogThen(g, s, KCapabilityRejected, r.cid, Rejection(NotRegistered))
    else
      var (s1, ok) := Log(g, s, KRequested, r.cid);
      if !ok then (s1, Exception(AuditQuarantined))
      else PreauthorizedOpen(g, s1, r, d, env.rules.registry[r.capabilityId], env)
  }

  function PreauthorizedOpen(g: Setup, s: Sys, r: Request, d: Decision, def: Definition, env: Env): (Sys, Reply) {
    var (s', failure) := OpenRecord(s, r, d, Preauthorized);
    if failure.Some? then (s', Exception(CoordinatorError(failure.value)))
    else if !d.requiresApproval then Dispatch(g, s', r, def, d, Preauthorized, env)
    else match Approve(s'.records, r.cid)
      case Raised(records, f) => (s'.(records := records), Exception(CoordinatorError(f)))
      case Done(records) => Dispatch(g, s'.(records := records), r, def, d, Preauthorized, env)
  }

  // ---------------------------------------------------------------- resuming after an await

  function Unpark(s: Sys, token: nat): Sys { s.(parked := s.parked - {token}) }

  function ObserveReturns(g: Setup, s: Sys, token: nat, r: Request, answered: bool): (Sys, Reply) {
    if !answered then (Unpark(s, token), Exception(AdapterError))
    else LogThen(g, Unpark(s, token), KObserved, r.cid, Finished(true, V0))
  }

  /** The rest of `_dispatch` after `adapter.execute`. */
  function ExecuteReturns(g: Setup, s: Sys, token: nat, r: Request, def: Definition, answer: Option<Evidence>): (Sys, Reply) {
    var s0 := Unpark(s, token);
    match answer
    case None => (s0, Exception(AdapterError))
    case Some(e) =>
      if r.cid !in s.records then (s0, Exception(CoordinatorError(UnknownRecord)))
      else if !e.dispatched then
        match Advance(s.records[r.cid].machine, Failed)
        case None => (s0, Exception(CoordinatorError(Illegal)))
        case Some(m) => LogThen(g, s0.(records := s.records[r.cid := s.records[r.cid].(machine := m)]),
                                KDispatchFailed, r.cid, DispatchFailed)
      else match MarkDispatched(s.records, r.cid, e)
        case Raised(records, failure) => (s0.(records := records), Exception(CoordinatorError(failure)))
        case Done(records) =>
          var (s1, ok) := Log(g, s0.(records := records), KDispatched, r.cid);
          if !ok then (s1, Exception(AuditQuarantined))
          else (s1.(parked := s1.parked[token := AwaitVerify(r, def)]), Waiting(token))
  }

  /** The rest of `_dispatch` after `adapter.verify`. */
  function VerifyReturns(g: Setup, s: Sys, token: nat, r: Request, def: Definition, answer: Option<Evidence>): (Sys, Reply) {
    var s0 := Unpark(s, token);
    match answer
    case None => (s0, Exception(AdapterError))
    case Some(e) =>
      var level := LevelOf(e);
      var (s1, ok) := Log(g, s0, KVerification, r.cid);
      if !ok then (s1, Exception(AuditQuarantined))
      else Conclude(g, s1, r, def, level)
  }

  /** `_advance_state` and the last entry. */
  function Conclude(g: Setup, s: Sys, r: Request, def: Definition, level: Level): (Sys, Reply) {
    if r.cid !in s.records then (s, Exception(CoordinatorError(UnknownRecord)))
    else
      var (m, legal) := AdvanceThrough(s.records[r.cid].machine, StepsFor(level));
      var s' := s.(records := s.records[r.cid := s.records[r.cid].(machine := m)]);
      if !legal then (s', Exception(CoordinatorError(Illegal)))
      else LogThen(g, s', KExecutionState, r.cid, Finished(Reached(level, def.required), level))
  }

  // ---------------------------------------------------------------- steps and runs

  /** `Shared` stands for every other user of the approval engine, the rate limiter and the
      audit store: it may change them in any way. */
  datatype Action =
    | DoExecute(request: Request, ctx: Option<Risk.Context>, env: Env)
    | DoApprove(id: string, approver: string, env: Env)
    | DoExecuteApproved(request: Request, id: string, ctx: Option<Risk.Context>, env: Env)
    | DoExecutePreauthorized(request: Request, decision: Decision, env: Env)
    | DoResume(token: nat, answer: Option<Evidence>, env: Env)
    | Shared(approvals: Approvals, windows: Windows, audit: Store)

  /** Only parked calls resume, and drawn ids are new. */
  predicate Enabled(s: Sys, a: Action) {
    match a
    case DoExecute(_, _, env) => env.freshId !in s.approvals.requests
    case DoResume(token, _, _) => token in s.parked
    case _ => true
  }

  function Enter(s: Sys, env: Env): Sys { s.(faults := env.faults, stamp := env.stamp) }

  function Perform(g: Setup, s: Sys, a: Action): (Sys, Reply)
    requires Enabled(s, a)
  {
    match a
    case DoExecute(r, ctx, env) => Execute(g, Enter(s, env), r, ctx, env)
    case DoApprove(id, approver, env) => ApproveGrant(g, Enter(s, env), id, approver, env)
    case DoExecuteApproved(r, id, ctx, env) => ExecuteApproved(g, Enter(s, env), r, id, ctx, env)
    case DoExecutePreauthorized(r, d, env) => ExecutePreauthorized(g, Enter(s, env), r, d, env)
    case DoResume(token, answer, env) => Resume(g, Enter(s, env), token, answer)
    case Shared(approvals, windows, audit) =>
      (s.(approvals := approvals, windows := windows, audit := audit), NoReply)
  }

  function Resume(g: Setup, s: Sys, token: nat, answer: Option<Evidence>): (Sys, Reply)
    requires token in s.parked
  {
    match s.parked[token]
    case AwaitObserve(r) => ObserveReturns(g, s, token, r, answer.Some?)
    case AwaitExecute(r, def) => ExecuteReturns(g, s, token, r, def, answer)
    case AwaitVerify(r, def) => VerifyReturns(g, s, token, r, def, answer)
  }

  /** The actions are each enabled when their turn comes. */
  predicate Schedule(g: Setup, s: Sys, actions: seq<Action>)
    decreases |actions|
  {
    actions == [] || (Enabled(s, actions[0]) && Schedule(g, Perform(g, s, actions[0]).0, actions[1..]))
  }

  function Play(g: Setup, s: Sys, actions: seq<Action>): Sys
    requires Schedule(g, s, actions)
    decreases |actions|
  {
    if actions == [] then s else Play(g, Perform(g, s, actions[0]).0, actions[1..])
  }
}
