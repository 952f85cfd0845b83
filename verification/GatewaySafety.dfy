/**
 Safety of the gateway protocol over every interleaving, even when the approval table, the
 rate limiter and the audit store are changed arbitrarily between steps: at-most-once
 actuation, no illegal transition after an await, and the boundary between modes.
 */
module GatewaySafety {
  import opened Prelude
  import opened Capability
  import opened Policy
  import opened Execution
  import opened Approval
  import opened AuditLog
  import opened Adapters
  import opened Gateway
  import Risk

  // ---------------------------------------------------------------- the invariant

  /** Beyond the states from which a record can still become AUTHORIZED. */
  predicate Past(s: State) { !s.Requested? && !s.NeedsApproval? && !s.Approved? }

  /** No two `adapter.execute` calls share a correlation id. */
  predicate FiredOnce(calls: seq<AdapterCall>) {
    forall i, j | 0 <= i < j < |calls| && calls[i].actuates && calls[j].actuates ::
      calls[i].request.cid != calls[j].request.cid
  }

  predicate FiredIsPast(records: Records, calls: seq<AdapterCall>) {
    forall i | 0 <= i < |calls| && calls[i].actuates ::
      calls[i].request.cid in records && Past(records[calls[i].request.cid].machine.state)
  }

  /** No two calls of the preauthorized entry, observing or actuating, share a correlation id. */
  predicate PreauthorizedOnce(records: Records, calls: seq<AdapterCall>) {
    (forall i, j | 0 <= i < j < |calls| && calls[i].entry.Preauthorized? && calls[j].entry.Preauthorized? ::
       calls[i].request.cid != calls[j].request.cid)
    && (forall i | 0 <= i < |calls| && calls[i].entry.Preauthorized? :: calls[i].request.cid in records)
  }

  predicate AllLived(records: Records) { forall cid | cid in records :: Lived(records[cid].machine) }

  /** A parked call is the adapter call its token says, and its record is still in the state
      in which the call was parked. */
  predicate Awaiting(records: Records, calls: seq<AdapterCall>, token: nat, p: Parked) {
    token < |calls| && calls[token].request == p.request
    && match p
       case AwaitObserve(r) => !calls[token].actuates
       case AwaitExecute(r, _) => calls[token].actuates && r.cid in records && records[r.cid].machine.state == Authorized
       case AwaitVerify(r, _) => calls[token].actuates && r.cid in records && records[r.cid].machine.state == Dispatched
  }

  predicate AllAwaiting(records: Records, calls: seq<AdapterCall>, parked: map<nat, Parked>) {
    forall token | token in parked :: Awaiting(records, calls, token, parked[token])
  }

  /** An audit log fit for real devices: a log file that was loaded and found intact, with a
      signing key, a checkpoint file next to it, and a checkpoint due every so many events. */
  predicate SignedLog(st: Store) {
    st.healthy && st.loaded && st.cfg.persistent && st.disk.log.Some? && st.cfg.key.Some?
    && st.cfg.ckptPath && st.disk.ckpt.Some? && st.cfg.interval.Some? && st.cfg.interval.value > 0
  }

  lemma ReadyExactly(st: Store)
    ensures PhysicalReady(st) <==> SignedLog(st)
  {
  }

  /** The boundary between modes, and the conditions for touching a real device. */
  predicate CallSafe(g: Setup, c: AdapterCall) {
    Allows(c.domain, g.mode)
    && (g.mode.Simulation? ==> !c.domain.PhysicalOnly?)
    && (g.mode.Physical? ==> !c.domain.SimulationOnly?)
    && (g.mode.Physical? && c.actuates ==>
          c.env.enabled && !c.env.rules.killFile && c.env.rules.registry != map[] && SignedLog(c.audit)
          && c.env.routesLoaded && c.env.routes != map[])
  }

  predicate CallsSafe(g: Setup, calls: seq<AdapterCall>) { forall i | 0 <= i < |calls| :: CallSafe(g, calls[i]) }

  predicate Core(g: Setup, records: Records, calls: seq<AdapterCall>, parked: map<nat, Parked>) {
    FiredOnce(calls) && FiredIsPast(records, calls) && PreauthorizedOnce(records, calls)
    && AllLived(records) && AllAwaiting(records, calls, parked) && CallsSafe(g, calls)
  }

  predicate Safe(g: Setup, s: Sys) { Core(g, s.records, s.calls, s.parked) }

  // ---------------------------------------------------------------- elementary changes

  predicate NotFired(calls: seq<AdapterCall>, cid: string) {
    forall i | 0 <= i < |calls| && calls[i].actuates :: calls[i].request.cid != cid
  }

  predicate NotPreauthorized(calls: seq<AdapterCall>, cid: string) {
    forall i | 0 <= i < |calls| && calls[i].entry.Preauthorized? :: calls[i].request.cid != cid
  }

  predicate NoneParked(parked: map<nat, Parked>, cid: string) {
    forall token | token in parked && !parked[token].AwaitObserve? :: parked[token].request.cid != cid
  }

  lemma NewCidIsFree(g: Setup, records: Records, calls: seq<AdapterCall>, parked: map<nat, Parked>, cid: string)
    requires Core(g, records, calls, parked) && (cid !in records || !Past(records[cid].machine.state))
    ensures NotFired(calls, cid) && NoneParked(parked, cid)
    ensures cid !in records ==> NotPreauthorized(calls, cid)
  {
    hide Lived, CallSafe;
  }

  /** A record may be added, or changed when no parked call relies on it. */
  lemma SetRecord(g: Setup, records: Records, calls: seq<AdapterCall>, parked: map<nat, Parked>, cid: string, rec: Record)
    requires Core(g, records, calls, parked) && Lived(rec.machine)
    requires NoneParked(parked, cid)
    requires cid in records && Past(records[cid].machine.state) ==> Past(rec.machine.state)
    ensures Core(g, records[cid := rec], calls, parked)
  {
    hide Lived, CallSafe, Past;
    var records' := records[cid := rec];
    assert FiredIsPast(records', calls);
    assert PreauthorizedOnce(records', calls);
    assert AllLived(records');
    forall token | token in parked ensures Awaiting(records', calls, token, parked[token]) {
      assert Awaiting(records, calls, token, parked[token]);
    }
  }

  lemma UnparkKeeps(g: Setup, records: Records, calls: seq<AdapterCall>, parked: map<nat, Parked>, token: nat)
    requires Core(g, records, calls, parked)
    ensures Core(g, records, calls, parked - {token})
  {
    hide FiredOnce, FiredIsPast, PreauthorizedOnce, AllLived, CallsSafe, Awaiting;
  }

  /** A parked actuation is the only one for its correlation id. */
  lemma OnlyParked(g: Setup, records: Records, calls: seq<AdapterCall>, parked: map<nat, Parked>, token: nat)
    requires Core(g, records, calls, parked) && token in parked && !parked[token].AwaitObserve?
    ensures NoneParked(parked - {token}, parked[token].request.cid)
  {
    hide FiredIsPast, PreauthorizedOnce, AllLived, CallsSafe;
    var cid := parked[token].request.cid;
    assert Awaiting(records, calls, token, parked[token]);
    forall t | t in parked - {token} && !parked[t].AwaitObserve? ensures parked[t].request.cid != cid {
      assert Awaiting(records, calls, t, parked[t]);
    }
  }

  lemma ParkAgain(g: Setup, records: Records, calls: seq<AdapterCall>, parked: map<nat, Parked>, token: nat, p: Parked)
    requires Core(g, records, calls, parked) && Awaiting(records, calls, token, p)
    ensures Core(g, records, calls, parked[token := p])
  {
    hide FiredOnce, FiredIsPast, PreauthorizedOnce, AllLived, CallsSafe, Awaiting;
  }

  /** A new adapter call may be made when it is safe and the first of its kind. */
  lemma AddCall(g: Setup, records: Records, calls: seq<AdapterCall>, parked: map<nat, Parked>, c: AdapterCall, p: Parked)
    requires Core(g, records, calls, parked) && CallSafe(g, c)
    requires c.actuates ==> NotFired(calls, c.request.cid) && c.request.cid in records
                            && records[c.request.cid].machine.state == Authorized
    requires c.entry.Preauthorized? ==> NotPreauthorized(calls, c.request.cid) && c.request.cid in records
    requires p.request == c.request && (if c.actuates then p.AwaitExecute? else p.AwaitObserve?)
    ensures Core(g, records, calls + [c], parked[|calls| := p])
  {
    hide Lived, CallSafe;
    var calls' := calls + [c];
    assert FiredOnce(calls');
    assert FiredIsPast(records, calls');
    assert PreauthorizedOnce(records, calls');
    forall token | token in parked ensures Awaiting(records, calls', token, parked[token]) {
      assert Awaiting(records, calls, token, parked[token]);
    }
    assert Awaiting(records, calls', |calls|, p);
  }

  // ---------------------------------------------------------------- every stretch keeps it

  lemma LogFrame(g: Setup, s: Sys, kind: Kind, cid: string)
    ensures var s' := Log(g, s, kind, cid).0;
      s'.records == s.records && s'.calls == s.calls && s'.parked == s.parked && s'.openings == s.openings
      && s'.approvals == s.approvals && s'.windows == s.windows
  {
    hide Append;
  }

  lemma EnterSafe(g: Setup, s: Sys, env: Env)
    ensures Safe(g, s) ==> Safe(g, Enter(s, env))
  {
    hide Core;
  }

  lemma LogThenSafe(g: Setup, s: Sys, kind: Kind, cid: string, reply: Reply)
    requires Safe(g, s)
    ensures Safe(g, LogThen(g, s, kind, cid, reply).0)
    ensures LogThen(g, s, kind, cid, reply).1 in {reply, Exception(AuditQuarantined)}
  {
    hide Core, Log;
    LogFrame(g, s, kind, cid);
  }

  lemma OpenSafe(g: Setup, s: Sys, r: Request, d: Decision, entry: Entry)
    requires Safe(g, s) && r.cid !in s.records && d.allowed
    ensures var (s', failure) := OpenRecord(s, r, d, entry);
      failure.None? && Safe(g, s') && s'.calls == s.calls && r.cid in s'.records
      && s'.records[r.cid].machine.state == (if d.requiresApproval then NeedsApproval else Authorized)
    ensures NotFired(s.calls, r.cid) && NotPreauthorized(s.calls, r.cid)
  {
    hide Core;
    var s' := OpenRecord(s, r, d, entry).0;
    NewCidIsFree(g, s.records, s.calls, s.parked, r.cid);
    var m := s'.records[r.cid].machine;
    assert m.history[0] == Requested && Legal(m.history[0], m.history[1]);
    SetRecord(g, s.records, s.calls, s.parked, r.cid, s'.records[r.cid]);
  }

  /** What `Dispatch` needs to know of the record it is about to use. */
  predicate MayDispatch(s: Sys, r: Request, d: Decision, entry: Entry) {
    d.allowed
    && (r.cid in s.records ==> s.records[r.cid].machine.state == Authorized && NotFired(s.calls, r.cid))
    && (r.cid !in s.records ==> !d.requiresApproval)
    && (entry.Preauthorized? ==> r.cid in s.records && NotPreauthorized(s.calls, r.cid))
  }

  predicate Gated(g: Setup, def: Definition, env: Env, audit: Store) {
    g.mode.Physical? && !def.ReadOnly() ==> CheckGate(env, audit).None?
  }

  predicate NoCoordinatorError(reply: Reply) { !(reply.Exception? && reply.error.CoordinatorError?) }

  lemma DispatchSafe(g: Setup, s: Sys, r: Request, def: Definition, d: Decision, entry: Entry, env: Env)
    requires Safe(g, s) && MayDispatch(s, r, d, entry) && Gated(g, def, env, s.audit)
    ensures Safe(g, Dispatch(g, s, r, def, d, entry, env).0)
    ensures NoCoordinatorError(Dispatch(g, s, r, def, d, entry, env).1)
  {
    hide Core, LogThen, PhysicalReady;
    var ns := NamespaceOf(r.capabilityId);
    if ns !in env.routes {
      LogThenSafe(g, s, KAdapterRejected, r.cid, Rejection(NoNamespace));
    } else if !Allows(env.routes[ns], g.mode) {
      LogThenSafe(g, s, KAdapterRejected, r.cid, Rejection(DomainForbids));
    } else {
      var call := AdapterCall(!def.ReadOnly(), r, d.tier, entry, env.routes[ns], env, s.audit);
      ReadyExactly(s.audit);
      assert CallSafe(g, call);
      hide Gated, Allows;
      if def.ReadOnly() {
        AddCall(g, s.records, s.calls, s.parked, call, AwaitObserve(r));
      } else if r.cid in s.records {
        AddCall(g, s.records, s.calls, s.parked, call, AwaitExecute(r, def));
      } else {
        OpenSafe(g, s, r, d, entry);
        var s' := OpenRecord(s, r, d, entry).0;
        AddCall(g, s'.records, s'.calls, s'.parked, call, AwaitExecute(r, def));
      }
    }
  }

  lemma GateAndDispatchSafe(g: Setup, s: Sys, r: Request, def: Definition, d: Decision, entry: Entry, env: Env)
    requires Safe(g, s) && MayDispatch(s, r, d, entry)
    ensures Safe(g, GateAndDispatch(g, s, r, def, d, entry, env).0)
    ensures NoCoordinatorError(GateAndDispatch(g, s, r, def, d, entry, env).1)
  {
    hide Safe, MayDispatch, LogThen, Dispatch, CheckGate;
    if NeedsGate(g, def) && CheckGate(env, s.audit).Some? {
      LogThenSafe(g, s, KWriteBlocked, r.cid, Rejection(GateClosed(CheckGate(env, s.audit).value)));
    } else {
      DispatchSafe(g, s, r, def, d, entry, env);
    }
  }

  lemma ExecuteSafe(g: Setup, s: Sys, r: Request, ctx: Option<Risk.Context>, env: Env)
    requires Safe(g, s)
    ensures Safe(g, Execute(g, s, r, ctx, env).0) && NoCoordinatorError(Execute(g, s, r, ctx, env).1)
  {
    hide Core, Log, Evaluate, ExecuteJudged, PhysicalReady;
    LogFrame(g, s, KRequested, r.cid);
    if r.cid !in s.records {
      var s1 := Log(g, s, KRequested, r.cid).0;
      var (ws, v) := Evaluate(env.rules, g.limits, s1.windows, r, ctx, env.now);
      ExecuteJudgedSafe(g, s1.(windows := ws), r, v, env);
    }
  }

  lemma ExecuteJudgedSafe(g: Setup, s: Sys, r: Request, v: Verdict, env: Env)
    requires Safe(g, s) && r.cid !in s.records
    ensures Safe(g, ExecuteJudged(g, s, r, v, env).0) && NoCoordinatorError(ExecuteJudged(g, s, r, v, env).1)
  {
    hide Core, Log, AskApproval, GateAndDispatch, LogThen;
    LogThenSafe(g, s, KCapabilityRejected, r.cid, Rejection(NotRegistered));
    LogFrame(g, s, KPolicyEvaluated, r.cid);
    var s1 := Log(g, s, KPolicyEvaluated, r.cid).0;
    if v.Decided? && v.decision.allowed && r.capabilityId in env.rules.registry {
      if v.decision.requiresApproval {
        AskApprovalSafe(g, s1, r, v.decision, env);
      } else {
        GateAndDispatchSafe(g, s1, r, env.rules.registry[r.capabilityId], v.decision, Direct, env);
      }
    }
  }

  lemma AskApprovalSafe(g: Setup, s: Sys, r: Request, d: Decision, env: Env)
    requires Safe(g, s) && r.cid !in s.records && d.allowed
    ensures Safe(g, AskApproval(g, s, r, d, env).0) && NoCoordinatorError(AskApproval(g, s, r, d, env).1)
  {
    hide Core, LogThen, OpenRecord, RequestApproval;
    var asked := s.(approvals := RequestApproval(g.binding, g.ttl, s.approvals, env.freshId, r, d.tier, env.now));
    OpenSafe(g, asked, r, d, Direct);
    LogThenSafe(g, OpenRecord(asked, r, d, Direct).0, KNeedsApproval, r.cid, AwaitsApproval(env.freshId, d.tier));
  }

  lemma ApproveGrantSafe(g: Setup, s: Sys, id: string, approver: string, env: Env)
    requires Safe(g, s)
    ensures Safe(g, ApproveGrant(g, s, id, approver, env).0)
  {
    hide Core, LogThen;
    if CheckGrant(s.approvals, id, env.now).None? {
      LogThenSafe(g, s.(approvals := GiveGrant(s.approvals, id, approver, env.now)), KApprovalGranted,
                  s.approvals.requests[id].cid, AwaitsApproval(id, s.approvals.requests[id].tier));
    }
  }

  lemma ExecuteApprovedSafe(g: Setup, s: Sys, r: Request, id: string, ctx: Option<Risk.Context>, env: Env)
    requires Safe(g, s)
    ensures Safe(g, ExecuteApproved(g, s, r, id, ctx, env).0)
  {
    hide Core, Evaluate, ApprovedJudged;
    var (ws, v) := Evaluate(env.rules, g.limits, s.windows, r, ctx, env.now);
    ApprovedJudgedSafe(g, s.(windows := ws), r, id, v, env);
  }

  lemma ApprovedJudgedSafe(g: Setup, s: Sys, r: Request, id: string, v: Verdict, env: Env)
    requires Safe(g, s)
    ensures Safe(g, ApprovedJudged(g, s, r, id, v, env).0)
  {
    hide Core, LogThen, CheckConsume, Consume, ApprovedUsed;
    if v.Decided? && r.capabilityId in env.rules.registry {
      if !v.decision.allowed {
        LogThenSafe(g, s, KRejectedAfterApproval, r.cid, Rejection(Denied(v.decision.why)));
      } else {
        match CheckConsume(g.binding, s.approvals, id, r, v.decision.tier, env.now) {
          case Some(refusal) => LogThenSafe(g, s, KApprovalRejected, r.cid, Rejection(Refused(refusal)));
          case None =>
            var used := s.(approvals := Consume(g.binding, s.approvals, id, r, v.decision.tier, env.now));
            ApprovedUsedSafe(g, used, r, id, v.decision, env.rules.registry[r.capabilityId], env);
        }
      }
    }
  }

  lemma LivedAt(g: Setup, s: Sys, cid: string)
    requires Safe(g, s)
    ensures cid in s.records ==> Lived(s.records[cid].machine)
  {
    hide Lived, FiredOnce, FiredIsPast, PreauthorizedOnce, AllAwaiting, CallsSafe;
  }

  lemma ApproveRecordSafe(g: Setup, s: Sys, cid: string)
    requires Safe(g, s)
    ensures match Execution.Approve(s.records, cid)
      case Raised(records, _) => records == s.records
      case Done(records) =>
        Safe(g, s.(records := records)) && cid in s.records && s.records[cid].machine.state == NeedsApproval
        && cid in records && records[cid].machine.state == Authorized && NotFired(s.calls, cid)
  {
    LivedAt(g, s, cid);
    hide Core, Lived, Execution.Approve;
    ApproveExact(s.records, cid);
    if Execution.Approve(s.records, cid).Done? {
      NewCidIsFree(g, s.records, s.calls, s.parked, cid);
      SetRecord(g, s.records, s.calls, s.parked, cid, Execution.Approve(s.records, cid).records[cid]);
    }
  }

  lemma ApprovedUsedSafe(g: Setup, s: Sys, r: Request, id: string, d: Decision, def: Definition, env: Env)
    requires Safe(g, s) && d.allowed
    ensures Safe(g, ApprovedUsed(g, s, r, id, d, def, env).0)
  {
    hide Core, Log, GateAndDispatch, Execution.Approve, NotFired;
    ApproveRecordSafe(g, s, r.cid);
    match Execution.Approve(s.records, r.cid) {
      case Raised(_, _) =>
      case Done(records) =>
        LogFrame(g, s.(records := records), KApproved, r.cid);
        GateAndDispatchSafe(g, Log(g, s.(records := records), KApproved, r.cid).0, r, def, d, ByApproval(id), env);
    }
  }

  lemma PreauthorizedSafe(g: Setup, s: Sys, r: Request, d: Decision, env: Env)
    requires Safe(g, s)
    ensures Safe(g, ExecutePreauthorized(g, s, r, d, env).0) && NoCoordinatorError(ExecutePreauthorized(g, s, r, d, env).1)
  {
    hide Core, Log, LogThen, PreauthorizedOpen;
    LogThenSafe(g, s, KAdapterRejected, r.cid, Rejection(NotSimulation));
    LogThenSafe(g, s, KPolicyRejected, r.cid, Rejection(Denied(d.why)));
    LogThenSafe(g, s, KCapabilityRejected, r.cid, Rejection(NotRegistered));
    LogFrame(g, s, KRequested, r.cid);
    if g.mode.Simulation? && r.cid !in s.records && d.allowed && r.capabilityId in env.rules.registry {
      PreauthorizedOpenSafe(g, Log(g, s, KRequested, r.cid).0, r, d, env.rules.registry[r.capabilityId], env);
    }
  }

  lemma PreauthorizedOpenSafe(g: Setup, s: Sys, r: Request, d: Decision, def: Definition, env: Env)
    requires Safe(g, s) && r.cid !in s.records && d.allowed && g.mode.Simulation?
    ensures Safe(g, PreauthorizedOpen(g, s, r, d, def, env).0)
    ensures NoCoordinatorError(PreauthorizedOpen(g, s, r, d, def, env).1)
  {
    OpenSafe(g, s, r, d, Preauthorized);
    var s' := OpenRecord(s, r, d, Preauthorized).0;
    LivedAt(g, s', r.cid);
    hide Core, Lived, OpenRecord, Dispatch, Execution.Approve, NotFired, NotPreauthorized;
    if !d.requiresApproval {
      DispatchSafe(g, s', r, def, d, Preauthorized, env);
    } else {
      ApproveRecordSafe(g, s', r.cid);
      ApproveExact(s'.records, r.cid);
      DispatchSafe(g, s'.(records := Execution.Approve(s'.records, r.cid).records), r, def, d, Preauthorized, env);
    }
  }

  // ---------------------------------------------------------------- after an await

  lemma ExecuteReturnsSafe(g: Setup, s: Sys, token: nat, r: Request, def: Definition, answer: Option<Evidence>)
    requires Safe(g, s) && token in s.parked && s.parked[token] == AwaitExecute(r, def)
    ensures Safe(g, ExecuteReturns(g, s, token, r, def, answer).0)
    ensures NoCoordinatorError(ExecuteReturns(g, s, token, r, def, answer).1)
  {
    ParkedFacts(g, s, token);
    hide Core, Lived, Log, LogThen;
    UnparkKeeps(g, s.records, s.calls, s.parked, token);
    OnlyParked(g, s.records, s.calls, s.parked, token);
    var s0 := Unpark(s, token);
    if answer.Some? {
      var e := answer.value;
      var m := s.records[r.cid].machine;
      if !e.dispatched {
        AdvanceLived(m, Failed);
        var rec := s.records[r.cid].(machine := Machine(Failed, m.history + [Failed]));
        SetRecord(g, s0.records, s0.calls, s0.parked, r.cid, rec);
        LogThenSafe(g, s0.(records := s.records[r.cid := rec]), KDispatchFailed, r.cid, DispatchFailed);
      } else {
        AdvanceLived(m, Dispatched);
        var rec := s.records[r.cid].(result := Some(e), machine := Machine(Dispatched, m.history + [Dispatched]));
        SetRecord(g, s0.records, s0.calls, s0.parked, r.cid, rec);
        var s1 := s0.(records := s.records[r.cid := rec]);
        LogFrame(g, s1, KDispatched, r.cid);
        ParkAgain(g, s1.records, s1.calls, s1.parked, token, AwaitVerify(r, def));
      }
    }
  }

  /** A call resumed after an await finds its record in the state in which it was parked. */
  lemma ParkedFacts(g: Setup, s: Sys, token: nat)
    requires Safe(g, s) && token in s.parked
    ensures var p := s.parked[token];
      Awaiting(s.records, s.calls, token, p)
      && (!p.AwaitObserve? ==> p.request.cid in s.records && Lived(s.records[p.request.cid].machine))
  {
    hide Lived, FiredOnce, FiredIsPast, PreauthorizedOnce, CallsSafe;
  }

  lemma VerifyReturnsSafe(g: Setup, s: Sys, token: nat, r: Request, def: Definition, answer: Option<Evidence>)
    requires Safe(g, s) && token in s.parked && s.parked[token] == AwaitVerify(r, def)
    ensures Safe(g, VerifyReturns(g, s, token, r, def, answer).0)
    ensures NoCoordinatorError(VerifyReturns(g, s, token, r, def, answer).1)
  {
    ParkedFacts(g, s, token);
    hide Core, Lived, Log, LogThen, AdvanceThrough, LevelOf, StepsFor;
    UnparkKeeps(g, s.records, s.calls, s.parked, token);
    OnlyParked(g, s.records, s.calls, s.parked, token);
    var s0 := Unpark(s, token);
    LogFrame(g, s0, KVerification, r.cid);
    if answer.Some? {
      var level := LevelOf(answer.value);
      var s1 := Log(g, s0, KVerification, r.cid).0;
      var rec := s.records[r.cid];
      AdvanceFromDispatched(rec.machine, level);
      var rec' := rec.(machine := AdvanceThrough(rec.machine, StepsFor(level)).0);
      SetRecord(g, s1.records, s1.calls, s1.parked, r.cid, rec');
      LogThenSafe(g, s1.(records := s1.records[r.cid := rec']), KExecutionState, r.cid,
                  Finished(Reached(level, def.required), level));
    }
  }

  /** When the adapter dispatched nothing the record is FAILED and the call is over. */
  lemma NotDispatchedOutcome(g: Setup, s: Sys, token: nat, r: Request, def: Definition, e: Evidence)
    requires Safe(g, s) && token in s.parked && s.parked[token] == AwaitExecute(r, def) && !e.dispatched
    ensures var (s', reply) := ExecuteReturns(g, s, token, r, def, Some(e));
      s'.calls == s.calls && s'.parked == s.parked - {token} && (reply == Exception(AuditQuarantined) || reply == DispatchFailed)
      && r.cid in s'.records && s'.records[r.cid].machine.state == Failed
  {
    ParkedFacts(g, s, token);
    hide Core, Lived, Log;
    var m := s.records[r.cid].machine;
    LogFrame(g, Unpark(s, token).(records := s.records[r.cid := s.records[r.cid].(machine := Machine(Failed, m.history + [Failed]))]),
             KDispatchFailed, r.cid);
  }

  /** When it did, the record is DISPATCHED with the evidence on it, and the call goes on to
      verify unless the audit write fails. */
  lemma DispatchedOutcome(g: Setup, s: Sys, token: nat, r: Request, def: Definition, e: Evidence)
    requires Safe(g, s) && token in s.parked && s.parked[token] == AwaitExecute(r, def) && e.dispatched
    ensures var (s', reply) := ExecuteReturns(g, s, token, r, def, Some(e));
      s'.calls == s.calls && r.cid in s'.records
      && s'.records[r.cid].machine.state == Dispatched && s'.records[r.cid].result == Some(e)
      && (reply == Exception(AuditQuarantined)
          || (reply == Waiting(token) && token in s'.parked && s'.parked[token] == AwaitVerify(r, def)))
  {
    ParkedFacts(g, s, token);
    hide Core, Lived, Log;
    var rec := s.records[r.cid];
    var rec' := rec.(result := Some(e), machine := Machine(Dispatched, rec.machine.history + [Dispatched]));
    LogFrame(g, Unpark(s, token).(records := s.records[r.cid := rec']), KDispatched, r.cid);
  }

  /** What the verified evidence is worth, the strongest part of it first. */
  predicate Worth(e: Evidence, level: Level) {
    (level == V4 <==> e.effect) && (level == V3 <==> e.device && !e.effect)
    && (level == V2 <==> e.actuation && !e.device && !e.effect) && (level == V1 <==> !e.actuation && !e.device && !e.effect)
  }

  /** Whether it is enough for what the capability requires. */
  predicate Enough(e: Evidence, required: Level) {
    match required
    case V4 => e.effect
    case V3 => e.device || e.effect
    case V2 => e.actuation || e.device || e.effect
    case _ => true
  }

  /** A finished write reports what the verified evidence is worth, is completed exactly when
      that is enough for its capability, and leaves its record at the matching state. */
  lemma VerifiedOutcome(g: Setup, s: Sys, token: nat, r: Request, def: Definition, e: Evidence)
    requires Safe(g, s) && token in s.parked && s.parked[token] == AwaitVerify(r, def)
    ensures var (s', reply) := VerifyReturns(g, s, token, r, def, Some(e));
      reply == Exception(AuditQuarantined)
      || (reply.Finished? && Worth(e, reply.level) && reply.completed == Enough(e, def.required)
          && r.cid in s'.records && var state := s'.records[r.cid].machine.state;
             (state == PhysicalEffect <==> e.effect) && (state == DeviceEvidence <==> e.device && !e.effect)
             && (state == ActuationObserved <==> e.actuation && !e.device && !e.effect)
             && (state == Dispatched <==> !e.actuation && !e.device && !e.effect))
  {
    ParkedFacts(g, s, token);
    LevelExactly(e, def.required);
    hide Core, Lived, Log, AdvanceThrough, LevelOf, Reached, Enough;
    var level := LevelOf(e);
    var s0 := Unpark(s, token);
    LogFrame(g, s0, KVerification, r.cid);
    AdvanceFromDispatched(s.records[r.cid].machine, level);
    var s1 := Log(g, s0, KVerification, r.cid).0;
    LogFrame(g, s1.(records := s1.records[r.cid := s1.records[r.cid].(machine := AdvanceThrough(s.records[r.cid].machine, StepsFor(level)).0)]),
             KExecutionState, r.cid);
  }

  lemma LevelExactly(e: Evidence, required: Level)
    ensures Worth(e, LevelOf(e)) && (Reached(LevelOf(e), required) <==> Enough(e, required))
  {
  }

  lemma ResumeSafe(g: Setup, s: Sys, token: nat, answer: Option<Evidence>)
    requires Safe(g, s) && token in s.parked
    ensures Safe(g, Resume(g, s, token, answer).0) && NoCoordinatorError(Resume(g, s, token, answer).1)
  {
    hide Core, LogThen, ExecuteReturns, VerifyReturns;
    match s.parked[token] {
      case AwaitObserve(r) =>
        UnparkKeeps(g, s.records, s.calls, s.parked, token);
        LogThenSafe(g, Unpark(s, token), KObserved, r.cid, Finished(true, V0));
      case AwaitExecute(r, def) => ExecuteReturnsSafe(g, s, token, r, def, answer);
      case AwaitVerify(r, def) => VerifyReturnsSafe(g, s, token, r, def, answer);
    }
  }

  // ---------------------------------------------------------------- main results

  /** Every step keeps the invariant.  After an await no transition is ever illegal and no
      record ever missing; the same holds for the two entries that open their own record.
      Only `execute_approved` can meet a record in the wrong state, before it dispatches. */
  lemma StepSafe(g: Setup, s: Sys, a: Action)
    requires Safe(g, s) && Enabled(s, a)
    ensures Safe(g, Perform(g, s, a).0)
    ensures !a.DoExecuteApproved? ==> NoCoordinatorError(Perform(g, s, a).1)
  {
    hide Core, Execute, ApproveGrant, ExecuteApproved, ExecutePreauthorized, Resume;
    match a {
      case DoExecute(r, ctx, env) => ExecuteSafe(g, Enter(s, env), r, ctx, env);
      case DoApprove(id, approver, env) =>
        ApproveGrantSafe(g, Enter(s, env), id, approver, env);
        ApproveGrantReply(g, Enter(s, env), id, approver, env);
      case DoExecuteApproved(r, id, ctx, env) => ExecuteApprovedSafe(g, Enter(s, env), r, id, ctx, env);
      case DoExecutePreauthorized(r, d, env) => PreauthorizedSafe(g, Enter(s, env), r, d, env);
      case DoResume(token, answer, env) => ResumeSafe(g, Enter(s, env), token, answer);
      case Shared(_, _, _) =>
    }
  }

  lemma ApproveGrantReply(g: Setup, s: Sys, id: string, approver: string, env: Env)
    ensures NoCoordinatorError(ApproveGrant(g, s, id, approver, env).1)
  {
    hide Log;
  }

  lemma {:induction false} RunSafe(g: Setup, s: Sys, actions: seq<Action>)
    requires Safe(g, s) && Schedule(g, s, actions)
    ensures Safe(g, Play(g, s, actions))
    decreases |actions|
  {
    hide Safe, Perform, Enabled;
    if actions != [] {
      StepSafe(g, s, actions[0]);
      RunSafe(g, Perform(g, s, actions[0]).0, actions[1..]);
    }
  }

  lemma StartSafe(g: Setup, audit: Store)
    ensures Safe(g, Start(audit))
  {
  }

  /** At-most-once actuation: under every interleaving, `adapter.execute` is called at most
      once for a correlation id, whoever else changes the shared tables. */
  lemma AtMostOnceActuation(g: Setup, audit: Store, actions: seq<Action>, i: nat, j: nat)
    requires Schedule(g, Start(audit), actions)
    requires var calls := Play(g, Start(audit), actions).calls;
      i < j < |calls| && calls[i].actuates && calls[j].actuates
    ensures var calls := Play(g, Start(audit), actions).calls; calls[i].request.cid != calls[j].request.cid
  {
    hide Play, Schedule, FiredIsPast, PreauthorizedOnce, AllLived, AllAwaiting, CallsSafe;
    StartSafe(g, audit);
    RunSafe(g, Start(audit), actions);
  }

  /** The preauthorized entry reaches an adapter at most once for a correlation id. */
  lemma AtMostOncePreauthorized(g: Setup, audit: Store, actions: seq<Action>, i: nat, j: nat)
    requires Schedule(g, Start(audit), actions)
    requires var calls := Play(g, Start(audit), actions).calls;
      i < j < |calls| && calls[i].entry.Preauthorized? && calls[j].entry.Preauthorized?
    ensures var calls := Play(g, Start(audit), actions).calls; calls[i].request.cid != calls[j].request.cid
  {
    hide Play, Schedule, FiredOnce, FiredIsPast, AllLived, AllAwaiting, CallsSafe;
    StartSafe(g, audit);
    RunSafe(g, Start(audit), actions);
  }

  /** In PHYSICAL mode every actuation happens with writes enabled, no kill file, policy and
      allowlist loaded, the audit store ready and an adapter that is not simulation-only; in
      SIMULATION mode no physical-only adapter is observed or executed by any entry. */
  lemma ModeBoundary(g: Setup, audit: Store, actions: seq<Action>, i: nat)
    requires Schedule(g, Start(audit), actions) && i < |Play(g, Start(audit), actions).calls|
    ensures CallSafe(g, Play(g, Start(audit), actions).calls[i])
  {
    hide Play, Schedule, FiredOnce, FiredIsPast, PreauthorizedOnce, AllLived, AllAwaiting, CallSafe;
    StartSafe(g, audit);
    RunSafe(g, Start(audit), actions);
  }

  /** How a resumed call can be finished: an observation that was answered, or a write whose
      verified evidence is worth the reported level. */
  predicate Earned(p: Parked, answer: Option<Evidence>, completed: bool, level: Level) {
    answer.Some?
    && match p
       case AwaitObserve(_) => completed && level == V0
       case AwaitVerify(_, def) => Worth(answer.value, level) && completed == Enough(answer.value, def.required)
       case AwaitExecute(_, _) => false
  }

  lemma ResumeEarned(g: Setup, s: Sys, token: nat, answer: Option<Evidence>)
    requires Safe(g, s) && token in s.parked
    ensures var reply := Resume(g, s, token, answer).1;
      reply.Finished? ==> Earned(s.parked[token], answer, reply.completed, reply.level)
  {
    hide Core, Log, Worth, Enough, VerifyReturns, Execution.MarkDispatched, Execution.Advance;
    match s.parked[token] {
      case AwaitObserve(_) =>
      case AwaitExecute(r, def) =>
      case AwaitVerify(r, def) =>
        if answer.Some? { VerifiedOutcome(g, s, token, r, def, answer.value); } else { Unanswered(g, s, token, r, def); }
    }
  }

  lemma Unanswered(g: Setup, s: Sys, token: nat, r: Request, def: Definition)
    ensures VerifyReturns(g, s, token, r, def, None).1 == Exception(AdapterError)
  {
  }
}
