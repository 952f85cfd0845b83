/**
 Frames: what each stretch of a gateway call can do to the adapter calls, the parked calls
 and the approval requests, whoever makes it.
 */
module GatewayFrames {
  import opened Prelude
  import opened Capability
  import opened Policy
  import opened Execution
  import opened Approval
  import opened AuditLog
  import opened Adapters
  import opened Gateway
  import opened GatewaySafety
  import Risk

  /** No approval request is lost or changed. */
  predicate Preserved(a: Approvals, a': Approvals) {
    forall id | id in a.requests :: id in a'.requests && a'.requests[id] == a.requests[id]
  }

  /** Answers of the routing part: never that the policy or the approval refused. */
  predicate IsRouting(reply: Reply) {
    reply.Waiting? || reply.Exception? || (reply.Rejection? && !reply.why.Denied? && !reply.why.Refused?)
  }

  predicate IsPlain(reply: Reply) { reply.Waiting? || reply.Exception? || reply.Rejection? }

  predicate IsOutcome(reply: Reply) { !reply.NoReply? && !reply.AwaitsApproval? }

  /** Nothing happens to the calls, or one call is made and parked under its own token. */
  predicate AtMostOneCall(s: Sys, s': Sys, r: Request, entry: Entry, reply: Reply) {
    if reply.Waiting?
    then |s'.calls| == |s.calls| + 1 && s'.calls[..|s.calls|] == s.calls
         && s'.calls[|s.calls|].request == r && s'.calls[|s.calls|].entry == entry
         && reply.token == |s.calls| && |s.calls| in s'.parked && s'.parked == s.parked[|s.calls| := s'.parked[|s.calls|]]
    else s'.calls == s.calls && s'.parked == s.parked
  }

  lemma LogThenFrame(g: Setup, s: Sys, kind: Kind, cid: string, reply: Reply)
    requires !reply.Waiting?
    ensures var (s', reply') := LogThen(g, s, kind, cid, reply);
      s'.calls == s.calls && s'.parked == s.parked && s'.approvals == s.approvals && reply' in {reply, Exception(AuditQuarantined)}
  {
    hide Log;
    LogFrame(g, s, kind, cid);
  }

  lemma DispatchFrame(g: Setup, s: Sys, r: Request, def: Definition, d: Decision, entry: Entry, env: Env)
    ensures var (s', reply) := Dispatch(g, s, r, def, d, entry, env);
      AtMostOneCall(s, s', r, entry, reply) && s'.approvals == s.approvals && IsRouting(reply)
  {
    hide LogThen, OpenRecord, PhysicalReady, AtMostOneCall, Park;
    LogThenFrame(g, s, KAdapterRejected, r.cid, Rejection(NoNamespace));
    LogThenFrame(g, s, KAdapterRejected, r.cid, Rejection(DomainForbids));
    var (s', reply) := Dispatch(g, s, r, def, d, entry, env);
    var ns := Adapters.NamespaceOf(r.capabilityId);
    if ns in env.routes && Adapters.Allows(env.routes[ns], g.mode) {
      var call := AdapterCall(!def.ReadOnly(), r, d.tier, entry, env.routes[ns], env, s.audit);
      var started := if r.cid in s.records then (s, None) else OpenRecord(s, r, d, entry);
      OpenedCalls(s, r, d, entry);
      ParkCalls(s, s, call, AwaitObserve(r));
      ParkCalls(s, started.0, call, AwaitExecute(r, def));
      if !reply.Waiting? { NoCall(s, s', r, entry, reply); }
    } else {
      NoCall(s, s', r, entry, reply);
    }
  }

  lemma OpenedCalls(s: Sys, r: Request, d: Decision, entry: Entry)
    ensures var s' := OpenRecord(s, r, d, entry).0;
      s'.calls == s.calls && s'.parked == s.parked && s'.approvals == s.approvals
  {
    hide Execution.Begin;
  }

  lemma ParkCalls(s: Sys, s1: Sys, call: AdapterCall, p: Parked)
    requires s1.calls == s.calls && s1.parked == s.parked
    ensures var (s', reply) := Park(s1, call, p);
      reply.Waiting? && AtMostOneCall(s, s', call.request, call.entry, reply) && s'.approvals == s1.approvals
  {
  }

  lemma NoCall(s: Sys, s': Sys, r: Request, entry: Entry, reply: Reply)
    requires s'.calls == s.calls && s'.parked == s.parked && !reply.Waiting?
    ensures AtMostOneCall(s, s', r, entry, reply)
  {
  }

  lemma GatedFrame(g: Setup, s: Sys, r: Request, def: Definition, d: Decision, entry: Entry, env: Env)
    ensures var (s', reply) := GateAndDispatch(g, s, r, def, d, entry, env);
      AtMostOneCall(s, s', r, entry, reply) && s'.approvals == s.approvals && IsRouting(reply)
  {
    hide LogThen, Dispatch, CheckGate;
    DispatchFrame(g, s, r, def, d, entry, env);
    var closed := CheckGate(env, s.audit);
    if closed.Some? {
      LogThenFrame(g, s, KWriteBlocked, r.cid, Rejection(GateClosed(closed.value)));
    }
  }

  lemma PreauthorizedFrame(g: Setup, s: Sys, r: Request, d: Decision, env: Env)
    ensures var (s', reply) := ExecutePreauthorized(g, s, r, d, env);
      AtMostOneCall(s, s', r, Preauthorized, reply) && s'.approvals == s.approvals && IsPlain(reply)
  {
    hide LogThen, Log, PreauthorizedOpen;
    LogThenFrame(g, s, KAdapterRejected, r.cid, Rejection(NotSimulation));
    LogThenFrame(g, s, KPolicyRejected, r.cid, Rejection(Denied(d.why)));
    LogThenFrame(g, s, KCapabilityRejected, r.cid, Rejection(NotRegistered));
    LogFrame(g, s, KRequested, r.cid);
    if r.capabilityId in env.rules.registry {
      OpenFrame(g, Log(g, s, KRequested, r.cid).0, r, d, env.rules.registry[r.capabilityId], env);
    }
  }

  lemma OpenFrame(g: Setup, s: Sys, r: Request, d: Decision, def: Definition, env: Env)
    ensures var (s', reply) := PreauthorizedOpen(g, s, r, d, def, env);
      AtMostOneCall(s, s', r, Preauthorized, reply) && s'.approvals == s.approvals && IsPlain(reply)
  {
    hide Dispatch, Execution.Begin, Execution.Approve;
    var s' := OpenRecord(s, r, d, Preauthorized).0;
    DispatchFrame(g, s', r, def, d, Preauthorized, env);
    var approved := Execution.Approve(s'.records, r.cid);
    DispatchFrame(g, s'.(records := approved.records), r, def, d, Preauthorized, env);
  }

  lemma ExecuteFrame(g: Setup, s: Sys, r: Request, ctx: Option<Risk.Context>, env: Env)
    requires env.freshId !in s.approvals.requests
    ensures var (s', reply) := Execute(g, s, r, ctx, env);
      AtMostOneCall(s, s', r, Direct, reply) && Preserved(s.approvals, s'.approvals)
  {
    hide Log, Evaluate, ExecuteJudged, PhysicalReady;
    LogFrame(g, s, KRequested, r.cid);
    var s1 := Log(g, s, KRequested, r.cid).0;
    var (ws, v) := Evaluate(env.rules, g.limits, s1.windows, r, ctx, env.now);
    JudgedFrame(g, s1.(windows := ws), r, v, env);
  }

  lemma JudgedFrame(g: Setup, s: Sys, r: Request, v: Verdict, env: Env)
    requires env.freshId !in s.approvals.requests
    ensures var (s', reply) := ExecuteJudged(g, s, r, v, env);
      AtMostOneCall(s, s', r, Direct, reply) && Preserved(s.approvals, s'.approvals)
  {
    hide Log, LogThen, GateAndDispatch, AskApproval;
    LogThenFrame(g, s, KCapabilityRejected, r.cid, Rejection(NotRegistered));
    LogFrame(g, s, KPolicyEvaluated, r.cid);
    if v.Decided? && r.capabilityId in env.rules.registry {
      var s1 := Log(g, s, KPolicyEvaluated, r.cid).0;
      AskFrame(g, s1, r, v.decision, env);
      GatedFrame(g, s1, r, env.rules.registry[r.capabilityId], v.decision, Direct, env);
    }
  }

  lemma AskFrame(g: Setup, s: Sys, r: Request, d: Decision, env: Env)
    requires env.freshId !in s.approvals.requests
    ensures var (s', reply) := AskApproval(g, s, r, d, env);
      s'.calls == s.calls && s'.parked == s.parked && !reply.Waiting? && Preserved(s.approvals, s'.approvals)
  {
    hide LogThen, Execution.Begin, Digest;
    var asked := s.(approvals := RequestApproval(g.binding, g.ttl, s.approvals, env.freshId, r, d.tier, env.now));
    LogThenFrame(g, OpenRecord(asked, r, d, Direct).0, KNeedsApproval, r.cid,
                 AwaitsApproval(env.freshId, d.tier));
  }

  lemma ApproveFrame(g: Setup, s: Sys, id: string, approver: string, env: Env)
    ensures var (s', reply) := ApproveGrant(g, s, id, approver, env);
      s'.calls == s.calls && s'.parked == s.parked && !reply.Waiting? && Preserved(s.approvals, s'.approvals)
  {
    hide LogThen;
    if CheckGrant(s.approvals, id, env.now).None? {
      LogThenFrame(g, s.(approvals := GiveGrant(s.approvals, id, approver, env.now)), KApprovalGranted,
                   s.approvals.requests[id].cid, AwaitsApproval(id, s.approvals.requests[id].tier));
    }
  }

  lemma ApprovedFrame(g: Setup, s: Sys, r: Request, id: string, ctx: Option<Risk.Context>, env: Env)
    ensures var (s', reply) := ExecuteApproved(g, s, r, id, ctx, env);
      AtMostOneCall(s, s', r, ByApproval(id), reply) && Preserved(s.approvals, s'.approvals)
  {
    hide Evaluate, ApprovedJudged;
    var (ws, v) := Evaluate(env.rules, g.limits, s.windows, r, ctx, env.now);
    ApprovedJudgedFrame(g, s.(windows := ws), r, id, v, env);
  }

  lemma ApprovedJudgedFrame(g: Setup, s: Sys, r: Request, id: string, v: Verdict, env: Env)
    ensures var (s', reply) := ApprovedJudged(g, s, r, id, v, env);
      AtMostOneCall(s, s', r, ByApproval(id), reply) && Preserved(s.approvals, s'.approvals)
  {
    hide LogThen, CheckConsume, ApprovedUsed;
    if v.Decided? && r.capabilityId in env.rules.registry {
      LogThenFrame(g, s, KRejectedAfterApproval, r.cid, Rejection(Denied(v.decision.why)));
      match CheckConsume(g.binding, s.approvals, id, r, v.decision.tier, env.now) {
        case Some(refusal) => LogThenFrame(g, s, KApprovalRejected, r.cid, Rejection(Refused(refusal)));
        case None =>
          var used := s.(approvals := Consume(g.binding, s.approvals, id, r, v.decision.tier, env.now));
          UsedFrame(g, used, r, id, v.decision, env.rules.registry[r.capabilityId], env);
      }
    }
  }

  lemma UsedFrame(g: Setup, s: Sys, r: Request, id: string, d: Decision, def: Definition, env: Env)
    ensures var (s', reply) := ApprovedUsed(g, s, r, id, d, def, env);
      AtMostOneCall(s, s', r, ByApproval(id), reply) && s'.approvals == s.approvals && IsRouting(reply)
  {
    hide Log, GateAndDispatch, Execution.Approve;
    var s1 := s.(records := Execution.Approve(s.records, r.cid).records);
    LogFrame(g, s1, KApproved, r.cid);
    GatedFrame(g, Log(g, s1, KApproved, r.cid).0, r, def, d, ByApproval(id), env);
  }

  /** Resuming a call makes no other call; it is parked again exactly when it says so. */
  lemma ResumeFrame(g: Setup, s: Sys, token: nat, answer: Option<Evidence>)
    requires token in s.parked
    ensures var (s', reply) := Resume(g, s, token, answer);
      s'.calls == s.calls && s'.approvals == s.approvals && IsOutcome(reply)
      && (if reply.Waiting?
          then reply.token == token && s.parked[token].AwaitExecute? && token in s'.parked && s'.parked[token].AwaitVerify?
               && s'.parked == s.parked[token := s'.parked[token]]
          else s'.parked == s.parked - {token})
  {
    hide ExecuteReturns, VerifyReturns, LogThen;
    match s.parked[token] {
      case AwaitObserve(r) =>
        LogThenFrame(g, Unpark(s, token), KObserved, r.cid, Finished(true, V0));
      case AwaitExecute(r, def) => ExecuteReturnsFrame(g, s, token, r, def, answer);
      case AwaitVerify(r, def) => VerifyReturnsFrame(g, s, token, r, def, answer);
    }
  }

  lemma ExecuteReturnsFrame(g: Setup, s: Sys, token: nat, r: Request, def: Definition, answer: Option<Evidence>)
    requires token in s.parked
    ensures var (s', reply) := ExecuteReturns(g, s, token, r, def, answer);
      s'.calls == s.calls && s'.approvals == s.approvals && IsOutcome(reply)
      && (if reply.Waiting?
          then reply.token == token && s'.parked == s.parked[token := AwaitVerify(r, def)]
          else s'.parked == s.parked - {token})
  {
    hide Log, LogThen, Execution.MarkDispatched, Execution.Advance;
    var s0 := Unpark(s, token);
    if answer.Some? && r.cid in s.records {
      var advanced := Execution.Advance(s.records[r.cid].machine, Execution.Failed);
      if advanced.Some? {
        LogThenFrame(g, s0.(records := s.records[r.cid := s.records[r.cid].(machine := advanced.value)]),
                     KDispatchFailed, r.cid, DispatchFailed);
      }
      LogFrame(g, s0.(records := Execution.MarkDispatched(s.records, r.cid, answer.value).records), KDispatched, r.cid);
    }
  }

  lemma VerifyReturnsFrame(g: Setup, s: Sys, token: nat, r: Request, def: Definition, answer: Option<Evidence>)
    ensures var (s', reply) := VerifyReturns(g, s, token, r, def, answer);
      s'.calls == s.calls && s'.approvals == s.approvals && s'.parked == s.parked - {token}
      && !reply.Waiting? && IsOutcome(reply)
  {
    hide Log, LogThen, AdvanceThrough, LevelOf;
    var s0 := Unpark(s, token);
    LogFrame(g, s0, KVerification, r.cid);
    var s1 := Log(g, s0, KVerification, r.cid).0;
    if answer.Some? && r.cid in s1.records {
      var level := LevelOf(answer.value);
      var m := AdvanceThrough(s1.records[r.cid].machine, StepsFor(level)).0;
      LogThenFrame(g, s1.(records := s1.records[r.cid := s1.records[r.cid].(machine := m)]), KExecutionState, r.cid,
                   Finished(Reached(level, def.required), level));
    }
  }

  /** The calls made so far stay, a token is never parked again once it is done, and parked
      calls stay parked except possibly `touched`. */
  predicate Onward(s: Sys, s': Sys, touched: Option<nat>) {
    |s.calls| <= |s'.calls| && s'.calls[..|s.calls|] == s.calls
    && (forall t | t in s'.parked :: t in s.parked || t >= |s.calls|)
    && (forall t | t in s.parked && touched != Some(t) :: t in s'.parked && (t < |s.calls| ==> s'.parked[t] == s.parked[t]))
  }

  lemma OneCallOnward(s: Sys, s': Sys, r: Request, entry: Entry, reply: Reply)
    requires AtMostOneCall(s, s', r, entry, reply)
    ensures Onward(s, s', None)
  {
  }

  function Touched(a: Action): Option<nat> { if a.DoResume? then Some(a.token) else None }

  /** Nobody who goes through the gateway makes an old call again, touches another's parked
      call, or loses or changes an approval request. */
  lemma GatewayOnward(g: Setup, s: Sys, a: Action)
    requires Enabled(s, a) && !a.Shared?
    ensures Onward(s, Perform(g, s, a).0, Touched(a)) && Preserved(s.approvals, Perform(g, s, a).0.approvals)
  {
    hide Execute, ApproveGrant, ExecuteApproved, ExecutePreauthorized, Resume, AtMostOneCall;
    var s' := Enter(s, a.env);
    var t := Perform(g, s, a);
    match a {
      case DoExecute(r, ctx, env) => ExecuteFrame(g, s', r, ctx, env); OneCallOnward(s', t.0, r, Direct, t.1);
      case DoApprove(id, approver, env) => ApproveFrame(g, s', id, approver, env);
      case DoExecuteApproved(r, id, ctx, env) =>
        ApprovedFrame(g, s', r, id, ctx, env);
        OneCallOnward(s', t.0, r, ByApproval(id), t.1);
      case DoExecutePreauthorized(r, d, env) =>
        PreauthorizedFrame(g, s', r, d, env);
        OneCallOnward(s', t.0, r, Preauthorized, t.1);
      case DoResume(token, answer, env) => ResumeFrame(g, s', token, answer);
    }
  }
}
