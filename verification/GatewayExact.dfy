/**
 What each entry of the gateway does, exactly, from the call to the adapter and in terms of
 what a caller can check beforehand: the conditions run through policy, approvals, the
 coordinator's table, the write gate and the routes.
 */
module GatewayExact {
  import opened Prelude
  import opened Capability
  import opened Policy
  import opened Execution
  import opened Approval
  import opened AuditLog
  import opened Gateway
  import opened GatewaySafety
  import opened GatewayFrames
  import Adapters
  import RateLimit
  import Risk

  // ---------------------------------------------------------------- the conditions

  /** Audit writes of this stretch succeed. */
  predicate Calm(s: Sys) { s.audit.healthy && s.faults == [] }

  /** The capability's namespace is routed to an adapter that may be used in this mode. */
  predicate Routed(g: Setup, env: Env, id: string) {
    exists d :: Adapters.RoutesTo(env.routes, id, d) && (d.Both? || (if g.mode.Simulation? then d.SimulationOnly? else d.PhysicalOnly?))
  }

  /** What a real device asks for before it is written to. */
  predicate MayWrite(env: Env, audit: Store) {
    env.enabled && !env.rules.killFile && env.rules.registry != map[] && SignedLog(audit)
    && env.routesLoaded && env.routes != map[]
  }

  lemma GateExactly(env: Env, audit: Store)
    ensures CheckGate(env, audit).None? <==> MayWrite(env, audit)
    ensures CheckGate(env, audit) == (if !env.enabled then Some(NotEnabled)
      else if env.rules.killFile then Some(KillActive) else if env.rules.registry == map[] then Some(PolicyNotLoaded)
      else if !SignedLog(audit) then Some(AuditNotReady)
      else if !env.routesLoaded || env.routes == map[] then Some(AllowlistNotLoaded) else None)
  {
    ReadyExactly(audit);
  }

  lemma RouteExactly(g: Setup, env: Env, id: string)
    ensures Routed(g, env, id)
      <==> Adapters.NamespaceOf(id) in env.routes && Adapters.Allows(env.routes[Adapters.NamespaceOf(id)], g.mode)
  {
    hide Adapters.NamespaceOf;
    if Adapters.NamespaceOf(id) in env.routes {
      assert Adapters.RoutesTo(env.routes, id, env.routes[Adapters.NamespaceOf(id)]);
    }
  }

  lemma CalmLog(g: Setup, s: Sys, kind: Kind, cid: string)
    requires Calm(s)
    ensures var (s', ok) := Log(g, s, kind, cid); ok && Calm(s') && (SignedLog(s.audit) ==> SignedLog(s'.audit))
  {
    hide NewEntry, NextEvent;
  }

  // ---------------------------------------------------------------- the adapter call

  /** The one adapter call that was made, with what the adapter's answer will be held against. */
  predicate Made(token: nat, s': Sys, reply: Reply, r: Request, tier: int, entry: Entry, def: Definition, env: Env) {
    reply == Waiting(token) && |s'.calls| == token + 1
    && var c := s'.calls[token];
       c.actuates == !def.sideEffect.NoEffect? && c.request == r && c.tier == tier && c.entry == entry && c.env == env
       && token in s'.parked
       && s'.parked[token] == (if def.sideEffect.NoEffect? then AwaitObserve(r) else AwaitExecute(r, def))
  }

  lemma DispatchExactly(g: Setup, s: Sys, r: Request, def: Definition, d: Decision, entry: Entry, env: Env)
    requires d.allowed
    ensures var (s', reply) := Dispatch(g, s, r, def, d, entry, env);
      !reply.Finished? && !reply.AwaitsApproval? && (reply.Waiting? <==> Routed(g, env, r.capabilityId))
      && (reply.Waiting? ==> Made(|s.calls|, s', reply, r, d.tier, entry, def, env))
      && (!reply.Waiting? && Calm(s) ==> reply in {Rejection(NoNamespace), Rejection(DomainForbids)})
  {
    hide Log, Routed, Adapters.NamespaceOf, Adapters.Allows, SignedLog;
    RouteExactly(g, env, r.capabilityId);
    if Calm(s) { CalmLog(g, s, KAdapterRejected, r.cid); }
  }

  lemma GatedExactly(g: Setup, s: Sys, r: Request, def: Definition, d: Decision, entry: Entry, env: Env)
    requires d.allowed
    ensures var (s', reply) := GateAndDispatch(g, s, r, def, d, entry, env);
      !reply.Finished? && !reply.AwaitsApproval?
      && (reply.Waiting? <==>
            (g.mode.Physical? && !def.sideEffect.NoEffect? ==> MayWrite(env, s.audit)) && Routed(g, env, r.capabilityId))
      && (reply.Waiting? ==> Made(|s.calls|, s', reply, r, d.tier, entry, def, env))
  {
    hide Log, Dispatch, Routed, MayWrite, CheckGate, Made, AtMostOneCall, PhysicalReady;
    GateExactly(env, s.audit);
    DispatchExactly(g, s, r, def, d, entry, env);
    DispatchFrame(g, s, r, def, d, entry, env);
  }

  // ---------------------------------------------------------------- execute

  /** Nothing stands in the way of asking the policy. */
  predicate Admissible(g: Setup, s: Sys, r: Request) {
    r.cid !in s.records && (g.mode.Physical? ==> SignedLog(s.audit))
  }

  /** When `execute` reaches the adapter at once. */
  predicate ActsAtOnce(g: Setup, s: Sys, r: Request, ctx: Option<Risk.Context>, env: Env) {
    Admissible(g, s, r) && Permitted(env.rules, g.limits, s.windows, r, ctx, env.now)
    && var def := env.rules.registry[r.capabilityId];
       !NeedsHuman(def, ctx) && Routed(g, env, r.capabilityId)
       && (g.mode.Physical? && !def.sideEffect.NoEffect? ==> env.enabled && !env.rules.killFile && env.routesLoaded)
  }

  /** When it asks a human instead. */
  predicate AsksFirst(g: Setup, s: Sys, r: Request, ctx: Option<Risk.Context>, env: Env) {
    Admissible(g, s, r) && Permitted(env.rules, g.limits, s.windows, r, ctx, env.now)
    && NeedsHuman(env.rules.registry[r.capabilityId], ctx)
  }

  function TierFor(g: Setup, s: Sys, r: Request, ctx: Option<Risk.Context>, env: Env): int {
    var v := Evaluate(env.rules, g.limits, s.windows, r, ctx, env.now).1;
    if v.Decided? then v.decision.tier else 0
  }

  /** The question a human is asked, and the record that waits for the answer. */
  predicate Asked(g: Setup, s: Sys, s': Sys, reply: Reply, r: Request, tier: int, env: Env) {
    reply == AwaitsApproval(env.freshId, tier) && s'.calls == s.calls && s'.approvals.grants == s.approvals.grants
    && s'.approvals.requests == s.approvals.requests[env.freshId :=
         ApprovalRequest(r.cid, r.principal, r.capabilityId, r.deviceId, g.binding.hash(g.binding.text(r)), tier, env.now + g.ttl)]
    && r.cid in s'.records && s'.records[r.cid].machine.state == NeedsApproval
  }

  /** The request is filed and the record opened; nothing else has changed. */
  predicate Filed(g: Setup, s: Sys, s': Sys, r: Request, tier: int, env: Env) {
    s'.calls == s.calls && s'.audit == s.audit && s'.faults == s.faults && s'.approvals.grants == s.approvals.grants
    && s'.approvals.requests == s.approvals.requests[env.freshId :=
         ApprovalRequest(r.cid, r.principal, r.capabilityId, r.deviceId, g.binding.hash(g.binding.text(r)), tier, env.now + g.ttl)]
    && r.cid in s'.records && s'.records[r.cid].machine.state == NeedsApproval
  }

  lemma FiledExactly(g: Setup, s: Sys, r: Request, d: Decision, env: Env)
    requires d.allowed && d.requiresApproval && r.cid !in s.records
    ensures var asked := s.(approvals := RequestApproval(g.binding, g.ttl, s.approvals, env.freshId, r, d.tier, env.now));
      var (s1, failure) := OpenRecord(asked, r, d, Direct);
      failure.None? && Filed(g, s, s1, r, d.tier, env)
  {
    hide OpenRecord, RequestApproval;
    var asked := s.(approvals := RequestApproval(g.binding, g.ttl, s.approvals, env.freshId, r, d.tier, env.now));
    OpenedForHuman(asked, r, d);
    FiledRequest(g, s.approvals, r, d.tier, env);
  }

  lemma OpenedForHuman(s: Sys, r: Request, d: Decision)
    requires d.allowed && d.requiresApproval && r.cid !in s.records
    ensures var (s1, failure) := OpenRecord(s, r, d, Direct);
      failure.None? && s1.approvals == s.approvals && s1.calls == s.calls && s1.audit == s.audit && s1.faults == s.faults
      && r.cid in s1.records && s1.records[r.cid].machine.state == NeedsApproval
  {
  }

  lemma FiledRequest(g: Setup, a: Approvals, r: Request, tier: int, env: Env)
    ensures RequestApproval(g.binding, g.ttl, a, env.freshId, r, tier, env.now)
         == Approvals(a.requests[env.freshId := ApprovalRequest(r.cid, r.principal, r.capabilityId, r.deviceId,
              g.binding.hash(g.binding.text(r)), tier, env.now + g.ttl)], a.grants)
  {
  }

  lemma AskExactly(g: Setup, s: Sys, r: Request, d: Decision, env: Env)
    requires d.allowed && d.requiresApproval && r.cid !in s.records
    ensures var (s', reply) := AskApproval(g, s, r, d, env);
      !reply.Waiting? && !reply.Finished? && (Calm(s) ==> Asked(g, s, s', reply, r, d.tier, env))
  {
    hide Log, SignedLog, OpenRecord, RequestApproval;
    FiledExactly(g, s, r, d, env);
    var asked := s.(approvals := RequestApproval(g.binding, g.ttl, s.approvals, env.freshId, r, d.tier, env.now));
    var s1 := OpenRecord(asked, r, d, Direct).0;
    LogFrame(g, s1, KNeedsApproval, r.cid);
    if Calm(s) { CalmLog(g, s1, KNeedsApproval, r.cid); }
  }

  /** The decision reached, the call goes to the adapter or to a human. */
  lemma ProceedExactly(g: Setup, s: Sys, r: Request, d: Decision, def: Definition, env: Env)
    requires r.cid !in s.records
    ensures var (s', reply) := Proceed(g, s, r, d, def, env);
      !reply.Finished?
      && (reply.Waiting? <==>
         (d.allowed && !d.requiresApproval && Routed(g, env, r.capabilityId)
          && (g.mode.Physical? && !def.sideEffect.NoEffect? ==> MayWrite(env, s.audit))))
      && (reply.Waiting? ==> Made(|s.calls|, s', reply, r, d.tier, Direct, def, env))
      && (reply.AwaitsApproval? ==> d.allowed && d.requiresApproval)
      && (Calm(s) && d.allowed && d.requiresApproval ==> Asked(g, s, s', reply, r, d.tier, env))
      && (!d.allowed ==> reply == Rejection(Denied(d.why)) && s' == s)
  {
    hide AskApproval, GateAndDispatch, MayWrite, Routed, Asked;
    if d.allowed && d.requiresApproval { AskExactly(g, s, r, d, env); }
    if d.allowed && !d.requiresApproval { GatedExactly(g, s, r, def, d, Direct, env); }
  }

  /** What lets an evaluated request through to the adapter. */
  predicate LetsThrough(g: Setup, r: Request, v: Verdict, env: Env) {
    v.Decided? && v.decision.allowed && !v.decision.requiresApproval && r.capabilityId in env.rules.registry
    && Routed(g, env, r.capabilityId)
    && (g.mode.Physical? && !env.rules.registry[r.capabilityId].sideEffect.NoEffect?
        ==> env.enabled && !env.rules.killFile && env.routesLoaded)
  }

  predicate ForHuman(v: Verdict) { v.Decided? && v.decision.allowed && v.decision.requiresApproval }

  /** Once evaluated. */
  lemma JudgedExactly(g: Setup, s: Sys, r: Request, v: Verdict, env: Env)
    requires r.cid !in s.records && (v.UnknownCapability? <==> r.capabilityId !in env.rules.registry)
    ensures var (s', reply) := ExecuteJudged(g, s, r, v, env);
      !reply.Finished?
      && (reply.Waiting? ==>
            LetsThrough(g, r, v, env)
            && Made(|s.calls|, s', reply, r, v.decision.tier, Direct, env.rules.registry[r.capabilityId], env))
      && (Calm(s) && LetsThrough(g, r, v, env) && (g.mode.Physical? ==> SignedLog(s.audit)) ==> reply.Waiting?)
      && (reply.AwaitsApproval? ==> ForHuman(v))
      && (Calm(s) && ForHuman(v) ==> Asked(g, s, s', reply, r, v.decision.tier, env))
  {
    hide Log, Proceed, SignedLog, Calm, Made, Asked, Routed;
    if v.Decided? {
      var (s1, ok) := Log(g, s, KPolicyEvaluated, r.cid);
      var def := env.rules.registry[r.capabilityId];
      LogFrame(g, s, KPolicyEvaluated, r.cid);
      if Calm(s) { CalmLog(g, s, KPolicyEvaluated, r.cid); }
      ProceedExactly(g, s1, r, v.decision, def, env);
      RoutedRoutes(g, env, r.capabilityId);
      var (s', reply) := Proceed(g, s1, r, v.decision, def, env);
      if Calm(s) && ForHuman(v) { AskedFrame(g, s, s1, s', reply, r, v.decision.tier, env); }
    }
  }

  lemma RoutedRoutes(g: Setup, env: Env, id: string)
    ensures Routed(g, env, id) ==> env.routes != map[]
  {
    hide Adapters.NamespaceOf;
  }

  lemma AskedFrame(g: Setup, s: Sys, s1: Sys, s': Sys, reply: Reply, r: Request, tier: int, env: Env)
    requires Asked(g, s1, s', reply, r, tier, env) && s1.calls == s.calls && s1.approvals == s.approvals
    ensures Asked(g, s, s', reply, r, tier, env)
  {
  }

  lemma EvaluateShape(rules: Rules, l: RateLimit.Limits, ws: RateLimit.Windows, r: Request, ctx: Option<Risk.Context>, now: real)
    ensures var v := Evaluate(rules, l, ws, r, ctx, now).1;
      (v.UnknownCapability? <==> r.capabilityId !in rules.registry)
      && (v.Decided? && v.decision.allowed <==> Permitted(rules, l, ws, r, ctx, now))
      && (v.Decided? && v.decision.allowed ==> (v.decision.requiresApproval <==> NeedsHuman(rules.registry[r.capabilityId], ctx)))
  {
    AllowedExactly(rules, l, ws, r, ctx, now);
    if Permitted(rules, l, ws, r, ctx, now) { TierExactly(rules, l, ws, r, ctx, now); }
    hide Permitted, NeedsHuman, Screen, RateLimit.Decide, Assess;
  }

  /** `execute`, exactly.  It reaches the adapter only if, and when no audit write fails
      whenever, the correlation id is new, the policy permits the request, no human needs to be
      asked, the gate is open and the capability is routed; and it asks a human only if, and
      when no audit write fails whenever, the policy permits what a human has to approve. */
  lemma ExecuteExactly(g: Setup, s: Sys, r: Request, ctx: Option<Risk.Context>, env: Env)
    ensures var (s', reply) := Execute(g, s, r, ctx, env);
      var tier := TierFor(g, s, r, ctx, env);
      !reply.Finished?
      && (reply.Waiting? ==>
            ActsAtOnce(g, s, r, ctx, env)
            && Made(|s.calls|, s', reply, r, tier, Direct, env.rules.registry[r.capabilityId], env))
      && (Calm(s) && ActsAtOnce(g, s, r, ctx, env) ==> reply.Waiting?)
      && (reply.AwaitsApproval? ==> AsksFirst(g, s, r, ctx, env))
      && (Calm(s) && AsksFirst(g, s, r, ctx, env) ==> Asked(g, s, s', reply, r, tier, env))
  {
    hide Log, Evaluate, ExecuteJudged, Permitted, NeedsHuman, Routed, SignedLog, PhysicalReady, Made, Asked, Calm;
    ReadyExactly(s.audit);
    EvaluateShape(env.rules, g.limits, s.windows, r, ctx, env.now);
    LogFrame(g, s, KRequested, r.cid);
    if Calm(s) { CalmLog(g, s, KRequested, r.cid); }
    var (s1, ok) := Log(g, s, KRequested, r.cid);
    var (ws, v) := Evaluate(env.rules, g.limits, s1.windows, r, ctx, env.now);
    var s2 := s1.(windows := ws);
    CalmSame(s1, s2);
    if r.cid !in s.records {
      JudgedExactly(g, s2, r, v, env);
      var (s', reply) := ExecuteJudged(g, s2, r, v, env);
      if Calm(s) && AsksFirst(g, s, r, ctx, env) { AskedFrame(g, s, s2, s', reply, r, v.decision.tier, env); }
    }
  }

  lemma CalmSame(s: Sys, s': Sys)
    requires s'.audit == s.audit && s'.faults == s.faults
    ensures Calm(s') == Calm(s)
  {
  }

  /** What `execute` answers when it refuses, the first reason in this order; nothing but the
      audit log and the rate windows has changed then. */
  lemma ExecuteRefuses(g: Setup, s: Sys, r: Request, ctx: Option<Risk.Context>, env: Env)
    ensures var (s', reply) := Execute(g, s, r, ctx, env);
      var v := Evaluate(env.rules, g.limits, s.windows, r, ctx, env.now).1;
      (r.cid in s.records ==> (s', reply) == (s, Rejection(DuplicateCid)))
      && (r.cid !in s.records && g.mode.Physical? && !SignedLog(s.audit) ==> (s', reply) == (s, Rejection(AuditUnready)))
      && (Calm(s) && Admissible(g, s, r) && !(v.Decided? && v.decision.allowed) ==>
            reply == (match v case UnknownCapability => Rejection(NotRegistered) case BadTier => Exception(TierError)
                              case Decided(d) => Rejection(Denied(d.why)))
            && s'.records == s.records && s'.approvals == s.approvals && s'.calls == s.calls && s'.parked == s.parked)
  {
    hide Log, Evaluate, SignedLog, PhysicalReady, Calm, ExecuteJudged, Permitted, NeedsHuman;
    ReadyExactly(s.audit);
    EvaluateShape(env.rules, g.limits, s.windows, r, ctx, env.now);
    LogFrame(g, s, KRequested, r.cid);
    if Calm(s) { CalmLog(g, s, KRequested, r.cid); }
    var s1 := Log(g, s, KRequested, r.cid).0;
    var (ws, v) := Evaluate(env.rules, g.limits, s1.windows, r, ctx, env.now);
    CalmSame(s1, s1.(windows := ws));
    if Calm(s) && !(v.Decided? && v.decision.allowed) { JudgedRefuses(g, s1.(windows := ws), r, v, env); }
  }

  lemma JudgedRefuses(g: Setup, s: Sys, r: Request, v: Verdict, env: Env)
    requires Calm(s) && !(v.Decided? && v.decision.allowed) && (v.UnknownCapability? <==> r.capabilityId !in env.rules.registry)
    ensures var (s', reply) := ExecuteJudged(g, s, r, v, env);
      reply == (match v case UnknownCapability => Rejection(NotRegistered) case BadTier => Exception(TierError)
                        case Decided(d) => Rejection(Denied(d.why)))
      && s'.records == s.records && s'.approvals == s.approvals && s'.calls == s.calls && s'.parked == s.parked
  {
    hide Log, SignedLog, Calm, AskApproval, GateAndDispatch;
    LogFrame(g, s, KPolicyEvaluated, r.cid);
    LogFrame(g, s, KCapabilityRejected, r.cid);
    CalmLog(g, s, KPolicyEvaluated, r.cid);
    CalmLog(g, s, KCapabilityRejected, r.cid);
  }

  // ---------------------------------------------------------------- approve

  /** `approve`, exactly: it grants what was asked for and has not expired. */
  lemma ApproveExactly(g: Setup, s: Sys, id: string, approver: string, env: Env)
    ensures var (s', reply) := ApproveGrant(g, s, id, approver, env);
      var open := id in s.approvals.requests && env.now <= s.approvals.requests[id].expires;
      s'.approvals == (if open then s.approvals.(grants := s.approvals.grants[id := Grant(approver, s.approvals.requests[id].cid, false)])
                       else s.approvals)
      && (!open ==> reply.Exception? && reply.error.ApprovalError?)
      && (open ==> reply in {AwaitsApproval(id, s.approvals.requests[id].tier), Exception(AuditQuarantined)})
      && (open && Calm(s) ==> reply.AwaitsApproval?)
  {
    hide Log, SignedLog;
    if CheckGrant(s.approvals, id, env.now).None? {
      var s1 := s.(approvals := GiveGrant(s.approvals, id, approver, env.now));
      LogFrame(g, s1, KApprovalGranted, s.approvals.requests[id].cid);
      if Calm(s) { CalmLog(g, s1, KApprovalGranted, s.approvals.requests[id].cid); }
    }
  }

  // ---------------------------------------------------------------- execute_approved

  /** The grant can be used now, for this request at this tier. */
  predicate Redeemable(g: Setup, a: Approvals, id: string, r: Request, tier: int, now: real) {
    id in a.requests && id in a.grants && !a.grants[id].consumed
    && var ar := a.requests[id];
       now <= ar.expires && ar.cid == r.cid && ar.principal == r.principal && ar.deviceId == r.deviceId
       && ar.capabilityId == r.capabilityId && ar.digest == g.binding.hash(g.binding.text(r)) && ar.tier == tier
  }

  lemma RedeemExactly(g: Setup, a: Approvals, id: string, r: Request, tier: int, now: real)
    ensures CheckConsume(g.binding, a, id, r, tier, now).None? <==> Redeemable(g, a, id, r, tier, now)
    ensures Redeemable(g, a, id, r, tier, now) ==>
      Consume(g.binding, a, id, r, tier, now) == Approvals(a.requests, a.grants[id := a.grants[id].(consumed := true)])
  {
  }

  /** When `execute_approved` reaches the adapter. */
  predicate ActsOnGrant(g: Setup, s: Sys, r: Request, id: string, ctx: Option<Risk.Context>, env: Env) {
    Permitted(env.rules, g.limits, s.windows, r, ctx, env.now)
    && Redeemable(g, s.approvals, id, r, TierFor(g, s, r, ctx, env), env.now)
    && r.cid in s.records && s.records[r.cid].machine.state == NeedsApproval
    && Routed(g, env, r.capabilityId)
    && (g.mode.Physical? && !env.rules.registry[r.capabilityId].sideEffect.NoEffect?
        ==> env.enabled && !env.rules.killFile && env.routesLoaded)
  }

  lemma ApproveDone(rs: Records, cid: string)
    ensures Execution.Approve(rs, cid).Done? <==> cid in rs && rs[cid].machine.state == NeedsApproval
  {
  }

  lemma UsedExactly(g: Setup, s: Sys, r: Request, id: string, d: Decision, def: Definition, env: Env)
    requires d.allowed && r.capabilityId in env.rules.registry && env.rules.registry[r.capabilityId] == def
    ensures var (s', reply) := ApprovedUsed(g, s, r, id, d, def, env);
      var ready := r.cid in s.records && s.records[r.cid].machine.state == NeedsApproval && Routed(g, env, r.capabilityId)
        && (g.mode.Physical? && !def.sideEffect.NoEffect? ==> env.enabled && !env.rules.killFile && env.routesLoaded);
      !reply.Finished? && !reply.AwaitsApproval?
      && (reply.Waiting? ==> ready && Made(|s.calls|, s', reply, r, d.tier, ByApproval(id), def, env))
      && (Calm(s) && ready && (g.mode.Physical? ==> SignedLog(s.audit)) ==> reply.Waiting?)
  {
    ApproveDone(s.records, r.cid);
    hide Log, GateAndDispatch, SignedLog, Calm, Made, Routed, Execution.Approve;
    var s1 := s.(records := Execution.Approve(s.records, r.cid).records);
    CalmSame(s, s1);
    LogFrame(g, s1, KApproved, r.cid);
    if Calm(s1) { CalmLog(g, s1, KApproved, r.cid); }
    RoutedRoutes(g, env, r.capabilityId);
    GatedExactly(g, Log(g, s1, KApproved, r.cid).0, r, def, d, ByApproval(id), env);
  }

  /** `execute_approved`, exactly. */
  lemma ApprovedExactly(g: Setup, s: Sys, r: Request, id: string, ctx: Option<Risk.Context>, env: Env)
    ensures var (s', reply) := ExecuteApproved(g, s, r, id, ctx, env);
      !reply.Finished? && !reply.AwaitsApproval?
      && (reply.Waiting? ==>
            ActsOnGrant(g, s, r, id, ctx, env)
            && Made(|s.calls|, s', reply, r, TierFor(g, s, r, ctx, env), ByApproval(id), env.rules.registry[r.capabilityId], env))
      && (Calm(s) && ActsOnGrant(g, s, r, id, ctx, env) && (g.mode.Physical? ==> SignedLog(s.audit)) ==> reply.Waiting?)
  {
    hide LogThen, Evaluate, ApprovedJudged, SignedLog, Calm, Made, Routed, Permitted, Redeemable;
    EvaluateShape(env.rules, g.limits, s.windows, r, ctx, env.now);
    var (ws, v) := Evaluate(env.rules, g.limits, s.windows, r, ctx, env.now);
    CalmSame(s, s.(windows := ws));
    PermittedKnown(env.rules, g.limits, s.windows, r, ctx, env.now);
    if r.capabilityId in env.rules.registry { ApprovedJudgedExactly(g, s.(windows := ws), r, id, v, env); }
  }

  lemma PermittedKnown(rules: Rules, l: RateLimit.Limits, ws: RateLimit.Windows, r: Request, ctx: Option<Risk.Context>, now: real)
    ensures Permitted(rules, l, ws, r, ctx, now) ==> r.capabilityId in rules.registry
  {
  }

  lemma ApprovedJudgedExactly(g: Setup, s: Sys, r: Request, id: string, v: Verdict, env: Env)
    requires r.capabilityId in env.rules.registry && !v.UnknownCapability?
    ensures var (s', reply) := ApprovedJudged(g, s, r, id, v, env);
      var def := env.rules.registry[r.capabilityId];
      var ready := v.Decided? && v.decision.allowed && Redeemable(g, s.approvals, id, r, v.decision.tier, env.now)
        && r.cid in s.records && s.records[r.cid].machine.state == NeedsApproval && Routed(g, env, r.capabilityId)
        && (g.mode.Physical? && !def.sideEffect.NoEffect? ==> env.enabled && !env.rules.killFile && env.routesLoaded);
      !reply.Finished? && !reply.AwaitsApproval?
      && (reply.Waiting? ==> ready && Made(|s.calls|, s', reply, r, v.decision.tier, ByApproval(id), def, env))
      && (Calm(s) && ready && (g.mode.Physical? ==> SignedLog(s.audit)) ==> reply.Waiting?)
  {
    hide Log, CheckConsume, Consume, ApprovedUsed, Redeemable, SignedLog, Calm, Made, Routed;
    if v.Decided? && v.decision.allowed {
      var tier := v.decision.tier;
      RedeemExactly(g, s.approvals, id, r, tier, env.now);
      if CheckConsume(g.binding, s.approvals, id, r, tier, env.now).None? {
        var used := s.(approvals := Consume(g.binding, s.approvals, id, r, tier, env.now));
        CalmSame(s, used);
        UsedExactly(g, used, r, id, v.decision, env.rules.registry[r.capabilityId], env);
      }
    }
  }

  // ---------------------------------------------------------------- execute_authorized_simulation

  /** When the preauthorized entry reaches the adapter. */
  predicate ActsPreauthorized(g: Setup, s: Sys, r: Request, d: Decision, env: Env) {
    g.mode.Simulation? && r.cid !in s.records && d.allowed && r.capabilityId in env.rules.registry
    && Routed(g, env, r.capabilityId)
  }

  /** `execute_authorized_simulation`, exactly. */
  lemma PreauthorizedExactly(g: Setup, s: Sys, r: Request, d: Decision, env: Env)
    ensures var (s', reply) := ExecutePreauthorized(g, s, r, d, env);
      !reply.Finished? && !reply.AwaitsApproval?
      && (reply.Waiting? ==>
            ActsPreauthorized(g, s, r, d, env)
            && Made(|s.calls|, s', reply, r, d.tier, Preauthorized, env.rules.registry[r.capabilityId], env))
      && (Calm(s) && ActsPreauthorized(g, s, r, d, env) ==> reply.Waiting?)
  {
    hide Log, PreauthorizedOpen, Made, Routed, SignedLog, Calm;
    LogFrame(g, s, KRequested, r.cid);
    if Calm(s) { CalmLog(g, s, KRequested, r.cid); }
    if r.cid !in s.records && d.allowed && r.capabilityId in env.rules.registry {
      PreauthorizedOpens(g, Log(g, s, KRequested, r.cid).0, r, d, env.rules.registry[r.capabilityId], env);
    }
  }

  lemma PreauthorizedOpens(g: Setup, s: Sys, r: Request, d: Decision, def: Definition, env: Env)
    requires r.cid !in s.records && d.allowed
    ensures var (s', reply) := PreauthorizedOpen(g, s, r, d, def, env);
      !reply.Finished? && !reply.AwaitsApproval? && (reply.Waiting? <==> Routed(g, env, r.capabilityId))
      && (reply.Waiting? ==> Made(|s.calls|, s', reply, r, d.tier, Preauthorized, def, env))
  {
    hide Dispatch, Made, Routed, Calm;
    var s1 := OpenRecord(s, r, d, Preauthorized).0;
    DispatchExactly(g, s1, r, def, d, Preauthorized, env);
    DispatchFrame(g, s1, r, def, d, Preauthorized, env);
    var s2 := s1.(records := Execution.Approve(s1.records, r.cid).records);
    DispatchExactly(g, s2, r, def, d, Preauthorized, env);
    DispatchFrame(g, s2, r, def, d, Preauthorized, env);
    hide AtMostOneCall;
  }

  // ---------------------------------------------------------------- after an await

  /** The gateway's reply to an answer that ends the call. */
  predicate Replies(p: Parked, e: Evidence, reply: Reply) {
    match p
    case AwaitObserve(_) => reply == Finished(true, V0)
    case AwaitExecute(_, _) => reply == DispatchFailed && !e.dispatched
    case AwaitVerify(_, def) => reply.Finished? && Worth(e, reply.level) && reply.completed == Enough(e, def.required)
  }

  /** What an adapter's answer does to the call that waits for it, exactly, when no audit write
      fails. */
  lemma ResumeExactly(g: Setup, s: Sys, token: nat, answer: Option<Evidence>)
    requires Safe(g, s) && Calm(s) && token in s.parked
    ensures var (s', reply) := Resume(g, s, token, answer);
      var p := s.parked[token];
      if answer.None? then reply.Exception?
      else if p.AwaitExecute? && answer.value.dispatched
      then reply == Waiting(token) && token in s'.parked && s'.parked[token] == AwaitVerify(p.request, p.definition)
      else Replies(p, answer.value, reply) && Calm(s')
  {
    ParkedFacts(g, s, token);
    hide Core, Log, SignedLog, Worth, Enough, ExecuteReturns, VerifyReturns, Calm;
    var s0 := Unpark(s, token);
    CalmSame(s, s0);
    match s.parked[token] {
      case AwaitObserve(r) => CalmLog(g, s0, KObserved, r.cid);
      case AwaitExecute(r, def) => ExecuteReplies(g, s, token, r, def, answer);
      case AwaitVerify(r, def) => VerifyReplies(g, s, token, r, def, answer);
    }
  }

  lemma ExecuteReplies(g: Setup, s: Sys, token: nat, r: Request, def: Definition, answer: Option<Evidence>)
    requires Safe(g, s) && Calm(s) && token in s.parked && s.parked[token] == AwaitExecute(r, def)
    ensures var (s', reply) := ExecuteReturns(g, s, token, r, def, answer);
      if answer.None? then reply.Exception?
      else if answer.value.dispatched
      then reply == Waiting(token) && token in s'.parked && s'.parked[token] == AwaitVerify(r, def)
      else reply == DispatchFailed && Calm(s')
  {
    ParkedFacts(g, s, token);
    hide Core, Lived, Log, SignedLog, Calm;
    var s0 := Unpark(s, token);
    if answer.Some? {
      var rec := s.records[r.cid];
      var failed := s0.(records := s.records[r.cid := rec.(machine := Machine(Failed, rec.machine.history + [Failed]))]);
      var sent := s0.(records := s.records[r.cid := rec.(result := answer, machine := Machine(Dispatched, rec.machine.history + [Dispatched]))]);
      CalmSame(s, failed);
      CalmSame(s, sent);
      CalmLog(g, failed, KDispatchFailed, r.cid);
      CalmLog(g, sent, KDispatched, r.cid);
    }
  }

  lemma VerifyReplies(g: Setup, s: Sys, token: nat, r: Request, def: Definition, answer: Option<Evidence>)
    requires Safe(g, s) && Calm(s) && token in s.parked && s.parked[token] == AwaitVerify(r, def)
    ensures var (s', reply) := VerifyReturns(g, s, token, r, def, answer);
      if answer.None? then reply.Exception?
      else reply.Finished? && Worth(answer.value, reply.level) && reply.completed == Enough(answer.value, def.required) && Calm(s')
  {
    ParkedFacts(g, s, token);
    hide Core, Lived, Log, SignedLog, Calm, AdvanceThrough, LevelOf, Reached, Enough, Worth;
    var s0 := Unpark(s, token);
    CalmSame(s, s0);
    CalmLog(g, s0, KVerification, r.cid);
    LogFrame(g, s0, KVerification, r.cid);
    if answer.Some? {
      VerifiedOutcome(g, s, token, r, def, answer.value);
      var level := LevelOf(answer.value);
      AdvanceFromDispatched(s.records[r.cid].machine, level);
      var s1 := Log(g, s0, KVerification, r.cid).0;
      var m := AdvanceThrough(s.records[r.cid].machine, StepsFor(level)).0;
      var s2 := s1.(records := s1.records[r.cid := s1.records[r.cid].(machine := m)]);
      CalmSame(s1, s2);
      CalmLog(g, s2, KExecutionState, r.cid);
    }
  }

  // ---------------------------------------------------------------- completion

  /** In every run, whatever is interleaved: a call is finished only by its adapter's answer,
      and a write is completed only if that answer is worth what its capability requires. */
  lemma CompletionIsEarned(g: Setup, audit: Store, actions: seq<Action>, a: Action)
    requires Schedule(g, Start(audit), actions) && Enabled(Play(g, Start(audit), actions), a)
    ensures var s := Play(g, Start(audit), actions);
      var reply := Perform(g, s, a).1;
      reply.Finished? ==> a.DoResume? && Earned(s.parked[a.token], a.answer, reply.completed, reply.level)
  {
    hide Play, Schedule, Core, Execute, ApproveGrant, ExecuteApproved, ExecutePreauthorized, Resume, Earned, Made, ActsAtOnce,
         AsksFirst, ActsOnGrant, ActsPreauthorized, Asked;
    StartSafe(g, audit);
    RunSafe(g, Start(audit), actions);
    var s := Play(g, Start(audit), actions);
    match a {
      case DoExecute(r, ctx, env) => ExecuteExactly(g, Enter(s, env), r, ctx, env);
      case DoApprove(id, approver, env) => ApproveExactly(g, Enter(s, env), id, approver, env);
      case DoExecuteApproved(r, id, ctx, env) => ApprovedExactly(g, Enter(s, env), r, id, ctx, env);
      case DoExecutePreauthorized(r, d, env) => PreauthorizedExactly(g, Enter(s, env), r, d, env);
      case DoResume(token, answer, env) => ResumeEarned(g, Enter(s, env), token, answer);
      case Shared(_, _, _) =>
    }
  }
}
