/**
 The gateway as the object the source has: it owns a coordinator of mutable records and
 shares an approval engine, a policy engine and an audit store.  One method runs one
 uninterrupted stretch of a call, and each is proved to do what the protocol of `Gateway`
 does, so everything proved of the protocol's runs holds of the object.
 */
module CapabilityGateway {
  import opened Prelude
  import opened Json
  import opened Capability
  import opened Policy
  import opened Execution
  import opened Approval
  import opened AuditLog
  import opened Adapters
  import opened Gateway
  import opened GatewaySafety
  import AuditStore
  import Coordinator
  import PolicyEngine
  import Risk

  class CapabilityGateway {
    const mode: Mode
    const policy: PolicyEngine.PolicyEngine
    const approval: ApprovalEngine
    const audit: AuditStore.AuditStore
    const coordinator: Coordinator.ExecutionCoordinator
    const adapters: AdapterRegistry
    /** The suspended calls, as the event loop keeps them, and how many there have been. */
    var parked: map<nat, Parked>
    var awaits: nat
    /** What the outside world has in store for the next audit writes. */
    var faults: seq<Fault>
    var stamp: string
    ghost var calls: seq<AdapterCall>
    ghost var trail: seq<Note>
    ghost var openings: map<string, Opening>

    function Config(): Setup {
      Setup(mode, audit.format, audit.mac, approval.binding, approval.ttl, policy.limiter.limits)
    }

    ghost var Repr: set<object>

    ghost predicate Valid()
      reads this, Repr
    {
      this in Repr && policy.limiter in Repr && approval in Repr && audit in Repr && policy !in Repr && adapters !in Repr
      && coordinator in Repr && coordinator.Repr <= Repr && coordinator.Valid() && awaits == |calls|
      && this !in coordinator.Repr && policy.limiter !in coordinator.Repr && approval !in coordinator.Repr
      && audit !in coordinator.Repr
    }

    ghost function View(): Sys
      requires Valid()
      reads this, Repr
    {
      Sys(coordinator.View(), approval.View(), policy.limiter.events, audit.View(), parked, calls, trail, openings,
          faults, stamp)
    }

    /** What a stretch is told about the outside is what the shared objects hold. */
    ghost predicate Sees(env: Env)
      reads policy, adapters
    {
      env.rules == policy.rules && env.routes == adapters.routes && env.routesLoaded == adapters.loaded
    }

    constructor (mode: Mode, policy: PolicyEngine.PolicyEngine, approval: ApprovalEngine, audit: AuditStore.AuditStore,
                 adapters: AdapterRegistry)
      requires approval.View() == NO_APPROVALS && policy.limiter.events == map[]
      ensures Valid() && View() == Start(audit.View())
      ensures this.mode == mode && this.policy == policy && this.approval == approval && this.audit == audit
        && this.adapters == adapters
    {
      this.mode, this.policy, this.approval, this.audit, this.adapters := mode, policy, approval, audit, adapters;
      var coordinator := new Coordinator.ExecutionCoordinator();
      this.coordinator := coordinator;
      parked, awaits, faults, stamp := map[], 0, [], "";
      calls, trail, openings := [], [], map[];
      Repr := {this, policy.limiter, approval, audit} + coordinator.Repr;
    }

    /** `coordinator.has` */
    function Has(cid: string): (known: bool)
      requires Valid()
      reads this, Repr
      ensures known == (cid in View().records)
    {
      coordinator.ViewKeys();
      cid in coordinator.records
    }

    /** `audit.is_physical_ready` */
    function AuditReady(): (ready: bool)
      requires Valid()
      reads this, Repr
      ensures ready == PhysicalReady(View().audit)
    {
      PhysicalReady(audit.View())
    }

    /** The plain fields as part of the state, and what no stretch may change. */
    lemma Reads()
      requires Valid()
      ensures policy !in Repr && adapters !in Repr
      ensures View().parked == parked && View().faults == faults
    {
    }

    // -------------------------------------------------------------- single effects

    method Enter(env: Env)
      requires Valid()
      modifies Repr
      ensures Valid() && Repr == old(Repr) && View() == Gateway.Enter(old(View()), env)
    {
      hide coordinator.Valid, coordinator.View;
      faults, stamp := env.faults, env.stamp;
    }

    /** `audit.append`; false when it raises. */
    method WriteAudit(kind: string, cid: string, fault: Fault) returns (ok: bool)
      requires Valid()
      modifies Repr
      ensures Valid() && Repr == old(Repr)
      ensures var (store, status) := AuditLog.Append(audit.format, audit.mac, old(View()).audit,
                                                     NewEntry(kind, cid, Null, old(View()).stamp), fault);
        View() == old(View()).(audit := store) && ok == status.Fine?
    {
      hide coordinator.Valid, coordinator.View, AuditLog.Append;
      var status := audit.Append(kind, cid, Null, stamp, fault);
      return status.Fine?;
    }

    /** The write outcome is used up; the entry is noted if the event came into being. */
    method Settle(kind: Kind, cid: string, ghost grew: bool)
      requires Valid()
      modifies Repr
      ensures Valid() && Repr == old(Repr)
      ensures var s := old(View());
        View() == s.(trail := if grew then s.trail + [Note(kind, cid)] else s.trail,
                     faults := if s.faults == [] then [] else s.faults[1..])
    {
      hide coordinator.Valid, coordinator.View;
      if grew { trail := trail + [Note(kind, cid)]; }
      faults := if faults == [] then [] else faults[1..];
    }

    /** `audit.append` by the gateway itself, which is also noted in the trail. */
    method Log(kind: Kind, cid: string) returns (ok: bool)
      requires Valid()
      modifies Repr
      ensures Valid() && Repr == old(Repr) && (View(), ok) == Gateway.Log(Config(), old(View()), kind, cid)
    {
      Reads();
      hide Valid, View, AuditLog.Append;
      ok := WriteAudit(KindText(kind), cid, if faults == [] then NoFault else faults[0]);
      Settle(kind, cid, |View().audit.events| > |old(View()).audit.events|);
    }

    method LogThen(kind: Kind, cid: string, reply: Reply) returns (result: Reply)
      requires Valid()
      modifies Repr
      ensures Valid() && Repr == old(Repr) && (View(), result) == Gateway.LogThen(Config(), old(View()), kind, cid, reply)
    {
      hide Gateway.Log, View, Valid;
      var ok := Log(kind, cid);
      return if ok then reply else Exception(AuditQuarantined);
    }

    /** `policy.evaluate`; the rules are those the policy engine holds. */
    method Judge(r: Request, ctx: Option<Risk.Context>, now: real) returns (v: Verdict)
      requires Valid()
      modifies Repr
      ensures Valid() && Repr == old(Repr)
      ensures var (windows, verdict) := Evaluate(policy.rules, policy.limiter.limits, old(View()).windows, r, ctx, now);
        View() == old(View()).(windows := windows) && v == verdict
    {
      hide coordinator.Valid, coordinator.View, Evaluate;
      v := policy.Evaluate(r, ctx, now);
    }

    method AskFor(id: string, r: Request, tier: int, now: real)
      requires Valid()
      modifies Repr
      ensures Valid() && Repr == old(Repr) && View()
        == old(View()).(approvals := RequestApproval(approval.binding, approval.ttl, old(View()).approvals, id, r, tier, now))
    {
      hide coordinator.Valid, coordinator.View, RequestApproval;
      approval.Request(id, r, tier, now);
    }

    method Grant(id: string, approver: string, now: real) returns (refusal: Option<Refusal>)
      requires Valid()
      modifies Repr
      ensures Valid() && Repr == old(Repr) && refusal == CheckGrant(old(View()).approvals, id, now)
      ensures View() == old(View()).(approvals := GiveGrant(old(View()).approvals, id, approver, now))
    {
      hide coordinator.Valid, coordinator.View, CheckGrant, GiveGrant;
      refusal := approval.Give(id, approver, now);
    }

    method Spend(id: string, r: Request, tier: int, now: real) returns (refusal: Option<Refusal>)
      requires Valid()
      modifies Repr
      ensures Valid() && Repr == old(Repr) && refusal == CheckConsume(approval.binding, old(View()).approvals, id, r, tier, now)
      ensures View() == if refusal.Some? then old(View())
                        else old(View()).(approvals := Consume(approval.binding, old(View()).approvals, id, r, tier, now))
    {
      hide coordinator.Valid, coordinator.View, CheckConsume;
      refusal := approval.Use(id, r, tier, now);
    }

    /** `coordinator.begin` */
    method Begin(r: Request, d: Decision, ghost entry: Entry) returns (failure: Option<Failure>)
      requires Valid()
      modifies Repr
      ensures Valid() && fresh(Repr - old(Repr))
      ensures (View(), failure) == OpenRecord(old(View()), r, d, entry)
    {
      hide coordinator.Valid, coordinator.View;
      failure := coordinator.Begin(r, d);
      Repr := Repr + coordinator.Repr;
      if failure.None? { openings := openings[r.cid := Opening(r, d.tier, d.requiresApproval, entry)]; }
    }

    /** `coordinator.approve` */
    method ApproveRecord(cid: string) returns (failure: Option<Failure>)
      requires Valid()
      modifies Repr
      ensures Valid() && Repr == old(Repr)
      ensures match Execution.Approve(old(View()).records, cid)
        case Raised(records, f) => failure == Some(f) && View() == old(View()).(records := records)
        case Done(records) => failure == None && View() == old(View()).(records := records)
    {
      hide coordinator.Valid, coordinator.View, Execution.Approve;
      failure := coordinator.Approve(cid);
    }

    /** Suspends the call at its await. */
    method Suspend(ghost call: AdapterCall, p: Parked) returns (reply: Reply)
      requires Valid()
      modifies Repr
      ensures Valid() && Repr == old(Repr) && (View(), reply) == Park(old(View()), call, p)
    {
      hide coordinator.Valid, coordinator.View;
      reply := Waiting(awaits);
      parked := parked[awaits := p];
      awaits := awaits + 1;
      calls := calls + [call];
    }

    /** Suspends a call that has been suspended before. */
    method Await(token: nat, p: Parked)
      requires Valid()
      modifies Repr
      ensures Valid() && Repr == old(Repr) && View() == old(View()).(parked := old(View()).parked[token := p])
    {
      hide coordinator.Valid, coordinator.View;
      parked := parked[token := p];
    }

    method Unsuspend(token: nat)
      requires Valid()
      modifies Repr
      ensures Valid() && Repr == old(Repr) && View() == Unpark(old(View()), token)
    {
      hide coordinator.Valid, coordinator.View;
      parked := parked - {token};
    }

    /** `record.machine.advance`, on the record the call holds. */
    method AdvanceRecord(cid: string, next: State) returns (legal: bool)
      requires Valid() && cid in View().records
      modifies Repr
      ensures Valid() && Repr == old(Repr) && cid in old(View()).records
      ensures match Execution.Advance(old(View()).records[cid].machine, next)
        case None => !legal && View() == old(View())
        case Some(m) =>
          legal && View() == old(View()).(records := old(View()).records[cid := old(View()).records[cid].(machine := m)])
    {
      coordinator.ViewKeys();
      hide coordinator.Valid, coordinator.View, Execution.Advance;
      legal := coordinator.AdvanceRecord(cid, next);
    }

    /** `_advance_state` */
    method AdvanceState(cid: string, level: Level) returns (legal: bool)
      requires Valid() && cid in View().records
      modifies Repr
      ensures Valid() && Repr == old(Repr) && cid in old(View()).records
      ensures var (m, ok) := AdvanceThrough(old(View()).records[cid].machine, StepsFor(level));
        legal == ok && View() == old(View()).(records := old(View()).records[cid := old(View()).records[cid].(machine := m)])
    {
      coordinator.ViewKeys();
      hide coordinator.Valid, coordinator.View, AdvanceThrough;
      legal := coordinator.AdvanceRecordTo(cid, level);
    }

    /** `coordinator.mark_dispatched` */
    method MarkDispatched(cid: string, e: Evidence) returns (failure: Option<Failure>)
      requires Valid()
      modifies Repr
      ensures Valid() && Repr == old(Repr)
      ensures match Execution.MarkDispatched(old(View()).records, cid, e)
        case Raised(records, f) => failure == Some(f) && View() == old(View()).(records := records)
        case Done(records) => failure == None && View() == old(View()).(records := records)
    {
      hide coordinator.Valid, coordinator.View, Execution.MarkDispatched;
      failure := coordinator.MarkDispatched(cid, e);
    }

    // -------------------------------------------------------------- dispatch

    /** `WriteGate.check` */
    function GateCheck(env: Env): (closed: Option<Closed>)
      requires Valid() && Sees(env)
      reads this, Repr, policy, adapters
      ensures closed == CheckGate(env, View().audit)
    {
      if !env.enabled then Some(NotEnabled)
      else if policy.rules.killFile then Some(KillActive)
      else if policy.rules.registry == map[] then Some(PolicyNotLoaded)
      else if !AuditReady() then Some(AuditNotReady)
      else if !adapters.loaded || adapters.routes == map[] then Some(AllowlistNotLoaded)
      else None
    }

    /** `_dispatch` up to its await. */
    method Dispatch(r: Request, def: Definition, d: Decision, ghost entry: Entry, ghost env: Env) returns (reply: Reply)
      requires Valid() && Sees(env)
      modifies Repr
      ensures Valid() && fresh(Repr - old(Repr))
      ensures (View(), reply) == Gateway.Dispatch(Config(), old(View()), r, def, d, entry, env)
    {
      Reads();
      hide Valid, View, Gateway.LogThen, OpenRecord, Allows, PhysicalReady;
      var ns := NamespaceOf(r.capabilityId);
      if ns !in adapters.routes {
        reply := LogThen(KAdapterRejected, r.cid, Rejection(NoNamespace));
        return;
      }
      if !Allows(adapters.routes[ns], mode) {
        reply := LogThen(KAdapterRejected, r.cid, Rejection(DomainForbids));
        return;
      }
      ghost var call := AdapterCall(!def.ReadOnly(), r, d.tier, entry, env.routes[ns], env, View().audit);
      if def.ReadOnly() {
        reply := Suspend(call, AwaitObserve(r));
        return;
      }
      if !Has(r.cid) {
        var failure := Begin(r, d, entry);
        if failure.Some? { return Exception(CoordinatorError(failure.value)); }
      }
      reply := Suspend(call, AwaitExecute(r, def));
    }

    /** The write gate, then `_dispatch`. */
    method GateAndDispatch(r: Request, def: Definition, d: Decision, ghost entry: Entry, env: Env) returns (reply: Reply)
      requires Valid() && Sees(env)
      modifies Repr
      ensures Valid() && fresh(Repr - old(Repr))
      ensures (View(), reply) == Gateway.GateAndDispatch(Config(), old(View()), r, def, d, entry, env)
    {
      Reads();
      hide Valid, View, Gateway.LogThen, Gateway.Dispatch, CheckGate;
      if !def.ReadOnly() && mode.Physical? {
        var closed := GateCheck(env);
        if closed.Some? {
          reply := LogThen(KWriteBlocked, r.cid, Rejection(GateClosed(closed.value)));
          return;
        }
      }
      reply := Dispatch(r, def, d, entry, env);
    }

    // -------------------------------------------------------------- the entry points

    /** `execute` */
    method Execute(r: Request, ctx: Option<Risk.Context>, env: Env) returns (reply: Reply)
      requires Valid() && Sees(env)
      modifies Repr
      ensures Valid() && fresh(Repr - old(Repr))
      ensures (View(), reply) == Gateway.Execute(Config(), Gateway.Enter(old(View()), env), r, ctx, env)
      ensures Safe(Config(), old(View())) ==> Safe(Config(), View())
    {
      hide Valid, View, Safe, Gateway.Execute;
      EnterSafe(Config(), View(), env);
      if Safe(Config(), View()) { ExecuteSafe(Config(), Gateway.Enter(View(), env), r, ctx, env); }
      assert policy !in Repr && adapters !in Repr by { Reads(); }
      Enter(env);
      reply := ExecuteEntered(r, ctx, env);
    }

    method ExecuteEntered(r: Request, ctx: Option<Risk.Context>, env: Env) returns (reply: Reply)
      requires Valid() && Sees(env)
      modifies Repr
      ensures Valid() && fresh(Repr - old(Repr))
      ensures (View(), reply) == Gateway.Execute(Config(), old(View()), r, ctx, env)
    {
      hide Valid, View, Gateway.ExecuteRequested, PhysicalReady;
      if Has(r.cid) { return Rejection(DuplicateCid); }
      if mode.Physical? && !AuditReady() { return Rejection(AuditUnready); }
      reply := ExecuteRequested(r, ctx, env);
    }

    method ExecuteRequested(r: Request, ctx: Option<Risk.Context>, env: Env) returns (reply: Reply)
      requires Valid() && Sees(env)
      modifies Repr
      ensures Valid() && fresh(Repr - old(Repr))
      ensures (View(), reply) == Gateway.ExecuteRequested(Config(), old(View()), r, ctx, env)
    {
      assert policy !in Repr && adapters !in Repr;
      hide Valid, View, Gateway.Log, Evaluate, Gateway.ExecuteJudged;
      var ok := Log(KRequested, r.cid);
      if !ok { return Exception(AuditQuarantined); }
      var v := Judge(r, ctx, env.now);
      reply := ExecuteJudged(r, v, env);
    }

    /** The rest of `execute`, once the policy engine has answered. */
    method ExecuteJudged(r: Request, v: Verdict, env: Env) returns (reply: Reply)
      requires Valid() && Sees(env)
      modifies Repr
      ensures Valid() && fresh(Repr - old(Repr))
      ensures (View(), reply) == Gateway.ExecuteJudged(Config(), old(View()), r, v, env)
    {
      assert policy !in Repr && adapters !in Repr;
      hide Valid, View, Gateway.LogThen, Gateway.ExecuteDecided;
      if v.UnknownCapability? || r.capabilityId !in policy.rules.registry {
        reply := LogThen(KCapabilityRejected, r.cid, Rejection(NotRegistered));
        return;
      }
      if v.BadTier? { return Exception(TierError); }
      reply := ExecuteDecided(r, v.decision, policy.rules.registry[r.capabilityId], env);
    }

    method ExecuteDecided(r: Request, d: Decision, def: Definition, env: Env) returns (reply: Reply)
      requires Valid() && Sees(env)
      modifies Repr
      ensures Valid() && fresh(Repr - old(Repr))
      ensures (View(), reply) == Gateway.ExecuteDecided(Config(), old(View()), r, d, def, env)
    {
      assert policy !in Repr && adapters !in Repr;
      hide Valid, View, Gateway.Log, Gateway.Proceed;
      var ok := Log(KPolicyEvaluated, r.cid);
      if !ok { return Exception(AuditQuarantined); }
      reply := Proceed(r, d, def, env);
    }

    method Proceed(r: Request, d: Decision, def: Definition, env: Env) returns (reply: Reply)
      requires Valid() && Sees(env)
      modifies Repr
      ensures Valid() && fresh(Repr - old(Repr))
      ensures (View(), reply) == Gateway.Proceed(Config(), old(View()), r, d, def, env)
    {
      hide Valid, View, Gateway.AskApproval, Gateway.GateAndDispatch;
      if !d.allowed { return Rejection(Denied(d.why)); }
      if d.requiresApproval {
        reply := AskApproval(r, d, env);
      } else {
        reply := GateAndDispatch(r, def, d, Direct, env);
      }
    }

    method AskApproval(r: Request, d: Decision, env: Env) returns (reply: Reply)
      requires Valid()
      modifies Repr
      ensures Valid() && fresh(Repr - old(Repr))
      ensures (View(), reply) == Gateway.AskApproval(Config(), old(View()), r, d, env)
    {
      hide Valid, View, Gateway.LogThen, OpenRecord, RequestApproval;
      AskFor(env.freshId, r, d.tier, env.now);
      var failure := Begin(r, d, Direct);
      if failure.Some? { return Exception(CoordinatorError(failure.value)); }
      reply := LogThen(KNeedsApproval, r.cid, AwaitsApproval(env.freshId, d.tier));
    }

    /** `approve` */
    method Approve(id: string, approver: string, env: Env) returns (reply: Reply)
      requires Valid()
      modifies Repr
      ensures Valid() && Repr == old(Repr)
      ensures (View(), reply) == ApproveGrant(Config(), Gateway.Enter(old(View()), env), id, approver, env)
      ensures Safe(Config(), old(View())) ==> Safe(Config(), View())
    {
      assert View().approvals == approval.View();
      hide Valid, View, Safe, Gateway.LogThen, GiveGrant;
      EnterSafe(Config(), View(), env);
      if Safe(Config(), View()) { ApproveGrantSafe(Config(), Gateway.Enter(View(), env), id, approver, env); }
      Enter(env);
      var requests := approval.requests;
      var refusal := Grant(id, approver, env.now);
      if refusal.Some? { return Exception(ApprovalError(refusal.value)); }
      reply := LogThen(KApprovalGranted, requests[id].cid, AwaitsApproval(id, requests[id].tier));
    }

    /** `execute_approved` */
    method ExecuteApproved(r: Request, id: string, ctx: Option<Risk.Context>, env: Env) returns (reply: Reply)
      requires Valid() && Sees(env)
      modifies Repr
      ensures Valid() && fresh(Repr - old(Repr))
      ensures (View(), reply) == Gateway.ExecuteApproved(Config(), Gateway.Enter(old(View()), env), r, id, ctx, env)
      ensures Safe(Config(), old(View())) ==> Safe(Config(), View())
    {
      assert policy !in Repr && adapters !in Repr;
      hide Valid, View, Safe, Evaluate, Gateway.ApprovedJudged;
      EnterSafe(Config(), View(), env);
      if Safe(Config(), View()) { ExecuteApprovedSafe(Config(), Gateway.Enter(View(), env), r, id, ctx, env); }
      Enter(env);
      if r.capabilityId !in policy.rules.registry { return Exception(UnknownCapabilityError); }
      var v := Judge(r, ctx, env.now);
      reply := ApprovedJudged(r, id, v, env);
    }

    method ApprovedJudged(r: Request, id: string, v: Verdict, env: Env) returns (reply: Reply)
      requires Valid() && Sees(env)
      modifies Repr
      ensures Valid() && fresh(Repr - old(Repr))
      ensures (View(), reply) == Gateway.ApprovedJudged(Config(), old(View()), r, id, v, env)
    {
      assert policy !in Repr && adapters !in Repr;
      hide Valid, View, Gateway.LogThen, Gateway.Redeem;
      if v.UnknownCapability? || r.capabilityId !in policy.rules.registry { return Exception(UnknownCapabilityError); }
      if v.BadTier? { return Exception(TierError); }
      if !v.decision.allowed {
        reply := LogThen(KRejectedAfterApproval, r.cid, Rejection(Denied(v.decision.why)));
        return;
      }
      reply := Redeem(r, id, v.decision, policy.rules.registry[r.capabilityId], env);
    }

    method Redeem(r: Request, id: string, d: Decision, def: Definition, env: Env) returns (reply: Reply)
      requires Valid() && Sees(env)
      modifies Repr
      ensures Valid() && fresh(Repr - old(Repr))
      ensures (View(), reply) == Gateway.Redeem(Config(), old(View()), r, id, d, def, env)
    {
      assert policy !in Repr && adapters !in Repr;
      hide Valid, View, Gateway.LogThen, CheckConsume, Consume, Gateway.ApprovedUsed;
      var refusal := Spend(id, r, d.tier, env.now);
      reply := Redeemed(r, id, d, def, env, refusal);
    }

    method Redeemed(r: Request, ghost id: string, d: Decision, def: Definition, env: Env, refusal: Option<Refusal>) returns (reply: Reply)
      requires Valid() && Sees(env)
      modifies Repr
      ensures Valid() && fresh(Repr - old(Repr))
      ensures (View(), reply) == match refusal
        case Some(why) => Gateway.LogThen(Config(), old(View()), KApprovalRejected, r.cid, Rejection(Refused(why)))
        case None => Gateway.ApprovedUsed(Config(), old(View()), r, id, d, def, env)
    {
      assert policy !in Repr && adapters !in Repr;
      hide Valid, View, Gateway.LogThen, Gateway.ApprovedUsed;
      if refusal.Some? {
        reply := LogThen(KApprovalRejected, r.cid, Rejection(Refused(refusal.value)));
      } else {
        reply := ApprovedUsed(r, id, d, def, env);
      }
    }

    method ApprovedUsed(r: Request, ghost id: string, d: Decision, def: Definition, env: Env) returns (reply: Reply)
      requires Valid() && Sees(env)
      modifies Repr
      ensures Valid() && fresh(Repr - old(Repr))
      ensures (View(), reply) == Gateway.ApprovedUsed(Config(), old(View()), r, id, d, def, env)
    {
      assert policy !in Repr && adapters !in Repr;
      hide Valid, View, Gateway.Log, Gateway.GateAndDispatch, Execution.Approve;
      var failure := ApproveRecord(r.cid);
      if failure.Some? { return Exception(CoordinatorError(failure.value)); }
      var ok := Log(KApproved, r.cid);
      if !ok { return Exception(AuditQuarantined); }
      reply := GateAndDispatch(r, def, d, ByApproval(id), env);
    }

    /** `execute_authorized_simulation` */
    method ExecuteAuthorizedSimulation(r: Request, d: Decision, env: Env) returns (reply: Reply)
      requires Valid() && Sees(env)
      modifies Repr
      ensures Valid() && fresh(Repr - old(Repr))
      ensures (View(), reply) == ExecutePreauthorized(Config(), Gateway.Enter(old(View()), env), r, d, env)
      ensures Safe(Config(), old(View())) ==> Safe(Config(), View())
    {
      hide Valid, View, Safe, ExecutePreauthorized;
      EnterSafe(Config(), View(), env);
      if Safe(Config(), View()) { PreauthorizedSafe(Config(), Gateway.Enter(View(), env), r, d, env); }
      assert policy !in Repr && adapters !in Repr by { Reads(); }
      Enter(env);
      reply := PreauthorizedEntered(r, d, env);
    }

    method PreauthorizedEntered(r: Request, d: Decision, env: Env) returns (reply: Reply)
      requires Valid() && Sees(env)
      modifies Repr
      ensures Valid() && fresh(Repr - old(Repr))
      ensures (View(), reply) == ExecutePreauthorized(Config(), old(View()), r, d, env)
    {
      assert policy !in Repr && adapters !in Repr;
      hide Valid, View, Gateway.Log, Gateway.LogThen, PreauthorizedOpen;
      if mode.Physical? {
        reply := LogThen(KAdapterRejected, r.cid, Rejection(NotSimulation));
        return;
      }
      if Has(r.cid) { return Rejection(DuplicateCid); }
      if !d.allowed {
        reply := LogThen(KPolicyRejected, r.cid, Rejection(Denied(d.why)));
        return;
      }
      if r.capabilityId !in policy.rules.registry {
        reply := LogThen(KCapabilityRejected, r.cid, Rejection(NotRegistered));
        return;
      }
      var ok := Log(KRequested, r.cid);
      if !ok { return Exception(AuditQuarantined); }
      reply := OpenPreauthorized(r, d, policy.rules.registry[r.capabilityId], env);
    }

    method OpenPreauthorized(r: Request, d: Decision, def: Definition, env: Env) returns (reply: Reply)
      requires Valid() && Sees(env)
      modifies Repr
      ensures Valid() && fresh(Repr - old(Repr))
      ensures (View(), reply) == PreauthorizedOpen(Config(), old(View()), r, d, def, env)
    {
      assert policy !in Repr && adapters !in Repr;
      hide Valid, View, OpenRecord, Gateway.Dispatch, Execution.Approve;
      var failure := Begin(r, d, Preauthorized);
      if failure.Some? { return Exception(CoordinatorError(failure.value)); }
      if d.requiresApproval {
        failure := ApproveRecord(r.cid);
        if failure.Some? { return Exception(CoordinatorError(failure.value)); }
      }
      reply := Dispatch(r, def, d, Preauthorized, env);
    }

    // -------------------------------------------------------------- resuming after an await

    /** A suspended call goes on with what its adapter has answered, or with `None` when the
        adapter raised. */
    method Resume(token: nat, answer: Option<Evidence>, env: Env) returns (reply: Reply)
      requires Valid() && Safe(Config(), View()) && token in parked
      modifies Repr
      ensures Valid() && Repr == old(Repr)
      ensures token in Gateway.Enter(old(View()), env).parked
        && (View(), reply) == Gateway.Resume(Config(), Gateway.Enter(old(View()), env), token, answer)
      ensures Safe(Config(), View()) && NoCoordinatorError(reply)
    {
      Reads();
      ResumeSafe(Config(), Gateway.Enter(View(), env), token, answer);
      ParkedFacts(Config(), View(), token);
      Enter(env);
      Reads();
      hide Valid, View, Safe, ExecuteReturns, VerifyReturns, ObserveReturns, NoCoordinatorError;
      match parked[token] {
        case AwaitObserve(r) => reply := AfterObserve(token, r, answer.Some?);
        case AwaitExecute(r, def) => reply := AfterExecute(token, r, def, answer);
        case AwaitVerify(r, def) => reply := AfterVerify(token, r, def, answer);
      }
    }

    method AfterObserve(token: nat, r: Request, answered: bool) returns (reply: Reply)
      requires Valid()
      modifies Repr
      ensures Valid() && Repr == old(Repr)
      ensures (View(), reply) == ObserveReturns(Config(), old(View()), token, r, answered)
    {
      hide Valid, View, Gateway.LogThen;
      Unsuspend(token);
      if !answered { return Exception(AdapterError); }
      reply := LogThen(KObserved, r.cid, Finished(true, V0));
    }

    /** The rest of `_dispatch` after `adapter.execute`. */
    method AfterExecute(token: nat, r: Request, def: Definition, answer: Option<Evidence>) returns (reply: Reply)
      requires Valid() && r.cid in View().records
      modifies Repr
      ensures Valid() && Repr == old(Repr)
      ensures (View(), reply) == ExecuteReturns(Config(), old(View()), token, r, def, answer)
    {
      hide Valid, View, Gateway.Log, Gateway.LogThen, Execution.Advance, Execution.MarkDispatched;
      Unsuspend(token);
      if answer.None? { return Exception(AdapterError); }
      if !answer.value.dispatched {
        var legal := AdvanceRecord(r.cid, Failed);
        if !legal { return Exception(CoordinatorError(Illegal)); }
        reply := LogThen(KDispatchFailed, r.cid, DispatchFailed);
        return;
      }
      var failure := MarkDispatched(r.cid, answer.value);
      if failure.Some? { return Exception(CoordinatorError(failure.value)); }
      var ok := Log(KDispatched, r.cid);
      if !ok { return Exception(AuditQuarantined); }
      Await(token, AwaitVerify(r, def));
      return Waiting(token);
    }

    /** The rest of `_dispatch` after `adapter.verify`. */
    method AfterVerify(token: nat, r: Request, def: Definition, answer: Option<Evidence>) returns (reply: Reply)
      requires Valid() && r.cid in View().records
      modifies Repr
      ensures Valid() && Repr == old(Repr)
      ensures (View(), reply) == VerifyReturns(Config(), old(View()), token, r, def, answer)
    {
      hide Valid, View, Gateway.Log, Gateway.Conclude, LevelOf;
      Unsuspend(token);
      if answer.None? { return Exception(AdapterError); }
      var level := Verify(answer.value);
      LogFrame(Config(), View(), KVerification, r.cid);
      var ok := Log(KVerification, r.cid);
      if !ok { return Exception(AuditQuarantined); }
      reply := Conclude(r, def, level);
    }

    method Conclude(r: Request, def: Definition, level: Level) returns (reply: Reply)
      requires Valid() && r.cid in View().records
      modifies Repr
      ensures Valid() && Repr == old(Repr)
      ensures (View(), reply) == Gateway.Conclude(Config(), old(View()), r, def, level)
    {
      hide Valid, View, Gateway.LogThen, AdvanceThrough;
      var legal := AdvanceState(r.cid, level);
      if !legal { return Exception(CoordinatorError(Illegal)); }
      reply := LogThen(KExecutionState, r.cid, Finished(Reached(level, def.required), level));
    }
  }
}
