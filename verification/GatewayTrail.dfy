/**
 The audit log itself: the events that the gateway adds to it are its entries, one for one
 and in order, so what is known of the entries is known of the log.
 */
module GatewayTrail {
  import opened Prelude
  import opened Json
  import opened AuditChain
  import opened AuditLog
  import opened Capability
  import opened Policy
  import opened Execution
  import opened Approval
  import opened Gateway
  import opened GatewaySafety
  import opened GatewayHistory
  import Adapters
  import RateLimit
  import Risk

  /** The event is an entry of this kind for this correlation id. */
  predicate Says(e: Event, kind: Kind, cid: string) { e.entry.kind == Str(KindText(kind)) && e.entry.cid == Str(cid) }

  /** Event by event the entries of the trail. */
  predicate Mirrors(trail: seq<Note>, events: seq<Event>) {
    |events| == |trail| && forall i | 0 <= i < |trail| :: Says(events[i], trail[i].kind, trail[i].cid)
  }

  /** The store's events are those it began with, then those of the trail. */
  predicate Mirrored(base: seq<Event>, s: Sys) {
    |base| <= |s.audit.events| && s.audit.events[..|base|] == base && Mirrors(s.trail, s.audit.events[|base|..])
  }

  // ---------------------------------------------------------------- every stretch keeps it

  lemma MirrorAppend(base: seq<Event>, s: Sys, s': Sys, e: Event, note: Note)
    requires Mirrored(base, s) && s'.audit.events == s.audit.events + [e] && s'.trail == s.trail + [note]
    requires Says(e, note.kind, note.cid)
    ensures Mirrored(base, s')
  {
    hide Says;
    assert s'.audit.events[|base|..] == s.audit.events[|base|..] + [e];
    assert s'.audit.events[..|base|] == s.audit.events[..|base|];
  }

  /** What does not touch the audit store or the trail. */
  lemma MirrorFrame(base: seq<Event>, s: Sys, s': Sys)
    requires Mirrored(base, s) && s'.audit == s.audit && s'.trail == s.trail
    ensures Mirrored(base, s')
  {
    hide Mirrors;
  }

  lemma LogMirrors(base: seq<Event>, g: Setup, s: Sys, kind: Kind, cid: string)
    requires Mirrored(base, s)
    ensures Mirrored(base, Log(g, s, kind, cid).0)
  {
    hide Append, Mirrored, KindText;
    var fault := if s.faults == [] then NoFault else s.faults[0];
    var entry := NewEntry(KindText(kind), cid, Null, s.stamp);
    AppendEffect(g.format, g.mac, s.audit, entry, fault);
    var s' := Log(g, s, kind, cid).0;
    if s'.audit.events == s.audit.events {
      SameEventsMirror(base, s, s');
    } else {
      MirrorAppend(base, s, s', NextEvent(g.format, s.audit, entry), Note(kind, cid));
    }
  }

  lemma SameEventsMirror(base: seq<Event>, s: Sys, s': Sys)
    requires Mirrored(base, s) && s'.audit.events == s.audit.events && s'.trail == s.trail
    ensures Mirrored(base, s')
  {
    hide Mirrors;
  }

  lemma LogThenMirrors(base: seq<Event>, g: Setup, s: Sys, kind: Kind, cid: string, reply: Reply)
    requires Mirrored(base, s)
    ensures Mirrored(base, LogThen(g, s, kind, cid, reply).0)
  {
    hide Log, Mirrored;
    LogMirrors(base, g, s, kind, cid);
  }

  lemma OpenMirrors(base: seq<Event>, s: Sys, r: Request, d: Decision, entry: Gateway.Entry)
    requires Mirrored(base, s)
    ensures Mirrored(base, OpenRecord(s, r, d, entry).0)
  {
    hide Mirrored, Begin;
    MirrorFrame(base, s, OpenRecord(s, r, d, entry).0);
  }

  lemma DispatchMirrors(base: seq<Event>, g: Setup, s: Sys, r: Request, def: Definition, d: Decision, entry: Gateway.Entry, env: Env)
    requires Mirrored(base, s)
    ensures Mirrored(base, Dispatch(g, s, r, def, d, entry, env).0)
  {
    hide LogThen, OpenRecord, PhysicalReady, Mirrored;
    LogThenMirrors(base, g, s, KAdapterRejected, r.cid, Rejection(NoNamespace));
    LogThenMirrors(base, g, s, KAdapterRejected, r.cid, Rejection(DomainForbids));
    OpenMirrors(base, s, r, d, entry);
    var ns := Adapters.NamespaceOf(r.capabilityId);
    if ns in env.routes && Adapters.Allows(env.routes[ns], g.mode) {
      var s1 := if def.ReadOnly() || r.cid in s.records then s else OpenRecord(s, r, d, entry).0;
      MirrorFrame(base, s1, Dispatch(g, s, r, def, d, entry, env).0);
    }
  }

  lemma GatedMirrors(base: seq<Event>, g: Setup, s: Sys, r: Request, def: Definition, d: Decision, entry: Gateway.Entry, env: Env)
    requires Mirrored(base, s)
    ensures Mirrored(base, GateAndDispatch(g, s, r, def, d, entry, env).0)
  {
    hide LogThen, Dispatch, CheckGate, Mirrored;
    var closed := CheckGate(env, s.audit);
    if closed.Some? { LogThenMirrors(base, g, s, KWriteBlocked, r.cid, Rejection(GateClosed(closed.value))); }
    DispatchMirrors(base, g, s, r, def, d, entry, env);
  }

  lemma ExecuteMirrors(base: seq<Event>, g: Setup, s: Sys, r: Request, ctx: Option<Risk.Context>, env: Env)
    requires Mirrored(base, s)
    ensures Mirrored(base, Execute(g, s, r, ctx, env).0)
  {
    hide Log, Evaluate, ExecuteJudged, PhysicalReady, Mirrored;
    LogMirrors(base, g, s, KRequested, r.cid);
    var s1 := Log(g, s, KRequested, r.cid).0;
    var (ws, v) := Evaluate(env.rules, g.limits, s1.windows, r, ctx, env.now);
    MirrorFrame(base, s1, s1.(windows := ws));
    JudgedMirrors(base, g, s1.(windows := ws), r, v, env);
  }

  lemma JudgedMirrors(base: seq<Event>, g: Setup, s: Sys, r: Request, v: Verdict, env: Env)
    requires Mirrored(base, s)
    ensures Mirrored(base, ExecuteJudged(g, s, r, v, env).0)
  {
    hide Log, LogThen, GateAndDispatch, AskApproval, Mirrored;
    LogThenMirrors(base, g, s, KCapabilityRejected, r.cid, Rejection(NotRegistered));
    LogMirrors(base, g, s, KPolicyEvaluated, r.cid);
    if v.Decided? && r.capabilityId in env.rules.registry {
      var s1 := Log(g, s, KPolicyEvaluated, r.cid).0;
      AskMirrors(base, g, s1, r, v.decision, env);
      GatedMirrors(base, g, s1, r, env.rules.registry[r.capabilityId], v.decision, Direct, env);
    }
  }

  lemma AskMirrors(base: seq<Event>, g: Setup, s: Sys, r: Request, d: Decision, env: Env)
    requires Mirrored(base, s)
    ensures Mirrored(base, AskApproval(g, s, r, d, env).0)
  {
    hide LogThen, OpenRecord, RequestApproval, Mirrored;
    var asked := s.(approvals := RequestApproval(g.binding, g.ttl, s.approvals, env.freshId, r, d.tier, env.now));
    MirrorFrame(base, s, asked);
    OpenMirrors(base, asked, r, d, Direct);
    LogThenMirrors(base, g, OpenRecord(asked, r, d, Direct).0, KNeedsApproval, r.cid, AwaitsApproval(env.freshId, d.tier));
  }

  lemma ApproveMirrors(base: seq<Event>, g: Setup, s: Sys, id: string, approver: string, env: Env)
    requires Mirrored(base, s)
    ensures Mirrored(base, ApproveGrant(g, s, id, approver, env).0)
  {
    hide LogThen, GiveGrant, Mirrored;
    if CheckGrant(s.approvals, id, env.now).None? {
      var s1 := s.(approvals := GiveGrant(s.approvals, id, approver, env.now));
      MirrorFrame(base, s, s1);
      LogThenMirrors(base, g, s1, KApprovalGranted, s.approvals.requests[id].cid,
                     AwaitsApproval(id, s.approvals.requests[id].tier));
    }
  }

  lemma ApprovedMirrors(base: seq<Event>, g: Setup, s: Sys, r: Request, id: string, ctx: Option<Risk.Context>, env: Env)
    requires Mirrored(base, s)
    ensures Mirrored(base, ExecuteApproved(g, s, r, id, ctx, env).0)
  {
    hide Evaluate, ApprovedJudged, Mirrored;
    var (ws, v) := Evaluate(env.rules, g.limits, s.windows, r, ctx, env.now);
    MirrorFrame(base, s, s.(windows := ws));
    ApprovedJudgedMirrors(base, g, s.(windows := ws), r, id, v, env);
  }

  lemma ApprovedJudgedMirrors(base: seq<Event>, g: Setup, s: Sys, r: Request, id: string, v: Verdict, env: Env)
    requires Mirrored(base, s)
    ensures Mirrored(base, ApprovedJudged(g, s, r, id, v, env).0)
  {
    hide LogThen, CheckConsume, Consume, ApprovedUsed, Mirrored;
    if v.Decided? && r.capabilityId in env.rules.registry {
      var tier := v.decision.tier;
      LogThenMirrors(base, g, s, KRejectedAfterApproval, r.cid, Rejection(Denied(v.decision.why)));
      match CheckConsume(g.binding, s.approvals, id, r, tier, env.now) {
        case Some(refusal) => LogThenMirrors(base, g, s, KApprovalRejected, r.cid, Rejection(Refused(refusal)));
        case None =>
          var used := s.(approvals := Consume(g.binding, s.approvals, id, r, tier, env.now));
          MirrorFrame(base, s, used);
          UsedMirrors(base, g, used, r, id, v.decision, env.rules.registry[r.capabilityId], env);
      }
    }
  }

  lemma UsedMirrors(base: seq<Event>, g: Setup, s: Sys, r: Request, id: string, d: Decision, def: Definition, env: Env)
    requires Mirrored(base, s)
    ensures Mirrored(base, ApprovedUsed(g, s, r, id, d, def, env).0)
  {
    hide Log, GateAndDispatch, Execution.Approve, Mirrored;
    var s1 := s.(records := Execution.Approve(s.records, r.cid).records);
    MirrorFrame(base, s, s1);
    LogMirrors(base, g, s1, KApproved, r.cid);
    GatedMirrors(base, g, Log(g, s1, KApproved, r.cid).0, r, def, d, ByApproval(id), env);
  }

  lemma PreauthorizedMirrors(base: seq<Event>, g: Setup, s: Sys, r: Request, d: Decision, env: Env)
    requires Mirrored(base, s)
    ensures Mirrored(base, ExecutePreauthorized(g, s, r, d, env).0)
  {
    hide LogThen, Log, PreauthorizedOpen, Mirrored;
    LogThenMirrors(base, g, s, KAdapterRejected, r.cid, Rejection(NotSimulation));
    LogThenMirrors(base, g, s, KPolicyRejected, r.cid, Rejection(Denied(d.why)));
    LogThenMirrors(base, g, s, KCapabilityRejected, r.cid, Rejection(NotRegistered));
    LogMirrors(base, g, s, KRequested, r.cid);
    if r.capabilityId in env.rules.registry {
      PreauthorizedOpenMirrors(base, g, Log(g, s, KRequested, r.cid).0, r, d, env.rules.registry[r.capabilityId], env);
    }
  }

  lemma PreauthorizedOpenMirrors(base: seq<Event>, g: Setup, s: Sys, r: Request, d: Decision, def: Definition, env: Env)
    requires Mirrored(base, s)
    ensures Mirrored(base, PreauthorizedOpen(g, s, r, d, def, env).0)
  {
    hide Dispatch, OpenRecord, Execution.Approve, Mirrored;
    OpenMirrors(base, s, r, d, Preauthorized);
    var s1 := OpenRecord(s, r, d, Preauthorized).0;
    var s2 := s1.(records := Execution.Approve(s1.records, r.cid).records);
    MirrorFrame(base, s1, s2);
    DispatchMirrors(base, g, s1, r, def, d, Preauthorized, env);
    DispatchMirrors(base, g, s2, r, def, d, Preauthorized, env);
  }

  lemma ResumeMirrors(base: seq<Event>, g: Setup, s: Sys, token: nat, answer: Option<Evidence>)
    requires Mirrored(base, s) && token in s.parked
    ensures Mirrored(base, Resume(g, s, token, answer).0)
  {
    hide LogThen, ExecuteReturns, VerifyReturns, Mirrored;
    MirrorFrame(base, s, Unpark(s, token));
    match s.parked[token] {
      case AwaitObserve(r) => LogThenMirrors(base, g, Unpark(s, token), KObserved, r.cid, Finished(true, V0));
      case AwaitExecute(r, def) => ExecuteReturnsMirrors(base, g, s, token, r, def, answer);
      case AwaitVerify(r, def) => VerifyReturnsMirrors(base, g, s, token, r, def, answer);
    }
  }

  lemma ExecuteReturnsMirrors(base: seq<Event>, g: Setup, s: Sys, token: nat, r: Request, def: Definition, answer: Option<Evidence>)
    requires Mirrored(base, s)
    ensures Mirrored(base, ExecuteReturns(g, s, token, r, def, answer).0)
  {
    hide Log, LogThen, Execution.MarkDispatched, Execution.Advance, Mirrored;
    var s0 := Unpark(s, token);
    MirrorFrame(base, s, s0);
    if answer.Some? && r.cid in s.records {
      var advanced := Execution.Advance(s.records[r.cid].machine, Failed);
      if advanced.Some? {
        var s1 := s0.(records := s.records[r.cid := s.records[r.cid].(machine := advanced.value)]);
        MirrorFrame(base, s, s1);
        LogThenMirrors(base, g, s1, KDispatchFailed, r.cid, DispatchFailed);
      }
      var s2 := s0.(records := Execution.MarkDispatched(s.records, r.cid, answer.value).records);
      MirrorFrame(base, s, s2);
      LogMirrors(base, g, s2, KDispatched, r.cid);
      var s3 := Log(g, s2, KDispatched, r.cid).0;
      MirrorFrame(base, s3, s3.(parked := s3.parked[token := AwaitVerify(r, def)]));
    }
  }

  lemma VerifyReturnsMirrors(base: seq<Event>, g: Setup, s: Sys, token: nat, r: Request, def: Definition, answer: Option<Evidence>)
    requires Mirrored(base, s)
    ensures Mirrored(base, VerifyReturns(g, s, token, r, def, answer).0)
  {
    hide Log, LogThen, AdvanceThrough, LevelOf, Mirrored;
    var s0 := Unpark(s, token);
    MirrorFrame(base, s, s0);
    LogMirrors(base, g, s0, KVerification, r.cid);
    var s1 := Log(g, s0, KVerification, r.cid).0;
    if answer.Some? && r.cid in s1.records {
      var level := LevelOf(answer.value);
      var m := AdvanceThrough(s1.records[r.cid].machine, StepsFor(level)).0;
      var s2 := s1.(records := s1.records[r.cid := s1.records[r.cid].(machine := m)]);
      MirrorFrame(base, s1, s2);
      LogThenMirrors(base, g, s2, KExecutionState, r.cid, Finished(Reached(level, def.required), level));
    }
  }

  lemma StepMirrors(base: seq<Event>, g: Setup, s: Sys, a: Action)
    requires Mirrored(base, s) && Enabled(s, a) && !a.Shared?
    ensures Mirrored(base, Perform(g, s, a).0)
  {
    hide Execute, ApproveGrant, ExecuteApproved, ExecutePreauthorized, Resume, Mirrored;
    var s' := Enter(s, a.env);
    MirrorFrame(base, s, s');
    match a {
      case DoExecute(r, ctx, env) => ExecuteMirrors(base, g, s', r, ctx, env);
      case DoApprove(id, approver, env) => ApproveMirrors(base, g, s', id, approver, env);
      case DoExecuteApproved(r, id, ctx, env) => ApprovedMirrors(base, g, s', r, id, ctx, env);
      case DoExecutePreauthorized(r, d, env) => PreauthorizedMirrors(base, g, s', r, d, env);
      case DoResume(token, answer, env) => ResumeMirrors(base, g, s', token, answer);
    }
  }

  lemma {:induction false} RunMirrors(base: seq<Event>, g: Setup, s: Sys, actions: seq<Action>)
    requires Mirrored(base, s) && Schedule(g, s, actions) && forall i | 0 <= i < |actions| :: !actions[i].Shared?
    ensures Mirrored(base, Play(g, s, actions))
    decreases |actions|
  {
    hide Mirrored, Perform, Enabled;
    if actions != [] {
      StepMirrors(base, g, s, actions[0]);
      RunMirrors(base, g, Perform(g, s, actions[0]).0, actions[1..]);
    }
  }

  // ---------------------------------------------------------------- main results

  /** In every run that only the gateway's own entry points drive, the audit log is what it was
      at the start followed by exactly one event per entry of the trail, with its type and
      correlation id, whatever audit writes fail. */
  lemma LogIsTrail(g: Setup, audit: Store, actions: seq<Action>)
    requires Schedule(g, Start(audit), actions) && forall k | 0 <= k < |actions| :: !actions[k].Shared?
    ensures Mirrored(audit.events, Play(g, Start(audit), actions))
  {
    StartMirrored(audit);
    hide Play, Schedule, Mirrored;
    RunMirrors(audit.events, g, Start(audit), actions);
  }

  lemma StartMirrored(audit: Store)
    ensures Mirrored(audit.events, Start(audit))
  {
  }

  /** Events of these kinds for `cid` occur in this order. */
  predicate Recorded(events: seq<Event>, cid: string, kinds: seq<Kind>)
    decreases |kinds|
  {
    kinds == [] || exists i | 0 <= i < |events| ::
      Says(events[i], kinds[|kinds| - 1], cid) && Recorded(events[..i], cid, kinds[..|kinds| - 1])
  }

  lemma {:induction false} RecordedInOrder(trail: seq<Note>, events: seq<Event>, cid: string, kinds: seq<Kind>)
    requires Mirrors(trail, events) && InOrder(trail, cid, kinds)
    ensures Recorded(events, cid, kinds)
    decreases |kinds|
  {
    hide Says;
    if kinds != [] {
      var i :| 0 <= i < |trail| && trail[i] == Note(kinds[|kinds| - 1], cid) && InOrder(trail[..i], cid, kinds[..|kinds| - 1]);
      RecordedInOrder(trail[..i], events[..i], cid, kinds[..|kinds| - 1]);
      assert Says(events[i], kinds[|kinds| - 1], cid);
    }
  }

  lemma OnlyDispatched(k: Kind)
    ensures KindText(k) == KindText(KDispatched) ==> k == KDispatched
  {
  }

  /** What the gateway has added to the audit log. */
  function Added(audit: Store, s: Sys): seq<Event> {
    if |audit.events| <= |s.audit.events| then s.audit.events[|audit.events|..] else []
  }

  /** Among the events the gateway has added to the audit log there is at most one `dispatched`
      per correlation id, and before it, in order, are the events that lead up to it: the
      request, and for an approval flow also needs_approval, approval_granted and approved.
      No assumption is made on audit writes succeeding. */
  lemma DispatchIsToldInOrder(g: Setup, audit: Store, actions: seq<Action>, i: nat, cid: string)
    requires Schedule(g, Start(audit), actions) && forall k | 0 <= k < |actions| :: !actions[k].Shared?
    requires var added := Added(audit, Play(g, Start(audit), actions)); i < |added| && Says(added[i], KDispatched, cid)
    ensures var s := Play(g, Start(audit), actions);
      var added := Added(audit, s);
      s.audit.events == audit.events + added
      && cid in s.openings
      && Recorded(added[..i], cid, if IsApprovalFlow(s.openings[cid])
           then [KRequested, KNeedsApproval, KApprovalGranted, KApproved] else [KRequested])
      && forall j | 0 <= j < |added| && j != i :: !Says(added[j], KDispatched, cid)
  {
    LogIsTrail(g, audit, actions);
    hide Play, Schedule, KindText, IsApprovalFlow, InOrder, Recorded;
    var s := Play(g, Start(audit), actions);
    var added := Added(audit, s);
    OnlyDispatched(s.trail[i].kind);
    DispatchedEntries(g, audit, actions, i);
    RecordedInOrder(s.trail[..i], added[..i], cid, if IsApprovalFlow(s.openings[cid])
      then [KRequested, KNeedsApproval, KApprovalGranted, KApproved] else [KRequested]);
    forall j | 0 <= j < |added| && j != i ensures !Says(added[j], KDispatched, cid) { OnlyDispatched(s.trail[j].kind); }
  }

  // ---------------------------------------------------------------- what each stretch writes

  /** Exactly these events were added, in this order, all for this correlation id. */
  predicate Wrote(st: Store, st': Store, kinds: seq<string>, cid: string) {
    |st'.events| == |st.events| + |kinds| && st'.events[..|st.events|] == st.events
    && forall i | 0 <= i < |kinds| ::
         st'.events[|st.events| + i].entry.kind == Str(kinds[i]) && st'.events[|st.events| + i].entry.cid == Str(cid)
  }

  lemma WroteOn(a: Store, b: Store, c: Store, xs: seq<string>, ys: seq<string>, cid: string)
    requires Wrote(a, b, xs, cid) && Wrote(b, c, ys, cid)
    ensures Wrote(a, c, xs + ys, cid)
  {
    assert c.events[..|a.events|] == c.events[..|b.events|][..|a.events|];
    forall i | 0 <= i < |xs + ys|
      ensures c.events[|a.events| + i].entry.kind == Str((xs + ys)[i]) && c.events[|a.events| + i].entry.cid == Str(cid)
    {
      if i < |xs| { assert c.events[|a.events| + i] == c.events[..|b.events|][|a.events| + i]; }
    }
  }

  lemma WroteNothing(a: Store, b: Store, cid: string)
    requires b.events == a.events
    ensures Wrote(a, b, [], cid)
  {
  }

  /** An audit write succeeds exactly if the store is healthy afterwards. */
  lemma LogWrites(g: Setup, s: Sys, kind: Kind, cid: string)
    ensures var (s', ok) := Log(g, s, kind, cid);
      (ok <==> s'.audit.healthy) && (ok ==> Wrote(s.audit, s'.audit, [KindText(kind)], cid))
  {
    hide Append, NextEvent, KindText;
    var fault := if s.faults == [] then NoFault else s.faults[0];
    AppendEffect(g.format, g.mac, s.audit, NewEntry(KindText(kind), cid, Null, s.stamp), fault);
    EntryKept(g.format, s.audit, NewEntry(KindText(kind), cid, Null, s.stamp));
  }

  lemma EntryKept(f: Format, st: Store, entry: AuditChain.Entry)
    ensures NextEvent(f, st, entry).entry == entry
  {
  }

  /** Each audit write of a stretch meets the next of its outcomes, and fails exactly when that
      outcome hits it or the store was in quarantine. */
  lemma LogExactly(g: Setup, s: Sys, kind: Kind, cid: string)
    ensures var (s', ok) := Log(g, s, kind, cid);
      var fault := if s.faults == [] then NoFault else s.faults[0];
      (ok <==> s.audit.healthy && !(s.audit.cfg.persistent && fault.FlushFails?)
               && !(IsDue(s.audit) && s.audit.cfg.ckptPath && fault.CkptFails?))
      && s'.faults == (if |s.faults| <= 1 then [] else s.faults[1..])
  {
    hide Append, IsDue;
    var fault := if s.faults == [] then NoFault else s.faults[0];
    AppendExactly(g.format, g.mac, s.audit, NewEntry(KindText(kind), cid, Null, s.stamp), fault);
  }

  lemma LogThenWrites(g: Setup, s: Sys, kind: Kind, cid: string, reply: Reply)
    ensures var (s', reply') := LogThen(g, s, kind, cid, reply);
      reply' == (if s'.audit.healthy then reply else Exception(AuditQuarantined))
      && (s'.audit.healthy ==> Wrote(s.audit, s'.audit, [KindText(kind)], cid))
  {
    hide Log, Wrote, KindText;
    LogWrites(g, s, kind, cid);
  }

  /** What the routing part writes, by its answer. */
  function Routing(reply: Reply): seq<string> {
    if reply.Waiting? then []
    else if reply.Rejection? && reply.why.GateClosed? then ["write_blocked"] else ["adapter_rejected"]
  }

  lemma DispatchWrites(g: Setup, s: Sys, r: Request, def: Definition, d: Decision, entry: Gateway.Entry, env: Env)
    requires s.audit.healthy
    ensures var (s', reply) := Dispatch(g, s, r, def, d, entry, env);
      !reply.Exception? ==> s'.audit.healthy && Wrote(s.audit, s'.audit, Routing(reply), r.cid)
  {
    hide LogThen, OpenRecord, Wrote, Adapters.NamespaceOf, Adapters.Allows;
    LogThenWrites(g, s, KAdapterRejected, r.cid, Rejection(NoNamespace));
    LogThenWrites(g, s, KAdapterRejected, r.cid, Rejection(DomainForbids));
    OpenKeepsAudit(s, r, d, entry);
    WroteNothing(s.audit, s.audit, r.cid);
  }

  lemma OpenKeepsAudit(s: Sys, r: Request, d: Decision, entry: Gateway.Entry)
    ensures OpenRecord(s, r, d, entry).0.audit == s.audit
  {
    hide Begin;
  }

  lemma GatedWrites(g: Setup, s: Sys, r: Request, def: Definition, d: Decision, entry: Gateway.Entry, env: Env)
    requires s.audit.healthy
    ensures var (s', reply) := GateAndDispatch(g, s, r, def, d, entry, env);
      !reply.Exception? ==> s'.audit.healthy && Wrote(s.audit, s'.audit, Routing(reply), r.cid)
  {
    hide LogThen, Dispatch, CheckGate, Wrote;
    var closed := CheckGate(env, s.audit);
    if closed.Some? { LogThenWrites(g, s, KWriteBlocked, r.cid, Rejection(GateClosed(closed.value))); }
    DispatchWrites(g, s, r, def, d, entry, env);
  }

  /** What `execute` writes, by its answer: after the request, after its evaluation. */
  function Executing(reply: Reply): seq<string> { ["capability_requested"] + Judging(reply) }

  function Judging(reply: Reply): seq<string> {
    if reply == Rejection(NotRegistered) then ["capability_rejected"] else ["policy_evaluated"] + Proceeding(reply)
  }

  function Proceeding(reply: Reply): seq<string> {
    if reply.AwaitsApproval? then ["needs_approval"]
    else if reply.Rejection? && reply.why.Denied? then [] else Routing(reply)
  }

  /** `execute` answers only after every one of its audit writes has succeeded; what it wrote
      is exactly this. */
  lemma ExecuteWrites(g: Setup, s: Sys, r: Request, ctx: Option<Risk.Context>, env: Env)
    ensures var (s', reply) := Execute(g, s, r, ctx, env);
      !reply.Exception? ==>
        if reply == Rejection(DuplicateCid) || reply == Rejection(AuditUnready) then s' == s
        else s'.audit.healthy && Wrote(s.audit, s'.audit, Executing(reply), r.cid)
  {
    hide Log, Evaluate, ExecuteJudged, PhysicalReady, Wrote, Judging;
    LogWrites(g, s, KRequested, r.cid);
    var (s1, ok) := Log(g, s, KRequested, r.cid);
    if ok {
      var (ws, v) := Evaluate(env.rules, g.limits, s1.windows, r, ctx, env.now);
      JudgedWrites(g, s1.(windows := ws), r, v, env);
      var (s', reply) := ExecuteJudged(g, s1.(windows := ws), r, v, env);
      if !reply.Exception? { WroteOn(s.audit, s1.audit, s'.audit, ["capability_requested"], Judging(reply), r.cid); }
    }
  }

  lemma JudgedWrites(g: Setup, s: Sys, r: Request, v: Verdict, env: Env)
    requires s.audit.healthy
    ensures var (s', reply) := ExecuteJudged(g, s, r, v, env);
      !reply.Exception? ==>
        s'.audit.healthy && Wrote(s.audit, s'.audit, Judging(reply), r.cid)
        && reply != Rejection(DuplicateCid) && reply != Rejection(AuditUnready)
  {
    hide Log, LogThen, Proceed, Wrote, Proceeding;
    LogThenWrites(g, s, KCapabilityRejected, r.cid, Rejection(NotRegistered));
    LogWrites(g, s, KPolicyEvaluated, r.cid);
    var (s1, ok) := Log(g, s, KPolicyEvaluated, r.cid);
    if v.Decided? && ok && r.capabilityId in env.rules.registry {
      var def := env.rules.registry[r.capabilityId];
      ProceedWrites(g, s1, r, v.decision, def, env);
      var (s', reply) := Proceed(g, s1, r, v.decision, def, env);
      if !reply.Exception? { WroteOn(s.audit, s1.audit, s'.audit, ["policy_evaluated"], Proceeding(reply), r.cid); }
    }
  }

  lemma ProceedWrites(g: Setup, s: Sys, r: Request, d: Decision, def: Definition, env: Env)
    requires s.audit.healthy
    ensures var (s', reply) := Proceed(g, s, r, d, def, env);
      !reply.Exception? ==>
        s'.audit.healthy && Wrote(s.audit, s'.audit, Proceeding(reply), r.cid)
        && (reply.Waiting? || reply.AwaitsApproval?
            || (reply.Rejection? && (reply.why.Denied? || reply.why.GateClosed? || reply.why.NoNamespace? || reply.why.DomainForbids?)))
  {
    hide GateAndDispatch, AskApproval, Wrote;
    WroteNothing(s.audit, s.audit, r.cid);
    AskWrites(g, s, r, d, env);
    GatedWrites(g, s, r, def, d, Direct, env);
    GatedReply(g, s, r, def, d, Direct, env);
  }

  lemma GatedReply(g: Setup, s: Sys, r: Request, def: Definition, d: Decision, entry: Gateway.Entry, env: Env)
    ensures var reply := GateAndDispatch(g, s, r, def, d, entry, env).1;
      reply.Waiting? || reply.Exception?
      || (reply.Rejection? && (reply.why.GateClosed? || reply.why.NoNamespace? || reply.why.DomainForbids?))
  {
    hide Log, OpenRecord, CheckGate;
  }

  lemma AskWrites(g: Setup, s: Sys, r: Request, d: Decision, env: Env)
    requires s.audit.healthy
    ensures var (s', reply) := AskApproval(g, s, r, d, env);
      !reply.Exception? ==> reply.AwaitsApproval? && s'.audit.healthy && Wrote(s.audit, s'.audit, ["needs_approval"], r.cid)
  {
    hide LogThen, OpenRecord, RequestApproval, Wrote;
    var asked := s.(approvals := RequestApproval(g.binding, g.ttl, s.approvals, env.freshId, r, d.tier, env.now));
    OpenKeepsAudit(asked, r, d, Direct);
    LogThenWrites(g, OpenRecord(asked, r, d, Direct).0, KNeedsApproval, r.cid, AwaitsApproval(env.freshId, d.tier));
  }

  /** What `approve` writes: the grant, under the correlation id of the request. */
  lemma ApproveWrites(g: Setup, s: Sys, id: string, approver: string, env: Env)
    ensures var (s', reply) := ApproveGrant(g, s, id, approver, env);
      !reply.Exception? ==>
        id in s.approvals.requests && s'.audit.healthy
        && Wrote(s.audit, s'.audit, ["approval_granted"], s.approvals.requests[id].cid)
  {
    hide LogThen, Wrote, GiveGrant;
    if CheckGrant(s.approvals, id, env.now).None? {
      LogThenWrites(g, s.(approvals := GiveGrant(s.approvals, id, approver, env.now)), KApprovalGranted,
                    s.approvals.requests[id].cid, AwaitsApproval(id, s.approvals.requests[id].tier));
    }
  }

  /** What `execute_approved` writes, by its answer. */
  function Redeeming(reply: Reply): seq<string> {
    match reply
    case Rejection(Denied(_)) => ["policy_rejected_after_approval"]
    case Rejection(Refused(_)) => ["approval_rejected"]
    case _ => ["approved"] + Routing(reply)
  }

  lemma ApprovedWrites(g: Setup, s: Sys, r: Request, id: string, ctx: Option<Risk.Context>, env: Env)
    ensures var (s', reply) := ExecuteApproved(g, s, r, id, ctx, env);
      !reply.Exception? ==> s'.audit.healthy && Wrote(s.audit, s'.audit, Redeeming(reply), r.cid)
  {
    hide LogThen, Evaluate, CheckConsume, Consume, ApprovedUsed, Wrote;
    var (ws, v) := Evaluate(env.rules, g.limits, s.windows, r, ctx, env.now);
    var s1 := s.(windows := ws);
    if v.Decided? && r.capabilityId in env.rules.registry {
      var tier := v.decision.tier;
      LogThenWrites(g, s1, KRejectedAfterApproval, r.cid, Rejection(Denied(v.decision.why)));
      match CheckConsume(g.binding, s1.approvals, id, r, tier, env.now) {
        case Some(refusal) => LogThenWrites(g, s1, KApprovalRejected, r.cid, Rejection(Refused(refusal)));
        case None =>
          var used := s1.(approvals := Consume(g.binding, s1.approvals, id, r, tier, env.now));
          UsedWrites(g, used, r, id, v.decision, env.rules.registry[r.capabilityId], env);
      }
    }
  }

  lemma UsedWrites(g: Setup, s: Sys, r: Request, id: string, d: Decision, def: Definition, env: Env)
    ensures var (s', reply) := ApprovedUsed(g, s, r, id, d, def, env);
      !reply.Exception? ==>
        s'.audit.healthy && Wrote(s.audit, s'.audit, ["approved"] + Routing(reply), r.cid)
        && !(reply.Rejection? && (reply.why.Denied? || reply.why.Refused?))
  {
    hide Log, GateAndDispatch, Execution.Approve, Wrote;
    var s1 := s.(records := Execution.Approve(s.records, r.cid).records);
    LogWrites(g, s1, KApproved, r.cid);
    var (s2, ok) := Log(g, s1, KApproved, r.cid);
    if ok {
      GatedWrites(g, s2, r, def, d, ByApproval(id), env);
      GatedReply(g, s2, r, def, d, ByApproval(id), env);
      var (s', reply) := GateAndDispatch(g, s2, r, def, d, ByApproval(id), env);
      if !reply.Exception? { WroteOn(s.audit, s2.audit, s'.audit, ["approved"], Routing(reply), r.cid); }
    }
  }

  /** What `execute_authorized_simulation` writes, by its answer. */
  function Preauthorizing(reply: Reply): seq<string> {
    match reply
    case Rejection(NotSimulation) => ["adapter_rejected"]
    case Rejection(DuplicateCid) => []
    case Rejection(Denied(_)) => ["policy_rejected"]
    case Rejection(NotRegistered) => ["capability_rejected"]
    case _ => ["capability_requested"] + Routing(reply)
  }

  lemma PreauthorizedWrites(g: Setup, s: Sys, r: Request, d: Decision, env: Env)
    ensures var (s', reply) := ExecutePreauthorized(g, s, r, d, env);
      !reply.Exception? ==>
        (reply == Rejection(DuplicateCid) || s'.audit.healthy) && Wrote(s.audit, s'.audit, Preauthorizing(reply), r.cid)
  {
    hide LogThen, Log, PreauthorizedOpen, Wrote;
    WroteNothing(s.audit, s.audit, r.cid);
    LogThenWrites(g, s, KAdapterRejected, r.cid, Rejection(NotSimulation));
    LogThenWrites(g, s, KPolicyRejected, r.cid, Rejection(Denied(d.why)));
    LogThenWrites(g, s, KCapabilityRejected, r.cid, Rejection(NotRegistered));
    LogWrites(g, s, KRequested, r.cid);
    var (s1, ok) := Log(g, s, KRequested, r.cid);
    if ok && r.capabilityId in env.rules.registry {
      var def := env.rules.registry[r.capabilityId];
      PreauthorizedOpenWrites(g, s1, r, d, def, env);
      var (s', reply) := PreauthorizedOpen(g, s1, r, d, def, env);
      if !reply.Exception? { WroteOn(s.audit, s1.audit, s'.audit, ["capability_requested"], Routing(reply), r.cid); }
    }
  }

  lemma PreauthorizedOpenWrites(g: Setup, s: Sys, r: Request, d: Decision, def: Definition, env: Env)
    requires s.audit.healthy
    ensures var (s', reply) := PreauthorizedOpen(g, s, r, d, def, env);
      !reply.Exception? ==>
        s'.audit.healthy && Wrote(s.audit, s'.audit, Routing(reply), r.cid)
        && (reply.Waiting? || (reply.Rejection? && (reply.why.NoNamespace? || reply.why.DomainForbids?)))
  {
    hide Dispatch, OpenRecord, Execution.Approve, Wrote;
    OpenKeepsAudit(s, r, d, Preauthorized);
    var s1 := OpenRecord(s, r, d, Preauthorized).0;
    var s2 := s1.(records := Execution.Approve(s1.records, r.cid).records);
    DispatchWrites(g, s1, r, def, d, Preauthorized, env);
    DispatchWrites(g, s2, r, def, d, Preauthorized, env);
    DispatchReply(g, s1, r, def, d, Preauthorized, env);
    DispatchReply(g, s2, r, def, d, Preauthorized, env);
  }

  lemma DispatchReply(g: Setup, s: Sys, r: Request, def: Definition, d: Decision, entry: Gateway.Entry, env: Env)
    ensures var reply := Dispatch(g, s, r, def, d, entry, env).1;
      reply.Waiting? || reply.Exception? || (reply.Rejection? && (reply.why.NoNamespace? || reply.why.DomainForbids?))
  {
    hide Log, OpenRecord;
  }

  /** What a call writes after an await, by where it waited and its answer. */
  function Resuming(p: Parked, reply: Reply): seq<string> {
    match p
    case AwaitObserve(_) => ["observed"]
    case AwaitExecute(_, _) => if reply.Waiting? then ["dispatched"] else ["dispatch_failed"]
    case AwaitVerify(_, _) => ["verification", "execution_state"]
  }

  lemma ResumeWrites(g: Setup, s: Sys, token: nat, answer: Option<Evidence>)
    requires token in s.parked
    ensures var (s', reply) := Resume(g, s, token, answer);
      !reply.Exception? ==>
        s'.audit.healthy && Wrote(s.audit, s'.audit, Resuming(s.parked[token], reply), s.parked[token].request.cid)
  {
    hide LogThen, ExecuteReturns, VerifyReturns, Wrote;
    match s.parked[token] {
      case AwaitObserve(r) => LogThenWrites(g, Unpark(s, token), KObserved, r.cid, Finished(true, V0));
      case AwaitExecute(r, def) => ExecuteReturnsWrites(g, s, token, r, def, answer);
      case AwaitVerify(r, def) => VerifyReturnsWrites(g, s, token, r, def, answer);
    }
  }

  lemma ExecuteReturnsWrites(g: Setup, s: Sys, token: nat, r: Request, def: Definition, answer: Option<Evidence>)
    ensures var (s', reply) := ExecuteReturns(g, s, token, r, def, answer);
      !reply.Exception? ==>
        s'.audit.healthy && Wrote(s.audit, s'.audit, if reply.Waiting? then ["dispatched"] else ["dispatch_failed"], r.cid)
  {
    hide Log, LogThen, Execution.MarkDispatched, Execution.Advance, Wrote;
    var s0 := Unpark(s, token);
    if answer.Some? && r.cid in s.records {
      var advanced := Execution.Advance(s.records[r.cid].machine, Failed);
      if advanced.Some? {
        LogThenWrites(g, s0.(records := s.records[r.cid := s.records[r.cid].(machine := advanced.value)]), KDispatchFailed, r.cid,
                      DispatchFailed);
      }
      LogWrites(g, s0.(records := Execution.MarkDispatched(s.records, r.cid, answer.value).records), KDispatched, r.cid);
    }
  }

  lemma VerifyReturnsWrites(g: Setup, s: Sys, token: nat, r: Request, def: Definition, answer: Option<Evidence>)
    ensures var (s', reply) := VerifyReturns(g, s, token, r, def, answer);
      !reply.Exception? ==> s'.audit.healthy && Wrote(s.audit, s'.audit, ["verification", "execution_state"], r.cid)
  {
    hide Log, LogThen, AdvanceThrough, LevelOf, Wrote;
    var s0 := Unpark(s, token);
    LogWrites(g, s0, KVerification, r.cid);
    var (s1, ok) := Log(g, s0, KVerification, r.cid);
    if answer.Some? && ok && r.cid in s1.records {
      var level := LevelOf(answer.value);
      var m := AdvanceThrough(s1.records[r.cid].machine, StepsFor(level)).0;
      var s2 := s1.(records := s1.records[r.cid := s1.records[r.cid].(machine := m)]);
      LogThenWrites(g, s2, KExecutionState, r.cid, Finished(Reached(level, def.required), level));
      var s' := LogThen(g, s2, KExecutionState, r.cid, Finished(Reached(level, def.required), level)).0;
      if s'.audit.healthy {
        WroteOn(s.audit, s1.audit, s'.audit, ["verification"], ["execution_state"], r.cid);
        assert ["verification"] + ["execution_state"] == ["verification", "execution_state"];
      }
    }
  }
}
