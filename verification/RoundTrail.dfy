/**
 What a round writes to the audit log, node by node, and that a node whose audit write fails
 ends the round.
 */
module RoundTrail {
  import opened Prelude
  import opened Json
  import opened AuditLog
  import opened Capability
  import opened Policy
  import opened Execution
  import opened Approval
  import Gateway
  import opened GatewayTrail
  import opened Rounds
  import opened RoundSafety
  import Risk

  /** A node's audit write succeeds exactly if the store is healthy afterwards. */
  lemma NodeLogWrites(g: Gateway.Setup, s: Gateway.Sys, kind: string, cid: string)
    ensures var (s', ok) := NodeLog(g, s, kind, cid);
      (ok <==> s'.audit.healthy) && (ok ==> Wrote(s.audit, s'.audit, [kind], cid))
  {
    hide Append, NextEvent;
    var fault := if s.faults == [] then NoFault else s.faults[0];
    AppendEffect(g.format, g.mac, s.audit, NewEntry(kind, cid, Null, s.stamp), fault);
    EntryKept(g.format, s.audit, NewEntry(kind, cid, Null, s.stamp));
  }

  /** It meets the next outcome in store, and fails exactly when that hits it or the store was
      in quarantine. */
  lemma NodeLogExactly(g: Gateway.Setup, s: Gateway.Sys, kind: string, cid: string)
    ensures var (s', ok) := NodeLog(g, s, kind, cid);
      var fault := if s.faults == [] then NoFault else s.faults[0];
      (ok <==> s.audit.healthy && !(s.audit.cfg.persistent && fault.FlushFails?)
               && !(IsDue(s.audit) && s.audit.cfg.ckptPath && fault.CkptFails?))
      && s'.faults == (if |s.faults| <= 1 then [] else s.faults[1..])
  {
    hide Append, IsDue;
    var fault := if s.faults == [] then NoFault else s.faults[0];
    AppendExactly(g.format, g.mac, s.audit, NewEntry(kind, cid, Null, s.stamp), fault);
  }

  /** What a node has written when it went on: nothing at all, or all of these and the store is
      healthy. */
  predicate Noted(s: Gateway.Sys, s': Gateway.Sys, th': Thread, kinds: seq<string>, cid: string) {
    !th'.place.Crashed? ==> Wrote(s.audit, s'.audit, kinds, cid) && (kinds != [] ==> s'.audit.healthy)
  }

  lemma CloseWrites(g: Gateway.Setup, s: Gateway.Sys, th: Thread, kind: string, cid: string, ch: Channels, next: Place)
    ensures var (s', th') := Close(g, s, th, kind, cid, ch, next);
      Noted(s, s', th', [kind], cid) && (!s'.audit.healthy ==> th'.place.Crashed?)
  {
    hide NodeLog, Wrote;
    NodeLogWrites(g, s, kind, cid);
  }

  /** What the gate writes, by what it has decided. */
  function Gating(ch: Channels, v: Option<Verdict>): seq<string> {
    if Extract(ch).Unclear? || v.None? then []
    else match v.value
      case Decided(d) =>
        ["policy_evaluated"] + (if !d.allowed then ["policy_rejected"] else if d.requiresApproval then ["needs_approval"] else [])
      case _ => ["policy_rejected"]
  }

  function LastVerdict(d: Deeds): Option<Verdict> { if d.judged == [] then None else Some(d.judged[|d.judged| - 1].verdict) }

  lemma GateWrites(g: Gateway.Setup, s: Gateway.Sys, th: Thread, fallback: Option<Risk.Context>, env: Gateway.Env)
    ensures var (s', th') := GateNode(g, s, th, fallback, env);
      Noted(s, s', th', Gating(th.ch, LastVerdict(th'.deeds)), th.ch.cid)
  {
    hide Extract, Evaluate, GateJudged, Wrote;
    WroteNothing(s.audit, s.audit, th.ch.cid);
    ExtractedCid(th.ch);
    if Extract(th.ch).Canonical? {
      var r := Extract(th.ch).request;
      var (ws, v) := Evaluate(env.rules, g.limits, s.windows, r, RiskOf(th.ch, fallback), env.now);
      GateJudgedWrites(g, s.(windows := ws), th.(deeds := th.deeds.(judged := th.deeds.judged + [Judgement(r, v)])), r, v, env);
    }
  }

  lemma GateJudgedWrites(g: Gateway.Setup, s: Gateway.Sys, th: Thread, r: Request, v: Verdict, env: Gateway.Env)
    ensures var (s', th') := GateJudged(g, s, th, r, v, env);
      th'.deeds.judged == th.deeds.judged
      && Noted(s, s', th', match v
           case Decided(d) =>
             ["policy_evaluated"] + (if !d.allowed then ["policy_rejected"] else if d.requiresApproval then ["needs_approval"] else [])
           case _ => ["policy_rejected"], r.cid)
  {
    hide NodeLog, Close, GateDecided, Wrote;
    NodeLogWrites(g, s, "policy_evaluated", r.cid);
    if v.Decided? {
      var (s1, ok) := NodeLog(g, s, "policy_evaluated", r.cid);
      GateDecidedWrites(g, s1, th, r, v.decision, env);
      var (s', th') := GateDecided(g, s1, th, r, v.decision, env);
      var d := v.decision;
      var more := if !d.allowed then ["policy_rejected"] else if d.requiresApproval then ["needs_approval"] else [];
      if ok && !th'.place.Crashed? { WroteOn(s.audit, s1.audit, s'.audit, ["policy_evaluated"], more, r.cid); }
    } else {
      var ch := RejectUpdate(th.ch, EvaluationFailed(v));
      CloseWrites(g, s, th, "policy_rejected", r.cid, ch, RouteAfterPolicy(ch));
      CloseEffect(g, s, th, "policy_rejected", r.cid, ch, RouteAfterPolicy(ch));
    }
  }

  lemma GateDecidedWrites(g: Gateway.Setup, s: Gateway.Sys, th: Thread, r: Request, d: Decision, env: Gateway.Env)
    ensures var (s', th') := GateDecided(g, s, th, r, d, env);
      th'.deeds.judged == th.deeds.judged && (!s.audit.healthy || s'.audit.healthy || th'.place.Crashed?)
      && Noted(s, s', th', if !d.allowed then ["policy_rejected"] else if d.requiresApproval then ["needs_approval"] else [], r.cid)
  {
    hide Close, Wrote, RequestApproval, Digest;
    WroteNothing(s.audit, s.audit, r.cid);
    var ch := JudgedUpdate(th.ch, r, d);
    CloseWrites(g, s, th, "policy_rejected", r.cid, ch, RouteAfterPolicy(ch));
    CloseEffect(g, s, th, "policy_rejected", r.cid, ch, RouteAfterPolicy(ch));
    var asked := s.(approvals := RequestApproval(g.binding, g.ttl, s.approvals, env.freshId, r, d.tier, env.now));
    var ch' := ch.(approvalId := Some(env.freshId), digest := Some(Digest(g.binding, r)), needsReview := true);
    var th1 := th.(deeds := th.deeds.(asked := Some(env.freshId)));
    CloseWrites(g, asked, th1, "needs_approval", r.cid, ch', RouteAfterPolicy(ch'));
    CloseEffect(g, asked, th1, "needs_approval", r.cid, ch', RouteAfterPolicy(ch'));
  }

  /** What a node writes, for every node but the gate and the gateway's own entries. */
  function Writing(th: Thread, o: Outside, remembered: bool): seq<string>
    requires th.place.Before?
  {
    match th.place.node
    case Perceive => ["perceive_complete"]
    case Recall => ["recall_complete"]
    case Reason => if o.reasoning.Some? then ["reason_complete"] else ["reason_failed"]
    case MakePlan => if th.ch.reasoning.Some? && th.ch.reasoning.value.route.NoopRoute? then [] else ["plan_created"]
    case Verify => ["verification_result"]
    case MemoryUpdate => if remembered then ["memory_updated"] else ["memory_skipped"]
    case Compensate => ["compensated"]
    case Escalate => ["escalated"]
    case _ => []
  }

  /** Every node but the gate and execute: it goes on only after its audit write has succeeded,
      and that write is exactly this. */
  lemma NodeWrites(g: Gateway.Setup, s: Gateway.Sys, memory: seq<MemoryEvent>, th: Thread, fallback: Option<Risk.Context>, o: Outside)
    requires th.place.Before? && !th.place.node.PolicyGate? && !th.place.node.Execute?
    ensures var t := RunNode(g, s, memory, th, fallback, o);
      Noted(s, t.sys, t.thread, Writing(th, o, t.memory != memory), th.ch.cid)
  {
    hide Close, Wrote, PlannedRequest, Completed, EventOf;
    WroteNothing(s.audit, s.audit, th.ch.cid);
    var ch, cid := th.ch, th.ch.cid;
    match th.place.node {
      case Perceive => CloseWrites(g, s, th, "perceive_complete", cid, ch, Before(Recall));
      case Recall => CloseWrites(g, s, th, "recall_complete", cid, ch, Before(Reason));
      case Reason =>
        var ch' := ReasonUpdate(ch, o.reasoning);
        CloseWrites(g, s, th, if o.reasoning.Some? then "reason_complete" else "reason_failed", cid, ch', RouteAfterReason(ch'));
      case MakePlan =>
        if ch.reasoning.Some? {
          var plan := RoundPlan(ch.session, cid, [PlannedRequest(ch, ch.reasoning.value)]);
          CloseWrites(g, s, th, "plan_created", cid, ch.(plan := Some(plan)), Before(PolicyGate));
        }
      case HumanReview =>
      case Verify => CloseWrites(g, s, th, "verification_result", cid, VerifyUpdate(ch), RouteAfterVerify(VerifyUpdate(ch)));
      case MemoryUpdate =>
        CloseWrites(g, s, th, "memory_skipped", cid, ch, Ended);
        CloseWrites(g, s, th.(deeds := th.deeds.(events := th.deeds.events + 1)), "memory_updated", cid, ch, Ended);
        assert |memory + [EventOf(ch)]| == |memory| + 1;
      case Compensate => CloseWrites(g, s, th, "compensated", cid, ch, Ended);
      case Escalate => CloseWrites(g, s, th, "escalated", cid, ch, Ended);
      case _ =>
    }
  }

  /** What a human's answer writes: the refusal, the refusal by the policy, or the grant spent. */
  lemma ReviewWrites(g: Gateway.Setup, s: Gateway.Sys, th: Thread, approve: bool, fallback: Option<Risk.Context>, env: Gateway.Env)
    ensures var (s', th') := ReviewNode(g, s, th, approve, fallback, env);
      Noted(s, s', th',
        if th'.deeds.spent != th.deeds.spent then ["approval_consumed"]
        else if th'.deeds.judged != th.deeds.judged && LastVerdict(th'.deeds).value.Decided?
                && !LastVerdict(th'.deeds).value.decision.allowed
        then ["policy_rejected_after_approval"] else ["approval_rejected"], th.ch.cid)
  {
    hide Evaluate, ReviewJudged, Close, Wrote;
    CloseWrites(g, s, th, "approval_rejected", th.ch.cid, RefuseUpdate(th.ch), RouteAfterHumanReview(RefuseUpdate(th.ch)));
    CloseEffect(g, s, th, "approval_rejected", th.ch.cid, RefuseUpdate(th.ch), RouteAfterHumanReview(RefuseUpdate(th.ch)));
    if approve && th.ch.request.Some? {
      var r := th.ch.request.value;
      var (ws, v) := Evaluate(env.rules, g.limits, s.windows, r, RiskOf(th.ch, fallback), env.now);
      ReviewJudgedWrites(g, s.(windows := ws), th.(deeds := th.deeds.(judged := th.deeds.judged + [Judgement(r, v)])), r, v, env);
    }
  }

  lemma ReviewJudgedWrites(g: Gateway.Setup, s: Gateway.Sys, th: Thread, r: Request, v: Verdict, env: Gateway.Env)
    ensures var (s', th') := ReviewJudged(g, s, th, r, v, env);
      th'.deeds.judged == th.deeds.judged && |th'.deeds.spent| >= |th.deeds.spent|
      && Noted(s, s', th',
        if th'.deeds.spent != th.deeds.spent then ["approval_consumed"]
        else if v.Decided? && !v.decision.allowed then ["policy_rejected_after_approval"] else ["approval_rejected"], th.ch.cid)
  {
    hide Close, Wrote, CheckConsume, Consume;
    var ch := RefuseUpdate(th.ch);
    CloseWrites(g, s, th, "approval_rejected", th.ch.cid, ch, RouteAfterHumanReview(ch));
    CloseEffect(g, s, th, "approval_rejected", th.ch.cid, ch, RouteAfterHumanReview(ch));
    CloseWrites(g, s, th, "policy_rejected_after_approval", th.ch.cid, ch, RouteAfterHumanReview(ch));
    CloseEffect(g, s, th, "policy_rejected_after_approval", th.ch.cid, ch, RouteAfterHumanReview(ch));
    if v.Decided? {
      var id, tier := th.ch.approvalId.GetOr(""), v.decision.tier;
      var used := s.(approvals := Consume(g.binding, s.approvals, id, r, tier, env.now));
      var th1 := th.(deeds := th.deeds.(spent := th.deeds.spent + [Spending(id, r, tier)]));
      assert |th1.deeds.spent| == |th.deeds.spent| + 1;
      CloseWrites(g, used, th1, "approval_consumed", th.ch.cid, PassUpdate(th.ch), RouteAfterHumanReview(PassUpdate(th.ch)));
      CloseEffect(g, used, th1, "approval_consumed", th.ch.cid, PassUpdate(th.ch), RouteAfterHumanReview(PassUpdate(th.ch)));
    }
  }

  /** The execute node adds its own entry once the gateway has replied. */
  lemma ExecutionWrites(g: Gateway.Setup, s: Gateway.Sys, th: Thread, r: Request, reply: Gateway.Reply)
    ensures var (s', th') := AfterGateway(g, s, th, r, reply);
      (if reply.Waiting? then s' == s else if reply.Exception? then s' == s && th'.place.Crashed?
       else Noted(s, s', th', ["execution_result"], r.cid))
  {
    hide Close, Wrote;
    CloseWrites(g, s, th.(deeds := th.deeds.(reply := Some(reply))), "execution_result", r.cid,
                th.ch.(outcome := Some(Replied(reply))), Before(Verify));
  }

  /** The entries around a round: it begins and is reported only after they were written. */
  lemma RoundWrites(g: Gateway.Setup, fallback: Option<Risk.Context>, w: World, a: Action)
    requires Enabled(w, a) && (a.BeginRound? || a.FinishRound?)
    ensures var w' := Perform(g, fallback, w, a);
      var cid := if a.BeginRound? then a.cid else ThreadOf(w, a.session).ch.cid;
      if w'.sys.audit.healthy
      then Wrote(w.sys.audit, w'.sys.audit, [if a.BeginRound? then "user_input_received" else "session_complete"], cid)
      else if a.BeginRound? then w'.threads == w.threads && w'.sessions == w.sessions
      else ThreadOf(w', a.session).place.Crashed? && w'.reports == w.reports
           && w'.sessions == (if ThreadOf(w, a.session).resumed then w.sessions
                              else w.sessions[a.session := Session(cid, false)])
  {
    hide NodeLog, Wrote, FinalReport;
    var s := Gateway.Enter(w.sys, a.env);
    NodeLogWrites(g, s, "user_input_received", if a.BeginRound? then a.cid else "");
    NodeLogWrites(g, s, "session_complete", ThreadOf(w, a.session).ch.cid);
    EnteredAudit(w.sys, a.env);
  }

  lemma EnteredAudit(s: Gateway.Sys, env: Gateway.Env)
    ensures Gateway.Enter(s, env).audit == s.audit
  {
  }
}
