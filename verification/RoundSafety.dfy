/**
 Stale channels never authorise an action: whatever earlier rounds have left in the
 channels, whatever the reasoning model proposes and however rounds of different sessions
 interleave, a round calls the gateway at most once, and only with the request and the
 allowed decision its own policy gate has produced.
 */
module RoundSafety {
  import opened Prelude
  import opened Capability
  import opened Policy
  import opened Execution
  import opened Approval
  import opened AuditLog
  import Gateway
  import opened GatewaySafety
  import opened GatewayFrames
  import opened Rounds
  import Risk

  // ---------------------------------------------------------------- what a round may have done

  /** The call is backed by this round: its request was evaluated and allowed by the gate, and
      if the decision asks for approval, the human answered this round's question with approve,
      the same request was evaluated again, allowed at the same tier, and the grant asked for
      in this round was consumed for it. */
  predicate Authorised(approved: Option<bool>, judged: seq<Judgement>, asked: Option<string>, spent: seq<Spending>, c: GatewayCall) {
    c.decision.allowed && judged != [] && judged[0] == Judgement(c.request, Decided(c.decision))
    && if c.decision.requiresApproval then Reapproved(approved, judged, asked, spent, c) else |judged| == 1 && spent == []
  }

  predicate Reapproved(approved: Option<bool>, judged: seq<Judgement>, asked: Option<string>, spent: seq<Spending>, c: GatewayCall) {
    approved == Some(true) && |judged| == 2 && judged[1].request == c.request && judged[1].verdict.Decided?
    && judged[1].verdict.decision.allowed && judged[1].verdict.decision.tier == c.decision.tier
    && asked.Some? && spent == [Spending(asked.value, c.request, c.decision.tier)]
  }

  predicate Untouched(d: Deeds) { d.called == [] && d.token.None? && d.reply.None? && d.events == 0 }

  predicate Called(ch: Channels, d: Deeds) {
    |d.called| == 1 && Authorised(d.approved, d.judged, d.asked, d.spent, d.called[0]) && d.called[0].request.cid == ch.cid
    && ch.request == Some(d.called[0].request)
  }

  predicate GotCompletedReply(d: Deeds) { d.reply.Some? && Completed(Some(Replied(d.reply.value))) }

  predicate DeedsOk(ch: Channels, d: Deeds) {
    (Untouched(d) || Called(ch, d)) && d.events <= 1 && (d.events == 1 ==> GotCompletedReply(d))
  }

  /** The round's reasoning asked for an action. */
  predicate Actionable(ch: Channels) { !ch.reasoningFailed && (ch.route == Some(PlanRoute) || ch.route == Some(DirectRoute)) }

  /** The round's decision, waiting for approval. */
  predicate Pending(a: Approvals, th: Thread) {
    Untouched(th.deeds) && Actionable(th.ch) && th.deeds.spent == []
    && th.ch.request.Some? && th.ch.decision.Some? && th.ch.request.value.cid == th.ch.cid
    && th.ch.decision.value.allowed && th.ch.decision.value.requiresApproval
    && th.deeds.judged == [Judgement(th.ch.request.value, Decided(th.ch.decision.value))]
    && th.deeds.asked.Some? && th.ch.approvalId == th.deeds.asked
    && th.deeds.asked.value in a.requests && a.requests[th.deeds.asked.value].tier == th.ch.decision.value.tier
  }

  predicate Ready(th: Thread) {
    Untouched(th.deeds) && Actionable(th.ch) && th.ch.policyRoute == Some(Pass)
    && th.ch.request.Some? && th.ch.decision.Some? && th.ch.request.value.cid == th.ch.cid
    && Authorised(th.deeds.approved, th.deeds.judged, th.deeds.asked, th.deeds.spent, GatewayCall(th.ch.request.value, th.ch.decision.value))
  }

  predicate InFlight(th: Thread) {
    Called(th.ch, th.deeds) && Actionable(th.ch) && th.ch.policyRoute == Some(Pass) && th.deeds.events == 0
    && th.deeds.reply.None?
  }

  predicate Answered(th: Thread) {
    Called(th.ch, th.deeds) && Actionable(th.ch) && th.ch.policyRoute == Some(Pass) && th.deeds.events == 0
    && th.deeds.reply.Some? && th.ch.outcome == Some(Replied(th.deeds.reply.value))
  }

  /** What the final status says about the round itself. */
  predicate StatusHonest(ch: Channels, d: Deeds) {
    match FinalStatus(ch)
    case SimulationCompleted => Called(ch, d) && GotCompletedReply(d) && d.events == 1
    case VerificationFailed => Called(ch, d) && d.reply.Some? && !GotCompletedReply(d) && d.events == 0
    case _ => Untouched(d)
  }

  /** What is known of a thread at each place. */
  predicate Staged(a: Approvals, th: Thread) {
    match th.place
    case Before(node) => StagedBefore(a, th, node)
    case Paused => Pending(a, th)
    case Awaiting(token) => InFlight(th) && th.deeds.token == Some(token)
    case Ended => StatusHonest(th.ch, th.deeds)
    case _ => DeedsOk(th.ch, th.deeds)
  }

  predicate Blank(d: Deeds) { Untouched(d) && d.unreadable.None? && d.judged == [] && d.spent == [] && d.asked.None? }

  predicate StagedBefore(a: Approvals, th: Thread, node: Node) {
    match node
    case Perceive => Blank(th.deeds)
    case Recall => Blank(th.deeds)
    case Reason => Blank(th.deeds)
    case MakePlan => Blank(th.deeds) && Actionable(th.ch)
    case PolicyGate => Blank(th.deeds) && Actionable(th.ch)
    case HumanReview => Pending(a, th)
    case Execute => Ready(th)
    case Verify => Answered(th)
    case MemoryUpdate =>
      Answered(th) && th.ch.satisfied && Completed(th.ch.outcome) && th.ch.verification == Some(LevelIn(th.ch.outcome))
    case Compensate => Answered(th) && !th.ch.satisfied && !Completed(th.ch.outcome)
    case Escalate => Untouched(th.deeds) && Actionable(th.ch) && th.ch.policyRoute == Some(Refuse)
  }

  /** Whatever the place, a round has called the gateway at most once, and with authority. */
  lemma StagedIsOk(a: Approvals, th: Thread)
    requires Staged(a, th)
    ensures DeedsOk(th.ch, th.deeds)
  {
    hide Authorised, Actionable, FinalStatus;
  }

  // ---------------------------------------------------------------- frames

  lemma StagedKept(a: Approvals, a': Approvals, th: Thread)
    requires Staged(a, th) && Preserved(a, a')
    ensures Staged(a', th)
  {
    hide Authorised, Actionable, Completed, StatusHonest, Untouched;
  }

  predicate SameCore(s: Gateway.Sys, s': Gateway.Sys) {
    s'.records == s.records && s'.calls == s.calls && s'.parked == s.parked
  }

  lemma NodeLogFrame(g: Gateway.Setup, s: Gateway.Sys, kind: string, cid: string)
    ensures var s' := NodeLog(g, s, kind, cid).0;
      SameCore(s, s') && s'.approvals == s.approvals && s'.windows == s.windows
  {
    hide Append;
  }

  lemma CloseEffect(g: Gateway.Setup, s: Gateway.Sys, th: Thread, kind: string, cid: string, ch: Channels, next: Place)
    ensures var (s', th') := Close(g, s, th, kind, cid, ch, next);
      SameCore(s, s') && s'.approvals == s.approvals && s'.windows == s.windows
      && (th' == Stop(th) || th' == th.(ch := ch, place := next))
  {
    hide NodeLog;
    NodeLogFrame(g, s, kind, cid);
  }

  lemma StoppedOk(a: Approvals, th: Thread)
    requires DeedsOk(th.ch, th.deeds)
    ensures Staged(a, Stop(th))
  {
    hide DeedsOk;
  }

  // ---------------------------------------------------------------- the nodes, one by one

  predicate Turned(s: Gateway.Sys, s': Gateway.Sys, th': Thread) {
    SameCore(s, s') && Preserved(s.approvals, s'.approvals) && Staged(s'.approvals, th')
  }

  lemma CloseStaged(g: Gateway.Setup, s: Gateway.Sys, th: Thread, kind: string, cid: string, ch: Channels, next: Place)
    requires DeedsOk(th.ch, th.deeds) && Staged(s.approvals, th.(ch := ch, place := next))
    ensures var (s', th') := Close(g, s, th, kind, cid, ch, next); Turned(s, s', th')
  {
    hide Close, Staged, DeedsOk;
    CloseEffect(g, s, th, kind, cid, ch, next);
    StoppedOk(s.approvals, th);
  }

  lemma ReasonStaged(g: Gateway.Setup, s: Gateway.Sys, th: Thread, answer: Option<Reasoning>)
    requires Blank(th.deeds)
    ensures var (s', th') := ReasonNode(g, s, th, answer); Turned(s, s', th')
  {
    hide Close, Preserved;
    assert answer.Some? ==> (answer.value.route.PlanRoute? || answer.value.route.DirectRoute? || answer.value.route.NoopRoute?);
    var ch := ReasonUpdate(th.ch, answer);
    CloseStaged(g, s, th, if answer.Some? then "reason_complete" else "reason_failed", th.ch.cid, ch, RouteAfterReason(ch));
  }

  lemma PlanStaged(g: Gateway.Setup, s: Gateway.Sys, th: Thread)
    requires Blank(th.deeds) && Actionable(th.ch)
    ensures var (s', th') := PlanNode(g, s, th); Turned(s, s', th')
  {
    hide Close, PlannedRequest;
    var ch := th.ch;
    if ch.reasoning.Some? {
      var plan := RoundPlan(ch.session, ch.cid, [PlannedRequest(ch, ch.reasoning.value)]);
      CloseStaged(g, s, th, "plan_created", ch.cid, ch.(plan := Some(plan)), Before(PolicyGate));
    }
  }

  /** The canonical request carries this round's correlation id. */
  lemma ExtractedCid(ch: Channels)
    ensures Extract(ch).Canonical? ==> Extract(ch).request.cid == ch.cid
  {
    hide OrText, PrincipalOf;
  }

  lemma GateStaged(g: Gateway.Setup, s: Gateway.Sys, th: Thread, fallback: Option<Risk.Context>, env: Gateway.Env)
    requires Blank(th.deeds) && Actionable(th.ch) && env.freshId !in s.approvals.requests
    ensures var (s', th') := GateNode(g, s, th, fallback, env); Turned(s, s', th')
  {
    hide Extract, Evaluate, GateJudged;
    ExtractedCid(th.ch);
    match Extract(th.ch) {
      case Unclear(_) =>
      case Canonical(r) =>
        var (ws, v) := Evaluate(env.rules, g.limits, s.windows, r, RiskOf(th.ch, fallback), env.now);
        GateJudgedStaged(g, s.(windows := ws), th.(deeds := th.deeds.(judged := th.deeds.judged + [Judgement(r, v)])), r, v, env);
    }
  }

  /** Just evaluated by the gate. */
  predicate Judged(th: Thread, r: Request, v: Verdict) {
    Untouched(th.deeds) && th.deeds.judged == [Judgement(r, v)] && th.deeds.spent == [] && Actionable(th.ch)
    && r.cid == th.ch.cid
  }

  lemma GateJudgedStaged(g: Gateway.Setup, s: Gateway.Sys, th: Thread, r: Request, v: Verdict, env: Gateway.Env)
    requires Judged(th, r, v) && env.freshId !in s.approvals.requests
    ensures var (s', th') := GateJudged(g, s, th, r, v, env); Turned(s, s', th')
  {
    hide Close, NodeLog, GateDecided;
    NodeLogFrame(g, s, "policy_evaluated", r.cid);
    if v.Decided? {
      var (s', ok) := NodeLog(g, s, "policy_evaluated", r.cid);
      if ok { GateDecidedStaged(g, s', th, r, v.decision, env); }
    } else {
      var ch := RejectUpdate(th.ch, EvaluationFailed(v));
      CloseStaged(g, s, th, "policy_rejected", r.cid, ch, RouteAfterPolicy(ch));
    }
  }

  lemma GateDecidedStaged(g: Gateway.Setup, s: Gateway.Sys, th: Thread, r: Request, d: Decision, env: Gateway.Env)
    requires Judged(th, r, Decided(d)) && env.freshId !in s.approvals.requests
    ensures var (s', th') := GateDecided(g, s, th, r, d, env); Turned(s, s', th')
  {
    hide Close, Digest;
    var ch := JudgedUpdate(th.ch, r, d);
    match DerivePolicyRoute(d) {
      case Refuse => CloseStaged(g, s, th, "policy_rejected", r.cid, ch, RouteAfterPolicy(ch));
      case Pass =>
      case AskHuman =>
        var asked := s.(approvals := RequestApproval(g.binding, g.ttl, s.approvals, env.freshId, r, d.tier, env.now));
        var ch' := ch.(approvalId := Some(env.freshId), digest := Some(Digest(g.binding, r)), needsReview := true);
        CloseStaged(g, asked, th.(deeds := th.deeds.(asked := Some(env.freshId))), "needs_approval", r.cid, ch',
                    RouteAfterPolicy(ch'));
    }
  }

  lemma RefusedStaged(g: Gateway.Setup, s: Gateway.Sys, th: Thread, kind: string)
    requires Untouched(th.deeds) && Actionable(th.ch)
    ensures var (s', th') := ReviewRefused(g, s, th, kind); Turned(s, s', th')
  {
    hide Close;
    var ch := RefuseUpdate(th.ch);
    CloseStaged(g, s, th, kind, th.ch.cid, ch, RouteAfterHumanReview(ch));
  }

  lemma ReviewStaged(g: Gateway.Setup, s: Gateway.Sys, th: Thread, approve: bool, fallback: Option<Risk.Context>, env: Gateway.Env)
    requires Pending(s.approvals, th) && th.deeds.approved == Some(approve)
    ensures var (s', th') := ReviewNode(g, s, th, approve, fallback, env); Turned(s, s', th')
  {
    hide Evaluate, ReviewJudged, ReviewRefused;
    if !approve {
      RefusedStaged(g, s, th, "approval_rejected");
    } else {
      var r := th.ch.request.value;
      var (ws, v) := Evaluate(env.rules, g.limits, s.windows, r, RiskOf(th.ch, fallback), env.now);
      ReviewJudgedStaged(g, s.(windows := ws), th, r, v, env);
    }
  }

  lemma ReviewJudgedStaged(g: Gateway.Setup, s: Gateway.Sys, th: Thread, r: Request, v: Verdict, env: Gateway.Env)
    requires Pending(s.approvals, th) && th.ch.request == Some(r) && th.deeds.approved == Some(true)
    ensures var th1 := th.(deeds := th.deeds.(judged := th.deeds.judged + [Judgement(r, v)]));
      var (s', th') := ReviewJudged(g, s, th1, r, v, env); Turned(s, s', th')
  {
    hide Close, ReviewRefused, CheckConsume;
    var th1 := th.(deeds := th.deeds.(judged := th.deeds.judged + [Judgement(r, v)]));
    RefusedStaged(g, s, th1, "approval_rejected");
    RefusedStaged(g, s, th1, "policy_rejected_after_approval");
    if v.Decided? && v.decision.allowed {
      var id, tier := th.ch.approvalId.GetOr(""), v.decision.tier;
      if CheckConsume(g.binding, s.approvals, id, r, tier, env.now).None? {
        ConsumedTier(g.binding, s.approvals, id, r, tier, env.now);
        var used := s.(approvals := Consume(g.binding, s.approvals, id, r, tier, env.now));
        var ch := PassUpdate(th.ch);
        CloseStaged(g, used, th1.(deeds := th1.deeds.(spent := th1.deeds.spent + [Spending(id, r, tier)])),
                    "approval_consumed", th.ch.cid, ch, RouteAfterHumanReview(ch));
      }
    }
  }

  lemma ConsumedTier(b: Binding, a: Approvals, id: string, r: Request, tier: int, now: real)
    requires CheckConsume(b, a, id, r, tier, now).None?
    ensures id in a.requests && a.requests[id].tier == tier
  {
    hide Digest;
  }

  lemma VerifyStaged(g: Gateway.Setup, s: Gateway.Sys, th: Thread)
    requires Answered(th)
    ensures var (s', th') := VerifyNode(g, s, th); Turned(s, s', th')
  {
    hide Close, Authorised;
    var ch := VerifyUpdate(th.ch);
    CloseStaged(g, s, th, "verification_result", th.ch.cid, ch, RouteAfterVerify(ch));
  }

  lemma MemoryStaged(g: Gateway.Setup, s: Gateway.Sys, memory: seq<MemoryEvent>, th: Thread, storeFails: bool)
    requires Answered(th) && th.ch.satisfied && Completed(th.ch.outcome)
    ensures var t := MemoryNode(g, s, memory, th, storeFails); Turned(s, t.sys, t.thread)
  {
    hide Close, Authorised;
    if !storeFails {
      var counted := th.(deeds := th.deeds.(events := th.deeds.events + 1));
      CloseStaged(g, s, counted, "memory_updated", th.ch.cid, th.ch, Ended);
    }
  }

  lemma AfterGatewayStaged(g: Gateway.Setup, s: Gateway.Sys, th: Thread, r: Request, reply: Gateway.Reply)
    requires InFlight(th) && !reply.NoReply? && !reply.AwaitsApproval?
    ensures var (s', th') := AfterGateway(g, s, th, r, reply); Turned(s, s', th')
  {
    hide Close, Authorised;
    if !reply.Waiting? && !reply.Exception? {
      var th' := th.(deeds := th.deeds.(reply := Some(reply)));
      CloseStaged(g, s, th', "execution_result", r.cid, th.ch.(outcome := Some(Replied(reply))), Before(Verify));
    }
  }

  // ---------------------------------------------------------------- nodes that call the gateway

  predicate Moved(g: Gateway.Setup, s: Gateway.Sys, s': Gateway.Sys, th': Thread) {
    Safe(g, s') && Preserved(s.approvals, s'.approvals) && Staged(s'.approvals, th')
  }

  lemma ExecuteStaged(g: Gateway.Setup, s: Gateway.Sys, th: Thread, env: Gateway.Env)
    requires Safe(g, s) && Ready(th)
    ensures var (s', th') := ExecuteNode(g, s, th, env); Moved(g, s, s', th')
  {
    hide Core, Gateway.ExecutePreauthorized, AfterGateway, Staged, Actionable, Authorised;
    var r, d := th.ch.request.value, th.ch.decision.value;
    PreauthorizedSafe(g, s, r, d, env);
    PreauthorizedFrame(g, s, r, d, env);
    var (s1, reply) := Gateway.ExecutePreauthorized(g, s, r, d, env);
    AfterGatewayStaged(g, s1, th.(deeds := th.deeds.(called := th.deeds.called + [GatewayCall(r, d)])), r, reply);
  }

  lemma WakeStaged(g: Gateway.Setup, s: Gateway.Sys, th: Thread, answer: Option<Evidence>)
    requires Safe(g, s) && InFlight(th) && th.place.Awaiting? && th.place.token in s.parked
    ensures var (s', th') := WakeNode(g, s, th, answer); Moved(g, s, s', th')
  {
    hide Core, Gateway.Resume, AfterGateway, Staged, InFlight;
    var token := th.place.token;
    ResumeSafe(g, s, token, answer);
    ResumeFrame(g, s, token, answer);
    var (s1, reply) := Gateway.Resume(g, s, token, answer);
    AfterGatewayStaged(g, s1, th, s.parked[token].request, reply);
  }

  lemma RunNodeStaged(g: Gateway.Setup, s: Gateway.Sys, memory: seq<MemoryEvent>, th: Thread, fallback: Option<Risk.Context>, o: Outside)
    requires Safe(g, s) && th.place.Before? && Staged(s.approvals, th) && o.env.freshId !in s.approvals.requests
    ensures var t := RunNode(g, s, memory, th, fallback, o); Moved(g, s, t.sys, t.thread)
  {
    if th.place.node.MemoryUpdate? {
      MemoryStaged(g, s, memory, th, o.storeFails);
      SafeTurned(g, s, MemoryNode(g, s, memory, th, o.storeFails).sys, MemoryNode(g, s, memory, th, o.storeFails).thread);
    } else {
      hide MemoryNode, RunPlainNode, Staged;
      PlainStaged(g, s, th, fallback, o);
    }
  }

  lemma SafeTurned(g: Gateway.Setup, s: Gateway.Sys, s': Gateway.Sys, th': Thread)
    requires Safe(g, s) && Turned(s, s', th')
    ensures Moved(g, s, s', th')
  {
    hide Core, Preserved, Staged;
  }

  lemma PlainStaged(g: Gateway.Setup, s: Gateway.Sys, th: Thread, fallback: Option<Risk.Context>, o: Outside)
    requires Safe(g, s) && th.place.Before? && Staged(s.approvals, th) && o.env.freshId !in s.approvals.requests
    requires !th.place.node.MemoryUpdate?
    ensures var (s', th') := RunPlainNode(g, s, th, fallback, o); Moved(g, s, s', th')
  {
    StagedIsOk(s.approvals, th);
    hide Safe, Close, GateNode, ExecuteNode, ReasonNode, PlanNode, VerifyNode, Pending, Ready, Answered, Blank, Actionable, DeedsOk;
    if th.place.node.Execute? {
      ExecuteStaged(g, s, th, o.env);
    } else {
      LinearStaged(g, s, th, fallback, o);
      SafeTurned(g, s, RunPlainNode(g, s, th, fallback, o).0, RunPlainNode(g, s, th, fallback, o).1);
    }
  }

  lemma LinearStaged(g: Gateway.Setup, s: Gateway.Sys, th: Thread, fallback: Option<Risk.Context>, o: Outside)
    requires th.place.Before? && Staged(s.approvals, th) && o.env.freshId !in s.approvals.requests
    requires !th.place.node.MemoryUpdate? && !th.place.node.Execute?
    ensures var (s', th') := RunPlainNode(g, s, th, fallback, o); Turned(s, s', th')
  {
    hide Close, GateNode, ReasonNode, PlanNode, VerifyNode, Turned;
    match th.place.node {
      case Reason => ReasonStaged(g, s, th, o.reasoning);
      case MakePlan => PlanStaged(g, s, th);
      case PolicyGate => GateStaged(g, s, th, fallback, o.env);
      case Verify => VerifyStaged(g, s, th);
      case _ => QuietStaged(g, s, th, fallback, o);
    }
  }

  /** The nodes that only log, and the suspension. */
  lemma QuietStaged(g: Gateway.Setup, s: Gateway.Sys, th: Thread, fallback: Option<Risk.Context>, o: Outside)
    requires th.place.Before? && Staged(s.approvals, th)
    requires th.place.node in {Node.Perceive, Node.Recall, Node.HumanReview, Node.Compensate, Node.Escalate}
    ensures var (s', th') := RunPlainNode(g, s, th, fallback, o); Turned(s, s', th')
  {
    StagedIsOk(s.approvals, th);
    StoppedOk(s.approvals, th);
    hide Close, Authorised;
    if th.place.node.Perceive? {
      CloseStaged(g, s, th, "perceive_complete", th.ch.cid, th.ch, Before(Recall));
    } else if th.place.node.Recall? {
      CloseStaged(g, s, th, "recall_complete", th.ch.cid, th.ch, Before(Reason));
    } else if th.place.node.Compensate? {
      CloseStaged(g, s, th, "compensated", th.ch.cid, th.ch, Ended);
    } else if th.place.node.Escalate? {
      CloseStaged(g, s, th, "escalated", th.ch.cid, th.ch, Ended);
    }
  }

  // ---------------------------------------------------------------- worlds

  /** What a report says of its round. */
  predicate ReportHonest(r: Report) {
    match r.status
    case SimulationCompleted => ReportsCall(r) && GotCompletedReply(r.deeds) && r.deeds.events == 1
    case VerificationFailed => ReportsCall(r) && r.deeds.reply.Some? && !GotCompletedReply(r.deeds) && r.deeds.events == 0
    case _ => Untouched(r.deeds)
  }

  predicate ReportsCall(r: Report) {
    |r.deeds.called| == 1 && r.deeds.called[0].request.cid == r.cid
    && Authorised(r.deeds.approved, r.deeds.judged, r.deeds.asked, r.deeds.spent, r.deeds.called[0])
  }

  predicate AllStaged(a: Approvals, threads: map<string, Thread>) { forall s | s in threads :: Staged(a, threads[s]) }

  predicate AllHonest(reports: seq<Report>) { forall i | 0 <= i < |reports| :: ReportHonest(reports[i]) }

  predicate Sound(g: Gateway.Setup, w: World) {
    Safe(g, w.sys) && AllStaged(w.sys.approvals, w.threads) && AllHonest(w.reports)
  }

  lemma AllKept(a: Approvals, a': Approvals, threads: map<string, Thread>)
    requires AllStaged(a, threads) && Preserved(a, a')
    ensures AllStaged(a', threads)
  {
    hide Staged, Preserved;
    forall s | s in threads ensures Staged(a', threads[s]) { StagedKept(a, a', threads[s]); }
  }

  lemma StagedAt(g: Gateway.Setup, w: World, session: string)
    requires Sound(g, w)
    ensures Staged(w.sys.approvals, ThreadOf(w, session))
  {
    hide Safe, AllHonest;
    assert Staged(w.sys.approvals, NEW_THREAD) by { hide Completed; }
  }

  lemma SettleSound(g: Gateway.Setup, w: World, session: string, t: Turn)
    requires Sound(g, w) && Moved(g, w.sys, t.sys, t.thread)
    ensures Sound(g, Settle(w, session, t))
  {
    hide Safe, AllHonest, Preserved, Staged, GotCompleted;
    AllKept(w.sys.approvals, t.sys.approvals, w.threads);
  }

  lemma EnterSame(g: Gateway.Setup, s: Gateway.Sys, env: Gateway.Env)
    requires Safe(g, s)
    ensures Safe(g, Gateway.Enter(s, env)) && Gateway.Enter(s, env).approvals == s.approvals
      && Gateway.Enter(s, env).parked == s.parked
  {
    hide Core;
  }

  lemma ReportAdded(reports: seq<Report>, session: string, th: Thread)
    requires AllHonest(reports) && StatusHonest(th.ch, th.deeds)
    ensures AllHonest(reports + [FinalReport(session, th)])
  {
    hide Authorised, Actionable, GotCompletedReply, AllHonest, FinalStatus;
    assert ReportHonest(FinalReport(session, th));
    HonestAppend(reports, FinalReport(session, th));
  }

  lemma HonestAppend(reports: seq<Report>, r: Report)
    requires AllHonest(reports) && ReportHonest(r)
    ensures AllHonest(reports + [r])
  {
    hide ReportHonest;
  }

  lemma SuspendedSound(g: Gateway.Setup, w: World, session: string)
    requires Sound(g, w)
    ensures Sound(g, Suspended(w, session))
  {
    StagedAt(g, w, session);
    hide Safe, AllStaged, AllHonest;
    if ThreadOf(w, session).place.Paused? { HonestAppend(w.reports, AskingReport(session, ThreadOf(w, session))); }
  }

  lemma StartSound(g: Gateway.Setup, w: World, session: string, cid: string, intent: Intent, risk: Risk.Context, env: Gateway.Env)
    requires Sound(g, w)
    ensures Sound(g, StartRound(g, w, session, cid, intent, risk, env))
  {
    hide Core, AllHonest, NodeLog, StagedBefore;
    EnterSame(g, w.sys, env);
    NodeLogFrame(g, Gateway.Enter(w.sys, env), "user_input_received", cid);
    var ch := ThreadOf(w, session).ch;
    var th := Thread(StartChannels(ch, session, cid, intent, risk), Before(Perceive), false, NoDeeds(ch));
    FreshRound(w.sys.approvals, th);
  }

  lemma FreshRound(a: Approvals, th: Thread)
    requires th.place == Before(Perceive) && th.deeds == NoDeeds(th.deeds.before)
    ensures Staged(a, th)
  {
  }

  lemma ReviewSound(g: Gateway.Setup, fallback: Option<Risk.Context>, w: World, session: string, approve: bool, env: Gateway.Env)
    requires Sound(g, w) && Enabled(w, ResumeRound(session, approve, env))
    ensures Sound(g, TakeUp(g, fallback, w, session, approve, env))
  {
    StagedAt(g, w, session);
    hide Safe, AllStaged, AllHonest, Authorised, Settle, Completed;
    match ResumeStatus(w, session) {
      case Some(status) =>
        HonestAppend(w.reports, TableReport(w, session, status));
      case None =>
        var th := Resuming(ThreadOf(w, session), approve);
        EnterSame(g, w.sys, env);
        var s := Gateway.Enter(w.sys, env);
        ReviewStaged(g, s, th, approve, fallback, env);
        var (s', th') := ReviewNode(g, s, th, approve, fallback, env);
        SafeTurned(g, s, s', th');
        SettleSound(g, w, session, Turn(s', w.memory, th'));
    }
  }

  lemma FinishSound(g: Gateway.Setup, w: World, session: string, env: Gateway.Env)
    requires Sound(g, w) && ThreadOf(w, session).place.Ended?
    ensures Sound(g, Finalize(g, w, session, env))
  {
    StagedAt(g, w, session);
    var th := ThreadOf(w, session);
    HonestIsOk(th);
    hide Core, AllHonest, NodeLog, StatusHonest, DeedsOk, FinalStatus, StagedBefore;
    EnterSame(g, w.sys, env);
    NodeLogFrame(g, Gateway.Enter(w.sys, env), "session_complete", th.ch.cid);
    ReportAdded(w.reports, session, th);
  }

  lemma HonestIsOk(th: Thread)
    requires StatusHonest(th.ch, th.deeds)
    ensures DeedsOk(th.ch, th.deeds)
  {
    hide Authorised, FinalStatus;
  }

  lemma OtherSound(g: Gateway.Setup, w: World, b: Gateway.Action)
    requires Sound(g, w) && !b.Shared? && Gateway.Enabled(w.sys, b)
    ensures Sound(g, w.(sys := Gateway.Perform(g, w.sys, b).0))
  {
    hide Safe, AllStaged, AllHonest, Preserved, Gateway.Perform;
    StepSafe(g, w.sys, b);
    GatewayOnward(g, w.sys, b);
    AllKept(w.sys.approvals, Gateway.Perform(g, w.sys, b).0.approvals, w.threads);
  }

  lemma TurnSound(g: Gateway.Setup, fallback: Option<Risk.Context>, w: World, session: string, o: Outside)
    requires Sound(g, w) && ThreadOf(w, session).place.Before? && FreshId(w, o.env)
    ensures Sound(g, Perform(g, fallback, w, NextNode(session, o)))
  {
    StagedAt(g, w, session);
    hide Safe, AllStaged, AllHonest, Staged, RunNode, Settle, Suspended;
    EnterSame(g, w.sys, o.env);
    var s := Gateway.Enter(w.sys, o.env);
    RunNodeStaged(g, s, w.memory, ThreadOf(w, session), fallback, o);
    var t := RunNode(g, s, w.memory, ThreadOf(w, session), fallback, o);
    SettleSound(g, w, session, t);
    SuspendedSound(g, Settle(w, session, t), session);
  }

  lemma AnswerSound(g: Gateway.Setup, fallback: Option<Risk.Context>, w: World, session: string, answer: Option<Evidence>, env: Gateway.Env)
    requires Sound(g, w) && Enabled(w, AdapterAnswers(session, answer, env))
    ensures Sound(g, Perform(g, fallback, w, AdapterAnswers(session, answer, env)))
  {
    StagedAt(g, w, session);
    hide Safe, AllStaged, AllHonest, InFlight, WakeNode, Settle;
    EnterSame(g, w.sys, env);
    var s := Gateway.Enter(w.sys, env);
    WakeStaged(g, s, ThreadOf(w, session), answer);
    var (s', th') := WakeNode(g, s, ThreadOf(w, session), answer);
    SettleSound(g, w, session, Turn(s', w.memory, th'));
  }

  lemma StepSound(g: Gateway.Setup, fallback: Option<Risk.Context>, w: World, a: Action)
    requires Sound(g, w) && Enabled(w, a)
    ensures Sound(g, Perform(g, fallback, w, a))
  {
    hide Safe, AllStaged, AllHonest, StartRound, RunNode, WakeNode, TakeUp, Finalize, Settle, Suspended, Gateway.Perform,
         ResumeStatus;
    match a {
      case BeginRound(session, cid, intent, risk, env) => StartSound(g, w, session, cid, intent, risk, env);
      case NextNode(session, o) => TurnSound(g, fallback, w, session, o);
      case AdapterAnswers(session, answer, env) => AnswerSound(g, fallback, w, session, answer, env);
      case ResumeRound(session, approve, env) => ReviewSound(g, fallback, w, session, approve, env);
      case FinishRound(session, env) => FinishSound(g, w, session, env);
      case Cancel(_) =>
      case Other(b) => OtherSound(g, w, b);
    }
  }

  lemma {:induction false} RunSound(g: Gateway.Setup, fallback: Option<Risk.Context>, w: World, actions: seq<Action>)
    requires Sound(g, w) && Schedule(g, fallback, w, actions)
    ensures Sound(g, Play(g, fallback, w, actions))
    decreases |actions|
  {
    hide Sound, Perform, Enabled;
    if actions != [] {
      StepSound(g, fallback, w, actions[0]);
      RunSound(g, fallback, Perform(g, fallback, w, actions[0]), actions[1..]);
    }
  }

  lemma NewWorldSound(g: Gateway.Setup, audit: Store)
    ensures Sound(g, NewWorld(audit))
  {
    StartSafe(g, audit);
  }

  // ---------------------------------------------------------------- main results

  /** Stale channels never authorise an action.  In every reachable world, whatever a round
      has got to, it has called the gateway at most once, and the call is backed by this
      round: see `Authorised`. */
  lemma RoundsAreAuthorised(g: Gateway.Setup, fallback: Option<Risk.Context>, audit: Store, actions: seq<Action>, session: string)
    requires Schedule(g, fallback, NewWorld(audit), actions)
    requires session in Play(g, fallback, NewWorld(audit), actions).threads
    ensures var d := Play(g, fallback, NewWorld(audit), actions).threads[session].deeds;
      |d.called| <= 1 && (d.called != [] ==> Authorised(d.approved, d.judged, d.asked, d.spent, d.called[0]))
  {
    hide Play, Schedule, Authorised, Safe, AllHonest, Staged;
    NewWorldSound(g, audit);
    RunSound(g, fallback, NewWorld(audit), actions);
    var w := Play(g, fallback, NewWorld(audit), actions);
    StagedIsOk(w.sys.approvals, w.threads[session]);
  }

  /** Every reported status is about the round it reports: `SIMULATION completed` exactly when
      the round's authorised call came back completed, `verification failed` exactly when it
      came back otherwise, and every other status when the gateway was not called at all. */
  lemma StatusIsThisRounds(g: Gateway.Setup, fallback: Option<Risk.Context>, audit: Store, actions: seq<Action>, i: nat)
    requires Schedule(g, fallback, NewWorld(audit), actions)
    requires i < |Play(g, fallback, NewWorld(audit), actions).reports|
    ensures ReportHonest(Play(g, fallback, NewWorld(audit), actions).reports[i])
  {
    hide Play, Schedule, Safe, AllStaged, ReportHonest;
    NewWorldSound(g, audit);
    RunSound(g, fallback, NewWorld(audit), actions);
  }

  /** With any number of sessions and other users of the gateway, still no correlation id is
      actuated twice. */
  lemma WorldActuatesOnce(g: Gateway.Setup, fallback: Option<Risk.Context>, audit: Store, actions: seq<Action>, i: nat, j: nat)
    requires Schedule(g, fallback, NewWorld(audit), actions)
    requires var calls := Play(g, fallback, NewWorld(audit), actions).sys.calls;
      i < j < |calls| && calls[i].actuates && calls[j].actuates
    ensures var calls := Play(g, fallback, NewWorld(audit), actions).sys.calls;
      calls[i].request.cid != calls[j].request.cid
  {
    hide Play, Schedule, AllStaged, AllHonest, FiredIsPast, PreauthorizedOnce, AllLived, AllAwaiting, CallsSafe;
    NewWorldSound(g, audit);
    RunSound(g, fallback, NewWorld(audit), actions);
  }

  /** The boundary between modes holds for every single adapter call of every world, observing
      or actuating, whoever made it. */
  lemma WorldModeBoundary(g: Gateway.Setup, fallback: Option<Risk.Context>, audit: Store, actions: seq<Action>, i: nat)
    requires Schedule(g, fallback, NewWorld(audit), actions)
    requires i < |Play(g, fallback, NewWorld(audit), actions).sys.calls|
    ensures CallSafe(g, Play(g, fallback, NewWorld(audit), actions).sys.calls[i])
  {
    hide Play, Schedule, AllStaged, AllHonest, FiredOnce, FiredIsPast, PreauthorizedOnce, AllLived, AllAwaiting, CallSafe;
    NewWorldSound(g, audit);
    RunSound(g, fallback, NewWorld(audit), actions);
  }
}
