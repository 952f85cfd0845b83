/**
 What an `AgentResult` does carry over from earlier rounds: only its status is always about
 the round it reports; its capabilities, its evidence and its reject reason may be left over,
 and exactly when is stated here.
 */
module RoundLeftovers {
  import opened Prelude
  import opened Capability
  import opened Policy
  import opened Execution
  import opened Approval
  import opened AuditLog
  import Gateway
  import opened GatewaySafety
  import opened GatewayFrames
  import opened Rounds
  import opened RoundSafety
  import Risk

  // ---------------------------------------------------------------- what the channels carry

  /** The outcome channel of a round: its own reply, or what an earlier round left there. */
  function OutcomeOf(d: Deeds): Option<Rounds.Outcome> {
    if d.reply.Some? then Some(Replied(d.reply.value)) else d.before.outcome
  }

  /** The reject reason of a round: written only when the gate could read no request or the
      evaluation failed; a decision that denies, or a human who refuses, writes none. */
  function ReasonOf(d: Deeds): Option<GateError> {
    if d.unreadable.Some? then d.unreadable
    else if d.judged != [] && !d.judged[0].verdict.Decided? then Some(EvaluationFailed(d.judged[0].verdict))
    else d.before.rejectReason
  }

  predicate Told(ch: Channels, d: Deeds) { ch.outcome == OutcomeOf(d) && ch.rejectReason == ReasonOf(d) }

  predicate Unverified(ch: Channels, d: Deeds) {
    ch.verification == d.before.verification && ch.satisfied == d.before.satisfied
  }

  /** The verification channels follow the reply once the verify node has run. */
  predicate VerificationFits(p: Place, ch: Channels, d: Deeds) {
    if d.reply.Some? && p != Before(Verify)
    then ch.verification == Some(LevelIn(ch.outcome)) && ch.satisfied == Completed(ch.outcome) else Unverified(ch, d)
  }

  /** The gate has run in this round. */
  predicate Gated(d: Deeds) { d.unreadable.Some? || d.judged != [] }

  predicate RouteFits(p: Place, ch: Channels, d: Deeds) {
    (if Gated(d) then Actionable(ch) else ch.policyRoute == d.before.policyRoute)
    && (d.called != [] ==> ch.policyRoute == Some(Pass))
    && ((p == Before(Escalate) || p.Ended?) && Actionable(ch) ==> Gated(d)) && (p.Ended? ==> ch.route.Some?)
  }

  predicate DigestFits(g: Gateway.Setup, p: Place, ch: Channels, d: Deeds) {
    p.Paused? || p == Before(HumanReview) ==> d.judged != [] && ch.digest == Some(Digest(g.binding, d.judged[0].request))
  }

  predicate Fits(g: Gateway.Setup, p: Place, ch: Channels, d: Deeds) {
    p.Idle? || p.Crashed?
    || (Told(ch, d) && VerificationFits(p, ch, d) && RouteFits(p, ch, d) && DigestFits(g, p, ch, d))
  }

  predicate Carried(g: Gateway.Setup, th: Thread) { Fits(g, th.place, th.ch, th.deeds) }

  /** What each part of a result is about, by the status a reader sees: either this round, or
      whatever the channels held before it began. */
  predicate ReportFits(g: Gateway.Setup, r: Report) {
    match r.status
    case UnknownSession => r.capabilities.None? && r.reason.None? && r.details.NoDetails?
    case ReplayRejected => r.capabilities.None? && r.reason.None? && r.details.NoDetails?
    case ApprovalNeeded =>
      r.capabilities.None? && r.reason.None? && r.deeds.asked.Some? && r.deeds.judged != []
      && r.details == Approval(r.deeds.asked, Some(Digest(g.binding, r.deeds.judged[0].request)))
    case SimulationCompleted => FromReply(r, true)
    case VerificationFailed => FromReply(r, false)
    case PolicyRejected => LeftFromBefore(r, Some(Refuse)) && Gated(r.deeds) && r.reason == ReasonOf(r.deeds)
    case _ => LeftFromBefore(r, r.deeds.before.policyRoute) && !Gated(r.deeds) && r.reason.None?
  }

  predicate FromReply(r: Report, satisfied: bool) {
    r.deeds.reply.Some? && r.capabilities == Some(Replied(r.deeds.reply.value)) && Completed(r.capabilities) == satisfied
    && r.reason.None? && r.details == Summary(Some(LevelIn(r.capabilities)), satisfied, Some(Pass))
  }

  predicate LeftFromBefore(r: Report, route: Option<PolicyRoute>) {
    r.deeds.reply.None? && r.capabilities == r.deeds.before.outcome
    && r.details == Summary(r.deeds.before.verification, r.deeds.before.satisfied, route)
  }

  predicate AllCarried(g: Gateway.Setup, threads: map<string, Thread>) { forall s | s in threads :: Carried(g, threads[s]) }

  predicate AllFit(g: Gateway.Setup, reports: seq<Report>) { forall i | 0 <= i < |reports| :: ReportFits(g, reports[i]) }

  predicate Leftover(g: Gateway.Setup, w: World) { AllCarried(g, w.threads) && AllFit(g, w.reports) }

  // ---------------------------------------------------------------- nodes

  lemma CloseCarried(g: Gateway.Setup, s: Gateway.Sys, th: Thread, kind: string, cid: string, ch: Channels, next: Place)
    requires Fits(g, next, ch, th.deeds)
    ensures Carried(g, Close(g, s, th, kind, cid, ch, next).1)
  {
    hide Close;
    CloseEffect(g, s, th, kind, cid, ch, next);
  }

  lemma ReasonCarried(g: Gateway.Setup, s: Gateway.Sys, th: Thread, answer: Option<Reasoning>)
    requires Carried(g, th) && th.place == Before(Reason) && Blank(th.deeds)
    ensures Carried(g, ReasonNode(g, s, th, answer).1)
  {
    hide Close;
    assert answer.Some? ==> (answer.value.route.PlanRoute? || answer.value.route.DirectRoute? || answer.value.route.NoopRoute?);
    var ch := ReasonUpdate(th.ch, answer);
    CloseCarried(g, s, th, if answer.Some? then "reason_complete" else "reason_failed", th.ch.cid, ch, RouteAfterReason(ch));
  }

  lemma PlanCarried(g: Gateway.Setup, s: Gateway.Sys, th: Thread)
    requires Carried(g, th) && th.place == Before(MakePlan) && Blank(th.deeds)
    ensures Carried(g, PlanNode(g, s, th).1)
  {
    hide Close, PlannedRequest;
    var ch := th.ch;
    if ch.reasoning.Some? {
      var plan := RoundPlan(ch.session, ch.cid, [PlannedRequest(ch, ch.reasoning.value)]);
      CloseCarried(g, s, th, "plan_created", ch.cid, ch.(plan := Some(plan)), Before(PolicyGate));
    }
  }

  lemma GateCarried(g: Gateway.Setup, s: Gateway.Sys, th: Thread, fallback: Option<Risk.Context>, env: Gateway.Env)
    requires Carried(g, th) && th.place == Before(PolicyGate) && Blank(th.deeds) && Actionable(th.ch)
    ensures Carried(g, GateNode(g, s, th, fallback, env).1)
  {
    hide Extract, Evaluate, GateJudged;
    match Extract(th.ch) {
      case Unclear(_) =>
      case Canonical(r) =>
        var (ws, v) := Evaluate(env.rules, g.limits, s.windows, r, RiskOf(th.ch, fallback), env.now);
        JudgedCarried(g, s.(windows := ws), th.(deeds := th.deeds.(judged := th.deeds.judged + [Judgement(r, v)])), r, v, env);
    }
  }

  /** Just evaluated, and nothing else written in this round. */
  predicate AtGate(th: Thread, r: Request, v: Verdict) {
    Untouched(th.deeds) && th.deeds.unreadable.None? && th.deeds.judged == [Judgement(r, v)] && Actionable(th.ch)
    && th.ch.outcome == th.deeds.before.outcome && th.ch.rejectReason == th.deeds.before.rejectReason
    && Unverified(th.ch, th.deeds)
  }

  lemma JudgedCarried(g: Gateway.Setup, s: Gateway.Sys, th: Thread, r: Request, v: Verdict, env: Gateway.Env)
    requires AtGate(th, r, v)
    ensures Carried(g, GateJudged(g, s, th, r, v, env).1)
  {
    hide Close, NodeLog, GateDecided;
    if v.Decided? {
      DecidedCarried(g, NodeLog(g, s, "policy_evaluated", r.cid).0, th, r, v.decision, env);
    } else {
      var ch := RejectUpdate(th.ch, EvaluationFailed(v));
      CloseCarried(g, s, th, "policy_rejected", r.cid, ch, RouteAfterPolicy(ch));
    }
  }

  lemma DecidedCarried(g: Gateway.Setup, s: Gateway.Sys, th: Thread, r: Request, d: Decision, env: Gateway.Env)
    requires AtGate(th, r, Decided(d))
    ensures Carried(g, GateDecided(g, s, th, r, d, env).1)
  {
    hide Close, Digest, RequestApproval;
    var ch := JudgedUpdate(th.ch, r, d);
    match DerivePolicyRoute(d) {
      case Refuse => CloseCarried(g, s, th, "policy_rejected", r.cid, ch, RouteAfterPolicy(ch));
      case Pass =>
      case AskHuman =>
        var asked := s.(approvals := RequestApproval(g.binding, g.ttl, s.approvals, env.freshId, r, d.tier, env.now));
        var ch' := ch.(approvalId := Some(env.freshId), digest := Some(Digest(g.binding, r)), needsReview := true);
        CloseCarried(g, asked, th.(deeds := th.deeds.(asked := Some(env.freshId))), "needs_approval", r.cid, ch', RouteAfterPolicy(ch'));
    }
  }

  /** Decided by the gate, and the gateway has not answered yet. */
  predicate Judging(th: Thread) {
    th.deeds.judged != [] && Actionable(th.ch) && th.deeds.reply.None? && Told(th.ch, th.deeds) && Unverified(th.ch, th.deeds)
  }

  lemma RefusedCarried(g: Gateway.Setup, s: Gateway.Sys, th: Thread, kind: string)
    requires Judging(th) && th.deeds.called == []
    ensures Carried(g, ReviewRefused(g, s, th, kind).1)
  {
    hide Close;
    CloseCarried(g, s, th, kind, th.ch.cid, RefuseUpdate(th.ch), RouteAfterHumanReview(RefuseUpdate(th.ch)));
  }

  lemma ReviewCarried(g: Gateway.Setup, s: Gateway.Sys, th: Thread, approve: bool, fallback: Option<Risk.Context>, env: Gateway.Env)
    requires Judging(th) && th.deeds.called == []
    ensures Carried(g, ReviewNode(g, s, th, approve, fallback, env).1)
  {
    hide Evaluate, ReviewJudged, ReviewRefused;
    RefusedCarried(g, s, th, "approval_rejected");
    if th.ch.request.Some? {
      var r := th.ch.request.value;
      var (ws, v) := Evaluate(env.rules, g.limits, s.windows, r, RiskOf(th.ch, fallback), env.now);
      ReviewJudgedCarried(g, s.(windows := ws), th.(deeds := th.deeds.(judged := th.deeds.judged + [Judgement(r, v)])), r, v, env);
    }
  }

  lemma ReviewJudgedCarried(g: Gateway.Setup, s: Gateway.Sys, th: Thread, r: Request, v: Verdict, env: Gateway.Env)
    requires Judging(th) && th.deeds.called == []
    ensures Carried(g, ReviewJudged(g, s, th, r, v, env).1)
  {
    hide Close, ReviewRefused, CheckConsume, Consume;
    RefusedCarried(g, s, th, "approval_rejected");
    RefusedCarried(g, s, th, "policy_rejected_after_approval");
    if v.Decided? {
      var id, tier := th.ch.approvalId.GetOr(""), v.decision.tier;
      var used := s.(approvals := Consume(g.binding, s.approvals, id, r, tier, env.now));
      CloseCarried(g, used, th.(deeds := th.deeds.(spent := th.deeds.spent + [Spending(id, r, tier)])), "approval_consumed",
                   th.ch.cid, PassUpdate(th.ch), RouteAfterHumanReview(PassUpdate(th.ch)));
    }
  }

  lemma AfterGatewayCarried(g: Gateway.Setup, s: Gateway.Sys, th: Thread, r: Request, reply: Gateway.Reply)
    requires Judging(th) && th.ch.policyRoute == Some(Pass)
    ensures Carried(g, AfterGateway(g, s, th, r, reply).1)
  {
    hide Close;
    CloseCarried(g, s, th.(deeds := th.deeds.(reply := Some(reply))), "execution_result", r.cid,
                 th.ch.(outcome := Some(Replied(reply))), Before(Verify));
  }

  lemma ExecuteCarried(g: Gateway.Setup, s: Gateway.Sys, th: Thread, env: Gateway.Env)
    requires Judging(th) && th.ch.policyRoute == Some(Pass) && th.ch.request.Some? && th.ch.decision.Some?
    ensures Carried(g, ExecuteNode(g, s, th, env).1)
  {
    hide Gateway.ExecutePreauthorized, AfterGateway;
    var r, d := th.ch.request.value, th.ch.decision.value;
    var (s1, reply) := Gateway.ExecutePreauthorized(g, s, r, d, env);
    AfterGatewayCarried(g, s1, th.(deeds := th.deeds.(called := th.deeds.called + [GatewayCall(r, d)])), r, reply);
  }

  /** From the gate's decision on, until the gateway answers, a staged round is judging. */
  lemma StagedJudging(g: Gateway.Setup, a: Approvals, th: Thread)
    requires Carried(g, th) && Staged(a, th)
    requires th.place.Paused? || th.place.Awaiting? || th.place == Before(HumanReview) || th.place == Before(Execute)
    ensures Judging(th)
    ensures th.place.Paused? ==> th.deeds.called == []
    ensures th.place.Awaiting? || th.place == Before(Execute) ==> th.ch.policyRoute == Some(Pass)
    ensures th.place == Before(Execute) ==> th.ch.request.Some? && th.ch.decision.Some?
  {
    hide Completed;
  }

  /** Answered by the gateway: what remains reads the reply. */
  predicate Closing(th: Thread) {
    th.deeds.reply.Some? && Told(th.ch, th.deeds) && Gated(th.deeds) && Actionable(th.ch) && th.ch.policyRoute == Some(Pass)
  }

  lemma VerifyCarried(g: Gateway.Setup, s: Gateway.Sys, th: Thread)
    requires Closing(th)
    ensures Carried(g, VerifyNode(g, s, th).1)
  {
    hide Close, Completed, LevelIn;
    CloseCarried(g, s, th, "verification_result", th.ch.cid, VerifyUpdate(th.ch), RouteAfterVerify(VerifyUpdate(th.ch)));
  }

  lemma EndCarried(g: Gateway.Setup, s: Gateway.Sys, memory: seq<MemoryEvent>, th: Thread, storeFails: bool)
    requires Closing(th) && VerificationFits(Ended, th.ch, th.deeds)
    ensures Carried(g, MemoryNode(g, s, memory, th, storeFails).thread)
    ensures Carried(g, Close(g, s, th, "compensated", th.ch.cid, th.ch, Ended).1)
  {
    hide Close, Completed, LevelIn;
    CloseCarried(g, s, th, "memory_skipped", th.ch.cid, th.ch, Ended);
    CloseCarried(g, s, th.(deeds := th.deeds.(events := th.deeds.events + 1)), "memory_updated", th.ch.cid, th.ch, Ended);
    CloseCarried(g, s, th, "compensated", th.ch.cid, th.ch, Ended);
  }

  lemma StagedClosing(g: Gateway.Setup, a: Approvals, th: Thread)
    requires Carried(g, th) && Staged(a, th)
    requires th.place.Before? && th.place.node in {Node.Verify, Node.MemoryUpdate, Node.Compensate}
    ensures Closing(th) && (!th.place.node.Verify? ==> VerificationFits(Ended, th.ch, th.deeds))
  {
    hide Completed, LevelIn;
  }

  lemma HeadCarried(g: Gateway.Setup, s: Gateway.Sys, th: Thread, fallback: Option<Risk.Context>, o: Outside)
    requires Carried(g, th) && Staged(s.approvals, th)
    requires th.place.Before? && th.place.node in {Node.Perceive, Node.Recall, Node.Reason, Node.MakePlan, Node.PolicyGate, Node.Escalate}
    ensures Carried(g, RunPlainNode(g, s, th, fallback, o).1)
  {
    hide Close, GateNode, ReasonNode, PlanNode;
    match th.place.node {
      case Perceive => CloseCarried(g, s, th, "perceive_complete", th.ch.cid, th.ch, Before(Recall));
      case Recall => CloseCarried(g, s, th, "recall_complete", th.ch.cid, th.ch, Before(Reason));
      case Reason => ReasonCarried(g, s, th, o.reasoning);
      case MakePlan => PlanCarried(g, s, th);
      case PolicyGate => GateCarried(g, s, th, fallback, o.env);
      case Escalate => CloseCarried(g, s, th, "escalated", th.ch.cid, th.ch, Ended);
    }
  }

  lemma NodeCarried(g: Gateway.Setup, s: Gateway.Sys, memory: seq<MemoryEvent>, th: Thread, fallback: Option<Risk.Context>, o: Outside)
    requires Carried(g, th) && Staged(s.approvals, th) && th.place.Before?
    ensures Carried(g, RunNode(g, s, memory, th, fallback, o).thread)
  {
    hide Staged, MemoryNode, ExecuteNode, VerifyNode, Close, GateNode, ReasonNode, PlanNode;
    match th.place.node {
      case HumanReview =>
      case Execute => StagedJudging(g, s.approvals, th); hide Fits; ExecuteCarried(g, s, th, o.env);
      case Verify => StagedClosing(g, s.approvals, th); hide Fits; VerifyCarried(g, s, th);
      case MemoryUpdate => StagedClosing(g, s.approvals, th); hide Fits; EndCarried(g, s, memory, th, o.storeFails);
      case Compensate => StagedClosing(g, s.approvals, th); hide Fits; EndCarried(g, s, memory, th, o.storeFails);
      case _ => hide Fits, RunPlainNode; HeadCarried(g, s, th, fallback, o);
    }
  }

  // ---------------------------------------------------------------- worlds

  lemma SetCarried(g: Gateway.Setup, w: World, w': World, session: string, th: Thread)
    requires Leftover(g, w) && Carried(g, th) && w'.threads == w.threads[session := th] && w'.reports == w.reports
    ensures Leftover(g, w')
  {
    hide Carried, ReportFits;
  }

  lemma CarriedAt(g: Gateway.Setup, w: World, session: string)
    requires Leftover(g, w)
    ensures Carried(g, ThreadOf(w, session))
  {
    hide ReportFits, RouteFits;
  }

  lemma FinalFits(g: Gateway.Setup, a: Approvals, session: string, th: Thread)
    requires Carried(g, th) && Staged(a, th) && th.place.Ended?
    ensures ReportFits(g, FinalReport(session, th))
  {
    assert th.ch.route.Some? && (th.ch.route.value.PlanRoute? || th.ch.route.value.DirectRoute? || th.ch.route.value.NoopRoute?);
    hide LevelIn, Authorised;
  }

  lemma AskingFits(g: Gateway.Setup, a: Approvals, session: string, th: Thread)
    requires Carried(g, th) && Staged(a, th) && th.place.Paused?
    ensures ReportFits(g, AskingReport(session, th))
  {
    hide FinalStatus, Digest;
  }

  lemma FitAppend(g: Gateway.Setup, reports: seq<Report>, r: Report)
    requires AllFit(g, reports) && ReportFits(g, r)
    ensures AllFit(g, reports + [r])
  {
    hide ReportFits;
  }

  lemma SettleLeftover(g: Gateway.Setup, w: World, session: string, t: Turn)
    requires Leftover(g, w) && Carried(g, t.thread)
    ensures Leftover(g, Settle(w, session, t))
  {
    hide Leftover, Carried, GotCompleted;
    SetCarried(g, w, Settle(w, session, t), session, t.thread);
  }

  lemma SuspendedLeftover(g: Gateway.Setup, w: World, session: string)
    requires Leftover(g, w) && Staged(w.sys.approvals, ThreadOf(w, session))
    ensures Leftover(g, Suspended(w, session))
  {
    CarriedAt(g, w, session);
    hide AllCarried, AllFit, Carried, Staged;
    var th := ThreadOf(w, session);
    if th.place.Paused? {
      AskingFits(g, w.sys.approvals, session, th);
      FitAppend(g, w.reports, AskingReport(session, th));
    }
  }

  lemma StartLeftover(g: Gateway.Setup, w: World, session: string, cid: string, intent: Intent, risk: Risk.Context, env: Gateway.Env)
    requires Leftover(g, w)
    ensures Leftover(g, StartRound(g, w, session, cid, intent, risk, env))
  {
    hide AllCarried, AllFit, NodeLog;
    var ch := ThreadOf(w, session).ch;
    var th := Thread(StartChannels(ch, session, cid, intent, risk), Before(Perceive), false, NoDeeds(ch));
    var w' := StartRound(g, w, session, cid, intent, risk, env);
    if w'.threads != w.threads { SetCarried(g, w, w', session, th); }
  }

  lemma FinishLeftover(g: Gateway.Setup, w: World, session: string, env: Gateway.Env)
    requires Leftover(g, w) && ThreadOf(w, session).place.Ended? && Staged(w.sys.approvals, ThreadOf(w, session))
    ensures Leftover(g, Finalize(g, w, session, env))
  {
    CarriedAt(g, w, session);
    hide AllFit, NodeLog, FinalReport, Staged, Carried, ReportFits;
    var th := ThreadOf(w, session);
    FinalFits(g, w.sys.approvals, session, th);
    FitAppend(g, w.reports, FinalReport(session, th));
    FreeCarried(g, Stop(th));
    FreeCarried(g, th.(place := Idle));
  }

  lemma FreeCarried(g: Gateway.Setup, th: Thread)
    requires th.place.Idle? || th.place.Crashed?
    ensures Carried(g, th)
  {
  }

  lemma TakeUpLeftover(g: Gateway.Setup, fallback: Option<Risk.Context>, w: World, session: string, approve: bool, env: Gateway.Env)
    requires Leftover(g, w) && Enabled(w, ResumeRound(session, approve, env)) && Staged(w.sys.approvals, ThreadOf(w, session))
    ensures Leftover(g, TakeUp(g, fallback, w, session, approve, env))
  {
    CarriedAt(g, w, session);
    hide AllCarried, AllFit, Carried, Staged, Settle, ReviewNode, Judging;
    match ResumeStatus(w, session) {
      case Some(status) =>
        FitAppend(g, w.reports, TableReport(w, session, status));
      case None =>
        var th := ThreadOf(w, session);
        StagedJudging(g, w.sys.approvals, th);
        JudgingResumed(th, approve);
        ReviewCarried(g, Gateway.Enter(w.sys, env), Resuming(th, approve), approve, fallback, env);
        var (s, th') := ReviewNode(g, Gateway.Enter(w.sys, env), Resuming(th, approve), approve, fallback, env);
        SettleLeftover(g, w, session, Turn(s, w.memory, th'));
    }
  }

  lemma JudgingResumed(th: Thread, approve: bool)
    requires Judging(th)
    ensures Judging(Resuming(th, approve))
  {
  }

  lemma AnswerLeftover(g: Gateway.Setup, fallback: Option<Risk.Context>, w: World, a: Action)
    requires Leftover(g, w) && a.AdapterAnswers? && Enabled(w, a) && Staged(w.sys.approvals, ThreadOf(w, a.session))
    ensures Leftover(g, Perform(g, fallback, w, a))
  {
    CarriedAt(g, w, a.session);
    hide Leftover, Carried, Staged, Settle, AfterGateway, Gateway.Resume, Judging;
    var th := ThreadOf(w, a.session);
    StagedJudging(g, w.sys.approvals, th);
    var s := Gateway.Enter(w.sys, a.env);
    var (s1, reply) := Gateway.Resume(g, s, th.place.token, a.answer);
    var r := s.parked[th.place.token].request;
    AfterGatewayCarried(g, s1, th, r, reply);
    var (s', th') := AfterGateway(g, s1, th, r, reply);
    SettleLeftover(g, w, a.session, Turn(s', w.memory, th'));
  }

  lemma TurnLeftover(g: Gateway.Setup, fallback: Option<Risk.Context>, w: World, session: string, o: Outside)
    requires Sound(g, w) && Leftover(g, w) && Enabled(w, NextNode(session, o))
    ensures Leftover(g, Perform(g, fallback, w, NextNode(session, o)))
  {
    CarriedAt(g, w, session);
    StagedAt(g, w, session);
    hide Safe, AllStaged, AllHonest, Leftover, Carried, Staged, Settle, Suspended, RunNode;
    EnterSame(g, w.sys, o.env);
    var s := Gateway.Enter(w.sys, o.env);
    NodeCarried(g, s, w.memory, ThreadOf(w, session), fallback, o);
    RunNodeStaged(g, s, w.memory, ThreadOf(w, session), fallback, o);
    var t := RunNode(g, s, w.memory, ThreadOf(w, session), fallback, o);
    SettleLeftover(g, w, session, t);
    SettleSound(g, w, session, t);
    StagedAt(g, Settle(w, session, t), session);
    SuspendedLeftover(g, Settle(w, session, t), session);
  }

  lemma StepLeftover(g: Gateway.Setup, fallback: Option<Risk.Context>, w: World, a: Action)
    requires Sound(g, w) && Leftover(g, w) && Enabled(w, a)
    ensures Leftover(g, Perform(g, fallback, w, a))
  {
    if !a.Other? { StagedAt(g, w, a.session); }
    hide Sound, AllCarried, AllFit, Staged, StartRound, RunNode, WakeNode, TakeUp, Finalize, Settle, Suspended, Gateway.Perform, ResumeStatus;
    match a {
      case BeginRound(session, cid, intent, risk, env) => StartLeftover(g, w, session, cid, intent, risk, env);
      case NextNode(session, o) => TurnLeftover(g, fallback, w, session, o);
      case AdapterAnswers(_, _, _) => AnswerLeftover(g, fallback, w, a);
      case ResumeRound(session, approve, env) => TakeUpLeftover(g, fallback, w, session, approve, env);
      case FinishRound(session, env) => FinishLeftover(g, w, session, env);
      case Cancel(_) =>
      case Other(_) =>
    }
  }

  lemma {:induction false} RunLeftover(g: Gateway.Setup, fallback: Option<Risk.Context>, w: World, actions: seq<Action>)
    requires Sound(g, w) && Leftover(g, w) && Schedule(g, fallback, w, actions)
    ensures Leftover(g, Play(g, fallback, w, actions))
    decreases |actions|
  {
    hide Sound, Leftover, Perform, Enabled;
    if actions != [] {
      StepSound(g, fallback, w, actions[0]);
      StepLeftover(g, fallback, w, actions[0]);
      RunLeftover(g, fallback, Perform(g, fallback, w, actions[0]), actions[1..]);
    }
  }

  lemma NewWorldLeftover(g: Gateway.Setup, audit: Store)
    ensures Leftover(g, NewWorld(audit))
  {
  }

  // ---------------------------------------------------------------- main result

  /** What a result is about, exactly, by its status: see `ReportFits`.  `capabilities` and the
      verification in its evidence are this round's if and only if the status says that the
      simulation completed or that verification failed, and otherwise whatever the channels
      held before the round; the policy route is this round's unless there was nothing to do
      or reasoning failed; the reason of a rejection is the one the gate gave in this round
      when it could read no request or the evaluation failed, and otherwise the one an
      earlier round left. */
  lemma ReportsCarryOver(g: Gateway.Setup, fallback: Option<Risk.Context>, audit: Store, actions: seq<Action>, i: nat)
    requires Schedule(g, fallback, NewWorld(audit), actions)
    requires i < |Play(g, fallback, NewWorld(audit), actions).reports|
    ensures ReportFits(g, Play(g, fallback, NewWorld(audit), actions).reports[i])
  {
    NewWorldSound(g, audit);
    hide Play, Schedule, Sound, AllCarried, ReportFits;
    NewWorldLeftover(g, audit);
    RunLeftover(g, fallback, NewWorld(audit), actions);
  }
}
