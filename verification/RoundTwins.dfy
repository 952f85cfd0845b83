/**
 What earlier rounds left in the channels does not matter: two worlds that differ only
 there do exactly the same under the same actions, and report the same statuses.
 */
module RoundTwins {
  import opened Prelude
  import opened Capability
  import opened Policy
  import opened Execution
  import opened Approval
  import opened AuditLog
  import Gateway
  import opened Rounds
  import Risk

  // ---------------------------------------------------------------- agreeing on what is live

  predicate SameInputs(a: Channels, b: Channels) {
    a.intent == b.intent && a.session == b.session && a.cid == b.cid && a.risk == b.risk
  }

  predicate SameReasoning(a: Channels, b: Channels) {
    a.reasoning == b.reasoning && a.route == b.route && a.reasoningFailed == b.reasoningFailed && a.plan == b.plan
  }

  predicate SameGate(a: Channels, b: Channels) {
    a.request == b.request && a.decision == b.decision && a.policyRoute == b.policyRoute && a.approvalId == b.approvalId
  }

  predicate SameRound(a: Channels, b: Channels) { SameInputs(a, b) && SameReasoning(a, b) && SameGate(a, b) }

  /** The channels agree on everything this round has written by the time it is at `p`. */
  predicate Agree(p: Place, a: Channels, b: Channels) {
    match p
    case Idle => true
    case Crashed => true
    case Paused => SameRound(a, b)
    case Awaiting(_) => SameRound(a, b)
    case Ended => a.session == b.session && a.cid == b.cid && FinalStatus(a) == FinalStatus(b)
    case Before(node) => AgreeBefore(node, a, b)
  }

  predicate AgreeBefore(node: Node, a: Channels, b: Channels) {
    match node
    case Perceive => SameInputs(a, b)
    case Recall => SameInputs(a, b)
    case Reason => SameInputs(a, b)
    case MakePlan => SameInputs(a, b) && SameReasoning(a, b)
    case PolicyGate => SameInputs(a, b) && SameReasoning(a, b)
    case HumanReview => SameRound(a, b)
    case Execute => SameRound(a, b)
    case Escalate => SameRound(a, b) && FinalStatus(a) == FinalStatus(b)
    case Verify => SameRound(a, b) && a.outcome == b.outcome
    case MemoryUpdate => SameEnd(a, b)
    case Compensate => SameEnd(a, b)
  }

  predicate SameEnd(a: Channels, b: Channels) {
    SameRound(a, b) && a.outcome == b.outcome && a.verification == b.verification && a.satisfied == b.satisfied
  }

  predicate SameDeeds(d: Deeds, e: Deeds) { d.(before := e.before) == e }

  predicate Twins(t: Thread, u: Thread) {
    t.place == u.place
    && (t.place.Idle? || t.place.Crashed?
        || (t.resumed == u.resumed && SameDeeds(t.deeds, u.deeds) && Agree(t.place, t.ch, u.ch)))
  }

  predicate SameReport(r: Report, q: Report) {
    r.session == q.session && r.cid == q.cid && r.status == q.status && SameDeeds(r.deeds, q.deeds)
  }

  predicate SameReports(rs: seq<Report>, qs: seq<Report>) {
    |rs| == |qs| && forall i | 0 <= i < |rs| :: SameReport(rs[i], qs[i])
  }

  ghost predicate AllTwins(w: World, v: World) { forall s: string :: Twins(ThreadOf(w, s), ThreadOf(v, s)) }

  /** The worlds differ only in what rounds that are over have left in the channels. */
  ghost predicate TwinWorlds(w: World, v: World) {
    v == w.(threads := v.threads, reports := v.reports) && AllTwins(w, v) && SameReports(w.reports, v.reports)
  }

  // ---------------------------------------------------------------- nodes

  predicate SameTurn(x: (Gateway.Sys, Thread), y: (Gateway.Sys, Thread)) {
    x.0 == y.0 && Twins(x.1, y.1) && SameDeeds(x.1.deeds, y.1.deeds)
  }

  predicate Level(t: Thread, u: Thread) { t.resumed == u.resumed && SameDeeds(t.deeds, u.deeds) }

  lemma CloseTwins(g: Gateway.Setup, s: Gateway.Sys, t: Thread, u: Thread, kind: string, cid: string, a: Channels, b: Channels, next: Place)
    requires Level(t, u) && Agree(next, a, b)
    ensures SameTurn(Close(g, s, t, kind, cid, a, next), Close(g, s, u, kind, cid, b, next))
  {
    hide NodeLog, Agree;
  }

  lemma ReasonTwins(g: Gateway.Setup, s: Gateway.Sys, t: Thread, u: Thread, answer: Option<Reasoning>)
    requires Level(t, u) && SameInputs(t.ch, u.ch)
    ensures SameTurn(ReasonNode(g, s, t, answer), ReasonNode(g, s, u, answer))
  {
    hide Close, SameTurn;
    assert answer.Some? ==> (answer.value.route.PlanRoute? || answer.value.route.DirectRoute? || answer.value.route.NoopRoute?);
    var a, b := ReasonUpdate(t.ch, answer), ReasonUpdate(u.ch, answer);
    CloseTwins(g, s, t, u, if answer.Some? then "reason_complete" else "reason_failed", t.ch.cid, a, b, RouteAfterReason(a));
  }

  lemma PlanTwins(g: Gateway.Setup, s: Gateway.Sys, t: Thread, u: Thread)
    requires Level(t, u) && SameInputs(t.ch, u.ch) && SameReasoning(t.ch, u.ch)
    ensures SameTurn(PlanNode(g, s, t), PlanNode(g, s, u))
  {
    hide Close;
    if t.ch.reasoning.Some? {
      var d := t.ch.reasoning.value;
      assert PlannedRequest(t.ch, d) == PlannedRequest(u.ch, d);
      var plan := RoundPlan(t.ch.session, t.ch.cid, [PlannedRequest(t.ch, d)]);
      hide PlannedRequest;
      CloseTwins(g, s, t, u, "plan_created", t.ch.cid, t.ch.(plan := Some(plan)), u.ch.(plan := Some(plan)), Before(PolicyGate));
    }
  }

  lemma ExtractTwins(a: Channels, b: Channels)
    requires SameInputs(a, b) && SameReasoning(a, b)
    ensures Extract(a) == Extract(b)
  {
    hide OrText;
  }

  lemma GateTwins(g: Gateway.Setup, s: Gateway.Sys, t: Thread, u: Thread, fallback: Option<Risk.Context>, env: Gateway.Env)
    requires Level(t, u) && SameInputs(t.ch, u.ch) && SameReasoning(t.ch, u.ch)
    ensures SameTurn(GateNode(g, s, t, fallback, env), GateNode(g, s, u, fallback, env))
  {
    hide Extract, Evaluate, GateJudged;
    ExtractTwins(t.ch, u.ch);
    match Extract(t.ch) {
      case Unclear(_) =>
      case Canonical(r) =>
        var (ws, v) := Evaluate(env.rules, g.limits, s.windows, r, RiskOf(t.ch, fallback), env.now);
        JudgedTwins(g, s.(windows := ws), t.(deeds := t.deeds.(judged := t.deeds.judged + [Judgement(r, v)])),
                    u.(deeds := u.deeds.(judged := u.deeds.judged + [Judgement(r, v)])), r, v, env);
    }
  }

  lemma JudgedTwins(g: Gateway.Setup, s: Gateway.Sys, t: Thread, u: Thread, r: Request, v: Verdict, env: Gateway.Env)
    requires Level(t, u) && SameInputs(t.ch, u.ch) && SameReasoning(t.ch, u.ch)
    ensures SameTurn(GateJudged(g, s, t, r, v, env), GateJudged(g, s, u, r, v, env))
  {
    hide Close, NodeLog, GateDecided;
    if v.Decided? {
      DecidedTwins(g, NodeLog(g, s, "policy_evaluated", r.cid).0, t, u, r, v.decision, env);
    } else {
      var a, b := RejectUpdate(t.ch, EvaluationFailed(v)), RejectUpdate(u.ch, EvaluationFailed(v));
      CloseTwins(g, s, t, u, "policy_rejected", r.cid, a, b, RouteAfterPolicy(a));
    }
  }

  lemma DecidedTwins(g: Gateway.Setup, s: Gateway.Sys, t: Thread, u: Thread, r: Request, d: Decision, env: Gateway.Env)
    requires Level(t, u) && SameInputs(t.ch, u.ch) && SameReasoning(t.ch, u.ch)
    ensures SameTurn(GateDecided(g, s, t, r, d, env), GateDecided(g, s, u, r, d, env))
  {
    hide Close, Digest, RequestApproval;
    var a, b := JudgedUpdate(t.ch, r, d), JudgedUpdate(u.ch, r, d);
    match DerivePolicyRoute(d) {
      case Refuse => CloseTwins(g, s, t, u, "policy_rejected", r.cid, a, b, RouteAfterPolicy(a));
      case Pass =>
      case AskHuman =>
        var asked := s.(approvals := RequestApproval(g.binding, g.ttl, s.approvals, env.freshId, r, d.tier, env.now));
        var a' := a.(approvalId := Some(env.freshId), digest := Some(Digest(g.binding, r)), needsReview := true);
        var b' := b.(approvalId := Some(env.freshId), digest := Some(Digest(g.binding, r)), needsReview := true);
        CloseTwins(g, asked, t.(deeds := t.deeds.(asked := Some(env.freshId))), u.(deeds := u.deeds.(asked := Some(env.freshId))),
                   "needs_approval", r.cid, a', b', RouteAfterPolicy(a'));
    }
  }

  lemma RefusedTwins(g: Gateway.Setup, s: Gateway.Sys, t: Thread, u: Thread, kind: string)
    requires Level(t, u) && SameRound(t.ch, u.ch)
    ensures SameTurn(ReviewRefused(g, s, t, kind), ReviewRefused(g, s, u, kind))
  {
    hide Close;
    CloseTwins(g, s, t, u, kind, t.ch.cid, RefuseUpdate(t.ch), RefuseUpdate(u.ch), RouteAfterHumanReview(RefuseUpdate(t.ch)));
  }

  lemma ReviewTwins(g: Gateway.Setup, s: Gateway.Sys, t: Thread, u: Thread, approve: bool, fallback: Option<Risk.Context>, env: Gateway.Env)
    requires Level(t, u) && SameRound(t.ch, u.ch)
    ensures SameTurn(ReviewNode(g, s, t, approve, fallback, env), ReviewNode(g, s, u, approve, fallback, env))
  {
    hide Evaluate, ReviewJudged, ReviewRefused, SameTurn;
    if !approve || t.ch.request.None? {
      RefusedTwins(g, s, t, u, "approval_rejected");
    } else {
      var r := t.ch.request.value;
      var (ws, v) := Evaluate(env.rules, g.limits, s.windows, r, RiskOf(t.ch, fallback), env.now);
      ReviewJudgedTwins(g, s.(windows := ws), t.(deeds := t.deeds.(judged := t.deeds.judged + [Judgement(r, v)])),
                        u.(deeds := u.deeds.(judged := u.deeds.judged + [Judgement(r, v)])), r, v, env);
    }
  }

  lemma ReviewJudgedTwins(g: Gateway.Setup, s: Gateway.Sys, t: Thread, u: Thread, r: Request, v: Verdict, env: Gateway.Env)
    requires Level(t, u) && SameRound(t.ch, u.ch)
    ensures SameTurn(ReviewJudged(g, s, t, r, v, env), ReviewJudged(g, s, u, r, v, env))
  {
    hide Close, ReviewRefused, CheckConsume, Consume, SameTurn;
    RefusedTwins(g, s, t, u, "approval_rejected");
    RefusedTwins(g, s, t, u, "policy_rejected_after_approval");
    if v.Decided? && v.decision.allowed {
      var id, tier := t.ch.approvalId.GetOr(""), v.decision.tier;
      var used := s.(approvals := Consume(g.binding, s.approvals, id, r, tier, env.now));
      CloseTwins(g, used, t.(deeds := t.deeds.(spent := t.deeds.spent + [Spending(id, r, tier)])),
                 u.(deeds := u.deeds.(spent := u.deeds.spent + [Spending(id, r, tier)])), "approval_consumed", t.ch.cid,
                 PassUpdate(t.ch), PassUpdate(u.ch), RouteAfterHumanReview(PassUpdate(t.ch)));
    }
  }

  lemma AfterGatewayTwins(g: Gateway.Setup, s: Gateway.Sys, t: Thread, u: Thread, r: Request, reply: Gateway.Reply)
    requires Level(t, u) && SameRound(t.ch, u.ch)
    ensures SameTurn(AfterGateway(g, s, t, r, reply), AfterGateway(g, s, u, r, reply))
  {
    hide Close;
    CloseTwins(g, s, t.(deeds := t.deeds.(reply := Some(reply))), u.(deeds := u.deeds.(reply := Some(reply))),
               "execution_result", r.cid, t.ch.(outcome := Some(Replied(reply))), u.ch.(outcome := Some(Replied(reply))),
               Before(Verify));
  }

  lemma ExecuteTwins(g: Gateway.Setup, s: Gateway.Sys, t: Thread, u: Thread, env: Gateway.Env)
    requires Level(t, u) && SameRound(t.ch, u.ch)
    ensures SameTurn(ExecuteNode(g, s, t, env), ExecuteNode(g, s, u, env))
  {
    hide Close, Gateway.ExecutePreauthorized, AfterGateway, SameTurn;
    if t.ch.request.None? || t.ch.decision.None? {
      CloseTwins(g, s, t, u, "execution_result", t.ch.cid, t.ch.(outcome := Some(MissingInputs)),
                 u.ch.(outcome := Some(MissingInputs)), Before(Verify));
    } else {
      var r, d := t.ch.request.value, t.ch.decision.value;
      var (s1, reply) := Gateway.ExecutePreauthorized(g, s, r, d, env);
      AfterGatewayTwins(g, s1, t.(deeds := t.deeds.(called := t.deeds.called + [GatewayCall(r, d)])),
                        u.(deeds := u.deeds.(called := u.deeds.called + [GatewayCall(r, d)])), r, reply);
    }
  }

  lemma WakeTwins(g: Gateway.Setup, s: Gateway.Sys, t: Thread, u: Thread, answer: Option<Evidence>)
    requires Twins(t, u) && t.place.Awaiting? && t.place.token in s.parked
    ensures SameTurn(WakeNode(g, s, t, answer), WakeNode(g, s, u, answer))
  {
    hide Gateway.Resume, AfterGateway, SameTurn, SameRound;
    var (s1, reply) := Gateway.Resume(g, s, t.place.token, answer);
    AfterGatewayTwins(g, s1, t, u, s.parked[t.place.token].request, reply);
  }

  lemma VerifyTwins(g: Gateway.Setup, s: Gateway.Sys, t: Thread, u: Thread)
    requires Level(t, u) && SameRound(t.ch, u.ch) && t.ch.outcome == u.ch.outcome
    ensures SameTurn(VerifyNode(g, s, t), VerifyNode(g, s, u))
  {
    hide Close, Completed, LevelIn;
    CloseTwins(g, s, t, u, "verification_result", t.ch.cid, VerifyUpdate(t.ch), VerifyUpdate(u.ch), RouteAfterVerify(VerifyUpdate(t.ch)));
  }

  lemma MemoryTwins(g: Gateway.Setup, s: Gateway.Sys, memory: seq<MemoryEvent>, t: Thread, u: Thread, storeFails: bool)
    requires Level(t, u) && SameEnd(t.ch, u.ch)
    ensures var x, y := MemoryNode(g, s, memory, t, storeFails), MemoryNode(g, s, memory, u, storeFails);
      x.memory == y.memory && SameTurn((x.sys, x.thread), (y.sys, y.thread))
  {
    hide Close, Completed;
    CloseTwins(g, s, t, u, "memory_skipped", t.ch.cid, t.ch, u.ch, Ended);
    CloseTwins(g, s, t.(deeds := t.deeds.(events := t.deeds.events + 1)), u.(deeds := u.deeds.(events := u.deeds.events + 1)),
               "memory_updated", t.ch.cid, t.ch, u.ch, Ended);
  }

  lemma PlainTwins(g: Gateway.Setup, s: Gateway.Sys, t: Thread, u: Thread, fallback: Option<Risk.Context>, o: Outside)
    requires Twins(t, u) && t.place.Before? && !t.place.node.MemoryUpdate?
    ensures SameTurn(RunPlainNode(g, s, t, fallback, o), RunPlainNode(g, s, u, fallback, o))
  {
    hide Close, GateNode, ExecuteNode, ReasonNode, PlanNode, VerifyNode, SameDeeds;
    assert Level(t, u);
    match t.place.node {
      case Perceive => CloseTwins(g, s, t, u, "perceive_complete", t.ch.cid, t.ch, u.ch, Before(Recall));
      case Recall => CloseTwins(g, s, t, u, "recall_complete", t.ch.cid, t.ch, u.ch, Before(Reason));
      case Reason => ReasonTwins(g, s, t, u, o.reasoning);
      case MakePlan => PlanTwins(g, s, t, u);
      case PolicyGate => GateTwins(g, s, t, u, fallback, o.env);
      case HumanReview =>
      case Execute => ExecuteTwins(g, s, t, u, o.env);
      case Verify => VerifyTwins(g, s, t, u);
      case Compensate => CloseTwins(g, s, t, u, "compensated", t.ch.cid, t.ch, u.ch, Ended);
      case Escalate => CloseTwins(g, s, t, u, "escalated", t.ch.cid, t.ch, u.ch, Ended);
    }
  }

  lemma NodeTwins(g: Gateway.Setup, s: Gateway.Sys, memory: seq<MemoryEvent>, t: Thread, u: Thread, fallback: Option<Risk.Context>, o: Outside)
    requires Twins(t, u) && t.place.Before?
    ensures SameOutcome(RunNode(g, s, memory, t, fallback, o), RunNode(g, s, memory, u, fallback, o))
  {
    if t.place.node.MemoryUpdate? {
      hide MemoryNode, RunPlainNode;
      MemoryTwins(g, s, memory, t, u, o.storeFails);
    } else {
      hide MemoryNode, RunPlainNode, Agree, SameDeeds;
      PlainTwins(g, s, t, u, fallback, o);
    }
  }

  // ---------------------------------------------------------------- worlds

  predicate SameOutcome(x: Turn, y: Turn) {
    x.sys == y.sys && x.memory == y.memory && Twins(x.thread, y.thread) && SameDeeds(x.thread.deeds, y.thread.deeds)
  }

  lemma TwinsAt(w: World, v: World, session: string)
    requires TwinWorlds(w, v)
    ensures Twins(ThreadOf(w, session), ThreadOf(v, session))
  {
    hide Twins, SameReports;
  }

  lemma SetTwins(w: World, v: World, w': World, v': World, session: string, t: Thread, u: Thread)
    requires AllTwins(w, v) && Twins(t, u) && w'.threads == w.threads[session := t] && v'.threads == v.threads[session := u]
    ensures AllTwins(w', v')
  {
    hide Twins;
    forall s: string ensures Twins(ThreadOf(w', s), ThreadOf(v', s)) {
      assert Twins(ThreadOf(w, s), ThreadOf(v, s));
    }
  }

  lemma ReportTwins(rs: seq<Report>, qs: seq<Report>, r: Report, q: Report)
    requires SameReports(rs, qs) && SameReport(r, q)
    ensures SameReports(rs + [r], qs + [q])
  {
    hide SameReport;
  }

  lemma SettleTwins(w: World, v: World, session: string, x: Turn, y: Turn)
    requires TwinWorlds(w, v) && SameOutcome(x, y) && SameDeeds(ThreadOf(w, session).deeds, ThreadOf(v, session).deeds)
    ensures TwinWorlds(Settle(w, session, x), Settle(v, session, y))
  {
    hide AllTwins, SameReports, Completed, Agree;
    SetTwins(w, v, Settle(w, session, x), Settle(v, session, y), session, x.thread, y.thread);
  }

  lemma SuspendedTwins(w: World, v: World, session: string)
    requires TwinWorlds(w, v)
    ensures TwinWorlds(Suspended(w, session), Suspended(v, session))
  {
    TwinsAt(w, v, session);
    hide AllTwins, SameReports;
    var t, u := ThreadOf(w, session), ThreadOf(v, session);
    if t.place.Paused? {
      ReportTwins(w.reports, v.reports, AskingReport(session, t), AskingReport(session, u));
      StillTwins(w, v, Suspended(w, session), Suspended(v, session));
    }
  }

  lemma StillTwins(w: World, v: World, w': World, v': World)
    requires AllTwins(w, v) && w'.threads == w.threads && v'.threads == v.threads
    ensures AllTwins(w', v')
  {
    hide Twins;
    forall s: string ensures Twins(ThreadOf(w', s), ThreadOf(v', s)) { assert Twins(ThreadOf(w, s), ThreadOf(v, s)); }
  }

  lemma StartTwins(g: Gateway.Setup, w: World, v: World, session: string, cid: string, intent: Intent, risk: Risk.Context, env: Gateway.Env)
    requires TwinWorlds(w, v)
    ensures TwinWorlds(StartRound(g, w, session, cid, intent, risk, env), StartRound(g, v, session, cid, intent, risk, env))
  {
    hide AllTwins, SameReports, NodeLog;
    var w', v' := StartRound(g, w, session, cid, intent, risk, env), StartRound(g, v, session, cid, intent, risk, env);
    StillTwinsIf(w, v, w', v');
    var a, b := ThreadOf(w, session).ch, ThreadOf(v, session).ch;
    var t := Thread(StartChannels(a, session, cid, intent, risk), Before(Perceive), false, NoDeeds(a));
    var u := Thread(StartChannels(b, session, cid, intent, risk), Before(Perceive), false, NoDeeds(b));
    assert Twins(t, u);
    hide Twins;
    if NodeLog(g, Gateway.Enter(w.sys, env), "user_input_received", cid).1 { SetTwins(w, v, w', v', session, t, u); }
  }

  lemma StillTwinsIf(w: World, v: World, w': World, v': World)
    requires AllTwins(w, v)
    ensures w'.threads == w.threads && v'.threads == v.threads ==> AllTwins(w', v')
  {
    hide Twins, AllTwins;
    if w'.threads == w.threads && v'.threads == v.threads { StillTwins(w, v, w', v'); }
  }

  lemma TurnTwins(g: Gateway.Setup, fallback: Option<Risk.Context>, w: World, v: World, session: string, o: Outside)
    requires TwinWorlds(w, v) && Enabled(w, NextNode(session, o)) && Enabled(v, NextNode(session, o))
    ensures TwinWorlds(Perform(g, fallback, w, NextNode(session, o)), Perform(g, fallback, v, NextNode(session, o)))
  {
    TwinsAt(w, v, session);
    hide TwinWorlds, Settle, Suspended, RunNode, SameOutcome, Agree;
    var s, t, u := Gateway.Enter(w.sys, o.env), ThreadOf(w, session), ThreadOf(v, session);
    SameSys(w, v);
    NodeTwins(g, s, w.memory, t, u, fallback, o);
    var x, y := RunNode(g, s, w.memory, t, fallback, o), RunNode(g, s, w.memory, u, fallback, o);
    SettleTwins(w, v, session, x, y);
    SuspendedTwins(Settle(w, session, x), Settle(v, session, y), session);
  }

  lemma SameSys(w: World, v: World)
    requires TwinWorlds(w, v)
    ensures w.sys == v.sys && w.memory == v.memory && w.sessions == v.sessions
  {
  }

  lemma AnswerTwins(g: Gateway.Setup, fallback: Option<Risk.Context>, w: World, v: World, a: Action)
    requires TwinWorlds(w, v) && a.AdapterAnswers? && Enabled(w, a) && Enabled(v, a)
    ensures TwinWorlds(Perform(g, fallback, w, a), Perform(g, fallback, v, a))
  {
    TwinsAt(w, v, a.session);
    SameSys(w, v);
    hide TwinWorlds, Settle, WakeNode, Agree;
    var s, t, u := Gateway.Enter(w.sys, a.env), ThreadOf(w, a.session), ThreadOf(v, a.session);
    WakeTwins(g, s, t, u, a.answer);
    var x, y := WakeNode(g, s, t, a.answer), WakeNode(g, s, u, a.answer);
    SettleTwins(w, v, a.session, Turn(x.0, w.memory, x.1), Turn(y.0, v.memory, y.1));
  }

  lemma ResumeTwins(g: Gateway.Setup, fallback: Option<Risk.Context>, w: World, v: World, session: string, approve: bool, env: Gateway.Env)
    requires TwinWorlds(w, v) && Enabled(w, ResumeRound(session, approve, env)) && Enabled(v, ResumeRound(session, approve, env))
    ensures TwinWorlds(TakeUp(g, fallback, w, session, approve, env), TakeUp(g, fallback, v, session, approve, env))
  {
    TwinsAt(w, v, session);
    SameSys(w, v);
    hide AllTwins, SameReports, Settle, ReviewNode, SameRound;
    match ResumeStatus(w, session) {
      case Some(status) =>
        ReportTwins(w.reports, v.reports, TableReport(w, session, status), TableReport(v, session, status));
        StillTwins(w, v, TakeUp(g, fallback, w, session, approve, env), TakeUp(g, fallback, v, session, approve, env));
      case None =>
        hide TwinWorlds;
        var s, t, u := Gateway.Enter(w.sys, env), ThreadOf(w, session), ThreadOf(v, session);
        ReviewTwins(g, s, Resuming(t, approve), Resuming(u, approve), approve, fallback, env);
        var x := ReviewNode(g, s, Resuming(t, approve), approve, fallback, env);
        var y := ReviewNode(g, s, Resuming(u, approve), approve, fallback, env);
        SettleTwins(w, v, session, Turn(x.0, w.memory, x.1), Turn(y.0, v.memory, y.1));
    }
  }

  lemma FinishTwins(g: Gateway.Setup, w: World, v: World, session: string, env: Gateway.Env)
    requires TwinWorlds(w, v) && ThreadOf(w, session).place.Ended?
    ensures TwinWorlds(Finalize(g, w, session, env), Finalize(g, v, session, env))
  {
    EndedTwins(w, v, session);
    SameSys(w, v);
    hide AllTwins, SameReports, NodeLog, FinalStatus, Twins, SameDeeds;
    var t, u := ThreadOf(w, session), ThreadOf(v, session);
    var w', v' := Finalize(g, w, session, env), Finalize(g, v, session, env);
    if NodeLog(g, Gateway.Enter(w.sys, env), "session_complete", t.ch.cid).1 {
      FinishedTwins(w, v, w', v', session, t.(place := Idle), u.(place := Idle));
      ReportTwins(w.reports, v.reports, FinalReport(session, t), FinalReport(session, u));
    } else {
      FinishedTwins(w, v, w', v', session, Stop(t), Stop(u));
    }
  }

  lemma EndedTwins(w: World, v: World, session: string)
    requires TwinWorlds(w, v) && ThreadOf(w, session).place.Ended?
    ensures var t, u := ThreadOf(w, session), ThreadOf(v, session);
      u.place.Ended? && t.resumed == u.resumed && SameDeeds(t.deeds, u.deeds)
      && t.ch.cid == u.ch.cid && FinalStatus(t.ch) == FinalStatus(u.ch)
  {
    TwinsAt(w, v, session);
    hide FinalStatus;
  }

  lemma FinishedTwins(w: World, v: World, w': World, v': World, session: string, t: Thread, u: Thread)
    requires AllTwins(w, v) && w'.threads == w.threads[session := t] && v'.threads == v.threads[session := u]
    requires t.place == u.place && (t.place.Idle? || t.place.Crashed?)
    ensures AllTwins(w', v')
  {
    hide AllTwins, Agree;
    SetTwins(w, v, w', v', session, t, u);
  }

  lemma EnabledTwins(w: World, v: World, a: Action)
    requires TwinWorlds(w, v) && Enabled(w, a)
    ensures Enabled(v, a)
  {
    if !a.Other? { TwinsAt(w, v, a.session); }
    hide Agree, SameReports;
    if a.Other? && a.action.DoResume? {
      hide Twins;
      forall s | s in v.threads ensures v.threads[s].place != Awaiting(a.action.token) {
        TwinsAt(w, v, s);
        SamePlace(ThreadOf(w, s), ThreadOf(v, s));
      }
    }
  }

  lemma SamePlace(t: Thread, u: Thread)
    requires Twins(t, u)
    ensures t.place == u.place
  {
  }

  lemma StepTwins(g: Gateway.Setup, fallback: Option<Risk.Context>, w: World, v: World, a: Action)
    requires TwinWorlds(w, v) && Enabled(w, a)
    ensures Enabled(v, a) && TwinWorlds(Perform(g, fallback, w, a), Perform(g, fallback, v, a))
  {
    EnabledTwins(w, v, a);
    if !a.Other? { TwinsAt(w, v, a.session); }
    hide AllTwins, SameReports, StartRound, TakeUp, Finalize, Settle, Suspended, RunNode, WakeNode, Agree, Gateway.Perform, ResumeStatus;
    match a {
      case BeginRound(session, cid, intent, risk, env) => StartTwins(g, w, v, session, cid, intent, risk, env);
      case NextNode(session, o) => TurnTwins(g, fallback, w, v, session, o);
      case AdapterAnswers(_, _, _) => AnswerTwins(g, fallback, w, v, a);
      case ResumeRound(session, approve, env) => ResumeTwins(g, fallback, w, v, session, approve, env);
      case FinishRound(session, env) => FinishTwins(g, w, v, session, env);
      case Cancel(_) => StillTwins(w, v, Perform(g, fallback, w, a), Perform(g, fallback, v, a));
      case Other(_) => StillTwins(w, v, Perform(g, fallback, w, a), Perform(g, fallback, v, a));
    }
  }

  // ---------------------------------------------------------------- main result

  /** Stale channels do not matter.  From two worlds that differ only in what rounds that are
      over left in the channels, every schedule of one is a schedule of the other and leads
      to worlds that again differ in nothing else: same adapter calls, same memory, same
      session table, and the same status in every report. */
  lemma {:induction false} StaleChannelsDoNotMatter(g: Gateway.Setup, fallback: Option<Risk.Context>, w: World, v: World, actions: seq<Action>)
    requires TwinWorlds(w, v) && Schedule(g, fallback, w, actions)
    ensures Schedule(g, fallback, v, actions)
    ensures TwinWorlds(Play(g, fallback, w, actions), Play(g, fallback, v, actions))
    decreases |actions|
  {
    hide TwinWorlds, Perform, Enabled;
    if actions != [] {
      StepTwins(g, fallback, w, v, actions[0]);
      StaleChannelsDoNotMatter(g, fallback, Perform(g, fallback, w, actions[0]), Perform(g, fallback, v, actions[0]), actions[1..]);
    }
  }

  /** Any channels may be left behind by rounds that are over. */
  lemma AnyLeftovers(w: World, v: World)
    requires v == w.(threads := v.threads) && v.threads.Keys == w.threads.Keys
    requires forall s | s in w.threads ::
      v.threads[s] == w.threads[s]
      || (v.threads[s] == w.threads[s].(ch := v.threads[s].ch) && (w.threads[s].place.Idle? || w.threads[s].place.Crashed?))
    ensures TwinWorlds(w, v)
  {
    hide Agree;
    forall s: string ensures Twins(ThreadOf(w, s), ThreadOf(v, s)) { AgreeSelf(ThreadOf(w, s)); }
  }

  lemma AgreeSelf(t: Thread)
    ensures Twins(t, t)
  {
    hide FinalStatus;
  }
}
