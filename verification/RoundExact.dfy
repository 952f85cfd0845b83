/**
 What a round does, exactly, stage by stage and in terms of its inputs: which request it puts
 to the policy, when it goes on to execute, when to a human and when it escalates, what a
 human's answer does, and what it reports.
 */
module RoundExact {
  import opened Prelude
  import opened Json
  import opened Capability
  import opened Policy
  import opened Execution
  import opened Approval
  import opened AuditLog
  import Gateway
  import opened GatewaySafety
  import opened GatewayExact
  import opened GatewayFrames
  import opened Rounds
  import opened RoundSafety
  import opened RoundRuns
  import opened RoundNodes
  import RoundMemory
  import Risk

  // ---------------------------------------------------------------- the policy gate

  /** The request that a round puts to the policy: what the model proposed, in the name of who
      asked, under the round's own correlation id. */
  function Proposal(intent: Intent, cid: string, d: Reasoning): Request {
    Request(d.capabilityId.GetOr(""), d.parameters, intent.principal, d.deviceId, cid,
            if d.rationale != "" then d.rationale else intent.text)
  }

  /** What the gate leaves in the channels: nothing that an earlier round authorised.  A request and
      a decision stand there only if they are this round's, a question only if it was asked now. */
  predicate Renewed(ch: Channels, r: Request, v: Verdict, asked: bool) {
    (ch.approvalId.Some? <==> asked) && (ch.digest.Some? <==> asked) && (ch.needsReview <==> asked)
    && ch.request == (if v.Decided? then Some(r) else None) && ch.decision == (if v.Decided? then Some(v.decision) else None)
  }

  /** The gate's decision on a request it could read. */
  lemma GateDecides(g: Gateway.Setup, s: Gateway.Sys, th: Thread, fallback: Option<Risk.Context>, env: Gateway.Env, r: Request,
                    ctx: Option<Risk.Context>)
    requires Calm(s) && Extract(th.ch) == Canonical(r) && th.ch.risk.Some? && ctx == th.ch.risk
    ensures var (s', th') := GateNode(g, s, th, fallback, env);
      var v := Evaluate(env.rules, g.limits, s.windows, r, ctx, env.now).1;
      var permitted := Permitted(env.rules, g.limits, s.windows, r, ctx, env.now);
      th'.deeds.judged == th.deeds.judged + [Judgement(r, v)] && th'.deeds.called == th.deeds.called && SameCore(s, s')
      && s'.audit.healthy
      && (th'.place == Before(Execute) <==> permitted && !NeedsHuman(env.rules.registry[r.capabilityId], ctx))
      && (th'.place == Before(HumanReview) <==> permitted && NeedsHuman(env.rules.registry[r.capabilityId], ctx))
      && (th'.place == Before(Escalate) <==> !permitted)
      && (permitted ==> v.Decided?) && Renewed(th'.ch, r, v, th'.place == Before(HumanReview))
      && (if th'.place == Before(HumanReview) then AskedHere(g, s, s', th', r, v.decision.tier, env)
          else s'.approvals == s.approvals)
  {
    hide Extract, Evaluate, NodeLog, SignedLog, Permitted, NeedsHuman;
    EvaluateShape(env.rules, g.limits, s.windows, r, ctx, env.now);
    var (ws, v) := Evaluate(env.rules, g.limits, s.windows, r, ctx, env.now);
    var s1 := s.(windows := ws);
    var th1 := th.(deeds := th.deeds.(judged := th.deeds.judged + [Judgement(r, v)]));
    JudgedDecides(g, s1, th1, r, v, env);
  }

  /** The question asked of the human in this round. */
  predicate AskedHere(g: Gateway.Setup, s: Gateway.Sys, s': Gateway.Sys, th': Thread, r: Request, tier: int, env: Gateway.Env) {
    th'.deeds.asked == Some(env.freshId) && th'.ch.approvalId == Some(env.freshId)
    && th'.ch.digest == Some(g.binding.hash(g.binding.text(r)))
    && s'.approvals == Approvals(s.approvals.requests[env.freshId := ApprovalRequest(r.cid, r.principal, r.capabilityId,
         r.deviceId, g.binding.hash(g.binding.text(r)), tier, env.now + g.ttl)], s.approvals.grants)
  }

  lemma JudgedDecides(g: Gateway.Setup, s: Gateway.Sys, th: Thread, r: Request, v: Verdict, env: Gateway.Env)
    requires Calm(s)
    ensures var (s', th') := GateJudged(g, s, th, r, v, env);
      th'.deeds.judged == th.deeds.judged && th'.deeds.called == th.deeds.called && SameCore(s, s') && s'.audit.healthy
      && th'.place == (if v.Decided? && v.decision.allowed
                       then (if v.decision.requiresApproval then Before(HumanReview) else Before(Execute))
                       else Before(Escalate))
      && Renewed(th'.ch, r, v, th'.place == Before(HumanReview))
      && (if th'.place == Before(HumanReview) then AskedHere(g, s, s', th', r, v.decision.tier, env)
          else s'.approvals == s.approvals)
  {
    hide NodeLog, SignedLog;
    RoundRuns.CalmLog(g, s, "policy_evaluated", r.cid);
    NodeLogFrame(g, s, "policy_evaluated", r.cid);
    RoundRuns.CalmLog(g, s, "policy_rejected", r.cid);
    NodeLogFrame(g, s, "policy_rejected", r.cid);
    if v.Decided? { DecidedDecides(g, NodeLog(g, s, "policy_evaluated", r.cid).0, th, r, v.decision, env); }
    hide GateDecided;
  }

  lemma DecidedDecides(g: Gateway.Setup, s: Gateway.Sys, th: Thread, r: Request, d: Decision, env: Gateway.Env)
    requires Calm(s)
    ensures var (s', th') := GateDecided(g, s, th, r, d, env);
      th'.deeds.judged == th.deeds.judged && th'.deeds.called == th.deeds.called && SameCore(s, s') && s'.audit.healthy
      && th'.place == (if d.allowed then (if d.requiresApproval then Before(HumanReview) else Before(Execute)) else Before(Escalate))
      && Renewed(th'.ch, r, Decided(d), th'.place == Before(HumanReview))
      && (if th'.place == Before(HumanReview) then AskedHere(g, s, s', th', r, d.tier, env) else s'.approvals == s.approvals)
  {
    hide NodeLog, SignedLog, RequestApproval, Digest, AskedHere;
    if d.allowed && d.requiresApproval {
      AskingDecided(g, s, th, r, d, env);
    } else {
      RoundRuns.CalmLog(g, s, "policy_rejected", r.cid);
      NodeLogFrame(g, s, "policy_rejected", r.cid);
    }
  }

  lemma AskingDecided(g: Gateway.Setup, s: Gateway.Sys, th: Thread, r: Request, d: Decision, env: Gateway.Env)
    requires Calm(s) && d.allowed && d.requiresApproval
    ensures var (s', th') := GateDecided(g, s, th, r, d, env);
      th'.deeds.judged == th.deeds.judged && th'.deeds.called == th.deeds.called && SameCore(s, s') && s'.audit.healthy
      && th'.place == Before(HumanReview) && Renewed(th'.ch, r, Decided(d), true)
      && AskedHere(g, s, s', th', r, d.tier, env)
  {
    hide NodeLog, SignedLog, RequestApproval, Close;
    FiledRequest(g, s.approvals, r, d.tier, env);
    var asked := s.(approvals := RequestApproval(g.binding, g.ttl, s.approvals, env.freshId, r, d.tier, env.now));
    var ch := JudgedUpdate(th.ch, r, d);
    var ch' := ch.(approvalId := Some(env.freshId), digest := Some(Digest(g.binding, r)), needsReview := true);
    var th1 := th.(deeds := th.deeds.(asked := Some(env.freshId)));
    ClosesCalmly(g, asked, th1, "needs_approval", r.cid, ch', RouteAfterPolicy(ch'));
  }

  lemma ClosesCalmly(g: Gateway.Setup, s: Gateway.Sys, th: Thread, kind: string, cid: string, ch: Channels, next: Place)
    requires Calm(s)
    ensures var (s', th') := Close(g, s, th, kind, cid, ch, next);
      th' == th.(ch := ch, place := next) && SameCore(s, s') && s'.approvals == s.approvals && s'.audit.healthy
  {
    hide NodeLog, SignedLog;
    RoundRuns.CalmLog(g, s, kind, cid);
    NodeLogFrame(g, s, kind, cid);
  }

  // ---------------------------------------------------------------- reason, plan, extraction

  /** The reason node, exactly: whatever earlier rounds left, this round's answer and route stand
      in the channels, and no plan. */
  lemma ReasonExactly(g: Gateway.Setup, s: Gateway.Sys, th: Thread, answer: Option<Reasoning>)
    requires Calm(s)
    ensures var th' := ReasonNode(g, s, th, answer).1;
      th'.ch.reasoning == answer && th'.ch.plan.None? && (th'.ch.reasoningFailed <==> answer.None?)
      && th'.ch.route == Some(if answer.Some? then answer.value.route else NoopRoute)
      && th'.place == (if answer.None? || answer.value.route.NoopRoute? then Ended
                       else if answer.value.route.PlanRoute? then Before(MakePlan) else Before(PolicyGate))
      && th'.deeds == th.deeds
  {
    assert answer.Some? ==> (answer.value.route.PlanRoute? || answer.value.route.DirectRoute? || answer.value.route.NoopRoute?);
    hide NodeLog, SignedLog;
    RoundRuns.CalmLog(g, s, if answer.Some? then "reason_complete" else "reason_failed", th.ch.cid);
  }

  /** The plan node, exactly: one step that asks for what the model proposed. */
  lemma PlanExactly(g: Gateway.Setup, s: Gateway.Sys, th: Thread)
    requires Calm(s)
    ensures var th', ch := PlanNode(g, s, th).1, th.ch;
      if ch.reasoning.None? then th'.place.Crashed?
      else if ch.reasoning.value.route.NoopRoute? then th'.place == Before(PolicyGate) && th'.ch == ch.(plan := None)
      else if ch.intent.None? || ch.cid == "" || ch.intent.value.principal == "" then th'.place.Crashed?
      else th'.place == Before(PolicyGate)
           && th'.ch == ch.(plan := Some(RoundPlan(ch.session, ch.cid, [Proposal(ch.intent.value, ch.cid, ch.reasoning.value)])))
  {
    hide NodeLog, SignedLog;
    RoundRuns.CalmLog(g, s, "plan_created", th.ch.cid);
  }

  /** Exactly when the gate can read a request out of the channels, whatever they hold, and which
      request that is. */
  lemma ExtractExactly(ch: Channels, r: Request)
    ensures Extract(ch) == Canonical(r) <==>
      ch.cid != "" && r.cid == ch.cid && r.capabilityId != "" && r.principal != ""
      && ((ch.route == Some(PlanRoute) && ch.plan.Some? && ch.plan.value.steps == [r] && ch.plan.value.cid == ch.cid)
          || (ch.route == Some(DirectRoute) && ch.reasoning.Some? && ch.reasoning.value.route.DirectRoute? && ch.intent.Some?
              && r == Proposal(ch.intent.value, ch.cid, ch.reasoning.value)))
  {
  }

  // ---------------------------------------------------------------- from the intent to the gate

  /** A round up to the gate: over a plan, or directly. */
  function ToGate(session: string, cid: string, intent: Intent, risk: Risk.Context, env: Gateway.Env, d: Reasoning): seq<Action> {
    var turn := NextNode(session, Thinking(env, Some(d)));
    Asking(session, cid, intent, risk, env, Some(d)) + (if d.route.PlanRoute? then [turn] else []) + [turn]
  }

  /** A round that is about to enter the gate, with all that the gate will read. */
  predicate AtGate(th: Thread, cid: string, intent: Intent, risk: Risk.Context, d: Reasoning) {
    th.place == Before(PolicyGate) && th.ch.intent == Some(intent) && th.ch.cid == cid && th.ch.risk == Some(risk)
    && th.ch.reasoning == Some(d) && th.ch.route == Some(d.route) && !d.route.NoopRoute?
    && (d.route.PlanRoute? ==> th.ch.plan.Some? && th.ch.plan.value.cid == cid && th.ch.plan.value.steps == [Proposal(intent, cid, d)])
    && th.deeds.judged == [] && th.deeds.called == []
  }

  lemma ReadsProposal(th: Thread, cid: string, intent: Intent, risk: Risk.Context, d: Reasoning)
    requires AtGate(th, cid, intent, risk, d) && cid != ""
    ensures if intent.principal != "" && d.capabilityId.GetOr("") != "" then Extract(th.ch) == Canonical(Proposal(intent, cid, d))
      else Extract(th.ch).Unclear?
  {
    assert d.route.PlanRoute? || d.route.DirectRoute?;
  }

  lemma Planned(g: Gateway.Setup, fallback: Option<Risk.Context>, w: World, session: string, cid: string, intent: Intent,
                risk: Risk.Context, env: Gateway.Env, d: Reasoning)
    requires w.sys.audit.healthy && Faultless(env) && Enabled(w, BeginRound(session, cid, intent, risk, env)) && FreshId(w, env)
    requires d.route.PlanRoute? && intent.principal != ""
    ensures var actions := Asking(session, cid, intent, risk, env, Some(d)) + [NextNode(session, Thinking(env, Some(d)))];
      Schedule(g, fallback, w, actions) && var w' := Play(g, fallback, w, actions);
      Aside(w, w') && w'.sys.audit.healthy && AtGate(ThreadOf(w', session), cid, intent, risk, d)
  {
    hide Perform, Leads, Close, Schedule, Play;
    var asking, turn := Asking(session, cid, intent, risk, env, Some(d)), NextNode(session, Thinking(env, Some(d)));
    AskingRuns(g, fallback, w, session, cid, intent, risk, env, Some(d));
    LeadsToPlay(g, fallback, w, asking);
    var w1 := Play(g, fallback, w, asking);
    var t1 := ThreadOf(w1, session);
    var ch := t1.ch.(plan := Some(RoundPlan(session, cid, [PlannedRequest(t1.ch, d)])));
    Logged(g, fallback, w1, session, turn.outside, t1, "plan_created", ch, Before(PolicyGate));
    LeadsOne(g, fallback, w1, turn);
    var w2 := Perform(g, fallback, w1, turn);
    LeadsOn(g, fallback, w, asking, w1, [turn], w2);
    LeadsThere(g, fallback, w, asking + [turn], w2);
  }

  /** A turn that runs a node of its own and does not suspend. */
  lemma TurnTaken(g: Gateway.Setup, fallback: Option<Risk.Context>, w: World, session: string, o: Outside)
    requires Enabled(w, NextNode(session, o)) && !ThreadOf(w, session).place.node.MemoryUpdate?
    requires !RunPlainNode(g, Gateway.Enter(w.sys, o.env), ThreadOf(w, session), fallback, o).1.place.Paused?
    ensures var w', x := Perform(g, fallback, w, NextNode(session, o)),
                         RunPlainNode(g, Gateway.Enter(w.sys, o.env), ThreadOf(w, session), fallback, o);
      w'.sys == x.0 && ThreadOf(w', session) == x.1 && w'.reports == w.reports && w'.memory == w.memory
  {
    hide RunPlainNode, GotCompleted;
  }

  /** What the gate makes of a proposal. */
  predicate Decides(g: Gateway.Setup, s: Gateway.Sys, s': Gateway.Sys, th: Thread, cid: string, intent: Intent,
                    risk: Risk.Context, env: Gateway.Env, d: Reasoning)
  {
    var r, ctx := Proposal(intent, cid, d), Some(risk);
    var readable := intent.principal != "" && d.capabilityId.GetOr("") != "";
    var permitted := readable && Permitted(env.rules, g.limits, s.windows, r, ctx, env.now);
    var v := Evaluate(env.rules, g.limits, s.windows, r, ctx, env.now).1;
    SameCore(s, s') && s'.audit.healthy && th.deeds.called == []
    && th.deeds.judged == (if readable then [Judgement(r, v)] else [])
    && (th.place == Before(Execute) <==> permitted && !NeedsHuman(env.rules.registry[r.capabilityId], ctx))
    && (th.place == Before(HumanReview) <==> permitted && NeedsHuman(env.rules.registry[r.capabilityId], ctx))
    && (th.place == Before(Escalate) <==> !permitted)
    && (permitted ==> v.Decided?)
    && Renewed(th.ch, r, if readable then v else UnknownCapability, th.place == Before(HumanReview))
    && (if th.place == Before(HumanReview) then v.Decided? && AskedHere(g, s, s', th, r, v.decision.tier, env)
        else s'.approvals == s.approvals)
  }

  lemma NodeDecides(g: Gateway.Setup, s: Gateway.Sys, th: Thread, fallback: Option<Risk.Context>, cid: string, intent: Intent,
                    risk: Risk.Context, env: Gateway.Env, d: Reasoning)
    requires Calm(s) && AtGate(th, cid, intent, risk, d) && cid != ""
    ensures var (s', th') := GateNode(g, s, th, fallback, env);
      Decides(g, s, s', th', cid, intent, risk, env, d) && !th'.place.Paused?
  {
    hide Decides, Extract, GateNode;
    ReadsProposal(th, cid, intent, risk, d);
    if intent.principal != "" && d.capabilityId.GetOr("") != "" {
      ReadableDecides(g, s, th, fallback, cid, intent, risk, env, d);
    } else {
      UnreadableDecides(g, s, th, fallback, cid, intent, risk, env, d);
    }
  }

  lemma ReadableDecides(g: Gateway.Setup, s: Gateway.Sys, th: Thread, fallback: Option<Risk.Context>, cid: string, intent: Intent,
                        risk: Risk.Context, env: Gateway.Env, d: Reasoning)
    requires Calm(s) && Extract(th.ch) == Canonical(Proposal(intent, cid, d)) && th.ch.risk == Some(risk)
    requires intent.principal != "" && d.capabilityId.GetOr("") != "" && th.deeds.judged == [] && th.deeds.called == []
    ensures var (s', th') := GateNode(g, s, th, fallback, env);
      Decides(g, s, s', th', cid, intent, risk, env, d) && !th'.place.Paused?
  {
    hide Extract, Evaluate, Permitted, NeedsHuman, SignedLog, AskedHere, GateNode, Proposal, Renewed, SameCore;
    GateDecides(g, s, th, fallback, env, Proposal(intent, cid, d), Some(risk));
  }

  lemma UnreadableDecides(g: Gateway.Setup, s: Gateway.Sys, th: Thread, fallback: Option<Risk.Context>, cid: string, intent: Intent,
                          risk: Risk.Context, env: Gateway.Env, d: Reasoning)
    requires Calm(s) && Extract(th.ch).Unclear? && th.deeds.judged == [] && th.deeds.called == []
    requires !(intent.principal != "" && d.capabilityId.GetOr("") != "")
    ensures var (s', th') := GateNode(g, s, th, fallback, env);
      Decides(g, s, s', th', cid, intent, risk, env, d) && !th'.place.Paused?
  {
    hide Extract, Evaluate, Permitted, NeedsHuman, SignedLog, AskedHere, GateNode, Proposal, Renewed;
    UnreadableRefuses(g, s, th, fallback, env, Proposal(intent, cid, d));
  }

  lemma UnreadableRefuses(g: Gateway.Setup, s: Gateway.Sys, th: Thread, fallback: Option<Risk.Context>, env: Gateway.Env, r: Request)
    requires Extract(th.ch).Unclear?
    ensures var (s', th') := GateNode(g, s, th, fallback, env);
      s' == s && th'.place == Before(Escalate) && Renewed(th'.ch, r, UnknownCapability, false)
      && th'.deeds.judged == th.deeds.judged && th'.deeds.called == th.deeds.called
  {
    hide Extract;
  }

  lemma DecidesFrame(g: Gateway.Setup, s: Gateway.Sys, s1: Gateway.Sys, s': Gateway.Sys, th: Thread, cid: string, intent: Intent,
                     risk: Risk.Context, env: Gateway.Env, d: Reasoning)
    requires SameCore(s, s1) && s1.approvals == s.approvals && s1.windows == s.windows
    requires Decides(g, s1, s', th, cid, intent, risk, env, d)
    ensures Decides(g, s, s', th, cid, intent, risk, env, d)
  {
    hide Evaluate, Permitted, NeedsHuman, Proposal;
  }

  lemma GateTurn(g: Gateway.Setup, fallback: Option<Risk.Context>, w: World, session: string, cid: string, intent: Intent,
                 risk: Risk.Context, o: Outside, d: Reasoning)
    requires w.sys.audit.healthy && Faultless(o.env) && FreshId(w, o.env) && cid != ""
    requires AtGate(ThreadOf(w, session), cid, intent, risk, d)
    ensures var w' := Perform(g, fallback, w, NextNode(session, o));
      w'.reports == w.reports && Decides(g, w.sys, w'.sys, ThreadOf(w', session), cid, intent, risk, o.env, d)
  {
    hide Decides, Perform, GateNode;
    var th, s := ThreadOf(w, session), Gateway.Enter(w.sys, o.env);
    NodeDecides(g, s, th, fallback, cid, intent, risk, o.env, d);
    var (s', th') := GateNode(g, s, th, fallback, o.env);
    DecidesFrame(g, w.sys, s, s', th', cid, intent, risk, o.env, d);
    TurnTaken(g, fallback, w, session, o);
  }

  /** The gate, exactly, from the intent on.  The round goes on to execute if and only if the
      policy permits the proposal and no human has to be asked, to a human if and only if the
      policy permits it and one has to be asked, and escalates otherwise. */
  lemma GateExactly(g: Gateway.Setup, fallback: Option<Risk.Context>, w: World, session: string, cid: string, intent: Intent,
                    risk: Risk.Context, env: Gateway.Env, d: Reasoning)
    requires w.sys.audit.healthy && Faultless(env) && Enabled(w, BeginRound(session, cid, intent, risk, env)) && FreshId(w, env)
    requires !d.route.NoopRoute? && (intent.principal != "" || d.route.DirectRoute?)
    ensures Schedule(g, fallback, w, ToGate(session, cid, intent, risk, env, d))
    ensures var w' := Play(g, fallback, w, ToGate(session, cid, intent, risk, env, d));
      w'.reports == w.reports && Decides(g, w.sys, w'.sys, ThreadOf(w', session), cid, intent, risk, env, d)
  {
    assert d.route.PlanRoute? || d.route.DirectRoute?;
    hide Perform, Leads, Schedule, Play, Decides, Proposal;
    var turn := NextNode(session, Thinking(env, Some(d)));
    var asking := Asking(session, cid, intent, risk, env, Some(d));
    var before := if d.route.PlanRoute? then asking + [turn] else asking + [];
    if d.route.PlanRoute? {
      Planned(g, fallback, w, session, cid, intent, risk, env, d);
    } else {
      AskingRuns(g, fallback, w, session, cid, intent, risk, env, Some(d));
      assert asking + [] == asking;
    }
    LeadsToPlay(g, fallback, w, before);
    var w1 := Play(g, fallback, w, before);
    GateTurn(g, fallback, w1, session, cid, intent, risk, turn.outside, d);
    LeadsOne(g, fallback, w1, turn);
    var w2 := Perform(g, fallback, w1, turn);
    LeadsOn(g, fallback, w, before, w1, [turn], w2);
    LeadsThere(g, fallback, w, before + [turn], w2);
    DecidesFrame(g, w.sys, w1.sys, w2.sys, ThreadOf(w2, session), cid, intent, risk, env, d);
  }

  // ---------------------------------------------------------------- the human

  /** A round that waits before the human suspends: its session is registered and the result
      shows what to approve. */
  lemma SuspendsExactly(g: Gateway.Setup, fallback: Option<Risk.Context>, w: World, session: string, o: Outside)
    requires Enabled(w, NextNode(session, o)) && ThreadOf(w, session).place == Before(HumanReview)
    ensures var w', th := Perform(g, fallback, w, NextNode(session, o)), ThreadOf(w, session);
      ThreadOf(w', session) == th.(place := Paused) && Undisturbed(w, w') && w'.memory == w.memory
      && w'.sessions == w.sessions[session := Session(th.ch.cid, false)]
      && |w'.reports| == |w.reports| + 1 && w'.reports[..|w.reports|] == w.reports
      && var r := w'.reports[|w.reports|];
         r.session == session && r.cid == th.ch.cid && r.status == ApprovalNeeded
         && r.details == Approval(th.ch.approvalId, th.ch.digest)
  {
    hide Completed;
  }

  /** A session that waits for a human's answer. */
  predicate Waits(w: World, session: string) {
    ThreadOf(w, session).place.Paused? && session in w.sessions && !w.sessions[session].finalized
  }

  /** A reject, whatever else happens: nothing is evaluated, granted or spent, no adapter is
      called, and the round goes to its escalation or stops. */
  lemma RejectTouchesNothing(g: Gateway.Setup, fallback: Option<Risk.Context>, w: World, session: string, env: Gateway.Env)
    requires Sound(g, w) && Waits(w, session)
    ensures var w', th := Perform(g, fallback, w, ResumeRound(session, false, env)), ThreadOf(w, session);
      Undisturbed(w, w') && w'.memory == w.memory && w'.reports == w.reports && w'.sessions == w.sessions
      && ThreadOf(w', session).deeds == th.deeds.(approved := Some(false)) && ThreadOf(w', session).resumed
      && (ThreadOf(w', session).place == Before(Escalate) || ThreadOf(w', session).place.Crashed?)
  {
    hide Sound, NodeLog, GotCompleted;
    NodeLogFrame(g, Gateway.Enter(w.sys, env), "approval_rejected", ThreadOf(w, session).ch.cid);
  }

  /** A human's answer, exactly: the round goes on to execute if and only if the answer is
      approve, the policy still permits the request, and the grant of this round's question
      can be used for it at the tier it has now; then, and only then, the grant is spent. */
  predicate Answers(g: Gateway.Setup, s: Gateway.Sys, s': Gateway.Sys, th: Thread, th': Thread, approve: bool, r: Request,
                    id: string, ctx: Option<Risk.Context>, env: Gateway.Env)
  {
    var v := Evaluate(env.rules, g.limits, s.windows, r, ctx, env.now).1;
    var redeemed := approve && Permitted(env.rules, g.limits, s.windows, r, ctx, env.now) && v.Decided?
      && Redeemable(g, s.approvals, id, r, v.decision.tier, env.now);
    SameCore(s, s') && s'.audit.healthy && th'.deeds.called == th.deeds.called
    && th'.ch.request == th.ch.request && th'.ch.decision == th.ch.decision && !th'.ch.needsReview
    && th'.place == (if redeemed then Before(Execute) else Before(Escalate))
    && s'.approvals == (if redeemed then Approvals(s.approvals.requests, s.approvals.grants[id := s.approvals.grants[id].(consumed := true)])
                        else s.approvals)
  }

  lemma ReviewAnswers(g: Gateway.Setup, s: Gateway.Sys, th: Thread, approve: bool, fallback: Option<Risk.Context>, env: Gateway.Env,
                      r: Request, id: string)
    requires Calm(s) && th.ch.request == Some(r) && th.ch.approvalId == Some(id)
    ensures var (s', th') := ReviewNode(g, s, th, approve, fallback, env);
      Answers(g, s, s', th, th', approve, r, id, if th.ch.risk.Some? then th.ch.risk else fallback, env)
  {
    hide Evaluate, NodeLog, SignedLog, Permitted, NeedsHuman, ReviewJudged, Redeemable;
    RoundRuns.CalmLog(g, s, "approval_rejected", th.ch.cid);
    NodeLogFrame(g, s, "approval_rejected", th.ch.cid);
    if approve {
      var ctx := if th.ch.risk.Some? then th.ch.risk else fallback;
      EvaluateShape(env.rules, g.limits, s.windows, r, ctx, env.now);
      var (ws, v) := Evaluate(env.rules, g.limits, s.windows, r, ctx, env.now);
      JudgedAnswers(g, s.(windows := ws), th.(deeds := th.deeds.(judged := th.deeds.judged + [Judgement(r, v)])), r, v, env, id);
    }
  }

  lemma JudgedAnswers(g: Gateway.Setup, s: Gateway.Sys, th: Thread, r: Request, v: Verdict, env: Gateway.Env, id: string)
    requires Calm(s) && th.ch.approvalId == Some(id)
    ensures var (s', th') := ReviewJudged(g, s, th, r, v, env);
      var redeemed := v.Decided? && v.decision.allowed && Redeemable(g, s.approvals, id, r, v.decision.tier, env.now);
      SameCore(s, s') && s'.audit.healthy && th'.deeds.called == th.deeds.called
      && th'.ch.request == th.ch.request && th'.ch.decision == th.ch.decision && !th'.ch.needsReview
      && th'.place == (if redeemed then Before(Execute) else Before(Escalate))
      && s'.approvals == (if redeemed then Consume(g.binding, s.approvals, id, r, v.decision.tier, env.now) else s.approvals)
      && (redeemed ==>
            Consume(g.binding, s.approvals, id, r, v.decision.tier, env.now)
            == Approvals(s.approvals.requests, s.approvals.grants[id := s.approvals.grants[id].(consumed := true)]))
  {
    hide NodeLog, SignedLog, CheckConsume, Consume, Redeemable;
    RefusedAnswers(g, s, th, "approval_rejected");
    RefusedAnswers(g, s, th, "policy_rejected_after_approval");
    if v.Decided? && v.decision.allowed {
      var tier := v.decision.tier;
      RedeemExactly(g, s.approvals, id, r, tier, env.now);
      var used := s.(approvals := Consume(g.binding, s.approvals, id, r, tier, env.now));
      RoundRuns.CalmLog(g, used, "approval_consumed", th.ch.cid);
      NodeLogFrame(g, used, "approval_consumed", th.ch.cid);
    }
    hide ReviewRefused;
  }

  lemma RefusedAnswers(g: Gateway.Setup, s: Gateway.Sys, th: Thread, kind: string)
    requires Calm(s)
    ensures var (s', th') := ReviewRefused(g, s, th, kind);
      SameCore(s, s') && s'.audit.healthy && s'.approvals == s.approvals && th'.deeds == th.deeds
      && th'.ch.request == th.ch.request && th'.ch.decision == th.ch.decision && !th'.ch.needsReview && th'.place == Before(Escalate)
  {
    hide NodeLog, SignedLog;
    RoundRuns.CalmLog(g, s, kind, th.ch.cid);
    NodeLogFrame(g, s, kind, th.ch.cid);
  }

  lemma ReviewExactly(g: Gateway.Setup, fallback: Option<Risk.Context>, w: World, session: string, approve: bool, env: Gateway.Env)
    requires Sound(g, w) && Waits(w, session) && w.sys.audit.healthy && Faultless(env)
    ensures var th, w' := ThreadOf(w, session), Perform(g, fallback, w, ResumeRound(session, approve, env));
      th.deeds.judged != [] && th.deeds.asked.Some?
      && Answers(g, w.sys, w'.sys, th, ThreadOf(w', session), approve, th.deeds.judged[0].request, th.deeds.asked.value,
                 if th.ch.risk.Some? then th.ch.risk else fallback, env)
      && ThreadOf(w', session).deeds.approved == Some(approve) && ThreadOf(w', session).resumed
      && w'.memory == w.memory && w'.reports == w.reports
  {
    PausedFacts(g, w, session);
    ResumeTurn(g, fallback, w, session, approve, env);
    hide Sound, ReviewNode, Perform, Answers, Redeemable;
    var th, s := ThreadOf(w, session), Gateway.Enter(w.sys, env);
    var th1, ctx := Resuming(th, approve), if th.ch.risk.Some? then th.ch.risk else fallback;
    var r, id := th.deeds.judged[0].request, th.deeds.asked.value;
    ReviewAnswers(g, s, th1, approve, fallback, env, r, id);
    ReviewKeepsAnswer(g, s, th1, approve, fallback, env);
    var (s', th') := ReviewNode(g, s, th1, approve, fallback, env);
    AnswersFrame(g, w.sys, s, s', th, th1, th', approve, r, id, ctx, env);
  }

  lemma ResumeTurn(g: Gateway.Setup, fallback: Option<Risk.Context>, w: World, session: string, approve: bool, env: Gateway.Env)
    requires Waits(w, session)
    ensures var w', x := Perform(g, fallback, w, ResumeRound(session, approve, env)),
                         ReviewNode(g, Gateway.Enter(w.sys, env), Resuming(ThreadOf(w, session), approve), approve, fallback, env);
      w'.sys == x.0 && ThreadOf(w', session) == x.1 && w'.reports == w.reports && w'.memory == w.memory
  {
    hide ReviewNode, GotCompleted;
  }

  lemma PausedFacts(g: Gateway.Setup, w: World, session: string)
    requires Sound(g, w) && ThreadOf(w, session).place.Paused?
    ensures var th := ThreadOf(w, session);
      th.deeds.judged != [] && th.ch.request == Some(th.deeds.judged[0].request) && th.deeds.asked.Some?
      && th.ch.approvalId == th.deeds.asked
  {
    StagedAt(g, w, session);
    hide Sound;
  }

  lemma ReviewKeepsAnswer(g: Gateway.Setup, s: Gateway.Sys, th: Thread, approve: bool, fallback: Option<Risk.Context>, env: Gateway.Env)
    ensures var th' := ReviewNode(g, s, th, approve, fallback, env).1;
      th'.deeds.approved == th.deeds.approved && th'.resumed == th.resumed
  {
    hide Evaluate, NodeLog, CheckConsume, Consume;
  }

  lemma AnswersFrame(g: Gateway.Setup, s: Gateway.Sys, s1: Gateway.Sys, s': Gateway.Sys, th: Thread, th1: Thread, th': Thread,
                     approve: bool, r: Request, id: string, ctx: Option<Risk.Context>, env: Gateway.Env)
    requires SameCore(s, s1) && s1.approvals == s.approvals && s1.windows == s.windows
    requires th1.ch == th.ch && th1.deeds.called == th.deeds.called && Answers(g, s1, s', th1, th', approve, r, id, ctx, env)
    ensures Answers(g, s, s', th, th', approve, r, id, ctx, env)
  {
    hide Evaluate, Permitted, Redeemable;
  }

  // ---------------------------------------------------------------- execute

  /** The execute node, exactly: it waits for an adapter if and only if the preauthorized entry
      takes this round's request and decision. */
  lemma ExecuteReaches(g: Gateway.Setup, fallback: Option<Risk.Context>, w: World, session: string, o: Outside)
    requires Enabled(w, NextNode(session, o)) && ThreadOf(w, session).place == Before(Execute)
    requires w.sys.audit.healthy && Faultless(o.env)
    requires ThreadOf(w, session).ch.request.Some? && ThreadOf(w, session).ch.decision.Some?
    ensures var th, w' := ThreadOf(w, session), Perform(g, fallback, w, NextNode(session, o));
      var r, d, th' := th.ch.request.value, th.ch.decision.value, ThreadOf(w', session);
      (th'.place.Awaiting? <==> ActsPreauthorized(g, w.sys, r, d, o.env))
      && (th'.place.Awaiting? ==>
            Made(|w.sys.calls|, w'.sys, Gateway.Waiting(th'.place.token), r, d.tier, Gateway.Preauthorized,
                 o.env.rules.registry[r.capabilityId], o.env))
      && th'.deeds.called == th.deeds.called + [GatewayCall(r, d)] && w'.reports == w.reports && w'.memory == w.memory
  {
    hide ExecuteNode, RunPlainNode, ActsPreauthorized, Made, Perform;
    var th, s := ThreadOf(w, session), Gateway.Enter(w.sys, o.env);
    var r, d := th.ch.request.value, th.ch.decision.value;
    EnteredSame(g, w.sys, o.env, r, d);
    ExecuteNodeReaches(g, s, th, o.env, r, d);
    RoundMemory.ExecuteIsPlain(g, s, th, fallback, o);
    TurnTaken(g, fallback, w, session, o);
  }

  lemma EnteredSame(g: Gateway.Setup, s: Gateway.Sys, env: Gateway.Env, r: Request, d: Decision)
    ensures ActsPreauthorized(g, Gateway.Enter(s, env), r, d, env) == ActsPreauthorized(g, s, r, d, env)
    ensures Gateway.Enter(s, env).calls == s.calls
  {
    hide Routed;
  }

  lemma ExecuteNodeReaches(g: Gateway.Setup, s: Gateway.Sys, th: Thread, env: Gateway.Env, r: Request, d: Decision)
    requires Calm(s) && th.ch.request == Some(r) && th.ch.decision == Some(d)
    ensures var (s', th') := ExecuteNode(g, s, th, env);
      (th'.place.Awaiting? <==> ActsPreauthorized(g, s, r, d, env))
      && (th'.place.Awaiting? ==>
            Made(|s.calls|, s', Gateway.Waiting(th'.place.token), r, d.tier, Gateway.Preauthorized, env.rules.registry[r.capabilityId], env))
      && th'.deeds.called == th.deeds.called + [GatewayCall(r, d)] && !th'.place.Paused?
  {
    PreauthorizedExactly(g, s, r, d, env);
    hide Gateway.ExecutePreauthorized, AfterGateway, ActsPreauthorized, Made, SignedLog, Calm;
    var (s1, reply) := Gateway.ExecutePreauthorized(g, s, r, d, env);
    AfterStands(g, s1, th.(deeds := th.deeds.(called := th.deeds.called + [GatewayCall(r, d)])), r, reply);
  }

  /** What becomes of the round once its gateway call has suspended or come back. */
  lemma AfterStands(g: Gateway.Setup, s: Gateway.Sys, th: Thread, r: Request, reply: Gateway.Reply)
    ensures var (s', th') := AfterGateway(g, s, th, r, reply);
      SameCore(s, s') && s'.approvals == s.approvals && th'.deeds.called == th.deeds.called && !th'.place.Paused?
      && (th'.place.Awaiting? <==> reply.Waiting?) && (reply.Waiting? ==> th'.place.token == reply.token && s' == s)
      && (reply.Exception? ==> th'.place.Crashed? && s' == s)
      && (!reply.Waiting? && !reply.Exception? && Calm(s) ==>
            th'.place == Before(Verify) && th'.ch.outcome == Some(Replied(reply)) && th'.deeds.reply == Some(reply)
            && s'.audit.healthy)
  {
    hide NodeLog, SignedLog;
    NodeLogFrame(g, s, "execution_result", r.cid);
    if Calm(s) { RoundRuns.CalmLog(g, s, "execution_result", r.cid); }
  }

  // ---------------------------------------------------------------- the adapter answers

  /** What an adapter's answer does to the round that waits for it, exactly. */
  lemma AnswerExactly(g: Gateway.Setup, fallback: Option<Risk.Context>, w: World, session: string, answer: Option<Evidence>, env: Gateway.Env)
    requires Sound(g, w) && Enabled(w, AdapterAnswers(session, answer, env)) && w.sys.audit.healthy && Faultless(env)
    ensures var th, w' := ThreadOf(w, session), Perform(g, fallback, w, AdapterAnswers(session, answer, env));
      var p, th' := w.sys.parked[th.place.token], ThreadOf(w', session);
      w'.reports == w.reports && w'.memory == w.memory
      && if answer.None? then th'.place.Crashed?
         else if p.AwaitExecute? && answer.value.dispatched
         then th'.place == th.place && th.place.token in w'.sys.parked
              && w'.sys.parked[th.place.token] == Gateway.AwaitVerify(p.request, p.definition)
         else th'.place == Before(Verify) && th'.deeds.reply.Some? && th'.ch.outcome == Some(Replied(th'.deeds.reply.value))
              && w'.sys.audit.healthy && Replies(p, answer.value, th'.deeds.reply.value)
  {
    var th, s := ThreadOf(w, session), Gateway.Enter(w.sys, env);
    EnterSame(g, w.sys, env);
    SoundSafe(g, w);
    hide Sound, Safe, Gateway.Resume, AfterGateway, Replies, GotCompleted;
    ResumeExactly(g, s, th.place.token, answer);
    var (s1, reply) := Gateway.Resume(g, s, th.place.token, answer);
    AfterStands(g, s1, th, s.parked[th.place.token].request, reply);
  }

  lemma SoundSafe(g: Gateway.Setup, w: World)
    requires Sound(g, w)
    ensures Safe(g, w.sys)
  {
    hide Safe, AllStaged, AllHonest;
  }

  // ---------------------------------------------------------------- how a round ends

  /** From the gateway's reply to the result: verify, then remember or compensate, then report. */
  function Ending(session: string, env: Gateway.Env): seq<Action> {
    var turn := NextNode(session, Thinking(env, None));
    [turn] + [turn] + [FinishRound(session, env)]
  }

  /** One event, with what the round did, if and only if its call came back completed. */
  predicate Ends(w: World, w': World, session: string, th: Thread, reply: Gateway.Reply) {
    var done := reply.Finished? && reply.completed;
    |w'.reports| == |w.reports| + 1 && w'.reports[..|w.reports|] == w.reports
    && w'.reports[|w.reports|].status == (if done then SimulationCompleted else VerificationFailed)
    && w'.reports[|w.reports|].capabilities == Some(Replied(reply))
    && w'.memory == (if done && th.ch.request.Some?
                     then w.memory + [MemoryEvent(th.ch.session, th.ch.cid, th.ch.request.value.capabilityId,
                            th.ch.request.value.parameters, th.ch.request.value.deviceId, Some(reply.level))]
                     else w.memory)
    && ThreadOf(w', session).place.Idle? && ThreadOf(w', session).ch.outcome == Some(Replied(reply))
  }

  lemma EndsExactly(g: Gateway.Setup, fallback: Option<Risk.Context>, w: World, session: string, env: Gateway.Env, reply: Gateway.Reply)
    requires Sound(g, w) && w.sys.audit.healthy && Faultless(env) && FreshId(w, env)
    requires ThreadOf(w, session).place == Before(Verify) && ThreadOf(w, session).ch.outcome == Some(Replied(reply))
    ensures Schedule(g, fallback, w, Ending(session, env))
    ensures Ends(w, Play(g, fallback, w, Ending(session, env)), session, ThreadOf(w, session), reply)
  {
    VerifyFacts(g, w, session);
    EndStatus(ThreadOf(w, session).ch, reply);
    hide Sound, Enabled, Schedule, Play, FinalStatus, Completed, SameCore, EventOf, VerifyUpdate, Stands;
    var turn := NextNode(session, Thinking(env, None));
    VerifiedRuns(g, fallback, w, session, turn);
    RunsThenReports(g, fallback, w, [turn] + [turn], session, env);
  }

  /** What the last step adds to a run that has come to the end of the graph. */
  lemma RunsThenReports(g: Gateway.Setup, fallback: Option<Risk.Context>, w: World, actions: seq<Action>, session: string, env: Gateway.Env)
    requires Schedule(g, fallback, w, actions) && Faultless(env)
    requires var w1 := Play(g, fallback, w, actions); w1.sys.audit.healthy && ThreadOf(w1, session).place.Ended?
    ensures Schedule(g, fallback, w, actions + [FinishRound(session, env)])
    ensures var w1, w' := Play(g, fallback, w, actions), Play(g, fallback, w, actions + [FinishRound(session, env)]);
      var th := ThreadOf(w1, session);
      ThreadOf(w', session) == th.(place := Idle) && w'.memory == w1.memory && Undisturbed(w1, w')
      && |w'.reports| == |w1.reports| + 1 && w'.reports[..|w1.reports|] == w1.reports
      && var r := w'.reports[|w1.reports|];
         r.status == FinalStatus(th.ch) && r.capabilities == th.ch.outcome && r.deeds == th.deeds
  {
    hide Perform, Leads, Schedule, Play, SameCore, FinalStatus;
    var w1, finish := Play(g, fallback, w, actions), FinishRound(session, env);
    LeadsToPlay(g, fallback, w, actions);
    Finished(g, fallback, w1, session, ThreadOf(w1, session), env);
    LeadsOne(g, fallback, w1, finish);
    LeadsOn(g, fallback, w, actions, w1, [finish], Perform(g, fallback, w1, finish));
    LeadsThere(g, fallback, w, actions + [finish], Perform(g, fallback, w1, finish));
  }

  lemma VerifiedRuns(g: Gateway.Setup, fallback: Option<Risk.Context>, w: World, session: string, turn: Action)
    requires turn.NextNode? && turn.session == session && turn.outside == Thinking(turn.outside.env, None)
    requires w.sys.audit.healthy && Faultless(turn.outside.env) && FreshId(w, turn.outside.env)
    requires ThreadOf(w, session).place == Before(Verify)
    ensures Schedule(g, fallback, w, [turn] + [turn])
    ensures var w2, ch := Play(g, fallback, w, [turn] + [turn]), VerifyUpdate(ThreadOf(w, session).ch);
      w2.sys.audit.healthy && Aside(w, w2) && ThreadOf(w2, session).place.Ended? && ThreadOf(w2, session).ch == ch
      && w2.memory == (if ch.satisfied then w.memory + [EventOf(ch)] else w.memory)
  {
    hide Perform, Leads, Schedule, Play, Completed, EventOf;
    var th := ThreadOf(w, session);
    var ch := VerifyUpdate(th.ch);
    VerifyTurn(g, fallback, w, session, th, turn.outside);
    LeadsOne(g, fallback, w, turn);
    var w1, t1 := Perform(g, fallback, w, turn), th.(ch := ch, place := RouteAfterVerify(ch));
    LastTurn(g, fallback, w1, session, t1, turn.outside);
    LeadsOne(g, fallback, w1, turn);
    LeadsOn(g, fallback, w, [turn], w1, [turn], Perform(g, fallback, w1, turn));
    LeadsThere(g, fallback, w, [turn] + [turn], Perform(g, fallback, w1, turn));
  }

  lemma VerifyFacts(g: Gateway.Setup, w: World, session: string)
    requires Sound(g, w) && ThreadOf(w, session).place == Before(Verify)
    ensures var ch := ThreadOf(w, session).ch; Actionable(ch) && ch.policyRoute == Some(Pass) && ch.request.Some?
  {
    StagedAt(g, w, session);
    hide Sound;
  }

  lemma VerifyTurn(g: Gateway.Setup, fallback: Option<Risk.Context>, w: World, session: string, th: Thread, o: Outside)
    requires Stands(w, session, th) && Faultless(o.env) && FreshId(w, o.env) && th.place == Before(Verify)
    ensures var w', ch := Perform(g, fallback, w, NextNode(session, o)), VerifyUpdate(th.ch);
      Stands(w', session, th.(ch := ch, place := RouteAfterVerify(ch))) && Aside(w, w') && w'.memory == w.memory
  {
    hide Perform, Close;
    var ch := VerifyUpdate(th.ch);
    Logged(g, fallback, w, session, o, th, "verification_result", ch, RouteAfterVerify(ch));
  }

  lemma LastTurn(g: Gateway.Setup, fallback: Option<Risk.Context>, w: World, session: string, th: Thread, o: Outside)
    requires Stands(w, session, th) && Faultless(o.env) && FreshId(w, o.env) && !o.storeFails
    requires th.place == RouteAfterVerify(th.ch) && th.ch.satisfied == Completed(th.ch.outcome)
    ensures var w' := Perform(g, fallback, w, NextNode(session, o));
      w'.sys.audit.healthy && Aside(w, w') && ThreadOf(w', session).place.Ended? && ThreadOf(w', session).ch == th.ch
      && w'.memory == (if th.ch.satisfied then w.memory + [EventOf(th.ch)] else w.memory)
  {
    hide NodeLog, GotCompleted, EventOf, Completed;
    var s := Gateway.Enter(w.sys, o.env);
    RoundRuns.CalmLog(g, s, "memory_updated", th.ch.cid);
    NodeLogFrame(g, s, "memory_updated", th.ch.cid);
    RoundRuns.CalmLog(g, s, "compensated", th.ch.cid);
    NodeLogFrame(g, s, "compensated", th.ch.cid);
  }

  lemma EndStatus(ch: Channels, reply: Gateway.Reply)
    requires Actionable(ch) && ch.policyRoute == Some(Pass) && ch.outcome == Some(Replied(reply)) && ch.request.Some?
    ensures var ch', done := VerifyUpdate(ch), reply.Finished? && reply.completed;
      ch'.satisfied == done && FinalStatus(ch') == (if done then SimulationCompleted else VerificationFailed)
      && ch'.satisfied == Completed(ch'.outcome)
      && (done ==> EventOf(ch') == MemoryEvent(ch.session, ch.cid, ch.request.value.capabilityId, ch.request.value.parameters,
                                               ch.request.value.deviceId, Some(reply.level)))
  {
  }

  /** A round that escalates reports that the policy, or a human, rejected it, without having
      called the gateway. */
  lemma EscalationReports(g: Gateway.Setup, fallback: Option<Risk.Context>, w: World, session: string, env: Gateway.Env)
    requires Sound(g, w) && w.sys.audit.healthy && Faultless(env) && FreshId(w, env)
    requires ThreadOf(w, session).place == Before(Escalate)
    ensures var actions := [NextNode(session, Thinking(env, None))] + [FinishRound(session, env)];
      Schedule(g, fallback, w, actions) && var w' := Play(g, fallback, w, actions);
      |w'.reports| == |w.reports| + 1 && w'.reports[..|w.reports|] == w.reports
      && w'.reports[|w.reports|].status == PolicyRejected && w'.reports[|w.reports|].deeds.called == []
      && Undisturbed(w, w') && w'.memory == w.memory
  {
    EscalateFacts(g, w, session);
    hide Sound, Schedule, Play, SameCore, FinalStatus;
    var turn := NextNode(session, Thinking(env, None));
    EscalateRuns(g, fallback, w, session, env);
    RunsThenReports(g, fallback, w, [turn], session, env);
    UndisturbedOn(w, Play(g, fallback, w, [turn]), Play(g, fallback, w, [turn] + [FinishRound(session, env)]));
  }

  lemma UndisturbedOn(w: World, w1: World, w2: World)
    requires Undisturbed(w, w1) && Undisturbed(w1, w2)
    ensures Undisturbed(w, w2)
  {
  }

  lemma EscalateRuns(g: Gateway.Setup, fallback: Option<Risk.Context>, w: World, session: string, env: Gateway.Env)
    requires ThreadOf(w, session).place == Before(Escalate) && w.sys.audit.healthy && Faultless(env) && FreshId(w, env)
    ensures var turn := NextNode(session, Thinking(env, None));
      Schedule(g, fallback, w, [turn]) && var w' := Play(g, fallback, w, [turn]);
      Stands(w', session, ThreadOf(w, session).(place := Ended)) && Aside(w, w') && w'.memory == w.memory
  {
    hide Perform, Leads, Schedule, Play;
    var turn := NextNode(session, Thinking(env, None));
    EscalateTurn(g, fallback, w, session, turn.outside);
    LeadsOne(g, fallback, w, turn);
    LeadsThere(g, fallback, w, [turn], Perform(g, fallback, w, turn));
  }

  lemma EscalateTurn(g: Gateway.Setup, fallback: Option<Risk.Context>, w: World, session: string, o: Outside)
    requires ThreadOf(w, session).place == Before(Escalate) && w.sys.audit.healthy && Faultless(o.env) && FreshId(w, o.env)
    ensures var w', th := Perform(g, fallback, w, NextNode(session, o)), ThreadOf(w, session);
      Stands(w', session, th.(place := Ended)) && Aside(w, w') && w'.memory == w.memory
  {
    hide Perform, Close;
    var th := ThreadOf(w, session);
    Logged(g, fallback, w, session, o, th, "escalated", th.ch, Ended);
  }

  lemma EscalateFacts(g: Gateway.Setup, w: World, session: string)
    requires Sound(g, w) && ThreadOf(w, session).place == Before(Escalate)
    ensures var th := ThreadOf(w, session); FinalStatus(th.ch) == PolicyRejected && th.deeds.called == []
  {
    StagedAt(g, w, session);
    hide Sound;
  }

  /** The memory node, exactly, whatever the channels hold: it writes if and only if verification
      was satisfied by a completed outcome and the store works, and then this event. */
  lemma MemoryExactly(g: Gateway.Setup, s: Gateway.Sys, memory: seq<MemoryEvent>, th: Thread, storeFails: bool)
    ensures var t, ch := MemoryNode(g, s, memory, th, storeFails), th.ch;
      var done := ch.satisfied && ch.outcome.Some? && ch.outcome.value.Replied? && ch.outcome.value.reply.Finished?
        && ch.outcome.value.reply.completed;
      t.memory == (if !done || storeFails then memory
                   else memory + [if ch.request.None? then MemoryEvent(ch.session, ch.cid, "", End, "", ch.verification)
                                  else MemoryEvent(ch.session, ch.cid, ch.request.value.capabilityId, ch.request.value.parameters,
                                                   ch.request.value.deviceId, ch.verification)])
      && (done && storeFails ==> t.thread.place.Crashed? && t.sys == s)
  {
    hide NodeLog;
  }

  /** A round stops where its perception source or its memory store fails, before it writes
      anything. */
  lemma FailingSourceStops(g: Gateway.Setup, s: Gateway.Sys, memory: seq<MemoryEvent>, th: Thread, fallback: Option<Risk.Context>, o: Outside)
    requires th.place == Before(Perceive) || th.place == Before(Recall)
    ensures var t := RunNode(g, s, memory, th, fallback, o);
      var fails := if th.place.node.Perceive? then o.sourceFails else th.ch.session == "" || o.storeFails;
      (fails ==> t == Turn(s, memory, th.(place := Crashed)))
      && (!fails && Calm(s) ==> t.thread == th.(place := if th.place.node.Perceive? then Before(Recall) else Before(Reason)))
  {
    hide NodeLog, SignedLog;
    if Calm(s) {
      RoundRuns.CalmLog(g, s, "perceive_complete", th.ch.cid);
      RoundRuns.CalmLog(g, s, "recall_complete", th.ch.cid);
    }
  }

  // ---------------------------------------------------------------- resume without a round

  /** A resume of a session that is not registered, or was finalized, is answered and changes
      nothing else. */
  lemma ResumeAnswers(g: Gateway.Setup, fallback: Option<Risk.Context>, w: World, session: string, approve: bool, env: Gateway.Env)
    requires !(session in w.sessions && !w.sessions[session].finalized)
    ensures Enabled(w, ResumeRound(session, approve, env))
    ensures Perform(g, fallback, w, ResumeRound(session, approve, env))
         == w.(reports := w.reports + [
              if session in w.sessions
              then Report(session, w.sessions[session].cid, ReplayRejected, None, None, NoDetails, NoDeeds(NO_CHANNELS))
              else Report(session, "", UnknownSession, None, None, NoDetails, NoDeeds(NO_CHANNELS))])
  {
  }

  /** Reporting a round finalizes its session; a round that `resume` drove finalizes the entry
      it was resumed from, if that was not cancelled meanwhile. */
  lemma ReportFinalizes(g: Gateway.Setup, fallback: Option<Risk.Context>, w: World, session: string, env: Gateway.Env)
    requires Enabled(w, FinishRound(session, env)) && w.sys.audit.healthy && Faultless(env)
    ensures var w', th := Perform(g, fallback, w, FinishRound(session, env)), ThreadOf(w, session);
      w'.sessions == (if !th.resumed then w.sessions[session := Session(th.ch.cid, true)]
                      else if session in w.sessions then w.sessions[session := w.sessions[session].(finalized := true)]
                      else w.sessions)
      && ThreadOf(w', session).place.Idle? && |w'.reports| == |w.reports| + 1
  {
    hide NodeLog, FinalReport;
    RoundRuns.CalmLog(g, Gateway.Enter(w.sys, env), "session_complete", ThreadOf(w, session).ch.cid);
  }

  // ---------------------------------------------------------------- completion

  /** The round has come back completed in this step. */
  predicate Completes(w: World, w': World, session: string) {
    ThreadOf(w, session).deeds.reply.None? && GotCompletedReply(ThreadOf(w', session).deeds)
  }

  lemma ExecuteNeverCompletes(g: Gateway.Setup, s: Gateway.Sys, th: Thread, env: Gateway.Env)
    requires th.deeds.reply.None?
    ensures !GotCompletedReply(ExecuteNode(g, s, th, env).1.deeds)
  {
    hide Close, Gateway.ExecutePreauthorized, Made, ActsPreauthorized;
    if th.ch.request.None? || th.ch.decision.None? {
      CloseHold(g, s, th, "execution_result", th.ch.cid, th.ch.(outcome := Some(MissingInputs)), Before(Verify));
    } else {
      var r, d := th.ch.request.value, th.ch.decision.value;
      PreauthorizedExactly(g, s, r, d, env);
      var (s1, reply) := Gateway.ExecutePreauthorized(g, s, r, d, env);
      var th1 := th.(deeds := th.deeds.(called := th.deeds.called + [GatewayCall(r, d)], reply := Some(reply)));
      CloseHold(g, s1, th1, "execution_result", r.cid, th.ch.(outcome := Some(Replied(reply))), Before(Verify));
    }
  }

  lemma NodeNeverCompletes(g: Gateway.Setup, s: Gateway.Sys, memory: seq<MemoryEvent>, th: Thread, fallback: Option<Risk.Context>, o: Outside)
    requires th.place.Before? && th.deeds.reply.None?
    ensures !GotCompletedReply(RunNode(g, s, memory, th, fallback, o).thread.deeds)
  {
    hide MemoryNode, RunPlainNode, ExecuteNode;
    if th.place.node.MemoryUpdate? {
      MemoryMoves(g, s, memory, th, o.storeFails);
    } else if th.place.node.Execute? {
      RoundMemory.ExecuteIsPlain(g, s, th, fallback, o);
      ExecuteNeverCompletes(g, s, th, o.env);
    } else {
      PlainMoves(g, s, th, fallback, o);
    }
  }

  lemma WakeIsEarned(g: Gateway.Setup, s: Gateway.Sys, th: Thread, answer: Option<Evidence>)
    requires Safe(g, s) && th.place.Awaiting? && th.place.token in s.parked && th.deeds.reply.None?
    requires GotCompletedReply(WakeNode(g, s, th, answer).1.deeds)
    ensures var reply := WakeNode(g, s, th, answer).1.deeds.reply.value;
      reply.Finished? && Earned(s.parked[th.place.token], answer, true, reply.level)
  {
    hide Safe, Gateway.Resume, Close, Earned;
    ResumeEarned(g, s, th.place.token, answer);
    var (s1, reply) := Gateway.Resume(g, s, th.place.token, answer);
    CloseHold(g, s1, th.(deeds := th.deeds.(reply := Some(reply))), "execution_result", s.parked[th.place.token].request.cid,
              th.ch.(outcome := Some(Replied(reply))), Before(Verify));
  }

  lemma StepEarned(g: Gateway.Setup, fallback: Option<Risk.Context>, w: World, a: Action, session: string)
    requires Sound(g, w) && Enabled(w, a) && Completes(w, Perform(g, fallback, w, a), session)
    ensures a.AdapterAnswers? && a.session == session
      && var reply := ThreadOf(Perform(g, fallback, w, a), session).deeds.reply.value;
         Earned(w.sys.parked[ThreadOf(w, session).place.token], a.answer, true, reply.level)
  {
    OnlyAnswers(g, fallback, w, a, session);
    SoundSafe(g, w);
    EnterSame(g, w.sys, a.env);
    hide Sound, Safe, WakeNode, Earned, GotCompleted;
    WakeIsEarned(g, Gateway.Enter(w.sys, a.env), ThreadOf(w, session), a.answer);
  }

  lemma OnlyAnswers(g: Gateway.Setup, fallback: Option<Risk.Context>, w: World, a: Action, session: string)
    requires Enabled(w, a) && Completes(w, Perform(g, fallback, w, a), session)
    ensures a.AdapterAnswers? && a.session == session
  {
    hide Perform, Enabled, Completed;
    if a.Other? || a.Cancel? || a.session != session {
      OthersThread(g, fallback, w, a, session);
    } else if !a.AdapterAnswers? {
      OwnTurn(g, fallback, w, a);
    }
  }

  /** A step of another session, or of nobody's, leaves a thread as it is. */
  lemma OthersThread(g: Gateway.Setup, fallback: Option<Risk.Context>, w: World, a: Action, session: string)
    requires Enabled(w, a) && (a.Other? || a.Cancel? || a.session != session)
    ensures ThreadOf(Perform(g, fallback, w, a), session) == ThreadOf(w, session)
  {
    hide RunNode, WakeNode, ReviewNode, NodeLog, Gateway.Perform, FinalReport, GotCompleted;
  }

  lemma OwnTurn(g: Gateway.Setup, fallback: Option<Risk.Context>, w: World, a: Action)
    requires Enabled(w, a) && !a.Other? && !a.Cancel? && !a.AdapterAnswers?
    ensures !Completes(w, Perform(g, fallback, w, a), a.session)
  {
    hide RunNode, ReviewNode, NodeLog, FinalReport, GotCompleted, HeightBefore;
    var th := ThreadOf(w, a.session);
    if th.deeds.reply.None? {
      match a {
        case NextNode(_, o) => NodeNeverCompletes(g, Gateway.Enter(w.sys, o.env), w.memory, th, fallback, o);
        case ResumeRound(_, approve, env) => ReviewMoves(g, Gateway.Enter(w.sys, env), Resuming(th, approve), approve, fallback, env);
        case _ =>
      }
    }
  }

  /** In every run: a round comes back completed only by its adapter's answer, and if it wrote,
      only when that answer is worth what the capability requires. */
  lemma RoundCompletionIsEarned(g: Gateway.Setup, fallback: Option<Risk.Context>, audit: Store, actions: seq<Action>, a: Action,
                                session: string)
    requires Schedule(g, fallback, NewWorld(audit), actions) && Enabled(Play(g, fallback, NewWorld(audit), actions), a)
    requires var w := Play(g, fallback, NewWorld(audit), actions); Completes(w, Perform(g, fallback, w, a), session)
    ensures var w := Play(g, fallback, NewWorld(audit), actions);
      a.AdapterAnswers? && a.session == session
      && var reply := ThreadOf(Perform(g, fallback, w, a), session).deeds.reply.value;
         Earned(w.sys.parked[ThreadOf(w, session).place.token], a.answer, true, reply.level)
  {
    NewWorldSound(g, audit);
    hide Play, Schedule, Sound, Perform, Enabled, Completes, Earned;
    RunSound(g, fallback, NewWorld(audit), actions);
    StepEarned(g, fallback, Play(g, fallback, NewWorld(audit), actions), a, session);
  }
}
