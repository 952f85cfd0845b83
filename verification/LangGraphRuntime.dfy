/** The node handlers of the graph, working on the shared gateway objects.  Each is proved
    to do what its node does in `Rounds`. */
module NodeHandlers {
  import opened Prelude
  import opened Capability
  import opened Policy
  import opened Execution
  import opened Approval
  import opened AuditLog
  import G = Gateway
  import opened GatewaySafety
  import opened CapabilityGateway
  import opened Rounds
  import Risk

  /** `audit.append` */
  method Append(gw: CapabilityGateway, kind: string, cid: string) returns (ok: bool)
    requires gw.Valid()
    modifies gw.Repr
    ensures gw.Valid() && gw.Repr == old(gw.Repr)
    ensures (gw.View(), ok) == NodeLog(gw.Config(), old(gw.View()), kind, cid)
  {
    gw.Reads();
    hide gw.Valid, gw.View, AuditLog.Append;
    ok := gw.WriteAudit(kind, cid, if gw.faults == [] then NoFault else gw.faults[0]);
    gw.Settle(G.KRequested, cid, false);
  }

  /** The last audit entry of a node, its update, and the edge to the next node. */
  method CloseNode(gw: CapabilityGateway, th: Thread, kind: string, cid: string, ch: Channels, next: Place) returns (th': Thread)
    requires gw.Valid()
    modifies gw.Repr
    ensures gw.Valid() && gw.Repr == old(gw.Repr)
    ensures (gw.View(), th') == Close(gw.Config(), old(gw.View()), th, kind, cid, ch, next)
  {
    hide gw.Valid, gw.View, NodeLog;
    var ok := Append(gw, kind, cid);
    return if ok then th.(ch := ch, place := next) else Stop(th);
  }

  method Reason(gw: CapabilityGateway, th: Thread, answer: Option<Reasoning>) returns (th': Thread)
    requires gw.Valid()
    modifies gw.Repr
    ensures gw.Valid() && gw.Repr == old(gw.Repr)
    ensures (gw.View(), th') == ReasonNode(gw.Config(), old(gw.View()), th, answer)
  {
    hide gw.Valid, gw.View, Close;
    var ch := ReasonUpdate(th.ch, answer);
    th' := CloseNode(gw, th, if answer.Some? then "reason_complete" else "reason_failed", th.ch.cid, ch, RouteAfterReason(ch));
  }

  method MakePlan(gw: CapabilityGateway, th: Thread) returns (th': Thread)
    requires gw.Valid()
    modifies gw.Repr
    ensures gw.Valid() && gw.Repr == old(gw.Repr)
    ensures (gw.View(), th') == PlanNode(gw.Config(), old(gw.View()), th)
  {
    hide gw.Valid, gw.View, Close, PlannedRequest;
    var ch := th.ch;
    if ch.reasoning.None? { return Stop(th); }
    if ch.reasoning.value.route == NoopRoute { return th.(ch := ch.(plan := None), place := Before(PolicyGate)); }
    if ch.cid == "" || PrincipalOf(ch) == "" { return Stop(th); }
    var plan := RoundPlan(ch.session, ch.cid, [PlannedRequest(ch, ch.reasoning.value)]);
    th' := CloseNode(gw, th, "plan_created", ch.cid, ch.(plan := Some(plan)), Before(PolicyGate));
  }

  /** `policy_gate` */
  method PolicyGateNode(gw: CapabilityGateway, th: Thread, fallback: Option<Risk.Context>, env: G.Env) returns (th': Thread)
    requires gw.Valid() && gw.Sees(env)
    modifies gw.Repr
    ensures gw.Valid() && gw.Repr == old(gw.Repr)
    ensures (gw.View(), th') == GateNode(gw.Config(), old(gw.View()), th, fallback, env)
  {
    assert gw.policy !in gw.Repr && gw.adapters !in gw.Repr;
    hide gw.Valid, gw.View, Extract, Evaluate, GateJudged;
    match Extract(th.ch) {
      case Unclear(error) =>
        var ch := RejectUpdate(th.ch, error);
        return th.(ch := ch, place := RouteAfterPolicy(ch), deeds := th.deeds.(unreadable := Some(error)));
      case Canonical(r) =>
        var v := gw.Judge(r, RiskOf(th.ch, fallback), env.now);
        th' := GateAnswer(gw, th.(deeds := th.deeds.(judged := th.deeds.judged + [Judgement(r, v)])), r, v, env);
    }
  }

  method GateAnswer(gw: CapabilityGateway, th: Thread, r: Request, v: Verdict, env: G.Env) returns (th': Thread)
    requires gw.Valid()
    modifies gw.Repr
    ensures gw.Valid() && gw.Repr == old(gw.Repr)
    ensures (gw.View(), th') == GateJudged(gw.Config(), old(gw.View()), th, r, v, env)
  {
    hide gw.Valid, gw.View, Close, NodeLog, GateDecided;
    if !v.Decided? {
      var ch := RejectUpdate(th.ch, EvaluationFailed(v));
      th' := CloseNode(gw, th, "policy_rejected", r.cid, ch, RouteAfterPolicy(ch));
    } else {
      var ok := Append(gw, "policy_evaluated", r.cid);
      if ok { th' := GateDecision(gw, th, r, v.decision, env); } else { th' := Stop(th); }
    }
  }

  method GateDecision(gw: CapabilityGateway, th: Thread, r: Request, d: Decision, env: G.Env) returns (th': Thread)
    requires gw.Valid()
    modifies gw.Repr
    ensures gw.Valid() && gw.Repr == old(gw.Repr)
    ensures (gw.View(), th') == GateDecided(gw.Config(), old(gw.View()), th, r, d, env)
  {
    hide gw.Valid, gw.View, Close, RequestApproval, Digest;
    var ch := JudgedUpdate(th.ch, r, d);
    match DerivePolicyRoute(d) {
      case Refuse => th' := CloseNode(gw, th, "policy_rejected", r.cid, ch, RouteAfterPolicy(ch));
      case Pass => return th.(ch := ch, place := RouteAfterPolicy(ch));
      case AskHuman =>
        gw.AskFor(env.freshId, r, d.tier, env.now);
        var ch' := ch.(approvalId := Some(env.freshId), digest := Some(Digest(gw.approval.binding, r)), needsReview := true);
        th' := CloseNode(gw, th.(deeds := th.deeds.(asked := Some(env.freshId))), "needs_approval", r.cid, ch', RouteAfterPolicy(ch'));
    }
  }

  /** `human_review`, resumed. */
  method HumanReview(gw: CapabilityGateway, th: Thread, approve: bool, fallback: Option<Risk.Context>, env: G.Env)
    returns (th': Thread)
    requires gw.Valid() && gw.Sees(env)
    modifies gw.Repr
    ensures gw.Valid() && gw.Repr == old(gw.Repr)
    ensures (gw.View(), th') == ReviewNode(gw.Config(), old(gw.View()), th, approve, fallback, env)
  {
    assert gw.policy !in gw.Repr && gw.adapters !in gw.Repr;
    hide gw.Valid, gw.View, Evaluate, ReviewJudged, ReviewRefused;
    if !approve || th.ch.request.None? {
      th' := RefuseReview(gw, th, "approval_rejected");
    } else {
      var r := th.ch.request.value;
      var v := gw.Judge(r, RiskOf(th.ch, fallback), env.now);
      th' := ReviewAnswer(gw, th.(deeds := th.deeds.(judged := th.deeds.judged + [Judgement(r, v)])), r, v, env);
    }
  }

  method RefuseReview(gw: CapabilityGateway, th: Thread, kind: string) returns (th': Thread)
    requires gw.Valid()
    modifies gw.Repr
    ensures gw.Valid() && gw.Repr == old(gw.Repr)
    ensures (gw.View(), th') == ReviewRefused(gw.Config(), old(gw.View()), th, kind)
  {
    hide gw.Valid, gw.View, Close;
    var ch := RefuseUpdate(th.ch);
    th' := CloseNode(gw, th, kind, th.ch.cid, ch, RouteAfterHumanReview(ch));
  }

  method ReviewAnswer(gw: CapabilityGateway, th: Thread, r: Request, v: Verdict, env: G.Env) returns (th': Thread)
    requires gw.Valid()
    modifies gw.Repr
    ensures gw.Valid() && gw.Repr == old(gw.Repr)
    ensures (gw.View(), th') == ReviewJudged(gw.Config(), old(gw.View()), th, r, v, env)
  {
    hide gw.Valid, gw.View, Close, ReviewRefused, CheckConsume;
    if !v.Decided? {
      th' := RefuseReview(gw, th, "approval_rejected");
      return;
    }
    if !v.decision.allowed {
      th' := RefuseReview(gw, th, "policy_rejected_after_approval");
      return;
    }
    var id, tier := th.ch.approvalId.GetOr(""), v.decision.tier;
    var refusal := gw.Spend(id, r, tier, env.now);
    if refusal.Some? {
      th' := RefuseReview(gw, th, "approval_rejected");
      return;
    }
    var ch := PassUpdate(th.ch);
    th' := CloseNode(gw, th.(deeds := th.deeds.(spent := th.deeds.spent + [Spending(id, r, tier)])), "approval_consumed",
                     th.ch.cid, ch, RouteAfterHumanReview(ch));
  }

  /** `execute`: hands this round's request and decision to the gateway. */
  method ExecuteHandler(gw: CapabilityGateway, th: Thread, env: G.Env) returns (th': Thread)
    requires gw.Valid() && gw.Sees(env)
    modifies gw.Repr
    ensures gw.Valid() && fresh(gw.Repr - old(gw.Repr))
    ensures (gw.View(), th') == ExecuteNode(gw.Config(), G.Enter(old(gw.View()), env), th, env)
  {
    gw.Reads();
    hide gw.Valid, gw.View, Close, AfterGateway, G.ExecutePreauthorized;
    if th.ch.request.None? || th.ch.decision.None? {
      gw.Enter(env);
      th' := CloseNode(gw, th, "execution_result", th.ch.cid, th.ch.(outcome := Some(MissingInputs)), Before(Verify));
    } else {
      var r, d := th.ch.request.value, th.ch.decision.value;
      var reply := gw.ExecuteAuthorizedSimulation(r, d, env);
      th' := AfterCall(gw, th.(deeds := th.deeds.(called := th.deeds.called + [GatewayCall(r, d)])), r, reply);
    }
  }

  /** What the execute node does with what the gateway call has come to. */
  method AfterCall(gw: CapabilityGateway, th: Thread, r: Request, reply: G.Reply) returns (th': Thread)
    requires gw.Valid()
    modifies gw.Repr
    ensures gw.Valid() && gw.Repr == old(gw.Repr)
    ensures (gw.View(), th') == AfterGateway(gw.Config(), old(gw.View()), th, r, reply)
  {
    hide gw.Valid, gw.View, Close;
    match reply {
      case Waiting(token) => return th.(place := Awaiting(token), deeds := th.deeds.(token := Some(token)));
      case Exception(_) => return Stop(th);
      case _ =>
        th' := CloseNode(gw, th.(deeds := th.deeds.(reply := Some(reply))), "execution_result", r.cid,
                         th.ch.(outcome := Some(Replied(reply))), Before(Verify));
    }
  }

  /** The gateway call that the round waits for goes on. */
  method Wake(gw: CapabilityGateway, th: Thread, answer: Option<Evidence>, env: G.Env) returns (th': Thread)
    requires gw.Valid() && Safe(gw.Config(), gw.View()) && th.place.Awaiting? && th.place.token in gw.parked
    modifies gw.Repr
    ensures gw.Valid() && gw.Repr == old(gw.Repr)
    ensures th.place.token in G.Enter(old(gw.View()), env).parked
      && (gw.View(), th') == WakeNode(gw.Config(), G.Enter(old(gw.View()), env), th, answer)
  {
    gw.Reads();
    hide gw.Valid, gw.View, Safe, AfterGateway, G.Resume, NoCoordinatorError;
    var r := gw.parked[th.place.token].request;
    var reply := gw.Resume(th.place.token, answer, env);
    th' := AfterCall(gw, th, r, reply);
  }

  method VerifyHandler(gw: CapabilityGateway, th: Thread) returns (th': Thread)
    requires gw.Valid()
    modifies gw.Repr
    ensures gw.Valid() && gw.Repr == old(gw.Repr)
    ensures (gw.View(), th') == VerifyNode(gw.Config(), old(gw.View()), th)
  {
    hide gw.Valid, gw.View, Close, Completed, LevelIn;
    var ch := VerifyUpdate(th.ch);
    th' := CloseNode(gw, th, "verification_result", th.ch.cid, ch, RouteAfterVerify(ch));
  }

  /** The memory store, as far as rounds write to it. */
  class MemoryStore {
    var events: seq<MemoryEvent>

    constructor ()
      ensures events == []
    {
      events := [];
    }

    method AppendEvent(e: MemoryEvent)
      modifies this
      ensures events == old(events) + [e]
    {
      events := events + [e];
    }
  }

  /** `memory_update`: only a completed execution is written down. */
  method UpdateMemory(gw: CapabilityGateway, store: MemoryStore, th: Thread, storeFails: bool) returns (th': Thread)
    requires gw.Valid() && store !in gw.Repr
    modifies gw.Repr, store
    ensures gw.Valid() && gw.Repr == old(gw.Repr)
    ensures Turn(gw.View(), store.events, th') == MemoryNode(gw.Config(), old(gw.View()), old(store.events), th, storeFails)
  {
    hide gw.Valid, gw.View, Close, Completed, EventOf;
    if !th.ch.satisfied || !Completed(th.ch.outcome) {
      th' := CloseNode(gw, th, "memory_skipped", th.ch.cid, th.ch, Ended);
      return;
    }
    if storeFails { return Stop(th); }
    store.AppendEvent(EventOf(th.ch));
    th' := CloseNode(gw, th.(deeds := th.deeds.(events := th.deeds.events + 1)), "memory_updated", th.ch.cid, th.ch, Ended);
  }

  /** The nodes that only read, log and route. */
  method Simple(gw: CapabilityGateway, th: Thread, o: Outside, fallback: Option<Risk.Context>) returns (th': Thread)
    requires gw.Valid() && th.place.Before?
    requires th.place.node.Perceive? || th.place.node.Recall? || th.place.node.HumanReview? || th.place.node.Compensate? || th.place.node.Escalate?
    modifies gw.Repr
    ensures gw.Valid() && gw.Repr == old(gw.Repr)
    ensures (gw.View(), th') == RunPlainNode(gw.Config(), old(gw.View()), th, fallback, o)
  {
    hide gw.Valid, gw.View, Close;
    var node := th.place.node;
    if node.Perceive? {
      if o.sourceFails { return Stop(th); }
      th' := CloseNode(gw, th, "perceive_complete", th.ch.cid, th.ch, Before(Recall));
    } else if node.Recall? {
      if th.ch.session == "" || o.storeFails { return Stop(th); }
      th' := CloseNode(gw, th, "recall_complete", th.ch.cid, th.ch, Before(Node.Reason));
    } else if node.HumanReview? {
      return th.(place := Paused);
    } else if node.Compensate? {
      th' := CloseNode(gw, th, "compensated", th.ch.cid, th.ch, Ended);
    } else {
      th' := CloseNode(gw, th, "escalated", th.ch.cid, th.ch, Ended);
    }
  }

  /** Runs the node a thread stands before. */
  method RunHandler(gw: CapabilityGateway, store: MemoryStore, th: Thread, fallback: Option<Risk.Context>, o: Outside)
    returns (th': Thread)
    requires gw.Valid() && gw.Sees(o.env) && store !in gw.Repr && th.place.Before?
    modifies gw.Repr, store
    ensures gw.Valid() && fresh(gw.Repr - old(gw.Repr))
    ensures Turn(gw.View(), store.events, th')
      == RunNode(gw.Config(), G.Enter(old(gw.View()), o.env), old(store.events), th, fallback, o)
  {
    hide gw.Valid, gw.View, RunPlainNode, MemoryNode;
    if th.place.node.MemoryUpdate? {
      gw.Enter(o.env);
      th' := UpdateMemory(gw, store, th, o.storeFails);
    } else {
      th' := RunPlain(gw, th, fallback, o);
    }
  }

  method RunPlain(gw: CapabilityGateway, th: Thread, fallback: Option<Risk.Context>, o: Outside) returns (th': Thread)
    requires gw.Valid() && gw.Sees(o.env) && th.place.Before? && !th.place.node.MemoryUpdate?
    modifies gw.Repr
    ensures gw.Valid() && fresh(gw.Repr - old(gw.Repr))
    ensures (gw.View(), th') == RunPlainNode(gw.Config(), G.Enter(old(gw.View()), o.env), th, fallback, o)
  {
    if th.place.node.Execute? {
      hide gw.Valid, gw.View, ExecuteNode;
      th' := ExecuteHandler(gw, th, o.env);
    } else {
      assert gw.policy !in gw.Repr && gw.adapters !in gw.Repr;
      gw.Enter(o.env);
      th' := RunQuiet(gw, th, fallback, o);
    }
  }

  method RunQuiet(gw: CapabilityGateway, th: Thread, fallback: Option<Risk.Context>, o: Outside) returns (th': Thread)
    requires gw.Valid() && gw.Sees(o.env) && th.place.Before? && !th.place.node.MemoryUpdate? && !th.place.node.Execute?
    modifies gw.Repr
    ensures gw.Valid() && gw.Repr == old(gw.Repr)
    ensures (gw.View(), th') == RunPlainNode(gw.Config(), old(gw.View()), th, fallback, o)
  {
    hide gw.Valid, gw.View, ReasonNode, PlanNode, GateNode, VerifyNode, Close;
    var node := th.place.node;
    if node.Reason? {
      th' := Reason(gw, th, o.reasoning);
    } else if node.MakePlan? {
      th' := MakePlan(gw, th);
    } else if node.PolicyGate? {
      th' := PolicyGateNode(gw, th, fallback, o.env);
    } else if node.Verify? {
      th' := VerifyHandler(gw, th);
    } else {
      th' := Simple(gw, th, o, fallback);
    }
  }
}

/** `LangGraphRuntime`: the session table and the threads of the checkpointer, over the
    shared gateway and memory store.  Each public method performs one action of `Rounds` and
    keeps what is proved of every run, so calls can be chained, and so can calls of others
    to the gateway, which perform `Other`. */
module LangGraphRuntime {
  import opened Prelude
  import opened Capability
  import opened Policy
  import opened Execution
  import opened Approval
  import G = Gateway
  import opened GatewaySafety
  import opened CapabilityGateway
  import opened Rounds
  import opened RoundSafety
  import opened RoundMemory
  import opened NodeHandlers
  import Risk

  /** What holds in every world a run can reach. */
  ghost predicate Reachable(g: G.Setup, w: World) { Sound(g, w) && Ledger(w) }

  lemma StepReachable(g: G.Setup, fallback: Option<Risk.Context>, w: World, a: Action)
    requires Reachable(g, w) && Enabled(w, a)
    ensures Reachable(g, Perform(g, fallback, w, a))
  {
    hide Sound, Ledger, Perform, Enabled;
    StepSound(g, fallback, w, a);
    StepLedger(g, fallback, w, a);
  }

  lemma BeginReachable(g: G.Setup, s: G.Sys)
    requires Safe(g, s)
    ensures Reachable(g, World(s, [], map[], map[], [], [], [], 0))
  {
    hide Safe;
  }

  lemma ReachableSafe(g: G.Setup, w: World)
    requires Reachable(g, w)
    ensures Safe(g, w.sys)
  {
    hide Safe, Ledger, AllStaged, AllHonest;
  }

  class LangGraphRuntime {
    const gateway: CapabilityGateway
    const memory: MemoryStore
    const riskContext: Option<Risk.Context>
    var sessions: map<string, Session>
    var threads: map<string, Thread>
    ghost var reports: seq<Report>
    ghost var completed: seq<nat>
    ghost var written: seq<nat>
    ghost var stops: nat

    ghost predicate Valid()
      reads this, memory, gateway, gateway.Repr
    {
      this !in gateway.Repr && memory !in gateway.Repr && gateway.Valid()
    }

    ghost function View(): World
      requires Valid()
      reads this, memory, gateway, gateway.Repr
    {
      World(gateway.View(), memory.events, threads, sessions, reports, completed, written, stops)
    }

    /** The runtime's world is one that a run can reach. */
    ghost predicate Good()
      requires Valid()
      reads this, memory, gateway, gateway.Repr
    {
      Reachable(gateway.Config(), View())
    }

    /** Over any gateway that is safe, such as one in use already. */
    constructor (gateway: CapabilityGateway, memory: MemoryStore, riskContext: Option<Risk.Context>)
      requires gateway.Valid() && memory !in gateway.Repr && Safe(gateway.Config(), gateway.View())
      requires memory.events == []
      ensures Valid() && Good() && View() == World(gateway.View(), [], map[], map[], [], [], [], 0)
      ensures this.gateway == gateway && this.memory == memory && this.riskContext == riskContext
    {
      this.gateway, this.memory, this.riskContext := gateway, memory, riskContext;
      sessions, threads, reports, completed, written, stops := map[], map[], [], [], [], 0;
      new;
      hide gateway.Valid, gateway.View, Safe, Reachable;
      BeginReachable(gateway.Config(), gateway.View());
    }

    method ThreadAt(session: string) returns (th: Thread)
      requires Valid()
      ensures th == ThreadOf(View(), session)
    {
      return if session in threads then threads[session] else NEW_THREAD;
    }

    /** Writes the checkpoint of a turn that began in world `w`. */
    method Keep(session: string, th: Thread, ghost w: World)
      requires Valid() && View() == w.(sys := View().sys, memory := View().memory)
      modifies this
      ensures Valid() && gateway.Repr == old(gateway.Repr) && session in threads && threads[session] == th
      ensures View() == Settle(w, session, Turn(old(View()).sys, old(View()).memory, th))
    {
      hide gateway.Valid, gateway.View, GotCompleted;
      ghost var done := Settle(w, session, Turn(View().sys, View().memory, th));
      threads := threads[session := th];
      completed, written, stops := done.completed, done.written, done.stops;
    }

    /** `run`, up to the first node; false when the audit append raises. */
    method Run(session: string, cid: string, intent: Intent, risk: Risk.Context, env: G.Env) returns (ok: bool)
      requires Valid() && Good() && Enabled(View(), BeginRound(session, cid, intent, risk, env))
      modifies this, memory, gateway.Repr
      ensures Valid() && Good() && gateway.Repr == old(gateway.Repr)
      ensures View() == Perform(gateway.Config(), riskContext, old(View()), BeginRound(session, cid, intent, risk, env))
    {
      hide Valid, View, StartRound, Reachable;
      StepReachable(gateway.Config(), riskContext, View(), BeginRound(session, cid, intent, risk, env));
      ok := Started(session, cid, intent, risk, env);
    }

    method Started(session: string, cid: string, intent: Intent, risk: Risk.Context, env: G.Env) returns (ok: bool)
      requires Valid()
      modifies this, memory, gateway.Repr
      ensures Valid() && gateway.Repr == old(gateway.Repr)
      ensures View() == StartRound(gateway.Config(), old(View()), session, cid, intent, risk, env)
    {
      hide gateway.Valid, gateway.View, NodeLog;
      var th := ThreadAt(session);
      gateway.Enter(env);
      ok := Append(gateway, "user_input_received", cid);
      if ok {
        threads := threads[session := Thread(StartChannels(th.ch, session, cid, intent, risk), Before(Perceive), false, NoDeeds(th.ch))];
      }
    }

    /** One node of the session's graph; when it suspends, `run` answers `needs_approval`. */
    method RunNextNode(session: string, o: Outside) returns (result: Option<Report>)
      requires Valid() && Good() && gateway.Sees(o.env) && Enabled(View(), NextNode(session, o))
      modifies this, memory, gateway.Repr
      ensures Valid() && Good() && fresh(gateway.Repr - old(gateway.Repr))
      ensures View() == Perform(gateway.Config(), riskContext, old(View()), NextNode(session, o))
      ensures result == if ThreadOf(View(), session).place.Paused? then Some(View().reports[|old(View()).reports|]) else None
    {
      hide Valid, View, RunNode, Reachable;
      StepReachable(gateway.Config(), riskContext, View(), NextNode(session, o));
      var th := ThreadAt(session);
      th := Turned(session, th, o);
      result := SuspendIfPaused(session, th);
    }

    /** Runs the node and keeps its checkpoint. */
    method Turned(session: string, th: Thread, o: Outside) returns (th': Thread)
      requires Valid() && gateway.Sees(o.env) && th == ThreadOf(View(), session) && th.place.Before?
      modifies this, memory, gateway.Repr
      ensures Valid() && fresh(gateway.Repr - old(gateway.Repr)) && th' == ThreadOf(View(), session)
      ensures View() == Settle(old(View()), session,
                          RunNode(gateway.Config(), G.Enter(old(View()).sys, o.env), old(View()).memory, th, riskContext, o))
    {
      hide gateway.Valid, gateway.View, RunNode, Settle;
      ghost var w := View();
      th' := RunHandler(gateway, memory, th, riskContext, o);
      Keep(session, th', w);
    }

    method SuspendIfPaused(session: string, th: Thread) returns (result: Option<Report>)
      requires Valid() && th == ThreadOf(View(), session)
      modifies this
      ensures Valid() && gateway.Repr == old(gateway.Repr) && View() == Suspended(old(View()), session)
      ensures result == if th.place.Paused? then Some(AskingReport(session, th)) else None
    {
      hide gateway.Valid, gateway.View;
      if !th.place.Paused? { return None; }
      sessions := sessions[session := Session(th.ch.cid, false)];
      reports := reports + [AskingReport(session, th)];
      return Some(AskingReport(session, th));
    }

    /** The adapter answers the call that the session's round waits for. */
    method AdapterAnswers(session: string, answer: Option<Evidence>, env: G.Env)
      requires Valid() && Good() && Enabled(View(), Action.AdapterAnswers(session, answer, env))
      modifies this, memory, gateway.Repr
      ensures Valid() && Good() && gateway.Repr == old(gateway.Repr)
      ensures View() == Perform(gateway.Config(), riskContext, old(View()), Action.AdapterAnswers(session, answer, env))
    {
      hide Valid, View, WakeNode, Settle, Reachable, Safe;
      StepReachable(gateway.Config(), riskContext, View(), Action.AdapterAnswers(session, answer, env));
      ReachableSafe(gateway.Config(), View());
      Answered(session, answer, env);
    }

    method Answered(session: string, answer: Option<Evidence>, env: G.Env)
      requires Valid() && Safe(gateway.Config(), View().sys)
      requires ThreadOf(View(), session).place.Awaiting? && ThreadOf(View(), session).place.token in View().sys.parked
      modifies this, memory, gateway.Repr
      ensures Valid() && gateway.Repr == old(gateway.Repr)
      ensures var w := old(View());
        var (s, th) := WakeNode(gateway.Config(), G.Enter(w.sys, env), ThreadOf(w, session), answer);
        View() == Settle(w, session, Turn(s, w.memory, th))
    {
      gateway.Reads();
      hide gateway.Valid, gateway.View, Safe, WakeNode, Settle;
      ghost var w := View();
      var th := ThreadAt(session);
      th := Wake(gateway, th, answer, env);
      Keep(session, th, w);
    }

    /** `resume`: unknown and finalized sessions are answered from the table alone. */
    method Resume(session: string, approve: bool, env: G.Env) returns (result: Option<Report>)
      requires Valid() && Good() && gateway.Sees(env) && Enabled(View(), ResumeRound(session, approve, env))
      modifies this, memory, gateway.Repr
      ensures Valid() && Good() && gateway.Repr == old(gateway.Repr)
      ensures View() == Perform(gateway.Config(), riskContext, old(View()), ResumeRound(session, approve, env))
      ensures match ResumeStatus(old(View()), session)
        case None => result.None?
        case Some(status) => result == Some(TableReport(old(View()), session, status))
    {
      hide Valid, View, TakeUp, Reachable, ResumeStatus;
      StepReachable(gateway.Config(), riskContext, View(), ResumeRound(session, approve, env));
      result := TakenUp(session, approve, env);
    }

    method TakenUp(session: string, approve: bool, env: G.Env) returns (result: Option<Report>)
      requires Valid() && gateway.Sees(env) && Enabled(View(), ResumeRound(session, approve, env))
      modifies this, memory, gateway.Repr
      ensures Valid() && gateway.Repr == old(gateway.Repr)
      ensures View() == TakeUp(gateway.Config(), riskContext, old(View()), session, approve, env)
      ensures match ResumeStatus(old(View()), session)
        case None => result.None?
        case Some(status) => result == Some(TableReport(old(View()), session, status))
    {
      hide gateway.Valid, gateway.View, ReviewNode, Settle;
      if session !in sessions {
        var answer := Report(session, "", UnknownSession, None, None, NoDetails, NoDeeds(NO_CHANNELS));
        reports := reports + [answer];
        return Some(answer);
      }
      if sessions[session].finalized {
        var answer := Report(session, sessions[session].cid, ReplayRejected, None, None, NoDetails, NoDeeds(NO_CHANNELS));
        reports := reports + [answer];
        return Some(answer);
      }
      Review(session, approve, env);
      return None;
    }

    method Review(session: string, approve: bool, env: G.Env)
      requires Valid() && gateway.Sees(env)
      modifies this, memory, gateway.Repr
      ensures Valid() && gateway.Repr == old(gateway.Repr)
      ensures var w := old(View());
        var (s, th) := ReviewNode(gateway.Config(), G.Enter(w.sys, env), Resuming(ThreadOf(w, session), approve), approve,
                                  riskContext, env);
        View() == Settle(w, session, Turn(s, w.memory, th))
    {
      hide gateway.Valid, gateway.View, ReviewNode, Settle;
      gateway.Reads();
      ghost var w := View();
      var th := ThreadAt(session);
      gateway.Enter(env);
      th := NodeHandlers.HumanReview(gateway, Resuming(th, approve), approve, riskContext, env);
      Keep(session, th, w);
    }

    /** `_finalize`; no result when the audit append raises. */
    method Finish(session: string, env: G.Env) returns (result: Option<Report>)
      requires Valid() && Good() && Enabled(View(), FinishRound(session, env))
      modifies this, memory, gateway.Repr
      ensures Valid() && Good() && gateway.Repr == old(gateway.Repr)
      ensures View() == Perform(gateway.Config(), riskContext, old(View()), FinishRound(session, env))
      ensures result == if ThreadOf(View(), session).place.Idle? then Some(FinalReport(session, ThreadOf(old(View()), session))) else None
    {
      hide Valid, View, NodeLog, FinalReport, Reachable;
      StepReachable(gateway.Config(), riskContext, View(), FinishRound(session, env));
      var th := ThreadAt(session);
      var ok := LogAt("session_complete", th.ch.cid, env);
      result := Close(session, th, ok);
    }

    method LogAt(kind: string, cid: string, env: G.Env) returns (ok: bool)
      requires Valid()
      modifies this, memory, gateway.Repr
      ensures Valid() && gateway.Repr == old(gateway.Repr)
      ensures var (s, logged) := NodeLog(gateway.Config(), G.Enter(old(View()).sys, env), kind, cid);
        ok == logged && View() == old(View()).(sys := s)
    {
      hide gateway.Valid, gateway.View, NodeLog;
      gateway.Enter(env);
      ok := Append(gateway, kind, cid);
    }

    method Close(session: string, th: Thread, logged: bool) returns (result: Option<Report>)
      requires Valid()
      modifies this
      ensures Valid() && gateway.Repr == old(gateway.Repr)
      ensures View() == Closed(old(View()), session, th, logged)
      ensures result == if logged then Some(FinalReport(session, th)) else None
    {
      hide gateway.Valid, gateway.View, FinalStatus;
      if !th.resumed { sessions := sessions[session := Session(th.ch.cid, false)]; }
      if !logged {
        threads, stops := threads[session := Stop(th)], stops + 1;
        return None;
      }
      if session in sessions { sessions := sessions[session := sessions[session].(finalized := true)]; }
      threads := threads[session := th.(place := Idle)];
      reports := reports + [FinalReport(session, th)];
      return Some(FinalReport(session, th));
    }

    /** `cancel` forgets the session; its thread keeps its channels. */
    method CancelSession(session: string)
      requires Valid() && Good()
      modifies this`sessions
      ensures Valid() && Good() && View() == Perform(gateway.Config(), riskContext, old(View()), Cancel(session))
      ensures ResumeStatus(View(), session) == Some(UnknownSession)
    {
      hide gateway.Valid, gateway.View, Reachable;
      StepReachable(gateway.Config(), riskContext, View(), Cancel(session));
      sessions := sessions - {session};
    }
  }
}
