/**
 The graph rounds of `runtime/graph.py`, the nodes of `runtime/nodes` and `runtime/langgraph.py`:
 channels that survive from round to round of a session, nodes that merge partial updates
 into them, and sessions that share one gateway.

 One step runs one node of one session, delivers one adapter answer, or lets anybody else
 use the gateway, so rounds of different sessions interleave freely.
 */
module Rounds {
  import opened Prelude
  import opened Json
  import opened Capability
  import opened Policy
  import opened Execution
  import opened Approval
  import opened AuditLog
  import opened Gateway
  import Risk

  // ---------------------------------------------------------------- channels

  datatype Route = PlanRoute | DirectRoute | NoopRoute

  datatype PolicyRoute = Pass | Refuse | AskHuman

  datatype Intent = Intent(text: string, principal: string)

  /** What the reasoning model answers; nothing is assumed of it. */
  datatype Reasoning = Reasoning(route: Route, capabilityId: Option<string>, deviceId: string, parameters: Members,
                                 rationale: string)

  datatype RoundPlan = RoundPlan(session: string, cid: string, steps: seq<Request>)

  datatype GateError =
    | NotOneStep | NoCid | CidDiffers | NoCapability | NoPrincipal | NoReasoning | Unreachable
    | EvaluationFailed(verdict: Verdict)

  /** What the execute node stores: the gateway's reply, or that its inputs were missing. */
  datatype Outcome = MissingInputs | Replied(reply: Reply)

  predicate Completed(o: Option<Outcome>) {
    o.Some? && o.value.Replied? && o.value.reply.Finished? && o.value.reply.completed
  }

  /** `AgentState`.  A channel that was never written is `None` or false, as `state.get` has it. */
  datatype Channels = Channels(
    intent: Option<Intent>, session: string, cid: string, risk: Option<Risk.Context>,
    reasoning: Option<Reasoning>, route: Option<Route>, reasoningFailed: bool, plan: Option<RoundPlan>,
    request: Option<Request>, decision: Option<Decision>, policyRoute: Option<PolicyRoute>,
    approvalId: Option<string>, digest: Option<string>, needsReview: bool, rejectReason: Option<GateError>,
    outcome: Option<Outcome>, verification: Option<Level>, satisfied: bool)

  const NO_CHANNELS := Channels(None, "", "", None, None, None, false, None, None, None, None, None, None, false, None,
                                None, None, false)

  // ---------------------------------------------------------------- the graph

  datatype Node = Perceive | Recall | Reason | MakePlan | PolicyGate | HumanReview | Execute | Verify | MemoryUpdate
                | Compensate | Escalate

  /** Where a thread stands: between rounds, before a node, suspended for approval, waiting
      for an adapter, at END but not yet interpreted, or stopped by an exception. */
  datatype Place = Idle | Before(node: Node) | Paused | Awaiting(token: nat) | Ended | Crashed

  function RouteAfterReason(ch: Channels): Place {
    if ch.route == Some(PlanRoute) then Before(MakePlan)
    else if ch.route == Some(DirectRoute) then Before(PolicyGate) else Ended
  }

  function RouteAfterPolicy(ch: Channels): Place {
    if ch.policyRoute == Some(Pass) then Before(Execute)
    else if ch.policyRoute == Some(AskHuman) then Before(HumanReview) else Before(Escalate)
  }

  function RouteAfterHumanReview(ch: Channels): Place {
    if ch.policyRoute == Some(Pass) then Before(Execute) else Before(Escalate)
  }

  function RouteAfterVerify(ch: Channels): Place {
    if ch.satisfied then Before(MemoryUpdate) else Before(Compensate)
  }

  // ---------------------------------------------------------------- history of a round

  datatype Judgement = Judgement(request: Request, verdict: Verdict)

  datatype Spending = Spending(id: string, request: Request, tier: int)

  datatype GatewayCall = GatewayCall(request: Request, decision: Decision)

  /** What one round has done, recorded where it is done: why the gate could read no request,
      the evaluations, the approval asked for, what the human answered, the grants consumed,
      the gateway calls, the adapter call and final reply of the last one, the memory events.
      `before` is what the channels held when it began. */
  datatype Deeds = Deeds(before: Channels, unreadable: Option<GateError>, judged: seq<Judgement>, asked: Option<string>,
                         approved: Option<bool>, spent: seq<Spending>, called: seq<GatewayCall>, token: Option<nat>,
                         reply: Option<Reply>, events: nat)

  function NoDeeds(before: Channels): Deeds { Deeds(before, None, [], None, None, [], [], None, None, 0) }

  /** A session's thread: its channels, where it stands, whether `resume` drives its round. */
  datatype Thread = Thread(ch: Channels, place: Place, resumed: bool, deeds: Deeds)

  const NEW_THREAD := Thread(NO_CHANNELS, Idle, false, NoDeeds(NO_CHANNELS))

  datatype MemoryEvent = MemoryEvent(session: string, cid: string, capabilityId: string, parameters: Members,
                                     deviceId: string, level: Option<Level>)

  /** What a node reads from outside. */
  datatype Outside = Outside(env: Env, reasoning: Option<Reasoning>, sourceFails: bool, storeFails: bool)

  // ---------------------------------------------------------------- node helpers

  /** `audit.append` by a node or by the runtime; false when it raises. */
  function NodeLog(g: Setup, s: Sys, kind: string, cid: string): (Sys, bool) {
    var fault := if s.faults == [] then NoFault else s.faults[0];
    var (audit, status) := Append(g.format, g.mac, s.audit, NewEntry(kind, cid, Null, s.stamp), fault);
    (s.(audit := audit, faults := if s.faults == [] then [] else s.faults[1..]), status.Fine?)
  }

  datatype Turn = Turn(sys: Sys, memory: seq<MemoryEvent>, thread: Thread)

  /** The node raised: the round is over and none of its updates is merged. */
  function Stop(th: Thread): Thread { th.(place := Crashed) }

  /** The node's last audit entry, then its update and the edge to the next node. */
  function Close(g: Setup, s: Sys, th: Thread, kind: string, cid: string, ch: Channels, next: Place): (Sys, Thread) {
    var (s', ok) := NodeLog(g, s, kind, cid);
    (s', if ok then th.(ch := ch, place := next) else Stop(th))
  }

  function OrText(a: string, b: Option<Intent>): string {
    if a != "" then a else if b.Some? then b.value.text else ""
  }

  function PrincipalOf(ch: Channels): string { if ch.intent.Some? then ch.intent.value.principal else "" }

  // ---------------------------------------------------------------- reason and plan

  function ReasonUpdate(ch: Channels, answer: Option<Reasoning>): Channels {
    match answer
    case None => ch.(reasoning := None, route := Some(NoopRoute), reasoningFailed := true, plan := None)
    case Some(d) => ch.(reasoning := Some(d), route := Some(d.route), reasoningFailed := false, plan := None)
  }

  function ReasonNode(g: Setup, s: Sys, th: Thread, answer: Option<Reasoning>): (Sys, Thread) {
    var ch := ReasonUpdate(th.ch, answer);
    Close(g, s, th, if answer.Some? then "reason_complete" else "reason_failed", th.ch.cid, ch, RouteAfterReason(ch))
  }

  function PlannedRequest(ch: Channels, d: Reasoning): Request {
    Request(d.capabilityId.GetOr(""), d.parameters, PrincipalOf(ch), d.deviceId, ch.cid, OrText(d.rationale, ch.intent))
  }

  function PlanNode(g: Setup, s: Sys, th: Thread): (Sys, Thread) {
    var ch := th.ch;
    if ch.reasoning.None? then (s, Stop(th))
    else if ch.reasoning.value.route == NoopRoute then (s, th.(ch := ch.(plan := None), place := Before(PolicyGate)))
    else if ch.cid == "" || PrincipalOf(ch) == "" then (s, Stop(th))
    else
      var plan := RoundPlan(ch.session, ch.cid, [PlannedRequest(ch, ch.reasoning.value)]);
      Close(g, s, th, "plan_created", ch.cid, ch.(plan := Some(plan)), Before(PolicyGate))
  }

  // ---------------------------------------------------------------- policy_gate

  datatype Extracted = Canonical(request: Request) | Unclear(error: GateError)

  /** `extract_canonical_request` */
  function Extract(ch: Channels): Extracted {
    match ch.route
    case Some(PlanRoute) =>
      if ch.plan.None? || |ch.plan.value.steps| != 1 then Unclear(NotOneStep)
      else
        var plan, step := ch.plan.value, ch.plan.value.steps[0];
        if ch.cid == "" then Unclear(NoCid)
        else if plan.cid != ch.cid || step.cid != ch.cid then Unclear(CidDiffers)
        else if step.capabilityId == "" then Unclear(NoCapability)
        else if step.principal == "" then Unclear(NoPrincipal)
        else Canonical(step)
    case Some(DirectRoute) =>
      if ch.reasoning.None? || ch.reasoning.value.route != DirectRoute then Unclear(NoReasoning)
      else
        var d := ch.reasoning.value;
        if d.capabilityId.GetOr("") == "" then Unclear(NoCapability)
        else if ch.cid == "" then Unclear(NoCid)
        else if PrincipalOf(ch) == "" then Unclear(NoPrincipal)
        else Canonical(PlannedRequest(ch, d))
    case _ => Unclear(Unreachable)
  }

  /** `_reject` */
  function RejectUpdate(ch: Channels, reason: GateError): Channels {
    ch.(policyRoute := Some(Refuse), decision := None, request := None, approvalId := None, digest := None,
        needsReview := false, rejectReason := Some(reason))
  }

  function DerivePolicyRoute(d: Decision): PolicyRoute {
    if !d.allowed then Refuse else if d.requiresApproval then AskHuman else Pass
  }

  /** The update after a decision, which also forgets what earlier rounds authorised. */
  function JudgedUpdate(ch: Channels, r: Request, d: Decision): Channels {
    ch.(request := Some(r), decision := Some(d), policyRoute := Some(DerivePolicyRoute(d)), approvalId := None,
        digest := None, needsReview := false)
  }

  function RiskOf(ch: Channels, fallback: Option<Risk.Context>): Option<Risk.Context> {
    if ch.risk.Some? then ch.risk else fallback
  }

  function GateNode(g: Setup, s: Sys, th: Thread, fallback: Option<Risk.Context>, env: Env): (Sys, Thread) {
    match Extract(th.ch)
    case Unclear(error) =>
      var ch := RejectUpdate(th.ch, error);
      (s, th.(ch := ch, place := RouteAfterPolicy(ch), deeds := th.deeds.(unreadable := Some(error))))
    case Canonical(r) =>
      var (ws, v) := Evaluate(env.rules, g.limits, s.windows, r, RiskOf(th.ch, fallback), env.now);
      GateJudged(g, s.(windows := ws), th.(deeds := th.deeds.(judged := th.deeds.judged + [Judgement(r, v)])), r, v, env)
  }

  function GateJudged(g: Setup, s: Sys, th: Thread, r: Request, v: Verdict, env: Env): (Sys, Thread) {
    match v
    case Decided(d) =>
      var (s', ok) := NodeLog(g, s, "policy_evaluated", r.cid);
      if !ok then (s', Stop(th)) else GateDecided(g, s', th, r, d, env)
    case _ =>
      var ch := RejectUpdate(th.ch, EvaluationFailed(v));
      Close(g, s, th, "policy_rejected", r.cid, ch, RouteAfterPolicy(ch))
  }

  function GateDecided(g: Setup, s: Sys, th: Thread, r: Request, d: Decision, env: Env): (Sys, Thread) {
    var ch := JudgedUpdate(th.ch, r, d);
    match DerivePolicyRoute(d)
    case Refuse => Close(g, s, th, "policy_rejected", r.cid, ch, RouteAfterPolicy(ch))
    case Pass => (s, th.(ch := ch, place := RouteAfterPolicy(ch)))
    case AskHuman =>
      var asked := s.(approvals := RequestApproval(g.binding, g.ttl, s.approvals, env.freshId, r, d.tier, env.now));
      var ch' := ch.(approvalId := Some(env.freshId), digest := Some(Digest(g.binding, r)), needsReview := true);
      Close(g, asked, th.(deeds := th.deeds.(asked := Some(env.freshId))), "needs_approval", r.cid, ch', RouteAfterPolicy(ch'))
  }

  // ---------------------------------------------------------------- human_review

  function RefuseUpdate(ch: Channels): Channels { ch.(policyRoute := Some(Refuse), needsReview := false) }

  function PassUpdate(ch: Channels): Channels { ch.(policyRoute := Some(Pass), needsReview := false) }

  function ReviewRefused(g: Setup, s: Sys, th: Thread, kind: string): (Sys, Thread) {
    var ch := RefuseUpdate(th.ch);
    Close(g, s, th, kind, th.ch.cid, ch, RouteAfterHumanReview(ch))
  }

  /** `human_review` after the interrupt: re-evaluate the same request, then consume. */
  function ReviewNode(g: Setup, s: Sys, th: Thread, approve: bool, fallback: Option<Risk.Context>, env: Env): (Sys, Thread) {
    if !approve || th.ch.request.None? then ReviewRefused(g, s, th, "approval_rejected")
    else
      var r := th.ch.request.value;
      var (ws, v) := Evaluate(env.rules, g.limits, s.windows, r, RiskOf(th.ch, fallback), env.now);
      ReviewJudged(g, s.(windows := ws), th.(deeds := th.deeds.(judged := th.deeds.judged + [Judgement(r, v)])), r, v, env)
  }

  function ReviewJudged(g: Setup, s: Sys, th: Thread, r: Request, v: Verdict, env: Env): (Sys, Thread) {
    if !v.Decided? then ReviewRefused(g, s, th, "approval_rejected")
    else if !v.decision.allowed then ReviewRefused(g, s, th, "policy_rejected_after_approval")
    else
      var id, tier := th.ch.approvalId.GetOr(""), v.decision.tier;
      if CheckConsume(g.binding, s.approvals, id, r, tier, env.now).Some?
      then ReviewRefused(g, s, th, "approval_rejected")
      else
        var used := s.(approvals := Consume(g.binding, s.approvals, id, r, tier, env.now));
        var ch := PassUpdate(th.ch);
        Close(g, used, th.(deeds := th.deeds.(spent := th.deeds.spent + [Spending(id, r, tier)])), "approval_consumed",
              th.ch.cid, ch, RouteAfterHumanReview(ch))
  }

  // ---------------------------------------------------------------- execute

  function ExecuteNode(g: Setup, s: Sys, th: Thread, env: Env): (Sys, Thread) {
    if th.ch.request.None? || th.ch.decision.None?
    then Close(g, s, th, "execution_result", th.ch.cid, th.ch.(outcome := Some(MissingInputs)), Before(Verify))
    else
      var r, d := th.ch.request.value, th.ch.decision.value;
      var (s', reply) := ExecutePreauthorized(g, s, r, d, env);
      AfterGateway(g, s', th.(deeds := th.deeds.(called := th.deeds.called + [GatewayCall(r, d)])), r, reply)
  }

  /** What the execute node does with what the gateway call has come to. */
  function AfterGateway(g: Setup, s: Sys, th: Thread, r: Request, reply: Reply): (Sys, Thread) {
    match reply
    case Waiting(token) => (s, th.(place := Awaiting(token), deeds := th.deeds.(token := Some(token))))
    case Exception(_) => (s, Stop(th))
    case _ =>
      var th' := th.(deeds := th.deeds.(reply := Some(reply)));
      Close(g, s, th', "execution_result", r.cid, th.ch.(outcome := Some(Replied(reply))), Before(Verify))
  }

  /** The adapter has answered the call the execute node waits for. */
  function WakeNode(g: Setup, s: Sys, th: Thread, answer: Option<Evidence>): (Sys, Thread)
    requires th.place.Awaiting? && th.place.token in s.parked
  {
    var r := s.parked[th.place.token].request;
    var (s', reply) := Resume(g, s, th.place.token, answer);
    AfterGateway(g, s', th, r, reply)
  }

  // ---------------------------------------------------------------- verify, memory, ends

  /** `outcome.get("verification_level", "V1")` */
  function LevelIn(o: Option<Outcome>): Level {
    if o.Some? && o.value.Replied? && o.value.reply.Finished? then o.value.reply.level else V1
  }

  function VerifyUpdate(ch: Channels): Channels {
    ch.(verification := Some(LevelIn(ch.outcome)), satisfied := Completed(ch.outcome))
  }

  function VerifyNode(g: Setup, s: Sys, th: Thread): (Sys, Thread) {
    var ch := VerifyUpdate(th.ch);
    Close(g, s, th, "verification_result", th.ch.cid, ch, RouteAfterVerify(ch))
  }

  function EventOf(ch: Channels): MemoryEvent {
    if ch.request.Some?
    then MemoryEvent(ch.session, ch.cid, ch.request.value.capabilityId, ch.request.value.parameters,
                     ch.request.value.deviceId, ch.verification)
    else MemoryEvent(ch.session, ch.cid, "", End, "", ch.verification)
  }

  function MemoryNode(g: Setup, s: Sys, memory: seq<MemoryEvent>, th: Thread, storeFails: bool): Turn {
    if !th.ch.satisfied || !Completed(th.ch.outcome) then
      var (s', th') := Close(g, s, th, "memory_skipped", th.ch.cid, th.ch, Ended);
      Turn(s', memory, th')
    else if storeFails then Turn(s, memory, Stop(th))
    else
      var counted := th.(deeds := th.deeds.(events := th.deeds.events + 1));
      var (s', th') := Close(g, s, counted, "memory_updated", th.ch.cid, th.ch, Ended);
      Turn(s', memory + [EventOf(th.ch)], th')
  }

  /** One node.  Before `human_review` the first visit only suspends, see `Suspend`. */
  function RunNode(g: Setup, s: Sys, memory: seq<MemoryEvent>, th: Thread, fallback: Option<Risk.Context>, o: Outside): Turn
    requires th.place.Before?
  {
    match th.place.node
    case MemoryUpdate => MemoryNode(g, s, memory, th, o.storeFails)
    case _ =>
      var (s', th') := RunPlainNode(g, s, th, fallback, o);
      Turn(s', memory, th')
  }

  /** The nodes that do not touch the memory store. */
  function RunPlainNode(g: Setup, s: Sys, th: Thread, fallback: Option<Risk.Context>, o: Outside): (Sys, Thread)
    requires th.place.Before?
  {
    match th.place.node
    case Perceive => if o.sourceFails then (s, Stop(th)) else Close(g, s, th, "perceive_complete", th.ch.cid, th.ch, Before(Recall))
    case Recall =>
      if th.ch.session == "" || o.storeFails then (s, Stop(th))
      else Close(g, s, th, "recall_complete", th.ch.cid, th.ch, Before(Reason))
    case Reason => ReasonNode(g, s, th, o.reasoning)
    case MakePlan => PlanNode(g, s, th)
    case PolicyGate => GateNode(g, s, th, fallback, o.env)
    case HumanReview => (s, th.(place := Paused))
    case Execute => ExecuteNode(g, s, th, o.env)
    case Verify => VerifyNode(g, s, th)
    case MemoryUpdate => (s, th)
    case Compensate => Close(g, s, th, "compensated", th.ch.cid, th.ch, Ended)
    case Escalate => Close(g, s, th, "escalated", th.ch.cid, th.ch, Ended)
  }

  // ---------------------------------------------------------------- the runtime

  datatype Status =
    | ApprovalNeeded | ReasoningFailed | NothingToDo | PolicyRejected | SimulationCompleted | VerificationFailed
    | UnknownSession | ReplayRejected

  /** The status part of `_finalize`. */
  function FinalStatus(ch: Channels): Status {
    if ch.reasoningFailed then ReasoningFailed
    else if ch.route == Some(NoopRoute) then NothingToDo
    else if ch.policyRoute == Some(Refuse) then PolicyRejected
    else if ch.satisfied then SimulationCompleted else VerificationFailed
  }

  datatype Session = Session(cid: string, finalized: bool)

  /** The `evidence` of an `AgentResult`. */
  datatype Details =
    | NoDetails
    | Approval(id: Option<string>, digest: Option<string>)
    | Summary(level: Option<Level>, satisfied: bool, route: Option<PolicyRoute>)

  /** An `AgentResult`: its status, its `capabilities`, the reject reason in its message, its
      `evidence`, and, for the record, the deeds of the round it reports. */
  datatype Report = Report(session: string, cid: string, status: Status, capabilities: Option<Outcome>,
                           reason: Option<GateError>, details: Details, deeds: Deeds)

  /** `completed` lists the adapter calls whose completed reply reached a round, `written`
      those recorded in `memory`, in order; `stops` counts rounds ended by an exception. */
  datatype World = World(sys: Sys, memory: seq<MemoryEvent>, threads: map<string, Thread>, sessions: map<string, Session>,
                         reports: seq<Report>, completed: seq<nat>, written: seq<nat>, stops: nat)

  function NewWorld(audit: Store): World { World(Start(audit), [], map[], map[], [], [], [], 0) }

  function ThreadOf(w: World, session: string): Thread {
    if session in w.threads then w.threads[session] else NEW_THREAD
  }

  datatype Action =
    | BeginRound(session: string, cid: string, intent: Intent, risk: Risk.Context, env: Env)
    | NextNode(session: string, outside: Outside)
    | AdapterAnswers(session: string, answer: Option<Evidence>, env: Env)
    | ResumeRound(session: string, approve: bool, env: Env)
    | FinishRound(session: string, env: Env)
    | Cancel(session: string)
    | Other(action: Gateway.Action)

  predicate FreshId(w: World, env: Env) { env.freshId !in w.sys.approvals.requests }

  predicate Free(p: Place) { p.Idle? || p.Paused? || p.Crashed? }

  /** `resume` looks at the session table first. */
  function ResumeStatus(w: World, session: string): Option<Status> {
    if session !in w.sessions then Some(UnknownSession)
    else if w.sessions[session].finalized then Some(ReplayRejected)
    else None
  }

  /** One round at a time per session.  Others use the gateway's entries, not the tables
      behind it, and do not resume a call that a round waits for. */
  predicate Enabled(w: World, a: Action) {
    match a
    case BeginRound(session, cid, _, _, _) => session != "" && cid != "" && Free(ThreadOf(w, session).place)
    case NextNode(session, o) => ThreadOf(w, session).place.Before? && FreshId(w, o.env)
    case AdapterAnswers(session, _, _) =>
      ThreadOf(w, session).place.Awaiting? && ThreadOf(w, session).place.token in w.sys.parked
    case ResumeRound(session, _, _) => ResumeStatus(w, session).Some? || ThreadOf(w, session).place.Paused?
    case FinishRound(session, _) => ThreadOf(w, session).place.Ended?
    case Cancel(_) => true
    case Other(b) =>
      !b.Shared? && Gateway.Enabled(w.sys, b)
      && (b.DoResume? ==> forall s | s in w.threads :: w.threads[s].place != Awaiting(b.token))
  }

  predicate GotCompleted(was: Deeds, deeds: Deeds) {
    was.reply.None? && deeds.reply.Some? && Completed(Some(Replied(deeds.reply.value)))
  }

  /** Stores what a turn has changed, and keeps the world's history. */
  function Settle(w: World, session: string, t: Turn): World {
    var was, token := ThreadOf(w, session), t.thread.deeds.token.GetOr(0);
    w.(sys := t.sys, memory := t.memory, threads := w.threads[session := t.thread],
       completed := if GotCompleted(was.deeds, t.thread.deeds) then w.completed + [token] else w.completed,
       written := if |t.memory| > |w.memory| then w.written + [token] else w.written,
       stops := if t.thread.place.Crashed? then w.stops + 1 else w.stops)
  }

  /** The answer of a round that waits for approval. */
  function AskingReport(session: string, th: Thread): Report {
    Report(session, th.ch.cid, ApprovalNeeded, None, None, Approval(th.ch.approvalId, th.ch.digest), th.deeds)
  }

  /** The answer of `_finalize`, which reads whatever the channels hold; only a rejection
      mentions the reject reason. */
  function FinalReport(session: string, th: Thread): Report {
    var status := FinalStatus(th.ch);
    Report(session, th.ch.cid, status, th.ch.outcome, if status.PolicyRejected? then th.ch.rejectReason else None,
           Summary(th.ch.verification, th.ch.satisfied, th.ch.policyRoute), th.deeds)
  }

  /** The answer `resume` gives from the session table alone. */
  function TableReport(w: World, session: string, status: Status): Report {
    Report(session, if session in w.sessions then w.sessions[session].cid else "", status, None, None, NoDetails,
           NoDeeds(NO_CHANNELS))
  }

  /** The channels a round starts from: whatever is left there, under this round's inputs. */
  function StartChannels(ch: Channels, session: string, cid: string, intent: Intent, risk: Risk.Context): Channels {
    ch.(intent := Some(intent), session := session, cid := cid, risk := Some(risk))
  }

  /** `run` up to the first node. */
  function StartRound(g: Setup, w: World, session: string, cid: string, intent: Intent, risk: Risk.Context, env: Env): World {
    var (s, ok) := NodeLog(g, Enter(w.sys, env), "user_input_received", cid);
    var ch := ThreadOf(w, session).ch;
    if !ok then w.(sys := s)
    else w.(sys := s, threads := w.threads[session :=
              Thread(StartChannels(ch, session, cid, intent, risk), Before(Perceive), false, NoDeeds(ch))])
  }

  /** When the graph suspends, `run` registers the session and answers `needs_approval`. */
  function Suspended(w: World, session: string): World {
    var th := ThreadOf(w, session);
    if !th.place.Paused? then w
    else w.(sessions := w.sessions[session := Session(th.ch.cid, false)],
            reports := w.reports + [AskingReport(session, th)])
  }

  /** The thread a resume drives on, with what the human answered. */
  function Resuming(th: Thread, approve: bool): Thread {
    th.(resumed := true, deeds := th.deeds.(approved := Some(approve)))
  }

  /** `resume`: only a registered session that is not finalized is driven on. */
  function TakeUp(g: Setup, fallback: Option<Risk.Context>, w: World, session: string, approve: bool, env: Env): World
    requires Enabled(w, ResumeRound(session, approve, env))
  {
    match ResumeStatus(w, session)
    case Some(status) => w.(reports := w.reports + [TableReport(w, session, status)])
    case None =>
      var (s, th) := ReviewNode(g, Enter(w.sys, env), Resuming(ThreadOf(w, session), approve), approve, fallback, env);
      Settle(w, session, Turn(s, w.memory, th))
  }

  /** `_finalize`, after `run` has registered the session. */
  function Finalize(g: Setup, w: World, session: string, env: Env): World {
    var (s, ok) := NodeLog(g, Enter(w.sys, env), "session_complete", ThreadOf(w, session).ch.cid);
    Closed(w.(sys := s), session, ThreadOf(w, session), ok)
  }

  /** The session table and the result once `session_complete` was written, or was not. */
  function Closed(w: World, session: string, th: Thread, logged: bool): World {
    var table := if th.resumed then w.sessions else w.sessions[session := Session(th.ch.cid, false)];
    if !logged then w.(sessions := table, threads := w.threads[session := Stop(th)], stops := w.stops + 1)
    else w.(sessions := if session in table then table[session := table[session].(finalized := true)] else table,
            threads := w.threads[session := th.(place := Idle)],
            reports := w.reports + [FinalReport(session, th)])
  }

  function Perform(g: Setup, fallback: Option<Risk.Context>, w: World, a: Action): World
    requires Enabled(w, a)
  {
    match a
    case BeginRound(session, cid, intent, risk, env) => StartRound(g, w, session, cid, intent, risk, env)
    case NextNode(session, o) =>
      Suspended(Settle(w, session, RunNode(g, Enter(w.sys, o.env), w.memory, ThreadOf(w, session), fallback, o)), session)
    case AdapterAnswers(session, answer, env) =>
      var (s, th) := WakeNode(g, Enter(w.sys, env), ThreadOf(w, session), answer);
      Settle(w, session, Turn(s, w.memory, th))
    case ResumeRound(session, approve, env) => TakeUp(g, fallback, w, session, approve, env)
    case FinishRound(session, env) => Finalize(g, w, session, env)
    case Cancel(session) => w.(sessions := w.sessions - {session})
    case Other(b) => w.(sys := Gateway.Perform(g, w.sys, b).0)
  }

  predicate Schedule(g: Setup, fallback: Option<Risk.Context>, w: World, actions: seq<Action>)
    decreases |actions|
  {
    actions == []
    || (Enabled(w, actions[0]) && Schedule(g, fallback, Perform(g, fallback, w, actions[0]), actions[1..]))
  }

  function Play(g: Setup, fallback: Option<Risk.Context>, w: World, actions: seq<Action>): World
    requires Schedule(g, fallback, w, actions)
    decreases |actions|
  {
    if actions == [] then w else Play(g, fallback, Perform(g, fallback, w, actions[0]), actions[1..])
  }
}
