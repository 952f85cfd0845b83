/**
 A run whose second result is about its first round: one session observes something, then
 has nothing to do, and the second result still lists the observation as its capability
 and as satisfied evidence.
 */
module RoundStale {
  import opened Prelude
  import opened Json
  import opened Capability
  import opened Policy
  import opened Execution
  import opened Approval
  import opened AuditLog
  import opened Adapters
  import Gateway
  import opened GatewaySafety
  import opened Rounds
  import opened RoundSafety
  import opened RoundRuns
  import GatewayExact
  import Risk

  // ---------------------------------------------------------------- a round with nothing to do

  /** A round in which the model fails, or proposes nothing. */
  function IdleRound(session: string, cid: string, intent: Intent, risk: Risk.Context, env: Gateway.Env,
                     answer: Option<Reasoning>): seq<Action>
  {
    Asking(session, cid, intent, risk, env, answer) + [FinishRound(session, env)]
  }

  /** The result of such a round is, for all but its status, what the channels held before. */
  predicate IdleReport(r: Report, before: Channels, answer: Option<Reasoning>) {
    r.status == (if answer.None? then ReasoningFailed else NothingToDo) && r.deeds == NoDeeds(before) && r.capabilities == before.outcome
    && r.details == Summary(before.verification, before.satisfied, before.policyRoute)
  }

  /** In any world, whatever earlier rounds left: a session that is free can take a round in
      which the model fails or proposes nothing, and its result carries all of it over. */
  lemma IdleRoundCarries(g: Gateway.Setup, fallback: Option<Risk.Context>, w: World, session: string, cid: string, intent: Intent,
                         risk: Risk.Context, env: Gateway.Env, answer: Option<Reasoning>)
    requires w.sys.audit.healthy && Faultless(env) && Enabled(w, BeginRound(session, cid, intent, risk, env)) && FreshId(w, env)
    requires answer.None? || answer.value.route.NoopRoute?
    ensures Schedule(g, fallback, w, IdleRound(session, cid, intent, risk, env, answer))
    ensures var w' := Play(g, fallback, w, IdleRound(session, cid, intent, risk, env, answer));
      |w'.reports| == |w.reports| + 1 && w'.reports[..|w.reports|] == w.reports
      && IdleReport(w'.reports[|w.reports|], ThreadOf(w, session).ch, answer)
  {
    hide Perform, Schedule, Play, Leads, SameCore;
    var asking := Asking(session, cid, intent, risk, env, answer);
    AskingRuns(g, fallback, w, session, cid, intent, risk, env, answer);
    LeadsToPlay(g, fallback, w, asking);
    var w1 := Play(g, fallback, w, asking);
    var finish, th := FinishRound(session, env), ThreadOf(w1, session);
    Finished(g, fallback, w1, session, th, env);
    LeadsOne(g, fallback, w1, finish);
    LeadsOn(g, fallback, w, asking, w1, [finish], Perform(g, fallback, w1, finish));
    LeadsThere(g, fallback, w, asking + [finish], Perform(g, fallback, w1, finish));
  }

  // ---------------------------------------------------------------- a round that observes

  const SENSOR := Definition("sim.read", "sensor", map[], Risk.READ_ONLY, V0, NoEffect)

  const LOOK := Reasoning(DirectRoute, Some("sim.read"), "sensor", End, "look")

  /** A simulation with one sensor. */
  function Room(now: real, stamp: string, freshId: string): Gateway.Env {
    Gateway.Env(Rules(map["sim.read" := SENSOR], false, {}), false, map["sim" := SimulationOnly], true, now, stamp, [], freshId)
  }

  function Reading(intent: Intent, cid: string): Request { Request("sim.read", End, intent.principal, "sensor", cid, "look") }

  function Granted(cid: string): Decision { Decision(true, Risk.READ_ONLY, Assessed(Risk.Factors([])), false, cid) }

  lemma ReadingAllowed(l: RateLimit.Limits, ws: RateLimit.Windows, intent: Intent, cid: string, now: real, env: Gateway.Env)
    requires env.rules == Rules(map["sim.read" := SENSOR], false, {})
    ensures Evaluate(env.rules, l, ws, Reading(intent, cid), Some(Risk.DEFAULT_CONTEXT), now) == (ws, Decided(Granted(cid)))
  {
    var c := Risk.DEFAULT_CONTEXT.(principal := intent.principal);
    NoErrors(map[], End);
    assert Acceptable(map[], End);
    assert Risk.FactorsOf(Risk.READ_ONLY, c) == [];
    hide Errors, Acceptable;
  }

  lemma SimNamespace()
    ensures NamespaceOf("sim.read") == "sim"
  {
    assert "sim.read"[1..] == "im.read" && "im.read"[1..] == "m.read" && "m.read"[1..] == ".read";
    assert NamespaceOf(".read") == "";
    assert NamespaceOf("m.read") == "m";
    assert NamespaceOf("im.read") == "im";
  }

  /** The thread about to execute. */
  function Cleared(th: Thread, r: Request): Thread {
    th.(ch := JudgedUpdate(th.ch, r, Granted(r.cid)), place := Before(Execute),
        deeds := th.deeds.(judged := th.deeds.judged + [Judgement(r, Decided(Granted(r.cid)))]))
  }

  /** Reasoning has asked to read the sensor. */
  predicate Wanting(th: Thread, intent: Intent, cid: string) {
    th.place == Before(PolicyGate) && th.ch.route == Some(DirectRoute) && th.ch.reasoning == Some(LOOK)
    && th.ch.intent == Some(intent) && th.ch.cid == cid && th.ch.risk == Some(Risk.DEFAULT_CONTEXT)
  }

  lemma GatePasses(g: Gateway.Setup, fallback: Option<Risk.Context>, w: World, session: string, th: Thread, intent: Intent,
                   cid: string, o: Outside)
    requires Stands(w, session, th) && Faultless(o.env) && Wanting(th, intent, cid) && FreshId(w, o.env) && cid != "" && intent.principal != ""
    requires o.env.rules == Rules(map["sim.read" := SENSOR], false, {})
    ensures var w' := Perform(g, fallback, w, NextNode(session, o));
      Stands(w', session, Cleared(th, Reading(intent, cid))) && Aside(w, w')
  {
    hide NodeLog, Evaluate, GotCompleted;
    var s := Gateway.Enter(w.sys, o.env);
    var r := Reading(intent, cid);
    assert Extract(th.ch) == Canonical(r);
    ReadingAllowed(g.limits, s.windows, intent, cid, o.env.now, o.env);
    CalmLog(g, s, "policy_evaluated", cid);
    NodeLogFrame(g, s, "policy_evaluated", cid);
    assert GateNode(g, s, th, fallback, o.env) == (NodeLog(g, s, "policy_evaluated", cid).0, Cleared(th, r));
    hide GateNode;
  }

  // ---------------------------------------------------------------- the gateway observes

  /** A parked observation and nothing else new. */
  predicate Observing(s: Gateway.Sys, s': Gateway.Sys, r: Request, reply: Gateway.Reply) {
    reply == Gateway.Waiting(|s.calls|) && |s.calls| in s'.parked && s'.parked[|s.calls|] == Gateway.AwaitObserve(r)
    && s'.approvals == s.approvals && s'.audit.healthy && s'.faults == []
  }

  lemma ReadingParks(g: Gateway.Setup, s: Gateway.Sys, intent: Intent, cid: string, env: Gateway.Env)
    requires g.mode.Simulation? && s.audit.healthy && s.faults == [] && cid !in s.records
    requires env.rules == Rules(map["sim.read" := SENSOR], false, {}) && env.routes == map["sim" := SimulationOnly]
    ensures var (s', reply) := Gateway.ExecutePreauthorized(g, s, Reading(intent, cid), Granted(cid), env);
      Observing(s, s', Reading(intent, cid), reply)
  {
    hide Gateway.Log, Gateway.LogThen;
    SimNamespace();
    GatewayExact.CalmLog(g, s, Gateway.KRequested, cid);
    LogFrame(g, s, Gateway.KRequested, cid);
  }

  /** The thread waiting for the adapter. */
  function Looking(th: Thread, r: Request, token: nat): Thread {
    th.(place := Awaiting(token), deeds := th.deeds.(called := th.deeds.called + [GatewayCall(r, Granted(r.cid))], token := Some(token)))
  }

  lemma ReadingCalled(g: Gateway.Setup, fallback: Option<Risk.Context>, w: World, session: string, th: Thread, intent: Intent,
                      cid: string, o: Outside)
    requires Stands(w, session, th) && Faultless(o.env) && FreshId(w, o.env) && g.mode.Simulation? && cid !in w.sys.records
    requires o.env.rules == Rules(map["sim.read" := SENSOR], false, {}) && o.env.routes == map["sim" := SimulationOnly]
    requires th.place == Before(Execute) && th.ch.request == Some(Reading(intent, cid)) && th.ch.decision == Some(Granted(cid))
    ensures var w', token := Perform(g, fallback, w, NextNode(session, o)), |w.sys.calls|;
      Stands(w', session, Looking(th, Reading(intent, cid), token)) && w'.reports == w.reports
      && w'.sys.approvals == w.sys.approvals && token in w'.sys.parked
      && w'.sys.parked[token] == Gateway.AwaitObserve(Reading(intent, cid))
  {
    hide Gateway.ExecutePreauthorized, GotCompleted;
    ReadingParks(g, Gateway.Enter(w.sys, o.env), intent, cid, o.env);
  }

  const SEEN := Gateway.Finished(true, V0)

  function Answering(th: Thread): Thread {
    th.(ch := th.ch.(outcome := Some(Replied(SEEN))), place := Before(Verify), deeds := th.deeds.(reply := Some(SEEN)))
  }

  lemma ReadingAnswered(g: Gateway.Setup, fallback: Option<Risk.Context>, w: World, session: string, th: Thread, r: Request,
                        e: Evidence, env: Gateway.Env)
    requires Stands(w, session, th) && Faultless(env) && th.place.Awaiting? && th.place.token in w.sys.parked
    requires w.sys.parked[th.place.token] == Gateway.AwaitObserve(r)
    ensures var w' := Perform(g, fallback, w, AdapterAnswers(session, Some(e), env));
      Stands(w', session, Answering(th)) && w'.reports == w.reports && w'.sys.approvals == w.sys.approvals
  {
    hide NodeLog, Gateway.Log, GotCompleted;
    var s := Gateway.Unpark(Gateway.Enter(w.sys, env), th.place.token);
    GatewayExact.CalmLog(g, s, Gateway.KObserved, r.cid);
    LogFrame(g, s, Gateway.KObserved, r.cid);
    var s1 := Gateway.Log(g, s, Gateway.KObserved, r.cid).0;
    CalmLog(g, s1, "execution_result", r.cid);
    NodeLogFrame(g, s1, "execution_result", r.cid);
  }

  lemma Remembered(g: Gateway.Setup, fallback: Option<Risk.Context>, w: World, session: string, th: Thread, o: Outside)
    requires Stands(w, session, th) && Faultless(o.env) && FreshId(w, o.env) && !o.storeFails
    requires th.place == Before(MemoryUpdate) && th.ch.satisfied && Completed(th.ch.outcome)
    ensures var w' := Perform(g, fallback, w, NextNode(session, o));
      Stands(w', session, th.(place := Ended, deeds := th.deeds.(events := th.deeds.events + 1))) && Aside(w, w')
  {
    hide NodeLog, GotCompleted, EventOf, Completed;
    CalmLog(g, Gateway.Enter(w.sys, o.env), "memory_updated", th.ch.cid);
    NodeLogFrame(g, Gateway.Enter(w.sys, o.env), "memory_updated", th.ch.cid);
  }

  // ---------------------------------------------------------------- the whole run

  function Step(session: string, env: Gateway.Env): Action { NextNode(session, Thinking(env, None)) }

  /** From the gate to the adapter's answer. */
  function Observe(session: string, e: Evidence, env: Gateway.Env): seq<Action> {
    [Step(session, env)] + [Step(session, env)] + [AdapterAnswers(session, Some(e), env)]
  }

  lemma Observed(g: Gateway.Setup, fallback: Option<Risk.Context>, w: World, session: string, th: Thread, intent: Intent,
                 cid: string, e: Evidence, env: Gateway.Env)
    requires Stands(w, session, th) && Wanting(th, intent, cid) && cid != "" && intent.principal != "" && cid !in w.sys.records
    requires Faultless(env) && FreshId(w, env) && g.mode.Simulation?
    requires env.rules == Rules(map["sim.read" := SENSOR], false, {}) && env.routes == map["sim" := SimulationOnly]
    ensures Schedule(g, fallback, w, Observe(session, e, env))
    ensures var w', r := Play(g, fallback, w, Observe(session, e, env)), Reading(intent, cid);
      Stands(w', session, Answering(Looking(Cleared(th, r), r, |w.sys.calls|))) && w'.reports == w.reports
      && w'.sys.approvals == w.sys.approvals
  {
    hide Perform, Leads, Wanting, Schedule, Play;
    var r, turn, answer := Reading(intent, cid), Step(session, env), AdapterAnswers(session, Some(e), env);
    GatePasses(g, fallback, w, session, th, intent, cid, turn.outside);
    WantingPlace(th, intent, cid);
    LeadsOne(g, fallback, w, turn);
    var w1, t1 := Perform(g, fallback, w, turn), Cleared(th, r);
    ReadingCalled(g, fallback, w1, session, t1, intent, cid, turn.outside);
    LeadsOne(g, fallback, w1, turn);
    var w2, t2 := Perform(g, fallback, w1, turn), Looking(t1, r, |w.sys.calls|);
    ReadingAnswered(g, fallback, w2, session, t2, r, e, env);
    LeadsOne(g, fallback, w2, answer);
    var w3 := Perform(g, fallback, w2, answer);
    LeadsOn(g, fallback, w, [turn], w1, [turn], w2);
    LeadsOn(g, fallback, w, [turn] + [turn], w2, [answer], w3);
    LeadsThere(g, fallback, w, [turn] + [turn] + [answer], w3);
  }

  lemma WantingPlace(th: Thread, intent: Intent, cid: string)
    requires Wanting(th, intent, cid)
    ensures th.place == Before(PolicyGate)
  {
  }

  /** Verify, remember, report. */
  function Conclude(session: string, env: Gateway.Env): seq<Action> {
    [Step(session, env)] + [Step(session, env)] + [FinishRound(session, env)]
  }

  lemma Confirmed(g: Gateway.Setup, fallback: Option<Risk.Context>, w: World, session: string, th: Thread, o: Outside)
    requires Stands(w, session, th) && Faultless(o.env) && FreshId(w, o.env)
    requires th.place == Before(Verify) && th.ch.outcome == Some(Replied(SEEN))
    ensures var w', ch := Perform(g, fallback, w, NextNode(session, o)), VerifyUpdate(th.ch);
      Stands(w', session, th.(ch := ch, place := Before(MemoryUpdate))) && Aside(w, w') && ch.satisfied && Completed(ch.outcome)
  {
    hide Perform, Close;
    var ch := VerifyUpdate(th.ch);
    Logged(g, fallback, w, session, o, th, "verification_result", ch, RouteAfterVerify(ch));
  }

  lemma Concluded(g: Gateway.Setup, fallback: Option<Risk.Context>, w: World, session: string, th: Thread, env: Gateway.Env)
    requires Stands(w, session, th) && Faultless(env) && FreshId(w, env)
    requires th.place == Before(Verify) && th.ch.outcome == Some(Replied(SEEN))
    ensures Schedule(g, fallback, w, Conclude(session, env))
    ensures var w', ch := Play(g, fallback, w, Conclude(session, env)), VerifyUpdate(th.ch);
      w'.sys.audit.healthy && w'.sys.approvals == w.sys.approvals
      && ThreadOf(w', session).place.Idle? && ThreadOf(w', session).ch == ch
      && |w'.reports| == |w.reports| + 1 && w'.reports[..|w.reports|] == w.reports
      && w'.reports[|w.reports|].status == FinalStatus(ch)
  {
    hide Perform, Leads, Schedule, Play, FinalStatus, VerifyUpdate, Completed, SameCore;
    var turn, finish := Step(session, env), FinishRound(session, env);
    var ch := VerifyUpdate(th.ch);
    Confirmed(g, fallback, w, session, th, turn.outside);
    LeadsOne(g, fallback, w, turn);
    var w1, t1 := Perform(g, fallback, w, turn), th.(ch := ch, place := Before(MemoryUpdate));
    Remembered(g, fallback, w1, session, t1, turn.outside);
    LeadsOne(g, fallback, w1, turn);
    var w2, t2 := Perform(g, fallback, w1, turn), t1.(place := Ended, deeds := t1.deeds.(events := t1.deeds.events + 1));
    Finished(g, fallback, w2, session, t2, env);
    LeadsOne(g, fallback, w2, finish);
    var w3 := Perform(g, fallback, w2, finish);
    LeadsOn(g, fallback, w, [turn], w1, [turn], w2);
    LeadsOn(g, fallback, w, [turn] + [turn], w2, [finish], w3);
    LeadsThere(g, fallback, w, [turn] + [turn] + [finish], w3);
  }

  /** Reasoning asks to read the sensor, the gate passes, the adapter answers, the round is
      reported. */
  function LookRound(session: string, cid: string, intent: Intent, e: Evidence, env: Gateway.Env): seq<Action> {
    Asking(session, cid, intent, Risk.DEFAULT_CONTEXT, env, Some(LOOK)) + Observe(session, e, env) + Conclude(session, env)
  }

  lemma Looked(g: Gateway.Setup, fallback: Option<Risk.Context>, audit: Store, session: string, cid: string, intent: Intent,
               e: Evidence, env: Gateway.Env)
    requires audit.healthy && g.mode.Simulation? && session != "" && cid != "" && intent.principal != "" && Faultless(env)
    requires env.rules == Rules(map["sim.read" := SENSOR], false, {}) && env.routes == map["sim" := SimulationOnly]
    ensures Schedule(g, fallback, NewWorld(audit), LookRound(session, cid, intent, e, env))
    ensures var w := Play(g, fallback, NewWorld(audit), LookRound(session, cid, intent, e, env));
      var ch := ThreadOf(w, session).ch;
      w.sys.audit.healthy && FreshId(w, env) && ThreadOf(w, session).place.Idle?
      && ch.outcome == Some(Replied(SEEN)) && ch.verification == Some(V0) && ch.satisfied && ch.policyRoute == Some(Pass)
      && |w.reports| == 1 && w.reports[0].status == SimulationCompleted
  {
    hide Perform, Leads, Schedule, Play, NodeLog, Append;
    var w := NewWorld(audit);
    var asking, observe, conclude := Asking(session, cid, intent, Risk.DEFAULT_CONTEXT, env, Some(LOOK)),
      Observe(session, e, env), Conclude(session, env);
    AskingRuns(g, fallback, w, session, cid, intent, Risk.DEFAULT_CONTEXT, env, Some(LOOK));
    LeadsToPlay(g, fallback, w, asking);
    var w1 := Play(g, fallback, w, asking);
    var t1 := ThreadOf(w1, session);
    Observed(g, fallback, w1, session, t1, intent, cid, e, env);
    LeadsToPlay(g, fallback, w1, observe);
    var w2 := Play(g, fallback, w1, observe);
    Concluded(g, fallback, w2, session, ThreadOf(w2, session), env);
    LeadsToPlay(g, fallback, w2, conclude);
    LeadsOn(g, fallback, w, asking, w1, observe, w2);
    LeadsOn(g, fallback, w, asking + observe, w2, conclude, Play(g, fallback, w2, conclude));
    LeadsThere(g, fallback, w, asking + observe + conclude, Play(g, fallback, w2, conclude));
  }

  // ---------------------------------------------------------------- main result

  const NOTHING := Reasoning(NoopRoute, None, "", End, "")

  /** Two rounds of one session, from a new world on. */
  function LookThenIdle(session: string, first: string, second: string, intent: Intent, e: Evidence, env: Gateway.Env): seq<Action> {
    LookRound(session, first, intent, e, env) + IdleRound(session, second, intent, Risk.DEFAULT_CONTEXT, env, Some(NOTHING))
  }

  /** The second result says that there was nothing to do, its round has not called the gateway
      or evaluated anything, and it still lists the first round's observation as its
      capability, and that round's level, satisfied verification and passed policy as its
      evidence. */
  lemma StaleCapabilities(g: Gateway.Setup, fallback: Option<Risk.Context>, audit: Store, session: string, first: string,
                          second: string, intent: Intent, e: Evidence, now: real, stamp: string, freshId: string)
    requires audit.healthy && g.mode.Simulation? && session != "" && first != "" && second != "" && intent.principal != ""
    ensures var actions := LookThenIdle(session, first, second, intent, e, Room(now, stamp, freshId));
      Schedule(g, fallback, NewWorld(audit), actions)
      && var w := Play(g, fallback, NewWorld(audit), actions);
      |w.reports| == 2 && w.reports[0].status == SimulationCompleted
      && var r := w.reports[1];
      r.status == NothingToDo && r.deeds.called == [] && r.deeds.judged == []
      && r.capabilities == Some(Replied(Gateway.Finished(true, V0))) && r.details == Summary(Some(V0), true, Some(Pass))
  {
    hide Perform, Leads, Schedule, Play;
    var env := Room(now, stamp, freshId);
    var look, idle := LookRound(session, first, intent, e, env), IdleRound(session, second, intent, Risk.DEFAULT_CONTEXT, env, Some(NOTHING));
    Looked(g, fallback, audit, session, first, intent, e, env);
    LeadsToPlay(g, fallback, NewWorld(audit), look);
    var w1 := Play(g, fallback, NewWorld(audit), look);
    IdleRoundCarries(g, fallback, w1, session, second, intent, Risk.DEFAULT_CONTEXT, env, Some(NOTHING));
    LeadsToPlay(g, fallback, w1, idle);
    LeadsOn(g, fallback, NewWorld(audit), look, w1, idle, Play(g, fallback, w1, idle));
    LeadsThere(g, fallback, NewWorld(audit), look + idle, Play(g, fallback, w1, idle));
  }
}
