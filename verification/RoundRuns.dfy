/**
 Runs of a round, piece by piece, when no audit write fails: how schedules are put together,
 and what every round begins and ends with.
 */
module RoundRuns {
  import opened Prelude
  import opened Json
  import opened Capability
  import opened Policy
  import opened Execution
  import opened Approval
  import opened AuditLog
  import Gateway
  import opened GatewaySafety
  import opened Rounds
  import opened RoundSafety
  import Risk

  // ---------------------------------------------------------------- schedules, piece by piece

  /** The actions can be taken one after the other, and lead there. */
  predicate Leads(g: Gateway.Setup, fallback: Option<Risk.Context>, w: World, actions: seq<Action>, w': World) {
    Schedule(g, fallback, w, actions) && Play(g, fallback, w, actions) == w'
  }

  lemma LeadsThere(g: Gateway.Setup, fallback: Option<Risk.Context>, w: World, actions: seq<Action>, w': World)
    requires Leads(g, fallback, w, actions, w')
    ensures Schedule(g, fallback, w, actions) && Play(g, fallback, w, actions) == w'
  {
    hide Schedule, Play;
  }

  lemma LeadsToPlay(g: Gateway.Setup, fallback: Option<Risk.Context>, w: World, actions: seq<Action>)
    requires Schedule(g, fallback, w, actions)
    ensures Leads(g, fallback, w, actions, Play(g, fallback, w, actions))
  {
    hide Schedule, Play;
  }

  lemma LeadsOne(g: Gateway.Setup, fallback: Option<Risk.Context>, w: World, a: Action)
    requires Enabled(w, a)
    ensures Leads(g, fallback, w, [a], Perform(g, fallback, w, a))
  {
    hide Perform, Enabled;
    var w' := Perform(g, fallback, w, a);
    assert [a][1..] == [] && Schedule(g, fallback, w', []) && Play(g, fallback, w', []) == w';
  }

  lemma {:induction false} LeadsOn(g: Gateway.Setup, fallback: Option<Risk.Context>, w: World, xs: seq<Action>, w1: World,
                                   ys: seq<Action>, w2: World)
    requires Leads(g, fallback, w, xs, w1) && Leads(g, fallback, w1, ys, w2)
    ensures Leads(g, fallback, w, xs + ys, w2)
    decreases |xs|
  {
    hide Perform, Enabled;
    if xs == [] {
      assert xs + ys == ys;
    } else {
      LeadsOn(g, fallback, Perform(g, fallback, w, xs[0]), xs[1..], w1, ys, w2);
      assert (xs + ys)[1..] == xs[1..] + ys;
    }
  }

  // ---------------------------------------------------------------- quiet worlds

  /** Audit writes succeed, and the session's thread is this. */
  predicate Stands(w: World, session: string, th: Thread) { w.sys.audit.healthy && ThreadOf(w, session) == th }

  /** The gateway's tables are as they were. */
  predicate Undisturbed(w: World, w': World) {
    SameCore(w.sys, w'.sys) && w'.sys.approvals == w.sys.approvals && w'.sys.windows == w.sys.windows
  }

  /** Nothing but the audit store, the session's thread and the session table has changed. */
  predicate Aside(w: World, w': World) { Undisturbed(w, w') && w'.reports == w.reports }

  predicate Faultless(env: Gateway.Env) { env.faults == [] }

  lemma CalmLog(g: Gateway.Setup, s: Gateway.Sys, kind: string, cid: string)
    requires s.audit.healthy && s.faults == []
    ensures var (s', ok) := NodeLog(g, s, kind, cid); ok && s'.audit.healthy && s'.faults == []
  {
    hide NewEntry, NextEvent;
  }

  lemma Begun(g: Gateway.Setup, fallback: Option<Risk.Context>, w: World, session: string, cid: string, intent: Intent,
              risk: Risk.Context, env: Gateway.Env)
    requires w.sys.audit.healthy && Faultless(env) && Enabled(w, BeginRound(session, cid, intent, risk, env))
    ensures var w', ch := Perform(g, fallback, w, BeginRound(session, cid, intent, risk, env)), ThreadOf(w, session).ch;
      Stands(w', session, Thread(StartChannels(ch, session, cid, intent, risk), Before(Perceive), false, NoDeeds(ch)))
      && Aside(w, w')
  {
    hide NodeLog;
    CalmLog(g, Gateway.Enter(w.sys, env), "user_input_received", cid);
    NodeLogFrame(g, Gateway.Enter(w.sys, env), "user_input_received", cid);
  }

  /** A node that only logs and goes on. */
  lemma Logged(g: Gateway.Setup, fallback: Option<Risk.Context>, w: World, session: string, o: Outside, th: Thread, kind: string,
               ch: Channels, next: Place)
    requires Stands(w, session, th) && Faultless(o.env) && Enabled(w, NextNode(session, o))
    requires !th.place.node.MemoryUpdate? && !next.Paused? && !next.Crashed?
    requires RunPlainNode(g, Gateway.Enter(w.sys, o.env), th, fallback, o)
          == Close(g, Gateway.Enter(w.sys, o.env), th, kind, th.ch.cid, ch, next)
    ensures var w' := Perform(g, fallback, w, NextNode(session, o));
      Stands(w', session, th.(ch := ch, place := next)) && Aside(w, w') && w'.memory == w.memory
  {
    hide NodeLog, RunPlainNode, GotCompleted;
    CalmLog(g, Gateway.Enter(w.sys, o.env), kind, th.ch.cid);
    NodeLogFrame(g, Gateway.Enter(w.sys, o.env), kind, th.ch.cid);
  }

  // ---------------------------------------------------------------- what every round begins with

  /** The world around the session: no fault, and what `o` says of reasoning. */
  function Thinking(env: Gateway.Env, answer: Option<Reasoning>): Outside { Outside(env, answer, false, false) }

  /** Up to the reasoning model's answer. */
  function Asking(session: string, cid: string, intent: Intent, risk: Risk.Context, env: Gateway.Env,
                  answer: Option<Reasoning>): seq<Action>
  {
    var turn := NextNode(session, Thinking(env, answer));
    [BeginRound(session, cid, intent, risk, env)] + [turn] + [turn] + [turn]
  }

  /** The thread once the model has answered, over whatever its channels held. */
  function Reasoned(ch: Channels, session: string, cid: string, intent: Intent, risk: Risk.Context, answer: Option<Reasoning>)
    : Thread
  {
    var ch' := ReasonUpdate(StartChannels(ch, session, cid, intent, risk), answer);
    Thread(ch', RouteAfterReason(ch'), false, NoDeeds(ch))
  }

  lemma AskingRuns(g: Gateway.Setup, fallback: Option<Risk.Context>, w: World, session: string, cid: string, intent: Intent,
              risk: Risk.Context, env: Gateway.Env, answer: Option<Reasoning>)
    requires w.sys.audit.healthy && Faultless(env) && Enabled(w, BeginRound(session, cid, intent, risk, env)) && FreshId(w, env)
    ensures Schedule(g, fallback, w, Asking(session, cid, intent, risk, env, answer))
    ensures var w' := Play(g, fallback, w, Asking(session, cid, intent, risk, env, answer));
      Aside(w, w') && Stands(w', session, Reasoned(ThreadOf(w, session).ch, session, cid, intent, risk, answer))
  {
    hide Perform, Close, Leads;
    var o := Thinking(env, answer);
    var begin, turn := BeginRound(session, cid, intent, risk, env), NextNode(session, o);
    Begun(g, fallback, w, session, cid, intent, risk, env);
    LeadsOne(g, fallback, w, begin);
    var w1 := Perform(g, fallback, w, begin);
    var t1 := ThreadOf(w1, session);
    Logged(g, fallback, w1, session, o, t1, "perceive_complete", t1.ch, Before(Recall));
    LeadsOne(g, fallback, w1, turn);
    var w2 := Perform(g, fallback, w1, turn);
    var t2 := ThreadOf(w2, session);
    Logged(g, fallback, w2, session, o, t2, "recall_complete", t2.ch, Before(Reason));
    LeadsOne(g, fallback, w2, turn);
    var w3 := Perform(g, fallback, w2, turn);
    var t3 := ThreadOf(w3, session);
    var ch := ReasonUpdate(t3.ch, answer);
    Logged(g, fallback, w3, session, o, t3, if answer.Some? then "reason_complete" else "reason_failed", ch, RouteAfterReason(ch));
    LeadsOne(g, fallback, w3, turn);
    var w' := Perform(g, fallback, w3, turn);
    LeadsOn(g, fallback, w, [begin], w1, [turn], w2);
    LeadsOn(g, fallback, w, [begin] + [turn], w2, [turn], w3);
    LeadsOn(g, fallback, w, [begin] + [turn] + [turn], w3, [turn], w');
    LeadsThere(g, fallback, w, [begin] + [turn] + [turn] + [turn], w');
  }

  lemma Finished(g: Gateway.Setup, fallback: Option<Risk.Context>, w: World, session: string, th: Thread, env: Gateway.Env)
    requires Stands(w, session, th) && th.place.Ended? && Faultless(env)
    ensures var w' := Perform(g, fallback, w, FinishRound(session, env));
      Stands(w', session, th.(place := Idle)) && w'.reports == w.reports + [FinalReport(session, th)]
      && Undisturbed(w, w') && w'.memory == w.memory
  {
    hide NodeLog, FinalReport;
    CalmLog(g, Gateway.Enter(w.sys, env), "session_complete", th.ch.cid);
    NodeLogFrame(g, Gateway.Enter(w.sys, env), "session_complete", th.ch.cid);
  }
}
