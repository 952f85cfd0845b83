/**
 Scope: a session's rounds keep to their session and correlation id, and memory changes only
 when a round writes its own completed outcome, under its own session.
 */
module RoundScope {
  import opened Prelude
  import opened Capability
  import opened Policy
  import opened Execution
  import opened Approval
  import opened AuditLog
  import Gateway
  import opened GatewaySafety
  import opened GatewayFrames
  import opened Rounds
  import opened RoundSafety
  import opened RoundNodes
  import opened RoundMemory
  import Risk

  /** A thread in a round carries the session it belongs to. */
  predicate Keyed(w: World) {
    forall s | s in w.threads :: w.threads[s].place.Idle? || w.threads[s].ch.session == s
  }

  // ---------------------------------------------------------------- no node changes the scope

  predicate InScope(th: Thread, th': Thread) { SameScope(th, th') && !th'.place.Idle? }

  lemma ExecuteScope(g: Gateway.Setup, s: Gateway.Sys, th: Thread, env: Gateway.Env)
    requires !th.place.Idle?
    ensures InScope(th, ExecuteNode(g, s, th, env).1)
  {
    hide Close, Gateway.ExecutePreauthorized, AfterGateway;
    if th.ch.request.None? || th.ch.decision.None? {
      CloseMoves(g, s, th, "execution_result", th.ch.cid, th.ch.(outcome := Some(MissingInputs)), Before(Verify), 4);
    } else {
      var r, d := th.ch.request.value, th.ch.decision.value;
      var (s1, reply) := Gateway.ExecutePreauthorized(g, s, r, d, env);
      AfterGatewayMoves(g, s1, th.(deeds := th.deeds.(called := th.deeds.called + [GatewayCall(r, d)])), r, reply);
    }
  }

  lemma NodeScope(g: Gateway.Setup, s: Gateway.Sys, memory: seq<MemoryEvent>, th: Thread, fallback: Option<Risk.Context>, o: Outside)
    requires th.place.Before?
    ensures InScope(th, RunNode(g, s, memory, th, fallback, o).thread)
  {
    hide MemoryNode, RunPlainNode, ExecuteNode;
    if th.place.node.MemoryUpdate? {
      MemoryMoves(g, s, memory, th, o.storeFails);
    } else if th.place.node.Execute? {
      ExecuteIsPlain(g, s, th, fallback, o);
      ExecuteScope(g, s, th, o.env);
    } else {
      PlainMoves(g, s, th, fallback, o);
    }
  }

  // ---------------------------------------------------------------- worlds

  lemma KeyedAt(w: World, session: string)
    requires Keyed(w) && !ThreadOf(w, session).place.Idle?
    ensures ThreadOf(w, session).ch.session == session
  {
  }

  lemma StepKeyed(g: Gateway.Setup, fallback: Option<Risk.Context>, w: World, a: Action)
    requires Keyed(w) && Enabled(w, a)
    ensures Keyed(Perform(g, fallback, w, a))
  {
    hide RunNode, AfterGateway, Gateway.Resume, ReviewNode, NodeLog, Gateway.Perform, FinalStatus, GotCompleted;
    match a {
      case NextNode(session, o) => NodeScope(g, Gateway.Enter(w.sys, o.env), w.memory, ThreadOf(w, session), fallback, o);
      case AdapterAnswers(session, answer, env) =>
        var s, th := Gateway.Enter(w.sys, env), ThreadOf(w, session);
        var (s1, reply) := Gateway.Resume(g, s, th.place.token, answer);
        AfterGatewayMoves(g, s1, th, s.parked[th.place.token].request, reply);
      case ResumeRound(session, approve, env) =>
        ReviewMoves(g, Gateway.Enter(w.sys, env), Resuming(ThreadOf(w, session), approve), approve, fallback, env);
      case _ =>
    }
  }

  lemma {:induction false} RunKeyed(g: Gateway.Setup, fallback: Option<Risk.Context>, w: World, actions: seq<Action>)
    requires Keyed(w) && Schedule(g, fallback, w, actions)
    ensures Keyed(Play(g, fallback, w, actions))
    decreases |actions|
  {
    hide Keyed, Perform, Enabled;
    if actions != [] {
      StepKeyed(g, fallback, w, actions[0]);
      RunKeyed(g, fallback, Perform(g, fallback, w, actions[0]), actions[1..]);
    }
  }

  /** The event is the acting session's own: its session and its round's correlation id, the
      capability, parameters and device of the one gateway call the round has made, and the
      level that call was completed with. */
  predicate IsOwnEvent(e: MemoryEvent, session: string, th: Thread) {
    |th.deeds.called| == 1
    && th.deeds.reply.Some? && th.deeds.reply.value.Finished? && th.deeds.reply.value.completed
    && var r := th.deeds.called[0].request;
       e == MemoryEvent(session, th.ch.cid, r.capabilityId, r.parameters, r.deviceId, Some(th.deeds.reply.value.level))
       && r.cid == th.ch.cid
  }

  /** Memory grows by one event at most, and only when the round of a session writes its own
      completed outcome. */
  lemma MemoryIsScoped(g: Gateway.Setup, fallback: Option<Risk.Context>, audit: Store, actions: seq<Action>, a: Action)
    requires Schedule(g, fallback, NewWorld(audit), actions)
    requires Enabled(Play(g, fallback, NewWorld(audit), actions), a)
    ensures var w := Play(g, fallback, NewWorld(audit), actions);
      var w' := Perform(g, fallback, w, a);
      w'.memory == w.memory
      || (a.NextNode? && |w'.memory| == |w.memory| + 1 && w'.memory[..|w.memory|] == w.memory
          && IsOwnEvent(w'.memory[|w.memory|], a.session, ThreadOf(w, a.session)))
  {
    NewWorldSound(g, audit);
    hide Play, Schedule, Sound, Keyed, Perform, Enabled, IsOwnEvent;
    RunSound(g, fallback, NewWorld(audit), actions);
    NewWorldKeyed(audit);
    RunKeyed(g, fallback, NewWorld(audit), actions);
    StepScoped(g, fallback, Play(g, fallback, NewWorld(audit), actions), a);
  }

  lemma NewWorldKeyed(audit: Store)
    ensures Keyed(NewWorld(audit))
  {
  }

  lemma StepScoped(g: Gateway.Setup, fallback: Option<Risk.Context>, w: World, a: Action)
    requires Sound(g, w) && Keyed(w) && Enabled(w, a)
    ensures var w' := Perform(g, fallback, w, a);
      w'.memory == w.memory
      || (a.NextNode? && |w'.memory| == |w.memory| + 1 && w'.memory[..|w.memory|] == w.memory
          && IsOwnEvent(w'.memory[|w.memory|], a.session, ThreadOf(w, a.session)))
  {
    if a.NextNode? {
      StagedAt(g, w, a.session);
      KeyedAt(w, a.session);
      hide Sound, Keyed, MemoryNode, RunPlainNode, Answered, IsOwnEvent, GotCompleted;
      if ThreadOf(w, a.session).place.node.MemoryUpdate? {
        OwnEvent(w.sys.approvals, a.session, ThreadOf(w, a.session));
        MemoryShape(g, Gateway.Enter(w.sys, a.outside.env), w.memory, ThreadOf(w, a.session), a.outside.storeFails);
      }
    } else {
      hide Sound, Keyed, Perform, Enabled, IsOwnEvent;
      OthersKeepMemory(g, fallback, w, a);
    }
  }

  lemma OthersKeepMemory(g: Gateway.Setup, fallback: Option<Risk.Context>, w: World, a: Action)
    requires Enabled(w, a) && !a.NextNode?
    ensures Perform(g, fallback, w, a).memory == w.memory
  {
    hide WakeNode, ReviewNode, NodeLog, Gateway.Perform, FinalStatus, GotCompleted;
  }

  lemma OwnEvent(a: Approvals, session: string, th: Thread)
    requires th.place == Before(MemoryUpdate) && Staged(a, th) && th.ch.session == session
    ensures th.ch.satisfied && Completed(th.ch.outcome) && IsOwnEvent(EventOf(th.ch), session, th)
  {
    hide Authorised, Actionable;
  }
}
