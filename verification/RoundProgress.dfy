/**
 Progress: every turn takes a round strictly further, nobody else moves it, and so a round
 ends after a bounded number of turns; it is never stuck on the way.
 */
module RoundProgress {
  import opened Prelude
  import opened Capability
  import opened Policy
  import opened Execution
  import opened Approval
  import opened AuditLog
  import Gateway
  import opened GatewaySafety
  import opened GatewayFrames
  import opened Rounds
  import opened RoundSafety
  import opened RoundNodes
  import opened RoundMemory
  import Risk

  // ---------------------------------------------------------------- every turn goes down

  /** How many turns a round can still take; a call that waits to be verified has one less
      left than one that waits to be executed. */
  function Left(parked: Parked, p: Place): nat {
    if p.Awaiting? && !(p.token in parked && parked[p.token].AwaitExecute?) then 4 else HeightOf(p)
  }

  lemma ExecuteDown(g: Gateway.Setup, s: Gateway.Sys, th: Thread, env: Gateway.Env)
    requires !th.place.Idle?
    ensures HeightOf(ExecuteNode(g, s, th, env).1.place) < 6
  {
    hide Close, AfterGateway, Gateway.ExecutePreauthorized;
    if th.ch.request.None? || th.ch.decision.None? {
      CloseHold(g, s, th, "execution_result", th.ch.cid, th.ch.(outcome := Some(MissingInputs)), Before(Verify));
    } else {
      var r, d := th.ch.request.value, th.ch.decision.value;
      var (s1, reply) := Gateway.ExecutePreauthorized(g, s, r, d, env);
      AfterGatewayMoves(g, s1, th.(deeds := th.deeds.(called := th.deeds.called + [GatewayCall(r, d)])), r, reply);
    }
  }

  lemma NodeDown(g: Gateway.Setup, s: Gateway.Sys, memory: seq<MemoryEvent>, th: Thread, fallback: Option<Risk.Context>, o: Outside)
    requires th.place.Before?
    ensures HeightOf(RunNode(g, s, memory, th, fallback, o).thread.place) < HeightOf(th.place)
  {
    hide MemoryNode, RunPlainNode, ExecuteNode;
    if th.place.node.MemoryUpdate? {
      MemoryMoves(g, s, memory, th, o.storeFails);
    } else if th.place.node.Execute? {
      ExecuteIsPlain(g, s, th, fallback, o);
      ExecuteDown(g, s, th, o.env);
    } else {
      PlainMoves(g, s, th, fallback, o);
    }
  }

  lemma WakeDown(g: Gateway.Setup, s: Gateway.Sys, th: Thread, answer: Option<Evidence>)
    requires th.place.Awaiting? && th.place.token in s.parked
    ensures var (s', th') := WakeNode(g, s, th, answer); Left(s'.parked, th'.place) < Left(s.parked, th.place)
  {
    hide Gateway.Resume, AfterGateway;
    var (s1, reply) := Gateway.Resume(g, s, th.place.token, answer);
    ResumeFrame(g, s, th.place.token, answer);
    AfterGatewayMoves(g, s1, th, s.parked[th.place.token].request, reply);
  }

  /** The action takes the session's round one turn further. */
  predicate Drives(w: World, a: Action, session: string) {
    match a
    case NextNode(s, _) => s == session
    case AdapterAnswers(s, _, _) => s == session
    case ResumeRound(s, _, _) => s == session && ResumeStatus(w, s).None?
    case FinishRound(s, _) => s == session
    case _ => false
  }

  function LeftOf(w: World, session: string): nat { Left(w.sys.parked, ThreadOf(w, session).place) }

  lemma DriveGoesDown(g: Gateway.Setup, fallback: Option<Risk.Context>, w: World, a: Action, session: string)
    requires Enabled(w, a) && Drives(w, a, session)
    ensures LeftOf(Perform(g, fallback, w, a), session) < LeftOf(w, session)
  {
    hide RunNode, WakeNode, ReviewNode, NodeLog, HeightBefore, GotCompleted, FinalStatus;
    var th := ThreadOf(w, session);
    match a {
      case NextNode(_, o) => NodeDown(g, Gateway.Enter(w.sys, o.env), w.memory, th, fallback, o);
      case AdapterAnswers(_, answer, env) => WakeDown(g, Gateway.Enter(w.sys, env), th, answer);
      case ResumeRound(_, approve, env) => ReviewMoves(g, Gateway.Enter(w.sys, env), Resuming(th, approve), approve, fallback, env);
      case FinishRound(_, _) =>
    }
  }

  // ---------------------------------------------------------------- nobody else touches a round

  /** The round's place among the turns is unchanged. */
  predicate Unmoved(w: World, w': World, session: string) {
    ThreadOf(w', session) == ThreadOf(w, session) && LeftOf(w', session) == LeftOf(w, session)
  }

  /** What a session waits for is left alone by a step that touches another call at most. */
  lemma OnwardUnmoved(w: World, w': World, session: string, touched: Option<nat>)
    requires Ledger(w) && Onward(w.sys, w'.sys, touched) && ThreadOf(w', session) == ThreadOf(w, session)
    requires touched.Some? ==> ThreadOf(w, session).place != Awaiting(touched.value)
    ensures Unmoved(w, w', session)
  {
    hide Booked, Remembered, Exclusive, Balanced, Holding, EventFits;
    if session in w.threads { assert Listed(w.sys.calls, w.sys.parked, w.completed, w.written, w.threads[session]); }
  }

  lemma NodeOnward(g: Gateway.Setup, s: Gateway.Sys, memory: seq<MemoryEvent>, th: Thread, fallback: Option<Risk.Context>, o: Outside)
    requires th.place.Before? && Staged(s.approvals, th)
    ensures Onward(s, RunNode(g, s, memory, th, fallback, o).sys, None)
  {
    hide MemoryNode, RunPlainNode, ExecuteNode, Ready, Pending, Answered, Completed, SameHold;
    if th.place.node.MemoryUpdate? {
      CompletedKeptAside(s.approvals, th);
      MemoryShape(g, s, memory, th, o.storeFails);
    } else if th.place.node.Execute? {
      ExecuteIsPlain(g, s, th, fallback, o);
      ExecuteOnward(g, s, th, o.env);
    } else {
      PlainHold(g, s, th, fallback, o);
    }
  }

  lemma CompletedKeptAside(a: Approvals, th: Thread)
    requires th.place == Before(MemoryUpdate) && Staged(a, th)
    ensures th.ch.satisfied && Completed(th.ch.outcome)
  {
    hide Completed, Answered;
  }

  lemma ExecuteOnward(g: Gateway.Setup, s: Gateway.Sys, th: Thread, env: Gateway.Env)
    requires Ready(th) && !th.place.Idle?
    ensures Onward(s, ExecuteNode(g, s, th, env).0, None)
  {
    hide Ready, Gateway.ExecutePreauthorized, AfterGateway, AtMostOneCall;
    ReadyFacts(th);
    var r, d := th.ch.request.value, th.ch.decision.value;
    var (s1, reply) := Gateway.ExecutePreauthorized(g, s, r, d, env);
    PreauthorizedFrame(g, s, r, d, env);
    OneCallOnward(s, s1, r, Gateway.Preauthorized, reply);
    AfterGatewayMoves(g, s1, th.(deeds := th.deeds.(called := th.deeds.called + [GatewayCall(r, d)])), r, reply);
  }

  lemma WakeOnward(g: Gateway.Setup, s: Gateway.Sys, th: Thread, answer: Option<Evidence>)
    requires th.place.Awaiting? && th.place.token in s.parked
    ensures Onward(s, WakeNode(g, s, th, answer).0, Some(th.place.token))
  {
    hide Gateway.Resume, AfterGateway;
    var (s1, reply) := Gateway.Resume(g, s, th.place.token, answer);
    ResumeFrame(g, s, th.place.token, answer);
    AfterGatewayMoves(g, s1, th, s.parked[th.place.token].request, reply);
  }

  lemma OtherTokens(w: World, x: string, y: string)
    requires Ledger(w) && x != y && ThreadOf(w, x).place.Awaiting?
    ensures ThreadOf(w, y).place != ThreadOf(w, x).place
  {
    hide Booked, Remembered, AllListed, Balanced, Holding;
  }

  lemma StartUnmoved(g: Gateway.Setup, fallback: Option<Risk.Context>, w: World, a: Action, session: string)
    requires Enabled(w, a) && a.BeginRound? && a.session != session
    ensures Unmoved(w, Perform(g, fallback, w, a), session)
  {
    hide NodeLog, Unmoved;
    NodeLogFrame(g, Gateway.Enter(w.sys, a.env), "user_input_received", a.cid);
    CoreUnmoved(w, Perform(g, fallback, w, a), session);
  }

  lemma FinishUnmoved(g: Gateway.Setup, fallback: Option<Risk.Context>, w: World, a: Action, session: string)
    requires Enabled(w, a) && a.FinishRound? && a.session != session
    ensures Unmoved(w, Perform(g, fallback, w, a), session)
  {
    hide NodeLog, Unmoved, FinalStatus;
    NodeLogFrame(g, Gateway.Enter(w.sys, a.env), "session_complete", ThreadOf(w, a.session).ch.cid);
    CoreUnmoved(w, Perform(g, fallback, w, a), session);
  }

  lemma NodeUnmoved(g: Gateway.Setup, fallback: Option<Risk.Context>, w: World, s: string, o: Outside, session: string)
    requires Ledger(w) && ThreadOf(w, s).place.Before? && FreshId(w, o.env) && Staged(w.sys.approvals, ThreadOf(w, s))
    requires s != session
    ensures Unmoved(w, Perform(g, fallback, w, NextNode(s, o)), session)
  {
    hide Ledger, Staged, RunNode, GotCompleted, Unmoved, Onward;
    NodeOnward(g, Gateway.Enter(w.sys, o.env), w.memory, ThreadOf(w, s), fallback, o);
    EnteredUnmoved(w, Perform(g, fallback, w, NextNode(s, o)), session, o.env, None);
  }

  lemma AnswerUnmoved(g: Gateway.Setup, fallback: Option<Risk.Context>, w: World, a: Action, session: string)
    requires Ledger(w) && Enabled(w, a) && a.AdapterAnswers? && a.session != session
    ensures Unmoved(w, Perform(g, fallback, w, a), session)
  {
    hide Ledger, WakeNode, GotCompleted, Unmoved, Onward;
    WakeOnward(g, Gateway.Enter(w.sys, a.env), ThreadOf(w, a.session), a.answer);
    OtherTokens(w, a.session, session);
    EnteredUnmoved(w, Perform(g, fallback, w, a), session, a.env, Some(ThreadOf(w, a.session).place.token));
  }

  lemma OtherUnmoved(g: Gateway.Setup, fallback: Option<Risk.Context>, w: World, b: Gateway.Action, session: string)
    requires Ledger(w) && Enabled(w, Other(b))
    ensures Unmoved(w, Perform(g, fallback, w, Other(b)), session)
  {
    hide Ledger, Unmoved, Gateway.Perform, Onward;
    GatewayOnward(g, w.sys, b);
    OnwardUnmoved(w, Perform(g, fallback, w, Other(b)), session, Touched(b));
  }

  /** A step that does not drive the session's round leaves it where it is. */
  lemma OthersLeaveIt(g: Gateway.Setup, fallback: Option<Risk.Context>, w: World, a: Action, session: string)
    requires Sound(g, w) && Ledger(w) && Enabled(w, a) && !Drives(w, a, session)
    requires !(a.BeginRound? && a.session == session)
    ensures Unmoved(w, Perform(g, fallback, w, a), session)
  {
    hide Sound, Ledger, Staged, TakeUp, StartRound, Finalize, Settle, Suspended, RunNode, WakeNode, Unmoved, Gateway.Perform;
    if !a.Other? { StagedAt(g, w, a.session); }
    match a {
      case BeginRound(_, _, _, _, _) => StartUnmoved(g, fallback, w, a, session);
      case NextNode(s, o) => NodeUnmoved(g, fallback, w, s, o, session);
      case AdapterAnswers(_, _, _) => AnswerUnmoved(g, fallback, w, a, session);
      case ResumeRound(s, approve, env) => ReviewUnmoved(g, fallback, w, s, approve, env, session);
      case FinishRound(_, _) => FinishUnmoved(g, fallback, w, a, session);
      case Cancel(_) => CoreUnmoved(w, Perform(g, fallback, w, a), session);
      case Other(b) => OtherUnmoved(g, fallback, w, b, session);
    }
  }

  lemma CoreUnmoved(w: World, w': World, session: string)
    requires SameCore(w.sys, w'.sys) && ThreadOf(w', session) == ThreadOf(w, session)
    ensures Unmoved(w, w', session)
  {
  }

  lemma EnteredUnmoved(w: World, w': World, session: string, env: Gateway.Env, touched: Option<nat>)
    requires Ledger(w) && Onward(Gateway.Enter(w.sys, env), w'.sys, touched) && ThreadOf(w', session) == ThreadOf(w, session)
    requires touched.Some? ==> ThreadOf(w, session).place != Awaiting(touched.value)
    ensures Unmoved(w, w', session)
  {
    hide Ledger, Unmoved;
    assert Onward(w.sys, w'.sys, touched);
    OnwardUnmoved(w, w', session, touched);
  }

  lemma ReviewUnmoved(g: Gateway.Setup, fallback: Option<Risk.Context>, w: World, s: string, approve: bool, env: Gateway.Env, session: string)
    requires Enabled(w, ResumeRound(s, approve, env)) && Staged(w.sys.approvals, ThreadOf(w, s))
    requires s != session || ResumeStatus(w, s).Some?
    ensures Unmoved(w, TakeUp(g, fallback, w, s, approve, env), session)
  {
    hide ReviewNode, Pending, Unmoved, GotCompleted;
    match ResumeStatus(w, s) {
      case Some(_) => CoreUnmoved(w, TakeUp(g, fallback, w, s, approve, env), session);
      case None =>
        PendingReply(w.sys.approvals, ThreadOf(w, s));
        ReviewMoves(g, Gateway.Enter(w.sys, env), Resuming(ThreadOf(w, s), approve), approve, fallback, env);
        CoreUnmoved(w, TakeUp(g, fallback, w, s, approve, env), session);
    }
  }

  // ---------------------------------------------------------------- main results on progress

  /** How many of the actions drive the session's round. */
  function Turns(g: Gateway.Setup, fallback: Option<Risk.Context>, w: World, actions: seq<Action>, session: string): nat
    requires Schedule(g, fallback, w, actions)
    decreases |actions|
  {
    if actions == [] then 0
    else (if Drives(w, actions[0], session) then 1 else 0)
         + Turns(g, fallback, Perform(g, fallback, w, actions[0]), actions[1..], session)
  }

  /** A round ends: until the session begins another one, whatever everybody else does, at
      most thirteen turns are left to it, suspension and adapter waits included. */
  lemma {:induction false} RoundTerminates(g: Gateway.Setup, fallback: Option<Risk.Context>, w: World, actions: seq<Action>, session: string)
    requires Sound(g, w) && Ledger(w) && Schedule(g, fallback, w, actions)
    requires forall i | 0 <= i < |actions| :: !(actions[i].BeginRound? && actions[i].session == session)
    ensures Turns(g, fallback, w, actions, session) <= LeftOf(w, session) <= 13
    decreases |actions|
  {
    AtMostThirteen(w, session);
    hide Sound, Ledger, Perform, Enabled, Drives, LeftOf;
    if actions != [] {
      var w' := Perform(g, fallback, w, actions[0]);
      StepSound(g, fallback, w, actions[0]);
      StepLedger(g, fallback, w, actions[0]);
      RoundTerminates(g, fallback, w', actions[1..], session);
      if Drives(w, actions[0], session) {
        DriveGoesDown(g, fallback, w, actions[0], session);
      } else {
        OthersLeaveIt(g, fallback, w, actions[0], session);
      }
    }
  }

  lemma AtMostThirteen(w: World, session: string)
    ensures LeftOf(w, session) <= 13
  {
  }

  /** A round is never stuck: unless it is suspended for approval or over, its next turn is
      enabled, whatever the outside answers; in particular the call it waits for is parked. */
  lemma NeverStuck(g: Gateway.Setup, fallback: Option<Risk.Context>, audit: Store, actions: seq<Action>, session: string,
                   o: Outside, answer: Option<Evidence>)
    requires Schedule(g, fallback, NewWorld(audit), actions)
    requires FreshId(Play(g, fallback, NewWorld(audit), actions), o.env)
    ensures var w := Play(g, fallback, NewWorld(audit), actions);
      Free(ThreadOf(w, session).place) || Enabled(w, NextNode(session, o)) || Enabled(w, AdapterAnswers(session, answer, o.env))
      || Enabled(w, FinishRound(session, o.env))
  {
    NewWorldLedger(g, audit);
    hide Play, Schedule, Sound, Booked, Remembered, Exclusive, Balanced, Holding;
    RunLedger(g, fallback, NewWorld(audit), actions);
    var w := Play(g, fallback, NewWorld(audit), actions);
    if session in w.threads { assert Listed(w.sys.calls, w.sys.parked, w.completed, w.written, w.threads[session]); }
  }

  /** Nothing is under way in the session, and `resume` would not drive it. */
  predicate IsOver(w: World, session: string) {
    Free(ThreadOf(w, session).place) && ResumeStatus(w, session).Some?
  }

  lemma StaysOver(g: Gateway.Setup, fallback: Option<Risk.Context>, w: World, a: Action, session: string)
    requires Sound(g, w) && Ledger(w) && Enabled(w, a) && IsOver(w, session)
    requires !(a.BeginRound? && a.session == session)
    ensures !Drives(w, a, session) && IsOver(Perform(g, fallback, w, a), session)
    ensures ThreadOf(Perform(g, fallback, w, a), session) == ThreadOf(w, session)
  {
    NotDriven(w, a, session);
    hide Sound, Ledger, Enabled, Perform, Drives;
    OthersLeaveIt(g, fallback, w, a, session);
    TableKept(g, fallback, w, a, session);
  }

  lemma NotDriven(w: World, a: Action, session: string)
    requires Enabled(w, a) && IsOver(w, session)
    ensures !Drives(w, a, session)
  {
  }

  /** Only driving a session's round, or cancelling it, touches its entry in the table. */
  lemma TableKept(g: Gateway.Setup, fallback: Option<Risk.Context>, w: World, a: Action, session: string)
    requires Enabled(w, a) && !Drives(w, a, session)
    ensures var w' := Perform(g, fallback, w, a);
      session in w'.sessions ==> session in w.sessions && w'.sessions[session] == w.sessions[session]
  {
    hide RunNode, WakeNode, ReviewNode, NodeLog, Gateway.Perform, FinalStatus, GotCompleted;
  }

  /** A replayed approval does nothing: once a round was reported, or cancelled while it was
      suspended, no `resume` of its session takes a turn of it until the session begins
      another round. */
  lemma {:induction false} ReplayDoesNothing(g: Gateway.Setup, fallback: Option<Risk.Context>, w: World, actions: seq<Action>, session: string)
    requires Sound(g, w) && Ledger(w) && IsOver(w, session) && Schedule(g, fallback, w, actions)
    requires forall i | 0 <= i < |actions| :: !(actions[i].BeginRound? && actions[i].session == session)
    ensures Turns(g, fallback, w, actions, session) == 0 && IsOver(Play(g, fallback, w, actions), session)
    ensures ThreadOf(Play(g, fallback, w, actions), session) == ThreadOf(w, session)
    decreases |actions|
  {
    hide Sound, Ledger, Perform, Enabled, Drives, IsOver, ThreadOf;
    if actions != [] {
      var w' := Perform(g, fallback, w, actions[0]);
      StaysOver(g, fallback, w, actions[0], session);
      StepSound(g, fallback, w, actions[0]);
      StepLedger(g, fallback, w, actions[0]);
      ReplayDoesNothing(g, fallback, w', actions[1..], session);
    }
  }

  /** A round that was reported is over: its session is finalized, unless it was cancelled. */
  lemma ReportedIsOver(g: Gateway.Setup, w: World, session: string, env: Gateway.Env)
    requires ThreadOf(w, session).place.Ended? && NodeLog(g, Gateway.Enter(w.sys, env), "session_complete", ThreadOf(w, session).ch.cid).1
    ensures IsOver(Finalize(g, w, session, env), session)
  {
    hide NodeLog, FinalStatus;
  }

  /** Cancelling a session leaves its thread, the gateway, memory and every other session as
      they are, and ends its round exactly if that is not under way at the time: a round
      between two nodes or at an adapter goes on. */
  lemma CancelForgets(g: Gateway.Setup, fallback: Option<Risk.Context>, w: World, session: string, other: string)
    ensures var w' := Perform(g, fallback, w, Cancel(session));
      (IsOver(w', session) <==> Free(ThreadOf(w, session).place))
      && ResumeStatus(w', session) == Some(UnknownSession)
      && (other != session ==> ResumeStatus(w', other) == ResumeStatus(w, other))
      && ThreadOf(w', other) == ThreadOf(w, other) && w'.sys == w.sys && w'.memory == w.memory && w'.reports == w.reports
  {
    hide Free;
  }
}
