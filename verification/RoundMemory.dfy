/**
 Memory: every memory event comes from exactly one completed gateway call of the same
 round, no correlation id is remembered twice across all sessions, and nothing completed is
 forgotten unless a round was stopped by an exception.
 */
module RoundMemory {
  import opened Prelude
  import opened Capability
  import opened Policy
  import opened Execution
  import opened Approval
  import opened AuditLog
  import Gateway
  import opened GatewaySafety
  import opened GatewayFrames
  import opened Rounds
  import opened RoundSafety
  import opened RoundNodes
  import RateLimit
  import Risk

  type Calls = seq<Gateway.AdapterCall>
  type Parked = map<nat, Gateway.Parked>

  // ---------------------------------------------------------------- the ledger

  predicate Distinct(ts: seq<nat>) { forall i, j | 0 <= i < j < |ts| :: ts[i] != ts[j] }

  /** A completed reply that the round has yet to write to memory. */
  predicate Holding(th: Thread) {
    (th.place == Before(Verify) || th.place == Before(MemoryUpdate)) && GotCompletedReply(th.deeds)
  }

  /** The adapter call a thread waits for or holds the reply of. */
  function TokenOf(th: Thread): Option<nat> {
    if th.place.Awaiting? then Some(th.place.token) else if Holding(th) then th.deeds.token else None
  }

  predicate EventFits(e: MemoryEvent, c: Gateway.AdapterCall) {
    e.cid == c.request.cid && e.capabilityId == c.request.capabilityId && e.parameters == c.request.parameters
    && e.deviceId == c.request.deviceId
  }

  predicate IsDone(calls: Calls, parked: Parked, t: nat) { t < |calls| && t !in parked && calls[t].entry.Preauthorized? }

  predicate Booked(calls: Calls, parked: Parked, completed: seq<nat>) {
    Distinct(completed) && forall t | t in completed :: IsDone(calls, parked, t)
  }

  predicate Remembered(calls: Calls, completed: seq<nat>, memory: seq<MemoryEvent>, written: seq<nat>) {
    |written| == |memory| && Distinct(written)
    && forall i | 0 <= i < |written| ::
         written[i] in completed && written[i] < |calls| && EventFits(memory[i], calls[written[i]])
  }

  predicate IsOurs(calls: Calls, called: seq<GatewayCall>, t: nat) {
    t < |calls| && calls[t].entry.Preauthorized? && |called| == 1 && calls[t].request == called[0].request
  }

  predicate Listed(calls: Calls, parked: Parked, completed: seq<nat>, written: seq<nat>, th: Thread) {
    (th.place.Awaiting? ==> IsOurs(calls, th.deeds.called, th.place.token) && th.place.token in parked)
    && (Holding(th) ==> th.deeds.token.Some? && IsOurs(calls, th.deeds.called, th.deeds.token.value) && th.deeds.token.value in completed
                        && th.deeds.token.value !in written)
  }

  predicate AllListed(calls: Calls, parked: Parked, completed: seq<nat>, written: seq<nat>, threads: map<string, Thread>) {
    forall s | s in threads :: Listed(calls, parked, completed, written, threads[s])
  }

  predicate Exclusive(threads: map<string, Thread>) {
    forall x, y | x in threads && y in threads && x != y && TokenOf(threads[x]).Some? :: TokenOf(threads[x]) != TokenOf(threads[y])
  }

  predicate HeldBySome(threads: map<string, Thread>, t: nat) {
    exists s :: s in threads && Holding(threads[s]) && threads[s].deeds.token == Some(t)
  }

  predicate Balanced(threads: map<string, Thread>, completed: seq<nat>, written: seq<nat>, stops: nat) {
    stops == 0 ==> forall t | t in completed :: t in written || HeldBySome(threads, t)
  }

  predicate Ledger(w: World) {
    Booked(w.sys.calls, w.sys.parked, w.completed) && Remembered(w.sys.calls, w.completed, w.memory, w.written)
    && AllListed(w.sys.calls, w.sys.parked, w.completed, w.written, w.threads) && Exclusive(w.threads)
    && Balanced(w.threads, w.completed, w.written, w.stops)
  }

  // ---------------------------------------------------------------- turns that move no token

  /** The turn neither begins nor ends waiting, and holds what it held before. */
  predicate SameHold(th: Thread, th': Thread) {
    !th.place.Awaiting? && !th'.place.Awaiting? && (GotCompletedReply(th'.deeds) ==> th'.deeds.reply == th.deeds.reply)
    && (th'.place.Crashed? || ((Holding(th') <==> Holding(th)) && (Holding(th) ==> th'.deeds == th.deeds)))
  }

  lemma IdleLedger(w: World, session: string, th': Thread, stops: nat)
    requires Ledger(w) && SameHold(ThreadOf(w, session), th')
    requires stops >= w.stops && (th'.place.Crashed? ==> stops > 0)
    ensures Ledger(w.(threads := w.threads[session := th'], stops := stops))
  {
    hide GotCompletedReply, IsOurs, IsDone, EventFits, Distinct;
    var threads := w.threads[session := th'];
    var was := ThreadOf(w, session);
    assert !Holding(NEW_THREAD);
    assert Listed(w.sys.calls, w.sys.parked, w.completed, w.written, th');
    assert TokenOf(th') == None || TokenOf(th') == TokenOf(was);
    hide Listed;
    if stops == 0 {
      forall t | t in w.completed ensures t in w.written || HeldBySome(threads, t) {
        if t !in w.written {
          var s :| s in w.threads && Holding(w.threads[s]) && w.threads[s].deeds.token == Some(t);
          assert s in threads && Holding(threads[s]) && threads[s].deeds.token == Some(t);
        }
      }
    }
  }

  /** A turn of this kind that changes only the audit store, the windows and the approvals. */
  lemma SettleIdle(w: World, session: string, t: Turn)
    requires Ledger(w) && SameHold(ThreadOf(w, session), t.thread) && SameCore(w.sys, t.sys) && t.memory == w.memory
    ensures Ledger(Settle(w, session, t))
  {
    var stops := if t.thread.place.Crashed? then w.stops + 1 else w.stops;
    IdleLedger(w, session, t.thread, stops);
    hide Booked, Remembered, AllListed, Exclusive, Balanced, Holding, Completed;
  }

  lemma VerifyHold(g: Gateway.Setup, s: Gateway.Sys, th: Thread)
    requires Answered(th) && th.place == Before(Verify)
    ensures var (s', th') := VerifyNode(g, s, th); SameCore(s, s') && SameHold(th, th')
  {
    hide Close, Authorised;
    var ch := VerifyUpdate(th.ch);
    CloseHold(g, s, th, "verification_result", th.ch.cid, ch, RouteAfterVerify(ch));
  }

  lemma EarlyHold(th: Thread, th': Thread)
    requires th.deeds.reply.None? && th'.deeds.reply.None? && !th.place.Awaiting? && !th'.place.Awaiting?
    ensures SameHold(th, th')
  {
  }

  lemma PlainHold(g: Gateway.Setup, s: Gateway.Sys, th: Thread, fallback: Option<Risk.Context>, o: Outside)
    requires th.place.Before? && Staged(s.approvals, th) && !th.place.node.Execute? && !th.place.node.MemoryUpdate?
    ensures var (s', th') := RunPlainNode(g, s, th, fallback, o); SameCore(s, s') && SameHold(th, th')
  {
    hide Close, GateNode, ReasonNode, PlanNode, VerifyNode, Authorised, SameHold, Completed, HeightOf;
    if th.place.node.Verify? {
      VerifyHold(g, s, th);
    } else if th.place.node.Compensate? {
      CloseHold(g, s, th, "compensated", th.ch.cid, th.ch, Ended);
      CompensateHold(th, RunPlainNode(g, s, th, fallback, o).1);
    } else {
      PlainMoves(g, s, th, fallback, o);
      EarlyHold(th, RunPlainNode(g, s, th, fallback, o).1);
    }
  }

  lemma CompensateHold(th: Thread, th': Thread)
    requires th.place == Before(Compensate) && th'.deeds == th.deeds && (th'.place.Crashed? || th'.place.Ended?)
    ensures SameHold(th, th')
  {
  }

  // ---------------------------------------------------------------- turns that move a token

  predicate NoneHas(threads: map<string, Thread>, t: nat) { forall s | s in threads :: TokenOf(threads[s]) != Some(t) }

  predicate NoneAwaits(threads: map<string, Thread>, t: nat) { forall s | s in threads :: threads[s].place != Awaiting(t) }

  /** The gateway moves on, and touches no call that a round waits for. */
  lemma OnwardLedger(w: World, s': Gateway.Sys, touched: Option<nat>)
    requires Ledger(w) && Onward(w.sys, s', touched) && (touched.Some? ==> NoneAwaits(w.threads, touched.value))
    ensures Ledger(w.(sys := s'))
  {
    hide Distinct, GotCompletedReply, EventFits, HeldBySome;
    forall t | 0 <= t < |w.sys.calls| ensures s'.calls[t] == w.sys.calls[t] { assert s'.calls[..|w.sys.calls|][t] == w.sys.calls[t]; }
    hide Exclusive, Balanced;
    forall s | s in w.threads ensures Listed(s'.calls, s'.parked, w.completed, w.written, w.threads[s]) {
      assert Listed(w.sys.calls, w.sys.parked, w.completed, w.written, w.threads[s]);
    }
  }

  /** A thread stops waiting. */
  lemma Forget(w: World, session: string, th: Thread)
    requires Ledger(w) && session in w.threads && w.threads[session].place.Awaiting? && th.place.Idle?
    ensures Ledger(w.(threads := w.threads[session := th]))
      && NoneHas(w.threads[session := th], w.threads[session].place.token)
  {
    hide GotCompletedReply, IsOurs, IsDone, EventFits, Distinct;
    var threads := w.threads[session := th];
    assert TokenOf(th) == None && Listed(w.sys.calls, w.sys.parked, w.completed, w.written, th);
    StillHeld(w, session, th);
    hide Listed;
  }

  /** Changing a thread that holds nothing leaves what the others hold. */
  lemma StillHeld(w: World, session: string, th: Thread)
    requires Balanced(w.threads, w.completed, w.written, w.stops) && !Holding(ThreadOf(w, session))
    ensures Balanced(w.threads[session := th], w.completed, w.written, w.stops)
  {
    hide Holding;
    var threads := w.threads[session := th];
    if w.stops == 0 {
      forall t | t in w.completed ensures t in w.written || HeldBySome(threads, t) {
        if t !in w.written {
          var s :| s in w.threads && Holding(w.threads[s]) && w.threads[s].deeds.token == Some(t);
          assert s in threads && Holding(threads[s]) && threads[s].deeds.token == Some(t);
        }
      }
    }
  }

  /** A thread begins to wait for a call nobody else waits for. */
  lemma Take(w: World, session: string, th: Thread, t: nat)
    requires Ledger(w) && TokenOf(ThreadOf(w, session)) == None && !Holding(ThreadOf(w, session))
    requires th.place == Awaiting(t) && IsOurs(w.sys.calls, th.deeds.called, t) && t in w.sys.parked && NoneHas(w.threads, t)
    ensures Ledger(w.(threads := w.threads[session := th]))
  {
    hide GotCompletedReply, IsOurs, IsDone, EventFits, Distinct;
    assert TokenOf(th) == Some(t) && Listed(w.sys.calls, w.sys.parked, w.completed, w.written, th);
    StillHeld(w, session, th);
    hide Listed, Holding;
  }

  /** A completed reply reaches a round, which holds it or is stopped by an exception. */
  lemma Collect(w: World, session: string, th: Thread, t: nat, stops: nat)
    requires Ledger(w) && !Holding(ThreadOf(w, session)) && NoneHas(w.threads, t)
    requires IsDone(w.sys.calls, w.sys.parked, t) && t !in w.completed
    requires th.deeds.token == Some(t) && IsOurs(w.sys.calls, th.deeds.called, t) && GotCompletedReply(th.deeds)
    requires stops >= w.stops && (if th.place.Crashed? then stops > 0 else th.place == Before(Verify))
    ensures Ledger(w.(threads := w.threads[session := th], completed := w.completed + [t], stops := stops))
  {
    hide GotCompletedReply, IsOurs, IsDone, EventFits;
    var threads, completed := w.threads[session := th], w.completed + [t];
    assert Booked(w.sys.calls, w.sys.parked, completed);
    assert Remembered(w.sys.calls, completed, w.memory, w.written);
    assert t !in w.written;
    hide Distinct, Booked, Remembered;
    StillHeld(w, session, th);
    CollectBalanced(w, threads, session, t, stops);
    forall s | s in threads ensures Listed(w.sys.calls, w.sys.parked, completed, w.written, threads[s]) {
      assert s != session ==> Listed(w.sys.calls, w.sys.parked, w.completed, w.written, w.threads[s]);
    }
    assert Exclusive(threads);
  }

  lemma CollectBalanced(w: World, threads: map<string, Thread>, session: string, t: nat, stops: nat)
    requires Balanced(threads, w.completed, w.written, w.stops) && stops >= w.stops && session in threads
    requires stops == 0 ==> Holding(threads[session]) && threads[session].deeds.token == Some(t)
    ensures Balanced(threads, w.completed + [t], w.written, stops)
  {
    hide Holding;
    if stops == 0 { assert HeldBySome(threads, t); }
    hide HeldBySome;
  }

  /** The round that holds a completed reply writes it down. */
  lemma WriteDown(w: World, session: string, th: Thread, e: MemoryEvent, stops: nat)
    requires Ledger(w) && session in w.threads && Holding(w.threads[session]) && w.threads[session].deeds.token.Some?
    requires var t := w.threads[session].deeds.token.value; t < |w.sys.calls| ==> EventFits(e, w.sys.calls[t])
    requires (th.place.Ended? || th.place.Crashed?) && stops >= w.stops
    ensures Ledger(w.(threads := w.threads[session := th], memory := w.memory + [e],
                      written := w.written + [w.threads[session].deeds.token.value], stops := stops))
  {
    var t := w.threads[session].deeds.token.value;
    hide GotCompletedReply, IsDone, EventFits;
    var threads, written := w.threads[session := th], w.written + [t];
    assert Listed(w.sys.calls, w.sys.parked, w.completed, w.written, w.threads[session]);
    hide IsOurs;
    WrittenBalanced(w, session, th, t, stops);
    assert Remembered(w.sys.calls, w.completed, w.memory + [e], written);
    hide Remembered, Distinct, Booked, Balanced;
    forall s | s in threads ensures Listed(w.sys.calls, w.sys.parked, w.completed, written, threads[s]) {
      if s != session {
        assert Listed(w.sys.calls, w.sys.parked, w.completed, w.written, w.threads[s]);
        assert TokenOf(w.threads[session]) == Some(t) && TokenOf(w.threads[s]) != Some(t);
      }
    }
    assert Exclusive(threads);
  }

  lemma WrittenBalanced(w: World, session: string, th: Thread, t: nat, stops: nat)
    requires Balanced(w.threads, w.completed, w.written, w.stops) && stops >= w.stops
    requires session in w.threads && w.threads[session].deeds.token == Some(t)
    ensures Balanced(w.threads[session := th], w.completed, w.written + [t], stops)
  {
    hide Holding;
    var threads := w.threads[session := th];
    if stops == 0 {
      forall x | x in w.completed ensures x in w.written + [t] || HeldBySome(threads, x) {
        if x !in w.written && x != t {
          var s :| s in w.threads && Holding(w.threads[s]) && w.threads[s].deeds.token == Some(x);
          assert s != session;
          assert s in threads && Holding(threads[s]) && threads[s].deeds.token == Some(x);
        }
      }
    }
  }

  // ---------------------------------------------------------------- whole turns

  lemma SameCoreLedger(w: World, s': Gateway.Sys)
    requires Ledger(w) && SameCore(w.sys, s')
    ensures Ledger(w.(sys := s'))
  {
    hide Booked, Remembered, AllListed, Exclusive, Balanced;
  }

  lemma FreshToken(w: World)
    requires Ledger(w)
    ensures NoneHas(w.threads, |w.sys.calls|)
  {
    hide GotCompletedReply, IsDone, EventFits, Distinct, Exclusive, Balanced;
    forall s | s in w.threads ensures TokenOf(w.threads[s]) != Some(|w.sys.calls|) {
      assert Listed(w.sys.calls, w.sys.parked, w.completed, w.written, w.threads[s]);
    }
  }

  predicate CompletedReply(reply: Gateway.Reply) { reply.Finished? && reply.completed }

  /** The bookkeeping of `AfterGateway`: `w` already has the gateway's new state, and its
      thread neither waits nor holds. */
  ghost predicate MayFollow(w: World, session: string, th: Thread, reply: Gateway.Reply) {
    TokenOf(ThreadOf(w, session)) == None && !Holding(ThreadOf(w, session)) && th.deeds.reply.None? && !th.place.Crashed?
    && (reply.Waiting? ==> IsOurs(w.sys.calls, th.deeds.called, reply.token) && reply.token in w.sys.parked
                           && NoneHas(w.threads, reply.token))
    && (CompletedReply(reply) ==>
          th.deeds.token.Some? && IsDone(w.sys.calls, w.sys.parked, th.deeds.token.value)
          && th.deeds.token.value !in w.completed && NoneHas(w.threads, th.deeds.token.value)
          && IsOurs(w.sys.calls, th.deeds.called, th.deeds.token.value))
  }

  function Followed(w: World, session: string, s: Gateway.Sys, th: Thread, reply: Gateway.Reply): World {
    w.(sys := s, threads := w.threads[session := th],
       completed := if CompletedReply(reply) then w.completed + [th.deeds.token.GetOr(0)] else w.completed,
       stops := if th.place.Crashed? then w.stops + 1 else w.stops)
  }

  lemma AfterGatewayLedger(g: Gateway.Setup, w: World, session: string, th: Thread, r: Request, reply: Gateway.Reply)
    requires Ledger(w) && MayFollow(w, session, th, reply)
    ensures var (s', th') := AfterGateway(g, w.sys, th, r, reply); Ledger(Followed(w, session, s', th', reply))
  {
    hide Ledger, Close, IsOurs, IsDone, NoneHas;
    if reply.Waiting? {
      Take(w, session, AfterGateway(g, w.sys, th, r, reply).1, reply.token);
    } else if reply.Exception? {
      IdleLedger(w, session, Stop(th), w.stops + 1);
    } else {
      var th1 := th.(deeds := th.deeds.(reply := Some(reply)));
      CloseHold(g, w.sys, th1, "execution_result", r.cid, th.ch.(outcome := Some(Replied(reply))), Before(Verify));
      var (s', th') := AfterGateway(g, w.sys, th, r, reply);
      SameCoreLedger(w, s');
      var stops := if th'.place.Crashed? then w.stops + 1 else w.stops;
      if CompletedReply(reply) {
        Collect(w.(sys := s'), session, th', th.deeds.token.value, stops);
      } else {
        IdleLedger(w.(sys := s'), session, th', stops);
      }
    }
  }

  /** What `AfterGateway` leaves of the deeds. */
  lemma AfterGatewayDeeds(g: Gateway.Setup, s: Gateway.Sys, th: Thread, r: Request, reply: Gateway.Reply)
    requires th.deeds.reply.None?
    ensures var th' := AfterGateway(g, s, th, r, reply).1;
      (GotCompleted(th.deeds, th'.deeds) <==> CompletedReply(reply))
      && (CompletedReply(reply) ==> th'.deeds.token == th.deeds.token)
  {
    hide Close;
    CloseHold(g, s, th.(deeds := th.deeds.(reply := Some(reply))), "execution_result", r.cid,
              th.ch.(outcome := Some(Replied(reply))), Before(Verify));
  }

  lemma SettleIsFollowed(w: World, session: string, s1: Gateway.Sys, threads: map<string, Thread>, s': Gateway.Sys, th': Thread,
                         reply: Gateway.Reply)
    requires GotCompleted(ThreadOf(w, session).deeds, th'.deeds) <==> CompletedReply(reply)
    requires threads[session := th'] == w.threads[session := th']
    ensures Settle(w, session, Turn(s', w.memory, th')) == Followed(w.(sys := s1, threads := threads), session, s', th', reply)
  {
    hide GotCompleted;
  }

  /** `w1` is `w` with the gateway's new state and possibly the waiting thread set aside. */
  lemma FollowedLedger(g: Gateway.Setup, w: World, w1: World, session: string, th: Thread, r: Request, reply: Gateway.Reply)
    requires Ledger(w1) && MayFollow(w1, session, th, reply) && ThreadOf(w, session).deeds.reply.None?
    requires w1 == w.(sys := w1.sys, threads := w1.threads)
    requires w1.threads == w.threads || (session in w1.threads && w1.threads == w.threads[session := w1.threads[session]])
    ensures var (s', th') := AfterGateway(g, w1.sys, th, r, reply); Ledger(Settle(w, session, Turn(s', w.memory, th')))
  {
    hide Ledger, AfterGateway, MayFollow, Settle, Followed;
    MayFollowReply(w1, session, th, reply);
    AfterGatewayLedger(g, w1, session, th, r, reply);
    AfterGatewayDeeds(g, w1.sys, th, r, reply);
    var (s', th') := AfterGateway(g, w1.sys, th, r, reply);
    Override(w.threads, w1.threads, session, th');
    SettleIsFollowed(w, session, w1.sys, w1.threads, s', th', reply);
  }

  lemma MayFollowReply(w: World, session: string, th: Thread, reply: Gateway.Reply)
    requires MayFollow(w, session, th, reply)
    ensures th.deeds.reply.None?
  {
    hide Holding, IsOurs, IsDone;
  }

  lemma Override(m: map<string, Thread>, m1: map<string, Thread>, k: string, th: Thread)
    requires m1 == m || (k in m1 && m1 == m[k := m1[k]])
    ensures m1[k := th] == m[k := th]
  {
  }

  lemma ReadyFacts(th: Thread)
    requires Ready(th)
    ensures th.deeds.called == [] && th.deeds.reply.None? && th.ch.request.Some? && th.ch.decision.Some?
  {
  }

  lemma ExecuteLedger(g: Gateway.Setup, w: World, session: string, env: Gateway.Env)
    requires Ledger(w) && Ready(ThreadOf(w, session)) && ThreadOf(w, session).place == Before(Execute)
    ensures var (s', th') := ExecuteNode(g, Gateway.Enter(w.sys, env), ThreadOf(w, session), env);
      Ledger(Settle(w, session, Turn(s', w.memory, th')))
  {
    var th := ThreadOf(w, session);
    hide Ledger, Ready, Gateway.ExecutePreauthorized, AfterGateway, MayFollow, Onward, AtMostOneCall;
    ReadyFacts(th);
    var r, d := th.ch.request.value, th.ch.decision.value;
    var s := Gateway.Enter(w.sys, env);
    var (s1, reply) := Gateway.ExecutePreauthorized(g, s, r, d, env);
    PreauthorizedFrame(g, s, r, d, env);
    NewCallLedger(w, session, env, s1, r, d, reply);
    var th1 := th.(deeds := th.deeds.(called := th.deeds.called + [GatewayCall(r, d)]));
    FollowedLedger(g, w, w.(sys := s1), session, th1, r, reply);
  }

  lemma NewCallLedger(w: World, session: string, env: Gateway.Env, s1: Gateway.Sys, r: Request, d: Decision, reply: Gateway.Reply)
    requires Ledger(w) && ThreadOf(w, session).place == Before(Execute)
    requires ThreadOf(w, session).deeds.reply.None? && ThreadOf(w, session).deeds.called == []
    requires AtMostOneCall(Gateway.Enter(w.sys, env), s1, r, Gateway.Preauthorized, reply)
    requires reply.Rejection? || reply.Waiting? || reply.Exception?
    ensures var th := ThreadOf(w, session);
      var th1 := th.(deeds := th.deeds.(called := th.deeds.called + [GatewayCall(r, d)]));
      Ledger(w.(sys := s1)) && MayFollow(w.(sys := s1), session, th1, reply)
  {
    OneCallOnward(Gateway.Enter(w.sys, env), s1, r, Gateway.Preauthorized, reply);
    hide Ledger, NoneHas;
    FreshToken(w);
    OnwardLedger(w, s1, None);
  }

  lemma WakeLedger(g: Gateway.Setup, w: World, session: string, answer: Option<Evidence>, env: Gateway.Env)
    requires Ledger(w) && session in w.threads && w.threads[session].place.Awaiting?
    requires InFlight(w.threads[session]) && w.threads[session].deeds.token == Some(w.threads[session].place.token)
    requires w.threads[session].place.token in w.sys.parked
    ensures var (s', th') := WakeNode(g, Gateway.Enter(w.sys, env), w.threads[session], answer);
      Ledger(Settle(w, session, Turn(s', w.memory, th')))
  {
    var th := w.threads[session];
    var token := th.place.token;
    hide Ledger, Gateway.Resume, AfterGateway, InFlight, MayFollow;
    InFlightReply(th);
    var s := Gateway.Enter(w.sys, env);
    var (s1, reply) := Gateway.Resume(g, s, token, answer);
    ResumeFrame(g, s, token, answer);
    var w1 := w.(sys := s1, threads := w.threads[session := th.(place := Idle)]);
    ResumedLedger(w, session, s1, reply);
    FollowedLedger(g, w, w1, session, th, s.parked[token].request, reply);
  }

  lemma ResumedLedger(w: World, session: string, s1: Gateway.Sys, reply: Gateway.Reply)
    requires Ledger(w) && session in w.threads && w.threads[session].place.Awaiting?
    requires var th := w.threads[session]; th.deeds.token == Some(th.place.token) && th.deeds.reply.None?
    requires s1.calls == w.sys.calls && w.threads[session].place.token in w.sys.parked
    requires var token := w.threads[session].place.token;
      if reply.Waiting?
      then reply.token == token && token in s1.parked && s1.parked == w.sys.parked[token := s1.parked[token]]
      else s1.parked == w.sys.parked - {token}
    ensures var th := w.threads[session];
      var w1 := w.(sys := s1, threads := w.threads[session := th.(place := Idle)]);
      Ledger(w1) && MayFollow(w1, session, th, reply)
  {
    var th := w.threads[session];
    var token := th.place.token;
    AwaitedFacts(w, session);
    hide Ledger, NoneHas;
    Forget(w, session, th.(place := Idle));
    var idle := w.(threads := w.threads[session := th.(place := Idle)]);
    NoneHasNoneAwaits(idle.threads, token);
    OnwardLedger(idle, s1, Some(token));
  }

  lemma InFlightReply(th: Thread)
    requires InFlight(th)
    ensures th.deeds.reply.None?
  {
  }

  lemma NoneHasNoneAwaits(threads: map<string, Thread>, t: nat)
    requires NoneHas(threads, t)
    ensures NoneAwaits(threads, t)
  {
    hide Holding;
  }

  lemma AwaitedFacts(w: World, session: string)
    requires Ledger(w) && session in w.threads && w.threads[session].place.Awaiting?
    ensures var th := w.threads[session];
      IsOurs(w.sys.calls, th.deeds.called, th.place.token) && th.place.token !in w.completed
  {
    hide Exclusive, Balanced, Remembered, Holding, Distinct;
    assert Listed(w.sys.calls, w.sys.parked, w.completed, w.written, w.threads[session]);
  }

  lemma MemoryShape(g: Gateway.Setup, s: Gateway.Sys, memory: seq<MemoryEvent>, th: Thread, storeFails: bool)
    requires th.ch.satisfied && Completed(th.ch.outcome)
    ensures var t := MemoryNode(g, s, memory, th, storeFails);
      SameCore(s, t.sys)
      && if storeFails then t.memory == memory && t.thread == Stop(th)
         else t.memory == memory + [EventOf(th.ch)] && (t.thread.place.Crashed? || t.thread.place.Ended?)
              && t.thread.deeds == th.deeds.(events := th.deeds.events + 1)
  {
    hide Close, Completed, EventOf;
    CloseHold(g, s, th.(deeds := th.deeds.(events := th.deeds.events + 1)), "memory_updated", th.ch.cid, th.ch, Ended);
  }

  lemma MemoryLedger(g: Gateway.Setup, w: World, session: string, env: Gateway.Env, storeFails: bool)
    requires Ledger(w) && session in w.threads && w.threads[session].place == Before(MemoryUpdate)
    requires Answered(w.threads[session]) && w.threads[session].ch.satisfied && Completed(w.threads[session].ch.outcome)
    ensures Ledger(Settle(w, session, MemoryNode(g, Gateway.Enter(w.sys, env), w.memory, w.threads[session], storeFails)))
  {
    var th := w.threads[session];
    hide Ledger, MemoryNode, Answered, Completed, Settle, EventOf, SameHold;
    MemoryShape(g, Gateway.Enter(w.sys, env), w.memory, th, storeFails);
    var t := MemoryNode(g, Gateway.Enter(w.sys, env), w.memory, th, storeFails);
    if storeFails {
      StoppedIdle(th);
      SettleIdle(w, session, t);
    } else {
      WroteLedger(w, session, t.sys, t.thread);
    }
  }

  lemma WroteLedger(w: World, session: string, s': Gateway.Sys, th': Thread)
    requires Ledger(w) && session in w.threads && w.threads[session].place == Before(MemoryUpdate)
    requires Answered(w.threads[session]) && w.threads[session].ch.satisfied && Completed(w.threads[session].ch.outcome)
    requires SameCore(w.sys, s') && (th'.place.Crashed? || th'.place.Ended?)
    requires th'.deeds == w.threads[session].deeds.(events := w.threads[session].deeds.events + 1)
    ensures Ledger(Settle(w, session, Turn(s', w.memory + [EventOf(w.threads[session].ch)], th')))
  {
    var th := w.threads[session];
    hide Ledger, Answered, Completed, EventFits, Holding;
    AnsweredHolds(w, session);
    SameCoreLedger(w, s');
    WriteDown(w.(sys := s'), session, th', EventOf(th.ch), if th'.place.Crashed? then w.stops + 1 else w.stops);
  }

  lemma StoppedIdle(th: Thread)
    requires !th.place.Awaiting?
    ensures SameHold(th, Stop(th))
  {
  }

  /** A round about to update memory holds a completed reply, and its event fits the call. */
  lemma AnsweredHolds(w: World, session: string)
    requires Ledger(w) && session in w.threads && w.threads[session].place == Before(MemoryUpdate)
    requires Answered(w.threads[session]) && w.threads[session].ch.satisfied && Completed(w.threads[session].ch.outcome)
    ensures Holding(w.threads[session]) && w.threads[session].deeds.token.Some?
    ensures w.threads[session].deeds.token.value < |w.sys.calls|
    ensures EventFits(EventOf(w.threads[session].ch), w.sys.calls[w.threads[session].deeds.token.value])
    ensures w.threads[session].ch.satisfied && Completed(w.threads[session].ch.outcome)
  {
    hide Exclusive, Balanced, Remembered, Distinct, Booked, Authorised, Actionable;
    assert Listed(w.sys.calls, w.sys.parked, w.completed, w.written, w.threads[session]);
  }

  // ---------------------------------------------------------------- every step keeps the ledger

  lemma NodeLedger(g: Gateway.Setup, fallback: Option<Risk.Context>, w: World, session: string, o: Outside)
    requires Ledger(w) && ThreadOf(w, session).place.Before? && Staged(w.sys.approvals, ThreadOf(w, session))
    ensures Ledger(Settle(w, session, RunNode(g, Gateway.Enter(w.sys, o.env), w.memory, ThreadOf(w, session), fallback, o)))
  {
    var th := ThreadOf(w, session);
    hide Ledger, MemoryNode, ExecuteNode, RunPlainNode, Settle, Answered, Ready, Pending, Completed, SameHold;
    if th.place.node.MemoryUpdate? {
      MemoryLedger(g, w, session, o.env, o.storeFails);
    } else if th.place.node.Execute? {
      ExecuteLedger(g, w, session, o.env);
      ExecuteIsPlain(g, Gateway.Enter(w.sys, o.env), th, fallback, o);
    } else {
      PlainHold(g, Gateway.Enter(w.sys, o.env), th, fallback, o);
      var (s', th') := RunPlainNode(g, Gateway.Enter(w.sys, o.env), th, fallback, o);
      SettleIdle(w, session, Turn(s', w.memory, th'));
    }
  }

  lemma ExecuteIsPlain(g: Gateway.Setup, s: Gateway.Sys, th: Thread, fallback: Option<Risk.Context>, o: Outside)
    requires th.place == Before(Execute)
    ensures RunPlainNode(g, s, th, fallback, o) == ExecuteNode(g, s, th, o.env)
  {
    hide ExecuteNode;
  }

  lemma SuspendedLedger(w: World, session: string)
    requires Ledger(w)
    ensures Ledger(Suspended(w, session))
  {
    hide Booked, Remembered, AllListed, Exclusive, Balanced;
  }

  lemma StartLedger(g: Gateway.Setup, w: World, session: string, cid: string, intent: Intent, risk: Risk.Context, env: Gateway.Env)
    requires Ledger(w) && Free(ThreadOf(w, session).place)
    ensures Ledger(StartRound(g, w, session, cid, intent, risk, env))
  {
    hide Ledger, NodeLog;
    NodeLogFrame(g, Gateway.Enter(w.sys, env), "user_input_received", cid);
    var s := NodeLog(g, Gateway.Enter(w.sys, env), "user_input_received", cid).0;
    SameCoreLedger(w, s);
    var ch := ThreadOf(w, session).ch;
    var th := Thread(StartChannels(ch, session, cid, intent, risk), Before(Perceive), false, NoDeeds(ch));
    IdleLedger(w.(sys := s), session, th, w.stops);
  }

  lemma FinishLedger(g: Gateway.Setup, w: World, session: string, env: Gateway.Env)
    requires Ledger(w) && ThreadOf(w, session).place.Ended?
    ensures Ledger(Finalize(g, w, session, env))
  {
    hide Ledger, NodeLog, FinalStatus;
    var th := ThreadOf(w, session);
    NodeLogFrame(g, Gateway.Enter(w.sys, env), "session_complete", th.ch.cid);
    var s := NodeLog(g, Gateway.Enter(w.sys, env), "session_complete", th.ch.cid).0;
    SameCoreLedger(w, s);
    IdleLedger(w.(sys := s), session, Stop(th), w.stops + 1);
    IdleLedger(w.(sys := s), session, th.(place := Idle), w.stops);
    TablesLedger(Finalize(g, w, session, env), w.(sys := s, threads := w.threads[session := Stop(th)], stops := w.stops + 1),
                 w.(sys := s, threads := w.threads[session := th.(place := Idle)]));
  }

  /** Session table and reports do not matter. */
  lemma TablesLedger(w: World, w1: World, w2: World)
    requires Ledger(w1) && Ledger(w2)
    requires w.(sessions := map[], reports := []) == w1.(sessions := map[], reports := [])
          || w.(sessions := map[], reports := []) == w2.(sessions := map[], reports := [])
    ensures Ledger(w)
  {
    hide Booked, Remembered, AllListed, Exclusive, Balanced;
  }

  lemma TakeUpLedger(g: Gateway.Setup, fallback: Option<Risk.Context>, w: World, session: string, approve: bool, env: Gateway.Env)
    requires Ledger(w) && Enabled(w, ResumeRound(session, approve, env)) && Staged(w.sys.approvals, ThreadOf(w, session))
    ensures Ledger(TakeUp(g, fallback, w, session, approve, env))
  {
    hide Ledger, Settle, ReviewNode, Pending, SameHold, HeightOf;
    match ResumeStatus(w, session) {
      case Some(_) => TablesLedger(TakeUp(g, fallback, w, session, approve, env), w, w);
      case None =>
        var th := Resuming(ThreadOf(w, session), approve);
        PendingReply(w.sys.approvals, ThreadOf(w, session));
        ReviewMoves(g, Gateway.Enter(w.sys, env), th, approve, fallback, env);
        var (s', th') := ReviewNode(g, Gateway.Enter(w.sys, env), th, approve, fallback, env);
        EarlyHold(ThreadOf(w, session), th');
        SettleIdle(w, session, Turn(s', w.memory, th'));
    }
  }

  lemma PendingReply(a: Approvals, th: Thread)
    requires Pending(a, th)
    ensures th.deeds.reply.None?
  {
  }

  lemma AnswerLedger(g: Gateway.Setup, fallback: Option<Risk.Context>, w: World, session: string, answer: Option<Evidence>, env: Gateway.Env)
    requires Ledger(w) && Staged(w.sys.approvals, ThreadOf(w, session)) && Enabled(w, AdapterAnswers(session, answer, env))
    ensures Ledger(Perform(g, fallback, w, AdapterAnswers(session, answer, env)))
  {
    hide Ledger, Settle, WakeNode, InFlight;
    WakeLedger(g, w, session, answer, env);
  }

  lemma OtherLedger(g: Gateway.Setup, w: World, b: Gateway.Action)
    requires Ledger(w) && Enabled(w, Other(b))
    ensures Ledger(w.(sys := Gateway.Perform(g, w.sys, b).0))
  {
    hide Ledger, Onward, Gateway.Perform;
    GatewayOnward(g, w.sys, b);
    OnwardLedger(w, Gateway.Perform(g, w.sys, b).0, Touched(b));
  }

  lemma StepLedger(g: Gateway.Setup, fallback: Option<Risk.Context>, w: World, a: Action)
    requires Sound(g, w) && Ledger(w) && Enabled(w, a)
    ensures Ledger(Perform(g, fallback, w, a))
  {
    hide Sound, Ledger, Staged, StartRound, RunNode, WakeNode, TakeUp, Finalize, Settle, Suspended, Gateway.Perform;
    if !a.Other? { StagedAt(g, w, a.session); }
    match a {
      case BeginRound(session, cid, intent, risk, env) => StartLedger(g, w, session, cid, intent, risk, env);
      case NextNode(session, o) =>
        NodeLedger(g, fallback, w, session, o);
        SuspendedLedger(Settle(w, session, RunNode(g, Gateway.Enter(w.sys, o.env), w.memory, ThreadOf(w, session), fallback, o)), session);
      case AdapterAnswers(session, answer, env) => AnswerLedger(g, fallback, w, session, answer, env);
      case ResumeRound(session, approve, env) => TakeUpLedger(g, fallback, w, session, approve, env);
      case FinishRound(session, env) => FinishLedger(g, w, session, env);
      case Cancel(_) => TablesLedger(Perform(g, fallback, w, a), w, w);
      case Other(b) => OtherLedger(g, w, b);
    }
  }

  lemma {:induction false} RunLedger(g: Gateway.Setup, fallback: Option<Risk.Context>, w: World, actions: seq<Action>)
    requires Sound(g, w) && Ledger(w) && Schedule(g, fallback, w, actions)
    ensures Sound(g, Play(g, fallback, w, actions)) && Ledger(Play(g, fallback, w, actions))
    decreases |actions|
  {
    hide Sound, Ledger, Perform, Enabled;
    if actions != [] {
      StepSound(g, fallback, w, actions[0]);
      StepLedger(g, fallback, w, actions[0]);
      RunLedger(g, fallback, Perform(g, fallback, w, actions[0]), actions[1..]);
    }
  }

  lemma NewWorldLedger(g: Gateway.Setup, audit: Store)
    ensures Sound(g, NewWorld(audit)) && Ledger(NewWorld(audit))
  {
    NewWorldSound(g, audit);
  }

  // ---------------------------------------------------------------- the history is kept as it says

  /** The step runs a part of a round of its session. */
  predicate RunsRound(w: World, a: Action) {
    a.NextNode? || a.AdapterAnswers? || a.FinishRound? || (a.ResumeRound? && ResumeStatus(w, a.session).None?)
  }

  /** What the history counts: a stop for every round that an exception has ended, a completed
      call for every completed reply that reaches a round, a written one for every event. */
  lemma HistoryKept(g: Gateway.Setup, fallback: Option<Risk.Context>, w: World, a: Action)
    requires Enabled(w, a)
    ensures var w' := Perform(g, fallback, w, a);
      if !RunsRound(w, a) then
        w'.stops == w.stops && w'.completed == w.completed && w'.written == w.written
        && (a.Other? ==> w' == w.(sys := Gateway.Perform(g, w.sys, a.action).0))
      else
        var th, th' := ThreadOf(w, a.session), ThreadOf(w', a.session);
        w'.stops == w.stops + (if th'.place.Crashed? then 1 else 0)
        && w'.completed == w.completed + (if th.deeds.reply.None? && GotCompletedReply(th'.deeds) then [th'.deeds.token.GetOr(0)] else [])
        && w'.written == w.written + (if |w'.memory| > |w.memory| then [th'.deeds.token.GetOr(0)] else [])
  {
    hide RunNode, WakeNode, ReviewNode, NodeLog, Gateway.Perform, FinalReport, Completed;
  }

  // ---------------------------------------------------------------- main results on memory

  function Elements(ts: seq<nat>): set<nat> { set t | t in ts }

  lemma {:induction false} DistinctSize(ts: seq<nat>)
    requires Distinct(ts)
    ensures |Elements(ts)| == |ts|
    decreases |ts|
  {
    if ts != [] {
      var init, last := ts[..|ts| - 1], ts[|ts| - 1];
      DistinctSize(init);
      assert last !in init;
      assert ts == init + [last];
      assert Elements(ts) == Elements(init) + {last};
    }
  }

  lemma FewerTokens(xs: seq<nat>, ys: seq<nat>)
    requires Distinct(xs) && Distinct(ys) && forall t | t in xs :: t in ys
    ensures |xs| <= |ys|
  {
    DistinctSize(xs);
    DistinctSize(ys);
    RateLimit.SubsetSize(Elements(xs), Elements(ys));
  }

  /** Every memory event records one completed gateway call, with that call's correlation id,
      capability, parameters and device. */
  lemma MemoryIsTrue(g: Gateway.Setup, fallback: Option<Risk.Context>, audit: Store, actions: seq<Action>, i: nat)
    requires Schedule(g, fallback, NewWorld(audit), actions)
    requires i < |Play(g, fallback, NewWorld(audit), actions).memory|
    ensures var w := Play(g, fallback, NewWorld(audit), actions);
      |w.written| == |w.memory| && w.written[i] in w.completed && w.written[i] < |w.sys.calls|
      && EventFits(w.memory[i], w.sys.calls[w.written[i]])
  {
    NewWorldLedger(g, audit);
    hide Play, Schedule, Sound, Ledger;
    RunLedger(g, fallback, NewWorld(audit), actions);
    EventIsTrue(Play(g, fallback, NewWorld(audit), actions), i);
  }

  lemma EventIsTrue(w: World, i: nat)
    requires Ledger(w) && i < |w.memory|
    ensures |w.written| == |w.memory| && w.written[i] in w.completed && w.written[i] < |w.sys.calls|
      && EventFits(w.memory[i], w.sys.calls[w.written[i]])
  {
    hide Booked, AllListed, Exclusive, Balanced, EventFits, Distinct;
  }

  /** No gateway call and no correlation id is remembered twice, whatever sessions share the
      gateway. */
  lemma RememberedOnce(g: Gateway.Setup, fallback: Option<Risk.Context>, audit: Store, actions: seq<Action>, i: nat, j: nat)
    requires Schedule(g, fallback, NewWorld(audit), actions)
    requires i < j < |Play(g, fallback, NewWorld(audit), actions).memory|
    ensures var w := Play(g, fallback, NewWorld(audit), actions);
      w.memory[i].cid != w.memory[j].cid && |w.written| == |w.memory| && w.written[i] != w.written[j]
  {
    NewWorldLedger(g, audit);
    hide Play, Schedule, Sound, Ledger;
    RunLedger(g, fallback, NewWorld(audit), actions);
    DistinctCids(g, Play(g, fallback, NewWorld(audit), actions), i, j);
  }

  lemma DistinctCids(g: Gateway.Setup, w: World, i: nat, j: nat)
    requires Sound(g, w) && Ledger(w) && i < j < |w.memory|
    ensures w.memory[i].cid != w.memory[j].cid && |w.written| == |w.memory| && w.written[i] != w.written[j]
  {
    hide FiredOnce, FiredIsPast, AllLived, AllAwaiting, CallsSafe, AllStaged, AllHonest, AllListed, Exclusive, Balanced;
    var x, y := w.written[i], w.written[j];
    assert x != y && IsDone(w.sys.calls, w.sys.parked, x) && IsDone(w.sys.calls, w.sys.parked, y);
  }

  /** Memory never holds more events than calls were completed, and exactly as many when no
      round was stopped by an exception and none is between its reply and its memory write. */
  lemma MemoryIsComplete(g: Gateway.Setup, fallback: Option<Risk.Context>, audit: Store, actions: seq<Action>)
    requires Schedule(g, fallback, NewWorld(audit), actions)
    ensures var w := Play(g, fallback, NewWorld(audit), actions);
      |w.memory| <= |w.completed|
      && (w.stops == 0 && (forall s | s in w.threads :: !Holding(w.threads[s])) ==> |w.memory| == |w.completed|)
  {
    NewWorldLedger(g, audit);
    hide Play, Schedule, Sound, Ledger;
    RunLedger(g, fallback, NewWorld(audit), actions);
    Counts(Play(g, fallback, NewWorld(audit), actions));
  }

  lemma Counts(w: World)
    requires Ledger(w)
    ensures |w.memory| <= |w.completed|
    ensures w.stops == 0 && (forall s | s in w.threads :: !Holding(w.threads[s])) ==> |w.memory| == |w.completed|
  {
    hide AllListed, Exclusive, IsDone, EventFits, Holding, Distinct;
    FewerTokens(w.written, w.completed);
    if w.stops == 0 && (forall s | s in w.threads :: !Holding(w.threads[s])) { FewerTokens(w.completed, w.written); }
  }
}
