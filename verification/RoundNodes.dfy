/**
 What every node of a round does to its thread, whatever it decides: it touches no record,
 call or parked call of the gateway, keeps the session and correlation id, and takes the
 round strictly further.
 */
module RoundNodes {
  import opened Prelude
  import opened Capability
  import opened Policy
  import opened Execution
  import opened Approval
  import Gateway
  import opened GatewayFrames
  import opened Rounds
  import opened RoundSafety
  import Risk

  /** How far from its end a round at this place can be. */
  function HeightOf(p: Place): nat {
    match p
    case Before(node) => HeightBefore(node)
    case Paused => 7
    case Awaiting(_) => 5
    case Ended => 1
    case _ => 0
  }

  function HeightBefore(node: Node): nat {
    match node
    case Perceive => 13 case Recall => 12 case Reason => 11 case MakePlan => 10 case PolicyGate => 9
    case HumanReview => 8 case Execute => 6 case Verify => 3
    case MemoryUpdate => 2 case Compensate => 2 case Escalate => 2
  }

  predicate SameScope(th: Thread, th': Thread) { th'.ch.session == th.ch.session && th'.ch.cid == th.ch.cid }

  /** A turn without a gateway call, to a place below the given rank. */
  predicate Moves(s: Gateway.Sys, th: Thread, x: (Gateway.Sys, Thread), below: nat) {
    SameCore(s, x.0) && x.1.deeds.reply == th.deeds.reply && SameScope(th, x.1)
    && !x.1.place.Awaiting? && !x.1.place.Idle? && HeightOf(x.1.place) < below
  }

  lemma CloseHold(g: Gateway.Setup, s: Gateway.Sys, th: Thread, kind: string, cid: string, ch: Channels, next: Place)
    ensures var (s', th') := Close(g, s, th, kind, cid, ch, next);
      SameCore(s, s') && th'.deeds == th.deeds && (th'.place.Crashed? || th'.place == next)
  {
    hide Close;
    CloseEffect(g, s, th, kind, cid, ch, next);
  }

  lemma CloseMoves(g: Gateway.Setup, s: Gateway.Sys, th: Thread, kind: string, cid: string, ch: Channels, next: Place, below: nat)
    requires SameScope(th, th.(ch := ch)) && !next.Awaiting? && !next.Idle? && HeightOf(next) < below
    ensures Moves(s, th, Close(g, s, th, kind, cid, ch, next), below)
  {
    hide Close;
    CloseEffect(g, s, th, kind, cid, ch, next);
  }

  lemma ReasonMoves(g: Gateway.Setup, s: Gateway.Sys, th: Thread, answer: Option<Reasoning>)
    ensures Moves(s, th, ReasonNode(g, s, th, answer), 11)
  {
    hide Close;
    var ch := ReasonUpdate(th.ch, answer);
    CloseMoves(g, s, th, if answer.Some? then "reason_complete" else "reason_failed", th.ch.cid, ch, RouteAfterReason(ch), 11);
  }

  lemma PlanMoves(g: Gateway.Setup, s: Gateway.Sys, th: Thread)
    ensures Moves(s, th, PlanNode(g, s, th), 10)
  {
    hide Close, PlannedRequest;
    var ch := th.ch;
    if ch.reasoning.Some? {
      var plan := RoundPlan(ch.session, ch.cid, [PlannedRequest(ch, ch.reasoning.value)]);
      CloseMoves(g, s, th, "plan_created", ch.cid, ch.(plan := Some(plan)), Before(PolicyGate), 10);
    }
  }

  lemma GateMoves(g: Gateway.Setup, s: Gateway.Sys, th: Thread, fallback: Option<Risk.Context>, env: Gateway.Env)
    ensures Moves(s, th, GateNode(g, s, th, fallback, env), 9)
  {
    hide Extract, Evaluate, GateJudged;
    match Extract(th.ch) {
      case Unclear(_) =>
      case Canonical(r) =>
        var (ws, v) := Evaluate(env.rules, g.limits, s.windows, r, RiskOf(th.ch, fallback), env.now);
        JudgedMoves(g, s.(windows := ws), th.(deeds := th.deeds.(judged := th.deeds.judged + [Judgement(r, v)])), r, v, env);
    }
  }

  lemma JudgedMoves(g: Gateway.Setup, s: Gateway.Sys, th: Thread, r: Request, v: Verdict, env: Gateway.Env)
    ensures Moves(s, th, GateJudged(g, s, th, r, v, env), 9)
  {
    hide Close, NodeLog, GateDecided;
    NodeLogFrame(g, s, "policy_evaluated", r.cid);
    if v.Decided? {
      DecidedMoves(g, NodeLog(g, s, "policy_evaluated", r.cid).0, th, r, v.decision, env);
    } else {
      var ch := RejectUpdate(th.ch, EvaluationFailed(v));
      CloseMoves(g, s, th, "policy_rejected", r.cid, ch, RouteAfterPolicy(ch), 9);
    }
  }

  lemma DecidedMoves(g: Gateway.Setup, s: Gateway.Sys, th: Thread, r: Request, d: Decision, env: Gateway.Env)
    ensures Moves(s, th, GateDecided(g, s, th, r, d, env), 9)
  {
    hide Close, Digest, RequestApproval;
    var ch := JudgedUpdate(th.ch, r, d);
    CloseMoves(g, s, th, "policy_rejected", r.cid, ch, RouteAfterPolicy(ch), 9);
    var asked := s.(approvals := RequestApproval(g.binding, g.ttl, s.approvals, env.freshId, r, d.tier, env.now));
    var ch' := ch.(approvalId := Some(env.freshId), digest := Some(Digest(g.binding, r)), needsReview := true);
    CloseMoves(g, asked, th.(deeds := th.deeds.(asked := Some(env.freshId))), "needs_approval", r.cid, ch', RouteAfterPolicy(ch'), 9);
  }

  lemma RefusedMoves(g: Gateway.Setup, s: Gateway.Sys, th: Thread, kind: string)
    ensures Moves(s, th, ReviewRefused(g, s, th, kind), 7)
  {
    hide Close;
    CloseMoves(g, s, th, kind, th.ch.cid, RefuseUpdate(th.ch), RouteAfterHumanReview(RefuseUpdate(th.ch)), 7);
  }

  lemma ReviewMoves(g: Gateway.Setup, s: Gateway.Sys, th: Thread, approve: bool, fallback: Option<Risk.Context>, env: Gateway.Env)
    ensures Moves(s, th, ReviewNode(g, s, th, approve, fallback, env), 7)
  {
    hide Evaluate, ReviewJudged, ReviewRefused;
    RefusedMoves(g, s, th, "approval_rejected");
    if th.ch.request.Some? {
      var r := th.ch.request.value;
      var (ws, v) := Evaluate(env.rules, g.limits, s.windows, r, RiskOf(th.ch, fallback), env.now);
      ReviewJudgedMoves(g, s.(windows := ws), th.(deeds := th.deeds.(judged := th.deeds.judged + [Judgement(r, v)])), r, v, env);
    }
  }

  lemma ReviewJudgedMoves(g: Gateway.Setup, s: Gateway.Sys, th: Thread, r: Request, v: Verdict, env: Gateway.Env)
    ensures Moves(s, th, ReviewJudged(g, s, th, r, v, env), 7)
  {
    hide Close, ReviewRefused, CheckConsume, Consume;
    RefusedMoves(g, s, th, "approval_rejected");
    RefusedMoves(g, s, th, "policy_rejected_after_approval");
    if v.Decided? {
      var id, tier := th.ch.approvalId.GetOr(""), v.decision.tier;
      var used := s.(approvals := Consume(g.binding, s.approvals, id, r, tier, env.now));
      CloseMoves(g, used, th.(deeds := th.deeds.(spent := th.deeds.spent + [Spending(id, r, tier)])), "approval_consumed",
                 th.ch.cid, PassUpdate(th.ch), RouteAfterHumanReview(PassUpdate(th.ch)), 7);
    }
  }

  /** Every node that neither calls the gateway nor writes memory. */
  lemma PlainMoves(g: Gateway.Setup, s: Gateway.Sys, th: Thread, fallback: Option<Risk.Context>, o: Outside)
    requires th.place.Before? && !th.place.node.Execute? && !th.place.node.MemoryUpdate?
    ensures Moves(s, th, RunPlainNode(g, s, th, fallback, o), HeightBefore(th.place.node))
  {
    hide Close, GateNode, ReasonNode, PlanNode;
    match th.place.node {
      case Perceive => CloseMoves(g, s, th, "perceive_complete", th.ch.cid, th.ch, Before(Recall), 13);
      case Recall => CloseMoves(g, s, th, "recall_complete", th.ch.cid, th.ch, Before(Reason), 12);
      case Reason => ReasonMoves(g, s, th, o.reasoning);
      case MakePlan => PlanMoves(g, s, th);
      case PolicyGate => GateMoves(g, s, th, fallback, o.env);
      case HumanReview =>
      case Verify => VerifyMoves(g, s, th);
      case Compensate => CloseMoves(g, s, th, "compensated", th.ch.cid, th.ch, Ended, 2);
      case Escalate => CloseMoves(g, s, th, "escalated", th.ch.cid, th.ch, Ended, 2);
    }
  }

  lemma VerifyMoves(g: Gateway.Setup, s: Gateway.Sys, th: Thread)
    ensures Moves(s, th, VerifyNode(g, s, th), 3)
  {
    hide Close, Completed, LevelIn;
    CloseMoves(g, s, th, "verification_result", th.ch.cid, VerifyUpdate(th.ch), RouteAfterVerify(VerifyUpdate(th.ch)), 3);
  }

  /** The memory node, whatever it writes. */
  lemma MemoryMoves(g: Gateway.Setup, s: Gateway.Sys, memory: seq<MemoryEvent>, th: Thread, storeFails: bool)
    ensures var t := MemoryNode(g, s, memory, th, storeFails); Moves(s, th, (t.sys, t.thread), 2)
  {
    hide Close, Completed;
    CloseMoves(g, s, th, "memory_skipped", th.ch.cid, th.ch, Ended, 2);
    CloseMoves(g, s, th.(deeds := th.deeds.(events := th.deeds.events + 1)), "memory_updated", th.ch.cid, th.ch, Ended, 2);
  }

  /** What becomes of the round once its gateway call has suspended or come back. */
  lemma AfterGatewayMoves(g: Gateway.Setup, s: Gateway.Sys, th: Thread, r: Request, reply: Gateway.Reply)
    requires !th.place.Idle?
    ensures var (s', th') := AfterGateway(g, s, th, r, reply);
      SameCore(s, s') && SameScope(th, th') && !th'.place.Idle?
      && if reply.Waiting? then th'.place == Awaiting(reply.token) else !th'.place.Awaiting? && HeightOf(th'.place) <= 3
  {
    hide Close;
    CloseMoves(g, s, th.(deeds := th.deeds.(reply := Some(reply))), "execution_result", r.cid,
               th.ch.(outcome := Some(Replied(reply))), Before(Verify), 4);
  }
}
