/**
 Runs driven only through the gateway's own entry points: each approval request belongs to
 exactly one record, what an approved call executes is what was approved, and the audit
 trail tells the story of every dispatch in order, even when audit writes fail.
 */
module GatewayHistory {
  import opened Prelude
  import opened Hashing
  import opened Capability
  import opened Policy
  import opened Execution
  import opened Approval
  import opened AuditLog
  import opened Gateway
  import opened GatewaySafety
  import opened GatewayFrames
  import Adapters
  import Risk

  // ---------------------------------------------------------------- approvals and records

  /** The approval request is the one made when the record was opened. */
  predicate MadeFor(b: Binding, ar: ApprovalRequest, o: Opening) {
    o.entry.Direct? && o.needsApproval && o.request.cid == ar.cid && o.tier == ar.tier
    && o.request.principal == ar.principal && o.request.deviceId == ar.deviceId
    && o.request.capabilityId == ar.capabilityId && Digest(b, o.request) == ar.digest
  }

  /** The executed request agrees with the opening one in everything an approval binds. */
  predicate Agrees(b: Binding, o: Opening, r: Request, tier: int) {
    o.entry.Direct? && o.needsApproval && o.request.cid == r.cid && o.tier == tier
    && o.request.principal == r.principal && o.request.deviceId == r.deviceId
    && o.request.capabilityId == r.capabilityId && Digest(b, o.request) == Digest(b, r)
  }

  predicate RequestsMadeFor(b: Binding, requests: map<string, ApprovalRequest>, openings: map<string, Opening>) {
    forall id | id in requests :: requests[id].cid in openings && MadeFor(b, requests[id], openings[requests[id].cid])
  }

  predicate HasRequest(requests: map<string, ApprovalRequest>, cid: string) {
    exists id :: id in requests && requests[id].cid == cid
  }

  predicate OnePerRecord(requests: map<string, ApprovalRequest>, openings: map<string, Opening>) {
    (forall x, y | x in requests && y in requests && x != y :: requests[x].cid != requests[y].cid)
    && forall cid | cid in openings && openings[cid].entry.Direct? && openings[cid].needsApproval :: HasRequest(requests, cid)
  }

  predicate ApprovedCallsAgree(b: Binding, openings: map<string, Opening>, calls: seq<AdapterCall>) {
    forall i | 0 <= i < |calls| && calls[i].entry.ByApproval? ::
      calls[i].request.cid in openings && Agrees(b, openings[calls[i].request.cid], calls[i].request, calls[i].tier)
  }

  predicate Bound(g: Setup, s: Sys) {
    s.openings.Keys == s.records.Keys
    && RequestsMadeFor(g.binding, s.approvals.requests, s.openings)
    && OnePerRecord(s.approvals.requests, s.openings)
    && ApprovedCallsAgree(g.binding, s.openings, s.calls)
  }

  // ---------------------------------------------------------------- the trail

  /** Entries of these kinds for `cid` occur in the trail in this order. */
  predicate InOrder(trail: seq<Note>, cid: string, kinds: seq<Kind>)
    decreases |kinds|
  {
    kinds == [] || exists i | 0 <= i < |trail| ::
      trail[i] == Note(kinds[|kinds| - 1], cid) && InOrder(trail[..i], cid, kinds[..|kinds| - 1])
  }

  lemma {:induction false} InOrderGrows(trail: seq<Note>, n: nat, cid: string, kinds: seq<Kind>)
    requires n <= |trail| && InOrder(trail[..n], cid, kinds)
    ensures InOrder(trail, cid, kinds)
    decreases |kinds|
  {
    if kinds != [] {
      var i :| 0 <= i < n && trail[..n][i] == Note(kinds[|kinds| - 1], cid)
               && InOrder(trail[..n][..i], cid, kinds[..|kinds| - 1]);
      assert trail[..n][..i] == trail[..i];
    }
  }

  lemma InOrderAppend(trail: seq<Note>, note: Note, cid: string, kinds: seq<Kind>)
    requires InOrder(trail, cid, kinds)
    ensures InOrder(trail + [note], cid, kinds)
  {
    assert (trail + [note])[..|trail|] == trail;
    InOrderGrows(trail + [note], |trail|, cid, kinds);
  }

  lemma InOrderNext(trail: seq<Note>, cid: string, kinds: seq<Kind>, kind: Kind)
    requires InOrder(trail, cid, kinds)
    ensures InOrder(trail + [Note(kind, cid)], cid, kinds + [kind])
  {
    var t, ks := trail + [Note(kind, cid)], kinds + [kind];
    assert t[..|trail|] == trail && ks[..|kinds|] == kinds;
    assert t[|trail|] == Note(ks[|ks| - 1], cid);
  }

  lemma InOrderPrefix(trail: seq<Note>, cid: string, kinds: seq<Kind>, kind: Kind)
    requires InOrder(trail, cid, kinds + [kind])
    ensures InOrder(trail, cid, kinds)
  {
    var ks := kinds + [kind];
    var i :| 0 <= i < |trail| && trail[i] == Note(ks[|ks| - 1], cid) && InOrder(trail[..i], cid, ks[..|ks| - 1]);
    assert ks[..|ks| - 1] == kinds;
    InOrderGrows(trail, i, cid, kinds);
  }

  const ASKED := [KRequested]
  const PENDING := ASKED + [KNeedsApproval]
  const GRANTED := PENDING + [KApprovalGranted]
  const APPROVED := GRANTED + [KApproved]

  predicate IsApprovalFlow(o: Opening) { o.entry.Direct? && o.needsApproval }

  /** What must be in the trail before a dispatch of the record may be. */
  function Prologue(o: Opening): seq<Kind> { if IsApprovalFlow(o) then APPROVED else ASKED }

  /** What is in the trail of a healthy store for a record in a given state. */
  function Told(o: Opening, s: State): seq<Kind> {
    if !IsApprovalFlow(o) then ASKED else if Past(s) then APPROVED else PENDING
  }

  predicate RecordsTold(trail: seq<Note>, records: Records, openings: map<string, Opening>) {
    forall cid | cid in records ::
      cid in openings && InOrder(trail, cid, Told(openings[cid], records[cid].machine.state))
  }

  predicate GrantsTold(trail: seq<Note>, a: Approvals) {
    forall id | id in a.grants :: id in a.requests && InOrder(trail, a.requests[id].cid, GRANTED)
  }

  predicate Due(trail: seq<Note>, s: Sys) {
    RecordsTold(trail, s.records, s.openings) && GrantsTold(trail, s.approvals)
  }

  predicate DispatchesPrepared(trail: seq<Note>, openings: map<string, Opening>) {
    forall i | 0 <= i < |trail| && trail[i].kind == KDispatched ::
      trail[i].cid in openings && InOrder(trail[..i], trail[i].cid, Prologue(openings[trail[i].cid]))
  }

  predicate BeyondAuthorized(s: State) { Past(s) && !s.Authorized? }

  predicate DispatchedOnce(trail: seq<Note>, records: Records) {
    (forall i, j | 0 <= i < j < |trail| && trail[i].kind == KDispatched && trail[j].kind == KDispatched ::
       trail[i].cid != trail[j].cid)
    && forall i | 0 <= i < |trail| && trail[i].kind == KDispatched ::
         trail[i].cid in records && BeyondAuthorized(records[trail[i].cid].machine.state)
  }

  predicate TrailTells(s: Sys) {
    DispatchesPrepared(s.trail, s.openings) && DispatchedOnce(s.trail, s.records)
    && (s.audit.healthy ==> Due(s.trail, s))
  }

  predicate History(g: Setup, s: Sys) { Bound(g, s) && TrailTells(s) }

  // ---------------------------------------------------------------- logging

  lemma LogTrail(g: Setup, s: Sys, kind: Kind, cid: string)
    ensures var (s', ok) := Log(g, s, kind, cid);
      (ok ==> s.audit.healthy && s'.audit.healthy && s'.trail == s.trail + [Note(kind, cid)])
      && (!ok ==> !s'.audit.healthy
                  && (s'.trail == s.trail || (s.audit.healthy && s'.trail == s.trail + [Note(kind, cid)])))
  {
    hide Append, NewEntry, NextEvent;
    var fault := if s.faults == [] then NoFault else s.faults[0];
    AppendEffect(g.format, g.mac, s.audit, NewEntry(KindText(kind), cid, Json.Null, s.stamp), fault);
  }

  lemma PreparedAppend(trail: seq<Note>, openings: map<string, Opening>, note: Note)
    requires DispatchesPrepared(trail, openings)
    requires note.kind == KDispatched ==> note.cid in openings && InOrder(trail, note.cid, Prologue(openings[note.cid]))
    ensures DispatchesPrepared(trail + [note], openings)
  {
    hide InOrder, Prologue;
    var t := trail + [note];
    forall i | 0 <= i < |t| && t[i].kind == KDispatched
      ensures t[i].cid in openings && InOrder(t[..i], t[i].cid, Prologue(openings[t[i].cid]))
    {
      if i < |trail| { assert t[..i] == trail[..i] && t[i] == trail[i]; } else { assert t[..i] == trail; }
    }
  }

  lemma OnceAppend(trail: seq<Note>, records: Records, note: Note)
    requires DispatchedOnce(trail, records)
    requires note.kind == KDispatched ==>
      note.cid in records && BeyondAuthorized(records[note.cid].machine.state)
      && forall i | 0 <= i < |trail| && trail[i].kind == KDispatched :: trail[i].cid != note.cid
    ensures DispatchedOnce(trail + [note], records)
  {
    hide BeyondAuthorized;
  }

  lemma DueAppend(trail: seq<Note>, s: Sys, note: Note)
    requires Due(trail, s)
    ensures Due(trail + [note], s)
  {
    hide InOrder, Told;
    forall cid, kinds | InOrder(trail, cid, kinds) ensures InOrder(trail + [note], cid, kinds) {
      InOrderAppend(trail, note, cid, kinds);
    }
  }

  /** Bound does not look at the trail or the audit store. */
  lemma BoundFrame(g: Setup, s: Sys, s': Sys)
    requires Bound(g, s) && s'.records == s.records && s'.openings == s.openings && s'.calls == s.calls
    requires s'.approvals.requests == s.approvals.requests
    ensures Bound(g, s')
  {
    hide RequestsMadeFor, OnePerRecord, ApprovedCallsAgree;
  }

  /** Writing the entry that a preceding change of state makes due. */
  lemma LogSettles(g: Setup, s: Sys, kind: Kind, cid: string)
    requires Bound(g, s) && kind != KDispatched
    requires DispatchesPrepared(s.trail, s.openings) && DispatchedOnce(s.trail, s.records)
    requires s.audit.healthy ==> Due(s.trail + [Note(kind, cid)], s)
    ensures History(g, Log(g, s, kind, cid).0)
  {
    hide Log, DispatchesPrepared, DispatchedOnce, RecordsTold, GrantsTold, Bound;
    LogFrame(g, s, kind, cid);
    LogTrail(g, s, kind, cid);
    PreparedAppend(s.trail, s.openings, Note(kind, cid));
    OnceAppend(s.trail, s.records, Note(kind, cid));
    BoundFrame(g, s, Log(g, s, kind, cid).0);
  }

  lemma LogKeeps(g: Setup, s: Sys, kind: Kind, cid: string)
    requires History(g, s) && kind != KDispatched
    ensures History(g, Log(g, s, kind, cid).0)
  {
    hide Log, DispatchesPrepared, DispatchedOnce, Due, Bound;
    if s.audit.healthy { DueAppend(s.trail, s, Note(kind, cid)); }
    LogSettles(g, s, kind, cid);
  }

  lemma LogThenKeeps(g: Setup, s: Sys, kind: Kind, cid: string, reply: Reply)
    requires History(g, s) && kind != KDispatched
    ensures History(g, LogThen(g, s, kind, cid, reply).0)
  {
    hide Log, History;
    LogKeeps(g, s, kind, cid);
  }

  lemma LogThenSettles(g: Setup, s: Sys, kind: Kind, cid: string, reply: Reply)
    requires Bound(g, s) && kind != KDispatched
    requires DispatchesPrepared(s.trail, s.openings) && DispatchedOnce(s.trail, s.records)
    requires s.audit.healthy ==> Due(s.trail + [Note(kind, cid)], s)
    ensures History(g, LogThen(g, s, kind, cid, reply).0)
  {
    hide Log, History, Due, DispatchesPrepared, DispatchedOnce, Bound;
    LogSettles(g, s, kind, cid);
  }

  /** After `capability_requested` was written, the trail holds it. */
  lemma LogRequested(g: Setup, s: Sys, cid: string)
    ensures Log(g, s, KRequested, cid).1 ==> InOrder(Log(g, s, KRequested, cid).0.trail, cid, ASKED)
  {
    hide Log;
    LogTrail(g, s, KRequested, cid);
    InOrderNext(s.trail, cid, [], KRequested);
    assert [] + [KRequested] == ASKED;
  }

  // ---------------------------------------------------------------- opening a record

  lemma OpenBound(g: Setup, s: Sys, r: Request, d: Decision, entry: Entry)
    requires Bound(g, s) && r.cid !in s.records && d.allowed && !(entry.Direct? && d.requiresApproval)
    ensures Bound(g, OpenRecord(s, r, d, entry).0)
  {
    hide MadeFor, Agrees;
  }

  lemma PreparedOpen(trail: seq<Note>, openings: map<string, Opening>, cid: string, o: Opening)
    requires DispatchesPrepared(trail, openings) && cid !in openings
    ensures DispatchesPrepared(trail, openings[cid := o])
  {
    hide InOrder, Prologue;
  }

  lemma OnceOpen(trail: seq<Note>, records: Records, cid: string, rec: Record)
    requires DispatchedOnce(trail, records) && cid !in records
    ensures DispatchedOnce(trail, records[cid := rec])
  {
    hide BeyondAuthorized;
  }

  /** Opening a record that waits for no approval, once its request is in the trail. */
  lemma OpenKeeps(g: Setup, s: Sys, r: Request, d: Decision, entry: Entry)
    requires History(g, s) && r.cid !in s.records && d.allowed && !(entry.Direct? && d.requiresApproval)
    requires InOrder(s.trail, r.cid, ASKED)
    ensures History(g, OpenRecord(s, r, d, entry).0)
  {
    OpenBound(g, s, r, d, entry);
    hide InOrder, RequestsMadeFor, OnePerRecord, ApprovedCallsAgree, GrantsTold, DispatchesPrepared, DispatchedOnce;
    var s' := OpenRecord(s, r, d, entry).0;
    PreparedOpen(s.trail, s.openings, r.cid, s'.openings[r.cid]);
    OnceOpen(s.trail, s.records, r.cid, s'.records[r.cid]);
  }

  /** Parking a call changes nothing but the calls. */
  lemma ParkKeeps(g: Setup, s: Sys, call: AdapterCall, p: Parked)
    requires History(g, s)
    requires (call.entry.ByApproval? ==>
                call.request.cid in s.openings
                && Agrees(g.binding, s.openings[call.request.cid], call.request, call.tier))
    ensures History(g, Park(s, call, p).0)
  {
    hide RequestsMadeFor, OnePerRecord, DispatchesPrepared, DispatchedOnce, RecordsTold, GrantsTold, Agrees;
  }

  predicate MayPark(g: Setup, s: Sys, r: Request, d: Decision, entry: Entry) {
    d.allowed && InOrder(s.trail, r.cid, ASKED)
    && (r.cid in s.records || (entry.Direct? && !d.requiresApproval))
    && (entry.ByApproval? ==> r.cid in s.openings && Agrees(g.binding, s.openings[r.cid], r, d.tier))
  }

  lemma DispatchKeeps(g: Setup, s: Sys, r: Request, def: Definition, d: Decision, entry: Entry, env: Env)
    requires History(g, s) && MayPark(g, s, r, d, entry)
    ensures History(g, Dispatch(g, s, r, def, d, entry, env).0)
  {
    hide History, InOrder, Agrees, LogThen, PhysicalReady, Park;
    var ns := Adapters.NamespaceOf(r.capabilityId);
    LogThenKeeps(g, s, KAdapterRejected, r.cid, Rejection(NoNamespace));
    LogThenKeeps(g, s, KAdapterRejected, r.cid, Rejection(DomainForbids));
    if ns in env.routes {
      var call := AdapterCall(!def.ReadOnly(), r, d.tier, entry, env.routes[ns], env, s.audit);
      if def.ReadOnly() {
        ParkKeeps(g, s, call, AwaitObserve(r));
      } else if r.cid in s.records {
        ParkKeeps(g, s, call, AwaitExecute(r, def));
      } else {
        OpenKeeps(g, s, r, d, entry);
        ParkKeeps(g, OpenRecord(s, r, d, entry).0, call, AwaitExecute(r, def));
      }
    }
  }

  lemma GateAndDispatchKeeps(g: Setup, s: Sys, r: Request, def: Definition, d: Decision, entry: Entry, env: Env)
    requires History(g, s) && MayPark(g, s, r, d, entry)
    ensures History(g, GateAndDispatch(g, s, r, def, d, entry, env).0)
  {
    hide History, MayPark, LogThen, Dispatch, CheckGate;
    if NeedsGate(g, def) && CheckGate(env, s.audit).Some? {
      LogThenKeeps(g, s, KWriteBlocked, r.cid, Rejection(GateClosed(CheckGate(env, s.audit).value)));
    } else {
      DispatchKeeps(g, s, r, def, d, entry, env);
    }
  }

  // ---------------------------------------------------------------- execute

  lemma ExecuteKeeps(g: Setup, s: Sys, r: Request, ctx: Option<Risk.Context>, env: Env)
    requires History(g, s) && env.freshId !in s.approvals.requests
    ensures History(g, Execute(g, s, r, ctx, env).0)
  {
    hide History, InOrder, Log, Evaluate, ExecuteJudged, PhysicalReady;
    LogFrame(g, s, KRequested, r.cid);
    LogKeeps(g, s, KRequested, r.cid);
    LogRequested(g, s, r.cid);
    var (s1, ok) := Log(g, s, KRequested, r.cid);
    if r.cid !in s.records && ok {
      var (ws, v) := Evaluate(env.rules, g.limits, s1.windows, r, ctx, env.now);
      WindowsFrame(g, s1, ws);
      ExecuteJudgedKeeps(g, s1.(windows := ws), r, v, env);
    }
  }

  lemma WindowsFrame(g: Setup, s: Sys, ws: RateLimit.Windows)
    requires History(g, s)
    ensures History(g, s.(windows := ws))
  {
    hide RequestsMadeFor, OnePerRecord, ApprovedCallsAgree, DispatchesPrepared, DispatchedOnce, RecordsTold, GrantsTold;
  }

  lemma ExecuteJudgedKeeps(g: Setup, s: Sys, r: Request, v: Verdict, env: Env)
    requires History(g, s) && r.cid !in s.records && InOrder(s.trail, r.cid, ASKED)
    requires env.freshId !in s.approvals.requests
    ensures History(g, ExecuteJudged(g, s, r, v, env).0)
  {
    hide History, InOrder, Log, LogThen, AskApproval, GateAndDispatch, Agrees;
    LogThenKeeps(g, s, KCapabilityRejected, r.cid, Rejection(NotRegistered));
    LogFrame(g, s, KPolicyEvaluated, r.cid);
    LogKeeps(g, s, KPolicyEvaluated, r.cid);
    LogTrail(g, s, KPolicyEvaluated, r.cid);
    InOrderAppend(s.trail, Note(KPolicyEvaluated, r.cid), r.cid, ASKED);
    var (s1, ok) := Log(g, s, KPolicyEvaluated, r.cid);
    if ok && v.Decided? && v.decision.allowed && r.capabilityId in env.rules.registry {
      if v.decision.requiresApproval {
        AskApprovalKeeps(g, s1, r, v.decision, env);
      } else {
        GateAndDispatchKeeps(g, s1, r, env.rules.registry[r.capabilityId], v.decision, Direct, env);
      }
    }
  }

  /** What asking for approval adds: one request, one record, one opening. */
  predicate AskedFor(s: Sys, s': Sys, id: string, cid: string) {
    s'.trail == s.trail && s'.audit == s.audit && s'.calls == s.calls
    && cid in s'.records && cid in s'.openings && id in s'.approvals.requests
    && s'.records == s.records[cid := s'.records[cid]] && s'.openings == s.openings[cid := s'.openings[cid]]
    && s'.approvals == s.approvals.(requests := s.approvals.requests[id := s'.approvals.requests[id]])
    && IsApprovalFlow(s'.openings[cid]) && s'.records[cid].machine.state == NeedsApproval
    && s'.approvals.requests[id].cid == cid
  }

  lemma AskOpens(g: Setup, s: Sys, r: Request, d: Decision, env: Env)
    requires r.cid !in s.records && d.allowed && d.requiresApproval
    ensures var asked := s.(approvals := RequestApproval(g.binding, g.ttl, s.approvals, env.freshId, r, d.tier, env.now));
      var (s', failure) := OpenRecord(asked, r, d, Direct);
      failure.None? && AskedFor(s, s', env.freshId, r.cid)
      && MadeFor(g.binding, s'.approvals.requests[env.freshId], s'.openings[r.cid])
  {
    hide Digest;
  }

  lemma BoundDomains(g: Setup, s: Sys)
    requires Bound(g, s)
    ensures s.openings.Keys == s.records.Keys
  {
    hide RequestsMadeFor, OnePerRecord, ApprovedCallsAgree;
  }

  lemma AskedOnePerRecord(requests: map<string, ApprovalRequest>, openings: map<string, Opening>, b: Binding,
                          id: string, ar: ApprovalRequest, o: Opening)
    requires RequestsMadeFor(b, requests, openings) && OnePerRecord(requests, openings)
    requires id !in requests && ar.cid !in openings
    ensures OnePerRecord(requests[id := ar], openings[ar.cid := o])
  {
    hide MadeFor, HasRequest;
    var requests', openings' := requests[id := ar], openings[ar.cid := o];
    forall cid | HasRequest(requests, cid) || cid == ar.cid ensures HasRequest(requests', cid) {
      StillRequested(requests, id, ar, cid);
    }
  }

  lemma StillRequested(requests: map<string, ApprovalRequest>, id: string, ar: ApprovalRequest, cid: string)
    requires id !in requests && (HasRequest(requests, cid) || cid == ar.cid)
    ensures HasRequest(requests[id := ar], cid)
  {
    if cid == ar.cid {
      assert id in requests[id := ar];
    } else {
      var x :| x in requests && requests[x].cid == cid;
      assert x in requests[id := ar];
    }
  }

  /** The state between opening a record that needs approval and its audit entry. */
  lemma AskBound(g: Setup, s: Sys, s': Sys, id: string, cid: string)
    requires Bound(g, s) && cid !in s.records && id !in s.approvals.requests && AskedFor(s, s', id, cid)
    requires MadeFor(g.binding, s'.approvals.requests[id], s'.openings[cid])
    ensures Bound(g, s')
  {
    hide MadeFor, Agrees, OnePerRecord, IsApprovalFlow;
    AskedOnePerRecord(s.approvals.requests, s.openings, g.binding, id, s'.approvals.requests[id], s'.openings[cid]);
  }

  lemma AskSettles(g: Setup, s: Sys, s': Sys, id: string, cid: string, reply: Reply)
    requires History(g, s) && cid !in s.records && id !in s.approvals.requests && InOrder(s.trail, cid, ASKED)
    requires AskedFor(s, s', id, cid) && MadeFor(g.binding, s'.approvals.requests[id], s'.openings[cid])
    ensures History(g, LogThen(g, s', KNeedsApproval, cid, reply).0)
  {
    BoundDomains(g, s);
    AskBound(g, s, s', id, cid);
    hide InOrder, Bound, DispatchesPrepared, DispatchedOnce, Due, LogThen, MadeFor;
    PreparedOpen(s.trail, s.openings, cid, s'.openings[cid]);
    OnceOpen(s.trail, s.records, cid, s'.records[cid]);
    if s.audit.healthy { AskDue(s, s', id, cid); }
    LogThenSettles(g, s', KNeedsApproval, cid, reply);
  }

  lemma AskApprovalKeeps(g: Setup, s: Sys, r: Request, d: Decision, env: Env)
    requires History(g, s) && r.cid !in s.records && d.allowed && d.requiresApproval
    requires InOrder(s.trail, r.cid, ASKED) && env.freshId !in s.approvals.requests
    ensures History(g, AskApproval(g, s, r, d, env).0)
  {
    hide InOrder, History, LogThen, OpenRecord, RequestApproval, MadeFor, AskedFor;
    AskOpens(g, s, r, d, env);
    var asked := s.(approvals := RequestApproval(g.binding, g.ttl, s.approvals, env.freshId, r, d.tier, env.now));
    var s' := OpenRecord(asked, r, d, Direct).0;
    AskSettles(g, s, s', env.freshId, r.cid, AwaitsApproval(env.freshId, d.tier));
  }

  lemma AskDue(s: Sys, s': Sys, id: string, cid: string)
    requires Due(s.trail, s) && InOrder(s.trail, cid, ASKED) && AskedFor(s, s', id, cid)
    requires id !in s.approvals.requests
    ensures Due(s'.trail + [Note(KNeedsApproval, cid)], s')
  {
    hide InOrder;
    var note := Note(KNeedsApproval, cid);
    InOrderNext(s.trail, cid, ASKED, KNeedsApproval);
    forall c, kinds | InOrder(s.trail, c, kinds) ensures InOrder(s.trail + [note], c, kinds) {
      InOrderAppend(s.trail, note, c, kinds);
    }
  }

  // ---------------------------------------------------------------- approve

  lemma GrantDue(s: Sys, s': Sys, id: string)
    requires Due(s.trail, s) && id in s.approvals.requests
    requires var cid := s.approvals.requests[id].cid;
      cid in s.records && cid in s.openings && IsApprovalFlow(s.openings[cid])
    requires s'.trail == s.trail && s'.records == s.records && s'.openings == s.openings
    requires s'.approvals.requests == s.approvals.requests && s'.approvals.grants.Keys == s.approvals.grants.Keys + {id}
    ensures Due(s'.trail + [Note(KApprovalGranted, s.approvals.requests[id].cid)], s')
  {
    hide InOrder;
    var cid := s.approvals.requests[id].cid;
    var note := Note(KApprovalGranted, cid);
    assert InOrder(s.trail, cid, Told(s.openings[cid], s.records[cid].machine.state));
    if Past(s.records[cid].machine.state) {
      InOrderPrefix(s.trail, cid, GRANTED, KApproved);
      InOrderPrefix(s.trail, cid, PENDING, KApprovalGranted);
    }
    InOrderNext(s.trail, cid, PENDING, KApprovalGranted);
    forall c, kinds | InOrder(s.trail, c, kinds) ensures InOrder(s.trail + [note], c, kinds) {
      InOrderAppend(s.trail, note, c, kinds);
    }
  }

  lemma ApproveGrantKeeps(g: Setup, s: Sys, id: string, approver: string, env: Env)
    requires History(g, s)
    ensures History(g, ApproveGrant(g, s, id, approver, env).0)
  {
    hide InOrder, OnePerRecord, ApprovedCallsAgree, DispatchesPrepared, DispatchedOnce, Due, LogThen, Digest;
    if CheckGrant(s.approvals, id, env.now).None? {
      var s' := s.(approvals := GiveGrant(s.approvals, id, approver, env.now));
      var cid := s.approvals.requests[id].cid;
      assert cid in s.openings && MadeFor(g.binding, s.approvals.requests[id], s.openings[cid]);
      if s.audit.healthy { GrantDue(s, s', id); }
      BoundFrame(g, s, s');
      LogThenSettles(g, s', KApprovalGranted, cid, AwaitsApproval(id, s.approvals.requests[id].tier));
    }
  }

  // ---------------------------------------------------------------- execute_approved

  lemma ExecuteApprovedKeeps(g: Setup, s: Sys, r: Request, id: string, ctx: Option<Risk.Context>, env: Env)
    requires Safe(g, s) && History(g, s)
    ensures History(g, ExecuteApproved(g, s, r, id, ctx, env).0)
  {
    hide Core, History, Evaluate, ApprovedJudged;
    var (ws, v) := Evaluate(env.rules, g.limits, s.windows, r, ctx, env.now);
    WindowsFrame(g, s, ws);
    ApprovedJudgedKeeps(g, s.(windows := ws), r, id, v, env);
  }

  lemma ApprovedJudgedKeeps(g: Setup, s: Sys, r: Request, id: string, v: Verdict, env: Env)
    requires Safe(g, s) && History(g, s)
    ensures History(g, ApprovedJudged(g, s, r, id, v, env).0)
  {
    hide Core, History, LogThen, CheckConsume, ApprovedUsed;
    if v.Decided? && r.capabilityId in env.rules.registry {
      if !v.decision.allowed {
        LogThenKeeps(g, s, KRejectedAfterApproval, r.cid, Rejection(Denied(v.decision.why)));
      } else {
        match CheckConsume(g.binding, s.approvals, id, r, v.decision.tier, env.now) {
          case Some(refusal) => LogThenKeeps(g, s, KApprovalRejected, r.cid, Rejection(Refused(refusal)));
          case None =>
            ConsumeKeeps(g, s, id, r, v.decision.tier, env.now);
            var used := s.(approvals := Consume(g.binding, s.approvals, id, r, v.decision.tier, env.now));
            ApprovedUsedKeeps(g, used, r, id, v.decision, env.rules.registry[r.capabilityId], env);
        }
      }
    }
  }

  /** The grant that a consume has just used up covers the request. */
  predicate Covered(g: Setup, s: Sys, id: string, r: Request, tier: int) {
    id in s.approvals.grants && id in s.approvals.requests && s.approvals.requests[id].cid == r.cid
    && r.cid in s.openings && Agrees(g.binding, s.openings[r.cid], r, tier)
  }

  lemma ConsumeKeeps(g: Setup, s: Sys, id: string, r: Request, tier: int, now: real)
    requires History(g, s) && CheckConsume(g.binding, s.approvals, id, r, tier, now).None?
    ensures var used := s.(approvals := Consume(g.binding, s.approvals, id, r, tier, now));
      History(g, used) && Covered(g, used, id, r, tier)
  {
    hide InOrder, OnePerRecord, ApprovedCallsAgree, DispatchesPrepared, DispatchedOnce, RecordsTold, Digest;
    var used := s.(approvals := Consume(g.binding, s.approvals, id, r, tier, now));
    assert MadeFor(g.binding, s.approvals.requests[id], s.openings[r.cid]);
    BoundFrame(g, s, used);
  }

  lemma ApprovedDue(s: Sys, s': Sys, id: string, cid: string)
    requires Due(s.trail, s) && id in s.approvals.grants && id in s.approvals.requests && s.approvals.requests[id].cid == cid
    requires s'.trail == s.trail && s'.openings == s.openings && s'.approvals == s.approvals
    requires cid in s.records && cid in s.openings && IsApprovalFlow(s.openings[cid])
    requires s'.records.Keys == s.records.Keys && s'.records[cid].machine.state == Authorized
    requires forall c | c in s.records && c != cid :: s'.records[c] == s.records[c]
    ensures Due(s'.trail + [Note(KApproved, cid)], s')
  {
    hide InOrder;
    var note := Note(KApproved, cid);
    InOrderNext(s.trail, cid, GRANTED, KApproved);
    forall c, kinds | InOrder(s.trail, c, kinds) ensures InOrder(s.trail + [note], c, kinds) {
      InOrderAppend(s.trail, note, c, kinds);
    }
  }

  lemma OnceChange(trail: seq<Note>, records: Records, cid: string, rec: Record)
    requires DispatchedOnce(trail, records) && cid in records
    requires BeyondAuthorized(records[cid].machine.state) ==> BeyondAuthorized(rec.machine.state)
    ensures DispatchedOnce(trail, records[cid := rec])
  {
    hide BeyondAuthorized;
  }

  /** A settled approval flow has its first entry in the trail. */
  lemma ApprovedStart(trail: seq<Note>, cid: string)
    requires InOrder(trail, cid, APPROVED)
    ensures InOrder(trail, cid, ASKED)
  {
    hide InOrder;
    InOrderPrefix(trail, cid, GRANTED, KApproved);
    InOrderPrefix(trail, cid, PENDING, KApprovalGranted);
    InOrderPrefix(trail, cid, ASKED, KNeedsApproval);
  }

  lemma ToldAt(g: Setup, s: Sys, cid: string)
    requires History(g, s) && s.audit.healthy && cid in s.records
    ensures cid in s.openings && InOrder(s.trail, cid, Told(s.openings[cid], s.records[cid].machine.state))
  {
    hide InOrder, Bound, DispatchesPrepared, DispatchedOnce, GrantsTold;
  }

  lemma ApprovedUsedKeeps(g: Setup, s: Sys, r: Request, id: string, d: Decision, def: Definition, env: Env)
    requires Safe(g, s) && History(g, s) && d.allowed && Covered(g, s, id, r, d.tier)
    ensures History(g, ApprovedUsed(g, s, r, id, d, def, env).0)
  {
    LivedAt(g, s, r.cid);
    hide Safe, History, Covered, Lived, Log, GateAndDispatch, Execution.Approve;
    ApproveExact(s.records, r.cid);
    RaisedUnchanged(g, s, r.cid);
    if Execution.Approve(s.records, r.cid).Done? {
      var s1 := s.(records := Execution.Approve(s.records, r.cid).records);
      assert s1.records == s.records[r.cid := s1.records[r.cid]];
      ApprovedLogged(g, s, s1.records[r.cid], id, r, d);
      var (s2, ok) := Log(g, s1, KApproved, r.cid);
      if ok { GateAndDispatchKeeps(g, s2, r, def, d, ByApproval(id), env); }
    }
  }

  /** The entry `approved`, written after the record became AUTHORIZED. */
  lemma ApprovedLogged(g: Setup, s: Sys, rec: Record, id: string, r: Request, d: Decision)
    requires History(g, s) && d.allowed && Covered(g, s, id, r, d.tier)
    requires r.cid in s.records && s.records[r.cid].machine.state == NeedsApproval && rec.machine.state == Authorized
    ensures var (s', ok) := Log(g, s.(records := s.records[r.cid := rec]), KApproved, r.cid);
      (History(g, s') && (ok ==> MayPark(g, s', r, d, ByApproval(id))))
  {
    hide InOrder, Log, Agrees, RequestsMadeFor, OnePerRecord, ApprovedCallsAgree, DispatchesPrepared, DispatchedOnce, Due;
    var s1 := s.(records := s.records[r.cid := rec]);
    OnceChange(s.trail, s.records, r.cid, rec);
    ApprovalCovered(g, s, id, r, d.tier);
    if s.audit.healthy { ApprovedDue(s, s1, id, r.cid); }
    BoundKeys(g, s, s1);
    LogSettles(g, s1, KApproved, r.cid);
    LogFrame(g, s1, KApproved, r.cid);
    LogTrail(g, s1, KApproved, r.cid);
    var (s2, ok) := Log(g, s1, KApproved, r.cid);
    if ok {
      ToldAt(g, s2, r.cid);
      ApprovedStart(s2.trail, r.cid);
    }
  }

  lemma ApprovalCovered(g: Setup, s: Sys, id: string, r: Request, tier: int)
    requires Covered(g, s, id, r, tier)
    ensures r.cid in s.openings && IsApprovalFlow(s.openings[r.cid])
  {
  }

  lemma BoundKeys(g: Setup, s: Sys, s': Sys)
    requires Bound(g, s) && s'.records.Keys == s.records.Keys && s'.openings == s.openings && s'.calls == s.calls
    requires s'.approvals == s.approvals
    ensures Bound(g, s')
  {
    hide RequestsMadeFor, OnePerRecord, ApprovedCallsAgree;
  }

  lemma RaisedUnchanged(g: Setup, s: Sys, cid: string)
    requires cid in s.records ==> Lived(s.records[cid].machine)
    ensures match Execution.Approve(s.records, cid)
      case Raised(records, _) => s.(records := records) == s
      case Done(_) => true
  {
    hide Lived, Execution.Approve;
    ApproveExact(s.records, cid);
  }

  /** A request that the current policy denies, or that does not match its approval, leaves
      the grant as it was; one that reaches the adapter has just spent it. */
  lemma GrantSpentExactly(g: Setup, s: Sys, r: Request, id: string, ctx: Option<Risk.Context>, env: Env)
    ensures var (s', reply) := ExecuteApproved(g, s, r, id, ctx, env);
      (reply.Waiting? ==> !IsSpent(s.approvals, id) && IsSpent(s'.approvals, id))
      && (reply.Rejection? && (reply.why.Denied? || reply.why.Refused?) ==> s'.approvals == s.approvals)
  {
    hide Evaluate, ApprovedJudged, CheckConsume;
    var (ws, v) := Evaluate(env.rules, g.limits, s.windows, r, ctx, env.now);
    JudgedSpends(g, s.(windows := ws), r, id, v, env);
  }

  predicate SpendsExactly(s: Sys, s': Sys, id: string, reply: Reply) {
    (reply.Waiting? ==> !IsSpent(s.approvals, id) && IsSpent(s'.approvals, id))
    && (reply.Rejection? && (reply.why.Denied? || reply.why.Refused?) ==> s'.approvals == s.approvals)
  }

  lemma JudgedSpends(g: Setup, s: Sys, r: Request, id: string, v: Verdict, env: Env)
    ensures var (s', reply) := ApprovedJudged(g, s, r, id, v, env); SpendsExactly(s, s', id, reply)
  {
    hide Log, CheckConsume, ApprovedUsed, IsSpent;
    LogFrame(g, s, KRejectedAfterApproval, r.cid);
    LogFrame(g, s, KApprovalRejected, r.cid);
    if v.Decided? && v.decision.allowed && r.capabilityId in env.rules.registry {
      CheckedIsFresh(g.binding, s.approvals, id, r, v.decision.tier, env.now);
      var used := Consume(g.binding, s.approvals, id, r, v.decision.tier, env.now);
      if CheckConsume(g.binding, s.approvals, id, r, v.decision.tier, env.now).None? {
        UsedFrame(g, s.(approvals := used), r, id, v.decision, env.rules.registry[r.capabilityId], env);
        SpentNow(g.binding, s.approvals, id, r, v.decision.tier, env.now);
      }
    }
  }

  lemma SpentNow(b: Binding, a: Approvals, id: string, r: Request, tier: int, now: real)
    requires CheckConsume(b, a, id, r, tier, now).None?
    ensures !IsSpent(a, id) && IsSpent(Consume(b, a, id, r, tier, now), id)
  {
    hide Digest;
  }

  // ---------------------------------------------------------------- the preauthorized entry

  lemma PreauthorizedKeeps(g: Setup, s: Sys, r: Request, d: Decision, env: Env)
    requires Safe(g, s) && History(g, s)
    ensures History(g, ExecutePreauthorized(g, s, r, d, env).0)
  {
    hide Core, History, InOrder, Log, LogThen, PreauthorizedOpen;
    LogThenKeeps(g, s, KAdapterRejected, r.cid, Rejection(NotSimulation));
    LogThenKeeps(g, s, KPolicyRejected, r.cid, Rejection(Denied(d.why)));
    LogThenKeeps(g, s, KCapabilityRejected, r.cid, Rejection(NotRegistered));
    LogFrame(g, s, KRequested, r.cid);
    LogKeeps(g, s, KRequested, r.cid);
    LogRequested(g, s, r.cid);
    var (s1, ok) := Log(g, s, KRequested, r.cid);
    if ok && r.cid !in s.records && d.allowed && r.capabilityId in env.rules.registry {
      PreauthorizedOpenKeeps(g, s1, r, d, env.rules.registry[r.capabilityId], env);
    }
  }

  lemma PreauthorizedOpenKeeps(g: Setup, s: Sys, r: Request, d: Decision, def: Definition, env: Env)
    requires Safe(g, s) && History(g, s) && r.cid !in s.records && d.allowed && InOrder(s.trail, r.cid, ASKED)
    ensures History(g, PreauthorizedOpen(g, s, r, d, def, env).0)
  {
    OpenKeeps(g, s, r, d, Preauthorized);
    OpenSafe(g, s, r, d, Preauthorized);
    var s' := OpenRecord(s, r, d, Preauthorized).0;
    LivedAt(g, s', r.cid);
    assert s'.trail == s.trail && s'.openings[r.cid].entry == Preauthorized;
    hide Core, History, Lived, InOrder, OpenRecord, Dispatch, Execution.Approve, NotFired, NotPreauthorized, Agrees;
    if !d.requiresApproval {
      DispatchKeeps(g, s', r, def, d, Preauthorized, env);
    } else {
      ApproveExact(s'.records, r.cid);
      var s2 := s'.(records := Execution.Approve(s'.records, r.cid).records);
      StateChangeKeeps(g, s', r.cid, s2.records[r.cid]);
      DispatchKeeps(g, s2, r, def, d, Preauthorized, env);
    }
  }

  /** Changing a record's state when the trail owes nothing for the change. */
  lemma StateChangeKeeps(g: Setup, s: Sys, cid: string, rec: Record)
    requires History(g, s) && cid in s.records
    requires BeyondAuthorized(s.records[cid].machine.state) ==> BeyondAuthorized(rec.machine.state)
    requires cid in s.openings && Told(s.openings[cid], s.records[cid].machine.state) == Told(s.openings[cid], rec.machine.state)
    ensures History(g, s.(records := s.records[cid := rec]))
  {
    hide InOrder, RequestsMadeFor, OnePerRecord, ApprovedCallsAgree, DispatchesPrepared, DispatchedOnce, GrantsTold,
         BeyondAuthorized, Told;
    OnceChange(s.trail, s.records, cid, rec);
  }

  // ---------------------------------------------------------------- after an await

  lemma UnparkHistory(g: Setup, s: Sys, parked: map<nat, Parked>)
    requires History(g, s)
    ensures History(g, s.(parked := parked))
  {
    hide RequestsMadeFor, OnePerRecord, ApprovedCallsAgree, DispatchesPrepared, DispatchedOnce, RecordsTold, GrantsTold;
  }

  lemma OpeningOf(g: Setup, s: Sys, cid: string)
    requires History(g, s) && cid in s.records
    ensures cid in s.openings
  {
    hide RequestsMadeFor, OnePerRecord, ApprovedCallsAgree, DispatchesPrepared, DispatchedOnce, RecordsTold, GrantsTold;
  }

  /** No entry `dispatched` yet for a record that is only authorized. */
  lemma NotYetDispatched(g: Setup, s: Sys, cid: string)
    requires History(g, s) && cid in s.records && s.records[cid].machine.state == Authorized
    ensures forall i | 0 <= i < |s.trail| && s.trail[i].kind == KDispatched :: s.trail[i].cid != cid
  {
    hide Bound, DispatchesPrepared, Due;
  }

  /** A record about to be dispatched has its whole prologue in the trail. */
  lemma PrologueTold(g: Setup, s: Sys, cid: string)
    requires History(g, s) && s.audit.healthy && cid in s.records && s.records[cid].machine.state == Authorized
    ensures cid in s.openings && InOrder(s.trail, cid, Prologue(s.openings[cid]))
  {
    ToldAt(g, s, cid);
    hide History, InOrder;
  }

  /** The entry `dispatched`, written after the record became DISPATCHED. */
  lemma LogDispatched(g: Setup, s: Sys, cid: string, rec: Record)
    requires History(g, s) && cid in s.records && s.records[cid].machine.state == Authorized
    requires rec.machine.state == Dispatched
    ensures History(g, Log(g, s.(records := s.records[cid := rec]), KDispatched, cid).0)
  {
    hide History, InOrder, Prologue, Told, Log;
    OpeningOf(g, s, cid);
    NotYetDispatched(g, s, cid);
    if s.audit.healthy { PrologueTold(g, s, cid); }
    DispatchTold(s.openings[cid]);
    StateChangeKeeps(g, s, cid, rec);
    DispatchWritten(g, s.(records := s.records[cid := rec]), cid);
  }

  lemma DispatchTold(o: Opening)
    ensures Told(o, Authorized) == Told(o, Dispatched)
  {
  }

  lemma DispatchWritten(g: Setup, s: Sys, cid: string)
    requires History(g, s) && cid in s.records && cid in s.openings && s.records[cid].machine.state == Dispatched
    requires forall i | 0 <= i < |s.trail| && s.trail[i].kind == KDispatched :: s.trail[i].cid != cid
    requires s.audit.healthy ==> InOrder(s.trail, cid, Prologue(s.openings[cid]))
    ensures History(g, Log(g, s, KDispatched, cid).0)
  {
    hide Log, InOrder, Prologue, Bound, DispatchesPrepared, DispatchedOnce, Due;
    LogFrame(g, s, KDispatched, cid);
    LogTrail(g, s, KDispatched, cid);
    var s' := Log(g, s, KDispatched, cid).0;
    BoundFrame(g, s, s');
    if s.audit.healthy {
      var note := Note(KDispatched, cid);
      PreparedAppend(s.trail, s.openings, note);
      OnceAppend(s.trail, s.records, note);
      DueAppend(s.trail, s, note);
      DueFrame(s.trail + [note], s, s');
    }
  }

  lemma DueFrame(trail: seq<Note>, s: Sys, s': Sys)
    requires Due(trail, s) && s'.records == s.records && s'.openings == s.openings && s'.approvals == s.approvals
    ensures Due(trail, s')
  {
    hide InOrder, Told;
  }

  lemma ExecuteReturnsKeeps(g: Setup, s: Sys, token: nat, r: Request, def: Definition, answer: Option<Evidence>)
    requires History(g, s) && r.cid in s.records && s.records[r.cid].machine.state == Authorized
    ensures History(g, ExecuteReturns(g, s, token, r, def, answer).0)
  {
    hide History, Log, LogThen;
    OpeningOf(g, s, r.cid);
    var s0 := Unpark(s, token);
    UnparkHistory(g, s, s0.parked);
    if answer.Some? {
      var e := answer.value;
      var m := s.records[r.cid].machine;
      if !e.dispatched {
        var rec := s.records[r.cid].(machine := Machine(Failed, m.history + [Failed]));
        StateChangeKeeps(g, s0, r.cid, rec);
        LogThenKeeps(g, s0.(records := s.records[r.cid := rec]), KDispatchFailed, r.cid, DispatchFailed);
      } else {
        var rec := s.records[r.cid].(result := Some(e), machine := Machine(Dispatched, m.history + [Dispatched]));
        LogDispatched(g, s0, r.cid, rec);
        var s1 := Log(g, s0.(records := s.records[r.cid := rec]), KDispatched, r.cid).0;
        UnparkHistory(g, s1, s1.parked[token := AwaitVerify(r, def)]);
      }
    }
  }

  lemma VerifyReturnsKeeps(g: Setup, s: Sys, token: nat, r: Request, def: Definition, answer: Option<Evidence>)
    requires History(g, s) && r.cid in s.records && s.records[r.cid].machine.state == Dispatched
    requires Lived(s.records[r.cid].machine)
    ensures History(g, VerifyReturns(g, s, token, r, def, answer).0)
  {
    hide History, Log, LogThen, Lived, AdvanceThrough, LevelOf;
    var s0 := Unpark(s, token);
    UnparkHistory(g, s, s0.parked);
    LogKeeps(g, s0, KVerification, r.cid);
    LogFrame(g, s0, KVerification, r.cid);
    OpeningOf(g, s, r.cid);
    if answer.Some? {
      var level := LevelOf(answer.value);
      var s1 := Log(g, s0, KVerification, r.cid).0;
      var rec := s.records[r.cid];
      AdvanceFromDispatched(rec.machine, level);
      var rec' := rec.(machine := AdvanceThrough(rec.machine, StepsFor(level)).0);
      StateChangeKeeps(g, s1, r.cid, rec');
      LogThenKeeps(g, s1.(records := s1.records[r.cid := rec']), KExecutionState, r.cid,
                   Finished(Reached(level, def.required), level));
    }
  }

  lemma ResumeKeeps(g: Setup, s: Sys, token: nat, answer: Option<Evidence>)
    requires Safe(g, s) && History(g, s) && token in s.parked
    ensures History(g, Resume(g, s, token, answer).0)
  {
    ParkedFacts(g, s, token);
    hide Core, Lived, History, LogThen, ExecuteReturns, VerifyReturns;
    match s.parked[token] {
      case AwaitObserve(r) =>
        UnparkHistory(g, s, s.parked - {token});
        LogThenKeeps(g, Unpark(s, token), KObserved, r.cid, Finished(true, V0));
      case AwaitExecute(r, def) => ExecuteReturnsKeeps(g, s, token, r, def, answer);
      case AwaitVerify(r, def) => VerifyReturnsKeeps(g, s, token, r, def, answer);
    }
  }

  // ---------------------------------------------------------------- whole runs

  lemma EnterHistory(g: Setup, s: Sys, env: Env)
    requires History(g, s)
    ensures History(g, Enter(s, env))
  {
    hide RequestsMadeFor, OnePerRecord, ApprovedCallsAgree, DispatchesPrepared, DispatchedOnce, RecordsTold, GrantsTold;
  }

  lemma StepKeeps(g: Setup, s: Sys, a: Action)
    requires Safe(g, s) && History(g, s) && Enabled(s, a) && !a.Shared?
    ensures History(g, Perform(g, s, a).0)
  {
    hide Core, History, Execute, ApproveGrant, ExecuteApproved, ExecutePreauthorized, Resume;
    EnterHistory(g, s, a.env);
    match a {
      case DoExecute(r, ctx, env) => ExecuteKeeps(g, Enter(s, env), r, ctx, env);
      case DoApprove(id, approver, env) => ApproveGrantKeeps(g, Enter(s, env), id, approver, env);
      case DoExecuteApproved(r, id, ctx, env) => ExecuteApprovedKeeps(g, Enter(s, env), r, id, ctx, env);
      case DoExecutePreauthorized(r, d, env) => PreauthorizedKeeps(g, Enter(s, env), r, d, env);
      case DoResume(token, answer, env) => ResumeKeeps(g, Enter(s, env), token, answer);
    }
  }

  lemma {:induction false} RunKeeps(g: Setup, s: Sys, actions: seq<Action>)
    requires Safe(g, s) && History(g, s) && Schedule(g, s, actions)
    requires forall i | 0 <= i < |actions| :: !actions[i].Shared?
    ensures Safe(g, Play(g, s, actions)) && History(g, Play(g, s, actions))
    decreases |actions|
  {
    hide Safe, History, Perform, Enabled;
    if actions != [] {
      StepSafe(g, s, actions[0]);
      StepKeeps(g, s, actions[0]);
      RunKeeps(g, Perform(g, s, actions[0]).0, actions[1..]);
    }
  }

  lemma StartHistory(g: Setup, audit: Store)
    ensures Safe(g, Start(audit)) && History(g, Start(audit))
  {
    StartSafe(g, audit);
  }

  /** One approval request per record that needs approval, and the request an approved call
      hands to the adapter is the one that opened the record: same principal, device,
      capability and tier, and the same parameters or two different request texts with the
      same hash. */
  lemma ApprovedIsWhatWasAsked(g: Setup, audit: Store, actions: seq<Action>, i: nat)
    requires Schedule(g, Start(audit), actions) && Binds(g.binding)
    requires forall k | 0 <= k < |actions| :: !actions[k].Shared?
    requires var s := Play(g, Start(audit), actions); i < |s.calls| && s.calls[i].entry.ByApproval?
    ensures var s := Play(g, Start(audit), actions);
      var call := s.calls[i];
      call.request.cid in s.openings && var o := s.openings[call.request.cid];
      o.entry.Direct? && o.needsApproval && o.tier == call.tier && o.request.cid == call.request.cid
      && SameTarget(o.request, call.request)
      && (GoodRequest(o.request) && GoodRequest(call.request) ==>
            SameParameters(o.request, call.request)
            || Collision(g.binding.hash, g.binding.text(o.request), g.binding.text(call.request)))
  {
    StartHistory(g, audit);
    hide Play, Schedule, Safe, RequestsMadeFor, OnePerRecord, TrailTells, SameParameters, GoodRequest, Binds, Collision;
    RunKeeps(g, Start(audit), actions);
    var s := Play(g, Start(audit), actions);
    var o, r := s.openings[s.calls[i].request.cid], s.calls[i].request;
    if GoodRequest(o.request) && GoodRequest(r) { DigestBinds(g.binding, o.request, r); }
  }

  lemma OneRequestPerRecord(g: Setup, audit: Store, actions: seq<Action>)
    requires Schedule(g, Start(audit), actions) && forall k | 0 <= k < |actions| :: !actions[k].Shared?
    ensures var s := Play(g, Start(audit), actions);
      (OnePerRecord(s.approvals.requests, s.openings) && s.openings.Keys == s.records.Keys)
  {
    StartHistory(g, audit);
    hide Play, Schedule, Safe, RequestsMadeFor, OnePerRecord, ApprovedCallsAgree, TrailTells;
    RunKeeps(g, Start(audit), actions);
  }

  /** At most one entry `dispatched` per correlation id, and before it, in order, the entries
      that lead up to it.  `GatewayTrail` carries this over to the audit log. */
  lemma DispatchedEntries(g: Setup, audit: Store, actions: seq<Action>, i: nat)
    requires Schedule(g, Start(audit), actions) && forall k | 0 <= k < |actions| :: !actions[k].Shared?
    requires var s := Play(g, Start(audit), actions); i < |s.trail| && s.trail[i].kind == KDispatched
    ensures var s := Play(g, Start(audit), actions);
      var cid := s.trail[i].cid;
      cid in s.openings
      && InOrder(s.trail[..i], cid, if IsApprovalFlow(s.openings[cid])
           then [KRequested, KNeedsApproval, KApprovalGranted, KApproved] else [KRequested])
      && forall j | 0 <= j < |s.trail| && j != i && s.trail[j].kind == KDispatched :: s.trail[j].cid != cid
  {
    StartHistory(g, audit);
    hide Play, Schedule, Safe, Bound, InOrder, Due, BeyondAuthorized;
    RunKeeps(g, Start(audit), actions);
    assert APPROVED == [KRequested, KNeedsApproval, KApprovalGranted, KApproved];
  }
}
