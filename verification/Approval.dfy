/** Approvals (`policy/approval.py`): requests bound to an exact action, grants, single use. */
module Approval {
  import opened Prelude
  import opened Json
  import Canonical
  import opened Hashing
  import opened Capability

  /** What an approval is bound to, as text and its hash. */
  datatype Binding = Binding(hash: HashFn, text: Request -> string)

  predicate GoodRequest(r: Request) { ValidMembers(r.parameters) }

  /** The two requests ask for the same action by the same principal on the same device. */
  predicate SameAction(a: Request, b: Request) { SameTarget(a, b) && SameParameters(a, b) }

  predicate SameTarget(a: Request, b: Request) {
    a.principal == b.principal && a.deviceId == b.deviceId && a.capabilityId == b.capabilityId
  }

  /** The parameters are equal as JSON values. */
  predicate SameParameters(a: Request, b: Request) { Canonical.Same(Obj(a.parameters), Obj(b.parameters)) }

  ghost predicate Binds(b: Binding) {
    forall x, y | GoodRequest(x) && GoodRequest(y) && b.text(x) == b.text(y) :: SameAction(x, y)
  }

  function Digest(b: Binding, r: Request): string { b.hash(b.text(r)) }

  datatype ApprovalRequest = ApprovalRequest(cid: string, principal: string, capabilityId: string, deviceId: string,
                                             digest: string, tier: int, expires: real)

  datatype Grant = Grant(approver: string, cid: string, consumed: bool)

  datatype Approvals = Approvals(requests: map<string, ApprovalRequest>, grants: map<string, Grant>)

  const NO_APPROVALS := Approvals(map[], map[])

  datatype Refusal =
    | UnknownApproval | NoGrant | Expired | AlreadyConsumed | CidMismatch | PrincipalMismatch | DeviceMismatch
    | CapabilityMismatch | RequestMutated | TierMismatch

  function NewRequest(b: Binding, ttl: real, r: Request, tier: int, now: real): ApprovalRequest {
    ApprovalRequest(r.cid, r.principal, r.capabilityId, r.deviceId, Digest(b, r), tier, now + ttl)
  }

  function RequestApproval(b: Binding, ttl: real, a: Approvals, id: string, r: Request, tier: int, now: real): Approvals {
    a.(requests := a.requests[id := NewRequest(b, ttl, r, tier, now)])
  }

  function CheckGrant(a: Approvals, id: string, now: real): Option<Refusal> {
    if id !in a.requests then Some(UnknownApproval)
    else if now > a.requests[id].expires then Some(Expired)
    else None
  }

  function GiveGrant(a: Approvals, id: string, approver: string, now: real): Approvals {
    if CheckGrant(a, id, now).Some? then a
    else a.(grants := a.grants[id := Grant(approver, a.requests[id].cid, false)])
  }

  function CheckConsume(b: Binding, a: Approvals, id: string, r: Request, tier: int, now: real): Option<Refusal> {
    if id !in a.requests || id !in a.grants then Some(NoGrant)
    else
      var ar := a.requests[id];
      if now > ar.expires then Some(Expired)
      else if a.grants[id].consumed then Some(AlreadyConsumed)
      else if ar.cid != r.cid then Some(CidMismatch)
      else if ar.principal != r.principal then Some(PrincipalMismatch)
      else if ar.deviceId != r.deviceId then Some(DeviceMismatch)
      else if ar.capabilityId != r.capabilityId then Some(CapabilityMismatch)
      else if ar.digest != Digest(b, r) then Some(RequestMutated)
      else if ar.tier != tier then Some(TierMismatch)
      else None
  }

  function Consume(b: Binding, a: Approvals, id: string, r: Request, tier: int, now: real): Approvals {
    if CheckConsume(b, a, id, r, tier, now).Some? then a
    else a.(grants := a.grants[id := a.grants[id].(consumed := true)])
  }

  class ApprovalEngine {
    const binding: Binding
    const ttl: real
    var requests: map<string, ApprovalRequest>
    var grants: map<string, Grant>

    function View(): Approvals
      reads this
    {
      Approvals(requests, grants)
    }

    constructor (binding: Binding, ttl: real)
      ensures View() == NO_APPROVALS && this.binding == binding && this.ttl == ttl
    {
      this.binding, this.ttl, requests, grants := binding, ttl, map[], map[];
    }

    /** `id` stands for the random identifier the source draws. */
    method Request(id: string, r: Request, tier: int, now: real)
      modifies this
      ensures View() == RequestApproval(binding, ttl, old(View()), id, r, tier, now)
    {
      requests := requests[id := NewRequest(binding, ttl, r, tier, now)];
    }

    method Give(id: string, approver: string, now: real) returns (refusal: Option<Refusal>)
      modifies this
      ensures refusal == CheckGrant(old(View()), id, now)
      ensures View() == GiveGrant(old(View()), id, approver, now)
    {
      if id !in requests { return Some(UnknownApproval); }
      if now > requests[id].expires { return Some(Expired); }
      grants := grants[id := Grant(approver, requests[id].cid, false)];
      return None;
    }

    method Use(id: string, r: Request, tier: int, now: real) returns (refusal: Option<Refusal>)
      modifies this
      ensures refusal == CheckConsume(binding, old(View()), id, r, tier, now)
      ensures View() == Consume(binding, old(View()), id, r, tier, now)
    {
      if id !in requests || id !in grants { return Some(NoGrant); }
      var ar, grant := requests[id], grants[id];
      if now > ar.expires { return Some(Expired); }
      if grant.consumed { return Some(AlreadyConsumed); }
      if ar.cid != r.cid { return Some(CidMismatch); }
      if ar.principal != r.principal { return Some(PrincipalMismatch); }
      if ar.deviceId != r.deviceId { return Some(DeviceMismatch); }
      if ar.capabilityId != r.capabilityId { return Some(CapabilityMismatch); }
      if ar.digest != Digest(binding, r) { return Some(RequestMutated); }
      if ar.tier != tier { return Some(TierMismatch); }
      grants := grants[id := grant.(consumed := true)];
      return None;
    }
  }

  // ---------------------------------------------------------------- runs

  datatype Op =
    | Ask(id: string, request: Request, tier: int, now: real)
    | Allow(id: string, approver: string, now: real)
    | Spend(id: string, request: Request, tier: int, now: real)

  function Step(b: Binding, ttl: real, a: Approvals, op: Op): Approvals {
    match op
    case Ask(id, r, tier, now) => RequestApproval(b, ttl, a, id, r, tier, now)
    case Allow(id, approver, now) => GiveGrant(a, id, approver, now)
    case Spend(id, r, tier, now) => Consume(b, a, id, r, tier, now)
  }

  function After(b: Binding, ttl: real, ops: seq<Op>): Approvals
    decreases |ops|
  {
    if ops == [] then NO_APPROVALS else Step(b, ttl, After(b, ttl, ops[..|ops| - 1]), ops[|ops| - 1])
  }

  /** The state in which the `i`th operation runs. */
  function At(b: Binding, ttl: real, ops: seq<Op>, i: nat): Approvals
    requires i <= |ops|
  {
    After(b, ttl, ops[..i])
  }

  predicate Granted(b: Binding, ttl: real, ops: seq<Op>, i: nat, id: string)
    requires i < |ops|
  {
    ops[i].Allow? && ops[i].id == id && CheckGrant(At(b, ttl, ops, i), id, ops[i].now).None?
  }

  predicate Consumed(b: Binding, ttl: real, ops: seq<Op>, i: nat, id: string)
    requires i < |ops|
  {
    ops[i].Spend? && ops[i].id == id
    && CheckConsume(b, At(b, ttl, ops, i), id, ops[i].request, ops[i].tier, ops[i].now).None?
  }

  predicate IsSpent(a: Approvals, id: string) { id in a.grants && a.grants[id].consumed }

  /** A grant given while the current one has already been used: the id can be used again. */
  predicate Rearmed(b: Binding, ttl: real, ops: seq<Op>, i: nat, id: string)
    requires i < |ops|
  {
    Granted(b, ttl, ops, i, id) && IsSpent(At(b, ttl, ops, i), id)
  }

  function Grants(b: Binding, ttl: real, ops: seq<Op>, n: nat, id: string): nat
    requires n <= |ops|
  {
    if n == 0 then 0 else Grants(b, ttl, ops, n - 1, id) + if Granted(b, ttl, ops, n - 1, id) then 1 else 0
  }

  function Consumes(b: Binding, ttl: real, ops: seq<Op>, n: nat, id: string): nat
    requires n <= |ops|
  {
    if n == 0 then 0 else Consumes(b, ttl, ops, n - 1, id) + if Consumed(b, ttl, ops, n - 1, id) then 1 else 0
  }

  function Rearms(b: Binding, ttl: real, ops: seq<Op>, n: nat, id: string): nat
    requires n <= |ops|
  {
    if n == 0 then 0 else Rearms(b, ttl, ops, n - 1, id) + if Rearmed(b, ttl, ops, n - 1, id) then 1 else 0
  }

  lemma AtZero(b: Binding, ttl: real, ops: seq<Op>)
    ensures At(b, ttl, ops, 0) == NO_APPROVALS
  {
    assert ops[..0] == [];
  }

  lemma AtStep(b: Binding, ttl: real, ops: seq<Op>, n: nat)
    requires n < |ops|
    ensures At(b, ttl, ops, n + 1) == Step(b, ttl, At(b, ttl, ops, n), ops[n])
  {
    assert ops[..n + 1][..n] == ops[..n];
  }

  /** When an id is granted and when it is spent after one operation. */
  lemma StepFlags(b: Binding, ttl: real, a: Approvals, op: Op, id: string)
    ensures var given := op.Allow? && op.id == id && CheckGrant(a, id, op.now).None?;
      var spent := op.Spend? && op.id == id && CheckConsume(b, a, id, op.request, op.tier, op.now).None?;
      var a' := Step(b, ttl, a, op);
      (id in a'.grants <==> id in a.grants || given)
      && (IsSpent(a', id) <==> spent || (IsSpent(a, id) && !given))
      && (spent ==> id in a.grants && !IsSpent(a, id))
  {
    hide CheckConsume, CheckGrant;
    if op.Spend? { CheckedIsFresh(b, a, op.id, op.request, op.tier, op.now); }
    if op.Allow? { GiveFlags(a, op.id, op.approver, op.now, id); }
  }

  lemma CheckedIsFresh(b: Binding, a: Approvals, id: string, r: Request, tier: int, now: real)
    ensures CheckConsume(b, a, id, r, tier, now).None? ==> id in a.grants && !a.grants[id].consumed
  {
    hide Digest;
  }

  lemma GiveFlags(a: Approvals, given: string, approver: string, now: real, id: string)
    ensures var a' := GiveGrant(a, given, approver, now);
      (id in a'.grants <==> id in a.grants || (given == id && CheckGrant(a, given, now).None?))
      && (IsSpent(a', id) <==> IsSpent(a, id) && !(given == id && CheckGrant(a, given, now).None?))
  {
  }

  lemma FlagsAt(b: Binding, ttl: real, ops: seq<Op>, n: nat, id: string)
    requires n < |ops|
    ensures var a, a' := At(b, ttl, ops, n), At(b, ttl, ops, n + 1);
      (id in a'.grants <==> id in a.grants || Granted(b, ttl, ops, n, id))
      && (IsSpent(a', id) <==> Consumed(b, ttl, ops, n, id) || (IsSpent(a, id) && !Granted(b, ttl, ops, n, id)))
      && (Consumed(b, ttl, ops, n, id) ==> id in a.grants && !IsSpent(a, id))
  {
    hide At, Step, CheckConsume, CheckGrant, IsSpent;
    AtStep(b, ttl, ops, n);
    StepFlags(b, ttl, At(b, ttl, ops, n), ops[n], id);
  }

  /** The exact law of single use: an id has been consumed once for every re-granting of a
      spent grant, plus once if it is spent now.  Consumes never exceed grants, and one
      consume is all there is exactly as long as nobody grants a spent id again. */
  lemma {:induction false} ConsumeLaw(b: Binding, ttl: real, ops: seq<Op>, n: nat, id: string)
    requires n <= |ops|
    ensures Consumes(b, ttl, ops, n, id)
         == Rearms(b, ttl, ops, n, id) + if IsSpent(At(b, ttl, ops, n), id) then 1 else 0
    ensures Grants(b, ttl, ops, n, id)
         >= Rearms(b, ttl, ops, n, id) + if id in At(b, ttl, ops, n).grants then 1 else 0
    ensures Consumes(b, ttl, ops, n, id) <= Grants(b, ttl, ops, n, id)
    decreases n
  {
    hide At, Consumed, Granted;
    if n == 0 {
      AtZero(b, ttl, ops);
    } else {
      ConsumeLaw(b, ttl, ops, n - 1, id);
      FlagsAt(b, ttl, ops, n - 1, id);
    }
  }

  /** Two consumes of one id have a grant of it strictly between them. */
  lemma GrantBetweenConsumes(b: Binding, ttl: real, ops: seq<Op>, i: nat, j: nat, id: string)
    requires i < j < |ops| && Consumed(b, ttl, ops, i, id) && Consumed(b, ttl, ops, j, id)
    ensures exists k | i < k < j :: Granted(b, ttl, ops, k, id)
  {
    hide At, Consumed, Granted, IsSpent;
    FlagsAt(b, ttl, ops, i, id);
    FlagsAt(b, ttl, ops, j, id);
    if forall k | i < k < j :: !Granted(b, ttl, ops, k, id) {
      StaysSpent(b, ttl, ops, i + 1, j, id);
    }
  }

  lemma {:induction false} StaysSpent(b: Binding, ttl: real, ops: seq<Op>, i: nat, j: nat, id: string)
    requires i <= j <= |ops| && IsSpent(At(b, ttl, ops, i), id)
    requires forall k | i <= k < j :: !Granted(b, ttl, ops, k, id)
    ensures IsSpent(At(b, ttl, ops, j), id)
    decreases j
  {
    hide At, Consumed, Granted, IsSpent;
    if i < j {
      StaysSpent(b, ttl, ops, i, j - 1, id);
      FlagsAt(b, ttl, ops, j - 1, id);
    }
  }

  predicate AskedAs(b: Binding, ttl: real, op: Op, id: string, ar: ApprovalRequest) {
    op.Ask? && op.id == id && ar == NewRequest(b, ttl, op.request, op.tier, op.now)
  }

  lemma StepRequests(b: Binding, ttl: real, a: Approvals, op: Op, id: string)
    ensures var a' := Step(b, ttl, a, op);
      id in a'.requests ==> AskedAs(b, ttl, op, id, a'.requests[id])
                            || (id in a.requests && a'.requests[id] == a.requests[id])
  {
    hide NewRequest, CheckConsume;
  }

  /** The bound request of an id was made by an earlier Ask. */
  lemma {:induction false} AskedBefore(b: Binding, ttl: real, ops: seq<Op>, n: nat, id: string)
    requires n <= |ops| && id in At(b, ttl, ops, n).requests
    ensures exists k | 0 <= k < n :: AskedAs(b, ttl, ops[k], id, At(b, ttl, ops, n).requests[id])
    decreases n
  {
    hide At, Step, AskedAs;
    if n == 0 {
      AtZero(b, ttl, ops);
      assert false;
    }
    AtStep(b, ttl, ops, n - 1);
    StepRequests(b, ttl, At(b, ttl, ops, n - 1), ops[n - 1], id);
    if !AskedAs(b, ttl, ops[n - 1], id, At(b, ttl, ops, n).requests[id]) {
      AskedBefore(b, ttl, ops, n - 1, id);
    }
  }

  /** Two good requests with the same digest ask for the same action, or their texts collide. */
  lemma DigestBinds(b: Binding, x: Request, y: Request)
    requires Binds(b) && GoodRequest(x) && GoodRequest(y) && Digest(b, x) == Digest(b, y)
    ensures SameAction(x, y) || Collision(b.hash, b.text(x), b.text(y))
  {
    hide SameAction, GoodRequest;
  }

  /** The Ask that backs a Spend: same correlation id, tier, principal, device and capability, in
      time, and the same parameters unless the two request texts collide. */
  ghost predicate Backs(b: Binding, ttl: real, ask: Op, spend: Op) {
    ask.Ask? && spend.Spend? && ask.id == spend.id && ask.request.cid == spend.request.cid
    && ask.tier == spend.tier && spend.now <= ask.now + ttl
    && SameTarget(ask.request, spend.request)
    && (SameParameters(ask.request, spend.request) || Collision(b.hash, b.text(ask.request), b.text(spend.request)))
  }

  lemma CheckedBacks(b: Binding, ttl: real, a: Approvals, ask: Op, spend: Op)
    requires Binds(b) && spend.Spend? && spend.id in a.requests
    requires AskedAs(b, ttl, ask, spend.id, a.requests[spend.id])
    requires GoodRequest(ask.request) && GoodRequest(spend.request)
    requires CheckConsume(b, a, spend.id, spend.request, spend.tier, spend.now).None?
    ensures Backs(b, ttl, ask, spend)
  {
    hide Digest, SameParameters, GoodRequest, Binds, Collision;
    DigestBinds(b, ask.request, spend.request);
  }

  /** Every consume is backed by an earlier request by the same principal for the same capability
      on the same device, with the same correlation id and tier, and is in time; the parameters
      are the same, or a collision of the two request texts is exhibited. */
  lemma ConsumeMatchesAsk(b: Binding, ttl: real, ops: seq<Op>, j: nat, id: string)
    requires Binds(b) && j < |ops| && Consumed(b, ttl, ops, j, id)
    requires forall k | 0 <= k < |ops| && !ops[k].Allow? :: GoodRequest(ops[k].request)
    ensures exists k | 0 <= k < j :: Backs(b, ttl, ops[k], ops[j])
  {
    var a := At(b, ttl, ops, j);
    assert id in a.requests;
    hide At, Binds, GoodRequest, CheckConsume, Backs, AskedAs;
    AskedBefore(b, ttl, ops, j, id);
    var k :| 0 <= k < j && AskedAs(b, ttl, ops[k], id, a.requests[id]);
    AskedIsAsk(b, ttl, ops[k], id, a.requests[id]);
    CheckedBacks(b, ttl, a, ops[k], ops[j]);
  }

  lemma AskedIsAsk(b: Binding, ttl: real, op: Op, id: string, ar: ApprovalRequest)
    requires AskedAs(b, ttl, op, id, ar)
    ensures op.Ask?
  {
  }

  /** The life of one approval, exactly: asked for at `asked`, it can be granted until it expires,
      and once granted it can be used until it expires, by a request with the same correlation
      id, principal, device, capability and text, at the same tier, and by no other. */
  lemma LifeCycle(b: Binding, ttl: real, a: Approvals, id: string, r: Request, tier: int, asked: real, approver: string,
                  granted: real, r': Request, tier': int, used: real)
    ensures var a1 := RequestApproval(b, ttl, a, id, r, tier, asked);
      var a2 := GiveGrant(a1, id, approver, granted);
      (CheckGrant(a1, id, granted).None? <==> granted <= asked + ttl)
      && (CheckGrant(a1, id, granted).None? ==>
            a2.requests == a1.requests && a2.grants == a1.grants[id := Grant(approver, r.cid, false)]
            && (CheckConsume(b, a2, id, r', tier', used).None? <==>
                  used <= asked + ttl && r'.cid == r.cid && SameTarget(r, r') && Digest(b, r) == Digest(b, r') && tier' == tier))
  {
    hide Digest, CheckConsume;
    var a2 := GiveGrant(RequestApproval(b, ttl, a, id, r, tier, asked), id, approver, granted);
    if granted <= asked + ttl { UsableExactly(b, a2, id, NewRequest(b, ttl, r, tier, asked), r, r', tier', used); }
  }

  lemma UsableExactly(b: Binding, a: Approvals, id: string, ar: ApprovalRequest, r: Request, r': Request, tier': int, used: real)
    requires id in a.requests && a.requests[id] == ar && id in a.grants && !a.grants[id].consumed
    requires ar == ApprovalRequest(r.cid, r.principal, r.capabilityId, r.deviceId, Digest(b, r), ar.tier, ar.expires)
    ensures CheckConsume(b, a, id, r', tier', used).None? <==>
      used <= ar.expires && r'.cid == r.cid && SameTarget(r, r') && Digest(b, r) == Digest(b, r') && tier' == ar.tier
  {
    hide Digest;
  }

  /** Nobody can grant what was not asked for, or grant or use what has expired. */
  lemma RefusedExactly(b: Binding, a: Approvals, id: string, r: Request, tier: int, now: real)
    ensures CheckGrant(a, id, now) == (if id !in a.requests then Some(UnknownApproval)
                                       else if now <= a.requests[id].expires then None else Some(Expired))
    ensures CheckConsume(b, a, id, r, tier, now).None? ==> id in a.requests && CheckGrant(a, id, now).None?
    ensures id in a.requests && id in a.grants && now <= a.requests[id].expires && a.grants[id].consumed
            ==> CheckConsume(b, a, id, r, tier, now) == Some(AlreadyConsumed)
  {
    hide Digest;
  }

  /** Granting a spent id again does make a second consume succeed. */
  lemma SecondConsume(b: Binding, a: Approvals, id: string, r: Request, tier: int, approver: string, now: real)
    requires CheckConsume(b, a, id, r, tier, now).None?
    ensures var once := Consume(b, a, id, r, tier, now);
      CheckConsume(b, once, id, r, tier, now) == Some(AlreadyConsumed)
      && CheckConsume(b, GiveGrant(once, id, approver, now), id, r, tier, now).None?
  {
    var once := Consume(b, a, id, r, tier, now);
    SpentIsRefused(b, a, once, id, r, tier, now);
    FreshIsAccepted(b, a, GiveGrant(once, id, approver, now), id, r, tier, now);
  }

  lemma SpentIsRefused(b: Binding, a: Approvals, once: Approvals, id: string, r: Request, tier: int, now: real)
    requires CheckConsume(b, a, id, r, tier, now).None?
    requires once.requests == a.requests && id in once.grants && once.grants[id].consumed
    ensures CheckConsume(b, once, id, r, tier, now) == Some(AlreadyConsumed)
  {
    hide Digest;
  }

  lemma FreshIsAccepted(b: Binding, a: Approvals, again: Approvals, id: string, r: Request, tier: int, now: real)
    requires CheckConsume(b, a, id, r, tier, now).None?
    requires again.requests == a.requests && id in again.grants && !again.grants[id].consumed
    ensures CheckConsume(b, again, id, r, tier, now).None?
  {
    hide Digest;
  }
}

/** The text approvals are bound to, with the law `Approval` relies on. */
module ApprovalText {
  import opened Prelude
  import opened Json
  import Canonical
  import opened Hashing
  import opened Capability
  import opened Approval
  import opened Fields

  const PRINCIPAL := "principal"
  const DEVICE_ID := "device_id"
  const CAPABILITY_ID := "capability_id"
  const PARAMETERS := "parameters"

  function RequestDict(r: Request): Members {
    Member(PRINCIPAL, Str(r.principal), Member(DEVICE_ID, Str(r.deviceId),
      Member(CAPABILITY_ID, Str(r.capabilityId), Member(PARAMETERS, Obj(r.parameters), End))))
  }

  function RequestText(r: Request): string { Canonical.Text(Obj(RequestDict(r))) }

  function JsonBinding(h: HashFn): Binding { Binding(h, r => RequestText(r)) }

  lemma DictFields(r: Request)
    requires GoodRequest(r)
    ensures var ms := RequestDict(r);
      ValidMembers(ms) && Get(ms, PRINCIPAL) == Some(Str(r.principal)) && Get(ms, DEVICE_ID) == Some(Str(r.deviceId))
      && Get(ms, CAPABILITY_ID) == Some(Str(r.capabilityId)) && Get(ms, PARAMETERS) == Some(Obj(r.parameters))
  {
    assert PRINCIPAL[1] == 'r' && DEVICE_ID[0] == 'd' && CAPABILITY_ID[0] == 'c' && PARAMETERS[1] == 'a';
    assert PRINCIPAL[0] == 'p' && PARAMETERS[0] == 'p';
    assert Valid(Str(r.principal)) && Valid(Str(r.deviceId)) && Valid(Str(r.capabilityId)) && ValidMembers(End);
    FourFields(PRINCIPAL, Str(r.principal), DEVICE_ID, Str(r.deviceId), CAPABILITY_ID, Str(r.capabilityId),
               PARAMETERS, Obj(r.parameters), End);
  }

  /** Equal canonical request text means the same action: nothing in the request can be
      changed without changing the text. */
  lemma TextFixesRequest(a: Request, b: Request)
    requires GoodRequest(a) && GoodRequest(b) && RequestText(a) == RequestText(b)
    ensures SameAction(a, b)
  {
    DictFields(a);
    DictFields(b);
    var m, n := RequestDict(a), RequestDict(b);
    Canonical.TextIsSame(Obj(m), Obj(n));
    assert Canonical.SameMembers(m, n) && Canonical.SameMembers(m.rest, n);
    assert Canonical.SameMembers(m.rest.rest, n) && Canonical.SameMembers(m.rest.rest.rest, n);
    assert Canonical.Same(Str(a.principal), Str(b.principal)) && Canonical.Same(Str(a.deviceId), Str(b.deviceId));
    assert Canonical.Same(Str(a.capabilityId), Str(b.capabilityId));
  }

  /** The four fields in key order. */
  function Ordered(r: Request): Members {
    Member("capability_id", Str(r.capabilityId), Member("device_id", Str(r.deviceId),
      Member("parameters", Canonical.Sorted(Obj(r.parameters)), Member("principal", Str(r.principal), End))))
  }

  lemma DictOrdered(r: Request)
    ensures Canonical.SortedMembers(RequestDict(r)) == Ordered(r)
  {
    hide Canonical.Sorted, Canonical.SortedMembers;
    var params := Obj(r.parameters);
    Canonical.SortedStep(PARAMETERS, params, End);
    Canonical.SortedStep(CAPABILITY_ID, Str(r.capabilityId), Member(PARAMETERS, params, End));
    Canonical.SortedStep(DEVICE_ID, Str(r.deviceId), Member(CAPABILITY_ID, Str(r.capabilityId), Member(PARAMETERS, params, End)));
    Canonical.SortedStep(PRINCIPAL, Str(r.principal),
               Member(DEVICE_ID, Str(r.deviceId), Member(CAPABILITY_ID, Str(r.capabilityId), Member(PARAMETERS, params, End))));
    SortedText(r.principal);
    SortedText(r.deviceId);
    SortedText(r.capabilityId);
    assert PRINCIPAL[0] == 'p' && PRINCIPAL[1] == 'r' && DEVICE_ID[0] == 'd' && CAPABILITY_ID[0] == 'c';
    assert PARAMETERS[0] == 'p' && PARAMETERS[1] == 'a' && PRINCIPAL[1..][0] == 'r' && PARAMETERS[1..][0] == 'a';
    var p := Member(PARAMETERS, Canonical.Sorted(Obj(r.parameters)), End);
    var c := Member(CAPABILITY_ID, Str(r.capabilityId), p);
    assert !Canonical.Less(PARAMETERS, CAPABILITY_ID) && Canonical.Insert(CAPABILITY_ID, Str(r.capabilityId), p) == c;
    var d := Member(DEVICE_ID, Str(r.deviceId), p);
    assert !Canonical.Less(PARAMETERS, DEVICE_ID) && Canonical.Insert(DEVICE_ID, Str(r.deviceId), p) == d;
    var cd := Member(CAPABILITY_ID, Str(r.capabilityId), d);
    assert Canonical.Less(CAPABILITY_ID, DEVICE_ID) && Canonical.Insert(DEVICE_ID, Str(r.deviceId), c) == cd;
    var x := Member(PRINCIPAL, Str(r.principal), End);
    assert Canonical.Less(PARAMETERS[1..], PRINCIPAL[1..]) && Canonical.Less(PARAMETERS, PRINCIPAL);
    assert Canonical.Insert(PRINCIPAL, x.value, p) == Member(PARAMETERS, p.value, x);
    assert Canonical.Less(DEVICE_ID, PRINCIPAL) && Canonical.Insert(PRINCIPAL, x.value, d) == Member(DEVICE_ID, d.value, Member(PARAMETERS, p.value, x));
    assert Canonical.Less(CAPABILITY_ID, PRINCIPAL);
  }

  lemma SortedText(s: string)
    ensures Canonical.Sorted(Str(s)) == Str(s)
  {
  }

  /** The text an approval is bound to is exactly this: the four fields in key order, without
      white space. */
  lemma RequestLayout(r: Request)
    ensures var principal := "\"principal\"" + ":" + Quoted(r.principal) + "";
      var params := "\"parameters\"" + ":" + Canonical.Text(Obj(r.parameters)) + ("," + principal);
      var device := "\"device_id\"" + ":" + Quoted(r.deviceId) + ("," + params);
      RequestText(r) == "{" + ("\"capability_id\"" + ":" + Quoted(r.capabilityId) + ("," + device)) + "}"
  {
    hide Canonical.Sorted, Render, Quoted, SpelledMembers, Canonical.SortedMembers, RequestDict;
    DictOrdered(r);
    Canonical.SortedStep("", Null, RequestDict(r));
    RenderSpells(Obj(Ordered(r)), Compact);
    RenderSpells(Canonical.Sorted(Obj(r.parameters)), Compact);
    var x := Member("principal", Str(r.principal), End);
    var p := Member("parameters", Canonical.Sorted(Obj(r.parameters)), x);
    var d := Member("device_id", Str(r.deviceId), p);
    MemberSpelled("principal", x.value, End, Compact);
    MemberSpelled("parameters", p.value, x, Compact);
    MemberSpelled("device_id", d.value, p, Compact);
    MemberSpelled("capability_id", Str(r.capabilityId), d, Compact);
    KeysQuoted();
  }

  lemma PlainKeys()
    ensures Plain("principal") && Plain("parameters") && Plain("device_id") && Plain("capability_id")
  {
  }

  lemma KeysQuoted()
    ensures Quoted("principal") == "\"principal\"" && Quoted("parameters") == "\"parameters\""
    ensures Quoted("device_id") == "\"device_id\"" && Quoted("capability_id") == "\"capability_id\""
  {
    hide Quoted, Plain;
    PlainKeys();
    PlainQuoted("principal");
    PlainQuoted("parameters");
    PlainQuoted("device_id");
    PlainQuoted("capability_id");
  }

  /** The source's canonical request text binds. */
  lemma JsonBindingBinds(h: HashFn)
    ensures Binds(JsonBinding(h))
  {
    hide RequestText, GoodRequest, SameAction;
    var b := JsonBinding(h);
    forall x, y | GoodRequest(x) && GoodRequest(y) && b.text(x) == b.text(y) ensures SameAction(x, y) {
      TextFixesRequest(x, y);
    }
  }
}
