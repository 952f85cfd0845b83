/** Risk tiers (`policy/risk.py`): how context raises a capability's default tier. */
module Risk {
  import opened Prelude

  const READ_ONLY := 0
  const LOW_REVERSIBLE := 1
  const SIGNIFICANT := 2
  const SAFETY_SENSITIVE := 3

  datatype Context = Context(principal: string, location: string, timeOfDay: string, occupancy: string,
                             historicalState: string, environment: string)

  const DEFAULT_CONTEXT := Context("agent", "home", "day", "occupied", "normal", "normal")

  datatype Reason = RapidCycling | UnknownPrincipal | Factors(factors: seq<string>)

  predicate IsTier(t: int) { READ_ONLY <= t <= SAFETY_SENSITIVE }

  predicate KnownPrincipal(p: string) { p == "human" || p == "automation" || p == "agent" }

  /** The circumstances that raise the tier, in the order they are listed. */
  function FactorsOf(tier: int, c: Context): seq<string> {
    (if c.occupancy == "away" && tier >= SIGNIFICANT then ["occupancy=away"] else [])
    + (if c.environment == "abnormal" then ["environment=abnormal"] else [])
    + (if c.timeOfDay == "night" && tier >= SIGNIFICANT then ["time_of_day=night"] else [])
  }

  function MaxTier(tier: int, rules: seq<(int, bool)>): int
    decreases |rules|
  {
    if rules == [] then tier
    else
      var t := MaxTier(tier, rules[..|rules| - 1]);
      if rules[|rules| - 1].0 > t then rules[|rules| - 1].0 else t
  }

  /** The classification; `None` when the default is no tier at all (ValueError). */
  function Classify(defaultTier: int, c: Context, rules: seq<(int, bool)>): Option<(int, Reason)> {
    if !IsTier(defaultTier) then None
    else if c.historicalState == "rapid_cycling" then Some((SAFETY_SENSITIVE, RapidCycling))
    else if !KnownPrincipal(c.principal) && defaultTier >= SIGNIFICANT then Some((SAFETY_SENSITIVE, UnknownPrincipal))
    else
      var factors := FactorsOf(defaultTier, c);
      var tier := if factors == [] then defaultTier
                  else if defaultTier < SIGNIFICANT then SIGNIFICANT else SAFETY_SENSITIVE;
      Some((MaxTier(tier, rules), Factors(factors)))
  }

  method ClassifyRisk(defaultTier: int, c: Context, rules: seq<(int, bool)>) returns (r: Option<(int, Reason)>)
    ensures r == Classify(defaultTier, c, rules)
  {
    if !IsTier(defaultTier) { return None; }
    var tier := defaultTier;
    var reasons := [];
    if c.historicalState == "rapid_cycling" { return Some((SAFETY_SENSITIVE, RapidCycling)); }
    if !KnownPrincipal(c.principal) && tier >= SIGNIFICANT { return Some((SAFETY_SENSITIVE, UnknownPrincipal)); }
    if c.occupancy == "away" && tier >= SIGNIFICANT { reasons := reasons + ["occupancy=away"]; }
    if c.environment == "abnormal" { reasons := reasons + ["environment=abnormal"]; }
    if c.timeOfDay == "night" && tier >= SIGNIFICANT { reasons := reasons + ["time_of_day=night"]; }
    assert reasons == FactorsOf(defaultTier, c);
    if reasons != [] && tier < SIGNIFICANT {
      tier := SIGNIFICANT;
    } else if reasons != [] {
      tier := SAFETY_SENSITIVE;
    }
    ghost var base := tier;
    for i := 0 to |rules|
      invariant tier == MaxTier(base, rules[..i])
    {
      assert rules[..i + 1][..i] == rules[..i];
      if rules[i].0 > tier { tier := rules[i].0; }
    }
    assert rules[..|rules|] == rules;
    return Some((tier, Factors(reasons)));
  }

  /** Override rules only raise: the tier is the highest of the rules and of the tier without
      them. */
  lemma OverridesExact(d: int, c: Context, rules: seq<(int, bool)>)
    requires IsTier(d) && forall i | 0 <= i < |rules| :: IsTier(rules[i].0)
    ensures var t, base := Classify(d, c, rules).value.0, Classify(d, c, []).value.0;
      base <= t && (forall i | 0 <= i < |rules| :: rules[i].0 <= t)
      && (t == base || exists i :: 0 <= i < |rules| && rules[i].0 == t)
  {
    MaxTierExact(Base(d, c), rules);
  }

  lemma {:induction false} MaxTierExact(t: int, rules: seq<(int, bool)>)
    ensures t <= MaxTier(t, rules) && forall i | 0 <= i < |rules| :: rules[i].0 <= MaxTier(t, rules)
    ensures MaxTier(t, rules) == t || exists i :: 0 <= i < |rules| && rules[i].0 == MaxTier(t, rules)
    decreases |rules|
  {
    if rules != [] {
      var n := |rules| - 1;
      MaxTierExact(t, rules[..n]);
      assert forall i | 0 <= i < n :: rules[..n][i] == rules[i];
      assert rules[n].0 <= MaxTier(t, rules);
    }
  }

  lemma {:induction false} MaxTierMonotone(s: int, t: int, rules: seq<(int, bool)>)
    requires s <= t
    ensures s <= MaxTier(s, rules) <= MaxTier(t, rules)
    decreases |rules|
  {
    if rules != [] { MaxTierMonotone(s, t, rules[..|rules| - 1]); }
  }

  /** Context never lowers a tier, and a higher default never ends in a lower tier. */
  lemma TierMonotone(d: int, e: int, c: Context, rules: seq<(int, bool)>)
    requires IsTier(d) && IsTier(e) && d <= e
    requires forall i | 0 <= i < |rules| :: IsTier(rules[i].0)
    ensures d <= Classify(d, c, rules).value.0 <= Classify(e, c, rules).value.0 <= SAFETY_SENSITIVE
  {
    var s := Base(d, c);
    var t := Base(e, c);
    MaxTierMonotone(s, t, rules);
    MaxTierBounded(t, rules);
  }

  /** The tier before the override rules, when no early return applies. */
  function Base(d: int, c: Context): int {
    if FactorsOf(d, c) == [] then d else if d < SIGNIFICANT then SIGNIFICANT else SAFETY_SENSITIVE
  }

  lemma {:induction false} MaxTierBounded(t: int, rules: seq<(int, bool)>)
    requires t <= SAFETY_SENSITIVE && forall i | 0 <= i < |rules| :: IsTier(rules[i].0)
    ensures MaxTier(t, rules) <= SAFETY_SENSITIVE
    decreases |rules|
  {
    if rules != [] { MaxTierBounded(t, rules[..|rules| - 1]); }
  }
}

/** The policy engine (`policy/engine.py`): kill switch, allowlist, schema, rate limit, risk. */
module Policy {
  import opened Prelude
  import opened Json
  import opened Capability
  import opened RateLimit
  import Risk

  datatype Why =
    | KillSwitch | Killed(capability: string) | RapidCycling | Schema(errors: map<string, ParamError>)
    | RateLimited | Assessed(reason: Risk.Reason)

  datatype Decision = Decision(allowed: bool, tier: int, why: Why, requiresApproval: bool, cid: string)

  datatype Verdict = Decided(decision: Decision) | UnknownCapability | BadTier

  /** What an evaluation reads: the allowlist and the kill state. */
  datatype Rules = Rules(registry: map<string, Definition>, killFile: bool, killed: set<string>)

  function Deny(why: Why, cid: string): Verdict {
    Decided(Decision(false, Risk.SAFETY_SENSITIVE, why, false, cid))
  }

  /** The checks before the rate limiter. */
  function Screen(rules: Rules, d: Definition, r: Request, ctx: Risk.Context): Option<Why> {
    if !d.ReadOnly() && rules.killFile then Some(KillSwitch)
    else if !d.ReadOnly() && r.capabilityId in rules.killed then Some(Killed(r.capabilityId))
    else if !d.ReadOnly() && ctx.historicalState == "rapid_cycling" then Some(RapidCycling)
    else
      var errors := Errors(d.parameters, r.parameters);
      if errors != map[] then Some(Schema(errors)) else None
  }

  /** The classification of an admitted request; the principal is the request's own. */
  function Assess(d: Definition, r: Request, ctx: Risk.Context): Verdict {
    match Risk.Classify(d.defaultTier, ctx.(principal := r.principal), [])
    case None => BadTier
    case Some((tier, reason)) => Decided(Decision(true, tier, Assessed(reason), tier >= Risk.SIGNIFICANT, r.cid))
  }

  function Evaluate(rules: Rules, l: Limits, ws: Windows, r: Request, ctx: Option<Risk.Context>, now: real)
    : (Windows, Verdict)
  {
    if r.capabilityId !in rules.registry then (ws, UnknownCapability)
    else
      var d, c := rules.registry[r.capabilityId], ctx.GetOr(Risk.DEFAULT_CONTEXT);
      match Screen(rules, d, r, c)
      case Some(why) => (ws, Deny(why, r.cid))
      case None =>
        if d.ReadOnly() then (ws, Assess(d, r, c))
        else
          var (ws', ok) := Decide(l, ws, Call(r.capabilityId, r.cid, now));
          if !ok then (ws', Deny(RateLimited, r.cid)) else (ws', Assess(d, r, c))
  }

  // ---------------------------------------------------------------- what an evaluation does to the limiter

  function Recent(l: Limits, ws: Windows, key: string, now: real): seq<Admission> {
    Prune(Entries(ws, key), now, l.window)
  }

  /** A denied evaluation records no admission: at most it prunes. */
  lemma DeniedTakesNoSlot(rules: Rules, l: Limits, ws: Windows, r: Request, ctx: Option<Risk.Context>, now: real, key: string)
    requires var v := Evaluate(rules, l, ws, r, ctx, now).1; v.UnknownCapability? || (v.Decided? && !v.decision.allowed)
    ensures var ws' := Evaluate(rules, l, ws, r, ctx, now).0;
      Entries(ws', key) == Entries(ws, key) || Entries(ws', key) == Recent(l, ws, key, now)
  {
    hide Errors, Prune;
  }

  /** Conversely an allowed write is on record; so is one whose definition carries a default
      tier that is no tier, although that evaluation ends in an exception. */
  lemma AllowedWriteIsRecorded(rules: Rules, l: Limits, ws: Windows, r: Request, ctx: Option<Risk.Context>, now: real)
    requires r.capabilityId in rules.registry && !rules.registry[r.capabilityId].ReadOnly()
    requires var v := Evaluate(rules, l, ws, r, ctx, now).1; v.BadTier? || (v.Decided? && v.decision.allowed)
    ensures HasCid(Entries(Evaluate(rules, l, ws, r, ctx, now).0, r.capabilityId), r.cid)
  {
    hide Errors, Prune;
    var pruned := Recent(l, ws, r.capabilityId, now);
    var added := pruned + [Admission(now, r.cid)];
    assert added[|pruned|].cid == r.cid;
  }

  /** One evaluation of anybody's: rules and context may differ from evaluation to evaluation. */
  datatype Evaluation = Evaluation(rules: Rules, request: Request, ctx: Option<Risk.Context>, now: real)

  /** The windows after a sequence of evaluations. */
  function AfterAll(l: Limits, ws: Windows, evals: seq<Evaluation>): Windows
    decreases |evals|
  {
    if evals == [] then ws
    else
      var e := evals[0];
      AfterAll(l, Evaluate(e.rules, l, ws, e.request, e.ctx, e.now).0, evals[1..])
  }

  /** Deciding keeps every admission that lies within the window. */
  lemma DecideKeeps(l: Limits, ws: Windows, c: Call, key: string, a: Admission)
    requires a in Entries(ws, key) && c.now - a.time <= l.window
    ensures a in Entries(Decide(l, ws, c).0, key)
  {
    hide Prune, HasCid;
    PruneMember(Entries(ws, key), c.now, l.window, a);
  }

  /** No evaluation at a time within the window of an admission removes it. */
  lemma {:induction false} AdmissionStays(l: Limits, ws: Windows, evals: seq<Evaluation>, key: string, a: Admission)
    requires a in Entries(ws, key) && forall i | 0 <= i < |evals| :: evals[i].now - a.time <= l.window
    ensures a in Entries(AfterAll(l, ws, evals), key)
    decreases |evals|
  {
    hide Screen, Assess, Entries, Decide;
    if evals != [] {
      var e := evals[0];
      DecideKeeps(l, ws, Call(e.request.capabilityId, e.request.cid, e.now), key, a);
      AdmissionStays(l, Evaluate(e.rules, l, ws, e.request, e.ctx, e.now).0, evals[1..], key, a);
    }
  }

  /** An admission of the id that a check at `now` would still find. */
  predicate AdmittedWithin(l: Limits, ws: Windows, key: string, cid: string, now: real) {
    exists a :: a in Entries(ws, key) && a.cid == cid && now - a.time <= l.window
  }

  lemma StillAdmitted(l: Limits, ws: Windows, evals: seq<Evaluation>, key: string, cid: string, later: real)
    requires AdmittedWithin(l, ws, key, cid, later) && forall i | 0 <= i < |evals| :: evals[i].now <= later
    ensures AdmittedWithin(l, AfterAll(l, ws, evals), key, cid, later)
  {
    hide Entries, AfterAll;
    forall a | a in Entries(ws, key) && a.cid == cid && later - a.time <= l.window
      ensures a in Entries(AfterAll(l, ws, evals), key)
    {
      AdmissionStays(l, ws, evals, key, a);
    }
  }

  lemma FoundExactly(l: Limits, ws: Windows, key: string, cid: string, now: real)
    ensures HasCid(Recent(l, ws, key, now), cid) <==> AdmittedWithin(l, ws, key, cid, now)
  {
    hide Prune, Entries;
    var recent := Recent(l, ws, key, now);
    if HasCid(recent, cid) {
      var i :| 0 <= i < |recent| && recent[i].cid == cid;
      PruneMember(Entries(ws, key), now, l.window, recent[i]);
    }
    forall a | a in Entries(ws, key) && a.cid == cid && now - a.time <= l.window ensures HasCid(recent, cid) {
      PruneMember(Entries(ws, key), now, l.window, a);
    }
  }

  /** A check that finds an admission of its id takes no slot under any key. */
  ghost predicate NoSlot(l: Limits, ws: Windows, ws': Windows, now: real) {
    forall key: string :: Entries(ws', key) == Entries(ws, key) || Entries(ws', key) == Recent(l, ws, key, now)
  }

  /** Re-evaluating an allowed request, after any other evaluations by anybody, gives the same
      decision and takes no slot: for a read always, for a write as long as the admission
      that its first evaluation found or made is within the window. */
  lemma {:induction false} ReevaluationAgrees(rules: Rules, l: Limits, ws: Windows, r: Request, ctx: Option<Risk.Context>,
                                              now: real, others: seq<Evaluation>, later: real)
    requires Evaluate(rules, l, ws, r, ctx, now).1.Decided? && Evaluate(rules, l, ws, r, ctx, now).1.decision.allowed
    requires forall i | 0 <= i < |others| :: others[i].now <= later
    requires r.capabilityId in rules.registry && !rules.registry[r.capabilityId].ReadOnly()
             ==> AdmittedWithin(l, Evaluate(rules, l, ws, r, ctx, now).0, r.capabilityId, r.cid, later)
    ensures var ws2 := AfterAll(l, Evaluate(rules, l, ws, r, ctx, now).0, others);
      Evaluate(rules, l, ws2, r, ctx, later).1 == Evaluate(rules, l, ws, r, ctx, now).1
      && NoSlot(l, ws2, Evaluate(rules, l, ws2, r, ctx, later).0, later)
  {
    hide Screen, Prune, HasCid, Assess, Entries, AfterAll, AdmittedWithin;
    var ws1 := Evaluate(rules, l, ws, r, ctx, now).0;
    var ws2 := AfterAll(l, ws1, others);
    if !rules.registry[r.capabilityId].ReadOnly() {
      StillAdmitted(l, ws1, others, r.capabilityId, r.cid, later);
      FoundExactly(l, ws2, r.capabilityId, r.cid, later);
      FoundTakesNoSlot(l, ws2, Call(r.capabilityId, r.cid, later));
    }
  }

  lemma FoundTakesNoSlot(l: Limits, ws: Windows, c: Call)
    requires HasCid(Recent(l, ws, c.key, c.now), c.cid)
    ensures Decide(l, ws, c).1 && NoSlot(l, ws, Decide(l, ws, c).0, c.now)
  {
    hide Prune, HasCid;
  }

  /** The first evaluation that takes a slot leaves an admission of its own time, so the
      request may be evaluated again for the whole length of the window. */
  lemma FirstEvaluationAdmits(rules: Rules, l: Limits, ws: Windows, r: Request, ctx: Option<Risk.Context>, now: real, later: real)
    requires Evaluate(rules, l, ws, r, ctx, now).1.Decided? && Evaluate(rules, l, ws, r, ctx, now).1.decision.allowed
    requires !rules.registry[r.capabilityId].ReadOnly() && later - now <= l.window
    requires !AdmittedWithin(l, ws, r.capabilityId, r.cid, now)
    ensures AdmittedWithin(l, Evaluate(rules, l, ws, r, ctx, now).0, r.capabilityId, r.cid, later)
  {
    hide Screen, Prune, HasCid, Assess;
    FoundExactly(l, ws, r.capabilityId, r.cid, now);
    var a := Admission(now, r.cid);
    var entries := Entries(Evaluate(rules, l, ws, r, ctx, now).0, r.capabilityId);
    assert entries[|entries| - 1] == a;
  }

  /** Exactly when a request is allowed: it is on the allowlist, its parameters are acceptable,
      its default tier is a tier, and a write also finds no kill file, no kill of its
      capability, no rapid cycling, and either its own admission or room in the window. */
  predicate Permitted(rules: Rules, l: Limits, ws: Windows, r: Request, ctx: Option<Risk.Context>, now: real) {
    r.capabilityId in rules.registry
    && var d := rules.registry[r.capabilityId];
       Acceptable(d.parameters, r.parameters) && 0 <= d.defaultTier <= 3
       && (d.sideEffect.NoEffect?
           || (!rules.killFile && r.capabilityId !in rules.killed
               && ctx.GetOr(Risk.DEFAULT_CONTEXT).historicalState != "rapid_cycling"
               && var recent := Recent(l, ws, r.capabilityId, now);
                  (HasCid(recent, r.cid) || |recent| < l.maxCalls)))
  }

  lemma AllowedExactly(rules: Rules, l: Limits, ws: Windows, r: Request, ctx: Option<Risk.Context>, now: real)
    ensures var v := Evaluate(rules, l, ws, r, ctx, now).1;
      (v.Decided? && v.decision.allowed) <==> Permitted(rules, l, ws, r, ctx, now)
  {
    hide Errors, Prune, HasCid, Acceptable;
    if r.capabilityId in rules.registry {
      NoErrors(rules.registry[r.capabilityId].parameters, r.parameters);
    }
  }

  /** An allowed decision never has a tier below the capability's default, and asks for
      approval exactly from SIGNIFICANT up. */
  lemma DecisionTier(rules: Rules, l: Limits, ws: Windows, r: Request, ctx: Option<Risk.Context>, now: real)
    requires r.capabilityId in rules.registry
    requires Evaluate(rules, l, ws, r, ctx, now).1.Decided? && Evaluate(rules, l, ws, r, ctx, now).1.decision.allowed
    ensures var d := Evaluate(rules, l, ws, r, ctx, now).1.decision;
      rules.registry[r.capabilityId].defaultTier <= d.tier <= Risk.SAFETY_SENSITIVE
      && (d.requiresApproval <==> d.tier >= Risk.SIGNIFICANT) && d.cid == r.cid
  {
    hide Errors, Prune;
    var d := rules.registry[r.capabilityId];
    var c := ctx.GetOr(Risk.DEFAULT_CONTEXT).(principal := r.principal);
    if Risk.IsTier(d.defaultTier) { Risk.TierMonotone(d.defaultTier, d.defaultTier, c, []); }
  }

  /** A human has to approve what is significant by itself, or whatever is asked for in an
      abnormal environment or after rapid cycling. */
  predicate NeedsHuman(d: Definition, ctx: Option<Risk.Context>) {
    var c := ctx.GetOr(Risk.DEFAULT_CONTEXT);
    d.defaultTier >= 2 || c.environment == "abnormal" || c.historicalState == "rapid_cycling"
  }

  /** Exactly which circumstances raise an allowed request to which tier, and so when a human
      has to approve it. */
  lemma TierExactly(rules: Rules, l: Limits, ws: Windows, r: Request, ctx: Option<Risk.Context>, now: real)
    requires var v := Evaluate(rules, l, ws, r, ctx, now).1; v.Decided? && v.decision.allowed
    ensures var decision := Evaluate(rules, l, ws, r, ctx, now).1.decision;
      var d, c := rules.registry[r.capabilityId].defaultTier, ctx.GetOr(Risk.DEFAULT_CONTEXT);
      var cycling, abnormal := c.historicalState == "rapid_cycling", c.environment == "abnormal";
      var stranger := r.principal != "human" && r.principal != "automation" && r.principal != "agent";
      var unattended := c.occupancy == "away" || c.timeOfDay == "night";
      (decision.tier == 3 <==> d == 3 || cycling || (d >= 2 && (stranger || abnormal || unattended)))
      && (decision.tier == 2 <==> decision.tier != 3 && (d == 2 || abnormal))
      && (decision.tier < 2 ==> decision.tier == d)
      && (decision.requiresApproval <==> NeedsHuman(rules.registry[r.capabilityId], ctx))
  {
    hide Errors, Decide;
  }

  /** The reason given with an allowed decision: what has raised its tier, in this order. */
  lemma AllowedBecause(rules: Rules, l: Limits, ws: Windows, r: Request, ctx: Option<Risk.Context>, now: real)
    requires var v := Evaluate(rules, l, ws, r, ctx, now).1; v.Decided? && v.decision.allowed
    ensures var d, c := rules.registry[r.capabilityId].defaultTier, ctx.GetOr(Risk.DEFAULT_CONTEXT);
      var stranger := r.principal != "human" && r.principal != "automation" && r.principal != "agent";
      var away := if d >= 2 && c.occupancy == "away" then ["occupancy=away"] else [];
      var abnormal := if c.environment == "abnormal" then ["environment=abnormal"] else [];
      var night := if d >= 2 && c.timeOfDay == "night" then ["time_of_day=night"] else [];
      Evaluate(rules, l, ws, r, ctx, now).1.decision.why
      == Assessed(if c.historicalState == "rapid_cycling" then Risk.RapidCycling
                  else if stranger && d >= 2 then Risk.UnknownPrincipal else Risk.Factors(away + abnormal + night))
  {
    hide Errors, Decide;
  }

  /** Exactly why a request is denied, the first reason in this order. */
  lemma DeniedBecause(rules: Rules, l: Limits, ws: Windows, r: Request, ctx: Option<Risk.Context>, now: real)
    requires r.capabilityId in rules.registry
    requires var v := Evaluate(rules, l, ws, r, ctx, now).1; v.Decided? && !v.decision.allowed
    ensures var decision, d := Evaluate(rules, l, ws, r, ctx, now).1.decision, rules.registry[r.capabilityId];
      var write := !d.sideEffect.NoEffect?;
      decision.tier == 3 && !decision.requiresApproval && decision.cid == r.cid
      && (if write && rules.killFile then decision.why == KillSwitch
          else if write && r.capabilityId in rules.killed then decision.why == Killed(r.capabilityId)
          else if write && ctx.GetOr(Risk.DEFAULT_CONTEXT).historicalState == "rapid_cycling" then decision.why == RapidCycling
          else if Acceptable(d.parameters, r.parameters) then decision.why == RateLimited
          else decision.why.Schema? && decision.why.errors != map[])
  {
    hide Errors, Decide, Acceptable;
    NoErrors(rules.registry[r.capabilityId].parameters, r.parameters);
  }
}

/** The policy engine as the object the source has, sharing its rate limiter. */
module PolicyEngine {
  import opened Prelude
  import opened Capability
  import opened RateLimit
  import opened Policy
  import Risk

  class PolicyEngine {
    const limiter: RateLimiter
    var rules: Rules

    constructor (limiter: RateLimiter, rules: Rules)
      ensures this.limiter == limiter && this.rules == rules
    {
      this.limiter, this.rules := limiter, rules;
    }

    method Evaluate(r: Request, ctx: Option<Risk.Context>, now: real) returns (v: Verdict)
      modifies limiter
      ensures (limiter.events, v) == Policy.Evaluate(rules, limiter.limits, old(limiter.events), r, ctx, now)
    {
      var context := ctx.GetOr(Risk.DEFAULT_CONTEXT);
      if r.capabilityId !in rules.registry { return UnknownCapability; }
      var d := rules.registry[r.capabilityId];
      if !d.ReadOnly() {
        if rules.killFile { return Deny(KillSwitch, r.cid); }
        if r.capabilityId in rules.killed { return Deny(Killed(r.capabilityId), r.cid); }
        if context.historicalState == "rapid_cycling" { return Deny(RapidCycling, r.cid); }
      }
      var errors := ValidateParameters(d.parameters, r.parameters);
      if errors != map[] { return Deny(Schema(errors), r.cid); }
      if !d.ReadOnly() {
        var ok := limiter.Check(r.capabilityId, r.cid, now);
        if !ok { return Deny(RateLimited, r.cid); }
      }
      var assessed := Risk.ClassifyRisk(d.defaultTier, context.(principal := r.principal), []);
      match assessed {
        case None => return BadTier;
        case Some((tier, reason)) =>
          return Decided(Decision(true, tier, Assessed(reason), tier >= Risk.SIGNIFICANT, r.cid));
      }
    }
  }
}
