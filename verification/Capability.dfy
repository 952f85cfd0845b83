/** Capabilities, requests and parameter validation (`capability/schema.py`,
    `capability/request.py`). */
module Capability {
  import opened Prelude
  import opened Json

  /** Verification levels, weakest first. */
  datatype Level = V0 | V1 | V2 | V3 | V4

  function Rank(level: Level): int {
    match level case V0 => 0 case V1 => 1 case V2 => 2 case V3 => 3 case V4 => 4
  }

  /** `VerificationEvidence.reached` */
  predicate Reached(level: Level, required: Level) { Rank(level) >= Rank(required) }

  /** The levels are ordered V0, V1, V2, V3, V4, and reaching one means being at least there. */
  lemma ReachedOrder(a: Level, b: Level, c: Level)
    ensures Reached(a, a) && (Reached(a, b) || Reached(b, a)) && (Reached(a, b) && Reached(b, a) ==> a == b)
    ensures Reached(a, b) && Reached(b, c) ==> Reached(a, c)
    ensures Reached(V4, V3) && Reached(V3, V2) && Reached(V2, V1) && Reached(V1, V0)
  {
  }

  datatype ParamKind = Number | Integer | Text | Boolean

  datatype ParameterSpec = ParameterSpec(kind: ParamKind, minimum: Option<real>, maximum: Option<real>,
                                         allowed: Option<seq<Value>>, required: bool)

  datatype ParamError = Missing | WrongType | BelowMinimum | AboveMaximum | NotAllowed | Unknown

  datatype SideEffect = NoEffect | ReversibleWrite | IrreversibleWrite

  datatype Definition = Definition(id: string, deviceType: string, parameters: map<string, ParameterSpec>,
                                   defaultTier: int, required: Level, sideEffect: SideEffect)
  {
    predicate ReadOnly() { sideEffect.NoEffect? }
  }

  datatype Request = Request(capabilityId: string, parameters: Members, principal: string, deviceId: string,
                             cid: string, reason: string)

  /** Python's numeric view of a value: `True == 1`. */
  function AsNumber(v: Value): Option<int> {
    match v
    case Num(n) => Some(n)
    case Bool(b) => Some(if b then 1 else 0)
    case _ => None
  }

  /** `==` between a string, number or Boolean and any value. */
  predicate ScalarEqual(v: Value, w: Value) {
    if AsNumber(v).Some? && AsNumber(w).Some? then AsNumber(v) == AsNumber(w) else v == w
  }

  /** `ParameterSpec.check_value`, over values without floats; `None` in, an absent parameter,
      is `Null`. */
  function CheckValue(spec: ParameterSpec, v: Value): Option<ParamError> {
    if v.Null? then (if spec.required then Some(Missing) else None)
    else if (spec.kind.Number? || spec.kind.Integer?) && !v.Num? then Some(WrongType)
    else if v.Num? && (spec.kind.Number? || spec.kind.Integer?)
            && spec.minimum.Some? && v.n as real < spec.minimum.value then Some(BelowMinimum)
    else if v.Num? && (spec.kind.Number? || spec.kind.Integer?)
            && spec.maximum.Some? && v.n as real > spec.maximum.value then Some(AboveMaximum)
    else if spec.kind.Text? && !v.Str? then Some(WrongType)
    else if spec.kind.Boolean? && !v.Bool? then Some(WrongType)
    else if spec.allowed.Some? && forall i | 0 <= i < |spec.allowed.value| :: !ScalarEqual(v, spec.allowed.value[i])
      then Some(NotAllowed)
    else None
  }

  /** Python's `==` on strings, integers and Booleans, where `True == 1`. */
  predicate PythonEqual(v: Value, w: Value) {
    match v
    case Num(n) => w == v || (w == Bool(true) && n == 1) || (w == Bool(false) && n == 0)
    case Bool(b) => w == v || w == Num(if b then 1 else 0)
    case _ => w == v
  }

  /** Exactly which value a declaration accepts: nothing at all if it may be missing, else a
      value of the declared type, within the bounds if it is a number, and among the listed
      values if there is a list. */
  lemma AcceptedExactly(spec: ParameterSpec, v: Value)
    ensures CheckValue(spec, v).None? <==>
      if v.Null? then !spec.required
      else (match spec.kind case Text => v.Str? case Boolean => v.Bool? case _ => v.Num?)
           && (v.Num? && spec.minimum.Some? ==> spec.minimum.value <= v.n as real)
           && (v.Num? && spec.maximum.Some? ==> v.n as real <= spec.maximum.value)
           && (spec.allowed.Some? ==> exists i :: 0 <= i < |spec.allowed.value| && PythonEqual(v, spec.allowed.value[i]))
  {
    if spec.allowed.Some? && !v.Null? {
      forall i | 0 <= i < |spec.allowed.value|
        ensures v.Num? || v.Bool? || v.Str? ==> (ScalarEqual(v, spec.allowed.value[i]) <==> PythonEqual(v, spec.allowed.value[i]))
      {
      }
    }
  }

  /** What is reported of a value that is not accepted. */
  lemma RefusedBecause(spec: ParameterSpec, v: Value)
    requires CheckValue(spec, v).Some?
    ensures var e, number := CheckValue(spec, v).value, spec.kind.Number? || spec.kind.Integer?;
      (e.Missing? <==> v.Null?)
      && (e.WrongType? <==> !v.Null? && !(match spec.kind case Text => v.Str? case Boolean => v.Bool? case _ => v.Num?))
      && (e.BelowMinimum? <==> number && v.Num? && spec.minimum.Some? && v.n as real < spec.minimum.value)
      && (e.AboveMaximum? ==> number && v.Num? && spec.maximum.Some? && v.n as real > spec.maximum.value)
      && (e.NotAllowed? ==> spec.allowed.Some? && forall i | 0 <= i < |spec.allowed.value| :: v != spec.allowed.value[i])
      && !e.Unknown?
  {
  }

  function Argument(params: Members, name: string): Value { Get(params, name).GetOr(Null) }

  /** Everything is declared, and everything declared is acceptable. */
  predicate Acceptable(specs: map<string, ParameterSpec>, params: Members) {
    (forall k | k in Keys(params) :: k in specs)
    && forall name | name in specs :: CheckValue(specs[name], Argument(params, name)).None?
  }

  /** The arguments among `names` that no declaration covers. */
  function Undeclared(specs: map<string, ParameterSpec>, names: set<string>): map<string, ParamError> {
    map k | k in names && k !in specs :: Unknown
  }

  /** The declarations among `names` that the arguments do not meet. */
  function Unmet(specs: map<string, ParameterSpec>, params: Members, names: set<string>): map<string, ParamError> {
    map k | k in names && k in specs && CheckValue(specs[k], Argument(params, k)).Some?
      :: CheckValue(specs[k], Argument(params, k)).value
  }

  /** The error dictionary. */
  function Errors(specs: map<string, ParameterSpec>, params: Members): map<string, ParamError> {
    Undeclared(specs, Keys(params)) + Unmet(specs, params, specs.Keys)
  }

  /** There are no errors exactly when everything given is declared and everything declared
      is acceptable. */
  lemma NoErrors(specs: map<string, ParameterSpec>, params: Members)
    ensures Errors(specs, params) == map[] <==> Acceptable(specs, params)
  {
    hide CheckValue, Argument;
    var errors := Errors(specs, params);
    if errors == map[] {
      forall k | k in Keys(params) ensures k in specs { assert k !in errors; }
      forall k | k in specs ensures CheckValue(specs[k], Argument(params, k)).None? { assert k !in errors; }
    }
    if Acceptable(specs, params) {
      forall k ensures k !in errors {}
    }
  }

  lemma UndeclaredStep(specs: map<string, ParameterSpec>, done: set<string>, k: string)
    ensures Undeclared(specs, done + {k})
         == if k in specs then Undeclared(specs, done) else Undeclared(specs, done)[k := Unknown]
  {
  }

  lemma UnmetStep(specs: map<string, ParameterSpec>, params: Members, done: set<string>, k: string)
    requires k in specs
    ensures var err := CheckValue(specs[k], Argument(params, k));
      Unmet(specs, params, done + {k})
      == if err.None? then Unmet(specs, params, done) else Unmet(specs, params, done)[k := err.value]
  {
    hide CheckValue, Argument;
  }

  lemma UpdateSum(a: map<string, ParamError>, b: map<string, ParamError>, k: string, e: ParamError)
    ensures (a + b)[k := e] == a + b[k := e]
  {
  }

  /** `validate_parameters`: one loop over the arguments, one over the declarations. */
  method ValidateParameters(specs: map<string, ParameterSpec>, params: Members) returns (errors: map<string, ParamError>)
    ensures errors == Errors(specs, params)
  {
    hide CheckValue, Argument, Undeclared, Unmet;
    errors := map[];
    NothingYet(specs, params);
    var keys := Keys(params);
    ghost var done := {};
    while keys != {}
      invariant done + keys == Keys(params) && errors == Undeclared(specs, done)
      decreases keys
    {
      var k :| k in keys;
      UndeclaredStep(specs, done, k);
      if k !in specs { errors := errors[k := Unknown]; }
      keys, done := keys - {k}, done + {k};
    }
    var pending := specs.Keys;
    ghost var unknown := errors;
    done := {};
    while pending != {}
      invariant done + pending == specs.Keys && errors == unknown + Unmet(specs, params, done)
      decreases pending
    {
      var name :| name in pending;
      UnmetStep(specs, params, done, name);
      var err := CheckValue(specs[name], Argument(params, name));
      if err.Some? {
        UpdateSum(unknown, Unmet(specs, params, done), name, err.value);
        errors := errors[name := err.value];
      }
      pending, done := pending - {name}, done + {name};
    }
  }

  lemma NothingYet(specs: map<string, ParameterSpec>, params: Members)
    ensures Undeclared(specs, {}) == map[]
    ensures forall m: map<string, ParamError> :: m + Unmet(specs, params, {}) == m
  {
    assert Unmet(specs, params, {}) == map[];
  }
}
