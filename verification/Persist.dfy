/** Saving and loading nets (persist/topology.go, persist/registry.go).  Functions are saved
    as names; a registry maps the names to functions and, through their code pointers,
    functions back to names. */
module Persist {
  import opened Wrappers
  import opened Machine
  import T = Topologies

  // ---- The registry ----

  /** A function value: closures of one function literal share its code. */
  datatype Func = Func(code: nat, env: nat)

  datatype FuncKind = Guard | Executor | RetryOn | Factory | EventFilter | ValidateFn | OnSuccess | Schema

  datatype Registry = Registry(names: map<(FuncKind, string), Func>, reverse: map<(FuncKind, nat), string>)

  /** Every reverse entry names a registered function with that code, and every registered
      function's code has one. */
  ghost predicate Consistent(reg: Registry) {
    && (forall kind, code :: (kind, code) in reg.reverse ==>
          (kind, reg.reverse[(kind, code)]) in reg.names && reg.names[(kind, reg.reverse[(kind, code)])].code == code)
    && (forall kind, name :: (kind, name) in reg.names && kind != Schema ==> (kind, reg.names[(kind, name)].code) in reg.reverse)
  }

  function Registered(reg: Registry, kind: FuncKind, name: string, fn: Func): Registry {
    Registry(reg.names[(kind, name) := fn],
             if kind == Schema then reg.reverse else reg.reverse[(kind, fn.code) := name])
  }

  class FuncRegistry {
    var reg: Registry

    ghost predicate Valid()
      reads this
    {
      Consistent(reg)
    }

    constructor ()
      ensures Valid() && reg == Registry(map[], map[])
    {
      reg := Registry(map[], map[]);
    }

    /** The Register methods: a name is taken once; of two functions with the same code the
        later name wins the way back. */
    method Register(kind: FuncKind, name: string, fn: Func) returns (panicked: bool)
      requires Valid()
      modifies this
      ensures Valid()
      ensures panicked <==> (kind, name) in old(reg).names
      ensures reg == if panicked then old(reg) else Registered(old(reg), kind, name, fn)
    {
      if (kind, name) in reg.names {
        return true;
      }
      reg := Registered(reg, kind, name, fn);
      return false;
    }
  }

  function Lookup(reg: Registry, kind: FuncKind, name: string): Option<Func> {
    if (kind, name) in reg.names then Some(reg.names[(kind, name)]) else None
  }

  function ReverseLookup(reg: Registry, kind: FuncKind, fn: Func): Option<string> {
    if (kind, fn.code) in reg.reverse then Some(reg.reverse[(kind, fn.code)]) else None
  }

  /** A function that was registered under one name only finds that name again. */
  lemma {:induction false} OneNameComesBack(reg: Registry, kind: FuncKind, name: string)
    requires Consistent(reg) && kind != Schema && (kind, name) in reg.names
    requires forall other :: ((kind, other) in reg.names
                              && reg.names[(kind, other)].code == reg.names[(kind, name)].code) ==> other == name
    ensures ReverseLookup(reg, kind, reg.names[(kind, name)]) == Some(name)
  {
    var code := reg.names[(kind, name)].code;
    assert (kind, reg.reverse[(kind, code)]) in reg.names;
  }

  // ---- Topologies and live nets ----

  datatype ValidateT = ValidateT(schemaFunc: string, validateFunc: string, onSuccessFunc: string, maxCorrections: int,
                                 correctionLlmId: string)

  datatype HitlT = HitlT(prompt: string, revisionLoop: bool, correctionLlmId: string, maxRevisions: int)

  datatype BreakerT = BreakerT(failureThreshold: int, openDurationMs: int64)

  datatype RetryT = RetryT(maxAttempts: int, initialWaitMs: int64, maxWaitMs: int64, multiplier: real,
                           retryOnFunc: string, breaker: Option<BreakerT>)

  /** The LLM configuration is copied field by field both ways; it is kept as one value. */
  datatype Configs = Configs(toolParameters: string, llm: Option<string>, validate: Option<ValidateT>,
                             hitl: Option<HitlT>, retry: Option<RetryT>)

  type Topology = T.TopologyT<Configs>

  type Transition = T.TransitionT<Configs>

  datatype LiveValidate = LiveValidate(schema: Option<Func>, validateFunc: Option<Func>, onSuccess: Option<Func>,
                                       maxCorrections: int, correctionLlmId: string)

  datatype LiveBreaker = LiveBreaker(failureThreshold: int, openDuration: int64)

  datatype LiveRetry = LiveRetry(maxAttempts: int, initialWait: int64, maxWait: int64, multiplier: real,
                                 retryOn: Option<Func>, breaker: Option<LiveBreaker>)

  datatype LiveTransition = LiveTransition(
    id: string, kind: string, inputPlaces: seq<string>, outputPlaces: seq<string>, errorPlace: string,
    systemPrompt: string, toolName: string, llmTools: seq<string>, observedCpnId: string,
    guard: Option<Func>, executor: Option<Func>, factory: Option<Func>, eventFilter: Option<Func>,
    toolParameters: string, llm: Option<string>, validate: Option<LiveValidate>, hitl: Option<HitlT>,
    retry: Option<LiveRetry>, subNet: Option<LiveNet>)

  datatype LiveNet = LiveNet(id: string, role: string, depth: int, mode: string, places: map<string, T.PlaceT>,
                             transitions: map<string, LiveTransition>)

  // ---- Names and functions; None stands for the error ----

  function Named(reg: Registry, kind: FuncKind, fn: Option<Func>): Option<string> {
    if fn.None? then Some("") else ReverseLookup(reg, kind, fn.value)
  }

  function Resolved(reg: Registry, kind: FuncKind, name: string): Option<Option<Func>> {
    if name == "" then Some(None)
    else
      match Lookup(reg, kind, name)
      case None => None
      case Some(fn) => Some(Some(fn))
  }

  /** The name is registered and is the one its function goes back to. */
  predicate Stable(reg: Registry, kind: FuncKind, name: string) {
    name != "" ==>
      (kind, name) in reg.names && ReverseLookup(reg, kind, reg.names[(kind, name)]) == Some(name)
  }

  lemma {:induction false} NameBack(reg: Registry, kind: FuncKind, name: string)
    ensures Stable(reg, kind, name) <==>
            Resolved(reg, kind, name).Some? && Named(reg, kind, Resolved(reg, kind, name).value) == Some(name)
  {
  }

  // ---- Durations: milliseconds in the topology, nanoseconds live ----

  const NANOS_PER_MS := 1_000_000

  function FromMs(ms: int64): int64 {
    Wrap64(ms * NANOS_PER_MS)
  }

  /** Go's integer division drops the fraction. */
  function ToMs(d: int64): int64 {
    var n: int := d;
    if n >= 0 then n / NANOS_PER_MS else -((-n) / NANOS_PER_MS)
  }

  const MAX_MS := 9_223_372_036_854

  lemma {:induction false} MsBack(ms: int64)
    ensures ToMs(FromMs(ms)) == ms <==> -MAX_MS <= ms <= MAX_MS
  {
    if -MAX_MS <= ms <= MAX_MS {
      assert FromMs(ms) == ms * NANOS_PER_MS;
      if ms < 0 { assert (-ms * NANOS_PER_MS) / NANOS_PER_MS == -ms; }
    }
  }

  // ---- Marshal and unmarshal ----

  function MarshalValidate(reg: Registry, v: LiveValidate): Option<ValidateT> {
    var validateFunc, onSuccess := Named(reg, ValidateFn, v.validateFunc), Named(reg, OnSuccess, v.onSuccess);
    if validateFunc.None? || onSuccess.None? then None
    else Some(ValidateT("", validateFunc.value, onSuccess.value, v.maxCorrections, v.correctionLlmId))
  }

  function UnmarshalValidate(reg: Registry, v: ValidateT): Option<LiveValidate> {
    var schema, validateFunc, onSuccess :=
      Resolved(reg, Schema, v.schemaFunc), Resolved(reg, ValidateFn, v.validateFunc), Resolved(reg, OnSuccess, v.onSuccessFunc);
    if schema.None? || validateFunc.None? || onSuccess.None? then None
    else Some(LiveValidate(schema.value, validateFunc.value, onSuccess.value, v.maxCorrections, v.correctionLlmId))
  }

  function MarshalRetry(reg: Registry, r: LiveRetry): Option<RetryT> {
    var retryOn := Named(reg, RetryOn, r.retryOn);
    if retryOn.None? then None
    else
      Some(RetryT(r.maxAttempts, ToMs(r.initialWait), ToMs(r.maxWait), r.multiplier, retryOn.value,
                  if r.breaker.None? then None
                  else Some(BreakerT(r.breaker.value.failureThreshold, ToMs(r.breaker.value.openDuration)))))
  }

  function UnmarshalRetry(reg: Registry, r: RetryT): Option<LiveRetry> {
    var retryOn := Resolved(reg, RetryOn, r.retryOnFunc);
    if retryOn.None? then None
    else
      Some(LiveRetry(r.maxAttempts, FromMs(r.initialWaitMs), FromMs(r.maxWaitMs), r.multiplier, retryOn.value,
                     if r.breaker.None? then None
                     else Some(LiveBreaker(r.breaker.value.failureThreshold, FromMs(r.breaker.value.openDurationMs)))))
  }

  /** Lifts a conversion that may fail over an optional part. */
  function Lift<A, B>(f: A -> Option<B>, a: Option<A>): Option<Option<B>> {
    if a.None? then Some(None)
    else
      match f(a.value)
      case None => None
      case Some(b) => Some(Some(b))
  }

  /** A factory hides an inline sub-net. */
  function MarshalSub(reg: Registry, t: LiveTransition): Option<Option<Topology>>
    decreases t, 0
  {
    if t.factory.Some? || t.subNet.None? then Some(None)
    else
      match Marshal(reg, t.subNet.value)
      case None => None
      case Some(sub) => Some(Some(sub))
  }

  function MarshalTransition(reg: Registry, t: LiveTransition): Option<Transition>
    decreases t, 1
  {
    var guard, executor, factory, filter :=
      Named(reg, Guard, t.guard), Named(reg, Executor, t.executor), Named(reg, Factory, t.factory),
      Named(reg, EventFilter, t.eventFilter);
    var validate, retry :=
      Lift((v: LiveValidate) => MarshalValidate(reg, v), t.validate), Lift((r: LiveRetry) => MarshalRetry(reg, r), t.retry);
    var sub := MarshalSub(reg, t);
    if guard.None? || executor.None? || factory.None? || filter.None? || validate.None? || retry.None? || sub.None? then None
    else
      Some(T.TransitionT(t.id, t.kind, t.inputPlaces, t.outputPlaces, t.errorPlace, guard.value, executor.value,
                         factory.value, t.systemPrompt, t.toolName, t.observedCpnId, filter.value, "", t.llmTools,
                         Configs(t.toolParameters, t.llm, validate.value, t.hitl, retry.value), sub.value))
  }

  function Marshal(reg: Registry, c: LiveNet): Option<Topology>
    decreases c, 0
  {
    if exists id :: id in c.transitions && MarshalTransition(reg, c.transitions[id]).None? then None
    else
      Some(T.TopologyT(c.id, c.role, c.depth, c.mode, c.places,
                       map id | id in c.transitions :: MarshalTransition(reg, c.transitions[id]).value))
  }

  function UnmarshalSub(reg: Registry, t: Transition): Option<Option<LiveNet>>
    decreases t, 0
  {
    if t.factoryFunc != "" || t.subNet.None? then Some(None)
    else
      match Unmarshal(reg, t.subNet.value)
      case None => None
      case Some(sub) => Some(Some(sub))
  }

  function UnmarshalTransition(reg: Registry, t: Transition): Option<LiveTransition>
    decreases t, 1
  {
    var guard, executor, factory, filter :=
      Resolved(reg, Guard, t.guardFunc), Resolved(reg, Executor, t.executorFunc), Resolved(reg, Factory, t.factoryFunc),
      Resolved(reg, EventFilter, t.eventFilterFunc);
    var validate, retry :=
      Lift((v: ValidateT) => UnmarshalValidate(reg, v), t.configs.validate),
      Lift((r: RetryT) => UnmarshalRetry(reg, r), t.configs.retry);
    var sub := UnmarshalSub(reg, t);
    if guard.None? || executor.None? || factory.None? || filter.None? || validate.None? || retry.None? || sub.None? then None
    else
      Some(LiveTransition(t.id, t.kind, t.inputPlaces, t.outputPlaces, t.errorPlace, t.systemPrompt, t.toolName,
                          t.llmTools, t.observedCpnId, guard.value, executor.value, factory.value, filter.value,
                          t.configs.toolParameters, t.configs.llm, validate.value, t.configs.hitl, retry.value, sub.value))
  }

  function Unmarshal(reg: Registry, t: Topology): Option<LiveNet>
    decreases t, 0
  {
    if exists id :: id in t.transitions && UnmarshalTransition(reg, t.transitions[id]).None? then None
    else
      Some(LiveNet(t.id, t.role, t.depth, t.mode, t.places,
                   map id | id in t.transitions :: UnmarshalTransition(reg, t.transitions[id]).value))
  }

  // ---- Normal form, and the round trip ----

  predicate ShortEnough(ms: int64) {
    -MAX_MS <= ms <= MAX_MS
  }

  predicate NormalValidate(reg: Registry, v: ValidateT) {
    v.schemaFunc == "" && Stable(reg, ValidateFn, v.validateFunc) && Stable(reg, OnSuccess, v.onSuccessFunc)
  }

  predicate NormalRetry(reg: Registry, r: RetryT) {
    && Stable(reg, RetryOn, r.retryOnFunc) && ShortEnough(r.initialWaitMs) && ShortEnough(r.maxWaitMs)
    && (r.breaker.Some? ==> ShortEnough(r.breaker.value.openDurationMs))
  }

  /** Every function under a name it goes back to, no factory beside an inline sub-net, no
      schema, no retry function on the transition itself, no duration that overflows. */
  predicate NormalTransition(reg: Registry, t: Transition)
    decreases t
  {
    && Stable(reg, Guard, t.guardFunc) && Stable(reg, Executor, t.executorFunc) && Stable(reg, Factory, t.factoryFunc)
    && Stable(reg, EventFilter, t.eventFilterFunc)
    && t.retryOnFunc == ""
    && (t.configs.validate.Some? ==> NormalValidate(reg, t.configs.validate.value))
    && (t.configs.retry.Some? ==> NormalRetry(reg, t.configs.retry.value))
    && (t.subNet.Some? ==> t.factoryFunc == "" && NormalForm(reg, t.subNet.value))
  }

  predicate NormalForm(reg: Registry, t: Topology)
    decreases t
  {
    forall id :: id in t.transitions ==> NormalTransition(reg, t.transitions[id])
  }

  function RoundTrip(reg: Registry, t: Topology): Option<Topology> {
    match Unmarshal(reg, t)
    case None => None
    case Some(c) => Marshal(reg, c)
  }

  function TransitionRoundTrip(reg: Registry, t: Transition): Option<Transition> {
    match UnmarshalTransition(reg, t)
    case None => None
    case Some(c) => MarshalTransition(reg, c)
  }

  lemma {:induction false} ValidateBack(reg: Registry, v: ValidateT)
    ensures NormalValidate(reg, v) <==>
            UnmarshalValidate(reg, v).Some? && MarshalValidate(reg, UnmarshalValidate(reg, v).value) == Some(v)
  {
    hide Resolved, Named, Stable;
    NameBack(reg, ValidateFn, v.validateFunc);
    NameBack(reg, OnSuccess, v.onSuccessFunc);
    NoName(reg, Schema);
  }

  lemma {:induction false} NoName(reg: Registry, kind: FuncKind)
    ensures Resolved(reg, kind, "") == Some(None)
  {
  }

  lemma {:induction false} RetryBack(reg: Registry, r: RetryT)
    ensures NormalRetry(reg, r) <==>
            UnmarshalRetry(reg, r).Some? && MarshalRetry(reg, UnmarshalRetry(reg, r).value) == Some(r)
  {
    hide Resolved, Named, Stable, FromMs, ToMs;
    NameBack(reg, RetryOn, r.retryOnFunc);
    MsBack(r.initialWaitMs);
    MsBack(r.maxWaitMs);
    if r.breaker.Some? { MsBack(r.breaker.value.openDurationMs); }
  }

  lemma {:induction false} TransitionBack(reg: Registry, t: Transition)
    ensures TransitionRoundTrip(reg, t) == Some(t) <==> NormalTransition(reg, t)
    decreases t
  {
    hide Resolved, Named, Stable, NormalValidate, NormalRetry, Marshal, Unmarshal, NormalForm, UnmarshalValidate,
         MarshalValidate, UnmarshalRetry, MarshalRetry;
    NameBack(reg, Guard, t.guardFunc);
    NameBack(reg, Executor, t.executorFunc);
    NameBack(reg, Factory, t.factoryFunc);
    NameBack(reg, EventFilter, t.eventFilterFunc);
    if t.configs.validate.Some? { ValidateBack(reg, t.configs.validate.value); }
    if t.configs.retry.Some? { RetryBack(reg, t.configs.retry.value); }
    if t.subNet.Some? { RoundTripIffNormal(reg, t.subNet.value); }
    FactoryKept(reg, t.factoryFunc);
    if TransitionRoundTrip(reg, t) == Some(t) {
      var c := UnmarshalTransition(reg, t).value;
      assert c.guard == Resolved(reg, Guard, t.guardFunc).value;
      assert Named(reg, Guard, c.guard) == Some(t.guardFunc);
      assert Stable(reg, Guard, t.guardFunc);
      assert Stable(reg, Executor, t.executorFunc);
      assert Stable(reg, Factory, t.factoryFunc);
      assert Stable(reg, EventFilter, t.eventFilterFunc);
      assert t.retryOnFunc == "";
      assert t.configs.validate.Some? ==> NormalValidate(reg, t.configs.validate.value);
      assert t.configs.retry.Some? ==> NormalRetry(reg, t.configs.retry.value);
      assert MarshalSub(reg, c) == Some(t.subNet);
      assert t.subNet.Some? ==> t.factoryFunc == "";
      if t.subNet.Some? {
        assert c.factory == Resolved(reg, Factory, "").value == None;
        assert UnmarshalSub(reg, t) == Some(c.subNet);
        assert c.subNet.Some? && Unmarshal(reg, t.subNet.value) == Some(c.subNet.value);
        assert Marshal(reg, c.subNet.value) == Some(t.subNet.value);
        assert RoundTrip(reg, t.subNet.value) == Some(t.subNet.value);
      }
    }
    if NormalTransition(reg, t) {
      var c := UnmarshalTransition(reg, t);
      assert Lift((v: ValidateT) => UnmarshalValidate(reg, v), t.configs.validate).Some?;
      assert Lift((r: RetryT) => UnmarshalRetry(reg, r), t.configs.retry).Some?;
      assert UnmarshalSub(reg, t).Some?;
      assert MarshalSub(reg, c.value) == Some(t.subNet);
    }
  }

  lemma {:induction false} FactoryKept(reg: Registry, name: string)
    ensures Resolved(reg, Factory, name).Some? ==> (Resolved(reg, Factory, name).value.Some? <==> name != "")
  {
  }

  /** Loading a topology and saving it again gives the same topology exactly when it is in
      normal form, sub-nets included. */
  lemma {:induction false} RoundTripIffNormal(reg: Registry, t: Topology)
    ensures RoundTrip(reg, t) == Some(t) <==> NormalForm(reg, t)
    decreases t
  {
    hide UnmarshalTransition, MarshalTransition, NormalTransition;
    forall id | id in t.transitions
      ensures TransitionRoundTrip(reg, t.transitions[id]) == Some(t.transitions[id])
         <==> NormalTransition(reg, t.transitions[id])
    {
      TransitionBack(reg, t.transitions[id]);
    }
    if RoundTrip(reg, t) == Some(t) {
      forall id | id in t.transitions ensures TransitionRoundTrip(reg, t.transitions[id]) == Some(t.transitions[id]) {
        assert id in Unmarshal(reg, t).value.transitions;
        assert RoundTrip(reg, t).value.transitions[id] == t.transitions[id];
      }
    }
    if NormalForm(reg, t) {
      forall id | id in t.transitions ensures TransitionRoundTrip(reg, t.transitions[id]) == Some(t.transitions[id]) {
      }
      assert RoundTrip(reg, t).value.transitions == t.transitions;
    }
  }

  // ---- When a conversion fails ----

  /** A function of the live net that is registered under no name. */
  ghost predicate Unnamed(reg: Registry, kind: FuncKind, fn: Option<Func>) {
    fn.Some? && (kind, fn.value.code) !in reg.reverse
  }

  /** A name of the topology that is not registered. */
  ghost predicate Unknown(reg: Registry, kind: FuncKind, name: string) {
    name != "" && (kind, name) !in reg.names
  }

  /** Some function of the transition, or of a sub-net that no factory hides, has no name. */
  ghost predicate HasUnnamed(reg: Registry, t: LiveTransition)
    decreases t
  {
    || Unnamed(reg, Guard, t.guard) || Unnamed(reg, Executor, t.executor) || Unnamed(reg, Factory, t.factory)
    || Unnamed(reg, EventFilter, t.eventFilter)
    || (t.validate.Some? && (Unnamed(reg, ValidateFn, t.validate.value.validateFunc)
                             || Unnamed(reg, OnSuccess, t.validate.value.onSuccess)))
    || (t.retry.Some? && Unnamed(reg, RetryOn, t.retry.value.retryOn))
    || (t.factory.None? && t.subNet.Some?
        && exists id :: id in t.subNet.value.transitions && HasUnnamed(reg, t.subNet.value.transitions[id]))
  }

  ghost predicate HasUnknown(reg: Registry, t: Transition)
    decreases t
  {
    || Unknown(reg, Guard, t.guardFunc) || Unknown(reg, Executor, t.executorFunc) || Unknown(reg, Factory, t.factoryFunc)
    || Unknown(reg, EventFilter, t.eventFilterFunc)
    || (t.configs.validate.Some? && (Unknown(reg, Schema, t.configs.validate.value.schemaFunc)
                                     || Unknown(reg, ValidateFn, t.configs.validate.value.validateFunc)
                                     || Unknown(reg, OnSuccess, t.configs.validate.value.onSuccessFunc)))
    || (t.configs.retry.Some? && Unknown(reg, RetryOn, t.configs.retry.value.retryOnFunc))
    || (t.factoryFunc == "" && t.subNet.Some?
        && exists id :: id in t.subNet.value.transitions && HasUnknown(reg, t.subNet.value.transitions[id]))
  }

  lemma {:induction false} NamedUnless(reg: Registry, kind: FuncKind, fn: Option<Func>)
    ensures Named(reg, kind, fn).None? <==> Unnamed(reg, kind, fn)
  {
  }

  lemma {:induction false} ResolvedUnless(reg: Registry, kind: FuncKind, name: string)
    ensures Resolved(reg, kind, name).None? <==> Unknown(reg, kind, name)
  {
  }

  lemma {:induction false} TransitionSaved(reg: Registry, t: LiveTransition)
    ensures MarshalTransition(reg, t).None? <==> HasUnnamed(reg, t)
    decreases t
  {
    hide Named, Unnamed, ToMs;
    NamedUnless(reg, Guard, t.guard);
    NamedUnless(reg, Executor, t.executor);
    NamedUnless(reg, Factory, t.factory);
    NamedUnless(reg, EventFilter, t.eventFilter);
    if t.validate.Some? {
      NamedUnless(reg, ValidateFn, t.validate.value.validateFunc);
      NamedUnless(reg, OnSuccess, t.validate.value.onSuccess);
    }
    if t.retry.Some? { NamedUnless(reg, RetryOn, t.retry.value.retryOn); }
    if t.subNet.Some? { SavedUnlessUnnamed(reg, t.subNet.value); }
  }

  /** A live net can be saved exactly when every function in it, down through its inline
      sub-nets, is registered under some name. */
  lemma {:induction false} SavedUnlessUnnamed(reg: Registry, c: LiveNet)
    ensures Marshal(reg, c).None? <==> exists id :: id in c.transitions && HasUnnamed(reg, c.transitions[id])
    decreases c
  {
    hide MarshalTransition, HasUnnamed;
    forall id | id in c.transitions
      ensures MarshalTransition(reg, c.transitions[id]).None? <==> HasUnnamed(reg, c.transitions[id])
    {
      TransitionSaved(reg, c.transitions[id]);
    }
  }

  lemma {:induction false} TransitionLoaded(reg: Registry, t: Transition)
    ensures UnmarshalTransition(reg, t).None? <==> HasUnknown(reg, t)
    decreases t
  {
    hide Resolved, Unknown, FromMs;
    ResolvedUnless(reg, Guard, t.guardFunc);
    ResolvedUnless(reg, Executor, t.executorFunc);
    ResolvedUnless(reg, Factory, t.factoryFunc);
    ResolvedUnless(reg, EventFilter, t.eventFilterFunc);
    if t.configs.validate.Some? {
      ResolvedUnless(reg, Schema, t.configs.validate.value.schemaFunc);
      ResolvedUnless(reg, ValidateFn, t.configs.validate.value.validateFunc);
      ResolvedUnless(reg, OnSuccess, t.configs.validate.value.onSuccessFunc);
    }
    if t.configs.retry.Some? { ResolvedUnless(reg, RetryOn, t.configs.retry.value.retryOnFunc); }
    if t.subNet.Some? { LoadedUnlessUnknown(reg, t.subNet.value); }
  }

  /** A topology can be loaded exactly when every name in it, down through its inline
      sub-nets, is registered. */
  lemma {:induction false} LoadedUnlessUnknown(reg: Registry, t: Topology)
    ensures Unmarshal(reg, t).None? <==> exists id :: id in t.transitions && HasUnknown(reg, t.transitions[id])
    decreases t
  {
    hide UnmarshalTransition, HasUnknown;
    forall id | id in t.transitions
      ensures UnmarshalTransition(reg, t.transitions[id]).None? <==> HasUnknown(reg, t.transitions[id])
    {
      TransitionLoaded(reg, t.transitions[id]);
    }
  }

  // ---- The two conversions, maps walked in any order ----

  /** `MarshalCPN`: stops at the first transition that cannot be saved. */
  method MarshalCpn(c: LiveNet, registry: FuncRegistry) returns (topo: Option<Topology>)
    ensures topo == Marshal(registry.reg, c)
    ensures topo == None <==> exists id :: id in c.transitions && HasUnnamed(registry.reg, c.transitions[id])
  {
    hide MarshalTransition, HasUnnamed;
    SavedUnlessUnnamed(registry.reg, c);
    var transitions: map<string, Transition> := map[];
    var pending := c.transitions.Keys;
    while pending != {}
      invariant pending <= c.transitions.Keys && transitions.Keys == c.transitions.Keys - pending
      invariant forall id :: id in transitions ==>
        MarshalTransition(registry.reg, c.transitions[id]) == Some(transitions[id])
    {
      var id :| id in pending;
      pending := pending - {id};
      var tt := MarshalTransition(registry.reg, c.transitions[id]);
      if tt.None? {
        return None;
      }
      transitions := transitions[id := tt.value];
    }
    topo := Some(T.TopologyT(c.id, c.role, c.depth, c.mode, c.places, transitions));
    assert transitions == map id | id in c.transitions :: MarshalTransition(registry.reg, c.transitions[id]).value;
  }

  /** `UnmarshalCPN`: stops at the first transition with an unknown name. */
  method UnmarshalCpn(t: Topology, registry: FuncRegistry) returns (c: Option<LiveNet>)
    ensures c == Unmarshal(registry.reg, t)
    ensures c == None <==> exists id :: id in t.transitions && HasUnknown(registry.reg, t.transitions[id])
  {
    hide UnmarshalTransition, HasUnknown;
    LoadedUnlessUnknown(registry.reg, t);
    var transitions: map<string, LiveTransition> := map[];
    var pending := t.transitions.Keys;
    while pending != {}
      invariant pending <= t.transitions.Keys && transitions.Keys == t.transitions.Keys - pending
      invariant forall id :: id in transitions ==>
        UnmarshalTransition(registry.reg, t.transitions[id]) == Some(transitions[id])
    {
      var id :| id in pending;
      pending := pending - {id};
      var live := UnmarshalTransition(registry.reg, t.transitions[id]);
      if live.None? {
        return None;
      }
      transitions := transitions[id := live.value];
    }
    c := Some(LiveNet(t.id, t.role, t.depth, t.mode, t.places, transitions));
    assert transitions == map id | id in t.transitions :: UnmarshalTransition(registry.reg, t.transitions[id]).value;
  }
}
