/** The assistant's own net (topologies.go, reassess.go, reassess_builders.go): one control
    token walks from the user's message to the answer, a counter token bounds the
    clarification loop.  LLM and human answers are arbitrary; the JSON decoders are
    parameters, so every claim holds for all payloads. */
module Unified {
  import opened Wrappers
  import opened Order
  import opened Net
  import opened NetLaws
  import opened FiringLaws
  import opened Machine

  // ---- Decoded payloads and configuration ----

  /** A float64 read from the environment: `ParseFloat` accepts "NaN" and "Inf". */
  datatype Float = NaN | Inf(positive: bool) | Num(value: real)

  datatype ClassifierResult = ClassifierResult(task: bool, needsClarification: bool, confidence: Option<real>)

  datatype Decision = ClarifyAgain | ProceedToPlan | RequestUserChoice

  datatype ReassessResult = ReassessResult(residualAmbiguity: real, missingDimensions: seq<string>,
                                           contradiction: bool, topicShift: bool, decision: Decision,
                                           nextQuestions: Option<string>)

  datatype RoundToken = RoundToken(n: int64, reset: bool)

  /** The JSON decoders and encoders, each a function of the payload. */
  datatype Codec = Codec(classified: string -> Option<ClassifierResult>,
                         reassess: string -> Option<ReassessResult>,
                         round: string -> Option<RoundToken>,
                         encodeRound: RoundToken -> string,
                         encodeHatch: ReassessResult -> string,
                         preamble: (Option<ReassessResult>, Option<RoundToken>) -> string)

  datatype Setup = Setup(owner: Owner, codec: Codec, maxRounds: int, clarifyThreshold: Float,
                         confidenceThreshold: Float)

  /** `parseMaxRounds`: anything outside [1, 5] is the default. */
  function ParseMaxRounds(n: Option<int>): (rounds: int)
    ensures 1 <= rounds <= 5
  {
    if n.Some? && 1 <= n.value <= 5 then n.value else 3
  }

  predicate Below(x: real, threshold: Float) {
    match threshold
    case NaN => false
    case Inf(positive) => positive
    case Num(value) => x < value
  }

  predicate AtLeast(x: real, threshold: Float) {
    match threshold
    case NaN => false
    case Inf(positive) => !positive
    case Num(value) => x >= value
  }

  // ---- Parsers: the first token whose payload decodes ----

  function First<T>(decode: string -> Option<T>, tokens: seq<Token>): Option<T> {
    if tokens == [] then None
    else if decode(tokens[0].payload).Some? then decode(tokens[0].payload)
    else First(decode, tokens[1..])
  }

  // ---- Guards ----

  function Confidence(r: ClassifierResult): real {
    if r.confidence.Some? then r.confidence.value else 1.0
  }

  predicate DirectConversation(u: Setup, tokens: seq<Token>) {
    var r := First(u.codec.classified, tokens);
    r.Some? ==> !r.value.task
  }

  predicate NeedsClarification(u: Setup, tokens: seq<Token>) {
    var r := First(u.codec.classified, tokens);
    r.Some? && r.value.task && (r.value.needsClarification || Below(Confidence(r.value), u.confidenceThreshold))
  }

  predicate PlanTaskDirect(u: Setup, tokens: seq<Token>) {
    var r := First(u.codec.classified, tokens);
    r.Some? && r.value.task && !r.value.needsClarification && AtLeast(Confidence(r.value), u.confidenceThreshold)
  }

  /** Room for another round, no request to plan, no second contradiction, and either an
      escape hatch or something left to ask. */
  predicate ResidualAmbiguous(u: Setup, tokens: seq<Token>) {
    var rr, rt := First(u.codec.reassess, tokens), First(u.codec.round, tokens);
    if rr.None? || rt.None? then false
    else if Wrap64(rt.value.n + 1) >= u.maxRounds then false
    else if rr.value.decision == ProceedToPlan then false
    else if rr.value.contradiction && rt.value.n >= 1 then false
    else if rr.value.decision == RequestUserChoice then true
    else !Below(rr.value.residualAmbiguity, u.clarifyThreshold) && rr.value.missingDimensions != []
  }

  // ---- Handlers ----

  function NextRound(rr: ReassessResult, rt: RoundToken): RoundToken {
    if rr.topicShift then RoundToken(0, true)
    else if rr.decision == RequestUserChoice then RoundToken(rt.n, false)
    else RoundToken(Wrap64(rt.n + 1), false)
  }

  function Made(color: Color, payload: string): Token {
    Token(color, payload, NoSpace, "", 0, NoKind, "")
  }

  function FollowupDeposits(u: Setup, rr: ReassessResult, rt: RoundToken): Result<map<string, Token>, string> {
    if rr.decision != RequestUserChoice && rr.nextQuestions.None? then Err("next_questions is nil")
    else
      var questions := if rr.decision == RequestUserChoice then u.codec.encodeHatch(rr) else rr.nextQuestions.value;
      Ok(map[PlaceId(Questions) := Made(ColorJSON, questions),
             RoundId() := Made(ColorJSON, u.codec.encodeRound(NextRound(rr, rt)))])
  }

  function Followup(u: Setup, tokens: seq<Token>): Result<map<string, Token>, string> {
    var rr, rt := First(u.codec.reassess, tokens), First(u.codec.round, tokens);
    if rr.None? then Err("unparseable reassess token")
    else FollowupDeposits(u, rr.value, if rt.Some? then rt.value else RoundToken(0, false))
  }

  function Preplan(u: Setup, tokens: seq<Token>): Result<map<string, Token>, string> {
    var text := u.codec.preamble(First(u.codec.reassess, tokens), First(u.codec.round, tokens));
    Ok(map[PlaceId(PlannerInput) := Made(ColorString, text)])
  }

  // ---- The net ----

  datatype Spot =
    | Input | Classified | Questions | Clarified | Reassessed | PlannerInput | Plan | Reviewed | Output

  function PlaceId(spot: Spot): string {
    match spot
    case Input => "p-input"
    case Classified => "p-classified"
    case Questions => "p-questions"
    case Clarified => "p-clarified"
    case Reassessed => "p-reassessed"
    case PlannerInput => "p-planner-input"
    case Plan => "p-plan"
    case Reviewed => "p-reviewed"
    case Output => "p-output"
  }

  function RoundId(): string {
    "p-round"
  }

  function HostId(): string {
    "p-host-capabilities"
  }

  function SpotOf(p: string): Option<Spot> {
    if p == "p-input" then Some(Input)
    else if p == "p-classified" then Some(Classified)
    else if p == "p-questions" then Some(Questions)
    else if p == "p-clarified" then Some(Clarified)
    else if p == "p-reassessed" then Some(Reassessed)
    else if p == "p-planner-input" then Some(PlannerInput)
    else if p == "p-plan" then Some(Plan)
    else if p == "p-reviewed" then Some(Reviewed)
    else if p == "p-output" then Some(Output)
    else None
  }

  function SpotDef(spot: Spot): PlaceDef {
    match spot
    case Input => PlaceDef(ColorString, Surface)
    case Classified => PlaceDef(ColorJSON, Surface)
    case Questions => PlaceDef(ColorJSON, Surface)
    case Clarified => PlaceDef(ColorString, Surface)
    case Reassessed => PlaceDef(ColorJSON, Surface)
    case PlannerInput => PlaceDef(ColorString, Surface)
    case Plan => PlaceDef(ColorArtifact, Surface)
    case Reviewed => PlaceDef(ColorHuman, Computation)
    case Output => PlaceDef(ColorArtifact, Surface)
  }

  function Places(): map<string, PlaceDef> {
    map p | p in (set spot: Spot :: PlaceId(spot)) + {RoundId(), HostId()} ::
      if SpotOf(p).Some? then SpotDef(SpotOf(p).value)
      else if p == RoundId() then PlaceDef(ColorJSON, Surface)
      else PlaceDef(ColorHostFact, Computation)
  }

  function Plain(id: string, kind: Kind, inputs: seq<string>, outputs: seq<string>,
                 guard: Option<Guard>, handler: Option<Handler>): TransitionDef
  {
    TransitionDef(id, kind, inputs, outputs, "", guard, handler, false, 0,
                  if kind == HITL then Some(true) else None, None, None, {}, false)
  }

  datatype Step =
    | Classify | Direct | Ask | PlanDirect | Clarify | Reassess | FollowUp | PrePlan | PlanClarified | Review | Execute

  function Id(step: Step): string {
    match step
    case Classify => "t-classify"
    case Direct => "t-direct"
    case Ask => "t-ask"
    case PlanDirect => "t-plan-direct"
    case Clarify => "t-clarify"
    case Reassess => "t-reassess"
    case FollowUp => "t-followup"
    case PrePlan => "t-preplanner"
    case PlanClarified => "t-plan-clarified"
    case Review => "t-review"
    case Execute => "t-execute"
  }

  /** The flow place a step takes its control token from, and the one it moves it to. */
  function From(step: Step): Spot {
    match step
    case Classify => Input
    case Direct | Ask | PlanDirect => Classified
    case Clarify => Questions
    case Reassess => Clarified
    case FollowUp | PrePlan => Reassessed
    case PlanClarified => PlannerInput
    case Review => Plan
    case Execute => Reviewed
  }

  function To(step: Step): Spot {
    match step
    case Classify => Classified
    case Direct | Execute => Output
    case Ask | FollowUp => Questions
    case PlanDirect | PlanClarified => Plan
    case Clarify => Clarified
    case Reassess => Reassessed
    case PrePlan => PlannerInput
    case Review => Reviewed
  }

  predicate TakesRound(step: Step) {
    step == FollowUp || step == PrePlan
  }

  function Inputs(step: Step): seq<string> {
    if TakesRound(step) then [PlaceId(From(step)), RoundId()] else [PlaceId(From(step))]
  }

  function Outputs(step: Step): seq<string> {
    if step == FollowUp then [PlaceId(To(step)), RoundId()] else [PlaceId(To(step))]
  }

  function KindOf(step: Step): Kind {
    match step
    case Clarify | Review => HITL
    case FollowUp | PrePlan => Tool
    case _ => LLM
  }

  predicate Guarded(step: Step) {
    step in {Direct, Ask, PlanDirect, FollowUp, PrePlan, PlanClarified}
  }

  predicate Allows(u: Setup, step: Step, tokens: seq<Token>) {
    match step
    case Direct => DirectConversation(u, tokens)
    case Ask => NeedsClarification(u, tokens)
    case PlanDirect => PlanTaskDirect(u, tokens)
    case FollowUp => ResidualAmbiguous(u, tokens)
    case PrePlan => !ResidualAmbiguous(u, tokens)
    case _ => true
  }

  function Def(u: Setup, step: Step): TransitionDef {
    Plain(Id(step), KindOf(step), Inputs(step), Outputs(step),
          if Guarded(step) then Some(tokens => Allows(u, step, tokens)) else None,
          if step == FollowUp then Some(tokens => Followup(u, tokens))
          else if step == PrePlan then Some(tokens => Preplan(u, tokens))
          else None)
  }

  /** A system tool: an LLM transition calls it by name; it has no arcs. */
  function SystemTool(id: string): TransitionDef {
    Plain(id, Tool, [], [], None, None)
  }

  predicate IsSystemTool(id: string) {
    id == "bash_exec" || id == "file_read" || id == "file_write"
  }

  function StepOf(id: string): Option<Step> {
    if id == "t-classify" then Some(Classify)
    else if id == "t-direct" then Some(Direct)
    else if id == "t-ask" then Some(Ask)
    else if id == "t-plan-direct" then Some(PlanDirect)
    else if id == "t-clarify" then Some(Clarify)
    else if id == "t-reassess" then Some(Reassess)
    else if id == "t-followup" then Some(FollowUp)
    else if id == "t-preplanner" then Some(PrePlan)
    else if id == "t-plan-clarified" then Some(PlanClarified)
    else if id == "t-review" then Some(Review)
    else if id == "t-execute" then Some(Execute)
    else None
  }

  function Transitions(u: Setup): map<string, TransitionDef> {
    map id | id in (set step: Step :: Id(step)) + {"bash_exec", "file_read", "file_write"} ::
      if StepOf(id).Some? then Def(u, StepOf(id).value) else SystemTool(id)
  }

  function Unified(u: Setup): Net {
    Net(u.owner, Places(), Transitions(u))
  }

  lemma {:induction false} SpotOfId(spot: Spot)
    ensures SpotOf(PlaceId(spot)) == Some(spot) && PlaceId(spot) != RoundId() && PlaceId(spot) != HostId()
  {
  }

  lemma {:induction false} PlacesAre()
    ensures forall spot :: PlaceId(spot) in Places() && Places()[PlaceId(spot)] == SpotDef(spot)
    ensures forall a, b :: PlaceId(a) == PlaceId(b) ==> a == b
    ensures forall a :: PlaceId(a) != RoundId() && PlaceId(a) != HostId()
    ensures forall p :: p in Places() <==> p == RoundId() || p == HostId() || exists spot :: p == PlaceId(spot)
    ensures RoundId() != HostId()
    ensures Places()[RoundId()] == PlaceDef(ColorJSON, Surface) && Places()[HostId()] == PlaceDef(ColorHostFact, Computation)
  {
    forall spot
      ensures SpotOf(PlaceId(spot)) == Some(spot) && PlaceId(spot) != RoundId() && PlaceId(spot) != HostId()
    {
      SpotOfId(spot);
    }
    assert SpotOf(RoundId()) == None && SpotOf(HostId()) == None;
    hide PlaceId, SpotDef, SpotOf;
  }

  lemma {:induction false} StepOfId(step: Step)
    ensures StepOf(Id(step)) == Some(step) && !IsSystemTool(Id(step))
  {
  }

  lemma {:induction false} TransitionsAre(u: Setup)
    ensures forall step :: Id(step) in Unified(u).transitions && Unified(u).transitions[Id(step)] == Def(u, step)
    ensures forall a, b :: Id(a) == Id(b) ==> a == b
    ensures forall id :: id in Unified(u).transitions <==> IsSystemTool(id) || exists step :: id == Id(step)
    ensures forall id :: IsSystemTool(id) ==> Unified(u).transitions[id] == SystemTool(id)
  {
    forall step ensures StepOf(Id(step)) == Some(step) && !IsSystemTool(Id(step)) {
      StepOfId(step);
    }
    forall id | IsSystemTool(id) ensures StepOf(id) == None {
    }
    hide Id, Def, StepOf;
  }

  // ---- What is enabled where the control token is ----

  /** One control token across the nine flow places, the counter with it until the loop
      is left, and the host capabilities known. */
  ghost predicate At(m: Marking, spot: Spot) {
    && m.Keys == Places().Keys
    && (forall other: Spot :: |m[PlaceId(other)]| == if other == spot then 1 else 0)
    && |m[RoundId()]| <= 1
    && (spot in {Input, Classified, Questions, Clarified, Reassessed} ==> |m[RoundId()]| == 1)
    && m[HostId()] != []
  }

  function NextStep(u: Setup, m: Marking, spot: Spot): Option<Step>
    requires PlaceId(Classified) in m && PlaceId(Reassessed) in m && RoundId() in m
  {
    var classified, reassessed := m[PlaceId(Classified)], m[PlaceId(Reassessed)] + m[RoundId()];
    match spot
    case Input => Some(Classify)
    case Classified =>
      if DirectConversation(u, classified) then Some(Direct)
      else if NeedsClarification(u, classified) then Some(Ask)
      else if PlanTaskDirect(u, classified) then Some(PlanDirect)
      else None
    case Questions => Some(Clarify)
    case Clarified => Some(Reassess)
    case Reassessed => if ResidualAmbiguous(u, reassessed) then Some(FollowUp) else Some(PrePlan)
    case PlannerInput => Some(PlanClarified)
    case Plan => Some(Review)
    case Reviewed => Some(Execute)
    case Output => None
  }

  lemma {:induction false} EnabledOne(net: Net, mode: Mode, m: Marking, t: TransitionDef, p: string)
    requires t.inputs == [p] && p in m && !t.deprecated && !NeedsBothOrigins(net, mode, t)
    ensures Enabled(net, mode, m, t) <==> m[p] != [] && (t.guard.Some? ==> t.guard.value(m[p]))
  {
    assert t.inputs[1..] == [];
    assert Queued(m, t.inputs) == m[p] + [] == m[p];
  }

  lemma {:induction false} EnabledTwo(net: Net, mode: Mode, m: Marking, t: TransitionDef, p: string, q: string)
    requires t.inputs == [p, q] && p in m && q in m && !t.deprecated && !NeedsBothOrigins(net, mode, t)
    ensures Enabled(net, mode, m, t) <==> m[p] != [] && m[q] != [] && (t.guard.Some? ==> t.guard.value(m[p] + m[q]))
  {
    assert t.inputs[1..] == [q] && [q][1..] == [];
    assert Queued(m, [q]) == m[q] + [] == m[q];
    assert Queued(m, t.inputs) == m[p] + m[q];
  }

  lemma {:induction false} PlaceFacts(spot: Spot)
    ensures PlaceId(spot) in Places() && Places()[PlaceId(spot)] == SpotDef(spot)
    ensures RoundId() in Places() && Places()[RoundId()] == PlaceDef(ColorJSON, Surface)
  {
    hide PlaceId, RoundId, HostId, Places, SpotDef;
    PlacesAre();
  }

  /** Centaurian mode changes nothing: only the review, which is human, feeds computation. */
  lemma {:induction false} NoInjectedGuard(u: Setup, mode: Mode, step: Step)
    ensures !NeedsBothOrigins(Unified(u), mode, Def(u, step))
  {
    hide PlaceId, SpotOf, RoundId, HostId, Places, Transitions, Inputs, Id, Allows, Followup, Preplan, From, Guarded;
    PlaceFacts(To(step));
    assert Def(u, step).outputs == Outputs(step) && Def(u, step).kind == KindOf(step);
  }

  lemma {:induction false} EnabledIs(u: Setup, mode: Mode, m: Marking, step: Step)
    requires m.Keys == Places().Keys
    ensures PlaceId(From(step)) in m && RoundId() in m
    ensures Enabled(Unified(u), mode, m, Def(u, step)) <==>
      && m[PlaceId(From(step))] != []
      && (TakesRound(step) ==> m[RoundId()] != [])
      && Allows(u, step, m[PlaceId(From(step))] + if TakesRound(step) then m[RoundId()] else [])
  {
    hide PlaceId, SpotOf, Id, StepOf, Places, Transitions, Unified, NeedsBothOrigins, From, RoundId, HostId,
         Enabled, To, KindOf, DirectConversation, NeedsClarification, PlanTaskDirect, ResidualAmbiguous;
    PlacesAre();
    NoInjectedGuard(u, mode, step);
    var p := PlaceId(From(step));
    if TakesRound(step) {
      EnabledTwo(Unified(u), mode, m, Def(u, step), p, RoundId());
    } else {
      EnabledOne(Unified(u), mode, m, Def(u, step), p);
      assert m[p] + [] == m[p];
    }
  }

  lemma {:induction false} FirableIs(u: Setup, mode: Mode, m: Marking, step: Step)
    requires m.Keys == Places().Keys
    ensures PlaceId(From(step)) in m && RoundId() in m
    ensures Firable(Unified(u), mode, m, Id(step)) <==>
      && m[PlaceId(From(step))] != []
      && (TakesRound(step) ==> m[RoundId()] != [])
      && Allows(u, step, m[PlaceId(From(step))] + if TakesRound(step) then m[RoundId()] else [])
  {
    hide PlaceId, Id, StepOf, Allows, Places, Unified, From, RoundId, Enabled, Inputs, Outputs, Guarded;
    EnabledIs(u, mode, m, step);
    TransitionsAre(u);
  }

  lemma {:induction false} NextIs(u: Setup, m: Marking, spot: Spot, step: Step)
    requires At(m, spot)
    ensures PlaceId(Classified) in m && PlaceId(Reassessed) in m && PlaceId(From(step)) in m && RoundId() in m
    ensures NextStep(u, m, spot) == Some(step) <==>
      && m[PlaceId(From(step))] != []
      && (TakesRound(step) ==> m[RoundId()] != [])
      && Allows(u, step, m[PlaceId(From(step))] + if TakesRound(step) then m[RoundId()] else [])
  {
    hide PlaceId, Places, RoundId, HostId, ResidualAmbiguous, First;
    PlacesAre();
    var p := PlaceId(From(step));
    assert |m[p]| == if From(step) == spot then 1 else 0;
    assert m[p] + [] == m[p];
  }

  lemma {:induction false} AtKeys(m: Marking, spot: Spot)
    requires At(m, spot)
    ensures m.Keys == Places().Keys
  {
  }

  lemma {:induction false} ExactlyNext(u: Setup, mode: Mode, m: Marking, spot: Spot)
    requires At(m, spot)
    ensures PlaceId(Classified) in m && PlaceId(Reassessed) in m && RoundId() in m
    ensures FirableSet(Unified(u), mode, m) ==
            match NextStep(u, m, spot) { case None => {} case Some(step) => {Id(step)} }
  {
    hide PlaceId, Id, StepOf, Unified, RoundId, Firable, NextStep, At, IsSystemTool, Allows;
    NextIs(u, m, spot, Classify);
    forall step
      ensures Firable(Unified(u), mode, m, Id(step)) <==> NextStep(u, m, spot) == Some(step)
    {
      NextIs(u, m, spot, step);
      AtKeys(m, spot);
      FirableIs(u, mode, m, step);
    }
    TransitionsAre(u);
    forall id | id in Unified(u).transitions && Firable(Unified(u), mode, m, id)
      ensures exists step :: id == Id(step)
    {
      if IsSystemTool(id) { ToolsIdle(u, mode, m, id); }
    }
  }

  lemma {:induction false} ToolsIdle(u: Setup, mode: Mode, m: Marking, id: string)
    requires IsSystemTool(id)
    ensures !Firable(Unified(u), mode, m, id)
  {
    TransitionsAre(u);
    hide Id, StepOf, Transitions;
  }

  // ---- One round moves the control token by one step ----

  /** When one transition without breaker, retries or error place is enabled, a round
      is exactly its firing. */
  lemma {:induction false} OneFiring(net: Net, s: NetState, c: Choices, s': NetState, id: string)
    requires Round(net, s, c, s') && FirableSet(net, s.mode, s.m) == {id}
    requires forall k :: k in net.transitions ==> !net.transitions[k].hasBreaker
    requires id in net.transitions && net.transitions[id].errorPlace == "" && net.transitions[id].maxAttempts <= 1
    ensures var t := net.transitions[id];
            var taken := Consume(s.m, t.inputs);
            && c.order == [id]
            && |c.outcomes| == 1 && LegalOutcome(net, Firing(t, taken.taken), c.outcomes[0])
            && c.outcomes[0].error.None?
            && multiset(c.landed) == multiset(c.outcomes[0].deposits)
            && s'.m == PutAll(taken.rest, c.landed)
  {
    hide Consume, LegalOutcome, ModeAfter, HumanBridged, FirableSet, Enabled, Routed, Failures;
    assert c.refused == {};
    assert {id} - {} == {id};
    EnumerationMembers(c.order, {id});
    assert c.order == [c.order[0]] && c.order[0] == id;
    OneInBatch(net, s.mode, s.m, id);
    OneOutcome(net, TakeBatch(net, s.mode, s.m, [id]).firings, c.outcomes, c.handled, c.errors);
    assert c.errors == [];
  }

  lemma {:induction false} OneInBatch(net: Net, mode: Mode, m: Marking, id: string)
    requires id in FirableSet(net, mode, m)
    ensures id in net.transitions
    ensures var t := net.transitions[id];
            var taken := Consume(m, t.inputs);
            TakeBatch(net, mode, m, [id]) == Batch(taken.rest, [Firing(t, taken.taken)])
  {
    hide Consume, Enabled;
    assert [id][1..] == [];
    var t := net.transitions[id];
    var taken := Consume(m, t.inputs);
    assert TakeBatch(net, mode, taken.rest, []) == Batch(taken.rest, []);
    assert [Firing(t, taken.taken)] + [] == [Firing(t, taken.taken)];
  }

  lemma {:induction false} OneOutcome(net: Net, firings: seq<Firing>, outs: seq<Outcome>, handled: seq<nat>, errors: seq<Deposit>)
    requires |firings| == |outs| == 1 && firings[0].transition.errorPlace == ""
    requires Routed(net, firings, outs, handled, errors) && Enumerates(handled, Failures(outs))
    ensures outs[0].error.None?
    ensures AllDeposits(outs) == outs[0].deposits && errors == []
  {
    assert outs[1..] == [] && firings[1..] == [];
    assert AllDeposits([]) == [];
    assert outs[0].deposits + [] == outs[0].deposits;
    if outs[0].error.Some? {
      FailureRouted(net, firings, outs, handled, errors, 0);
    } else {
      EnumerationMembers(handled, Failures(outs));
      assert Failures(outs) == {};
    }
  }

  lemma {:induction false} FailureRouted(net: Net, firings: seq<Firing>, outs: seq<Outcome>, handled: seq<nat>,
                                         errors: seq<Deposit>, i: nat)
    requires |firings| == |outs| && i < |outs| && outs[i].error.Some?
    requires Routed(net, firings, outs, handled, errors) && Enumerates(handled, Failures(outs))
    ensures firings[i].transition.errorPlace != ""
  {
    EnumerationMembers(handled, Failures(outs));
    assert i in handled;
  }

  /** Deposits to distinct places land the same in any order. */
  lemma {:induction false} LandedOnce(ds: seq<Deposit>, landed: seq<Deposit>, p: string)
    requires multiset(landed) == multiset(ds) && NoRepeats(DepositPlaces(ds))
    ensures |Sent(landed, p)| == if p in DepositPlaces(ds) then 1 else 0
    ensures forall i :: 0 <= i < |ds| && ds[i].place == p ==> Sent(landed, p) == [ds[i].token]
  {
    assert multiset(Sent(landed, p)) == multiset(Sent(ds, p)) by {
      forall tok ensures multiset(Sent(landed, p))[tok] == multiset(Sent(ds, p))[tok] {
        SentCount(landed, p, tok);
        SentCount(ds, p, tok);
      }
    }
    SentOnce(ds, p);
    assert |multiset(Sent(landed, p))| == |multiset(Sent(ds, p))|;
    if i :| 0 <= i < |ds| && ds[i].place == p {
      assert DepositPlaces(ds)[i] == p;
      assert Sent(landed, p)[0] in multiset(Sent(ds, p));
    }
  }

  lemma {:induction false} SentOnce(ds: seq<Deposit>, p: string)
    requires NoRepeats(DepositPlaces(ds))
    ensures |Sent(ds, p)| == if p in DepositPlaces(ds) then 1 else 0
    ensures forall i :: 0 <= i < |ds| && ds[i].place == p ==> Sent(ds, p) == [ds[i].token]
    decreases |ds|
  {
    if ds != [] {
      var names := DepositPlaces(ds);
      assert DepositPlaces(ds[1..]) == names[1..];
      SentOnce(ds[1..], p);
      assert p in names <==> p == names[0] || p in names[1..];
      if p in names[1..] { assert names[0] != p; }
      forall i | 0 < i < |ds| && ds[i].place == p ensures Sent(ds, p) == [ds[i].token] {
        assert ds[1..][i-1] == ds[i] && names[i] == p;
      }
    }
  }

  ghost predicate Moved(m: Marking, inputs: seq<string>, outputs: seq<string>, m': Marking) {
    && m'.Keys == m.Keys && Marked(m, inputs)
    && forall p :: p in m ==>
         var kept := if p in inputs then m[p][1..] else m[p];
         kept <= m'[p] && |m'[p]| == |kept| + if p in outputs then 1 else 0
  }

  ghost predicate Delivered(ds: seq<Deposit>, m': Marking) {
    forall i :: 0 <= i < |ds| && ds[i].place in m' ==>
      m'[ds[i].place] != [] && m'[ds[i].place][|m'[ds[i].place]| - 1] == ds[i].token
  }

  lemma {:induction false} LandingDelivers(m: Marking, ds: seq<Deposit>, landed: seq<Deposit>)
    requires multiset(landed) == multiset(ds) && NoRepeats(DepositPlaces(ds))
    ensures Delivered(ds, PutAll(m, landed))
    ensures PutAll(m, landed).Keys == m.Keys
    ensures forall p :: p in m ==>
              && m[p] <= PutAll(m, landed)[p]
              && |PutAll(m, landed)[p]| == |m[p]| + if p in DepositPlaces(ds) then 1 else 0
  {
    hide NoRepeats, DepositPlaces, PutAll;
    PutAllQueues(m, landed);
    forall p | p in m
      ensures |Sent(landed, p)| == if p in DepositPlaces(ds) then 1 else 0
      ensures forall i :: 0 <= i < |ds| && ds[i].place == p ==> Sent(landed, p) == [ds[i].token]
    {
      LandedOnce(ds, landed, p);
    }
  }

  /** A firing that succeeds takes one token from each input and leaves one in each output;
      a handler's tokens are the ones it computed from the consumed tokens. */
  lemma {:induction false} FiringMoves(net: Net, s: NetState, c: Choices, s': NetState, id: string)
    requires Round(net, s, c, s') && FirableSet(net, s.mode, s.m) == {id}
    requires forall k :: k in net.transitions ==> !net.transitions[k].hasBreaker
    requires id in net.transitions && net.transitions[id].errorPlace == "" && net.transitions[id].maxAttempts <= 1
    requires NoRepeats(net.transitions[id].inputs) && NoRepeats(net.transitions[id].outputs)
    requires FillsOutputs(net.transitions[id].kind)
    requires Marked(s.m, net.transitions[id].inputs)
    ensures c.order == [id]
    ensures Moved(s.m, net.transitions[id].inputs, net.transitions[id].outputs, s'.m)
    ensures var t := net.transitions[id];
            t.kind == Tool && t.handler.Some? ==>
              var o := HandlerOutcome(net, t, TokensOf(Consume(s.m, t.inputs).taken));
              o.error.None? && Delivered(o.deposits, s'.m)
  {
    hide FirableSet, Round, PutAll, Delivered, NoRepeats, Consume, HandlerOutcome, TokensOf, DepositPlaces, LegalOutcome,
         EndsWith, FillsOutputs;
    OneFiring(net, s, c, s', id);
    var t := net.transitions[id];
    var taken := Consume(s.m, t.inputs);
    FiringFills(net, Firing(t, taken.taken), c.outcomes[0]);
    ConsumeHeads(s.m, t.inputs);
    LandingDelivers(taken.rest, c.outcomes[0].deposits, c.landed);
  }

  lemma {:induction false} TwoDistinct(a: string, b: string)
    requires a != b
    ensures NoRepeats([a]) && NoRepeats([a, b])
  {
  }

  lemma {:induction false} DefFacts(u: Setup, step: Step)
    ensures Id(step) in Unified(u).transitions && Unified(u).transitions[Id(step)] == Def(u, step)
    ensures forall k :: k in Unified(u).transitions ==> !Unified(u).transitions[k].hasBreaker
    ensures var t := Def(u, step);
            && t.errorPlace == "" && t.maxAttempts == 0 && t.inputs == Inputs(step) && t.outputs == Outputs(step)
            && NoRepeats(t.inputs) && NoRepeats(t.outputs) && t.kind == KindOf(step) && FillsOutputs(t.kind)
  {
    hide Id, StepOf, PlaceId, RoundId, HostId, Places, Transitions, NoRepeats, From, To, Allows, Followup, Preplan;
    TransitionsAre(u);
    PlacesAre();
    TwoDistinct(PlaceId(From(step)), RoundId());
    TwoDistinct(PlaceId(To(step)), RoundId());
  }

  /** What a step does to the counter. */
  ghost predicate CounterMoves(u: Setup, m: Marking, step: Step, m': Marking)
    requires PlaceId(Reassessed) in m && RoundId() in m && RoundId() in m'
  {
    var tokens := m[PlaceId(Reassessed)] + m[RoundId()];
    var rr, rt := First(u.codec.reassess, tokens), First(u.codec.round, tokens);
    if step == FollowUp then
      && rr.Some? && rt.Some? && |m'[RoundId()]| == 1
      && m'[RoundId()][0].payload == u.codec.encodeRound(NextRound(rr.value, rt.value))
    else if step == PrePlan then m'[RoundId()] == []
    else m'[RoundId()] == m[RoundId()]
  }

  lemma {:induction false} TwoSingletons(m: Marking, p: string, q: string)
    requires p != q && p in m && q in m && |m[p]| == |m[q]| == 1
    ensures TokensOf(Consume(m, [p, q]).taken) == m[p] + m[q]
  {
    TwoDistinct(p, q);
    ConsumeHeads(m, [p, q]);
    var taken := Consume(m, [p, q]).taken;
    assert taken == [Taken(p, m[p][0]), Taken(q, m[q][0])];
    assert m[p] == [m[p][0]] && m[q] == [m[q][0]];
    assert TokensOf(taken) == [m[p][0], m[q][0]];
  }

  lemma {:induction false} FollowupTokens(u: Setup, m: Marking)
    requires At(m, Reassessed)
    ensures PlaceId(Reassessed) in m && RoundId() in m
    ensures TokensOf(Consume(m, Inputs(FollowUp)).taken) == m[PlaceId(Reassessed)] + m[RoundId()]
  {
    hide PlaceId, RoundId, HostId, Places, Consume, TokensOf;
    PlacesAre();
    assert |m[PlaceId(Reassessed)]| == 1;
    TwoSingletons(m, PlaceId(Reassessed), RoundId());
  }

  /** What the follow-up handler leaves in the counter place. */
  lemma {:induction false} FollowupCounter(u: Setup, tokens: seq<Token>)
    requires ResidualAmbiguous(u, tokens)
    requires HandlerOutcome(Unified(u), Def(u, FollowUp), tokens).error.None?
    ensures First(u.codec.reassess, tokens).Some? && First(u.codec.round, tokens).Some?
    ensures var rr, rt := First(u.codec.reassess, tokens).value, First(u.codec.round, tokens).value;
            var o := HandlerOutcome(Unified(u), Def(u, FollowUp), tokens);
            && |o.deposits| == 2 && o.deposits[1].place == RoundId()
            && o.deposits[1].token.payload == u.codec.encodeRound(NextRound(rr, rt))
  {
    hide Id, PlaceId, RoundId, HostId, Places, First, NextRound;
    PlacesAre();
    var net, outputs := Unified(u), Outputs(FollowUp);
    var results := Followup(u, tokens).value;
    assert outputs[1..] == [RoundId()] && outputs[1..][1..] == [];
    assert DepositOutputs(net, Tool, results, []) == Outcome([], None);
    var rest := DepositOutputs(net, Tool, results, outputs[1..]);
    assert rest.error.None? ==> |rest.deposits| == 1 && rest.deposits[0].place == RoundId()
                                && rest.deposits[0].token.payload == results[RoundId()].payload;
  }

  lemma {:induction false} SomethingFires(net: Net, s: NetState, c: Choices, s': NetState)
    requires Round(net, s, c, s')
    ensures FirableSet(net, s.mode, s.m) != {}
  {
    EnumerationMembers(c.order, FirableSet(net, s.mode, s.m) - c.refused);
    assert c.order[0] in c.order;
  }

  lemma {:induction false} InputsMarked(u: Setup, m: Marking, spot: Spot)
    requires At(m, spot)
    ensures PlaceId(Classified) in m && PlaceId(Reassessed) in m && RoundId() in m
    ensures var step := NextStep(u, m, spot);
            step.Some? ==> From(step.value) == spot && Marked(m, Inputs(step.value))
  {
    hide PlaceId, RoundId, HostId, Places, First, ResidualAmbiguous;
    PlacesAre();
    assert |m[PlaceId(spot)]| == 1;
  }

  lemma {:induction false} ControlMovesAt(m: Marking, step: Step, m': Marking, spot: Spot)
    requires At(m, From(step)) && Moved(m, Inputs(step), Outputs(step), m')
    ensures PlaceId(spot) in m' && |m'[PlaceId(spot)]| == if spot == To(step) then 1 else 0
  {
    hide PlaceId, RoundId, HostId, Places;
    PlacesAre();
    FromIsNotTo(step);
    var p := PlaceId(spot);
    assert |m[p]| == if spot == From(step) then 1 else 0;
    assert p in Inputs(step) <==> spot == From(step);
    assert p in Outputs(step) <==> spot == To(step);
  }

  lemma {:induction false} FromIsNotTo(step: Step)
    ensures From(step) != To(step)
  {
  }

  lemma {:induction false} ControlMoves(m: Marking, step: Step, m': Marking)
    requires At(m, From(step)) && Moved(m, Inputs(step), Outputs(step), m')
    ensures At(m', To(step))
  {
    hide PlaceId, RoundId, HostId, Places;
    PlacesAre();
    forall spot: Spot ensures PlaceId(spot) in m' && |m'[PlaceId(spot)]| == if spot == To(step) then 1 else 0 {
      ControlMovesAt(m, step, m', spot);
    }
  }

  lemma {:induction false} CounterFollows(u: Setup, m: Marking, step: Step, m': Marking)
    requires At(m, From(step)) && Moved(m, Inputs(step), Outputs(step), m')
    ensures PlaceId(Reassessed) in m && RoundId() in m && RoundId() in m'
    ensures step == FollowUp ==> |m'[RoundId()]| == 1
    ensures step == PrePlan ==> m'[RoundId()] == []
    ensures step != FollowUp && step != PrePlan ==> m'[RoundId()] == m[RoundId()]
  {
    hide PlaceId, RoundId, HostId, Places;
    PlacesAre();
    assert RoundId() in Inputs(step) <==> TakesRound(step);
    assert RoundId() in Outputs(step) <==> step == FollowUp;
  }

  /** Every round that does not fail moves the control token along one arc, whatever the
      model and the humans answer. */
  lemma {:induction false} RoundMoves(u: Setup, s: NetState, c: Choices, s': NetState, spot: Spot)
    requires Round(Unified(u), s, c, s') && At(s.m, spot)
    ensures PlaceId(Classified) in s.m && PlaceId(Reassessed) in s.m && RoundId() in s.m && RoundId() in s'.m
    ensures NextStep(u, s.m, spot).Some?
    ensures var step := NextStep(u, s.m, spot).value;
            From(step) == spot && c.order == [Id(step)] && At(s'.m, To(step)) && CounterMoves(u, s.m, step, s'.m)
  {
    hide Round, FirableSet, Unified, Def, NextStep, At, Moved, HandlerOutcome, PlaceId, RoundId, Inputs, Outputs, First,
         NextRound, Id, Marked, Allows, TokensOf, Consume, NoRepeats;
    ExactlyNext(u, s.mode, s.m, spot);
    SomethingFires(Unified(u), s, c, s');
    var step := NextStep(u, s.m, spot).value;
    DefFacts(u, step);
    InputsMarked(u, s.m, spot);
    FiringMoves(Unified(u), s, c, s', Id(step));
    ControlMoves(s.m, step, s'.m);
    CounterFollows(u, s.m, step, s'.m);
    if step == FollowUp {
      FollowupTokens(u, s.m);
      FollowupAllowed(u, s.m);
      FollowupCounter(u, s.m[PlaceId(Reassessed)] + s.m[RoundId()]);
    }
  }

  lemma {:induction false} FollowupAllowed(u: Setup, m: Marking)
    requires At(m, Reassessed)
    ensures PlaceId(Classified) in m && PlaceId(Reassessed) in m && RoundId() in m
    ensures NextStep(u, m, Reassessed) == Some(FollowUp) ==> ResidualAmbiguous(u, m[PlaceId(Reassessed)] + m[RoundId()])
    ensures Def(u, FollowUp).handler.Some? && Def(u, FollowUp).kind == Tool
  {
    hide PlaceId, RoundId, HostId, Places, ResidualAmbiguous;
    PlacesAre();
  }

  // ---- Never stuck ----

  function Taker(spot: Spot): Step
    requires spot != Output
    ensures From(Taker(spot)) == spot
  {
    match spot
    case Input => Classify
    case Classified => Direct
    case Questions => Clarify
    case Clarified => Reassess
    case Reassessed => FollowUp
    case PlannerInput => PlanClarified
    case Plan => Review
    case Reviewed => Execute
  }

  lemma {:induction false} TerminalsAre(u: Setup, p: string)
    ensures IsTerminal(Unified(u), p) <==> p == HostId() || p == PlaceId(Output)
  {
    hide PlaceId, RoundId, HostId, Id, StepOf, Places, Transitions, Allows, Followup, Preplan, IsSystemTool, From, Taker;
    PlacesAre();
    TransitionsAre(u);
    if p == RoundId() {
      assert p in Def(u, FollowUp).inputs;
    } else if spot :| p == PlaceId(spot) && spot != Output {
      assert p in Def(u, Taker(spot)).inputs;
    } else {
      forall step ensures p !in Def(u, step).inputs {
        FromIsNotOutput(step);
      }
    }
  }

  lemma {:induction false} FromIsNotOutput(step: Step)
    ensures From(step) != Output
  {
  }

  lemma {:induction false} CompleteAtOutput(u: Setup, m: Marking, spot: Spot)
    requires At(m, spot)
    ensures Complete(Unified(u), m) <==> spot == Output
  {
    hide PlaceId, RoundId, HostId, Places, IsTerminal, Unified;
    PlacesAre();
    forall p ensures IsTerminal(Unified(u), p) <==> p == HostId() || p == PlaceId(Output) {
      TerminalsAre(u, p);
    }
    assert IsTerminal(Unified(u), HostId());
    assert |m[PlaceId(Output)]| == if spot == Output then 1 else 0;
  }

  /** The classified token is a task that neither confidence guard takes: the threshold
      was configured as NaN, and no comparison with it holds. */
  ghost predicate Unroutable(u: Setup, m: Marking)
    requires PlaceId(Classified) in m
  {
    var r := First(u.codec.classified, m[PlaceId(Classified)]);
    r.Some? && r.value.task && !r.value.needsClarification && u.confidenceThreshold == NaN
  }

  /** Wherever the control token is, one transition is enabled, in either mode, or the
      answer is there and the net complete.  The one exception is exact. */
  lemma {:induction false} NeverStuck(u: Setup, mode: Mode, m: Marking, spot: Spot)
    requires At(m, spot)
    ensures PlaceId(Classified) in m
    ensures FirableSet(Unified(u), mode, m) == {} <==> spot == Output || (spot == Classified && Unroutable(u, m))
    ensures |FirableSet(Unified(u), mode, m)| <= 1
    ensures Complete(Unified(u), m) <==> spot == Output
  {
    hide PlaceId, RoundId, HostId, Places, Unified, Complete, FirableSet, First, ResidualAmbiguous, At, Id;
    ExactlyNext(u, mode, m, spot);
    CompleteAtOutput(u, m, spot);
  }

  /** With a threshold of NaN, any task that is clear is never answered. */
  lemma {:induction false} NaNThresholdDeadlocks(u: Setup, mode: Mode, m: Marking)
    requires At(m, Classified) && PlaceId(Classified) in m
    requires u.confidenceThreshold == NaN
    requires var r := u.codec.classified(m[PlaceId(Classified)][0].payload);
             r.Some? && r.value.task && !r.value.needsClarification
    ensures FirableSet(Unified(u), mode, m) == {} && !Complete(Unified(u), m)
  {
    hide PlaceId, RoundId, HostId, Places, Unified, Complete, FirableSet, ResidualAmbiguous, Id;
    NeverStuck(u, mode, m, Classified);
    assert |m[PlaceId(Classified)]| == 1;
    var tokens := m[PlaceId(Classified)];
    assert First(u.codec.classified, tokens) == u.codec.classified(tokens[0].payload);
  }

  // ---- The counter over a run ----

  datatype Event = Counted | Shifted | Held | Other

  ghost function EventOf(u: Setup, m: Marking, c: Choices): Event {
    if c.order != [Id(FollowUp)] || PlaceId(Reassessed) !in m || RoundId() !in m then Other
    else
      match First(u.codec.reassess, m[PlaceId(Reassessed)] + m[RoundId()])
      case None => Other
      case Some(rr) => if rr.topicShift then Shifted else if rr.decision == RequestUserChoice then Held else Counted
  }

  ghost function Events(u: Setup, states: seq<NetState>, choices: seq<Choices>): seq<Event>
    requires |states| >= |choices|
  {
    seq(|choices|, i requires 0 <= i < |choices| => EventOf(u, states[i].m, choices[i]))
  }

  function Count(events: seq<Event>, e: Event): nat {
    if events == [] then 0
    else Count(events[..|events|-1], e) + if events[|events|-1] == e then 1 else 0
  }

  /** Counted follow-ups after the last topic shift. */
  function SinceShift(events: seq<Event>): nat {
    if events == [] then 0
    else
      var before := SinceShift(events[..|events|-1]);
      match events[|events|-1]
      case Counted => before + 1
      case Shifted => 0
      case _ => before
  }

  ghost predicate RoundTrips(codec: Codec) {
    forall r :: codec.round(codec.encodeRound(r)) == Some(r)
  }

  /** What the model answered in t-reassess does not itself read as a counter. */
  ghost predicate NoSpoof(u: Setup, m: Marking) {
    PlaceId(Reassessed) in m && forall tok :: tok in m[PlaceId(Reassessed)] ==> u.codec.round(tok.payload) == None
  }

  /** If the round is a follow-up that keeps or counts up the counter, the answer it consumes
      reads as no counter, or as the value n that the counter has. */
  ghost predicate Benign(u: Setup, m: Marking, c: Choices, n: int) {
    EventOf(u, m, c) in {Counted, Held} ==>
      PlaceId(Reassessed) in m && m[PlaceId(Reassessed)] != [] &&
      var spoof := u.codec.round(m[PlaceId(Reassessed)][0].payload);
      spoof.Some? ==> spoof.value.n == n
  }

  ghost predicate CounterReads(u: Setup, m: Marking, n: int) {
    && RoundId() in m
    && (m[RoundId()] != [] ==>
          var r := u.codec.round(m[RoundId()][0].payload);
          r.Some? && r.value.n == n)
  }

  /** What holds after the rounds whose events these are. */
  ghost predicate CounterInv(u: Setup, m: Marking, events: seq<Event>) {
    && CounterReads(u, m, SinceShift(events))
    && SinceShift(events) <= u.maxRounds - 1
    && Count(events, Counted) <= Count(events, Shifted) * (u.maxRounds - 1) + SinceShift(events)
  }

  function Rank(spot: Spot): nat {
    match spot
    case Input => 8
    case Classified => 7
    case Questions => 6
    case Clarified => 5
    case Reassessed => 4
    case PlannerInput => 3
    case Plan => 2
    case Reviewed => 1
    case Output => 0
  }

  function FollowUps(events: seq<Event>): nat {
    Count(events, Counted) + Count(events, Shifted) + Count(events, Held)
  }

  lemma {:induction false} EventsStep(events: seq<Event>, e: Event)
    ensures SinceShift(events + [e]) == match e { case Counted => SinceShift(events) + 1 case Shifted => 0
                                                  case _ => SinceShift(events) }
    ensures forall k :: Count(events + [e], k) == Count(events, k) + if e == k then 1 else 0
  {
    assert (events + [e])[..|events|] == events;
  }

  lemma {:induction false} FirstOf<T>(decode: string -> Option<T>, a: Token, b: Token)
    ensures First(decode, [a, b]) == if decode(a.payload).Some? then decode(a.payload) else decode(b.payload)
  {
    assert [a, b][1..] == [b] && [b][1..] == [];
    assert First(decode, []) == None;
  }

  /** What the counter should read after an event. */
  function After(e: Event, n: int): int {
    match e
    case Counted => n + 1
    case Shifted => 0
    case _ => n
  }

  /** A follow-up that fires leaves the counter that its event asks for exactly when the
      answer it consumed is benign. */
  lemma {:induction false} FollowupReadsExactly(u: Setup, m: Marking, c: Choices, m': Marking, n: int)
    requires At(m, Reassessed) && RoundTrips(u.codec) && c.order == [Id(FollowUp)]
    requires PlaceId(Reassessed) in m && RoundId() in m && RoundId() in m'
    requires CounterMoves(u, m, FollowUp, m')
    requires CounterReads(u, m, n) && n < 0x7FFF_FFFF_FFFF_FFFF
    ensures EventOf(u, m, c) != Other && m[RoundId()] != [] && m'[RoundId()] != []
    ensures Benign(u, m, c, n) <==> CounterReads(u, m', After(EventOf(u, m, c), n))
  {
    hide PlaceId, RoundId, HostId, Places, First, Id;
    var a, b := m[PlaceId(Reassessed)], m[RoundId()];
    assert a == [a[0]] && b == [b[0]];
    assert a + b == [a[0], b[0]];
    FirstOf(u.codec.round, a[0], b[0]);
  }

  /** An answer that reads both as a request for a choice and as a counter of -100 re-opens
      an exhausted loop; `Reassess.SpoofPassesCap` has such an answer. */
  lemma {:induction false} SpoofPasses(u: Setup, m: Marking)
    requires At(m, Reassessed) && RoundTrips(u.codec) && 1 <= u.maxRounds <= 5
    requires PlaceId(Reassessed) in m && CounterReads(u, m, u.maxRounds - 1)
    requires u.codec.round(m[PlaceId(Reassessed)][0].payload) == Some(RoundToken(-100, false))
    requires var rr := u.codec.reassess(m[PlaceId(Reassessed)][0].payload);
             rr.Some? && rr.value.decision == RequestUserChoice && !rr.value.contradiction
    ensures ResidualAmbiguous(u, m[PlaceId(Reassessed)] + m[RoundId()])
  {
    hide PlaceId, RoundId, HostId, Places, First;
    var a, b := m[PlaceId(Reassessed)], m[RoundId()];
    assert a == [a[0]] && b == [b[0]];
    assert a + b == [a[0], b[0]];
    FirstOf(u.codec.round, a[0], b[0]);
    FirstOf(u.codec.reassess, a[0], b[0]);
  }

  /** What such an answer does to the counter. */
  lemma {:induction false} SpoofHolds(u: Setup, m: Marking, c: Choices, m': Marking)
    requires At(m, Reassessed) && RoundTrips(u.codec) && c.order == [Id(FollowUp)]
    requires PlaceId(Reassessed) in m && RoundId() in m && RoundId() in m' && CounterMoves(u, m, FollowUp, m')
    requires u.codec.round(m[PlaceId(Reassessed)][0].payload) == Some(RoundToken(-100, false))
    requires var rr := u.codec.reassess(m[PlaceId(Reassessed)][0].payload);
             rr.Some? && rr.value.decision == RequestUserChoice && !rr.value.topicShift
    ensures EventOf(u, m, c) == Held
    ensures forall n: int :: Benign(u, m, c, n) <==> n == -100
    ensures CounterReads(u, m', -100)
  {
    hide PlaceId, RoundId, HostId, Places, First, Id;
    var a, b := m[PlaceId(Reassessed)], m[RoundId()];
    assert a == [a[0]] && b == [b[0]];
    assert a + b == [a[0], b[0]];
    FirstOf(u.codec.round, a[0], b[0]);
    FirstOf(u.codec.reassess, a[0], b[0]);
  }

  lemma {:induction false} MoreShifts(counted: nat, shifts: nat, since: nat, cap: int)
    requires since <= cap && counted <= shifts * cap + since
    ensures counted <= (shifts + 1) * cap
  {
    assert (shifts + 1) * cap == shifts * cap + cap;
  }

  /** The guard that let the follow-up fire read the same counter. */
  lemma {:induction false} CountedBelowCap(u: Setup, m: Marking, c: Choices, n: nat)
    requires At(m, Reassessed) && CounterReads(u, m, n) && n <= u.maxRounds - 1 <= 4 && Benign(u, m, c, n)
    requires PlaceId(Reassessed) in m && RoundId() in m
    requires ResidualAmbiguous(u, m[PlaceId(Reassessed)] + m[RoundId()])
    ensures EventOf(u, m, c) == Counted ==> n + 1 <= u.maxRounds - 1
  {
    hide PlaceId, RoundId, HostId, Places, First, Id;
    var a, b := m[PlaceId(Reassessed)], m[RoundId()];
    if EventOf(u, m, c) == Counted {
      assert a == [a[0]] && b == [b[0]];
      assert a + b == [a[0], b[0]];
      FirstOf(u.codec.round, a[0], b[0]);
    }
  }

  /** The invariant after one more event, given what the counter then reads. */
  lemma {:induction false} CounterInvAfter(u: Setup, m: Marking, m': Marking, events: seq<Event>, e: Event)
    requires CounterInv(u, m, events)
    requires CounterReads(u, m', After(e, SinceShift(events)))
    requires e == Counted ==> SinceShift(events) + 1 <= u.maxRounds - 1
    ensures CounterInv(u, m', events + [e])
  {
    hide CounterReads, SinceShift, Count;
    EventsStep(events, e);
    MoreShifts(Count(events, Counted), Count(events, Shifted), SinceShift(events), u.maxRounds - 1);
  }

  lemma {:induction false} CounterInvParts(u: Setup, m: Marking, events: seq<Event>)
    requires CounterInv(u, m, events)
    ensures CounterReads(u, m, SinceShift(events)) && SinceShift(events) <= u.maxRounds - 1
  {
  }

  /** One round: the counter stays the number of counted follow-ups since the last topic
      shift exactly when the round is benign, and then keeps under the cap. */
  lemma {:induction false} CounterStep(u: Setup, s: NetState, c: Choices, s': NetState, spot: Spot, events: seq<Event>)
    requires Round(Unified(u), s, c, s') && At(s.m, spot) && RoundTrips(u.codec) && 1 <= u.maxRounds <= 5
    requires CounterInv(u, s.m, events)
    ensures Benign(u, s.m, c, SinceShift(events)) <==> CounterReads(u, s'.m, SinceShift(events + [EventOf(u, s.m, c)]))
    ensures Benign(u, s.m, c, SinceShift(events)) ==> CounterInv(u, s'.m, events + [EventOf(u, s.m, c)])
  {
    hide PlaceId, RoundId, HostId, Places, First, Id, Round, At, Benign, ResidualAmbiguous, RoundTrips, Unified, StepOf,
         EventOf, CounterInv, SinceShift, Count, NextStep;
    RoundMoves(u, s, c, s', spot);
    CounterInvParts(u, s.m, events);
    var step, e, n := NextStep(u, s.m, spot).value, EventOf(u, s.m, c), SinceShift(events);
    SinceAfter(events, e);
    if step == FollowUp {
      FollowupAllowed(u, s.m);
      FollowupReadsExactly(u, s.m, c, s'.m, n);
      if Benign(u, s.m, c, n) { CountedBelowCap(u, s.m, c, n); }
    } else {
      OtherEvent(u, s.m, c, step);
      OtherIsBenign(u, s.m, c, n);
    }
    if Benign(u, s.m, c, n) { CounterInvAfter(u, s.m, s'.m, events, e); }
  }

  lemma {:induction false} SinceAfter(events: seq<Event>, e: Event)
    ensures SinceShift(events + [e]) == After(e, SinceShift(events))
  {
    EventsStep(events, e);
  }

  lemma {:induction false} OtherIsBenign(u: Setup, m: Marking, c: Choices, n: int)
    requires EventOf(u, m, c) == Other
    ensures Benign(u, m, c, n)
  {
  }

  lemma {:induction false} OtherEvent(u: Setup, m: Marking, c: Choices, step: Step)
    requires c.order == [Id(step)] && step != FollowUp
    ensures EventOf(u, m, c) == Other
  {
    hide Id;
    StepOfId(step);
    StepOfId(FollowUp);
    assert c.order[0] == Id(step);
  }

  /** Where the control token is after k rounds, and how many rounds that can be: each
      follow-up buys three more. */
  lemma {:induction false} RunStays(u: Setup, states: seq<NetState>, choices: seq<Choices>, k: nat) returns (spot: Spot)
    requires Rounds(Unified(u), states, choices) && k <= |choices| && At(states[0].m, Input)
    ensures At(states[k].m, spot)
    ensures k + Rank(spot) <= 8 + 3 * FollowUps(Events(u, states, choices)[..k])
  {
    hide At, Round, Unified, Id, PlaceId, RoundId, NextStep, CounterMoves, EventOf;
    if k == 0 {
      spot := Input;
    } else {
      var before := RunStays(u, states, choices, k - 1);
      assert Round(Unified(u), states[k-1], choices[k-1], states[k]);
      RoundMoves(u, states[k-1], choices[k-1], states[k], before);
      var step := NextStep(u, states[k-1].m, before).value;
      spot := To(step);
      var events := Events(u, states, choices);
      assert events[..k] == events[..k-1] + [events[k-1]];
      EventsStep(events[..k-1], events[k-1]);
      if step == FollowUp { FollowupCounts(u, states[k-1].m, choices[k-1], states[k].m); }
    }
  }

  lemma {:induction false} FollowupCounts(u: Setup, m: Marking, c: Choices, m': Marking)
    requires At(m, Reassessed) && c.order == [Id(FollowUp)]
    requires PlaceId(Reassessed) in m && RoundId() in m && RoundId() in m' && CounterMoves(u, m, FollowUp, m')
    ensures EventOf(u, m, c) != Other
  {
    hide Id, PlaceId, RoundId, HostId, First;
  }

  /** Every answer consumed in the first k rounds is benign. */
  ghost predicate AllBenign(u: Setup, states: seq<NetState>, choices: seq<Choices>, k: nat)
    requires k <= |choices| <= |states|
  {
    forall i :: 0 <= i < k ==> Benign(u, states[i].m, choices[i], SinceShift(Events(u, states, choices)[..i]))
  }

  /** The counter reads as it should before each of the first k rounds and after them. */
  ghost predicate AllRead(u: Setup, states: seq<NetState>, choices: seq<Choices>, k: nat)
    requires k <= |choices| < |states|
  {
    forall i :: 0 <= i <= k ==> CounterReads(u, states[i].m, SinceShift(Events(u, states, choices)[..i]))
  }

  /** Exactly when the counter is exact over a run: throughout, it is the number of counted
      follow-ups since the last topic shift if and only if every answer that a counting or
      holding follow-up consumed is benign.  Then it never passes the cap, and shifts are the
      only way to get more counted follow-ups. */
  lemma {:induction false} CounterIsExact(u: Setup, states: seq<NetState>, choices: seq<Choices>, k: nat)
    requires Rounds(Unified(u), states, choices) && k <= |choices|
    requires At(states[0].m, Input) && CounterReads(u, states[0].m, 0)
    requires RoundTrips(u.codec) && 1 <= u.maxRounds <= 5
    ensures AllRead(u, states, choices, k) <==> AllBenign(u, states, choices, k)
    ensures AllBenign(u, states, choices, k) ==> CounterInv(u, states[k].m, Events(u, states, choices)[..k])
  {
    hide At, Round, Unified, Id, PlaceId, RoundId, NextStep, CounterMoves, EventOf, Benign, CounterReads, RoundTrips;
    var events := Events(u, states, choices);
    if k == 0 {
      assert events[..0] == [];
    } else {
      CounterIsExact(u, states, choices, k - 1);
      if AllBenign(u, states, choices, k - 1) {
        var spot := RunStays(u, states, choices, k - 1);
        assert Round(Unified(u), states[k-1], choices[k-1], states[k]);
        CounterStep(u, states[k-1], choices[k-1], states[k], spot, events[..k-1]);
        assert events[..k] == events[..k-1] + [events[k-1]];
      }
    }
  }

  /** An answer that reads as no counter at all is benign, whatever the counter. */
  lemma {:induction false} NoSpoofIsBenign(u: Setup, m: Marking, c: Choices, n: int)
    requires NoSpoof(u, m) && m[PlaceId(Reassessed)] != []
    ensures Benign(u, m, c, n)
  {
    hide PlaceId, RoundId, First, Id;
    assert m[PlaceId(Reassessed)][0] in m[PlaceId(Reassessed)];
  }

  /** So the clarification loop ends: the length of a run of benign answers is bounded by the
      topic shifts and the escape hatches alone, and without any by the cap. */
  lemma {:induction false} RunsAreBounded(u: Setup, states: seq<NetState>, choices: seq<Choices>)
    requires Rounds(Unified(u), states, choices)
    requires At(states[0].m, Input) && CounterReads(u, states[0].m, 0)
    requires RoundTrips(u.codec) && 1 <= u.maxRounds <= 5
    requires AllBenign(u, states, choices, |choices|)
    ensures var events := Events(u, states, choices);
            var shifts, held := Count(events, Shifted), Count(events, Held);
            |choices| <= 8 + 3 * ((shifts + 1) * (u.maxRounds - 1) + shifts + held)
  {
    hide At, Round, Unified, EventOf, Benign, AllBenign, AllRead, CounterReads, RoundTrips, Count, SinceShift;
    var events := Events(u, states, choices);
    CounterIsExact(u, states, choices, |choices|);
    var spot := RunStays(u, states, choices, |choices|);
    assert events[..|choices|] == events;
    MoreShifts(Count(events, Counted), Count(events, Shifted), SinceShift(events), u.maxRounds - 1);
  }

  /** A run can stop without an error only with the answer in place, unless the classifier
      threshold is not a number. */
  lemma {:induction false} RunsEndAnswered(u: Setup, states: seq<NetState>, choices: seq<Choices>, refused: set<string>)
    requires Rounds(Unified(u), states, choices) && At(states[0].m, Input)
    requires Quiescent(Unified(u), states[|choices|], refused)
    ensures PlaceId(Classified) in states[|choices|].m
    ensures Complete(Unified(u), states[|choices|].m)
         || (At(states[|choices|].m, Classified) && Unroutable(u, states[|choices|].m))
  {
    hide At, Round, Unified, Id, PlaceId, RoundId, EventOf, Unroutable, Complete, FirableSet;
    var last := states[|choices|];
    var spot := RunStays(u, states, choices, |choices|);
    NeverStuck(u, last.mode, last.m, spot);
    NoBreakers(u, refused);
    assert FirableSet(Unified(u), last.mode, last.m) <= {};
  }

  lemma {:induction false} NoBreakers(u: Setup, refused: set<string>)
    requires BreakersOf(Unified(u), refused)
    ensures refused == {}
  {
    hide Id, Transitions, StepOf, IsSystemTool, Inputs, Outputs;
    TransitionsAre(u);
  }

  // ---- The start of a turn ----

  /** `SeedFunc`: the counter at zero. */
  function Seeds(u: Setup): seq<Deposit> {
    [Deposit(RoundId(), Token(ColorJSON, u.codec.encodeRound(RoundToken(0, false)), Surface, "", 0, NoKind, ""))]
  }

  /** Reset, the host capabilities, and the user's message: whatever the last turn left,
      the run starts with the control token at the input and the counter at zero. */
  lemma {:induction false} TurnStarts(u: Setup, m: Marking, hosts: seq<Token>, message: Token)
    requires m.Keys == Places().Keys && hosts != [] && RoundTrips(u.codec)
    ensures var seeded := Seeded(Unified(u), Emptied(m), Seeds(u));
            HostId() in seeded &&
            var start := Put(seeded[HostId() := seeded[HostId()] + hosts], Deposit(PlaceId(Input), message));
            At(start, Input) && CounterReads(u, start, 0)
  {
    hide PlaceId, RoundId, HostId, Places;
    PlacesAre();
    var d := Seeds(u)[0];
    assert Seeds(u)[1..] == [];
    assert Seeded(Unified(u), Emptied(m), Seeds(u)) == Put(Emptied(m), d);
  }
}
