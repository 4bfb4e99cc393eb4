/** The coloured Petri net and its step semantics, as values.
    A marking maps each place to its FIFO queue.  One iteration of the executor's
    loop is the relation `Round`: collect, re-check and consume in some order, fire
    the whole batch at once, let the deposits land in any order, route the errors,
    and re-evaluate the mode.  Module Cpn refines this relation with the
    mutable objects the Go code works on. */
module Net {
  import opened Wrappers
  import opened Order

  /** Spaces, colours and kinds are strings; the code gives a meaning to the named ones. */
  datatype Space = NoSpace | Surface | Observation | Computation | OtherSpace(name: string)

  datatype Color =
    | ColorString | ColorJSON | ColorArtifact | ColorScore | ColorEvent | ColorHuman
    | ColorCPN | ColorSchema | ColorError | ColorIdentity | ColorToolManifest
    | ColorShellCmd | ColorShellChunk | ColorShellResult | ColorHostFact | ColorProcess
    | ColorTopology | ColorFlowRef | OtherColor(name: string)

  datatype Kind =
    | NoKind | Tool | LLM | Validate | SubNet | Observer | HITL | Bash
    | RegisterTool | Synthesize | Instantiate | TopologyMutate | OtherKind(name: string)

  datatype Mode = MAS | Centaurian

  datatype Token = Token(color: Color, payload: string, space: Space,
                         originId: string, originDepth: int, originKind: Kind, sessionId: string)
  {
    predicate IsHumanOrigin() {
      color == ColorHuman || originKind == HITL
    }
  }

  type Guard = seq<Token> -> bool

  /** A ToolHandler: from the consumed tokens to one token per output place, or an error. */
  type Handler = seq<Token> -> Result<map<string, Token>, string>

  datatype PlaceDef = PlaceDef(color: Color, space: Space)

  /** A ValidateConfig: the check of a payload, the transform of a valid one, and the
      corrections it may ask a model for, if it names one. */
  datatype ValidateConfig = ValidateConfig(
    valid: string -> bool, onSuccess: string -> string, maxCorrections: int, hasCorrector: bool)

  /** `hitlChannel` is None without a HITLConfig, else whether its channel is set;
      `bashCommand` is None without a BashConfig; `mapped` are the places that an
      InstantiateConfig sends a child's tokens to, empty without a mapping. */
  datatype TransitionDef = TransitionDef(
    id: string, kind: Kind, inputs: seq<string>, outputs: seq<string>, errorPlace: string,
    guard: Option<Guard>, handler: Option<Handler>, hasBreaker: bool, maxAttempts: nat,
    hitlChannel: Option<bool>, bashCommand: Option<string>, validation: Option<ValidateConfig>,
    mapped: set<string>, deprecated: bool)

  /** Who stamps the tokens a net produces. */
  datatype Owner = Owner(id: string, depth: int, sessionId: string)

  datatype Net = Net(owner: Owner, places: map<string, PlaceDef>, transitions: map<string, TransitionDef>)

  type Marking = map<string, seq<Token>>

  // ---- Enabling (transition.go, mode.go, cpn.go) ----

  ghost predicate CentaurianGuard(tokens: seq<Token>) {
    && (exists tok :: tok in tokens && tok.IsHumanOrigin())
    && (exists tok :: tok in tokens && !tok.IsHumanOrigin())
  }

  ghost predicate IsComputationTransition(net: Net, t: TransitionDef) {
    exists p :: p in t.outputs && p in net.places && net.places[p].space == Computation
  }

  ghost predicate NeedsBothOrigins(net: Net, mode: Mode, t: TransitionDef) {
    mode == Centaurian && t.kind != HITL && IsComputationTransition(net, t)
  }

  ghost predicate GuardPasses(net: Net, mode: Mode, t: TransitionDef, tokens: seq<Token>) {
    && (NeedsBothOrigins(net, mode, t) ==> CentaurianGuard(tokens))
    && (t.guard.Some? ==> t.guard.value(tokens))
  }

  predicate Marked(m: Marking, places: seq<string>) {
    forall p :: p in places ==> p in m && m[p] != []
  }

  /** Every token queued on the given places, place by place. */
  function Queued(m: Marking, places: seq<string>): seq<Token> {
    if places == [] then []
    else (if places[0] in m then m[places[0]] else []) + Queued(m, places[1..])
  }

  ghost predicate Enabled(net: Net, mode: Mode, m: Marking, t: TransitionDef) {
    && !t.deprecated
    && t.inputs != []
    && Marked(m, t.inputs)
    && GuardPasses(net, mode, t, Queued(m, t.inputs))
  }

  ghost predicate Firable(net: Net, mode: Mode, m: Marking, id: string) {
    && id in net.transitions
    && net.transitions[id].kind != Observer
    && Enabled(net, mode, m, net.transitions[id])
  }

  ghost function FirableSet(net: Net, mode: Mode, m: Marking): set<string> {
    set id | id in net.transitions && Firable(net, mode, m, id)
  }

  // ---- Consuming (executor.go consumeAll) ----

  /** A token together with the place it was taken from. */
  datatype Taken = Taken(place: string, token: Token)

  datatype Consumption = Consumption(rest: Marking, taken: seq<Taken>)

  function Consume(m: Marking, places: seq<string>): Consumption
    decreases |places|
  {
    if places == [] then Consumption(m, [])
    else if places[0] in m && m[places[0]] != [] then
      var c := Consume(m[places[0] := m[places[0]][1..]], places[1..]);
      Consumption(c.rest, [Taken(places[0], m[places[0]][0])] + c.taken)
    else Consume(m, places[1..])
  }

  datatype Firing = Firing(transition: TransitionDef, taken: seq<Taken>)

  datatype Batch = Batch(rest: Marking, firings: seq<Firing>)

  /** Re-check and consume, one transition of `order` after the other. */
  ghost function TakeBatch(net: Net, mode: Mode, m: Marking, order: seq<string>): Batch
    decreases |order|
  {
    if order == [] then Batch(m, [])
    else if Firable(net, mode, m, order[0]) then
      var t := net.transitions[order[0]];
      var c := Consume(m, t.inputs);
      var b := TakeBatch(net, mode, c.rest, order[1..]);
      Batch(b.rest, [Firing(t, c.taken)] + b.firings)
    else TakeBatch(net, mode, m, order[1..])
  }

  // ---- Depositing (place.go) ----

  datatype Deposit = Deposit(place: string, token: Token)

  predicate Accepts(place: PlaceDef, tok: Token) {
    tok.color == place.color && tok.space == place.space
  }

  function Put(m: Marking, d: Deposit): Marking {
    if d.place in m then m[d.place := m[d.place] + [d.token]] else m
  }

  function PutAll(m: Marking, ds: seq<Deposit>): Marking
    decreases |ds|
  {
    if ds == [] then m else PutAll(Put(m, ds[0]), ds[1..])
  }

  /** The tokens that a list of deposits sends to one place, in order. */
  function Sent(ds: seq<Deposit>, p: string): seq<Token> {
    if ds == [] then []
    else (if ds[0].place == p then [ds[0].token] else []) + Sent(ds[1..], p)
  }

  // ---- One attempt at a firing, kind by kind (executor.go dispatch) ----

  /** What one firing did: the deposits that were accepted, and its error. */
  datatype Outcome = Outcome(deposits: seq<Deposit>, error: Option<string>)

  ghost predicate FailedEmpty(o: Outcome) {
    o.deposits == [] && o.error.Some?
  }

  function DepositPlaces(ds: seq<Deposit>): seq<string> {
    seq(|ds|, i requires 0 <= i < |ds| => ds[i].place)
  }

  function TokensOf(taken: seq<Taken>): seq<Token> {
    seq(|taken|, i requires 0 <= i < |taken| => taken[i].token)
  }

  function Stamp(owner: Owner, kind: Kind, place: PlaceDef, tok: Token): Token {
    tok.(originId := owner.id, originDepth := owner.depth, originKind := kind, sessionId := owner.sessionId,
         space := if tok.space == NoSpace then place.space else tok.space)
  }

  /** Deposit one result per output place, in order, up to the first that is missing or
      rejected; what was deposited before stays deposited. */
  function DepositOutputs(net: Net, kind: Kind, results: map<string, Token>, outputs: seq<string>): Outcome {
    if outputs == [] then Outcome([], None)
    else if outputs[0] !in net.places then Outcome([], Some("output place not found"))
    else if outputs[0] !in results then Outcome([], Some("no token for output place"))
    else
      var tok := Stamp(net.owner, kind, net.places[outputs[0]], results[outputs[0]]);
      if !Accepts(net.places[outputs[0]], tok) then Outcome([], Some("deposit rejected"))
      else
        var rest := DepositOutputs(net, kind, results, outputs[1..]);
        Outcome([Deposit(outputs[0], tok)] + rest.deposits, rest.error)
  }

  function HandlerOutcome(net: Net, t: TransitionDef, tokens: seq<Token>): Outcome
    requires t.handler.Some?
  {
    match t.handler.value(tokens)
    case Err(e) => Outcome([], Some(e))
    case Ok(results) => DepositOutputs(net, Tool, results, t.outputs)
  }

  /** Whether a firing adapts the space of its token to each place it goes to. */
  predicate Bridges(kind: Kind) {
    kind != Tool && kind != RegisterTool
  }

  /** Copies of one token to every output place, in order, up to the first that is missing
      or rejects it. */
  function CopyInto(net: Net, tok: Token, outputs: seq<string>, bridges: bool): Outcome {
    if outputs == [] then Outcome([], None)
    else if outputs[0] !in net.places then Outcome([], Some("output place not found"))
    else
      var place := net.places[outputs[0]];
      var copy := if bridges then tok.(space := place.space) else tok;
      if !Accepts(place, copy) then Outcome([], Some("deposit rejected"))
      else
        var rest := CopyInto(net, tok, outputs[1..], bridges);
        Outcome([Deposit(outputs[0], copy)] + rest.deposits, rest.error)
  }

  predicate StampedBy(owner: Owner, kind: Kind, tok: Token) {
    tok.originId == owner.id && tok.originDepth == owner.depth && tok.originKind == kind
    && tok.sessionId == owner.sessionId
  }

  /** The tokens a kind makes, up to what its model, tool, host or human says. */
  ghost predicate Makes(owner: Owner, kind: Kind, tok: Token) {
    && StampedBy(owner, kind, tok)
    && match kind
       case LLM => tok.color == ColorJSON || tok.color == ColorArtifact
       case RegisterTool => tok.color == ColorArtifact && tok.space == Computation
       case Synthesize => tok.color == ColorFlowRef
       case TopologyMutate => tok.color == ColorArtifact || tok.color == ColorError
       case _ => true
  }

  /** One token, copied to the outputs; a rejected mutation is deposited and fails. */
  ghost predicate Copies(net: Net, t: TransitionDef, tok: Token, o: Outcome) {
    && Makes(net.owner, t.kind, tok)
    && var copied := CopyInto(net, tok, t.outputs, Bridges(t.kind));
    if t.kind == TopologyMutate && tok.color == ColorError
    then o.deposits == copied.deposits && o.error.Some?
    else o == copied
  }

  ghost predicate OneToken(net: Net, t: TransitionDef, o: Outcome) {
    FailedEmpty(o) || exists tok :: Copies(net, t, tok, o)
  }

  function ErrorToken(owner: Owner, kind: Kind, place: PlaceDef, message: string): Token {
    Token(ColorError, message, place.space, owner.id, owner.depth, kind, owner.sessionId)
  }

  /** The error place is named, exists and takes error tokens. */
  predicate Routable(net: Net, t: TransitionDef) {
    t.errorPlace != "" && t.errorPlace in net.places && net.places[t.errorPlace].color == ColorError
  }

  function ErrorDeposit(net: Net, t: TransitionDef, message: string): Deposit
    requires Routable(net, t)
  {
    Deposit(t.errorPlace, ErrorToken(net.owner, t.kind, net.places[t.errorPlace], message))
  }

  const MAX_CORRECTIONS := 10

  function Corrections(cfg: ValidateConfig): nat {
    if !cfg.hasCorrector || cfg.maxCorrections <= 0 then 0
    else if cfg.maxCorrections < MAX_CORRECTIONS then cfg.maxCorrections else MAX_CORRECTIONS
  }

  /** The transformed payload goes to the outputs in the colour of the consumed token. */
  function DepositValidated(net: Net, t: TransitionDef, cfg: ValidateConfig, color: Color, payload: string): Outcome {
    var owner := net.owner;
    CopyInto(net, Token(color, cfg.onSuccess(payload), NoSpace, owner.id, owner.depth, Validate, owner.sessionId),
             t.outputs, true)
  }

  /** An invalid payload leaves a token in the error place and succeeds, or fails. */
  ghost predicate InvalidRouted(net: Net, t: TransitionDef, o: Outcome) {
    if Routable(net, t) then o.error.None? && exists message :: o.deposits == [ErrorDeposit(net, t, message)]
    else FailedEmpty(o)
  }

  ghost predicate Validated(net: Net, t: TransitionDef, consumed: seq<Token>, o: Outcome) {
    if t.validation.None? || consumed == [] then FailedEmpty(o)
    else
      var cfg, color, payload := t.validation.value, consumed[0].color, consumed[0].payload;
      if cfg.valid(payload) then o == DepositValidated(net, t, cfg, color, payload)
      else
        || InvalidRouted(net, t, o)
        || (Corrections(cfg) > 0 &&
             (FailedEmpty(o)
              || exists fixed :: cfg.valid(fixed) && o == DepositValidated(net, t, cfg, color, fixed)))
  }

  /** Tokens copied to the outputs one after the other, up to the first failure. */
  function CopyAll(net: Net, toks: seq<Token>, outputs: seq<string>): Outcome {
    if toks == [] then Outcome([], None)
    else
      var first := CopyInto(net, toks[0], outputs, true);
      if first.error.Some? then first
      else
        var rest := CopyAll(net, toks[1..], outputs);
        Outcome(first.deposits + rest.deposits, rest.error)
  }

  /** Chunks, and the result after them once the command has ended. */
  ghost predicate ShellTokens(owner: Owner, toks: seq<Token>, ended: bool) {
    && (ended ==> toks != [])
    && forall i :: 0 <= i < |toks| ==>
         && StampedBy(owner, Bash, toks[i])
         && toks[i].color == if ended && i == |toks| - 1 then ColorShellResult else ColorShellChunk
  }

  /** A command may fail before, while or after its tokens are deposited. */
  ghost predicate ShellRan(net: Net, t: TransitionDef, toks: seq<Token>, ended: bool, o: Outcome) {
    && ShellTokens(net.owner, toks, ended)
    && var copied := CopyAll(net, toks, t.outputs);
    && o.deposits == copied.deposits
    && (copied.error.Some? ==> o.error == copied.error)
    && (o.error.None? ==> ended)
  }

  ghost predicate Shell(net: Net, t: TransitionDef, o: Outcome) {
    if t.bashCommand.None? then FailedEmpty(o)
    else exists toks, ended :: ShellRan(net, t, toks, ended, o)
  }

  /** Where a child's tokens go. */
  ghost predicate ReceivesFromChild(t: TransitionDef, p: string) {
    if t.mapped != {} then p in t.mapped else p in t.outputs
  }

  /** A finished child leaves any tokens, recoloured, in the places it is mapped to; a
      failed one leaves a token in the error place, or none if that takes no errors. */
  ghost predicate Instantiated(net: Net, t: TransitionDef, o: Outcome) {
    && (o.error.Some? ==> o.deposits == [])
    && (forall i :: 0 <= i < |o.deposits| ==>
          var d := o.deposits[i];
          && d.place in net.places && Accepts(net.places[d.place], d.token) && d.token.originKind == Instantiate
          && (ReceivesFromChild(t, d.place) || (|o.deposits| == 1 && Routable(net, t) && d.place == t.errorPlace)))
  }

  /** What one attempt may do.  A handler's outcome is a function of the consumed tokens;
      models, humans, hosts and children answer anything their kind can produce. */
  ghost predicate Attempt(net: Net, t: TransitionDef, consumed: seq<Token>, o: Outcome) {
    match t.kind
    case Tool => if t.handler.Some? then o == HandlerOutcome(net, t, consumed) else OneToken(net, t, o)
    case LLM => OneToken(net, t, o)
    case HITL => OneToken(net, t, o)
    case RegisterTool => OneToken(net, t, o)
    case Synthesize => OneToken(net, t, o)
    case TopologyMutate => OneToken(net, t, o)
    case Validate => Validated(net, t, consumed, o)
    case Bash => Shell(net, t, o)
    case SubNet => o.deposits == []
    case Instantiate => Instantiated(net, t, o)
    case Observer => FailedEmpty(o)
    case NoKind => FailedEmpty(o)
    case OtherKind(_) => FailedEmpty(o)
  }

  // ---- A firing with its retries (retry.go) ----

  function AllDeposits(outs: seq<Outcome>): seq<Deposit> {
    if outs == [] then [] else outs[0].deposits + AllDeposits(outs[1..])
  }

  /** All attempts but the last failed; what each deposited stays deposited.  Only a wait
      that is interrupted replaces the last attempt's error. */
  ghost predicate Tried(net: Net, t: TransitionDef, consumed: seq<Token>, tries: seq<Outcome>, o: Outcome) {
    && tries != [] && (|tries| == 1 || |tries| <= t.maxAttempts)
    && (forall i :: 0 <= i < |tries| ==> Attempt(net, t, consumed, tries[i]))
    && (forall i :: 0 <= i < |tries| - 1 ==> tries[i].error.Some?)
    && var last := tries[|tries| - 1];
    && o.deposits == AllDeposits(tries)
    && (o.error.Some? <==> last.error.Some?)
    && (o.error != last.error ==> |tries| < t.maxAttempts)
  }

  /** What a firing may do: nothing while its breaker is open, else its attempts. */
  ghost predicate LegalOutcome(net: Net, f: Firing, o: Outcome) {
    || (f.transition.hasBreaker && FailedEmpty(o))
    || exists tries :: Tried(net, f.transition, TokensOf(f.taken), tries, o)
  }

  // ---- Error routing (executor.go Run) ----

  ghost function Failures(outs: seq<Outcome>): set<nat> {
    set i: nat | i < |outs| && outs[i].error.Some?
  }

  /** The error tokens of the failures handled so far, in the order they were handled. */
  ghost predicate Routed(net: Net, firings: seq<Firing>, outs: seq<Outcome>, handled: seq<nat>, errors: seq<Deposit>)
    requires |firings| == |outs|
  {
    && |errors| == |handled| && NoRepeats(handled)
    && forall k :: 0 <= k < |handled| ==>
         && handled[k] in Failures(outs)
         && Routable(net, firings[handled[k]].transition)
         && errors[k] == ErrorDeposit(net, firings[handled[k]].transition, outs[handled[k]].error.value)
  }

  /** A failure that was not handled because its error has no place to go. */
  ghost predicate Unroutable(net: Net, firings: seq<Firing>, outs: seq<Outcome>, handled: seq<nat>)
    requires |firings| == |outs|
  {
    exists i: nat :: i in Failures(outs) && i !in handled && !Routable(net, firings[i].transition)
  }

  // ---- Mode (cpn.go checkModeSwitch) ----

  ghost predicate HumanInComputation(net: Net, m: Marking) {
    exists p, i :: p in net.places && net.places[p].space == Computation
                   && p in m && 0 <= i < |m[p]| && m[p][i].IsHumanOrigin()
  }

  /** `t.CanFire`: the transition's own guard, without the one the mode injects. */
  ghost predicate CanFire(m: Marking, t: TransitionDef) {
    && !t.deprecated && t.inputs != [] && Marked(m, t.inputs)
    && (t.guard.Some? ==> t.guard.value(Queued(m, t.inputs)))
  }

  ghost predicate HITLCanFire(net: Net, m: Marking, refused: set<string>) {
    exists id :: id in net.transitions && id !in refused
                 && net.transitions[id].kind == HITL && CanFire(m, net.transitions[id])
  }

  ghost function ModeAfter(net: Net, mode: Mode, m: Marking, refused: set<string>): Mode {
    if mode == MAS && HumanInComputation(net, m) then Centaurian
    else if mode == Centaurian && !HumanInComputation(net, m) && !HITLCanFire(net, m, refused) then MAS
    else mode
  }

  /** A human transition that marked a computation place switches the mode itself. */
  ghost predicate HumanBridged(net: Net, firings: seq<Firing>, outs: seq<Outcome>)
    requires |firings| == |outs|
  {
    exists i :: 0 <= i < |outs| && firings[i].transition.kind == HITL && outs[i].error.None?
                && IsComputationTransition(net, firings[i].transition)
  }

  // ---- One round of Run ----

  datatype NetState = NetState(m: Marking, mode: Mode)

  /** Everything in a round that the net does not determine: which breakers refused
      while collecting and after firing, the firing order, what the firings did, the order
      in which their tokens landed, the order in which failures were handled, and the error
      tokens that left. */
  datatype Choices = Choices(refused: set<string>, order: seq<string>, outcomes: seq<Outcome>,
                             landed: seq<Deposit>, handled: seq<nat>, errors: seq<Deposit>,
                             refusedAfter: set<string>)

  ghost predicate BreakersOf(net: Net, ids: set<string>) {
    forall id :: id in ids ==> id in net.transitions && net.transitions[id].hasBreaker
  }

  ghost predicate Quiescent(net: Net, s: NetState, refused: set<string>) {
    BreakersOf(net, refused) && FirableSet(net, s.mode, s.m) <= refused
  }

  /** The batch was taken and fired, its deposits landed in some order, and the failures
      handled so far left their error tokens. */
  ghost predicate BatchFired(net: Net, s: NetState, c: Choices, b: Batch, bridged: Mode, m: Marking) {
    && BreakersOf(net, c.refused)
    && Enumerates(c.order, FirableSet(net, s.mode, s.m) - c.refused)
    && c.order != []
    && b == TakeBatch(net, s.mode, s.m, c.order)
    && |c.outcomes| == |b.firings|
    && (forall i :: 0 <= i < |c.outcomes| ==> LegalOutcome(net, b.firings[i], c.outcomes[i]))
    && multiset(c.landed) == multiset(AllDeposits(c.outcomes))
    && Routed(net, b.firings, c.outcomes, c.handled, c.errors)
    && bridged == (if HumanBridged(net, b.firings, c.outcomes) then Centaurian else s.mode)
    && m == PutAll(PutAll(b.rest, c.landed), c.errors)
  }

  ghost predicate Round(net: Net, s: NetState, c: Choices, s': NetState) {
    var b := TakeBatch(net, s.mode, s.m, c.order);
    var bridged := if |c.outcomes| == |b.firings| && HumanBridged(net, b.firings, c.outcomes) then Centaurian else s.mode;
    && BatchFired(net, s, c, b, bridged, s'.m)
    && Enumerates(c.handled, Failures(c.outcomes))
    && BreakersOf(net, c.refusedAfter)
    && s'.mode == ModeAfter(net, bridged, s'.m, c.refusedAfter)
  }

  /** The batch fired as in a round, but some failure had no error place to go to: the run
      ends where it is, with what had landed and the error tokens routed before. */
  ghost predicate FailedRound(net: Net, s: NetState, c: Choices, s': NetState) {
    var b := TakeBatch(net, s.mode, s.m, c.order);
    && BatchFired(net, s, c, b, s'.mode, s'.m)
    && Unroutable(net, b.firings, c.outcomes, c.handled)
  }

  /** A run of rounds that did not fail. */
  ghost predicate Rounds(net: Net, states: seq<NetState>, choices: seq<Choices>) {
    && |states| == |choices| + 1
    && forall i :: 0 <= i < |choices| ==> Round(net, states[i], choices[i], states[i+1])
  }

  // ---- Completion (cpn.go TerminalPlaces, IsComplete) ----

  ghost predicate IsTerminal(net: Net, p: string) {
    && p in net.places
    && forall id :: id in net.transitions ==> p !in net.transitions[id].inputs
  }

  ghost predicate Complete(net: Net, m: Marking) {
    && (exists p :: IsTerminal(net, p))
    && (forall p :: IsTerminal(net, p) ==> p in m && m[p] != [])
  }

  /** Every token matches the colour and the space of the place that holds it. */
  ghost predicate WellTyped(net: Net, m: Marking) {
    && m.Keys == net.places.Keys
    && forall p, i :: p in m && 0 <= i < |m[p]| ==> Accepts(net.places[p], m[p][i])
  }

  // ---- Reset (cpn.go) ----

  function Emptied(m: Marking): Marking {
    map p | p in m :: []
  }

  /** The marking after SeedFunc's deposits; refused ones are dropped. */
  function Seeded(net: Net, m: Marking, seeds: seq<Deposit>): Marking
    decreases |seeds|
  {
    if seeds == [] then m
    else
      var d := seeds[0];
      Seeded(net, if d.place in net.places && Accepts(net.places[d.place], d.token) then Put(m, d) else m, seeds[1..])
  }
}
