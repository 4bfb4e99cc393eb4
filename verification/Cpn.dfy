/** The executor's objects: places with mutable queues, transitions with a breaker and
    a deprecation flag, and the net that owns them.  Each method is proved against the
    step semantics of module Net. */
module Cpn {
  import opened Wrappers
  import opened Order
  import opened Net
  import opened NetLaws
  import opened FiringLaws
  import opened NetInvariants
  import opened Validation
  import opened Mutation
  import R = Retry

  datatype PlaceError = ErrSpaceViolation | ErrColorMismatch | ErrSpaceMismatch

  class Place {
    const def: PlaceDef
    var tokens: seq<Token>

    constructor (def: PlaceDef)
      ensures this.def == def && tokens == []
    {
      this.def := def;
      tokens := [];
    }

    method Deposit(tok: Token) returns (err: Option<PlaceError>)
      modifies this
      ensures err == None <==> Accepts(def, tok)
      ensures tokens == if err.None? then old(tokens) + [tok] else old(tokens)
      ensures err == Some(ErrSpaceViolation) <==> tok.space == Surface && def.space == Computation
      ensures err == Some(ErrColorMismatch) ==> tok.color != def.color
      ensures err == Some(ErrSpaceMismatch) ==> tok.color == def.color && tok.space != def.space
    {
      if tok.space == Surface && def.space == Computation {
        return Some(ErrSpaceViolation);
      }
      if tok.color != def.color {
        return Some(ErrColorMismatch);
      }
      if tok.space != def.space {
        return Some(ErrSpaceMismatch);
      }
      tokens := tokens + [tok];
      return None;
    }

    /** Removes and returns the oldest token. */
    method Consume() returns (tok: Option<Token>)
      modifies this
      ensures old(tokens) == [] ==> tok == None && tokens == []
      ensures old(tokens) != [] ==> tok == Some(old(tokens)[0]) && tokens == old(tokens)[1..]
    {
      if tokens == [] {
        return None;
      }
      tok := Some(tokens[0]);
      tokens := tokens[1..];
    }

    method Clear()
      modifies this
      ensures tokens == []
    {
      tokens := [];
    }
  }

  class Transition {
    const def: TransitionDef
    var deprecated: bool
    var deprecateReason: string

    constructor (def: TransitionDef)
      ensures this.def == def && deprecated == def.deprecated
    {
      this.def := def;
      deprecated, deprecateReason := def.deprecated, "";
    }

    function View(): TransitionDef
      reads `deprecated
    {
      def.(deprecated := deprecated)
    }
  }

  /** The clock and the circuit breakers of the net's transitions. */
  class Env {
    const configs: map<string, R.BreakerConfig>
    var clock: int
    var breakers: map<string, R.BreakerState>

    ghost predicate Serves(net: Net)
      reads `breakers
    {
      && breakers.Keys == configs.Keys
      && forall id :: id in net.transitions ==> (id in configs <==> net.transitions[id].hasBreaker)
    }

    /** No breaker of these transitions is open. */
    ghost predicate Closed(ids: seq<string>)
      reads `breakers
    {
      forall id :: id in ids && id in breakers ==> breakers[id].trippedAt == None
    }

    /** The breakers of these transitions are open. */
    ghost predicate Open(ids: set<string>)
      reads `breakers
    {
      forall id :: id in ids ==> id in breakers && breakers[id].trippedAt.Some?
    }

    method Now() returns (now: int)
      modifies `clock
      ensures old(clock) <= clock == now
    {
      var later: int := *;
      if later > clock { clock := later; }
      now := clock;
    }

    /** `Allow`: refuses exactly while tripped and within the open period. */
    method Allow(id: string) returns (allowed: bool)
      requires breakers.Keys == configs.Keys && id in configs
      modifies this
      ensures breakers == old(breakers)[id := R.After(configs[id], old(breakers)[id], R.Asked(clock))]
      ensures allowed == !R.Refuses(configs[id], old(breakers)[id], clock)
    {
      var now := Now();
      var b := breakers[id];
      if b.trippedAt == None {
        allowed := true;
      } else if now - b.trippedAt.value > configs[id].openDuration {
        breakers := breakers[id := b.(trippedAt := None)];
        allowed := true;
      } else {
        allowed := false;
      }
      assert breakers == old(breakers)[id := R.After(configs[id], b, R.Asked(now))];
    }

    method Record(id: string, success: bool)
      requires breakers.Keys == configs.Keys && id in configs
      modifies this
      ensures breakers == old(breakers)[id := R.After(configs[id], old(breakers)[id],
                                                      if success then R.Succeeded else R.Failed(clock))]
    {
      var b := breakers[id];
      if success {
        breakers := breakers[id := R.BreakerState(0, None)];
      } else {
        var now := Now();
        var trippedAt := if b.failures + 1 >= configs[id].threshold then Some(now) else b.trippedAt;
        breakers := breakers[id := R.BreakerState(b.failures + 1, trippedAt)];
      }
    }
  }

  datatype State = Idle | Running | Waiting | Completed | Failed

  datatype RunError =
    | InvalidTopology(errors: seq<ValidationError>)
    | Timeout
    | Deadlock
    | FiringFailed(message: string)
    | ErrorPlaceRejected

  method HasBothOrigins(tokens: seq<Token>) returns (r: bool)
    ensures r == CentaurianGuard(tokens)
  {
    var hasHuman, hasAI := false, false;
    for i := 0 to |tokens|
      invariant hasHuman <==> exists tok :: tok in tokens[..i] && tok.IsHumanOrigin()
      invariant hasAI <==> exists tok :: tok in tokens[..i] && !tok.IsHumanOrigin()
      invariant !(hasHuman && hasAI)
    {
      assert tokens[..i+1] == tokens[..i] + [tokens[i]];
      if tokens[i].IsHumanOrigin() {
        hasHuman := true;
      } else {
        hasAI := true;
      }
      if hasHuman && hasAI {
        assert forall tok :: tok in tokens[..i+1] ==> tok in tokens;
        return true;
      }
    }
    assert tokens[..|tokens|] == tokens;
    return false;
  }

  lemma {:induction false} QueuedAppend(m: Marking, a: seq<string>, p: string)
    ensures Queued(m, a + [p]) == Queued(m, a) + if p in m then m[p] else []
    decreases |a|
  {
    if a == [] {
      assert a + [p] == [p];
      assert Queued(m, [p]) == (if p in m then m[p] else []) + Queued(m, []);
    } else {
      assert (a + [p])[1..] == a[1..] + [p];
      QueuedAppend(m, a[1..], p);
    }
  }

  /** What the loop's batch variable holds at each moment. */
  ghost predicate BatchSoFar(net: Net, mode: Mode, m0: Marking, order: seq<string>, k: nat,
                             m: Marking, firings: seq<Firing>)
    requires k <= |order|
  {
    var left := TakeBatch(net, mode, m, order[k..]);
    TakeBatch(net, mode, m0, order) == Batch(left.rest, firings + left.firings)
  }

  lemma {:induction false} BatchGrows(net: Net, mode: Mode, m0: Marking, order: seq<string>, k: nat,
                                      m: Marking, firings: seq<Firing>)
    requires k < |order| && BatchSoFar(net, mode, m0, order, k, m, firings)
    ensures Firable(net, mode, m, order[k]) ==>
              var t := net.transitions[order[k]];
              var c := Consume(m, t.inputs);
              BatchSoFar(net, mode, m0, order, k + 1, c.rest, firings + [Firing(t, c.taken)])
    ensures !Firable(net, mode, m, order[k]) ==> BatchSoFar(net, mode, m0, order, k + 1, m, firings)
  {
    assert order[k..][1..] == order[k+1..];
    if Firable(net, mode, m, order[k]) {
      var t := net.transitions[order[k]];
      var c := Consume(m, t.inputs);
      var b := TakeBatch(net, mode, c.rest, order[k+1..]);
      assert firings + ([Firing(t, c.taken)] + b.firings) == firings + [Firing(t, c.taken)] + b.firings;
    }
  }

  /** An entry of the executor's batch slice: the transition and the tokens it consumed. */
  datatype Launched = Launched(id: string, consumed: seq<Token>)

  ghost predicate Matches(net: Net, launched: seq<Launched>, firings: seq<Firing>) {
    && |launched| == |firings|
    && forall k :: 0 <= k < |launched| ==>
         && launched[k].id in net.transitions
         && firings[k].transition == net.transitions[launched[k].id]
         && launched[k].consumed == TokensOf(firings[k].taken)
  }

  lemma {:induction false} MatchesGrows(net: Net, launched: seq<Launched>, firings: seq<Firing>, id: string,
                                        taken: seq<Taken>)
    requires Matches(net, launched, firings) && id in net.transitions
    ensures Matches(net, launched + [Launched(id, TokensOf(taken))], firings + [Firing(net.transitions[id], taken)])
  {
  }

  /** What `consumeAll` has taken after looking at the first k inputs. */
  ghost predicate ConsumedSoFar(m0: Marking, inputs: seq<string>, k: nat, m: Marking, taken: seq<Taken>)
    requires k <= |inputs|
  {
    var left := Consume(m, inputs[k..]);
    Consume(m0, inputs) == Consumption(left.rest, taken + left.taken)
  }

  lemma {:induction false} ConsumptionGrows(m0: Marking, inputs: seq<string>, k: nat, m: Marking, taken: seq<Taken>)
    requires k < |inputs| && ConsumedSoFar(m0, inputs, k, m, taken)
    ensures var p := inputs[k];
            if p in m && m[p] != []
            then ConsumedSoFar(m0, inputs, k + 1, m[p := m[p][1..]], taken + [Taken(p, m[p][0])])
            else ConsumedSoFar(m0, inputs, k + 1, m, taken)
  {
    var p := inputs[k];
    assert inputs[k..][1..] == inputs[k+1..];
    if p in m && m[p] != [] {
      var c := Consume(m[p := m[p][1..]], inputs[k+1..]);
      assert taken + ([Taken(p, m[p][0])] + c.taken) == taken + [Taken(p, m[p][0])] + c.taken;
    }
  }

  /** The queues and the guards of one transition, with or without the injected guard. */
  ghost predicate InputsOk(m: Marking, t: TransitionDef, bothOrigins: bool) {
    && t.inputs != [] && Marked(m, t.inputs)
    && (bothOrigins ==> CentaurianGuard(Queued(m, t.inputs)))
    && (t.guard.Some? ==> t.guard.value(Queued(m, t.inputs)))
  }

  lemma {:induction false} CanFireParts(m: Marking, t: TransitionDef)
    ensures CanFire(m, t) <==> !t.deprecated && InputsOk(m, t, false)
  {
  }

  lemma {:induction false} EnabledParts(net: Net, mode: Mode, m: Marking, t: TransitionDef)
    ensures Enabled(net, mode, m, t) <==> !t.deprecated && InputsOk(m, t, NeedsBothOrigins(net, mode, t))
  {
  }

  /** What `collectFirable` holds after looking at everything outside `pending`. */
  ghost predicate Collected(net: Net, mode: Mode, m: Marking, firable: seq<string>,
                            pending: set<string>, refused: set<string>)
  {
    && BreakersOf(net, refused) && refused !! pending && pending <= net.transitions.Keys
    && NoRepeats(firable)
    && forall id :: id in firable <==>
         id in net.transitions && id !in pending && id !in refused && Firable(net, mode, m, id)
  }

  lemma {:induction false} CollectNone(net: Net, mode: Mode, m: Marking)
    ensures Collected(net, mode, m, [], net.transitions.Keys, {})
  {
  }

  lemma {:induction false} CollectOne(net: Net, mode: Mode, m: Marking, firable: seq<string>,
                                      pending: set<string>, refused: set<string>, id: string, ok: bool, refuses: bool)
    requires Collected(net, mode, m, firable, pending, refused) && id in pending
    requires ok <==> !refuses && Firable(net, mode, m, id)
    requires refuses ==> net.transitions[id].hasBreaker
    ensures Collected(net, mode, m, if ok then firable + [id] else firable, pending - {id},
                      if refuses then refused + {id} else refused)
  {
  }

  lemma {:induction false} CollectedAll(net: Net, mode: Mode, m: Marking, firable: seq<string>, refused: set<string>)
    requires Collected(net, mode, m, firable, {}, refused)
    ensures BreakersOf(net, refused) && Enumerates(firable, FirableSet(net, mode, m) - refused)
  {
    MembersEnumerated(firable, FirableSet(net, mode, m) - refused);
  }

  lemma {:induction false} TokensOfAppend(taken: seq<Taken>, t: Taken)
    ensures TokensOf(taken + [t]) == TokensOf(taken) + [t.token]
  {
  }

  lemma {:induction false} ConsumptionDone(m0: Marking, inputs: seq<string>, m: Marking, taken: seq<Taken>)
    requires ConsumedSoFar(m0, inputs, |inputs|, m, taken)
    ensures Consume(m0, inputs) == Consumption(m, taken)
  {
    assert inputs[|inputs|..] == [];
  }

  // ---- One attempt ----

  /** The token a firing makes of an answer: stamped, and in the colour its kind produces. */
  function Produced(owner: Owner, kind: Kind, answer: Token): (tok: Token)
    ensures Makes(owner, kind, tok) && tok.payload == answer.payload
  {
    var tok := answer.(originId := owner.id, originDepth := owner.depth, originKind := kind, sessionId := owner.sessionId);
    match kind
    case LLM => tok.(color := if answer.color == ColorJSON then ColorJSON else ColorArtifact)
    case RegisterTool => tok.(color := ColorArtifact, space := Computation)
    case Synthesize => tok.(color := ColorFlowRef)
    case TopologyMutate => tok.(color := if answer.color == ColorError then ColorError else ColorArtifact)
    case _ => tok
  }

  predicate ProducesOne(t: TransitionDef) {
    || (t.kind == Tool && t.handler.None?) || t.kind == LLM || t.kind == HITL || t.kind == RegisterTool
    || t.kind == Synthesize || t.kind == TopologyMutate
  }

  lemma {:induction false} OneTokenAttempt(net: Net, t: TransitionDef, consumed: seq<Token>, o: Outcome)
    requires ProducesOne(t) && OneToken(net, t, o)
    ensures Attempt(net, t, consumed, o)
  {
    hide OneToken;
  }

  lemma {:induction false} CopiedOne(net: Net, t: TransitionDef, tok: Token, o: Outcome)
    requires Copies(net, t, tok, o)
    ensures OneToken(net, t, o)
  {
    hide Copies;
  }

  lemma {:induction false} CopyFirst(net: Net, tok: Token, outputs: seq<string>, bridges: bool, i: nat, deposits: seq<Deposit>)
    requires i < |outputs|
    requires CopyInto(net, tok, outputs, bridges)
             == var rest := CopyInto(net, tok, outputs[i..], bridges); Outcome(deposits + rest.deposits, rest.error)
    ensures var p := outputs[i];
            if p !in net.places then CopyInto(net, tok, outputs, bridges) == Outcome(deposits, Some("output place not found"))
            else
              var copy := Adapted(tok, net.places[p], bridges);
              if !Accepts(net.places[p], copy) then CopyInto(net, tok, outputs, bridges) == Outcome(deposits, Some("deposit rejected"))
              else CopyInto(net, tok, outputs, bridges)
                   == var rest := CopyInto(net, tok, outputs[i+1..], bridges);
                      Outcome(deposits + [Deposit(p, copy)] + rest.deposits, rest.error)
  {
    assert outputs[i..][0] == outputs[i] && outputs[i..][1..] == outputs[i+1..];
    assert deposits + [] == deposits;
    if outputs[i] in net.places {
      var d := Deposit(outputs[i], Adapted(tok, net.places[outputs[i]], bridges));
      var rest := CopyInto(net, tok, outputs[i+1..], bridges);
      assert deposits + ([d] + rest.deposits) == deposits + [d] + rest.deposits;
    }
  }

  lemma {:induction false} CopyAllSnoc(net: Net, toks: seq<Token>, tok: Token, outputs: seq<string>)
    ensures var before, last := CopyAll(net, toks, outputs), CopyInto(net, tok, outputs, true);
            CopyAll(net, toks + [tok], outputs)
            == if before.error.Some? then before else Outcome(before.deposits + last.deposits, last.error)
    decreases |toks|
  {
    hide CopyInto;
    if toks == [] {
      CopyAllOne(net, [tok], outputs);
      assert [] + [tok] == [tok];
      assert [] + CopyInto(net, tok, outputs, true).deposits == CopyInto(net, tok, outputs, true).deposits;
    } else {
      assert (toks + [tok])[1..] == toks[1..] + [tok];
      CopyAllSnoc(net, toks[1..], tok, outputs);
      var first := CopyInto(net, toks[0], outputs, true);
      var rest, last := CopyAll(net, toks[1..], outputs), CopyInto(net, tok, outputs, true);
      assert first.deposits + (rest.deposits + last.deposits) == first.deposits + rest.deposits + last.deposits;
    }
  }

  lemma {:induction false} ShellDone(net: Net, t: TransitionDef, toks: seq<Token>, ended: bool, o: Outcome)
    requires t.bashCommand.Some? && ShellRan(net, t, toks, ended, o)
    ensures Shell(net, t, o)
  {
    hide ShellRan;
  }

  lemma {:induction false} ErrorTokenAccepted(owner: Owner, kind: Kind, place: PlaceDef, message: string)
    ensures Accepts(place, ErrorToken(owner, kind, place, message)) <==> place.color == ColorError
  {
  }

  // ---- Attempts and routing ----

  lemma {:induction false} DepositsSnoc(tries: seq<Outcome>, o: Outcome)
    ensures AllDeposits(tries + [o]) == AllDeposits(tries) + o.deposits
    decreases |tries|
  {
    if tries == [] {
      assert tries + [o] == [o] && [o][1..] == [];
      assert AllDeposits([]) == [];
      assert o.deposits + [] == o.deposits == [] + o.deposits;
    } else {
      assert (tries + [o])[1..] == tries[1..] + [o];
      DepositsSnoc(tries[1..], o);
      assert tries[0].deposits + (AllDeposits(tries[1..]) + o.deposits)
          == tries[0].deposits + AllDeposits(tries[1..]) + o.deposits;
    }
  }

  /** Failed attempts, one after the other. */
  ghost predicate Failing(net: Net, t: TransitionDef, consumed: seq<Token>, tries: seq<Outcome>) {
    forall i :: 0 <= i < |tries| ==> Attempt(net, t, consumed, tries[i]) && tries[i].error.Some?
  }

  lemma {:induction false} FailedAgain(net: Net, t: TransitionDef, consumed: seq<Token>, tries: seq<Outcome>, o: Outcome)
    requires Failing(net, t, consumed, tries) && Attempt(net, t, consumed, o) && o.error.Some?
    ensures Failing(net, t, consumed, tries + [o])
  {
    hide Attempt;
  }

  lemma {:induction false} LegalRefusal(net: Net, f: Firing, message: string)
    requires f.transition.hasBreaker
    ensures LegalOutcome(net, f, Outcome([], Some(message)))
  {
  }

  lemma {:induction false} LegalAfter(net: Net, f: Firing, tries: seq<Outcome>, once: Outcome, o: Outcome)
    requires Failing(net, f.transition, TokensOf(f.taken), tries)
    requires Attempt(net, f.transition, TokensOf(f.taken), once)
    requires tries == [] || |tries| < f.transition.maxAttempts
    requires o.deposits == AllDeposits(tries) + once.deposits && (o.error.Some? <==> once.error.Some?)
    requires o.error != once.error ==> |tries| + 1 < f.transition.maxAttempts
    ensures LegalOutcome(net, f, o)
  {
    hide Attempt, TokensOf;
    var all := tries + [once];
    DepositsSnoc(tries, once);
    assert forall i :: 0 <= i < |tries| ==> all[i] == tries[i];
    assert Tried(net, f.transition, TokensOf(f.taken), all, o);
  }

  lemma {:induction false} RoutedNone(net: Net, firings: seq<Firing>, outs: seq<Outcome>)
    requires |firings| == |outs|
    ensures Routed(net, firings, outs, [], [])
  {
  }

  lemma {:induction false} RouteOne(net: Net, firings: seq<Firing>, outs: seq<Outcome>, handled: seq<nat>,
                                    errors: seq<Deposit>, i: nat)
    requires |firings| == |outs| && Routed(net, firings, outs, handled, errors)
    requires i in Failures(outs) && i !in handled && Routable(net, firings[i].transition)
    ensures Routed(net, firings, outs, handled + [i],
                   errors + [ErrorDeposit(net, firings[i].transition, outs[i].error.value)])
  {
    hide Routable, ErrorDeposit;
  }

  lemma {:induction false} NoRoute(net: Net, firings: seq<Firing>, outs: seq<Outcome>, handled: seq<nat>, i: nat)
    requires |firings| == |outs| && i in Failures(outs) && i !in handled && !Routable(net, firings[i].transition)
    ensures Unroutable(net, firings, outs, handled)
  {
    hide Routable;
  }

  lemma {:induction false} AllRouted(net: Net, firings: seq<Firing>, outs: seq<Outcome>, handled: seq<nat>,
                                     errors: seq<Deposit>)
    requires |firings| == |outs| && Routed(net, firings, outs, handled, errors)
    requires forall i :: i in Failures(outs) ==> i in handled
    ensures Enumerates(handled, Failures(outs))
  {
    hide Routable, ErrorDeposit, Failures, NoRepeats;
    MembersEnumerated(handled, Failures(outs));
  }

  datatype RoundEnd = Fired | Quiet | Broken(error: RunError)

  lemma {:induction false} NothingToFire(net: Net, s: NetState, refused: set<string>)
    requires BreakersOf(net, refused) && Enumerates([], FirableSet(net, s.mode, s.m) - refused)
    ensures Quiescent(net, s, refused)
  {
    var left := FirableSet(net, s.mode, s.m) - refused;
    EnumerationMembers<string>([], left);
    assert forall id :: id in FirableSet(net, s.mode, s.m) ==> id in refused || id in left;
  }

  lemma {:induction false} SortedStillFirable(net: Net, s: NetState, firable: seq<string>, order: seq<string>,
                                              refused: set<string>)
    requires Enumerates(firable, FirableSet(net, s.mode, s.m) - refused) && firable != []
    requires multiset(order) == multiset(firable)
    ensures Enumerates(order, FirableSet(net, s.mode, s.m) - refused) && order != []
    ensures forall id :: id in order ==> id in firable && Firable(net, s.mode, s.m, id)
  {
    hide Enabled;
    EnumerationMembers(order, FirableSet(net, s.mode, s.m) - refused);
    EnumerationMembers(firable, FirableSet(net, s.mode, s.m) - refused);
    assert firable[0] in order;
  }

  /** Taken, fired, landed and routed. */
  lemma {:induction false} IsFired(net: Net, s: NetState, c: Choices, b: Batch, bridged: Mode, m: Marking)
    requires BreakersOf(net, c.refused)
    requires Enumerates(c.order, FirableSet(net, s.mode, s.m) - c.refused) && c.order != []
    requires b == TakeBatch(net, s.mode, s.m, c.order)
    requires |c.outcomes| == |b.firings|
    requires forall i :: 0 <= i < |c.outcomes| ==> LegalOutcome(net, b.firings[i], c.outcomes[i])
    requires multiset(c.landed) == multiset(AllDeposits(c.outcomes))
    requires Routed(net, b.firings, c.outcomes, c.handled, c.errors)
    requires bridged == if HumanBridged(net, b.firings, c.outcomes) then Centaurian else s.mode
    requires m == PutAll(PutAll(b.rest, c.landed), c.errors)
    ensures BatchFired(net, s, c, b, bridged, m)
  {
    hide LegalOutcome, Routed, HumanBridged, TakeBatch, FirableSet, PutAll;
  }

  /** And settled: that is a round. */
  lemma {:induction false} IsRound(net: Net, s: NetState, c: Choices, b: Batch, bridged: Mode, s': NetState)
    requires BatchFired(net, s, c, b, bridged, s'.m)
    requires Enumerates(c.handled, Failures(c.outcomes)) && BreakersOf(net, c.refusedAfter)
    requires s'.mode == ModeAfter(net, bridged, s'.m, c.refusedAfter)
    ensures Round(net, s, c, s')
  {
    hide LegalOutcome, Routed, HumanBridged, ModeAfter, TakeBatch, FirableSet, PutAll;
  }

  lemma {:induction false} IsFailedRound(net: Net, s: NetState, c: Choices, b: Batch, s': NetState)
    requires BatchFired(net, s, c, b, s'.mode, s'.m) && Unroutable(net, b.firings, c.outcomes, c.handled)
    ensures FailedRound(net, s, c, s')
  {
    hide LegalOutcome, Routed, HumanBridged, Unroutable, TakeBatch, FirableSet, PutAll;
  }

  lemma {:induction false} ClosedAfterSort(env: Env, firable: seq<string>, order: seq<string>)
    requires env.Closed(firable) && forall id :: id in order ==> id in firable
    ensures env.Closed(order)
  {
  }

  lemma {:induction false} RunStarts(net: Net, s: NetState)
    ensures Rounds(net, [s], [])
  {
  }

  lemma {:induction false} RunExtended(net: Net, states: seq<NetState>, choices: seq<Choices>, c: Choices, s': NetState)
    requires Rounds(net, states, choices) && Round(net, states[|choices|], c, s')
    ensures Rounds(net, states + [s'], choices + [c])
  {
    hide Round;
  }

  lemma {:induction false} SeedOne(net: Net, m: Marking, seeds: seq<Deposit>, i: nat)
    requires i < |seeds|
    ensures var d := seeds[i];
            Seeded(net, m, seeds[i..])
            == Seeded(net, if d.place in net.places && Accepts(net.places[d.place], d.token) then Put(m, d) else m,
                      seeds[i+1..])
  {
    assert seeds[i..][1..] == seeds[i+1..];
  }

  /** Two names never stand for the same object. */
  ghost predicate Distinct<V>(objects: map<string, V>) {
    forall a, b :: a in objects && b in objects && objects[a] == objects[b] ==> a == b
  }

  lemma {:induction false} DistinctAt<V>(objects: map<string, V>, k: string)
    requires Distinct(objects) && k in objects
    ensures forall a :: a in objects && a != k ==> objects[a] != objects[k]
  {
  }

  lemma {:induction false} DistinctAdd<V>(objects: map<string, V>, k: string, v: V)
    requires Distinct(objects) && v !in objects.Values
    ensures Distinct(objects[k := v])
  {
    forall a | a in objects ensures objects[a] != v {
      assert objects[a] in objects.Values;
    }
  }

  lemma {:induction false} DistinctRemove<V>(objects: map<string, V>, k: string)
    requires Distinct(objects)
    ensures Distinct(objects - {k})
  {
  }

  lemma {:induction false} AddThenRemove<V>(before: map<string, V>, k: string, v: V)
    requires k !in before
    ensures before[k := v] - {k} == before
  {
    assert (before[k := v] - {k}).Keys == before.Keys;
  }

  class CPN {
    const owner: Owner
    const mutableAfterStart: bool
    const initialMode: Mode
    /** What SeedFunc deposits after a reset. */
    const seeds: seq<Deposit>
    var mode: Mode
    var state: State
    var error: Option<RunError>
    var places: map<string, Place>
    var transitions: map<string, Transition>

    // ---- Abstract view ----

    ghost var net: Net
    ghost var m: Marking

    /** The place objects hold what the net and the marking say; distinct names are
        distinct objects. */
    ghost predicate PlacesLinked()
      reads `places, `net, `m, places.Values
    {
      && Distinct(places)
      && net.places.Keys == places.Keys == m.Keys
      && (forall p :: p in places ==> net.places[p] == places[p].def && m[p] == places[p].tokens)
    }

    /** So do the transition objects, which are filed under their own ID. */
    ghost predicate TransitionsLinked()
      reads `transitions, `net, transitions.Values
    {
      && Distinct(transitions)
      && net.owner == owner
      && net.transitions.Keys == transitions.Keys
      && (forall id :: id in transitions ==>
            && transitions[id].def.id == id
            && net.transitions[id] == transitions[id].View())
    }

    ghost predicate Linked()
      reads `places, `transitions, `net, `m, places.Values, transitions.Values
    {
      PlacesLinked() && TransitionsLinked()
    }

    constructor (owner: Owner, mode: Mode, places: map<string, Place>, transitions: map<string, Transition>,
                 seeds: seq<Deposit>, mutableAfterStart: bool)
      requires Distinct(places)
      requires Distinct(transitions)
      requires forall id :: id in transitions ==> transitions[id].def.id == id
      ensures Linked() && this.owner == owner && this.mode == mode && initialMode == mode
      ensures state == Idle && error == None
      ensures this.places == places && this.transitions == transitions
      ensures this.seeds == seeds && this.mutableAfterStart == mutableAfterStart
    {
      this.owner, this.mode, initialMode, state, error := owner, mode, mode, Idle, None;
      this.places, this.transitions := places, transitions;
      this.seeds, this.mutableAfterStart := seeds, mutableAfterStart;
      net := Net(owner, map p | p in places :: places[p].def, map id | id in transitions :: transitions[id].View());
      m := map p | p in places :: places[p].tokens;
    }

    // ---- Enabling ----

    method IsComputation(t: Transition) returns (r: bool)
      requires Linked()
      ensures r == IsComputationTransition(net, t.View())
    {
      for i := 0 to |t.def.outputs|
        invariant forall p :: p in t.def.outputs[..i] ==> !(p in net.places && net.places[p].space == Computation)
      {
        var p := t.def.outputs[i];
        assert t.def.outputs[..i+1] == t.def.outputs[..i] + [p];
        assert p in t.View().outputs;
        if p in places && places[p].def.space == Computation {
          return true;
        }
      }
      assert t.def.outputs[..|t.def.outputs|] == t.View().outputs;
      return false;
    }

    /** Peeks at every input place; fails on the first that is missing or empty. */
    method PeekAll(inputs: seq<string>) returns (ok: bool, tokens: seq<Token>)
      requires Linked()
      ensures ok == Marked(m, inputs)
      ensures ok ==> tokens == Queued(m, inputs)
    {
      tokens := [];
      for i := 0 to |inputs|
        invariant Marked(m, inputs[..i])
        invariant tokens == Queued(m, inputs[..i])
      {
        var p := inputs[i];
        assert inputs[..i+1] == inputs[..i] + [p];
        assert p in inputs;
        if p !in places || places[p].tokens == [] {
          return false, [];
        }
        QueuedAppend(m, inputs[..i], p);
        tokens := tokens + places[p].tokens;
      }
      assert inputs[..|inputs|] == inputs;
      return true, tokens;
    }

    /** Asks the transition's breaker, if it has one; it refuses only while open. */
    method AskBreaker(t: Transition, env: Env, ghost closed: seq<string>, ghost open: set<string>)
      returns (allowed: bool)
      requires env.Serves(net) && env.Closed(closed) && env.Open(open) && t.def.id !in open
      requires t.def.id in net.transitions && net.transitions[t.def.id].hasBreaker == t.def.hasBreaker
      modifies env
      ensures env.Serves(net) && env.Closed(closed) && env.Open(open)
      ensures !allowed ==> t.def.hasBreaker && t.def.id !in closed && env.Open(open + {t.def.id})
      ensures allowed ==> env.Closed([t.def.id])
    {
      allowed := true;
      if t.def.hasBreaker {
        allowed := env.Allow(t.def.id);
      }
    }

    /** Queues and guard, in the order the code looks at them. */
    method InputsEnable(t: Transition, bothOrigins: bool) returns (ok: bool)
      requires Linked()
      ensures ok <==> InputsOk(m, t.View(), bothOrigins)
    {
      hide Linked, PlacesLinked, TransitionsLinked, Marked, CentaurianGuard;
      if t.def.inputs == [] {
        return false;
      }
      var marked, tokens := PeekAll(t.def.inputs);
      if !marked {
        return false;
      }
      if bothOrigins {
        var both := HasBothOrigins(tokens);
        if !both {
          return false;
        }
      }
      if t.def.guard.Some? {
        return t.def.guard.value(tokens);
      }
      return true;
    }

    /** `effectiveCanFire`: the deprecation flag, the breaker, the queues, the guard, and in
        Centaurian mode the injected guard.  `refused` says that the breaker refused. */
    method EffectiveCanFire(id: string, env: Env, ghost closed: seq<string>, ghost open: set<string>)
      returns (ok: bool, ghost refused: bool)
      requires Linked() && id in transitions && id in net.transitions && env.Serves(net) && env.Closed(closed)
      requires env.Open(open) && id !in open
      modifies env
      ensures env.Serves(net) && env.Closed(closed) && env.Open(open)
      ensures ok <==> !refused && Enabled(net, mode, m, net.transitions[id])
      ensures refused ==> net.transitions[id].hasBreaker && id !in closed && env.Open(open + {id})
      ensures ok ==> env.Closed([id])
    {
      hide Enabled, InputsOk, IsComputationTransition;
      var t := transitions[id];
      EnabledParts(net, mode, m, net.transitions[id]);
      ok, refused := false, false;
      if !t.deprecated {
        var bothOrigins := false;
        if mode == Centaurian && t.def.kind != HITL {
          bothOrigins := IsComputation(t);
        }
        var allowed := AskBreaker(t, env, closed, open);
        refused := !allowed;
        if allowed {
          ok := InputsEnable(t, bothOrigins);
        }
      }
    }

    /** `collectFirable`: the transitions come in any order. */
    method CollectFirable(env: Env) returns (firable: seq<string>, ghost refused: set<string>)
      requires Linked() && env.Serves(net)
      modifies env
      ensures env.Serves(net) && env.Closed(firable) && env.Open(refused)
      ensures BreakersOf(net, refused)
      ensures Enumerates(firable, FirableSet(net, mode, m) - refused)
    {
      hide Enabled, BreakersOf, NoRepeats;
      firable := [];
      var pending := transitions.Keys;
      refused := {};
      CollectNone(net, mode, m);
      while pending != {}
        invariant env.Serves(net) && env.Closed(firable) && env.Open(refused)
        invariant pending <= transitions.Keys && refused !! pending
        invariant Collected(net, mode, m, firable, pending, refused)
      {
        hide Collected;
        var id :| id in pending;
        var ok := false;
        ghost var r := false;
        if transitions[id].def.kind != Observer {
          ok, r := EffectiveCanFire(id, env, firable, refused);
        }
        CollectOne(net, mode, m, firable, pending, refused, id, ok, r);
        pending := pending - {id};
        if r { refused := refused + {id}; }
        if ok { firable := firable + [id]; }
      }
      CollectedAll(net, mode, m, firable, refused);
    }

    // ---- Consuming and depositing ----

    method TakeFrom(p: string) returns (tok: Option<Token>)
      requires Linked() && p in places
      modifies `m, places[p]
      ensures Linked()
      ensures var q := old(m)[p];
              if q == [] then tok == None && m == old(m)
              else tok == Some(q[0]) && m == old(m)[p := q[1..]]
    {
      hide TransitionsLinked, Distinct;
      DistinctAt(places, p);
      tok := places[p].Consume();
      if tok.Some? { m := m[p := places[p].tokens]; }
      assert PlacesLinked() by {
        forall q | q in places ensures net.places[q] == places[q].def && m[q] == places[q].tokens {
          assert q != p ==> places[q].tokens == old(places[q].tokens);
        }
      }
    }

    method PutIn(d: Deposit)
      requires Linked() && d.place in places && Accepts(net.places[d.place], d.token)
      modifies `m, places[d.place]
      ensures Linked() && m == Put(old(m), d)
    {
      hide TransitionsLinked, Distinct;
      DistinctAt(places, d.place);
      var err := places[d.place].Deposit(d.token);
      m := m[d.place := places[d.place].tokens];
      assert PlacesLinked() by {
        forall q | q in places ensures net.places[q] == places[q].def && m[q] == places[q].tokens {
          assert q != d.place ==> places[q].tokens == old(places[q].tokens);
        }
      }
    }

    /** `consumeAll`: the head token of each input place that has one. */
    method ConsumeAll(inputs: seq<string>) returns (consumed: seq<Token>, ghost taken: seq<Taken>)
      requires Linked()
      modifies `m, places.Values
      ensures Linked()
      ensures Consumption(m, taken) == Consume(old(m), inputs)
      ensures consumed == TokensOf(taken)
    {
      consumed, taken := [], [];
      assert inputs[0..] == inputs;
      for i := 0 to |inputs|
        invariant Linked()
        invariant ConsumedSoFar(old(m), inputs, i, m, taken)
        invariant consumed == TokensOf(taken)
      {
        ConsumptionGrows(old(m), inputs, i, m, taken);
        if inputs[i] in places {
          var tok := TakeFrom(inputs[i]);
          if tok.Some? {
            TokensOfAppend(taken, Taken(inputs[i], tok.value));
            consumed := consumed + [tok.value];
            taken := taken + [Taken(inputs[i], tok.value)];
          }
        }
      }
      ConsumptionDone(old(m), inputs, m, taken);
    }

    /** Deposits land one after the other. */
    method Land(ds: seq<Deposit>)
      requires Linked()
      requires Acceptable(net, ds)
      modifies `m, places.Values
      ensures Linked() && m == PutAll(old(m), ds)
    {
      for i := 0 to |ds|
        invariant Linked()
        invariant PutAll(old(m), ds) == PutAll(m, ds[i..])
      {
        assert ds[i] in ds;
        PutIn(ds[i]);
        assert ds[i..][1..] == ds[i+1..];
      }
    }

    /** The re-check of one collected transition, and its consumption. */
    method TakeFiring(id: string, env: Env, ghost closed: seq<string>)
      returns (ok: bool, consumed: seq<Token>, ghost taken: seq<Taken>)
      requires Linked() && id in transitions && transitions[id].def.kind != Observer
      requires env.Serves(net) && env.Closed(closed) && id in closed
      modifies env, `m, places.Values
      ensures Linked() && env.Serves(net) && env.Closed(closed)
      ensures ok <==> Firable(net, mode, old(m), id)
      ensures ok ==> Consumption(m, taken) == Consume(old(m), net.transitions[id].inputs) && consumed == TokensOf(taken)
      ensures !ok ==> m == old(m)
    {
      hide Enabled;
      ghost var refused;
      consumed, taken := [], [];
      ok, refused := EffectiveCanFire(id, env, closed, {});
      if ok {
        consumed, taken := ConsumeAll(transitions[id].def.inputs);
      }
    }

    /** The batch: re-check each collected transition and consume its inputs. */
    method TakeFirings(order: seq<string>, env: Env) returns (batch: seq<Launched>, ghost firings: seq<Firing>)
      requires Linked() && env.Serves(net) && env.Closed(order)
      requires forall id :: id in order ==> id in transitions && transitions[id].def.kind != Observer
      modifies env, `m, places.Values
      ensures Linked() && env.Serves(net)
      ensures TakeBatch(net, mode, old(m), order) == Batch(m, firings)
      ensures Matches(net, batch, firings)
    {
      batch, firings := [], [];
      assert order[0..] == order;
      for i := 0 to |order|
        invariant Linked() && env.Serves(net) && env.Closed(order)
        invariant BatchSoFar(net, mode, old(m), order, i, m, firings)
        invariant Matches(net, batch, firings)
      {
        hide Matches, BatchSoFar;
        assert order[i] in order;
        BatchGrows(net, mode, old(m), order, i, m, firings);
        var ok, consumed;
        ghost var tagged;
        ok, consumed, tagged := TakeFiring(order[i], env, order);
        if ok {
          MatchesGrows(net, batch, firings, order[i], tagged);
          batch := batch + [Launched(order[i], consumed)];
          firings := firings + [Firing(net.transitions[order[i]], tagged)];
        }
      }
      assert TakeBatch(net, mode, m, order[|order|..]) == Batch(m, []);
    }

    // ---- Firing ----

    /** The deposit loop of `fireToolHandler`: one result per output place, in order. */
    method DepositResults(t: Transition, kind: Kind, results: map<string, Token>) returns (o: Outcome)
      requires Linked()
      ensures o == DepositOutputs(net, kind, results, t.def.outputs)
    {
      var deposits: seq<Deposit> := [];
      ghost var outputs := t.def.outputs;
      assert outputs[0..] == outputs;
      for i := 0 to |t.def.outputs|
        invariant var rest := DepositOutputs(net, kind, results, outputs[i..]);
                  DepositOutputs(net, kind, results, outputs) == Outcome(deposits + rest.deposits, rest.error)
      {
        var p := t.def.outputs[i];
        assert outputs[i..][0] == p && outputs[i..][1..] == outputs[i+1..];
        if p !in places {
          assert deposits + [] == deposits;
          return Outcome(deposits, Some("output place not found"));
        }
        if p !in results {
          assert deposits + [] == deposits;
          return Outcome(deposits, Some("no token for output place"));
        }
        var tok := Stamp(owner, kind, places[p].def, results[p]);
        if !Accepts(places[p].def, tok) {
          assert deposits + [] == deposits;
          return Outcome(deposits, Some("deposit rejected"));
        }
        ghost var rest := DepositOutputs(net, kind, results, outputs[i+1..]);
        assert deposits + ([Deposit(p, tok)] + rest.deposits) == deposits + [Deposit(p, tok)] + rest.deposits;
        deposits := deposits + [Deposit(p, tok)];
      }
      assert outputs[|outputs|..] == [];
      assert deposits + [] == deposits;
      return Outcome(deposits, None);
    }

    /** The deposit loop of the firings that make one token. */
    method CopyToken(t: Transition, tok: Token, bridges: bool) returns (o: Outcome)
      requires Linked()
      ensures o == CopyInto(net, tok, t.def.outputs, bridges)
    {
      var deposits: seq<Deposit> := [];
      ghost var outputs := t.def.outputs;
      assert outputs[0..] == outputs;
      for i := 0 to |t.def.outputs|
        invariant CopyInto(net, tok, outputs, bridges)
               == var rest := CopyInto(net, tok, outputs[i..], bridges); Outcome(deposits + rest.deposits, rest.error)
      {
        hide TransitionsLinked, CopyInto;
        CopyFirst(net, tok, outputs, bridges, i, deposits);
        var p := t.def.outputs[i];
        if p !in places {
          return Outcome(deposits, Some("output place not found"));
        }
        LinkedPlace(p);
        var copy := Adapted(tok, places[p].def, bridges);
        if !Accepts(places[p].def, copy) {
          return Outcome(deposits, Some("deposit rejected"));
        }
        deposits := deposits + [Deposit(p, copy)];
      }
      assert outputs[|outputs|..] == [];
      assert deposits + [] == deposits;
      return Outcome(deposits, None);
    }

    /** A tool with an executor, a model, a human, a registration, a synthesis or a mutation:
        an answer of its kind, copied to the outputs, or an error. */
    method FireOneToken(t: Transition) returns (o: Outcome)
      requires Linked() && ProducesOne(t.def)
      ensures OneToken(net, t.View(), o)
    {
      hide Linked, PlacesLinked, TransitionsLinked, CopyInto, OneToken;
      var answer: Result<Token, string> := *;
      match answer
      case Err(e) =>
        FailedAttempt(t, e);
        o := Outcome([], Some(e));
      case Ok(said) =>
        LinkedOwner();
        var tok := Produced(owner, t.def.kind, said);
        o := CopyToken(t, tok, Bridges(t.def.kind));
        if t.def.kind == TopologyMutate && tok.color == ColorError {
          o := Outcome(o.deposits, Some(tok.payload));
        }
        CopiedOne(net, t.View(), tok, o);
    }

    lemma {:induction false} FailedAttempt(t: Transition, message: string)
      ensures OneToken(net, t.View(), Outcome([], Some(message)))
    {
    }

    lemma {:induction false} LinkedOwner()
      requires Linked()
      ensures net.owner == owner
    {
    }

    /** `fireValidate`: a valid payload goes to the outputs; an invalid one is corrected by a
        model at most ten times, and left in the error place when that does not help. */
    method FireValidate(t: Transition, consumed: seq<Token>) returns (o: Outcome, calls: nat)
      requires Linked()
      ensures Validated(net, t.View(), consumed, o)
      ensures calls <= MAX_CORRECTIONS
      ensures t.def.validation.Some? ==> calls <= Corrections(t.def.validation.value)
    {
      hide Linked, PlacesLinked, TransitionsLinked, CopyInto, InvalidRouted, DepositValidated;
      calls := 0;
      if t.def.validation.None? || consumed == [] {
        return Outcome([], Some("nothing to validate")), 0;
      }
      var cfg, color, payload := t.def.validation.value, consumed[0].color, consumed[0].payload;
      if cfg.valid(payload) {
        o := DepositPayload(t, cfg, color, payload);
        return;
      }
      var maxCorr := if cfg.maxCorrections < MAX_CORRECTIONS then cfg.maxCorrections else MAX_CORRECTIONS;
      if maxCorr <= 0 || !cfg.hasCorrector {
        o := RouteInvalid(t);
        return;
      }
      while calls < maxCorr
        invariant calls <= maxCorr
      {
        var corrected: Result<string, string> := *;
        calls := calls + 1;
        match corrected {
          case Err(e) => return Outcome([], Some(e)), calls;
          case Ok(fixed) =>
            if cfg.valid(fixed) {
              o := DepositPayload(t, cfg, color, fixed);
              return;
            }
        }
      }
      o := RouteInvalid(t);
    }

    /** `depositValidated`. */
    method DepositPayload(t: Transition, cfg: ValidateConfig, color: Color, payload: string) returns (o: Outcome)
      requires Linked()
      ensures o == DepositValidated(net, t.View(), cfg, color, payload)
    {
      hide Linked, PlacesLinked, TransitionsLinked, CopyInto;
      LinkedOwner();
      o := CopyToken(t, Token(color, cfg.onSuccess(payload), NoSpace, owner.id, owner.depth, Validate, owner.sessionId), true);
    }

    /** `routeValidationError`. */
    method RouteInvalid(t: Transition) returns (o: Outcome)
      requires Linked()
      ensures InvalidRouted(net, t.View(), o)
    {
      hide Linked, PlacesLinked, TransitionsLinked, Accepts;
      LinkedKeys();
      var ep := t.def.errorPlace;
      if ep == "" || ep !in places {
        return Outcome([], Some("validation failed"));
      }
      LinkedPlace(ep);
      var message: string := *;
      var tok := ErrorToken(owner, t.def.kind, places[ep].def, message);
      ErrorTokenAccepted(owner, t.def.kind, places[ep].def, message);
      if !Accepts(places[ep].def, tok) {
        return Outcome([], Some("deposit rejected"));
      }
      o := Outcome([Deposit(ep, tok)], None);
      assert o.deposits == [ErrorDeposit(net, t.View(), message)];
    }

    /** `fireBash`: a token for each chunk the command prints, then its result; the command
        or the host can fail at any point. */
    method FireBash(t: Transition) returns (o: Outcome)
      requires Linked()
      ensures Shell(net, t.View(), o)
    {
      hide Linked, PlacesLinked, TransitionsLinked, CopyInto, CopyAll, Shell;
      if t.def.bashCommand.None? {
        NoCommand(t);
        return Outcome([], Some("nil BashConfig"));
      }
      LinkedOwner();
      var printed: seq<string> := *;
      var deposits: seq<Deposit> := [];
      ghost var toks: seq<Token> := [];
      NothingCopied(t.def.outputs);
      for i := 0 to |printed|
        invariant ShellTokens(owner, toks, false)
        invariant CopyAll(net, toks, t.def.outputs) == Outcome(deposits, None)
      {
        var tok := Token(ColorShellChunk, printed[i], NoSpace, owner.id, owner.depth, Bash, owner.sessionId);
        o := CopyToken(t, tok, true);
        CopyAllSnoc(net, toks, tok, t.def.outputs);
        toks := toks + [tok];
        deposits := deposits + o.deposits;
        if o.error.Some? {
          o := Outcome(deposits, o.error);
          ShellDone(net, t.View(), toks, false, o);
          return;
        }
      }
      var result: Result<string, string> := *;
      match result
      case Err(e) =>
        o := Outcome(deposits, Some(e));
        ShellDone(net, t.View(), toks, false, o);
      case Ok(captured) =>
        var tok := Token(ColorShellResult, captured, NoSpace, owner.id, owner.depth, Bash, owner.sessionId);
        o := CopyToken(t, tok, true);
        CopyAllSnoc(net, toks, tok, t.def.outputs);
        toks := toks + [tok];
        var exited: Option<string> := *;
        o := Outcome(deposits + o.deposits, if o.error.Some? then o.error else exited);
        ShellDone(net, t.View(), toks, true, o);
    }

    lemma {:induction false} NoCommand(t: Transition)
      requires t.def.bashCommand.None?
      ensures Shell(net, t.View(), Outcome([], Some("nil BashConfig")))
    {
    }

    lemma {:induction false} NothingCopied(outputs: seq<string>)
      ensures CopyAll(net, [], outputs) == Outcome([], None)
    {
    }

    /** `fireInstantiate`, once the child has run: its tokens go to the places they are
        mapped to, recoloured to fit; a failed child's error to the error place. */
    method FireInstantiate(t: Transition) returns (o: Outcome)
      requires Linked()
      ensures Instantiated(net, t.View(), o)
    {
      hide TransitionsLinked, Linked, PlacesLinked;
      LinkedKeys();
      var child: Result<seq<(string, Token)>, string> := *;
      var started: bool := *;
      var ep := t.def.errorPlace;
      match child
      case Err(e) =>
        if started && ep != "" && ep in places {
          LinkedPlace(ep);
          var origin: Owner := *;
          var tok := ErrorToken(origin, Instantiate, places[ep].def, e);
          o := Outcome(if Accepts(places[ep].def, tok) then [Deposit(ep, tok)] else [], None);
        } else {
          o := Outcome([], Some(e));
        }
      case Ok(terminals) =>
        var deposits: seq<Deposit> := [];
        for i := 0 to |terminals|
          invariant Instantiated(net, t.View(), Outcome(deposits, None))
          invariant forall k :: 0 <= k < |deposits| ==> ReceivesFromChild(t.View(), deposits[k].place)
        {
          var p := terminals[i].0;
          if (if t.def.mapped != {} then p in t.def.mapped else p in t.def.outputs) && p in places {
            LinkedPlace(p);
            var place := places[p].def;
            var copy := terminals[i].1.(originKind := Instantiate, color := place.color, space := place.space);
            deposits := deposits + [Deposit(p, copy)];
          }
        }
        o := Outcome(deposits, None);
    }

    /** `dispatch`: one attempt, by the transition's kind.  A sub-net is only started. */
    method Dispatch(t: Transition, consumed: seq<Token>) returns (o: Outcome)
      requires Linked()
      ensures Attempt(net, t.View(), consumed, o)
    {
      hide Linked, PlacesLinked, TransitionsLinked, OneToken, Validated, Shell, Instantiated, HandlerOutcome;
      var kind := t.def.kind;
      if kind == Tool && t.def.handler.Some? {
        o := FireToolHandler(t, consumed);
      } else if ProducesOne(t.def) {
        o := FireOneToken(t);
        OneTokenAttempt(net, t.View(), consumed, o);
      } else if kind == Validate {
        var calls;
        o, calls := FireValidate(t, consumed);
      } else if kind == Bash {
        o := FireBash(t);
      } else if kind == Instantiate {
        o := FireInstantiate(t);
      } else if kind == SubNet {
        var error: Option<string> := *;
        o := Outcome([], error);
      } else {
        o := Outcome([], Some("invalid node kind"));
      }
    }

    method FireToolHandler(t: Transition, consumed: seq<Token>) returns (o: Outcome)
      requires Linked() && t.def.handler.Some?
      ensures o == HandlerOutcome(net, t.View(), consumed)
    {
      hide Linked, PlacesLinked, TransitionsLinked, DepositOutputs;
      var results := t.def.handler.value(consumed);
      match results
      case Err(e) => o := Outcome([], Some(e));
      case Ok(tokens) => o := DepositResults(t, Tool, tokens);
    }

    lemma {:induction false} FiringFacts(id: string, env: Env)
      requires Linked() && env.Serves(net) && id in transitions && id in net.transitions
      ensures net.transitions[id] == transitions[id].def.(deprecated := transitions[id].deprecated)
      ensures env.breakers.Keys == env.configs.Keys && (id in env.configs <==> transitions[id].def.hasBreaker)
    {
    }

    /** A firing with its retries; every attempt is recorded on the breaker. */
    method Fire(id: string, consumed: seq<Token>, ghost taken: seq<Taken>, env: Env) returns (o: Outcome)
      requires Linked() && env.Serves(net) && id in transitions && id in net.transitions
      requires consumed == TokensOf(taken)
      modifies env
      ensures env.Serves(net)
      ensures LegalOutcome(net, Firing(net.transitions[id], taken), o)
    {
      hide Linked, PlacesLinked, TransitionsLinked, Attempt, LegalOutcome, TokensOf, AllDeposits, Failing;
      var t := transitions[id];
      ghost var def := net.transitions[id];
      FiringFacts(id, env);
      if t.def.hasBreaker {
        var allowed := env.Allow(id);
        if !allowed {
          LegalRefusal(net, Firing(def, taken), R.CIRCUIT_OPEN);
          return Outcome([], Some(R.CIRCUIT_OPEN));
        }
      }
      var deposits: seq<Deposit> := [];
      ghost var tries: seq<Outcome> := [];
      NothingTried(def, consumed);
      var attempt := 1;
      while true
        invariant env.breakers.Keys == env.configs.Keys
        invariant Failing(net, def, consumed, tries) && deposits == AllDeposits(tries)
        invariant tries == [] || |tries| < t.def.maxAttempts
        invariant |tries| == attempt - 1
        decreases t.def.maxAttempts - attempt
      {
        var once := Dispatch(t, consumed);
        if t.def.hasBreaker {
          env.Record(id, once.error.None?);
        }
        var giveUp: bool := *;
        var interrupted: bool := *;
        if once.error.None? || attempt >= t.def.maxAttempts || giveUp || interrupted {
          o := Outcome(deposits + once.deposits, once.error);
          if once.error.Some? && attempt < t.def.maxAttempts && interrupted {
            var message: string := *;
            o := o.(error := Some(message));
          }
          LegalAfter(net, Firing(def, taken), tries, once, o);
          return;
        }
        FailedAgain(net, def, consumed, tries, once);
        DepositsSnoc(tries, once);
        tries := tries + [once];
        deposits := deposits + once.deposits;
        attempt := attempt + 1;
      }
    }

    lemma {:induction false} NothingTried(t: TransitionDef, consumed: seq<Token>)
      ensures Failing(net, t, consumed, []) && AllDeposits([]) == []
    {
    }

    /** Fires the whole batch. */
    method FireAll(batch: seq<Launched>, ghost firings: seq<Firing>, env: Env) returns (outs: seq<Outcome>)
      requires Linked() && env.Serves(net) && Matches(net, batch, firings)
      modifies env
      ensures env.Serves(net)
      ensures |outs| == |firings| && forall i :: 0 <= i < |outs| ==> LegalOutcome(net, firings[i], outs[i])
    {
      hide LegalOutcome;
      assert net.transitions.Keys == transitions.Keys;
      outs := [];
      for i := 0 to |batch|
        invariant env.Serves(net)
        invariant |outs| == i
        invariant forall k :: 0 <= k < i ==> LegalOutcome(net, firings[k], outs[k])
      {
        var o := Fire(batch[i].id, batch[i].consumed, firings[i].taken, env);
        assert firings[i] == Firing(net.transitions[batch[i].id], firings[i].taken);
        outs := outs + [o];
      }
    }

    /** The failures, in the order in which the firings reported them: each leaves an error
        token in its error place, until one has no place to go and ends the run. */
    method RouteErrors(batch: seq<Launched>, ghost firings: seq<Firing>, outs: seq<Outcome>)
      returns (failure: Option<RunError>, ghost handled: seq<nat>, ghost errors: seq<Deposit>)
      requires Linked() && Matches(net, batch, firings) && |outs| == |firings|
      modifies `m, places.Values
      ensures Linked() && m == PutAll(old(m), errors)
      ensures Routed(net, firings, outs, handled, errors)
      ensures failure.None? ==> Enumerates(handled, Failures(outs))
      ensures failure.Some? ==> failure.value.FiringFailed? || failure.value.ErrorPlaceRejected?
      ensures failure.Some? ==> Unroutable(net, firings, outs, handled)
    {
      hide Linked, PlacesLinked, TransitionsLinked, Routed, Unroutable, ErrorToken, PutAll, Put;
      failure, handled, errors := None, [], [];
      RoutedNone(net, firings, outs);
      NothingPut(m);
      var pending := set i: nat | i < |outs| && outs[i].error.Some?;
      while pending != {}
        invariant Linked() && failure == None && pending <= Failures(outs)
        invariant Routed(net, firings, outs, handled, errors) && m == PutAll(old(m), errors)
        invariant forall i :: i in Failures(outs) ==> (i in pending <==> i !in handled)
      {
        hide Failures, Matches;
        var i: nat :| i in pending;
        pending := pending - {i};
        MatchedAt(batch, firings, outs, i);
        LinkedKeys();
        ghost var d;
        failure, d := RouteError(transitions[batch[i].id], outs[i].error.value);
        if failure.Some? {
          NoRoute(net, firings, outs, handled, i);
          return;
        }
        RouteOne(net, firings, outs, handled, errors, i);
        PutLast(old(m), errors, d);
        handled, errors := handled + [i], errors + [d];
      }
      AllRouted(net, firings, outs, handled, errors);
    }

    lemma {:induction false} MatchedAt(batch: seq<Launched>, firings: seq<Firing>, outs: seq<Outcome>, i: nat)
      requires Linked() && Matches(net, batch, firings) && |outs| == |firings| && i in Failures(outs)
      ensures i < |batch| == |firings| == |outs| && outs[i].error.Some?
      ensures batch[i].id in transitions && firings[i].transition == transitions[batch[i].id].View()
    {
    }

    /** The error token of one failed firing goes to its error place, if it has one that
        takes it. */
    method RouteError(t: Transition, message: string) returns (failure: Option<RunError>, ghost d: Deposit)
      requires Linked()
      modifies `m, places.Values
      ensures Linked()
      ensures failure.None? <==> Routable(net, t.View())
      ensures failure.None? ==> d == ErrorDeposit(net, t.View(), message) && m == Put(old(m), d)
      ensures failure.Some? ==> m == old(m) && (failure.value.FiringFailed? || failure.value.ErrorPlaceRejected?)
    {
      hide Linked, PlacesLinked, TransitionsLinked, Put;
      LinkedKeys();
      var ep := t.def.errorPlace;
      var tok := ErrorToken(owner, t.def.kind, PlaceDef(ColorError, NoSpace), message);
      d := Deposit(ep, tok);
      if ep == "" || ep !in places {
        return Some(FiringFailed(message)), d;
      }
      LinkedPlace(ep);
      tok := ErrorToken(owner, t.def.kind, places[ep].def, message);
      d := Deposit(ep, tok);
      if !Accepts(places[ep].def, tok) {
        return Some(ErrorPlaceRejected), d;
      }
      PutIn(Deposit(ep, tok));
      failure := None;
    }

    lemma {:induction false} NothingPut(m: Marking)
      ensures PutAll(m, []) == m
    {
    }

    lemma {:induction false} PutLast(m: Marking, ds: seq<Deposit>, d: Deposit)
      ensures PutAll(m, ds + [d]) == Put(PutAll(m, ds), d)
    {
      PutAllAppend(m, ds, [d]);
      assert [d][1..] == [];
    }

    lemma {:induction false} KindsOf(order: seq<string>, s: NetState)
      requires Linked() && forall id :: id in order ==> Firable(net, s.mode, s.m, id)
      ensures forall id :: id in order ==> id in transitions && transitions[id].def.kind != Observer
    {
    }

    lemma {:induction false} LinkedPlace(p: string)
      requires Linked() && p in places
      ensures p in net.places && net.places[p] == places[p].def && net.owner == owner
    {
    }

    // ---- Mode ----

    method HumanTokenInComputation() returns (human: bool)
      requires Linked()
      ensures human == HumanInComputation(net, m)
    {
      var pending := places.Keys;
      while pending != {}
        invariant pending <= places.Keys
        invariant forall p, i :: (p in places && p !in pending && net.places[p].space == Computation
                                  && 0 <= i < |m[p]|) ==> !m[p][i].IsHumanOrigin()
      {
        var p :| p in pending;
        pending := pending - {p};
        if places[p].def.space == Computation {
          for i := 0 to |places[p].tokens|
            invariant forall k :: 0 <= k < i ==> !m[p][k].IsHumanOrigin()
          {
            if places[p].tokens[i].IsHumanOrigin() {
              assert m[p][i].IsHumanOrigin();
              return true;
            }
          }
        }
      }
      return false;
    }

    method AnyHITLCanFire(env: Env) returns (any: bool, ghost refused: set<string>)
      requires Linked() && env.Serves(net)
      modifies env
      ensures env.Serves(net) && BreakersOf(net, refused) && env.Open(refused)
      ensures any <==> HITLCanFire(net, m, refused)
    {
      hide InputsOk, CanFire, Linked;
      LinkedKeys();
      refused := {};
      var pending := transitions.Keys;
      while pending != {}
        invariant env.Serves(net) && pending <= net.transitions.Keys && refused !! pending
        invariant BreakersOf(net, refused) && env.Open(refused)
        invariant forall id :: (id in net.transitions && id !in pending && id !in refused
                                && net.transitions[id].kind == HITL) ==> !CanFire(m, net.transitions[id])
      {
        var id :| id in pending;
        pending := pending - {id};
        LinkedAt(id);
        CanFireParts(m, net.transitions[id]);
        var t := transitions[id];
        if t.def.kind == HITL && !t.deprecated {
          var allowed := AskBreaker(t, env, [], refused);
          if !allowed {
            refused := refused + {id};
          } else {
            var ok := InputsEnable(t, false);
            if ok { return true, refused; }
          }
        }
      }
      return false, refused;
    }

    lemma {:induction false} LinkedKeys()
      requires Linked()
      ensures net.transitions.Keys == transitions.Keys && net.places.Keys == places.Keys == m.Keys
    {
    }

    lemma {:induction false} LinkedAt(id: string)
      requires Linked() && id in transitions
      ensures id in net.transitions && net.transitions[id] == transitions[id].View() && transitions[id].def.id == id
    {
    }

    /** `checkModeSwitch`. */
    method CheckModeSwitch(env: Env) returns (ghost refused: set<string>)
      requires Linked() && env.Serves(net)
      modifies env, `mode
      ensures env.Serves(net) && BreakersOf(net, refused)
      ensures mode == ModeAfter(net, old(mode), m, refused)
    {
      hide HITLCanFire, HumanInComputation;
      refused := {};
      var human := HumanTokenInComputation();
      if mode == MAS && human {
        mode := Centaurian;
      } else if mode == Centaurian && !human {
        var any;
        any, refused := AnyHITLCanFire(env);
        if !any {
          mode := MAS;
        }
      }
    }

    /** A human transition that marks a computation place switches the mode at once. */
    method BridgeMode(batch: seq<Launched>, ghost firings: seq<Firing>, outs: seq<Outcome>)
      requires Linked() && Matches(net, batch, firings) && |outs| == |firings|
      modifies `mode
      ensures mode == if HumanBridged(net, firings, outs) then Centaurian else old(mode)
    {
      hide IsComputationTransition, Linked;
      LinkedKeys();
      for i := 0 to |batch|
        invariant mode == old(mode)
        invariant forall k :: 0 <= k < i ==>
          !(firings[k].transition.kind == HITL && outs[k].error.None?
            && IsComputationTransition(net, firings[k].transition))
      {
        LinkedAt(batch[i].id);
        var t := transitions[batch[i].id];
        if t.def.kind == HITL && outs[i].error.None? {
          var computes := IsComputation(t);
          if computes {
            mode := Centaurian;
            return;
          }
        }
      }
    }

    // ---- One round, and the run ----

    /** One iteration of the loop in `Run`.  A fired round is a `Round` of the step
        semantics; otherwise nothing was enabled, or a failure had no error place. */
    method RunRound(env: Env) returns (end: RoundEnd, ghost c: Choices)
      requires Linked() && env.Serves(net)
      modifies env, `m, `mode, places.Values
      ensures Linked() && env.Serves(net)
      ensures end.Fired? ==> Round(net, NetState(old(m), old(mode)), c, NetState(m, mode))
      ensures end.Quiet? ==> m == old(m) && mode == old(mode) && Quiescent(net, NetState(m, mode), c.refused)
      ensures end.Quiet? ==> env.Open(c.refused)
      ensures end.Broken? ==> end.error.FiringFailed? || end.error.ErrorPlaceRejected?
      ensures end.Broken? ==> FailedRound(net, NetState(old(m), old(mode)), c, NetState(m, mode))
    {
      hide *;
      ghost var s := NetState(m, mode);
      ghost var refused;
      var firable;
      firable, refused := CollectFirable(env);
      if firable == [] {
        NothingToFire(net, s, refused);
        return Quiet, Choices(refused, [], [], [], [], [], {});
      }
      var order := Sort(firable);
      SortedStillFirable(net, s, firable, order, refused);
      ClosedAfterSort(env, firable, order);
      end, c := RunBatch(order, env, refused);
    }

    /** Consume, fire, and let the deposits land in any order. */
    method FireBatch(order: seq<string>, env: Env)
      returns (batch: seq<Launched>, outs: seq<Outcome>, ghost b: Batch, ghost landed: seq<Deposit>)
      requires Linked() && env.Serves(net) && env.Closed(order)
      requires forall id :: id in order ==> Firable(net, mode, m, id)
      modifies env, `m, places.Values
      ensures Linked() && env.Serves(net)
      ensures b == TakeBatch(net, mode, old(m), order) && Matches(net, batch, b.firings)
      ensures |outs| == |b.firings| && forall i :: 0 <= i < |outs| ==> LegalOutcome(net, b.firings[i], outs[i])
      ensures multiset(landed) == multiset(AllDeposits(outs)) && m == PutAll(b.rest, landed)
    {
      hide *;
      KindsOf(order, NetState(m, mode));
      ghost var firings;
      batch, firings := TakeFirings(order, env);
      b := Batch(m, firings);
      outs := FireAll(batch, firings, env);
      landed := LandAll(firings, outs);
    }

    /** The concurrent firings deposit their results in any order. */
    method LandAll(ghost firings: seq<Firing>, outs: seq<Outcome>) returns (ghost landed: seq<Deposit>)
      requires Linked()
      requires |outs| == |firings| && forall i :: 0 <= i < |outs| ==> LegalOutcome(net, firings[i], outs[i])
      modifies `m, places.Values
      ensures Linked()
      ensures multiset(landed) == multiset(AllDeposits(outs)) && m == PutAll(old(m), landed)
    {
      hide *;
      var ds: seq<Deposit> :| multiset(ds) == multiset(AllDeposits(outs));
      LegalDepositsAcceptable(net, firings, outs, ds);
      Land(ds);
      landed := ds;
    }

    /** Route the errors, and settle the mode if all of them were. */
    method Settle(batch: seq<Launched>, ghost firings: seq<Firing>, outs: seq<Outcome>, env: Env)
      returns (failure: Option<RunError>, ghost handled: seq<nat>, ghost errors: seq<Deposit>,
               ghost refusedAfter: set<string>, ghost bridged: Mode)
      requires Linked() && env.Serves(net) && Matches(net, batch, firings) && |outs| == |firings|
      modifies env, `m, `mode, places.Values
      ensures Linked() && env.Serves(net)
      ensures m == PutAll(old(m), errors) && Routed(net, firings, outs, handled, errors)
      ensures bridged == if HumanBridged(net, firings, outs) then Centaurian else old(mode)
      ensures failure.None? ==>
        && Enumerates(handled, Failures(outs))
        && BreakersOf(net, refusedAfter)
        && mode == ModeAfter(net, bridged, m, refusedAfter)
      ensures failure.Some? ==> failure.value.FiringFailed? || failure.value.ErrorPlaceRejected?
      ensures failure.Some? ==> Unroutable(net, firings, outs, handled) && mode == bridged
    {
      hide *;
      hide Matches;
      refusedAfter := {};
      BridgeMode(batch, firings, outs);
      bridged := mode;
      failure, handled, errors := RouteErrors(batch, firings, outs);
      if failure.None? {
        refusedAfter := CheckModeSwitch(env);
      }
    }

    /** The rest of an iteration, once something is enabled. */
    method RunBatch(order: seq<string>, env: Env, ghost refused: set<string>) returns (end: RoundEnd, ghost c: Choices)
      requires Linked() && env.Serves(net) && env.Closed(order) && BreakersOf(net, refused)
      requires Enumerates(order, FirableSet(net, mode, m) - refused) && order != []
      requires forall id :: id in order ==> Firable(net, mode, m, id)
      modifies env, `m, `mode, places.Values
      ensures Linked() && env.Serves(net)
      ensures end.Fired? ==> Round(net, NetState(old(m), old(mode)), c, NetState(m, mode))
      ensures !end.Quiet?
      ensures end.Broken? ==> end.error.FiringFailed? || end.error.ErrorPlaceRejected?
      ensures end.Broken? ==> FailedRound(net, NetState(old(m), old(mode)), c, NetState(m, mode))
    {
      hide *;
      ghost var s := NetState(m, mode);
      ghost var b, landed, handled, errors, refusedAfter, bridged;
      var batch, outs, failure;
      batch, outs, b, landed := FireBatch(order, env);
      failure, handled, errors, refusedAfter, bridged := Settle(batch, b.firings, outs, env);
      c := Choices(refused, order, outs, landed, handled, errors, refusedAfter);
      IsFired(net, s, c, b, bridged, m);
      if failure.Some? {
        IsFailedRound(net, s, c, b, NetState(m, mode));
        return Broken(failure.value), c;
      }
      IsRound(net, s, c, b, bridged, NetState(m, mode));
      end := RoundEnd.Fired;
    }

    // ---- Completion and Run ----

    /** `TerminalPlaces`: the places that are input to no transition. */
    method TerminalPlaces() returns (terminals: set<string>)
      requires Linked()
      ensures forall p :: p in terminals <==> IsTerminal(net, p)
    {
      LinkedKeys();
      var inputRefs: set<string> := {};
      var pending := transitions.Keys;
      while pending != {}
        invariant pending <= transitions.Keys
        invariant forall p :: p in inputRefs <==>
          exists id :: id in net.transitions && id !in pending && p in net.transitions[id].inputs
      {
        var id :| id in pending;
        LinkedAt(id);
        ghost var before := pending;
        pending := pending - {id};
        inputRefs := inputRefs + (set p | p in transitions[id].def.inputs);
        forall p
          ensures (exists k :: k in net.transitions && k !in pending && p in net.transitions[k].inputs)
             <==> (exists k :: k in net.transitions && k !in before && p in net.transitions[k].inputs)
                  || p in net.transitions[id].inputs
        {
          if p in net.transitions[id].inputs { assert id in net.transitions && id !in pending; }
        }
      }
      terminals := places.Keys - inputRefs;
    }

    method IsComplete() returns (complete: bool)
      requires Linked()
      ensures complete == Complete(net, m)
    {
      var terminals := TerminalPlaces();
      if terminals == {} {
        return false;
      }
      var some :| some in terminals;
      assert IsTerminal(net, some);
      LinkedKeys();
      assert forall p :: p in terminals ==> p in places;
      var pending := terminals;
      while pending != {}
        invariant pending <= terminals
        invariant forall p :: p in terminals && p !in pending ==> p in m && m[p] != []
      {
        var p :| p in pending;
        pending := pending - {p};
        if places[p].tokens == [] {
          assert IsTerminal(net, p) && m[p] == [];
          return false;
        }
      }
      return true;
    }

    /** `Run`, under a context that is cancelled after some number of rounds.  It records
        the rounds it completed and what it saw in the `last`, incomplete one.  It returns
        without error only when nothing is enabled, but for transitions whose breaker is
        open, and every terminal place is marked; reports a deadlock only when nothing else
        is enabled and some terminal place is empty or there is none; and fails otherwise only for an invalid net, a cancellation, or a
        failed firing whose error has no place to go. */
    method Run(env: Env, cancelAfter: nat)
      returns (err: Option<RunError>, ghost states: seq<NetState>, ghost choices: seq<Choices>, ghost last: Choices)
      requires Linked() && env.Serves(net)
      modifies env, `m, `mode, `state, `error, places.Values
      ensures Linked()
      ensures Rounds(net, states, choices) && states[0] == NetState(old(m), old(mode))
      ensures err == None ==> state == Completed && Complete(net, m)
      ensures err.Some? ==> state == State.Failed && error == err
      ensures err == Some(Deadlock) ==> !Complete(net, m)
      ensures err == None || err == Some(Deadlock) ==>
        && states[|choices|] == NetState(m, mode)
        && Quiescent(net, NetState(m, mode), last.refused) && env.Open(last.refused)
      ensures err.Some? && err.value.InvalidTopology? <==> !Accepted(net)
      ensures err == Some(Timeout) ==> |choices| == cancelAfter && states[|choices|] == NetState(m, mode)
      ensures err.Some? && (err.value.FiringFailed? || err.value.ErrorPlaceRejected?) ==>
        FailedRound(net, states[|choices|], last, NetState(m, mode))
    {
      hide *;
      var errors := ValidateSelf();
      if errors != [] {
        RunStarts(net, NetState(m, mode));
        states, choices, last := [NetState(m, mode)], [], Choices({}, [], [], [], [], [], {});
        err := Some(InvalidTopology(errors));
        state, error := State.Failed, err;
        return;
      }
      state := Running;
      var end;
      end, states, choices, last := RunLoop(env, cancelAfter);
      err := Stop(end);
    }

    /** The loop: round after round until nothing fires, a failure, or cancellation. */
    method RunLoop(env: Env, cancelAfter: nat)
      returns (end: RoundEnd, ghost states: seq<NetState>, ghost choices: seq<Choices>, ghost last: Choices)
      requires Linked() && env.Serves(net)
      modifies env, `m, `mode, places.Values
      ensures Linked() && !end.Fired?
      ensures Rounds(net, states, choices) && states[0] == NetState(old(m), old(mode))
      ensures end.Quiet? ==>
        && states[|choices|] == NetState(m, mode)
        && Quiescent(net, NetState(m, mode), last.refused) && env.Open(last.refused)
      ensures end.Broken? ==>
        if end.error == Timeout then |choices| == cancelAfter && states[|choices|] == NetState(m, mode)
        else (end.error.FiringFailed? || end.error.ErrorPlaceRejected?) && FailedRound(net, states[|choices|], last, NetState(m, mode))
    {
      hide *;
      RunStarts(net, NetState(m, mode));
      states, choices, last := [NetState(m, mode)], [], Choices({}, [], [], [], [], [], {});
      for i := 0 to cancelAfter
        invariant Linked() && env.Serves(net)
        invariant |choices| == i && |states| == i + 1
        invariant Rounds(net, states, choices) && states[0] == NetState(old(m), old(mode))
        invariant states[i] == NetState(m, mode)
      {
        end, last := RunRound(env);
        if !end.Fired? {
          return;
        }
        RunExtended(net, states, choices, last, NetState(m, mode));
        states, choices := states + [NetState(m, mode)], choices + [last];
      }
      end := Broken(Timeout);
    }

    /** The end of the loop: complete, deadlocked, or failed. */
    method Stop(end: RoundEnd) returns (err: Option<RunError>)
      requires Linked() && !end.Fired?
      modifies `state, `error
      ensures err == match end
                     case Broken(e) => Some(e)
                     case _ => if Complete(net, m) then None else Some(Deadlock)
      ensures err == None ==> state == Completed
      ensures err.Some? ==> state == State.Failed && error == err
    {
      hide Complete;
      if end.Broken? {
        err := Some(end.error);
      } else {
        var complete := IsComplete();
        if complete {
          state := Completed;
          return None;
        }
        err := Some(Deadlock);
      }
      state, error := State.Failed, err;
    }

    /** `Reset`: empties every place, restores the mode, and lets SeedFunc deposit the
        initial marking (deposits a place refuses are ignored). */
    method Reset()
      requires Linked()
      modifies `m, `mode, `state, `error, places.Values
      ensures Linked() && mode == initialMode && state == Idle && error == None
      ensures m == Seeded(net, Emptied(old(m)), seeds)
    {
      hide Linked, PlacesLinked, TransitionsLinked, Seeded;
      state, error, mode := Idle, None, initialMode;
      ClearAll();
      SeedAll();
    }

    method ClearAll()
      requires Linked()
      modifies `m, places.Values
      ensures Linked() && m == Emptied(old(m))
    {
      hide Linked, PlacesLinked, TransitionsLinked;
      LinkedKeys();
      var pending := places.Keys;
      while pending != {}
        invariant Linked() && pending <= places.Keys && m.Keys == old(m).Keys == places.Keys
        invariant forall p :: p in m && p !in pending ==> m[p] == []
      {
        var p :| p in pending;
        pending := pending - {p};
        ClearPlace(p);
      }
    }

    method SeedAll()
      requires Linked()
      modifies `m, places.Values
      ensures Linked() && m == Seeded(net, old(m), seeds)
    {
      hide Linked, PlacesLinked, TransitionsLinked, Accepts, Put;
      LinkedKeys();
      assert seeds[0..] == seeds;
      for i := 0 to |seeds|
        invariant Linked()
        invariant Seeded(net, old(m), seeds) == Seeded(net, m, seeds[i..])
      {
        var d := seeds[i];
        SeedOne(net, m, seeds, i);
        if d.place in places {
          LinkedPlace(d.place);
          if Accepts(places[d.place].def, d.token) {
            PutIn(d);
          }
        }
      }
    }

    method ClearPlace(p: string)
      requires Linked() && p in places
      modifies `m, places[p]
      ensures Linked() && m == old(m)[p := []]
    {
      hide TransitionsLinked, Distinct;
      DistinctAt(places, p);
      places[p].Clear();
      m := m[p := []];
      assert PlacesLinked() by {
        forall q | q in places ensures net.places[q] == places[q].def && m[q] == places[q].tokens {
          assert q != p ==> places[q].tokens == old(places[q].tokens);
        }
      }
    }

    /** `Validate` on the net's own places and transitions. */
    method ValidateSelf() returns (errs: seq<ValidationError>)
      requires Linked()
      ensures errs == NetErrors(net)
    {
      var view := Net(owner, map p | p in places :: places[p].def, map id | id in transitions :: transitions[id].View());
      assert view == net;
      hide Linked, PlacesLinked, TransitionsLinked;
      errs := Validation.Validate(view);
    }

    // ---- Mutation (cpn_mutate.go) ----

    /** `Mutate`: apply, validate, and on failure put the snapshots of both maps back.
        New places start empty. */
    method Mutate(mu: Mutation) returns (err: Option<MutationError>)
      requires Linked()
      modifies `places, `transitions, `net, `m, transitions.Values
      ensures Linked()
      ensures Mutated(net, err) == MutateNet(old(net), mutableAfterStart, mu)
      ensures forall p :: p in m ==> m[p] == if p in old(m) then old(m)[p] else []
    {
      hide Linked, PlacesLinked, TransitionsLinked, NetErrors;
      if !mutableAfterStart {
        return Some(NotPermitted);
      }
      match mu {
        case AddPlace(place) => err := TryAddPlace(place);
        case AddTransition(transition) => err := TryAddTransition(transition);
        case Deprecate(id, reason) => err := TryDeprecate(id, reason);
        case UnknownKind(kind) => err := Some(UnknownMutation(kind));
      }
    }

    method TryAddPlace(place: Option<PlaceSpec>) returns (err: Option<MutationError>)
      requires Linked() && mutableAfterStart
      modifies `places, `net, `m
      ensures Linked()
      ensures Mutated(net, err) == MutateNet(old(net), true, AddPlace(place))
      ensures forall p :: p in m ==> m[p] == if p in old(m) then old(m)[p] else []
    {
      hide NetErrors, Linked, PlacesLinked, TransitionsLinked;
      LinkedKeys();
      var placesSnapshot := places;
      if place == None { return Some(MissingDefinition); }
      var p := place.value;
      if p.id == "" { return Some(EmptyId); }
      if p.id in places { return Some(AlreadyExists(p.id)); }
      AddThenRemove(net.places, p.id, p.def);
      AddThenRemove(m, p.id, []);
      InsertPlace(p);
      AddThenRemove(placesSnapshot, p.id, places[p.id]);
      var errors := ValidateSelf();
      if errors != [] {
        RestorePlaces(placesSnapshot, p.id);
        return Some(Invalid(errors));
      }
      return None;
    }

    method InsertPlace(p: PlaceSpec)
      requires Linked() && p.id !in places
      modifies `places, `net, `m
      ensures Linked() && p.id in places && places == old(places)[p.id := places[p.id]]
      ensures net == old(net).(places := old(net).places[p.id := p.def]) && m == old(m)[p.id := []]
    {
      hide Distinct;
      var added := new Place(p.def);
      DistinctAdd(places, p.id, added);
      places := places[p.id := added];
      net := net.(places := net.places[p.id := p.def]);
      m := m[p.id := []];
      assert TransitionsLinked() by { hide PlacesLinked; }
      assert PlacesLinked() by { hide TransitionsLinked; }
    }

    method RestorePlaces(snapshot: map<string, Place>, added: string)
      requires Linked() && snapshot == places - {added}
      modifies `places, `net, `m
      ensures Linked() && places == snapshot
      ensures net == old(net).(places := old(net).places - {added}) && m == old(m) - {added}
    {
      hide Distinct;
      DistinctRemove(places, added);
      places := snapshot;
      net := net.(places := net.places - {added});
      m := m - {added};
      assert TransitionsLinked() by { hide PlacesLinked; }
      assert PlacesLinked() by { hide TransitionsLinked; }
    }

    method TryAddTransition(spec: Option<TransitionSpec>) returns (err: Option<MutationError>)
      requires Linked() && mutableAfterStart
      modifies `transitions, `net
      ensures Linked()
      ensures Mutated(net, err) == MutateNet(old(net), true, AddTransition(spec))
    {
      hide NetErrors, Linked, PlacesLinked, TransitionsLinked;
      LinkedKeys();
      var transitionsSnapshot := transitions;
      if spec == None { return Some(MissingDefinition); }
      var t := spec.value;
      if t.id == "" { return Some(EmptyId); }
      if t.id in transitions { return Some(AlreadyExists(t.id)); }
      var missing := FindMissing(t.inputs + t.outputs);
      if missing.Some? { return Some(PlaceDoesNotExist(missing.value)); }
      AddThenRemove(net.transitions, t.id, NewTransition(t));
      InsertTransition(NewTransition(t));
      AddThenRemove(transitionsSnapshot, t.id, transitions[t.id]);
      var errors := ValidateSelf();
      if errors != [] {
        RestoreTransitions(transitionsSnapshot, t.id);
        return Some(Invalid(errors));
      }
      return None;
    }

    method InsertTransition(t: TransitionDef)
      requires Linked() && t.id !in transitions
      modifies `transitions, `net
      ensures Linked() && t.id in transitions && transitions == old(transitions)[t.id := transitions[t.id]]
      ensures net == old(net).(transitions := old(net).transitions[t.id := t])
    {
      hide Distinct;
      var added := new Transition(t);
      DistinctAdd(transitions, t.id, added);
      transitions := transitions[t.id := added];
      net := net.(transitions := net.transitions[t.id := t]);
      assert PlacesLinked() by { hide TransitionsLinked; }
      assert TransitionsLinked() by { hide PlacesLinked; }
    }

    method RestoreTransitions(snapshot: map<string, Transition>, added: string)
      requires Linked() && snapshot == transitions - {added}
      modifies `transitions, `net
      ensures Linked() && transitions == snapshot
      ensures net == old(net).(transitions := old(net).transitions - {added})
    {
      hide Distinct;
      DistinctRemove(transitions, added);
      transitions := snapshot;
      net := net.(transitions := net.transitions - {added});
      assert PlacesLinked() by { hide TransitionsLinked; }
      assert TransitionsLinked() by { hide PlacesLinked; }
    }

    /** The flag is set in the shared transition object: restoring the maps cannot undo it. */
    method TryDeprecate(id: string, reason: string) returns (err: Option<MutationError>)
      requires Linked() && mutableAfterStart
      modifies `net, transitions.Values
      ensures Linked()
      ensures Mutated(net, err) == MutateNet(old(net), true, Deprecate(id, reason))
    {
      hide NetErrors, Linked, PlacesLinked, TransitionsLinked;
      LinkedKeys();
      if id == "" { return Some(EmptyId); }
      if id !in transitions { return Some(NotFound(id)); }
      SetDeprecated(id, reason);
      var errors := ValidateSelf();
      if errors != [] {
        return Some(Invalid(errors));
      }
      return None;
    }

    method SetDeprecated(id: string, reason: string)
      requires Linked() && id in transitions && id in net.transitions
      modifies `net, transitions[id]
      ensures Linked()
      ensures net == old(net).(transitions := old(net).transitions[id := old(net).transitions[id].(deprecated := true)])
    {
      hide Distinct;
      DistinctAt(transitions, id);
      transitions[id].deprecated := true;
      transitions[id].deprecateReason := reason;
      net := net.(transitions := net.transitions[id := net.transitions[id].(deprecated := true)]);
      assert PlacesLinked() by { hide TransitionsLinked; }
      assert TransitionsLinked() by {
        hide PlacesLinked;
        forall k | k in transitions
          ensures transitions[k].def.id == k && net.transitions[k] == transitions[k].View()
        {
          assert k != id ==> transitions[k].deprecated == old(transitions[k].deprecated);
        }
      }
    }

    method FindMissing(names: seq<string>) returns (missing: Option<string>)
      requires Linked()
      ensures missing == FirstMissing(net, names)
    {
      hide Linked, PlacesLinked, TransitionsLinked;
      LinkedKeys();
      assert names[0..] == names;
      for i := 0 to |names|
        invariant FirstMissing(net, names) == FirstMissing(net, names[i..])
      {
        assert names[i..][1..] == names[i+1..];
        if names[i] !in places {
          return Some(names[i]);
        }
      }
      return None;
    }
  }
}
