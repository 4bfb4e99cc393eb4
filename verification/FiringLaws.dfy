/** What a firing can leave behind, kind by kind: where its tokens can go, when every output
    gets one, why a streaming command cannot succeed, and what a validator lets through. */
module FiringLaws {
  import opened Wrappers
  import opened Order
  import opened Net

  // ---- Copies of one token ----

  function Adapted(tok: Token, place: PlaceDef, bridges: bool): Token {
    if bridges then tok.(space := place.space) else tok
  }

  ghost predicate TakesCopy(net: Net, tok: Token, bridges: bool, p: string) {
    p in net.places && Accepts(net.places[p], Adapted(tok, net.places[p], bridges))
  }

  ghost predicate AllTake(net: Net, tok: Token, bridges: bool, places: seq<string>) {
    forall p :: p in places ==> TakesCopy(net, tok, bridges, p)
  }

  lemma {:induction false} AllTakeSplit(net: Net, tok: Token, bridges: bool, places: seq<string>)
    ensures AllTake(net, tok, bridges, places)
       <==> places == [] || (TakesCopy(net, tok, bridges, places[0]) && AllTake(net, tok, bridges, places[1..]))
  {
    assert forall p :: p in places <==> places != [] && (p == places[0] || p in places[1..]);
  }

  /** The copies reach a prefix of the outputs, and all of them exactly when every output
      exists and takes the token. */
  lemma {:induction false} CopiesReachAll(net: Net, tok: Token, outputs: seq<string>, bridges: bool)
    ensures var o := CopyInto(net, tok, outputs, bridges);
            && |o.deposits| <= |outputs|
            && (forall i :: 0 <= i < |o.deposits| ==>
                  && o.deposits[i].place == outputs[i] && outputs[i] in outputs
                  && TakesCopy(net, tok, bridges, outputs[i])
                  && o.deposits[i].token == Adapted(tok, net.places[outputs[i]], bridges))
            && (o.error.None? <==> |o.deposits| == |outputs|)
            && (o.error.None? <==> AllTake(net, tok, bridges, outputs))
    decreases |outputs|
  {
    hide Accepts, AllTake;
    AllTakeSplit(net, tok, bridges, outputs);
    if outputs != [] {
      CopiesReachAll(net, tok, outputs[1..], bridges);
      var rest := CopyInto(net, tok, outputs[1..], bridges);
      forall i | 0 < i <= |rest.deposits| ensures rest.deposits[i-1].place == outputs[i] {
        assert outputs[1..][i-1] == outputs[i];
      }
    }
  }

  lemma {:induction false} OutputsReachAll(net: Net, kind: Kind, results: map<string, Token>, outputs: seq<string>)
    ensures var o := DepositOutputs(net, kind, results, outputs);
            && |o.deposits| <= |outputs|
            && (forall i :: 0 <= i < |o.deposits| ==>
                  && o.deposits[i].place == outputs[i] && outputs[i] in outputs
                  && outputs[i] in net.places && outputs[i] in results
                  && o.deposits[i].token == Stamp(net.owner, kind, net.places[outputs[i]], results[outputs[i]])
                  && Accepts(net.places[outputs[i]], o.deposits[i].token))
            && (o.error.None? <==> |o.deposits| == |outputs|)
    decreases |outputs|
  {
    if outputs != [] {
      OutputsReachAll(net, kind, results, outputs[1..]);
      var rest := DepositOutputs(net, kind, results, outputs[1..]);
      forall i | 0 < i <= |rest.deposits| ensures rest.deposits[i-1].place == outputs[i] {
        assert outputs[1..][i-1] == outputs[i];
      }
    }
  }

  // ---- Where the tokens of a firing can go ----

  /** A place that a firing of this transition can mark by itself. */
  ghost predicate Reaches(net: Net, t: TransitionDef, p: string) {
    || p in t.outputs
    || (t.kind == Instantiate && p in t.mapped)
    || ((t.kind == Validate || t.kind == Instantiate) && Routable(net, t) && p == t.errorPlace)
  }

  ghost predicate Lands(net: Net, t: TransitionDef, d: Deposit) {
    Reaches(net, t, d.place) && d.place in net.places && Accepts(net.places[d.place], d.token)
  }

  ghost predicate AllLand(net: Net, t: TransitionDef, ds: seq<Deposit>) {
    forall i :: 0 <= i < |ds| ==> Lands(net, t, ds[i])
  }

  lemma {:induction false} CopiesLand(net: Net, t: TransitionDef, tok: Token, bridges: bool)
    ensures AllLand(net, t, CopyInto(net, tok, t.outputs, bridges).deposits)
  {
    CopiesReachAll(net, tok, t.outputs, bridges);
  }

  lemma {:induction false} AllCopiesLand(net: Net, t: TransitionDef, toks: seq<Token>)
    ensures AllLand(net, t, CopyAll(net, toks, t.outputs).deposits)
    decreases |toks|
  {
    if toks != [] {
      CopiesLand(net, t, toks[0], true);
      AllCopiesLand(net, t, toks[1..]);
    }
  }

  lemma {:induction false} ErrorLands(net: Net, t: TransitionDef, message: string)
    requires Routable(net, t)
    ensures Accepts(net.places[t.errorPlace], ErrorDeposit(net, t, message).token)
  {
  }

  /** Every deposit of an attempt is accepted by an existing place that the transition
      reaches. */
  lemma {:induction false} AttemptLands(net: Net, t: TransitionDef, consumed: seq<Token>, o: Outcome)
    requires Attempt(net, t, consumed, o)
    ensures AllLand(net, t, o.deposits)
  {
    hide CopyInto, CopyAll, DepositOutputs, Accepts, Makes, Lands, AllLand;
    if t.kind == Validate {
      ValidateLands(net, t, consumed, o);
    } else if t.kind == Bash {
      if toks, ended :| ShellRan(net, t, toks, ended, o) { AllCopiesLand(net, t, toks); }
    } else if t.kind == Tool && t.handler.Some? {
      HandlerLands(net, t, consumed);
    } else if tok :| Copies(net, t, tok, o) {
      CopiesLand(net, t, tok, Bridges(t.kind));
    }
    NothingLands(net, t, o);
    InstantiatedLands(net, t, o);
  }

  lemma {:induction false} NothingLands(net: Net, t: TransitionDef, o: Outcome)
    ensures o.deposits == [] ==> AllLand(net, t, o.deposits)
  {
  }

  lemma {:induction false} InstantiatedLands(net: Net, t: TransitionDef, o: Outcome)
    ensures t.kind == Instantiate && Instantiated(net, t, o) ==> AllLand(net, t, o.deposits)
  {
  }

  lemma {:induction false} HandlerLands(net: Net, t: TransitionDef, consumed: seq<Token>)
    requires t.handler.Some?
    ensures AllLand(net, t, HandlerOutcome(net, t, consumed).deposits)
  {
    match t.handler.value(consumed)
    case Err(e) =>
    case Ok(results) => OutputsReachAll(net, Tool, results, t.outputs);
  }

  lemma {:induction false} ValidateLands(net: Net, t: TransitionDef, consumed: seq<Token>, o: Outcome)
    requires t.kind == Validate && Validated(net, t, consumed, o)
    ensures AllLand(net, t, o.deposits)
  {
    hide CopyInto;
    var owner := net.owner;
    forall color, payload: string
      ensures AllLand(net, t, CopyInto(net, Token(color, payload, NoSpace, owner.id, owner.depth, Validate, owner.sessionId),
                                       t.outputs, true).deposits)
    {
      CopiesLand(net, t, Token(color, payload, NoSpace, owner.id, owner.depth, Validate, owner.sessionId), true);
    }
  }

  lemma {:induction false} TriesLand(net: Net, t: TransitionDef, consumed: seq<Token>, tries: seq<Outcome>)
    requires forall i :: 0 <= i < |tries| ==> Attempt(net, t, consumed, tries[i])
    ensures AllLand(net, t, AllDeposits(tries))
    decreases |tries|
  {
    hide Attempt;
    if tries != [] {
      AttemptLands(net, t, consumed, tries[0]);
      TriesLand(net, t, consumed, tries[1..]);
    }
  }

  /** The same over all attempts of a firing. */
  lemma {:induction false} FiringLands(net: Net, f: Firing, o: Outcome)
    requires LegalOutcome(net, f, o)
    ensures AllLand(net, f.transition, o.deposits)
  {
    hide Attempt;
    if tries :| Tried(net, f.transition, TokensOf(f.taken), tries, o) {
      TriesLand(net, f.transition, TokensOf(f.taken), tries);
    }
  }

  // ---- A successful firing marks its outputs ----

  /** The kinds whose success means one token in every output. */
  predicate FillsOutputs(kind: Kind) {
    kind == Tool || kind == LLM || kind == HITL || kind == RegisterTool || kind == Synthesize || kind == TopologyMutate
    || kind == Bash
  }

  ghost predicate EndsWith(places: seq<string>, end: seq<string>) {
    |places| >= |end| && places[|places| - |end|..] == end
  }

  lemma {:induction false} CopiesFill(net: Net, tok: Token, outputs: seq<string>, bridges: bool)
    ensures var o := CopyInto(net, tok, outputs, bridges); o.error.None? ==> DepositPlaces(o.deposits) == outputs
  {
    CopiesReachAll(net, tok, outputs, bridges);
  }

  lemma {:induction false} CopyAllOne(net: Net, toks: seq<Token>, outputs: seq<string>)
    requires |toks| == 1
    ensures CopyAll(net, toks, outputs) == CopyInto(net, toks[0], outputs, true)
  {
    var first := CopyInto(net, toks[0], outputs, true);
    assert toks[1..] == [];
    assert first.deposits + [] == first.deposits;
  }

  /** A place takes one colour, so chunks and a result never fit the same outputs: a command
      that ran to its end was deposited without error exactly when it had nowhere to deposit,
      or printed no chunk and every output takes results. */
  lemma {:induction false} StreamingNeverFits(net: Net, toks: seq<Token>, outputs: seq<string>)
    requires ShellTokens(net.owner, toks, true)
    ensures CopyAll(net, toks, outputs).error.None? <==>
              || outputs == []
              || (|toks| == 1 && forall p :: p in outputs ==> p in net.places && net.places[p].color == ColorShellResult)
    decreases |toks|
  {
    hide CopyInto, StampedBy;
    CopiesReachAll(net, toks[0], outputs, true);
    if |toks| == 1 {
      CopyAllOne(net, toks, outputs);
      assert forall p :: TakesCopy(net, toks[0], true, p) <==> p in net.places && net.places[p].color == ColorShellResult;
    } else {
      var end := toks[1..];
      assert forall i :: 0 <= i < |end| ==> end[i] == toks[i+1];
      StreamingNeverFits(net, end, outputs);
      if outputs != [] {
        LastRejected(net, toks, outputs);
      }
    }
  }

  lemma {:induction false} LastRejected(net: Net, toks: seq<Token>, outputs: seq<string>)
    requires ShellTokens(net.owner, toks, true) && |toks| > 1 && outputs != []
    ensures TakesCopy(net, toks[0], true, outputs[0]) ==>
              outputs[0] in net.places && net.places[outputs[0]].color != ColorShellResult
    ensures outputs[0] in outputs
  {
  }

  lemma {:induction false} NowhereToCopy(net: Net, toks: seq<Token>)
    ensures CopyAll(net, toks, []) == Outcome([], None)
    decreases |toks|
  {
    if toks != [] { NowhereToCopy(net, toks[1..]); }
  }

  lemma {:induction false} ShellFills(net: Net, t: TransitionDef, toks: seq<Token>, ended: bool, o: Outcome)
    requires ShellRan(net, t, toks, ended, o) && o.error.None?
    ensures DepositPlaces(o.deposits) == t.outputs
    ensures t.outputs != [] ==> |toks| == 1
  {
    hide CopyInto, CopyAll;
    StreamingNeverFits(net, toks, t.outputs);
    if t.outputs == [] {
      NowhereToCopy(net, toks);
    } else {
      CopyAllOne(net, toks, t.outputs);
      CopiesFill(net, toks[0], t.outputs, true);
    }
  }

  lemma {:induction false} HandlerFills(net: Net, t: TransitionDef, consumed: seq<Token>)
    requires t.handler.Some?
    ensures var o := HandlerOutcome(net, t, consumed); o.error.None? ==> DepositPlaces(o.deposits) == t.outputs
  {
    match t.handler.value(consumed)
    case Err(e) =>
    case Ok(results) => OutputsReachAll(net, Tool, results, t.outputs);
  }

  lemma {:induction false} AttemptFills(net: Net, t: TransitionDef, consumed: seq<Token>, o: Outcome)
    requires Attempt(net, t, consumed, o) && o.error.None? && FillsOutputs(t.kind)
    ensures DepositPlaces(o.deposits) == t.outputs
  {
    hide CopyInto, CopyAll, DepositOutputs, Accepts, Makes, DepositPlaces, HandlerOutcome;
    if t.kind == Bash {
      var toks, ended :| ShellRan(net, t, toks, ended, o);
      ShellFills(net, t, toks, ended, o);
    } else if t.kind == Tool && t.handler.Some? {
      HandlerFills(net, t, consumed);
    } else {
      var tok :| Copies(net, t, tok, o);
      CopiesFill(net, tok, t.outputs, Bridges(t.kind));
    }
  }

  lemma {:induction false} LastDeposits(tries: seq<Outcome>)
    requires tries != []
    ensures var last := tries[|tries|-1].deposits;
            |AllDeposits(tries)| >= |last| && AllDeposits(tries)[|AllDeposits(tries)| - |last|..] == last
    ensures |tries| == 1 ==> AllDeposits(tries) == tries[0].deposits
    decreases |tries|
  {
    assert AllDeposits([]) == [];
    if |tries| > 1 {
      LastDeposits(tries[1..]);
    } else {
      assert tries[1..] == [];
      assert tries[0].deposits + [] == tries[0].deposits;
    }
  }

  lemma {:induction false} PlacesOfEnd(ds: seq<Deposit>, n: nat)
    requires n <= |ds|
    ensures DepositPlaces(ds[n..]) == DepositPlaces(ds)[n..]
  {
  }

  lemma {:induction false} TriedOnce(net: Net, t: TransitionDef, consumed: seq<Token>, tries: seq<Outcome>, o: Outcome)
    requires Tried(net, t, consumed, tries, o) && t.maxAttempts <= 1
    ensures Attempt(net, t, consumed, o)
  {
    hide Attempt;
    LastDeposits(tries);
  }

  lemma {:induction false} LastFills(net: Net, t: TransitionDef, consumed: seq<Token>, tries: seq<Outcome>, o: Outcome)
    requires Tried(net, t, consumed, tries, o) && o.error.None? && FillsOutputs(t.kind)
    ensures EndsWith(DepositPlaces(o.deposits), t.outputs)
  {
    hide Attempt, DepositPlaces;
    var last := tries[|tries|-1];
    LastDeposits(tries);
    AttemptFills(net, t, consumed, last);
    PlacesOfEnd(o.deposits, |o.deposits| - |last.deposits|);
    SameLength(o.deposits);
    SameLength(last.deposits);
  }

  /** A firing that succeeds ends by putting one token in each output, in order; one that is
      not retried does nothing else, and with a handler it does what the handler computed. */
  lemma {:induction false} FiringFills(net: Net, f: Firing, o: Outcome)
    requires LegalOutcome(net, f, o) && o.error.None? && FillsOutputs(f.transition.kind)
    ensures EndsWith(DepositPlaces(o.deposits), f.transition.outputs)
    ensures f.transition.maxAttempts <= 1 ==> DepositPlaces(o.deposits) == f.transition.outputs
    ensures f.transition.maxAttempts <= 1 && f.transition.kind == Tool && f.transition.handler.Some? ==>
              o == HandlerOutcome(net, f.transition, TokensOf(f.taken))
  {
    hide DepositPlaces, HandlerOutcome, TokensOf, EndsWith, Tried, FillsOutputs;
    var t := f.transition;
    var tries :| Tried(net, t, TokensOf(f.taken), tries, o);
    LastFills(net, t, TokensOf(f.taken), tries, o);
    if t.maxAttempts <= 1 {
      TriedOnce(net, t, TokensOf(f.taken), tries, o);
      AttemptFills(net, t, TokensOf(f.taken), o);
    }
  }

  lemma {:induction false} SameLength(ds: seq<Deposit>)
    ensures |DepositPlaces(ds)| == |ds|
  {
  }

  // ---- A validator lets only valid payloads through ----

  /** Whatever passes this validator becomes a good payload. */
  ghost predicate Yields(t: TransitionDef, good: string -> bool) {
    && t.kind == Validate && t.validation.Some?
    && forall payload :: t.validation.value.valid(payload) ==> good(t.validation.value.onSuccess(payload))
  }

  ghost predicate AllGood(ds: seq<Deposit>, p: string, good: string -> bool) {
    forall i :: 0 <= i < |ds| && ds[i].place == p ==> good(ds[i].token.payload)
  }

  lemma {:induction false} ValidatedGood(net: Net, t: TransitionDef, color: Color, payload: string,
                                         p: string, good: string -> bool)
    requires Yields(t, good) && t.validation.value.valid(payload)
    ensures AllGood(DepositValidated(net, t, t.validation.value, color, payload).deposits, p, good)
  {
    var owner := net.owner;
    CopiesReachAll(net, Token(color, t.validation.value.onSuccess(payload), NoSpace, owner.id, owner.depth, Validate,
                              owner.sessionId), t.outputs, true);
  }

  lemma {:induction false} IsValidate(t: TransitionDef, good: string -> bool)
    requires Yields(t, good)
    ensures t.kind == Validate && t.validation.Some?
  {
  }

  lemma {:induction false} AttemptGood(net: Net, t: TransitionDef, consumed: seq<Token>, o: Outcome,
                                       p: string, good: string -> bool)
    requires Attempt(net, t, consumed, o)
    requires Yields(t, good) && p != t.errorPlace
    ensures AllGood(o.deposits, p, good)
  {
    hide DepositValidated, Yields;
    IsValidate(t, good);
    if consumed != [] {
      var cfg := t.validation.value;
      forall payload | cfg.valid(payload)
        ensures AllGood(DepositValidated(net, t, cfg, consumed[0].color, payload).deposits, p, good)
      {
        ValidatedGood(net, t, consumed[0].color, payload, p, good);
      }
    }
  }

  lemma {:induction false} TriesGood(net: Net, t: TransitionDef, consumed: seq<Token>, tries: seq<Outcome>,
                                     p: string, good: string -> bool)
    requires forall i :: 0 <= i < |tries| ==> Attempt(net, t, consumed, tries[i])
    requires Yields(t, good) && p != t.errorPlace
    ensures AllGood(AllDeposits(tries), p, good)
    decreases |tries|
  {
    hide Attempt, Yields;
    if tries != [] {
      AttemptGood(net, t, consumed, tries[0], p, good);
      TriesGood(net, t, consumed, tries[1..], p, good);
    }
  }

  /** Over all attempts and all corrections a model proposed, what a validate firing leaves
      anywhere but in its error place passed its validator. */
  lemma {:induction false} OnlyValidLeaves(net: Net, f: Firing, o: Outcome, p: string, good: string -> bool)
    requires LegalOutcome(net, f, o)
    requires Yields(f.transition, good) && p != f.transition.errorPlace
    ensures AllGood(o.deposits, p, good)
  {
    hide Attempt, Yields;
    if tries :| Tried(net, f.transition, TokensOf(f.taken), tries, o) {
      TriesGood(net, f.transition, TokensOf(f.taken), tries, p, good);
    }
  }
}
