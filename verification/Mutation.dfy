/** Hot topology mutation as a function on nets (cpn_mutate.go), and what any sequence of
    mutations keeps. */
module Mutation {
  import opened Wrappers
  import opened Order
  import opened Net
  import opened Validation

  datatype PlaceSpec = PlaceSpec(id: string, def: PlaceDef)

  datatype TransitionSpec = TransitionSpec(id: string, kind: Kind, inputs: seq<string>, outputs: seq<string>)

  /** A mutation as it arrives; the definition it names may be missing. */
  datatype Mutation =
    | AddPlace(place: Option<PlaceSpec>)
    | AddTransition(transition: Option<TransitionSpec>)
    | Deprecate(id: string, reason: string)
    | UnknownKind(kind: string)

  datatype MutationError =
    | NotPermitted
    | MissingDefinition
    | EmptyId
    | AlreadyExists(id: string)
    | PlaceDoesNotExist(id: string)
    | NotFound(id: string)
    | UnknownMutation(kind: string)
    | Invalid(errors: seq<ValidationError>)

  function NewTransition(spec: TransitionSpec): TransitionDef {
    TransitionDef(spec.id, spec.kind, spec.inputs, spec.outputs, "", None, None, false, 0, None, None, None, {}, false)
  }

  /** The first place of the list that the net does not have. */
  function FirstMissing(net: Net, places: seq<string>): Option<string> {
    if places == [] then None
    else if places[0] !in net.places then Some(places[0])
    else FirstMissing(net, places[1..])
  }

  /** The net after the apply step, before validation. */
  function Apply(net: Net, mu: Mutation): Result<Net, MutationError> {
    match mu
    case AddPlace(None) => Err(MissingDefinition)
    case AddPlace(Some(p)) =>
      if p.id == "" then Err(EmptyId)
      else if p.id in net.places then Err(AlreadyExists(p.id))
      else Ok(net.(places := net.places[p.id := p.def]))
    case AddTransition(None) => Err(MissingDefinition)
    case AddTransition(Some(t)) =>
      if t.id == "" then Err(EmptyId)
      else if t.id in net.transitions then Err(AlreadyExists(t.id))
      else
        (match FirstMissing(net, t.inputs + t.outputs)
         case Some(p) => Err(PlaceDoesNotExist(p))
         case None => Ok(net.(transitions := net.transitions[t.id := NewTransition(t)])))
    case Deprecate(id, _) =>
      if id == "" then Err(EmptyId)
      else if id !in net.transitions then Err(NotFound(id))
      else Ok(net.(transitions := net.transitions[id := net.transitions[id].(deprecated := true)]))
    case UnknownKind(kind) => Err(UnknownMutation(kind))
  }

  datatype Mutated = Mutated(net: Net, error: Option<MutationError>)

  /** `Mutate`.  A failed validation puts the snapshots of the two maps back; the
      deprecation flag lives in the shared transition, so that is not undone. */
  ghost function MutateNet(net: Net, mutableAfterStart: bool, mu: Mutation): Mutated {
    if !mutableAfterStart then Mutated(net, Some(NotPermitted))
    else
      match Apply(net, mu)
      case Err(e) => Mutated(net, Some(e))
      case Ok(net1) =>
        if NetErrors(net1) == [] then Mutated(net1, None)
        else Mutated(if mu.Deprecate? then net1 else net, Some(Invalid(NetErrors(net1))))
  }

  // ---- What mutations keep ----

  lemma {:induction false} DeprecationKeepsAcceptance(net: Net, id: string)
    requires id in net.transitions
    ensures Accepted(net) <==> Accepted(net.(transitions := net.transitions[id := net.transitions[id].(deprecated := true)]))
  {
    var net1 := net.(transitions := net.transitions[id := net.transitions[id].(deprecated := true)]);
    forall k | k in net.transitions
      ensures AcceptedTransition(net, net.transitions[k]) <==> AcceptedTransition(net1, net1.transitions[k])
    {
    }
    if Accepted(net1) {
      forall k | k in net.transitions ensures AcceptedTransition(net, net.transitions[k]) {
        assert k in net1.transitions;
      }
    }
  }

  /** An accepted net stays accepted, whatever the mutation and whether it is refused. */
  lemma {:induction false} MutationKeepsNetValid(net: Net, mutableAfterStart: bool, mu: Mutation)
    requires Accepted(net)
    ensures Accepted(MutateNet(net, mutableAfterStart, mu).net)
  {
    if mu.Deprecate? && mu.id in net.transitions { DeprecationKeepsAcceptance(net, mu.id); }
  }

  /** A rejected mutation leaves the net exactly as it was, unless the net was already
      invalid and the mutation deprecates a live transition of it: then the flag stays. */
  lemma {:induction false} RejectionUndone(net: Net, mutableAfterStart: bool, mu: Mutation)
    requires MutateNet(net, mutableAfterStart, mu).error.Some?
    ensures MutateNet(net, mutableAfterStart, mu).net == net <==>
            !(&& mutableAfterStart && mu.Deprecate? && mu.id != "" && mu.id in net.transitions
              && !net.transitions[mu.id].deprecated && !Accepted(net))
  {
    if mutableAfterStart && mu.Deprecate? && mu.id != "" && mu.id in net.transitions {
      DeprecationKeepsAcceptance(net, mu.id);
      var t := net.transitions[mu.id];
      var net1 := Apply(net, mu).value;
      assert net1.transitions[mu.id].deprecated;
      if t.deprecated {
        assert t.(deprecated := true) == t;
        assert net1.transitions == net.transitions;
      }
    }
  }

  /** A concrete rejected deprecation that is not undone. */
  lemma {:induction false} RejectedDeprecationSticks()
    ensures var t := NewTransition(TransitionSpec("t", HITL, ["p"], []));
            var net := Net(Owner("c", 0, "s"), map["p" := PlaceDef(ColorString, Surface)], map["t" := t]);
            var r := MutateNet(net, true, Deprecate("t", ""));
            r.error.Some? && r.net.transitions["t"].deprecated && !net.transitions["t"].deprecated
  {
    var t := NewTransition(TransitionSpec("t", HITL, ["p"], []));
    var net := Net(Owner("c", 0, "s"), map["p" := PlaceDef(ColorString, Surface)], map["t" := t]);
    var net1 := Apply(net, Deprecate("t", "")).value;
    assert !AcceptedTransition(net1, net1.transitions["t"]);
  }

  /** The net after a sequence of mutations. */
  ghost function AfterMutations(net: Net, mutableAfterStart: bool, mus: seq<Mutation>): Net
    decreases |mus|
  {
    if mus == [] then net
    else AfterMutations(MutateNet(net, mutableAfterStart, mus[0]).net, mutableAfterStart, mus[1..])
  }

  /** Places and transitions only get added; a flag that is set stays set. */
  ghost predicate Grown(net: Net, later: Net) {
    && later.owner == net.owner
    && (forall p :: p in net.places ==> p in later.places && later.places[p] == net.places[p])
    && (forall id :: id in net.transitions ==>
          && id in later.transitions
          && (later.transitions[id] == net.transitions[id]
              || later.transitions[id] == net.transitions[id].(deprecated := true)))
  }

  lemma {:induction false} MutationGrows(net: Net, mutableAfterStart: bool, mu: Mutation)
    ensures Grown(net, MutateNet(net, mutableAfterStart, mu).net)
  {
    hide NetErrors, FirstMissing;
  }

  lemma {:induction false} GrownTransitive(a: Net, b: Net, c: Net)
    requires Grown(a, b) && Grown(b, c)
    ensures Grown(a, c)
  {
  }

  /** Any sequence of accepted and rejected mutations keeps the net accepted, keeps every
      place and transition it had, and never revives a deprecated transition. */
  lemma {:induction false} MutationsKeep(net: Net, mutableAfterStart: bool, mus: seq<Mutation>)
    ensures var last := AfterMutations(net, mutableAfterStart, mus);
            Grown(net, last) && (Accepted(net) ==> Accepted(last))
    decreases |mus|
  {
    hide Grown, Accepted, MutateNet;
    if mus == [] {
      GrownReflexive(net);
    } else {
      var net1 := MutateNet(net, mutableAfterStart, mus[0]).net;
      if Accepted(net) { MutationKeepsNetValid(net, mutableAfterStart, mus[0]); }
      MutationGrows(net, mutableAfterStart, mus[0]);
      MutationsKeep(net1, mutableAfterStart, mus[1..]);
      GrownTransitive(net, net1, AfterMutations(net, mutableAfterStart, mus));
    }
  }

  lemma {:induction false} GrownReflexive(net: Net)
    ensures Grown(net, net)
  {
  }

  /** Once deprecated, a transition is in no later batch, after any later mutations. */
  lemma {:induction false} DeprecatedNeverFires(net: Net, mutableAfterStart: bool, mus: seq<Mutation>, id: string,
                                                s: NetState, c: Choices, s': NetState)
    requires id in net.transitions && net.transitions[id].deprecated
    requires Round(AfterMutations(net, mutableAfterStart, mus), s, c, s')
    ensures id !in c.order
  {
    var last := AfterMutations(net, mutableAfterStart, mus);
    MutationsKeep(net, mutableAfterStart, mus);
    EnumerationMembers(c.order, FirableSet(last, s.mode, s.m) - c.refused);
    assert !Firable(last, s.mode, s.m, id);
  }
}
