/** The structural validator (validate.go): which nets it accepts, and what that means
    for the paths a token can take between the spaces. */
module Validation {
  import opened Wrappers
  import opened Order
  import opened Net

  datatype ValidationError =
    | MissingInput(transition: string, place: string)
    | MissingOutput(transition: string, place: string)
    | MissingErrorPlace(transition: string, place: string)
    | SpaceViolation(transition: string, place: string)
    | HITLWithoutConfig(transition: string)
    | HITLWithoutChannel(transition: string)
    | BashWithoutConfig(transition: string)
    | BashWithoutCommand(transition: string)
    | BashOutputColor(transition: string, place: string)

  predicate IsShellColor(c: Color) {
    c in {ColorShellCmd, ColorShellChunk, ColorShellResult, ColorHostFact, ColorProcess}
  }

  // ---- What the validator accepts ----

  ghost predicate ArcsExist(net: Net, t: TransitionDef) {
    && (forall p :: p in t.inputs ==> p in net.places)
    && (forall p :: p in t.outputs ==> p in net.places)
    && (t.errorPlace != "" ==> t.errorPlace in net.places)
  }

  ghost predicate CrossesSpaces(net: Net, t: TransitionDef) {
    && (exists p :: p in t.inputs && p in net.places && net.places[p].space == Surface)
    && (exists p :: p in t.outputs && p in net.places && net.places[p].space == Computation)
  }

  ghost predicate AcceptedTransition(net: Net, t: TransitionDef) {
    && ArcsExist(net, t)
    && (t.kind != HITL ==> !CrossesSpaces(net, t))
    && (t.kind == HITL ==> t.hitlChannel == Some(true))
    && (t.kind == Bash ==>
          && t.bashCommand.Some? && t.bashCommand.value != ""
          && forall p :: p in t.outputs && p in net.places ==>
               net.places[p].color == ColorError || IsShellColor(net.places[p].color))
  }

  ghost predicate Accepted(net: Net) {
    forall id :: id in net.transitions ==> AcceptedTransition(net, net.transitions[id])
  }

  // ---- The errors it lists ----

  function ArcErrors(net: Net, t: TransitionDef): seq<ValidationError> {
    MissingIn(net, t, t.inputs, true) + MissingIn(net, t, t.outputs, false)
    + if t.errorPlace != "" && t.errorPlace !in net.places then [MissingErrorPlace(t.id, t.errorPlace)] else []
  }

  function MissingIn(net: Net, t: TransitionDef, places: seq<string>, inputs: bool): seq<ValidationError> {
    if places == [] then []
    else
      (if places[0] in net.places then []
       else if inputs then [MissingInput(t.id, places[0])]
       else [MissingOutput(t.id, places[0])])
      + MissingIn(net, t, places[1..], inputs)
  }

  predicate AnySurface(net: Net, places: seq<string>) {
    exists i :: 0 <= i < |places| && places[i] in net.places && net.places[places[i]].space == Surface
  }

  function ComputationOutputs(net: Net, t: TransitionDef, places: seq<string>): seq<ValidationError> {
    if places == [] then []
    else
      (if places[0] in net.places && net.places[places[0]].space == Computation
       then [SpaceViolation(t.id, places[0])] else [])
      + ComputationOutputs(net, t, places[1..])
  }

  function SpaceErrors(net: Net, t: TransitionDef): seq<ValidationError> {
    if AnySurface(net, t.inputs) then ComputationOutputs(net, t, t.outputs) else []
  }

  function HITLErrors(t: TransitionDef): seq<ValidationError> {
    if t.kind != HITL then []
    else if t.hitlChannel == None then [HITLWithoutConfig(t.id)]
    else if !t.hitlChannel.value then [HITLWithoutChannel(t.id)]
    else []
  }

  function ColorErrors(net: Net, t: TransitionDef, places: seq<string>): seq<ValidationError> {
    if places == [] then []
    else
      (if places[0] !in net.places || net.places[places[0]].color == ColorError
          || IsShellColor(net.places[places[0]].color) then []
       else [BashOutputColor(t.id, places[0])])
      + ColorErrors(net, t, places[1..])
  }

  function BashErrors(net: Net, t: TransitionDef): seq<ValidationError> {
    if t.kind != Bash then []
    else if t.bashCommand == None then [BashWithoutConfig(t.id)]
    else (if t.bashCommand.value == "" then [BashWithoutCommand(t.id)] else []) + ColorErrors(net, t, t.outputs)
  }

  function TransitionErrors(net: Net, t: TransitionDef): seq<ValidationError> {
    var arcs := ArcErrors(net, t);
    arcs
    + (if arcs == [] && t.kind != HITL then SpaceErrors(net, t) else [])
    + HITLErrors(t)
    + BashErrors(net, t)
  }

  /** All errors, in the order of the transition IDs. */
  function ErrorsIn(net: Net, ids: seq<string>): seq<ValidationError> {
    if ids == [] then []
    else (if ids[0] in net.transitions then TransitionErrors(net, net.transitions[ids[0]]) else [])
         + ErrorsIn(net, ids[1..])
  }

  // ---- No error listed exactly when accepted ----

  lemma {:induction false} MissingInEmpty(net: Net, t: TransitionDef, places: seq<string>, inputs: bool)
    ensures MissingIn(net, t, places, inputs) == [] <==> forall p :: p in places ==> p in net.places
    decreases |places|
  {
    if places != [] {
      MissingInEmpty(net, t, places[1..], inputs);
      assert forall p :: p in places <==> p == places[0] || p in places[1..];
    }
  }

  lemma {:induction false} ComputationOutputsEmpty(net: Net, t: TransitionDef, places: seq<string>)
    ensures ComputationOutputs(net, t, places) == [] <==>
            !exists p :: p in places && p in net.places && net.places[p].space == Computation
    decreases |places|
  {
    if places != [] {
      ComputationOutputsEmpty(net, t, places[1..]);
      assert forall p :: p in places <==> p == places[0] || p in places[1..];
    }
  }

  lemma {:induction false} ColorErrorsEmpty(net: Net, t: TransitionDef, places: seq<string>)
    ensures ColorErrors(net, t, places) == [] <==>
            forall p :: p in places && p in net.places ==>
              net.places[p].color == ColorError || IsShellColor(net.places[p].color)
    decreases |places|
  {
    if places != [] {
      ColorErrorsEmpty(net, t, places[1..]);
      assert forall p :: p in places <==> p == places[0] || p in places[1..];
    }
  }

  lemma {:induction false} NoErrorsIffAccepted(net: Net, t: TransitionDef)
    ensures TransitionErrors(net, t) == [] <==> AcceptedTransition(net, t)
  {
    MissingInEmpty(net, t, t.inputs, true);
    MissingInEmpty(net, t, t.outputs, false);
    ComputationOutputsEmpty(net, t, t.outputs);
    ColorErrorsEmpty(net, t, t.outputs);
    assert ArcErrors(net, t) == [] <==> ArcsExist(net, t);
    assert AnySurface(net, t.inputs) <==>
      exists p :: p in t.inputs && p in net.places && net.places[p].space == Surface;
  }

  /** The validator lists no error exactly for the nets described by `Accepted`. */
  lemma {:induction false} ValidateDecidesAccepted(net: Net, ids: seq<string>)
    requires forall id :: id in ids ==> id in net.transitions
    ensures ErrorsIn(net, ids) == [] <==> forall id :: id in ids ==> AcceptedTransition(net, net.transitions[id])
    decreases |ids|
  {
    if ids != [] {
      NoErrorsIffAccepted(net, net.transitions[ids[0]]);
      ValidateDecidesAccepted(net, ids[1..]);
      assert forall id :: id in ids <==> id == ids[0] || id in ids[1..];
    }
  }

  /** The errors of the whole net, transitions in the order of their IDs. */
  ghost function NetErrors(net: Net): seq<ValidationError>
    ensures NetErrors(net) == [] <==> Accepted(net)
  {
    var ids := SortedKeys(net.transitions.Keys);
    EnumerationMembers(ids, net.transitions.Keys);
    ValidateDecidesAccepted(net, ids);
    ErrorsIn(net, ids)
  }

  // ---- The validator itself: loops over the arcs and the transitions ----

  lemma {:induction false} MissingInStep(net: Net, t: TransitionDef, places: seq<string>, inputs: bool,
                                         errs: seq<ValidationError>)
    requires places != []
    ensures errs + MissingIn(net, t, places, inputs)
            == (if places[0] in net.places then errs
                else errs + [if inputs then MissingInput(t.id, places[0]) else MissingOutput(t.id, places[0])])
               + MissingIn(net, t, places[1..], inputs)
  {
  }

  /** One pass over the arcs of one direction. */
  method CheckArcs(net: Net, t: TransitionDef, places: seq<string>, inputs: bool) returns (errs: seq<ValidationError>)
    ensures errs == MissingIn(net, t, places, inputs)
  {
    var rest := places;
    errs := [];
    while rest != []
      invariant errs + MissingIn(net, t, rest, inputs) == MissingIn(net, t, places, inputs)
    {
      hide MissingIn;
      MissingInStep(net, t, rest, inputs, errs);
      if rest[0] !in net.places {
        errs := errs + [if inputs then MissingInput(t.id, rest[0]) else MissingOutput(t.id, rest[0])];
      }
      rest := rest[1..];
    }
  }

  method CheckArcReferences(net: Net, t: TransitionDef) returns (errs: seq<ValidationError>)
    ensures errs == ArcErrors(net, t)
  {
    var ins := CheckArcs(net, t, t.inputs, true);
    var outs := CheckArcs(net, t, t.outputs, false);
    errs := ins + outs;
    if t.errorPlace != "" && t.errorPlace !in net.places {
      errs := errs + [MissingErrorPlace(t.id, t.errorPlace)];
    }
  }

  method CheckSpaceViolations(net: Net, t: TransitionDef) returns (errs: seq<ValidationError>)
    ensures errs == SpaceErrors(net, t)
  {
    var hasSurfaceInput := false;
    for i := 0 to |t.inputs|
      invariant !hasSurfaceInput
      invariant forall k :: 0 <= k < i ==> !(t.inputs[k] in net.places && net.places[t.inputs[k]].space == Surface)
    {
      if t.inputs[i] in net.places && net.places[t.inputs[i]].space == Surface {
        hasSurfaceInput := true;
        break;
      }
    }
    errs := [];
    if !hasSurfaceInput {
      return;
    }
    var rest := t.outputs;
    while rest != []
      invariant errs + ComputationOutputs(net, t, rest) == ComputationOutputs(net, t, t.outputs)
    {
      var one := if rest[0] in net.places && net.places[rest[0]].space == Computation
                 then [SpaceViolation(t.id, rest[0])] else [];
      assert errs + (one + ComputationOutputs(net, t, rest[1..])) == errs + one + ComputationOutputs(net, t, rest[1..]);
      errs, rest := errs + one, rest[1..];
    }
  }

  method CheckBashConfig(net: Net, t: TransitionDef) returns (errs: seq<ValidationError>)
    ensures errs == BashErrors(net, t)
  {
    errs := [];
    if t.kind != Bash {
      return;
    }
    if t.bashCommand == None {
      return [BashWithoutConfig(t.id)];
    }
    if t.bashCommand.value == "" {
      errs := [BashWithoutCommand(t.id)];
    }
    ghost var first := errs;
    var rest := t.outputs;
    while rest != []
      invariant errs + ColorErrors(net, t, rest) == first + ColorErrors(net, t, t.outputs)
    {
      var one := if rest[0] !in net.places || net.places[rest[0]].color == ColorError
                    || IsShellColor(net.places[rest[0]].color)
                 then [] else [BashOutputColor(t.id, rest[0])];
      assert errs + (one + ColorErrors(net, t, rest[1..])) == errs + one + ColorErrors(net, t, rest[1..]);
      errs, rest := errs + one, rest[1..];
    }
  }

  method CheckTransition(net: Net, t: TransitionDef) returns (errs: seq<ValidationError>)
    ensures errs == TransitionErrors(net, t)
  {
    errs := CheckArcReferences(net, t);
    if errs == [] && t.kind != HITL {
      errs := CheckSpaceViolations(net, t);
    }
    var bash := CheckBashConfig(net, t);
    errs := errs + HITLErrors(t) + bash;
  }

  lemma {:induction false} ErrorsInStep(net: Net, ids: seq<string>, errs: seq<ValidationError>)
    requires ids != [] && ids[0] in net.transitions
    ensures errs + ErrorsIn(net, ids)
            == errs + TransitionErrors(net, net.transitions[ids[0]]) + ErrorsIn(net, ids[1..])
  {
  }

  /** `Validate`: reports nothing exactly for the accepted nets. */
  method Validate(net: Net) returns (errs: seq<ValidationError>)
    ensures errs == NetErrors(net)
    ensures errs == [] <==> Accepted(net)
  {
    hide Accepted, TransitionErrors;
    var ids := SortedIds(net);
    errs := [];
    ghost var all := ids;
    while ids != []
      invariant forall id :: id in ids ==> id in net.transitions
      invariant errs + ErrorsIn(net, ids) == ErrorsIn(net, all)
    {
      hide ErrorsIn;
      ErrorsInStep(net, ids, errs);
      var one := CheckTransition(net, net.transitions[ids[0]]);
      errs, ids := errs + one, ids[1..];
    }
  }

  /** The transition IDs, gathered in any order and sorted. */
  method SortedIds(net: Net) returns (sorted: seq<string>)
    ensures sorted == SortedKeys(net.transitions.Keys)
    ensures forall id :: id in sorted <==> id in net.transitions
  {
    var ids: seq<string> := [];
    var pending := net.transitions.Keys;
    while pending != {}
      invariant pending <= net.transitions.Keys
      invariant NoRepeats(ids)
      invariant forall id :: id in ids <==> id in net.transitions && id !in pending
    {
      var id :| id in pending;
      pending := pending - {id};
      ids := ids + [id];
    }
    MembersEnumerated(ids, net.transitions.Keys);
    SortForgetsOrder(ids, net.transitions.Keys);
    sorted := Sort(ids);
    EnumerationMembers(sorted, net.transitions.Keys);
  }

  // ---- Space discipline over paths ----

  /** One input arc and one output arc of the same transition. */
  ghost predicate Step(net: Net, via: string, from: string, to: string) {
    && via in net.transitions
    && from in net.transitions[via].inputs
    && to in net.transitions[via].outputs
  }

  ghost predicate ArcPath(net: Net, places: seq<string>, via: seq<string>) {
    && |places| == |via| + 1
    && forall i :: 0 <= i < |via| ==> Step(net, via[i], places[i], places[i+1])
  }

  ghost predicate IsHuman(net: Net, id: string) {
    id in net.transitions && net.transitions[id].kind == HITL
  }

  ghost predicate Between(net: Net, p: string) {
    p in net.places && net.places[p].space != Surface && net.places[p].space != Computation
  }

  /** Along any arc path from a surface place to a computation place there is a human
      transition, or a place in neither space, such as the observation space. */
  lemma {:induction false} SpacesMeetAtHumansOrObservation(net: Net, places: seq<string>, via: seq<string>)
    requires Accepted(net) && ArcPath(net, places, via)
    requires places[0] in net.places && net.places[places[0]].space == Surface
    requires places[|via|] in net.places && net.places[places[|via|]].space == Computation
    ensures || (exists i :: 0 <= i < |via| && IsHuman(net, via[i]))
            || (exists i :: 0 < i < |via| && Between(net, places[i]))
    decreases |via|
  {
    assert Step(net, via[0], places[0], places[1]);
    var t := net.transitions[via[0]];
    assert AcceptedTransition(net, t);
    assert places[1] in net.places;
    if t.kind == HITL {
      assert IsHuman(net, via[0]);
    } else if net.places[places[1]].space == Surface {
      forall i | 0 <= i < |via[1..]| ensures Step(net, via[1..][i], places[1..][i], places[1..][i+1]) {
        assert Step(net, via[i+1], places[i+1], places[i+2]);
      }
      SpacesMeetAtHumansOrObservation(net, places[1..], via[1..]);
      if i :| 0 <= i < |via[1..]| && IsHuman(net, via[1..][i]) {
        assert IsHuman(net, via[i+1]);
      } else {
        var i :| 0 < i < |via[1..]| && Between(net, places[1..][i]);
        assert Between(net, places[i+1]);
      }
    } else {
      assert Between(net, places[1]);
    }
  }
}
