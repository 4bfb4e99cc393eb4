/** The canonical form of whole topologies (canonical.go) and the content-addressed store
    of authored flows (authored_flow_memory.go). */
module Flows {
  import opened Wrappers
  import opened Order
  import opened Json
  import opened Decimals
  import opened Canonical
  import T = Topologies

  // ---- Topologies ----

  /** A part held as raw JSON: not there, not JSON at all, or a value. */
  datatype Raw = Absent | Malformed(text: string) | Present(value: Value)

  /** The configurations, as the JSON their Go structs marshal to. */
  datatype Configs = Configs(toolParameters: Raw, llmConfig: Raw, hitlConfig: Raw, validateConfig: Raw, retry: Raw)

  type Transition = T.TransitionT<Configs>

  type Topology = T.TopologyT<Configs>

  // ---- Looking fields up ----

  function Lookup(fields: seq<Field>, key: string): (r: Option<Ordered>)
    ensures r.Some? ==> exists i :: 0 <= i < |fields| && fields[i].value == r.value
  {
    if fields == [] then None
    else if fields[0].key == key then Some(fields[0].value)
    else
      var r := Lookup(fields[1..], key);
      assert r.Some? ==> exists i :: 0 <= i < |fields| && fields[i].value == r.value by {
        if r.Some? {
          var i :| 0 <= i < |fields[1..]| && fields[1..][i].value == r.value;
          assert fields[i+1].value == r.value;
        }
      }
      r
  }

  function FieldsOf(o: Option<Ordered>): seq<Field> {
    if o.Some? && o.value.Obj? then o.value.fields else []
  }

  function Text(o: Option<Ordered>): string {
    if o.Some? && o.value.Str? then o.value.s else ""
  }

  function Texts(o: Option<Ordered>): seq<string> {
    if o.Some? && o.value.Arr? then
      var items := o.value.items;
      seq(|items|, i requires 0 <= i < |items| => Text(Some(items[i])))
    else []
  }

  function RawOf(o: Option<Ordered>): Raw {
    if o.Some? then Present(ValueOf(o.value)) else Absent
  }

  // ---- The parts of a transition, left out when empty ----

  datatype Part =
    | Id | Kind | InputPlaces | OutputPlaces | ErrorPlace | GuardFunc | ExecutorFunc | FactoryFunc | SystemPrompt
    | ToolName | ObservedCpnId | EventFilterFunc | RetryOnFunc | LlmTools | ToolParameters | LlmConfig | HitlConfig
    | ValidateConfig | Retry | SubNet

  function Name(part: Part): string {
    match part
    case Id => "id"
    case Kind => "kind"
    case InputPlaces => "inputPlaces"
    case OutputPlaces => "outputPlaces"
    case ErrorPlace => "errorPlace"
    case GuardFunc => "guardFunc"
    case ExecutorFunc => "executorFunc"
    case FactoryFunc => "factoryFunc"
    case SystemPrompt => "systemPrompt"
    case ToolName => "toolName"
    case ObservedCpnId => "observedCPNID"
    case EventFilterFunc => "eventFilterFunc"
    case RetryOnFunc => "retryOnFunc"
    case LlmTools => "llmTools"
    case ToolParameters => "toolParameters"
    case LlmConfig => "llmConfig"
    case HitlConfig => "hitlConfig"
    case ValidateConfig => "validateConfig"
    case Retry => "retry"
    case SubNet => "subNetTopology"
  }

  /** The order in which they are emitted. */
  function Parts(): seq<Part> {
    [Id, Kind, InputPlaces, OutputPlaces, ErrorPlace, GuardFunc, ExecutorFunc, FactoryFunc, SystemPrompt, ToolName,
     ObservedCpnId, EventFilterFunc, RetryOnFunc, LlmTools, ToolParameters, LlmConfig, HitlConfig, ValidateConfig,
     Retry, SubNet]
  }

  function PartOf(name: string): Option<Part> {
    if name == "id" then Some(Id)
    else if name == "kind" then Some(Kind)
    else if name == "inputPlaces" then Some(InputPlaces)
    else if name == "outputPlaces" then Some(OutputPlaces)
    else if name == "errorPlace" then Some(ErrorPlace)
    else if name == "guardFunc" then Some(GuardFunc)
    else if name == "executorFunc" then Some(ExecutorFunc)
    else if name == "factoryFunc" then Some(FactoryFunc)
    else if name == "systemPrompt" then Some(SystemPrompt)
    else if name == "toolName" then Some(ToolName)
    else PartOfLater(name)
  }

  function PartOfLater(name: string): Option<Part> {
    if name == "observedCPNID" then Some(ObservedCpnId)
    else if name == "eventFilterFunc" then Some(EventFilterFunc)
    else if name == "retryOnFunc" then Some(RetryOnFunc)
    else if name == "llmTools" then Some(LlmTools)
    else if name == "toolParameters" then Some(ToolParameters)
    else if name == "llmConfig" then Some(LlmConfig)
    else if name == "hitlConfig" then Some(HitlConfig)
    else if name == "validateConfig" then Some(ValidateConfig)
    else if name == "retry" then Some(Retry)
    else if name == "subNetTopology" then Some(SubNet)
    else None
  }

  lemma {:induction false} PartOfName(part: Part)
    ensures PartOf(Name(part)) == Some(part)
  {
  }

  lemma {:induction false} NamesDistinct(a: Part, b: Part)
    ensures Name(a) == Name(b) ==> a == b
  {
    hide Name, PartOf;
    PartOfName(a);
    PartOfName(b);
  }

  function TextSlot(s: string): Option<Ordered> {
    if s == "" then None else Some(Str(s))
  }

  function ListSlot(xs: seq<string>): Option<Ordered> {
    if xs == [] then None else Some(Arr(seq(|xs|, i requires 0 <= i < |xs| => Str(xs[i]))))
  }

  ghost function RawSlot(raw: Raw): Option<Ordered> {
    if raw.Present? then Some(CanonicalValue(raw.value)) else None
  }

  /** What a transition emits under a name, if anything; a sub-net is canonicalised in turn. */
  ghost function PlainSlot(tr: Transition, part: Part): Option<Ordered> {
    match part
    case Id => Some(Str(tr.id))
    case Kind => Some(Str(tr.kind))
    case InputPlaces => ListSlot(tr.inputPlaces)
    case OutputPlaces => ListSlot(tr.outputPlaces)
    case ErrorPlace => TextSlot(tr.errorPlace)
    case GuardFunc => TextSlot(tr.guardFunc)
    case ExecutorFunc => TextSlot(tr.executorFunc)
    case FactoryFunc => TextSlot(tr.factoryFunc)
    case SystemPrompt => TextSlot(tr.systemPrompt)
    case ToolName => TextSlot(tr.toolName)
    case ObservedCpnId => TextSlot(tr.observedCpnId)
    case EventFilterFunc => TextSlot(tr.eventFilterFunc)
    case RetryOnFunc => TextSlot(tr.retryOnFunc)
    case LlmTools => ListSlot(Sort(tr.llmTools))
    case ToolParameters => RawSlot(tr.configs.toolParameters)
    case LlmConfig => RawSlot(tr.configs.llmConfig)
    case HitlConfig => RawSlot(tr.configs.hitlConfig)
    case ValidateConfig => RawSlot(tr.configs.validateConfig)
    case Retry => RawSlot(tr.configs.retry)
    case SubNet => None
  }

  ghost function Slot(tr: Transition, part: Part): Option<Ordered>
    decreases tr, 1, 0
  {
    if part != SubNet then PlainSlot(tr, part)
    else if tr.subNet.Some? then Some(CanonicalTopology(tr.subNet.value))
    else None
  }

  ghost function Emit(tr: Transition, parts: seq<Part>): seq<Field>
    decreases tr, 2, |parts|
  {
    if parts == [] then []
    else
      var slot := Slot(tr, parts[0]);
      (if slot.Some? then [Field(Name(parts[0]), slot.value)] else []) + Emit(tr, parts[1..])
  }

  /** `canonicalTransition`. */
  ghost function CanonicalTransition(tr: Transition): Ordered
    decreases tr, 3, 0
  {
    Obj(Emit(tr, Parts()))
  }

  function CanonicalPlace(p: T.PlaceT): Ordered {
    Obj([Field("id", Str(p.id)), Field("color", Str(p.color)), Field("space", Str(p.space))])
  }

  function PlaceFields(t: Topology, keys: seq<string>): (fields: seq<Field>)
    requires forall k :: k in keys ==> k in t.places
  {
    if keys == [] then []
    else
      var n := |keys| - 1;
      PlaceFields(t, keys[..n]) + [Field(keys[n], CanonicalPlace(t.places[keys[n]]))]
  }

  ghost function TransitionFields(t: Topology, keys: seq<string>): (fields: seq<Field>)
    requires forall k :: k in keys ==> k in t.transitions
    decreases t, 0, |keys|
  {
    if keys == [] then []
    else
      var n := |keys| - 1;
      TransitionFields(t, keys[..n]) + [Field(keys[n], CanonicalTransition(t.transitions[keys[n]]))]
  }

  /** `canonicalTopology`. */
  ghost function CanonicalTopology(t: Topology): Ordered
    decreases t, 1, 0
  {
    EnumerationMembers(SortedKeys(t.places.Keys), t.places.Keys);
    EnumerationMembers(SortedKeys(t.transitions.Keys), t.transitions.Keys);
    Obj([Field("id", Str(t.id)), Field("role", Str(t.role)), Field("depth", Num(IntText(t.depth))),
         Field("mode", Str(t.mode)),
         Field("places", Obj(PlaceFields(t, SortedKeys(t.places.Keys)))),
         Field("transitions", Obj(TransitionFields(t, SortedKeys(t.transitions.Keys))))])
  }

  // ---- Reading a topology back ----

  function ReadPlace(o: Ordered): T.PlaceT {
    var fields := FieldsOf(Some(o));
    T.PlaceT(Text(Lookup(fields, "id")), Text(Lookup(fields, "color")), Text(Lookup(fields, "space")))
  }

  function ReadPlaces(fields: seq<Field>): map<string, T.PlaceT> {
    if fields == [] then map[]
    else
      var n := |fields| - 1;
      ReadPlaces(fields[..n])[fields[n].key := ReadPlace(fields[n].value)]
  }

  function ReadTransition(o: Ordered): Transition
    decreases o, 0
  {
    var fields := FieldsOf(Some(o));
    var sub := Lookup(fields, Name(SubNet));
    assert sub.Some? ==> sub.value < o by {
      if sub.Some? {
        var i :| 0 <= i < |fields| && fields[i].value == sub.value;
      }
    }
    T.TransitionT(
      Text(Lookup(fields, Name(Id))), Text(Lookup(fields, Name(Kind))), Texts(Lookup(fields, Name(InputPlaces))),
      Texts(Lookup(fields, Name(OutputPlaces))), Text(Lookup(fields, Name(ErrorPlace))),
      Text(Lookup(fields, Name(GuardFunc))), Text(Lookup(fields, Name(ExecutorFunc))),
      Text(Lookup(fields, Name(FactoryFunc))), Text(Lookup(fields, Name(SystemPrompt))),
      Text(Lookup(fields, Name(ToolName))), Text(Lookup(fields, Name(ObservedCpnId))),
      Text(Lookup(fields, Name(EventFilterFunc))), Text(Lookup(fields, Name(RetryOnFunc))),
      Texts(Lookup(fields, Name(LlmTools))),
      Configs(RawOf(Lookup(fields, Name(ToolParameters))), RawOf(Lookup(fields, Name(LlmConfig))),
              RawOf(Lookup(fields, Name(HitlConfig))), RawOf(Lookup(fields, Name(ValidateConfig))),
              RawOf(Lookup(fields, Name(Retry)))),
      if sub.Some? then Some(ReadTopology(sub.value)) else None)
  }

  function ReadTransitions(fields: seq<Field>): map<string, Transition>
    decreases fields, 0
  {
    if fields == [] then map[]
    else
      var n := |fields| - 1;
      assert fields[..n] < fields;
      ReadTransitions(fields[..n])[fields[n].key := ReadTransition(fields[n].value)]
  }

  function ReadTopology(o: Ordered): Topology
    decreases o, 0
  {
    var fields := FieldsOf(Some(o));
    var transitions := Lookup(fields, "transitions");
    assert transitions.Some? ==> transitions.value < o by {
      if transitions.Some? {
        var i :| 0 <= i < |fields| && fields[i].value == transitions.value;
      }
    }
    var depth := Lookup(fields, "depth");
    T.TopologyT(Text(Lookup(fields, "id")), Text(Lookup(fields, "role")),
              if depth.Some? && depth.value.Num? && IntOf(depth.value.text).Some? then IntOf(depth.value.text).value else 0,
              Text(Lookup(fields, "mode")), ReadPlaces(FieldsOf(Lookup(fields, "places"))),
              if transitions.Some? && transitions.value.Obj? then ReadTransitions(transitions.value.fields) else map[])
  }

  // ---- What the canonical form keeps ----

  function NormalRaw(raw: Raw): Raw {
    if raw.Present? then raw else Absent
  }

  function NormalConfigs(c: Configs): Configs {
    Configs(NormalRaw(c.toolParameters), NormalRaw(c.llmConfig), NormalRaw(c.hitlConfig), NormalRaw(c.validateConfig),
            NormalRaw(c.retry))
  }

  /** Tool lists sorted, raw parts that are not JSON dropped; nothing else changed. */
  function Normal(t: Topology): Topology
    decreases t
  {
    t.(transitions := map id | id in t.transitions :: NormalTransition(t.transitions[id]))
  }

  function NormalTransition(tr: Transition): Transition
    decreases tr
  {
    tr.(llmTools := Sort(tr.llmTools), configs := NormalConfigs(tr.configs),
        subNet := if tr.subNet.Some? then Some(Normal(tr.subNet.value)) else None)
  }

  lemma {:induction false} LookupAfter(head: seq<Field>, rest: seq<Field>, key: string)
    requires forall i :: 0 <= i < |head| ==> head[i].key != key
    ensures Lookup(head + rest, key) == Lookup(rest, key)
    decreases |head|
  {
    if head == [] {
      assert head + rest == rest;
    } else {
      assert (head + rest)[1..] == head[1..] + rest;
      LookupAfter(head[1..], rest, key);
    }
  }

  lemma {:induction false} LookupHere(f: Field, rest: seq<Field>)
    ensures Lookup([f] + rest, f.key) == Some(f.value)
  {
  }

  /** A transition's field under a name is its slot. */
  lemma {:induction false} LookupEmitted(tr: Transition, parts: seq<Part>, part: Part)
    ensures Lookup(Emit(tr, parts), Name(part)) == if part in parts then Slot(tr, part) else None
    decreases |parts|
  {
    hide Name, Lookup, Slot;
    if parts == [] {
      NothingThere(Name(part));
    } else {
      var slot, rest := Slot(tr, parts[0]), Emit(tr, parts[1..]);
      LookupEmitted(tr, parts[1..], part);
      NamesDistinct(parts[0], part);
      assert part in parts <==> part == parts[0] || part in parts[1..];
      if slot.Some? {
        LookupHere(Field(Name(parts[0]), slot.value), rest);
        if parts[0] != part { LookupAfter([Field(Name(parts[0]), slot.value)], rest, Name(part)); }
      } else {
        assert [] + rest == rest;
      }
    }
  }

  lemma {:induction false} NothingThere(key: string)
    ensures Lookup([], key) == None
  {
  }

  lemma {:induction false} SlotsBack(s: string, xs: seq<string>, raw: Raw)
    ensures Text(TextSlot(s)) == s
    ensures Texts(ListSlot(xs)) == xs
    ensures RawOf(RawSlot(raw)) == NormalRaw(raw)
  {
    if raw.Present? { ValueBack(raw.value); }
  }

  lemma {:induction false} SlotsRead()
    ensures forall s :: Text(TextSlot(s)) == s && Text(Some(Str(s))) == s
    ensures forall xs :: Texts(ListSlot(xs)) == xs
    ensures forall raw :: RawOf(RawSlot(raw)) == NormalRaw(raw)
  {
    forall s ensures Text(TextSlot(s)) == s && Text(Some(Str(s))) == s {
    }
    forall xs ensures Texts(ListSlot(xs)) == xs {
      SlotsBack("", xs, Absent);
    }
    forall raw ensures RawOf(RawSlot(raw)) == NormalRaw(raw) {
      SlotsBack("", [], raw);
    }
  }

  lemma {:induction false} AllParts(part: Part)
    ensures part in Parts()
  {
    var i := match part
      case Id => 0 case Kind => 1 case InputPlaces => 2 case OutputPlaces => 3 case ErrorPlace => 4
      case GuardFunc => 5 case ExecutorFunc => 6 case FactoryFunc => 7 case SystemPrompt => 8 case ToolName => 9
      case ObservedCpnId => 10 case EventFilterFunc => 11 case RetryOnFunc => 12 case LlmTools => 13
      case ToolParameters => 14 case LlmConfig => 15 case HitlConfig => 16 case ValidateConfig => 17
      case Retry => 18 case SubNet => 19;
    assert Parts()[i] == part;
  }

  /** One field of a canonical transition, found by its name. */
  lemma {:induction false} PartRead(tr: Transition, part: Part)
    ensures var r := Lookup(FieldsOf(Some(CanonicalTransition(tr))), Name(part));
            if part != SubNet then r == PlainSlot(tr, part)
            else r == if tr.subNet.Some? then Some(CanonicalTopology(tr.subNet.value)) else None
  {
    hide Name, Lookup, Parts, Emit, PlainSlot, CanonicalTopology;
    AllParts(part);
    LookupEmitted(tr, Parts(), part);
  }

  lemma {:induction false} TextPartsRead(tr: Transition)
    ensures var fields := FieldsOf(Some(CanonicalTransition(tr)));
            && Text(Lookup(fields, Name(Id))) == tr.id && Text(Lookup(fields, Name(Kind))) == tr.kind
            && Text(Lookup(fields, Name(ErrorPlace))) == tr.errorPlace
            && Text(Lookup(fields, Name(GuardFunc))) == tr.guardFunc
            && Text(Lookup(fields, Name(ExecutorFunc))) == tr.executorFunc
            && Text(Lookup(fields, Name(FactoryFunc))) == tr.factoryFunc
            && Text(Lookup(fields, Name(SystemPrompt))) == tr.systemPrompt
            && Text(Lookup(fields, Name(ToolName))) == tr.toolName
            && Text(Lookup(fields, Name(ObservedCpnId))) == tr.observedCpnId
            && Text(Lookup(fields, Name(EventFilterFunc))) == tr.eventFilterFunc
            && Text(Lookup(fields, Name(RetryOnFunc))) == tr.retryOnFunc
  {
    hide Name, Lookup, CanonicalTransition, FieldsOf, ListSlot, RawSlot, CanonicalTopology, Sort, TextSlot, Text;
    SlotsRead();
    PartRead(tr, Id);
    PartRead(tr, Kind);
    PartRead(tr, ErrorPlace);
    PartRead(tr, GuardFunc);
    PartRead(tr, ExecutorFunc);
    PartRead(tr, FactoryFunc);
    PartRead(tr, SystemPrompt);
    PartRead(tr, ToolName);
    PartRead(tr, ObservedCpnId);
    PartRead(tr, EventFilterFunc);
    PartRead(tr, RetryOnFunc);
  }

  lemma {:induction false} OtherPartsRead(tr: Transition)
    ensures var fields := FieldsOf(Some(CanonicalTransition(tr)));
            && Texts(Lookup(fields, Name(InputPlaces))) == tr.inputPlaces
            && Texts(Lookup(fields, Name(OutputPlaces))) == tr.outputPlaces
            && Texts(Lookup(fields, Name(LlmTools))) == Sort(tr.llmTools)
            && RawOf(Lookup(fields, Name(ToolParameters))) == NormalRaw(tr.configs.toolParameters)
            && RawOf(Lookup(fields, Name(LlmConfig))) == NormalRaw(tr.configs.llmConfig)
            && RawOf(Lookup(fields, Name(HitlConfig))) == NormalRaw(tr.configs.hitlConfig)
            && RawOf(Lookup(fields, Name(ValidateConfig))) == NormalRaw(tr.configs.validateConfig)
            && RawOf(Lookup(fields, Name(Retry))) == NormalRaw(tr.configs.retry)
            && Lookup(fields, Name(SubNet)) == if tr.subNet.Some? then Some(CanonicalTopology(tr.subNet.value)) else None
  {
    hide Name, Lookup, CanonicalTransition, FieldsOf, TextSlot, ListSlot, RawSlot, Texts, RawOf, NormalRaw,
         CanonicalTopology, Sort;
    PartRead(tr, InputPlaces);
    PartRead(tr, OutputPlaces);
    PartRead(tr, LlmTools);
    PartRead(tr, ToolParameters);
    PartRead(tr, LlmConfig);
    PartRead(tr, HitlConfig);
    PartRead(tr, ValidateConfig);
    PartRead(tr, Retry);
    PartRead(tr, SubNet);
    SlotsRead();
  }

  lemma {:induction false} TransitionBack(tr: Transition)
    ensures ReadTransition(CanonicalTransition(tr)) == NormalTransition(tr)
    decreases tr, 1, 0
  {
    hide Name, Lookup, CanonicalTransition, FieldsOf, Text, Texts, RawOf, NormalRaw, Sort, CanonicalTopology, ReadTopology,
         Normal;
    TextPartsRead(tr);
    OtherPartsRead(tr);
    if tr.subNet.Some? { TopologyBack(tr.subNet.value); }
  }

  lemma {:induction false} ReadOneMore(fields: seq<Field>, f: Field)
    ensures ReadTransitions(fields + [f]) == ReadTransitions(fields)[f.key := ReadTransition(f.value)]
  {
    hide ReadTransition;
    assert (fields + [f])[..|fields|] == fields;
  }

  lemma {:induction false} TransitionsBack(t: Topology, keys: seq<string>)
    requires forall k :: k in keys ==> k in t.transitions
    ensures ReadTransitions(TransitionFields(t, keys)) == map k | k in keys :: NormalTransition(t.transitions[k])
    decreases t, 0, |keys|
  {
    hide ReadTransition, CanonicalTransition, NormalTransition, ReadTransitions;
    if keys == [] {
      ReadNone();
    } else {
      var n := |keys| - 1;
      var tr := t.transitions[keys[n]];
      TransitionsBack(t, keys[..n]);
      TransitionBack(tr);
      ReadOneMore(TransitionFields(t, keys[..n]), Field(keys[n], CanonicalTransition(tr)));
      assert keys == keys[..n] + [keys[n]];
    }
  }

  lemma {:induction false} ReadNone()
    ensures ReadTransitions([]) == map[]
  {
  }

  lemma {:induction false} PlaceBack(p: T.PlaceT)
    ensures ReadPlace(CanonicalPlace(p)) == p
  {
    var fields := FieldsOf(Some(CanonicalPlace(p)));
    hide Lookup;
    LookupAt(fields, 0);
    LookupAt(fields, 1);
    LookupAt(fields, 2);
  }

  lemma {:induction false} PlacesBack(t: Topology, keys: seq<string>)
    requires forall k :: k in keys ==> k in t.places
    ensures ReadPlaces(PlaceFields(t, keys)) == map k | k in keys :: t.places[k]
    decreases |keys|
  {
    hide ReadPlace, CanonicalPlace;
    if keys != [] {
      var n := |keys| - 1;
      PlacesBack(t, keys[..n]);
      PlaceBack(t.places[keys[n]]);
      var fields := PlaceFields(t, keys);
      assert fields[..|fields|-1] == PlaceFields(t, keys[..n]);
      assert keys == keys[..n] + [keys[n]];
    }
  }

  /** The six fields of a topology, found again by name. */
  lemma {:induction false} LookupSix(a: Ordered, b: Ordered, c: Ordered, d: Ordered, e: Ordered, f: Ordered)
    ensures var fields := [Field("id", a), Field("role", b), Field("depth", c), Field("mode", d), Field("places", e),
                           Field("transitions", f)];
            && Lookup(fields, "id") == Some(a) && Lookup(fields, "role") == Some(b) && Lookup(fields, "depth") == Some(c)
            && Lookup(fields, "mode") == Some(d) && Lookup(fields, "places") == Some(e)
            && Lookup(fields, "transitions") == Some(f)
  {
    var fs := [Field("id", a), Field("role", b), Field("depth", c), Field("mode", d), Field("places", e),
               Field("transitions", f)];
    hide Lookup;
    LookupAt(fs, 0);
    LookupAt(fs, 1);
    LookupAt(fs, 2);
    LookupAt(fs, 3);
    LookupAt(fs, 4);
    LookupAt(fs, 5);
  }

  lemma {:induction false} LookupAt(fields: seq<Field>, i: nat)
    requires i < |fields| && forall j :: 0 <= j < i ==> fields[j].key != fields[i].key
    ensures Lookup(fields, fields[i].key) == Some(fields[i].value)
  {
    hide Lookup;
    LookupAfter(fields[..i], fields[i..], fields[i].key);
    LookupHere(fields[i], fields[i+1..]);
    assert fields == fields[..i] + fields[i..];
    assert fields[i..] == [fields[i]] + fields[i+1..];
  }

  lemma {:induction false} SameTransitions(t: Topology, keys: seq<string>)
    requires forall k :: k in keys <==> k in t.transitions
    ensures (map k | k in keys :: NormalTransition(t.transitions[k])) == Normal(t).transitions
  {
    hide NormalTransition;
  }

  /** Reading the canonical form gives the topology back, tools sorted. */
  lemma {:induction false} TopologyBack(t: Topology)
    ensures ReadTopology(CanonicalTopology(t)) == Normal(t)
    decreases t, 1, 0
  {
    hide Lookup, PlaceFields, TransitionFields, ReadPlaces, ReadTransitions, SortedKeys, IntText, IntOf, NormalTransition;
    var ps, ts := SortedKeys(t.places.Keys), SortedKeys(t.transitions.Keys);
    EnumerationMembers(ps, t.places.Keys);
    EnumerationMembers(ts, t.transitions.Keys);
    LookupSix(Str(t.id), Str(t.role), Num(IntText(t.depth)), Str(t.mode), Obj(PlaceFields(t, ps)),
              Obj(TransitionFields(t, ts)));
    IntBack(t.depth);
    PlacesBack(t, ps);
    TransitionsBack(t, ts);
    assert (map k | k in ps :: t.places[k]) == t.places;
    SameTransitions(t, ts);
  }

  // ---- The printed form ----

  ghost predicate ValidRaw(raw: Raw) {
    raw.Present? ==> ValidValue(raw.value)
  }

  /** The raw parts that are JSON hold well-formed numbers. */
  ghost predicate ValidTopology(t: Topology) {
    forall id :: id in t.transitions ==> ValidTransition(t.transitions[id])
  }

  ghost predicate ValidTransition(tr: Transition) {
    && ValidRaw(tr.configs.toolParameters) && ValidRaw(tr.configs.llmConfig) && ValidRaw(tr.configs.hitlConfig) && ValidRaw(tr.configs.validateConfig)
    && ValidRaw(tr.configs.retry)
    && (tr.subNet.Some? ==> ValidTopology(tr.subNet.value))
  }

  lemma {:induction false} PlainSlotIsValid(tr: Transition, part: Part)
    requires ValidTransition(tr) && PlainSlot(tr, part).Some?
    ensures Valid(PlainSlot(tr, part).value)
  {
    hide Sort, CanonicalValue, ValidValue;
    var raw := match part
      case ToolParameters => tr.configs.toolParameters case LlmConfig => tr.configs.llmConfig case HitlConfig => tr.configs.hitlConfig
      case ValidateConfig => tr.configs.validateConfig case Retry => tr.configs.retry case _ => Absent;
    if raw.Present? { CanonicalIsValid(raw.value); }
  }

  lemma {:induction false} EmittedIsValid(tr: Transition, parts: seq<Part>)
    requires ValidTransition(tr)
    ensures forall i :: 0 <= i < |Emit(tr, parts)| ==> Valid(Emit(tr, parts)[i].value)
    decreases tr, 1, |parts|
  {
    hide Name, PlainSlot, Valid, CanonicalTopology, ValidTopology;
    if parts != [] {
      EmittedIsValid(tr, parts[1..]);
      if parts[0] == SubNet {
        if tr.subNet.Some? { TopologyIsValid(tr.subNet.value); }
      } else if PlainSlot(tr, parts[0]).Some? {
        PlainSlotIsValid(tr, parts[0]);
      }
    }
  }

  lemma {:induction false} TransitionIsValid(tr: Transition)
    requires ValidTransition(tr)
    ensures Valid(CanonicalTransition(tr))
    decreases tr, 2, 0
  {
    hide Emit, Parts, ValidTransition;
    EmittedIsValid(tr, Parts());
  }

  lemma {:induction false} FieldsAreValid(t: Topology, keys: seq<string>)
    requires ValidTopology(t) && forall k :: k in keys ==> k in t.transitions
    ensures forall i :: 0 <= i < |TransitionFields(t, keys)| ==> Valid(TransitionFields(t, keys)[i].value)
    decreases t, 0, |keys|
  {
    hide ValidTransition, CanonicalTransition, Valid;
    if keys != [] {
      var n := |keys| - 1;
      FieldsAreValid(t, keys[..n]);
      TransitionIsValid(t.transitions[keys[n]]);
    }
  }

  lemma {:induction false} PlacesAreValid(t: Topology, keys: seq<string>)
    requires forall k :: k in keys ==> k in t.places
    ensures forall i :: 0 <= i < |PlaceFields(t, keys)| ==> Valid(PlaceFields(t, keys)[i].value)
    decreases |keys|
  {
    if keys != [] { PlacesAreValid(t, keys[..|keys|-1]); }
  }

  lemma {:induction false} TopologyIsValid(t: Topology)
    requires ValidTopology(t)
    ensures Valid(CanonicalTopology(t))
    decreases t, 1, 0
  {
    hide PlaceFields, TransitionFields, ValidTopology, IntText, SortedKeys;
    var ps, ts := SortedKeys(t.places.Keys), SortedKeys(t.transitions.Keys);
    EnumerationMembers(ps, t.places.Keys);
    EnumerationMembers(ts, t.transitions.Keys);
    PlacesAreValid(t, ps);
    FieldsAreValid(t, ts);
    IntBack(t.depth);
  }

  // ---- Equal up to what is dropped: the same canonical form ----

  lemma {:induction false} SlotForgets(tr: Transition, part: Part)
    ensures PlainSlot(NormalTransition(tr), part) == PlainSlot(tr, part)
  {
    hide Sort, CanonicalValue, Normal;
    SortCanonical(Sort(tr.llmTools), tr.llmTools);
    SortedMultiset(tr.llmTools);
  }

  lemma {:induction false} SortedMultiset(s: seq<string>)
    ensures multiset(Sort(s)) == multiset(s)
  {
  }

  lemma {:induction false} EmitForgets(tr: Transition, parts: seq<Part>)
    ensures Emit(NormalTransition(tr), parts) == Emit(tr, parts)
    decreases tr, 1, |parts|
  {
    hide Name, PlainSlot, CanonicalTopology, Normal, Sort;
    if parts != [] {
      EmitForgets(tr, parts[1..]);
      if parts[0] != SubNet {
        SlotForgets(tr, parts[0]);
      } else if tr.subNet.Some? {
        CanonicalForgets(tr.subNet.value);
      }
    }
  }

  lemma {:induction false} FieldsForget(t: Topology, keys: seq<string>)
    requires forall k :: k in keys ==> k in t.transitions
    ensures forall k :: k in keys ==> k in Normal(t).transitions
    ensures TransitionFields(Normal(t), keys) == TransitionFields(t, keys)
    decreases t, 0, |keys|
  {
    hide NormalTransition, Emit, Parts;
    if keys != [] {
      var n := |keys| - 1;
      FieldsForget(t, keys[..n]);
      EmitForgets(t.transitions[keys[n]], Parts());
    }
  }

  lemma {:induction false} PlacesForget(t: Topology, keys: seq<string>)
    requires forall k :: k in keys ==> k in t.places
    ensures PlaceFields(Normal(t), keys) == PlaceFields(t, keys)
    decreases |keys|
  {
    if keys != [] { PlacesForget(t, keys[..|keys|-1]); }
  }

  lemma {:induction false} CanonicalForgets(t: Topology)
    ensures CanonicalTopology(Normal(t)) == CanonicalTopology(t)
    decreases t, 1, 0
  {
    hide PlaceFields, TransitionFields, NormalTransition, IntText, SortedKeys;
    var ps, ts := SortedKeys(t.places.Keys), SortedKeys(t.transitions.Keys);
    EnumerationMembers(ps, t.places.Keys);
    EnumerationMembers(ts, t.transitions.Keys);
    assert Normal(t).transitions.Keys == t.transitions.Keys;
    PlacesForget(t, ps);
    FieldsForget(t, ts);
  }

  /** `CanonicaliseTopology`: the bytes that are hashed. */
  ghost function CanonicalText(t: Topology): string {
    Print(CanonicalTopology(t))
  }

  /** Two topologies have the same canonical bytes exactly when they are equal up to the
      order of tool lists and raw parts that are not JSON. */
  lemma {:induction false} CanonicalTextDecides(a: Topology, b: Topology)
    requires ValidTopology(a) && ValidTopology(b)
    ensures CanonicalText(a) == CanonicalText(b) <==> Normal(a) == Normal(b)
  {
    hide CanonicalTopology, ReadTopology, Normal, Print, ValidTopology;
    if CanonicalText(a) == CanonicalText(b) {
      TopologyIsValid(a);
      TopologyIsValid(b);
      PrintInjective(CanonicalTopology(a), CanonicalTopology(b));
      TopologyBack(a);
      TopologyBack(b);
    }
    if Normal(a) == Normal(b) {
      CanonicalForgets(a);
      CanonicalForgets(b);
    }
  }

  /** Parsing the canonical bytes recovers the topology. */
  lemma {:induction false} CanonicalTextParses(t: Topology)
    requires ValidTopology(t)
    ensures var r := Read(CanonicalText(t));
            r.Some? && r.value.1 == "" && ReadTopology(r.value.0) == Normal(t)
  {
    hide CanonicalTopology, ReadTopology, Normal, Print, Read, ValidTopology;
    TopologyIsValid(t);
    CanonicalIsObject(t);
    ReadBack(CanonicalTopology(t), "");
    assert CanonicalText(t) + "" == CanonicalText(t);
    TopologyBack(t);
  }

  lemma {:induction false} CanonicalIsObject(t: Topology)
    ensures CanonicalTopology(t).Obj?
  {
  }

  // ---- The canonicaliser: one buffer, maps walked in any order ----

  lemma {:induction false} EmitAppend(tr: Transition, parts: seq<Part>, part: Part)
    ensures Emit(tr, parts + [part])
            == if Slot(tr, part).Some? then Emit(tr, parts) + [Field(Name(part), Slot(tr, part).value)] else Emit(tr, parts)
    decreases |parts|
  {
    hide Slot, Name;
    if parts == [] {
      assert parts + [part] == [part] && [part][1..] == [];
    } else {
      assert (parts + [part])[1..] == parts[1..] + [part];
      EmitAppend(tr, parts[1..], part);
    }
  }

  /** The rendered slot of a transition under a name, if it has one. */
  method SlotText(tr: Transition, part: Part) returns (text: Option<string>)
    ensures text == if Slot(tr, part).Some? then Some(Print(Slot(tr, part).value)) else None
    decreases tr, 1, 0
  {
    hide Print, CanonicalValue, CanonicalTopology, Sort;
    match part {
      case Id => text := Some(Print(Str(tr.id)));
      case Kind => text := Some(Print(Str(tr.kind)));
      case InputPlaces => text := Rendered(ListSlot(tr.inputPlaces));
      case OutputPlaces => text := Rendered(ListSlot(tr.outputPlaces));
      case ErrorPlace => text := Rendered(TextSlot(tr.errorPlace));
      case GuardFunc => text := Rendered(TextSlot(tr.guardFunc));
      case ExecutorFunc => text := Rendered(TextSlot(tr.executorFunc));
      case FactoryFunc => text := Rendered(TextSlot(tr.factoryFunc));
      case SystemPrompt => text := Rendered(TextSlot(tr.systemPrompt));
      case ToolName => text := Rendered(TextSlot(tr.toolName));
      case ObservedCpnId => text := Rendered(TextSlot(tr.observedCpnId));
      case EventFilterFunc => text := Rendered(TextSlot(tr.eventFilterFunc));
      case RetryOnFunc => text := Rendered(TextSlot(tr.retryOnFunc));
      case LlmTools => text := Rendered(ListSlot(Sort(tr.llmTools)));
      case ToolParameters => text := RawText(tr.configs.toolParameters);
      case LlmConfig => text := RawText(tr.configs.llmConfig);
      case HitlConfig => text := RawText(tr.configs.hitlConfig);
      case ValidateConfig => text := RawText(tr.configs.validateConfig);
      case Retry => text := RawText(tr.configs.retry);
      case SubNet =>
        text := None;
        if tr.subNet.Some? {
          var sub := CanonicaliseTopology(tr.subNet.value);
          text := Some(sub);
        }
    }
  }

  method Rendered(o: Option<Ordered>) returns (text: Option<string>)
    ensures text == if o.Some? then Some(Print(o.value)) else None
  {
    text := None;
    if o.Some? {
      var t := MarshalStable(o.value);
      text := Some(t);
    }
  }

  /** `canonicaliseRawJSON`; what is not JSON is left out. */
  method RawText(raw: Raw) returns (text: Option<string>)
    ensures text == if RawSlot(raw).Some? then Some(Print(RawSlot(raw).value)) else None
  {
    text := None;
    if raw.Present? {
      var t := CanonicaliseValue(raw.value);
      text := Some(t);
    }
  }

  method TransitionText(tr: Transition) returns (text: string)
    ensures text == Print(CanonicalTransition(tr))
    decreases tr, 2, 0
  {
    hide PrintFields, Slot, Name, Parts, Quoted, Emit;
    var parts := Parts();
    text := "";
    var first := true;
    EmitNothing(tr);
    for i := 0 to |parts|
      invariant text == PrintFields(Emit(tr, parts[..i]))
      invariant first <==> Emit(tr, parts[..i]) == []
    {
      assert parts[..i+1] == parts[..i] + [parts[i]];
      EmitAppend(tr, parts[..i], parts[i]);
      var slot := SlotText(tr, parts[i]);
      if slot.Some? {
        PrintFieldsAppend(Emit(tr, parts[..i]), Field(Name(parts[i]), Slot(tr, parts[i]).value));
        if !first {
          text := text + ",";
        }
        text := text + Quoted(Name(parts[i])) + ":" + slot.value;
        first := false;
      }
    }
    assert parts[..|parts|] == parts;
    text := "{" + text + "}";
  }

  lemma {:induction false} EmitNothing(tr: Transition)
    ensures PrintFields(Emit(tr, [])) == "" && Emit(tr, []) == []
  {
  }

  lemma {:induction false} TransitionPrinted(t: Topology, keys: seq<string>, i: nat)
    requires i < |keys| && forall k :: k in keys ==> k in t.transitions
    ensures keys[i] in t.transitions && (forall k :: k in keys[..i] ==> k in keys) && forall k :: k in keys[..i+1] ==> k in keys
    ensures PrintFields(TransitionFields(t, keys[..i+1]))
            == PrintFields(TransitionFields(t, keys[..i])) + (if i == 0 then "" else ",") + Quoted(keys[i]) + ":"
               + Print(CanonicalTransition(t.transitions[keys[i]]))
  {
    hide Print, PrintFields, Quoted, CanonicalTransition;
    assert keys[..i+1][..i] == keys[..i] && keys[..i+1][i] == keys[i];
    PrintFieldsAppend(TransitionFields(t, keys[..i]), Field(keys[i], CanonicalTransition(t.transitions[keys[i]])));
  }

  lemma {:induction false} PlacePrinted(t: Topology, keys: seq<string>, i: nat)
    requires i < |keys| && forall k :: k in keys ==> k in t.places
    ensures keys[i] in t.places && (forall k :: k in keys[..i] ==> k in keys) && forall k :: k in keys[..i+1] ==> k in keys
    ensures PrintFields(PlaceFields(t, keys[..i+1]))
            == PrintFields(PlaceFields(t, keys[..i])) + (if i == 0 then "" else ",") + Quoted(keys[i]) + ":"
               + Print(CanonicalPlace(t.places[keys[i]]))
  {
    hide Print, PrintFields, Quoted, CanonicalPlace;
    assert keys[..i+1][..i] == keys[..i] && keys[..i+1][i] == keys[i];
    PrintFieldsAppend(PlaceFields(t, keys[..i]), Field(keys[i], CanonicalPlace(t.places[keys[i]])));
  }

  method PlacesText(t: Topology) returns (text: string)
    ensures forall k :: k in SortedKeys(t.places.Keys) ==> k in t.places
    ensures text == Print(Obj(PlaceFields(t, SortedKeys(t.places.Keys))))
  {
    hide PrintFields, PlaceFields, CanonicalPlace, Quoted, SortedKeys;
    PlacesStart(t);
    var keys := KeysInOrder(t.places);
    text := "";
    for i := 0 to |keys|
      invariant forall k :: k in keys[..i] ==> k in t.places
      invariant text == PrintFields(PlaceFields(t, keys[..i]))
    {
      PlacePrinted(t, keys, i);
      if i > 0 {
        text := text + ",";
      }
      var child := MarshalStable(CanonicalPlace(t.places[keys[i]]));
      text := text + Quoted(keys[i]) + ":" + child;
    }
    assert keys[..|keys|] == keys;
    text := "{" + text + "}";
  }

  lemma {:induction false} PlacesStart(t: Topology)
    ensures PrintFields(PlaceFields(t, [])) == "" && PrintFields(TransitionFields(t, [])) == ""
  {
  }

  method TransitionsText(t: Topology) returns (text: string)
    ensures forall k :: k in SortedKeys(t.transitions.Keys) ==> k in t.transitions
    ensures text == Print(Obj(TransitionFields(t, SortedKeys(t.transitions.Keys))))
    decreases t, 0, 0
  {
    hide PrintFields, TransitionFields, CanonicalTransition, Quoted, SortedKeys;
    PlacesStart(t);
    var keys := KeysInOrder(t.transitions);
    text := "";
    for i := 0 to |keys|
      invariant forall k :: k in keys[..i] ==> k in t.transitions
      invariant text == PrintFields(TransitionFields(t, keys[..i]))
    {
      TransitionPrinted(t, keys, i);
      if i > 0 {
        text := text + ",";
      }
      var child := TransitionText(t.transitions[keys[i]]);
      text := text + Quoted(keys[i]) + ":" + child;
    }
    assert keys[..|keys|] == keys;
    text := "{" + text + "}";
  }

  /** One more field in the buffer. */
  method AppendField(text: string, key: string, child: string, ghost fields: seq<Field>, ghost value: Ordered)
    returns (longer: string)
    requires text == PrintFields(fields) && child == Print(value)
    ensures longer == PrintFields(fields + [Field(key, value)])
  {
    hide PrintFields, Print, Quoted;
    PrintFieldsAppend(fields, Field(key, value));
    NothingPrinted(fields);
    longer := text + (if text == "" then "" else ",") + Quoted(key) + ":" + child;
  }

  lemma {:induction false} NothingPrinted(fields: seq<Field>)
    ensures PrintFields(fields) == "" <==> fields == []
  {
    hide Print, Escaped;
  }

  /** `CanonicaliseTopology`. */
  method CanonicaliseTopology(t: Topology) returns (text: string)
    ensures text == Print(CanonicalTopology(t))
    decreases t, 1, 0
  {
    hide PlaceFields, TransitionFields, Quoted, SortedKeys, IntText, PrintFields;
    PrintNothing();
    var places := PlacesText(t);
    var transitions := TransitionsText(t);
    ghost var a, b, c, d := Str(t.id), Str(t.role), Num(IntText(t.depth)), Str(t.mode);
    ghost var e := Obj(PlaceFields(t, SortedKeys(t.places.Keys)));
    ghost var f := Obj(TransitionFields(t, SortedKeys(t.transitions.Keys)));
    ghost var none: seq<Field> := [];
    text := AppendField("", "id", Quoted(t.id), none, a);
    ghost var fields := none + [Field("id", a)];
    text := AppendField(text, "role", Quoted(t.role), fields, b);
    fields := fields + [Field("role", b)];
    text := AppendField(text, "depth", IntText(t.depth), fields, c);
    fields := fields + [Field("depth", c)];
    text := AppendField(text, "mode", Quoted(t.mode), fields, d);
    fields := fields + [Field("mode", d)];
    text := AppendField(text, "places", places, fields, e);
    fields := fields + [Field("places", e)];
    text := AppendField(text, "transitions", transitions, fields, f);
    fields := fields + [Field("transitions", f)];
    assert fields == [Field("id", a), Field("role", b), Field("depth", c), Field("mode", d), Field("places", e),
                      Field("transitions", f)];
    text := "{" + text + "}";
  }

  // ---- The store of authored flows ----

  datatype FlowRecord = FlowRecord(flowId: string, topologyJson: string, summary: string, rejected: bool, reason: string)

  datatype FlowError = EmptyTopology | FlowNotFound

  /** The hash never maps two texts to one ID. */
  ghost predicate Injective(hash: string -> string) {
    forall a, b :: hash(a) == hash(b) ==> a == b
  }

  class FlowRepository {
    const hash: string -> string
    var flows: map<string, FlowRecord>
    var order: seq<string>

    /** Every record is filed under the hash of its own text, and listed once. */
    ghost predicate Valid()
      reads this
    {
      && (forall id :: id in flows ==> flows[id].flowId == id == hash(flows[id].topologyJson))
      && (forall id :: id in order <==> id in flows)
      && NoRepeats(order)
    }

    constructor (hash: string -> string)
      ensures Valid() && this.hash == hash && flows == map[]
    {
      this.hash, flows, order := hash, map[], [];
    }

    /** `SaveAuthored`: the ID depends on the text alone; saving it again changes nothing. */
    method SaveAuthored(json: string, summary: string) returns (r: Result<string, FlowError>, created: bool)
      requires Valid()
      modifies this
      ensures Valid()
      ensures r == if json == "" then Err(EmptyTopology) else Ok(hash(json))
      ensures created <==> json != "" && hash(json) !in old(flows)
      ensures !created ==> flows == old(flows) && order == old(order)
      ensures created ==>
        && flows == old(flows)[hash(json) := FlowRecord(hash(json), json, summary, false, "")]
        && order == old(order) + [hash(json)]
    {
      if json == "" {
        return Err(EmptyTopology), false;
      }
      var flowId := hash(json);
      if flowId in flows {
        return Ok(flowId), false;
      }
      flows := flows[flowId := FlowRecord(flowId, json, summary, false, "")];
      order := order + [flowId];
      return Ok(flowId), true;
    }

    /** `GetByID`: what was saved under the ID of a text is that text. */
    method GetByID(flowId: string) returns (r: Result<FlowRecord, FlowError>)
      requires Valid()
      ensures r == if flowId in flows then Ok(flows[flowId]) else Err(FlowNotFound)
      ensures Injective(hash) ==> forall json :: r.Ok? && flowId == hash(json) ==> r.value.topologyJson == json
    {
      if flowId !in flows {
        return Err(FlowNotFound);
      }
      return Ok(flows[flowId]);
    }

    method Reject(flowId: string, reason: string) returns (err: Option<FlowError>)
      requires Valid()
      modifies this
      ensures Valid() && order == old(order)
      ensures err == if flowId in old(flows) then None else Some(FlowNotFound)
      ensures flows == if err.Some? then old(flows)
                       else old(flows)[flowId := old(flows)[flowId].(rejected := true, reason := reason)]
    {
      if flowId !in flows {
        return Some(FlowNotFound);
      }
      flows := flows[flowId := flows[flowId].(rejected := true, reason := reason)];
      return None;
    }
  }

  /** Under an injective hash two topologies get one flow ID exactly when they are equal up
      to the order of their tools. */
  lemma {:induction false} SameFlowIff(hash: string -> string, a: Topology, b: Topology)
    requires Injective(hash) && ValidTopology(a) && ValidTopology(b)
    ensures hash(CanonicalText(a)) == hash(CanonicalText(b)) <==> Normal(a) == Normal(b)
  {
    hide CanonicalText, Normal, ValidTopology;
    CanonicalTextDecides(a, b);
  }
}
