/** The canonical form of a topology (canonical.go): map keys sorted at every level, tool
    lists sorted, empty fields left out.  It does not depend on the order in which any
    map is walked, and reading it back gives the topology up to the order of the tools. */
module Canonical {
  import opened Wrappers
  import opened Order
  import opened Json

  // ---- Arbitrary JSON: objects are unordered ----

  datatype Value =
    | NullV
    | BoolV(b: bool)
    | NumV(text: string)
    | StrV(s: string)
    | ArrV(items: seq<Value>)
    | ObjV(members: map<string, Value>)

  ghost predicate ValidValue(v: Value) {
    match v
    case NumV(text) => IsNumber(text)
    case ArrV(items) => forall i :: 0 <= i < |items| ==> ValidValue(items[i])
    case ObjV(members) => forall k :: k in members ==> ValidValue(members[k])
    case _ => true
  }

  ghost function CanonicalValue(v: Value): Ordered
    decreases v, 1, 0
  {
    match v
    case NullV => Null
    case BoolV(b) => Bool(b)
    case NumV(text) => Num(text)
    case StrV(s) => Str(s)
    case ArrV(items) => Arr(CanonicalItems(v, |items|))
    case ObjV(members) =>
      EnumerationMembers(SortedKeys(members.Keys), members.Keys);
      Obj(CanonicalMembers(v, SortedKeys(members.Keys)))
  }

  ghost function CanonicalItems(v: Value, n: nat): (items: seq<Ordered>)
    requires v.ArrV? && n <= |v.items|
    ensures |items| == n
    decreases v, 0, n
  {
    if n == 0 then [] else CanonicalItems(v, n - 1) + [CanonicalValue(v.items[n-1])]
  }

  ghost function CanonicalMembers(v: Value, keys: seq<string>): (fields: seq<Field>)
    requires v.ObjV? && forall k :: k in keys ==> k in v.members
    ensures |fields| == |keys| && forall i :: 0 <= i < |keys| ==> fields[i].key == keys[i]
    decreases v, 0, |keys|
  {
    if keys == [] then []
    else
      var n := |keys| - 1;
      CanonicalMembers(v, keys[..n]) + [Field(keys[n], CanonicalValue(v.members[keys[n]]))]
  }

  /** The unordered value of a tree; of equal keys the last counts. */
  function ValueOf(o: Ordered): Value {
    match o
    case Null => NullV
    case Bool(b) => BoolV(b)
    case Num(text) => NumV(text)
    case Str(s) => StrV(s)
    case Arr(items) => ArrV(ValuesOf(items))
    case Obj(fields) => ObjV(MembersOf(fields))
  }

  function ValuesOf(items: seq<Ordered>): seq<Value> {
    if items == [] then []
    else
      assert items[..|items|-1] < items;
      ValuesOf(items[..|items|-1]) + [ValueOf(items[|items|-1])]
  }

  function MembersOf(fields: seq<Field>): map<string, Value> {
    if fields == [] then map[]
    else
      assert fields[..|fields|-1] < fields;
      MembersOf(fields[..|fields|-1])[fields[|fields|-1].key := ValueOf(fields[|fields|-1].value)]
  }

  /** Canonicalising loses nothing. */
  lemma {:induction false} ValueBack(v: Value)
    ensures ValueOf(CanonicalValue(v)) == v
    decreases v, 2, 0
  {
    hide CanonicalItems, CanonicalMembers, ValuesOf, MembersOf, SortedKeys;
    match v
    case ArrV(items) =>
      ItemsBack(v, |items|);
      assert items[..|items|] == items;
    case ObjV(members) => ObjectBack(v);
    case _ =>
  }

  lemma {:induction false} ObjectBack(v: Value)
    requires v.ObjV?
    ensures forall k :: k in SortedKeys(v.members.Keys) ==> k in v.members
    ensures MembersOf(CanonicalMembers(v, SortedKeys(v.members.Keys))) == v.members
    decreases v, 1, 0
  {
    hide CanonicalMembers, MembersOf, SortedKeys;
    var keys := SortedKeys(v.members.Keys);
    EnumerationMembers(keys, v.members.Keys);
    MembersBack(v, keys);
    assert (map k | k in keys :: v.members[k]) == v.members;
  }

  lemma {:induction false} ItemsBack(v: Value, n: nat)
    requires v.ArrV? && n <= |v.items|
    ensures ValuesOf(CanonicalItems(v, n)) == v.items[..n]
    decreases v, 0, n
  {
    if n > 0 {
      ItemsBack(v, n - 1);
      ValueBack(v.items[n-1]);
      var items := CanonicalItems(v, n);
      assert items[..n-1] == CanonicalItems(v, n - 1);
      assert v.items[..n] == v.items[..n-1] + [v.items[n-1]];
    }
  }

  lemma {:induction false} MembersBack(v: Value, keys: seq<string>)
    requires v.ObjV? && forall k :: k in keys ==> k in v.members
    ensures MembersOf(CanonicalMembers(v, keys)) == map k | k in keys :: v.members[k]
    decreases v, 0, |keys|
  {
    if keys != [] {
      var n := |keys| - 1;
      MembersBack(v, keys[..n]);
      ValueBack(v.members[keys[n]]);
      var fields := CanonicalMembers(v, keys);
      assert fields[..n] == CanonicalMembers(v, keys[..n]);
      assert keys == keys[..n] + [keys[n]];
    }
  }

  lemma {:induction false} CanonicalIsValid(v: Value)
    requires ValidValue(v)
    ensures Valid(CanonicalValue(v))
    decreases v, 1, 0
  {
    match v
    case ArrV(items) => ItemsAreValid(v, |items|);
    case ObjV(members) =>
      EnumerationMembers(SortedKeys(members.Keys), members.Keys);
      MembersAreValid(v, SortedKeys(members.Keys));
    case _ =>
  }

  lemma {:induction false} ItemsAreValid(v: Value, n: nat)
    requires v.ArrV? && n <= |v.items| && ValidValue(v)
    ensures forall i :: 0 <= i < n ==> Valid(CanonicalItems(v, n)[i])
    decreases v, 0, n
  {
    if n > 0 {
      ItemsAreValid(v, n - 1);
      CanonicalIsValid(v.items[n-1]);
    }
  }

  lemma {:induction false} MembersAreValid(v: Value, keys: seq<string>)
    requires v.ObjV? && ValidValue(v) && forall k :: k in keys ==> k in v.members
    ensures forall i :: 0 <= i < |keys| ==> Valid(CanonicalMembers(v, keys)[i].value)
    decreases v, 0, |keys|
  {
    if keys != [] {
      var n := |keys| - 1;
      MembersAreValid(v, keys[..n]);
      CanonicalIsValid(v.members[keys[n]]);
    }
  }

  // ---- The printers: loops over a buffer, maps walked in any order ----

  lemma {:induction false} PrintFieldsAppend(fields: seq<Field>, f: Field)
    ensures PrintFields(fields + [f])
            == PrintFields(fields) + (if fields == [] then "" else ",") + Quoted(f.key) + ":" + Print(f.value)
    decreases |fields|
  {
    hide Print, Quoted;
    if fields == [] {
      assert fields + [f] == [f];
    } else {
      var all := fields + [f];
      assert all[1..] == fields[1..] + [f];
      PrintFieldsAppend(fields[1..], f);
      var head := Quoted(fields[0].key) + ":" + Print(fields[0].value);
      var last := Quoted(f.key) + ":" + Print(f.value);
      var more := PrintFields(fields[1..]);
      assert PrintFields(all) == head + "," + PrintFields(all[1..]);
      if |fields| == 1 {
        assert PrintFields(all[1..]) == "" + "" + Quoted(f.key) + ":" + Print(f.value) == last;
        assert head + "," + last == PrintFields(fields) + "," + Quoted(f.key) + ":" + Print(f.value);
      } else {
        assert PrintFields(all[1..]) == more + "," + Quoted(f.key) + ":" + Print(f.value);
        assert head + "," + (more + "," + Quoted(f.key) + ":" + Print(f.value))
            == (head + "," + more) + "," + Quoted(f.key) + ":" + Print(f.value);
      }
    }
  }

  lemma {:induction false} PrintItemsAppend(items: seq<Ordered>, x: Ordered)
    ensures PrintItems(items + [x]) == PrintItems(items) + (if items == [] then "" else ",") + Print(x)
    decreases |items|
  {
    hide Print;
    if items == [] {
      assert items + [x] == [x];
    } else {
      var all := items + [x];
      assert all[1..] == items[1..] + [x];
      PrintItemsAppend(items[1..], x);
      if |items| == 1 {
        assert PrintItems(all[1..]) == "" + "" + Print(x) == Print(x);
      } else {
        var more := PrintItems(items[1..]);
        assert Print(items[0]) + "," + (more + "," + Print(x)) == (Print(items[0]) + "," + more) + "," + Print(x);
      }
    }
  }

  /** The keys of a Go map in the order of `sort.Strings`, however the map was walked. */
  method KeysInOrder<T>(m: map<string, T>) returns (keys: seq<string>)
    ensures keys == SortedKeys(m.Keys)
    ensures forall k :: k in keys <==> k in m
  {
    keys := [];
    var pending := m.Keys;
    while pending != {}
      invariant pending <= m.Keys
      invariant NoRepeats(keys)
      invariant forall k :: k in keys <==> k in m && k !in pending
    {
      var k :| k in pending;
      pending := pending - {k};
      keys := keys + [k];
    }
    MembersEnumerated(keys, m.Keys);
    SortForgetsOrder(keys, m.Keys);
    keys := Sort(keys);
    EnumerationMembers(keys, m.Keys);
  }

  /** One more member in the buffer. */
  lemma {:induction false} MemberPrinted(v: Value, keys: seq<string>, i: nat)
    requires v.ObjV? && i < |keys| && forall k :: k in keys ==> k in v.members
    ensures keys[i] in v.members && (forall k :: k in keys[..i+1] ==> k in keys) && (forall k :: k in keys[..i] ==> k in keys)
    ensures "{" + PrintFields(CanonicalMembers(v, keys[..i+1]))
            == "{" + PrintFields(CanonicalMembers(v, keys[..i])) + (if i > 0 then "," else "")
               + Quoted(keys[i]) + ":" + Print(CanonicalValue(v.members[keys[i]]))
  {
    hide Print, PrintFields, Quoted;
    assert keys[..i+1][..i] == keys[..i] && keys[..i+1][i] == keys[i];
    PrintFieldsAppend(CanonicalMembers(v, keys[..i]), Field(keys[i], CanonicalValue(v.members[keys[i]])));
  }

  lemma {:induction false} ItemPrinted(v: Value, i: nat)
    requires v.ArrV? && i < |v.items|
    ensures "[" + PrintItems(CanonicalItems(v, i + 1))
            == "[" + PrintItems(CanonicalItems(v, i)) + (if i > 0 then "," else "") + Print(CanonicalValue(v.items[i]))
  {
    hide Print, PrintItems;
    PrintItemsAppend(CanonicalItems(v, i), CanonicalValue(v.items[i]));
  }

  /** `canonicaliseValue`. */
  method CanonicaliseValue(v: Value) returns (text: string)
    ensures text == Print(CanonicalValue(v))
    decreases v, 1
  {
    match v {
      case ObjV(_) => text := CanonicaliseObject(v);
      case ArrV(_) => text := CanonicaliseArray(v);
      case NullV => text := Print(Null);
      case BoolV(b) => text := Print(Bool(b));
      case NumV(t) => text := Print(Num(t));
      case StrV(s) => text := Print(Str(s));
    }
  }

  method CanonicaliseObject(v: Value) returns (text: string)
    requires v.ObjV?
    ensures text == Print(CanonicalValue(v))
    decreases v, 0
  {
    hide Print, PrintFields, Quoted, SortedKeys, CanonicalValue, CanonicalMembers;
    PrintsObject(v);
    var keys := KeysInOrder(v.members);
    text := "{";
    for i := 0 to |keys|
      invariant text == "{" + PrintFields(CanonicalMembers(v, keys[..i]))
    {
      MemberPrinted(v, keys, i);
      if i > 0 {
        text := text + ",";
      }
      text := text + Quoted(keys[i]) + ":";
      var child := CanonicaliseValue(v.members[keys[i]]);
      text := text + child;
    }
    assert keys[..|keys|] == keys;
    text := text + "}";
  }

  method CanonicaliseArray(v: Value) returns (text: string)
    requires v.ArrV?
    ensures text == Print(CanonicalValue(v))
    decreases v, 0
  {
    hide Print, PrintItems, CanonicalValue, CanonicalItems;
    PrintsArray(v);
    text := "[";
    for i := 0 to |v.items|
      invariant text == "[" + PrintItems(CanonicalItems(v, i))
    {
      ItemPrinted(v, i);
      if i > 0 {
        text := text + ",";
      }
      var child := CanonicaliseValue(v.items[i]);
      text := text + child;
    }
    text := text + "]";
  }

  lemma {:induction false} PrintsObject(v: Value)
    requires v.ObjV?
    ensures forall k :: k in SortedKeys(v.members.Keys) ==> k in v.members
    ensures Print(CanonicalValue(v)) == "{" + PrintFields(CanonicalMembers(v, SortedKeys(v.members.Keys))) + "}"
    ensures PrintFields(CanonicalMembers(v, [])) == ""
  {
    EnumerationMembers(SortedKeys(v.members.Keys), v.members.Keys);
  }

  lemma {:induction false} PrintsArray(v: Value)
    requires v.ArrV?
    ensures Print(CanonicalValue(v)) == "[" + PrintItems(CanonicalItems(v, |v.items|)) + "]"
    ensures PrintItems(CanonicalItems(v, 0)) == ""
  {
  }

  /** `marshalStable`: renders the entries in the order they were listed. */
  method MarshalStable(o: Ordered) returns (text: string)
    ensures text == Print(o)
    decreases o
  {
    hide PrintItems, PrintFields, Quoted;
    PrintNothing();
    match o {
      case Obj(fields) =>
        text := "{";
        for i := 0 to |fields|
          invariant text == "{" + PrintFields(fields[..i])
        {
          assert fields[..i+1] == fields[..i] + [fields[i]];
          PrintFieldsAppend(fields[..i], fields[i]);
          if i > 0 {
            text := text + ",";
          }
          var child := MarshalStable(fields[i].value);
          text := text + Quoted(fields[i].key) + ":" + child;
        }
        assert fields[..|fields|] == fields;
        text := text + "}";
      case Arr(items) =>
        text := "[";
        for i := 0 to |items|
          invariant text == "[" + PrintItems(items[..i])
        {
          assert items[..i+1] == items[..i] + [items[i]];
          PrintItemsAppend(items[..i], items[i]);
          if i > 0 {
            text := text + ",";
          }
          var child := MarshalStable(items[i]);
          text := text + child;
        }
        assert items[..|items|] == items;
        text := text + "]";
      case _ => text := Print(o);
    }
  }
}
