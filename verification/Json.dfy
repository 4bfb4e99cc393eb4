/** Compact JSON with the string escapes of Go's encoder (RFC 8259, section 7), a reader
    for it, and the proof that reading inverts printing.  Strings are sequences of Unicode
    scalar values; numbers are kept as normalised text. */
module Json {
  import opened Wrappers

  datatype Field = Field(key: string, value: Ordered)

  /** A JSON tree whose objects list their fields in print order. */
  datatype Ordered =
    | Null
    | Bool(b: bool)
    | Num(text: string)
    | Str(s: string)
    | Arr(items: seq<Ordered>)
    | Obj(fields: seq<Field>)

  // ---- Strings ----

  function HexDigit(n: int): char
    requires 0 <= n < 16
  {
    if n < 10 then '0' + n as char else 'a' + (n - 10) as char
  }

  function HexValue(c: char): Option<int> {
    if '0' <= c <= '9' then Some((c - '0') as int)
    else if 'a' <= c <= 'f' then Some((c - 'a') as int + 10)
    else None
  }

  function Unicode4(n: int): (u: string)
    requires 0 <= n < 0x10000
    ensures |u| == 4
  {
    [HexDigit(n / 16 / 16 / 16), HexDigit(n / 16 / 16 % 16), HexDigit(n / 16 % 16), HexDigit(n % 16)]
  }

  predicate NeedsUnicodeEscape(c: char) {
    c < ' ' || c == '<' || c == '>' || c == '&' || c == '\U{2028}' || c == '\U{2029}'
  }

  function Escape(c: char): (e: string)
    ensures e != []
    ensures e[0] != '"'
    ensures e[0] == '\\' <==> |e| > 1
    ensures |e| == 1 ==> e == [c]
  {
    if c == '"' then "\\\""
    else if c == '\\' then "\\\\"
    else if c == '\n' then "\\n"
    else if c == '\r' then "\\r"
    else if c == '\t' then "\\t"
    else if c == '\U{0008}' then "\\b"
    else if c == '\U{000C}' then "\\f"
    else if NeedsUnicodeEscape(c) then "\\u" + Unicode4(c as int)
    else [c]
  }

  function Escaped(s: string): string {
    if s == [] then "" else Escape(s[0]) + Escaped(s[1..])
  }

  function Quoted(s: string): string {
    "\"" + Escaped(s) + "\""
  }

  /** The number of the four hex digits at the front. */
  function ReadUnicode4(s: string): Option<int>
    requires |s| >= 4
  {
    var a, b, c, d := HexValue(s[0]), HexValue(s[1]), HexValue(s[2]), HexValue(s[3]);
    if a.None? || b.None? || c.None? || d.None? then None
    else Some(a.value * 4096 + b.value * 256 + c.value * 16 + d.value)
  }

  predicate IsScalar(n: int) {
    0 <= n < 0xD800 || 0xE000 <= n < 0x11_0000
  }

  /** One character after its backslash, and what follows it. */
  function ReadEscape(s: string): (r: Option<(char, string)>)
    ensures r.Some? ==> |r.value.1| < |s|
  {
    if s == [] then None
    else if s[0] == '"' then Some(('"', s[1..]))
    else if s[0] == '\\' then Some(('\\', s[1..]))
    else if s[0] == 'n' then Some(('\n', s[1..]))
    else if s[0] == 'r' then Some(('\r', s[1..]))
    else if s[0] == 't' then Some(('\t', s[1..]))
    else if s[0] == 'b' then Some(('\U{0008}', s[1..]))
    else if s[0] == 'f' then Some(('\U{000C}', s[1..]))
    else if s[0] == 'u' && |s| >= 5 then
      var n := ReadUnicode4(s[1..]);
      if n.Some? && IsScalar(n.value) then Some((n.value as char, s[5..])) else None
    else None
  }

  /** The characters up to the closing quote, and what follows it. */
  function ReadString(s: string): (r: Option<(string, string)>)
    ensures r.Some? ==> |r.value.1| < |s|
    decreases |s|
  {
    if s == [] then None
    else if s[0] == '"' then Some(("", s[1..]))
    else if s[0] == '\\' then
      match ReadEscape(s[1..])
      case None => None
      case Some((c, rest)) =>
        match ReadString(rest)
        case None => None
        case Some((text, after)) => Some(([c] + text, after))
    else
      match ReadString(s[1..])
      case None => None
      case Some((text, after)) => Some(([s[0]] + text, after))
  }

  lemma {:induction false} HexBack(n: int)
    requires 0 <= n < 16
    ensures HexValue(HexDigit(n)) == Some(n)
  {
  }

  lemma {:induction false} HexSum(n: int)
    requires 0 <= n < 0x10000
    ensures n == (n / 16 / 16 / 16) * 4096 + (n / 16 / 16 % 16) * 256 + (n / 16 % 16) * 16 + n % 16
  {
    var a := n / 16;
    var b := a / 16;
    assert n == 16 * a + n % 16;
    assert a == 16 * b + a % 16;
    assert b == 16 * (b / 16) + b % 16;
  }

  lemma {:induction false} Unicode4Back(n: int, rest: string)
    requires 0 <= n < 0x10000
    ensures ReadUnicode4(Unicode4(n) + rest) == Some(n)
  {
    hide HexDigit, HexValue;
    var a, b, c, d := n / 16 / 16 / 16, n / 16 / 16 % 16, n / 16 % 16, n % 16;
    HexBack(a);
    HexBack(b);
    HexBack(c);
    HexBack(d);
    HexSum(n);
    assert Unicode4(n) + rest == [HexDigit(a), HexDigit(b), HexDigit(c), HexDigit(d)] + rest;
  }

  lemma {:induction false} EscapeBack(c: char, rest: string)
    requires |Escape(c)| > 1
    ensures ReadEscape(Escape(c)[1..] + rest) == Some((c, rest))
  {
    hide Unicode4, ReadUnicode4;
    var e := Escape(c);
    if |e| == 2 {
      assert e[1..] + rest == [e[1]] + rest;
    } else {
      assert e[1..] + rest == ['u'] + (Unicode4(c as int) + rest);
      Unicode4Back(c as int, rest);
      assert (['u'] + (Unicode4(c as int) + rest))[5..] == rest;
    }
  }

  lemma {:induction false} StringBack(s: string, rest: string)
    ensures ReadString(Escaped(s) + "\"" + rest) == Some((s, rest))
    decreases |s|
  {
    hide Escape, ReadEscape;
    if s == [] {
      assert Escaped(s) + "\"" + rest == "\"" + rest;
    } else {
      var e, more := Escape(s[0]), Escaped(s[1..]) + "\"" + rest;
      assert Escaped(s) + "\"" + rest == e + more;
      StringBack(s[1..], rest);
      assert s == [s[0]] + s[1..];
      if |e| > 1 {
        assert (e + more)[1..] == e[1..] + more;
        EscapeBack(s[0], more);
      } else {
        assert (e + more)[1..] == more;
      }
    }
  }

  // ---- Values ----

  predicate NumChar(c: char) {
    '0' <= c <= '9' || c == '-' || c == '+' || c == '.' || c == 'e' || c == 'E'
  }

  predicate IsNumber(text: string) {
    text != [] && forall i :: 0 <= i < |text| ==> NumChar(text[i])
  }

  ghost predicate Valid(v: Ordered) {
    match v
    case Num(text) => IsNumber(text)
    case Arr(items) => forall i :: 0 <= i < |items| ==> Valid(items[i])
    case Obj(fields) => forall i :: 0 <= i < |fields| ==> Valid(fields[i].value)
    case _ => true
  }

  function Print(v: Ordered): string {
    match v
    case Null => "null"
    case Bool(b) => if b then "true" else "false"
    case Num(text) => text
    case Str(s) => Quoted(s)
    case Arr(items) => "[" + PrintItems(items) + "]"
    case Obj(fields) => "{" + PrintFields(fields) + "}"
  }

  function PrintItems(items: seq<Ordered>): string {
    if items == [] then ""
    else if |items| == 1 then Print(items[0])
    else Print(items[0]) + "," + PrintItems(items[1..])
  }

  function PrintFields(fields: seq<Field>): string {
    if fields == [] then ""
    else if |fields| == 1 then Quoted(fields[0].key) + ":" + Print(fields[0].value)
    else Quoted(fields[0].key) + ":" + Print(fields[0].value) + "," + PrintFields(fields[1..])
  }

  // ---- The reader ----

  function NumPrefix(s: string): (n: nat)
    ensures n <= |s|
    ensures forall i :: 0 <= i < n ==> NumChar(s[i])
    ensures n < |s| ==> !NumChar(s[n])
  {
    if s == [] || !NumChar(s[0]) then 0 else 1 + NumPrefix(s[1..])
  }

  function Read(s: string): (r: Option<(Ordered, string)>)
    ensures r.Some? ==> |r.value.1| < |s|
    decreases |s|, 1
  {
    if s == [] then None
    else if "null" <= s then Some((Null, s[4..]))
    else if "true" <= s then Some((Bool(true), s[4..]))
    else if "false" <= s then Some((Bool(false), s[5..]))
    else if s[0] == '"' then
      match ReadString(s[1..])
      case None => None
      case Some((text, rest)) => Some((Str(text), rest))
    else if s[0] == '[' then
      if |s| > 1 && s[1] == ']' then Some((Arr([]), s[2..]))
      else
        match ReadItems(s[1..])
        case None => None
        case Some((items, rest)) => Some((Arr(items), rest))
    else if s[0] == '{' then
      if |s| > 1 && s[1] == '}' then Some((Obj([]), s[2..]))
      else
        match ReadFields(s[1..])
        case None => None
        case Some((fields, rest)) => Some((Obj(fields), rest))
    else
      var n := NumPrefix(s);
      if n == 0 then None else Some((Num(s[..n]), s[n..]))
  }

  /** One or more items, and the closing bracket. */
  function ReadItems(s: string): (r: Option<(seq<Ordered>, string)>)
    ensures r.Some? ==> |r.value.1| < |s|
    decreases |s|, 2
  {
    match Read(s)
    case None => None
    case Some((v, rest)) =>
      if rest == [] then None
      else if rest[0] == ']' then Some(([v], rest[1..]))
      else if rest[0] == ',' then
        match ReadItems(rest[1..])
        case None => None
        case Some((items, after)) => Some(([v] + items, after))
      else None
  }

  function ReadFields(s: string): (r: Option<(seq<Field>, string)>)
    ensures r.Some? ==> |r.value.1| < |s|
    decreases |s|, 2
  {
    if s == [] || s[0] != '"' then None
    else
      match ReadString(s[1..])
      case None => None
      case Some((key, colon)) =>
        if colon == [] || colon[0] != ':' then None
        else
          match Read(colon[1..])
          case None => None
          case Some((v, rest)) =>
            if rest == [] then None
            else if rest[0] == '}' then Some(([Field(key, v)], rest[1..]))
            else if rest[0] == ',' then
              match ReadFields(rest[1..])
              case None => None
              case Some((fields, after)) => Some(([Field(key, v)] + fields, after))
            else None
  }

  // ---- Reading inverts printing ----

  predicate Delimited(rest: string) {
    rest == [] || !NumChar(rest[0])
  }

  lemma {:induction false} NumberBack(text: string, rest: string)
    requires IsNumber(text) && Delimited(rest)
    ensures NumPrefix(text + rest) == |text|
  {
    assert forall i :: 0 <= i < |text| ==> (text + rest)[i] == text[i];
    if rest != [] { assert (text + rest)[|text|] == rest[0]; }
  }

  lemma {:induction false} PrintStarts(v: Ordered)
    requires Valid(v)
    ensures var p := Print(v);
            && p != [] && p[0] != ']' && p[0] != '}'
            && (v.Num? ==> NumChar(p[0]))
  {
    hide Escaped, PrintItems, PrintFields;
  }

  /** Reading a printed value gives it back, and leaves what followed it. */
  lemma {:induction false} ReadBack(v: Ordered, rest: string)
    requires Valid(v) && (v.Num? ==> Delimited(rest))
    ensures Read(Print(v) + rest) == Some((v, rest))
    decreases v, 1
  {
    hide ReadItems, ReadFields, PrintItems, PrintFields, ReadString, Escaped;
    var s := Print(v) + rest;
    match v {
      case Null => assert s[4..] == rest;
      case Bool(b) => assert s[if b then 4 else 5..] == rest;
      case Num(text) =>
        PrintStarts(v);
        NumberBack(text, rest);
        NotKeyword(s);
      case Str(text) =>
        assert s[1..] == Escaped(text) + "\"" + rest;
        StringBack(text, rest);
      case Arr(items) =>
        if items == [] {
          assert PrintItems(items) == "" by { PrintNothing(); }
          assert s == "[]" + rest && s[2..] == rest;
        } else {
          ItemsStart(items);
          assert s[1..] == PrintItems(items) + "]" + rest;
          ItemsBack(items, rest);
        }
      case Obj(fields) =>
        if fields == [] {
          assert PrintFields(fields) == "" by { PrintNothing(); }
          assert s == "{}" + rest && s[2..] == rest;
        } else {
          FieldsStart(fields);
          assert s[1..] == PrintFields(fields) + "}" + rest;
          FieldsBack(fields, rest);
        }
    }
  }

  lemma {:induction false} NotKeyword(s: string)
    requires s != [] && NumChar(s[0])
    ensures !("null" <= s) && !("true" <= s) && !("false" <= s)
  {
  }

  lemma {:induction false} PrintNothing()
    ensures PrintItems([]) == "" && PrintFields([]) == ""
  {
  }

  lemma {:induction false} ItemsStart(items: seq<Ordered>)
    requires items != [] && Valid(items[0])
    ensures PrintItems(items) != [] && PrintItems(items)[0] != ']'
  {
    hide Print;
    PrintStarts(items[0]);
  }

  lemma {:induction false} FieldsStart(fields: seq<Field>)
    requires fields != []
    ensures PrintFields(fields) != [] && PrintFields(fields)[0] == '"'
  {
    hide Print, Escaped;
  }

  lemma {:induction false} ItemsBack(items: seq<Ordered>, rest: string)
    requires items != [] && forall i :: 0 <= i < |items| ==> Valid(items[i])
    ensures ReadItems(PrintItems(items) + "]" + rest) == Some((items, rest))
    decreases items, 0
  {
    hide Print, Read, Valid;
    var s := PrintItems(items) + "]" + rest;
    if |items| == 1 {
      assert s == Print(items[0]) + ("]" + rest);
      ReadBack(items[0], "]" + rest);
      assert ("]" + rest)[1..] == rest;
      assert items == [items[0]];
    } else {
      var more := PrintItems(items[1..]) + "]" + rest;
      assert s == Print(items[0]) + ("," + more);
      ReadBack(items[0], "," + more);
      assert ("," + more)[1..] == more;
      ItemsBack(items[1..], rest);
      assert items == [items[0]] + items[1..];
    }
  }

  lemma {:induction false} FieldBack(f: Field, rest: string)
    requires Valid(f.value) && Delimited(rest)
    ensures var s := Quoted(f.key) + ":" + Print(f.value) + rest;
            && s != [] && s[0] == '"'
            && ReadString(s[1..]) == Some((f.key, ":" + Print(f.value) + rest))
            && (":" + Print(f.value) + rest)[1..] == Print(f.value) + rest
            && Read(Print(f.value) + rest) == Some((f.value, rest))
    decreases f, 2
  {
    hide Print, Read, Escaped, ReadString;
    var s := Quoted(f.key) + ":" + Print(f.value) + rest;
    assert s[1..] == Escaped(f.key) + "\"" + (":" + Print(f.value) + rest);
    StringBack(f.key, ":" + Print(f.value) + rest);
    ReadBack(f.value, rest);
  }

  lemma {:induction false} FieldsBack(fields: seq<Field>, rest: string)
    requires fields != [] && forall i :: 0 <= i < |fields| ==> Valid(fields[i].value)
    ensures ReadFields(PrintFields(fields) + "}" + rest) == Some((fields, rest))
    decreases fields, 0
  {
    hide Print, Read, Valid, Quoted, ReadString;
    var s := PrintFields(fields) + "}" + rest;
    var head := Quoted(fields[0].key) + ":" + Print(fields[0].value);
    if |fields| == 1 {
      assert s == head + ("}" + rest);
      FieldBack(fields[0], "}" + rest);
      assert ("}" + rest)[1..] == rest;
      assert fields == [fields[0]];
    } else {
      var more := PrintFields(fields[1..]) + "}" + rest;
      assert s == head + ("," + more);
      FieldBack(fields[0], "," + more);
      assert ("," + more)[1..] == more;
      FieldsBack(fields[1..], rest);
      assert fields == [fields[0]] + fields[1..];
    }
  }

  /** Two values that print the same are the same. */
  lemma {:induction false} PrintInjective(a: Ordered, b: Ordered)
    requires Valid(a) && Valid(b) && Print(a) == Print(b)
    ensures a == b
  {
    hide Print, Read, Valid;
    ReadBack(a, "");
    ReadBack(b, "");
    assert Print(a) + "" == Print(a) && Print(b) + "" == Print(b);
  }
}
