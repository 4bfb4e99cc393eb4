/** Finding a JSON object inside model output.  Four hand-written scanners (report.go,
    fire_synthesize.go, fire_llm.go, topologies.go) track the same three things; each is
    proved against one machine, which is then proved to invert printing. */
module Scanners {
  import opened Wrappers
  import opened Json
  import opened Strings

  // ---- The machine ----

  datatype Lex = Lex(depth: int, inString: bool, escaped: bool)

  const START := Lex(0, false, false)

  function Step(l: Lex, c: char): Lex {
    if l.inString then
      if l.escaped then l.(escaped := false)
      else if c == '\\' then l.(escaped := true)
      else if c == '"' then l.(inString := false)
      else l
    else if c == '"' then l.(inString := true)
    else if c == '{' then l.(depth := l.depth + 1)
    else if c == '}' then l.(depth := l.depth - 1)
    else l
  }

  function Run(l: Lex, s: string): Lex
    decreases |s|
  {
    if s == [] then l else Run(Step(l, s[0]), s[1..])
  }

  predicate Closes(l: Lex, c: char) {
    !l.inString && c == '}' && l.depth == 1
  }

  /** How much text it takes until a brace brings the depth down to zero. */
  function CloseAt(l: Lex, s: string): (n: Option<nat>)
    ensures n.Some? ==> 0 < n.value <= |s|
    decreases |s|
  {
    if s == [] then None
    else if Closes(l, s[0]) then Some(1)
    else
      match CloseAt(Step(l, s[0]), s[1..])
      case None => None
      case Some(n) => Some(n + 1)
  }

  /** The text from the first brace to the one that closes it. */
  function Extract(s: string): (r: Option<string>)
    ensures r.Some? ==> r.value != [] && r.value[0] == '{'
  {
    var i := IndexOf(s, '{');
    if i.None? then None
    else
      match CloseAt(Lex(1, false, false), s[i.value+1..])
      case None => None
      case Some(n) => Some(s[i.value..i.value+1+n])
  }

  // ---- What it finds ----

  /** Braces balance, outside quotes. */
  predicate Balanced(seg: string) {
    seg != [] && Run(START, seg).depth == 0 && !Run(START, seg).inString
  }

  lemma {:induction false} RunAppend(l: Lex, a: string, b: string)
    ensures Run(l, a + b) == Run(Run(l, a), b)
    decreases |a|
  {
    if a == [] {
      assert a + b == b;
    } else {
      assert (a + b)[1..] == a[1..] + b;
      RunAppend(Step(l, a[0]), a[1..], b);
    }
  }

  /** From a positive depth the machine stops at the first point where the depth is zero
      outside a string. */
  lemma {:induction false} ClosesFirst(l: Lex, s: string, k: nat)
    requires l.depth >= 1 && k <= |s|
    ensures var r := Run(l, s[..k]);
            match CloseAt(l, s) {
              case None => r.depth >= 1
              case Some(n) => (k < n ==> r.depth >= 1) && (k == n ==> r.depth == 0 && !r.inString)
            }
    decreases |s|
  {
    if k > 0 {
      assert s[..k][0] == s[0] && s[..k][1..] == s[1..][..k-1];
      if Closes(l, s[0]) {
        if k == 1 { assert s[1..][..0] == []; }
      } else {
        ClosesFirst(Step(l, s[0]), s[1..], k - 1);
      }
    }
  }

  /** From the first brace on, a prefix runs like the text after that brace at depth one. */
  lemma {:induction false} RunFromBrace(from: string, k: nat)
    requires from != [] && from[0] == '{' && 0 < k <= |from|
    ensures Run(START, from[..k]) == Run(Lex(1, false, false), from[1..][..k-1])
  {
    assert from[..k][0] == '{' && from[..k][1..] == from[1..][..k-1];
  }

  /** The result is the shortest balanced segment that starts at the first brace; there
      is no result exactly when no segment from there balances. */
  lemma {:induction false} ExtractIsShortest(s: string, i: nat)
    requires IndexOf(s, '{') == Some(i)
    ensures var from := s[i..];
            match Extract(s)
            case Some(r) => r <= from && Balanced(r) && forall k :: 0 < k < |r| ==> !Balanced(from[..k])
            case None => forall k :: 0 < k <= |from| ==> !Balanced(from[..k])
  {
    hide Run, CloseAt;
    var from := s[i..];
    assert from[1..] == s[i+1..];
    forall k | 0 < k <= |from|
      ensures var r := Run(START, from[..k]);
              match CloseAt(Lex(1, false, false), from[1..]) {
                case None => r.depth >= 1
                case Some(n) => (k < n + 1 ==> r.depth >= 1) && (k == n + 1 ==> r.depth == 0 && !r.inString)
              }
    {
      RunFromBrace(from, k);
      ClosesFirst(Lex(1, false, false), from[1..], k - 1);
    }
    if Extract(s).Some? {
      var n := CloseAt(Lex(1, false, false), from[1..]).value;
      assert s[i..i+1+n] == from[..n+1];
    }
  }

  // ---- Scanning a printed value ----

  function Plus(n: Option<nat>, k: nat): Option<nat> {
    if n.None? then None else Some(n.value + k)
  }

  /** Text that the machine passes through without closing anything. */
  predicate Passes(l: Lex, text: string, rest: string) {
    CloseAt(l, text + rest) == Plus(CloseAt(l, rest), |text|)
  }

  lemma {:induction false} OneStep(l: Lex, c: char, rest: string)
    requires !Closes(l, c)
    ensures CloseAt(l, [c] + rest) == Plus(CloseAt(Step(l, c), rest), 1)
  {
    assert ([c] + rest)[1..] == rest;
  }

  lemma {:induction false} EscapePasses(l: Lex, c: char, rest: string)
    requires l.inString && !l.escaped
    ensures Passes(l, Escape(c), rest)
  {
    hide CloseAt;
    var e := Escape(c);
    if |e| == 1 {
      OneStep(l, c, rest);
    } else {
      assert e + rest == ['\\'] + ([e[1]] + (e[2..] + rest));
      OneStep(l, '\\', [e[1]] + (e[2..] + rest));
      OneStep(l.(escaped := true), e[1], e[2..] + rest);
      if |e| == 2 {
        assert e[2..] + rest == rest;
      } else {
        HexPasses(l, Unicode4(c as int), rest);
        assert e[2..] == Unicode4(c as int);
      }
    }
  }

  lemma {:induction false} HexPasses(l: Lex, u: string, rest: string)
    requires l.inString && !l.escaped && forall i :: 0 <= i < |u| ==> u[i] != '\\' && u[i] != '"'
    ensures Passes(l, u, rest)
    decreases |u|
  {
    if u == [] {
      assert u + rest == rest;
    } else {
      assert u + rest == [u[0]] + (u[1..] + rest);
      OneStep(l, u[0], u[1..] + rest);
      HexPasses(l, u[1..], rest);
    }
  }

  lemma {:induction false} EscapedPasses(l: Lex, s: string, rest: string)
    requires l.inString && !l.escaped
    ensures Passes(l, Escaped(s), rest)
    decreases |s|
  {
    hide Escape, CloseAt;
    if s == [] {
      assert "" + rest == rest;
    } else {
      assert Escaped(s) + rest == Escape(s[0]) + (Escaped(s[1..]) + rest);
      EscapePasses(l, s[0], Escaped(s[1..]) + rest);
      EscapedPasses(l, s[1..], rest);
    }
  }

  lemma {:induction false} QuotedPasses(l: Lex, s: string, rest: string)
    requires !l.inString && !l.escaped
    ensures Passes(l, Quoted(s), rest)
  {
    hide Escaped, CloseAt;
    var inside := l.(inString := true);
    assert Quoted(s) + rest == ['"'] + (Escaped(s) + (['"'] + rest));
    OneStep(l, '"', Escaped(s) + (['"'] + rest));
    EscapedPasses(inside, s, ['"'] + rest);
    OneStep(inside, '"', rest);
  }

  /** Characters that mean nothing to the machine. */
  predicate Plain(text: string) {
    forall i :: 0 <= i < |text| ==> text[i] !in ['"', '{', '}']
  }

  lemma {:induction false} PlainPasses(l: Lex, text: string, rest: string)
    requires !l.inString && Plain(text)
    ensures Passes(l, text, rest)
    decreases |text|
  {
    if text == [] {
      assert text + rest == rest;
    } else {
      assert text + rest == [text[0]] + (text[1..] + rest);
      OneStep(l, text[0], text[1..] + rest);
      PlainPasses(l, text[1..], rest);
    }
  }

  lemma {:induction false} PassesBoth(l: Lex, a: string, b: string, rest: string)
    requires Passes(l, a, b + rest) && Passes(l, b, rest)
    ensures Passes(l, a + b, rest)
  {
    assert a + b + rest == a + (b + rest);
  }

  /** A printed value leaves the machine at the depth where it found it. */
  lemma {:induction false} ValuePasses(l: Lex, v: Ordered, rest: string)
    requires Valid(v) && l.depth >= 1 && !l.inString && !l.escaped
    ensures Passes(l, Print(v), rest)
    decreases v, 1
  {
    hide CloseAt, PrintItems, PrintFields, Quoted, Passes;
    match v {
      case Null => PlainPasses(l, "null", rest);
      case Bool(b) => PlainPasses(l, if b then "true" else "false", rest);
      case Num(text) =>
        NumbersArePlain(text);
        PlainPasses(l, text, rest);
      case Str(s) => QuotedPasses(l, s, rest);
      case Arr(items) =>
        PlainPasses(l, "]", rest);
        ItemsPass(l, items, "]" + rest);
        PassesBoth(l, PrintItems(items), "]", rest);
        PlainPasses(l, "[", PrintItems(items) + "]" + rest);
        PassesBoth(l, "[", PrintItems(items) + "]", rest) by {
          assert PrintItems(items) + "]" + rest == (PrintItems(items) + "]") + rest;
        }
        assert Print(v) == "[" + (PrintItems(items) + "]");
      case Obj(fields) => ObjectPasses(l, fields, rest);
    }
  }

  lemma {:induction false} NumbersArePlain(text: string)
    requires IsNumber(text)
    ensures Plain(text)
  {
    assert forall i :: 0 <= i < |text| ==> NumChar(text[i]);
  }

  lemma {:induction false} ObjectPasses(l: Lex, fields: seq<Field>, rest: string)
    requires (forall i :: 0 <= i < |fields| ==> Valid(fields[i].value)) && l.depth >= 1 && !l.inString && !l.escaped
    ensures Passes(l, "{" + PrintFields(fields) + "}", rest)
    decreases fields, 1
  {
    hide CloseAt, PrintFields;
    var inside := l.(depth := l.depth + 1);
    var text := PrintFields(fields);
    assert "{" + text + "}" + rest == ['{'] + (text + (['}'] + rest));
    OneStep(l, '{', text + (['}'] + rest));
    FieldsPass(inside, fields, ['}'] + rest);
    OneStep(inside, '}', rest);
  }

  lemma {:induction false} ItemsPass(l: Lex, items: seq<Ordered>, rest: string)
    requires (forall i :: 0 <= i < |items| ==> Valid(items[i])) && l.depth >= 1 && !l.inString && !l.escaped
    ensures Passes(l, PrintItems(items), rest)
    decreases items, 0
  {
    hide CloseAt, Print, Passes, Valid;
    if items == [] {
      PlainPasses(l, "", rest);
    } else if |items| == 1 {
      ValuePasses(l, items[0], rest);
    } else {
      var more := PrintItems(items[1..]);
      ItemsPass(l, items[1..], rest);
      PlainPasses(l, ",", more + rest);
      PassesBoth(l, ",", more, rest);
      ValuePasses(l, items[0], ("," + more) + rest);
      PassesBoth(l, Print(items[0]), "," + more, rest);
      assert PrintItems(items) == Print(items[0]) + ("," + more);
    }
  }

  lemma {:induction false} FieldPasses(l: Lex, f: Field, rest: string)
    requires Valid(f.value) && l.depth >= 1 && !l.inString && !l.escaped
    ensures Passes(l, Quoted(f.key) + ":" + Print(f.value), rest)
    decreases f, 2
  {
    hide CloseAt, Print, Passes, Valid, Quoted;
    ValuePasses(l, f.value, rest);
    PlainPasses(l, ":", Print(f.value) + rest);
    PassesBoth(l, ":", Print(f.value), rest);
    QuotedPasses(l, f.key, (":" + Print(f.value)) + rest);
    PassesBoth(l, Quoted(f.key), ":" + Print(f.value), rest);
    assert Quoted(f.key) + ":" + Print(f.value) == Quoted(f.key) + (":" + Print(f.value));
  }

  lemma {:induction false} FieldsPass(l: Lex, fields: seq<Field>, rest: string)
    requires (forall i :: 0 <= i < |fields| ==> Valid(fields[i].value)) && l.depth >= 1 && !l.inString && !l.escaped
    ensures Passes(l, PrintFields(fields), rest)
    decreases fields, 0
  {
    hide CloseAt, Print, Passes, Valid, Quoted;
    if fields == [] {
      PlainPasses(l, "", rest);
    } else {
      var head := Quoted(fields[0].key) + ":" + Print(fields[0].value);
      if |fields| == 1 {
        FieldPasses(l, fields[0], rest);
      } else {
        var more := PrintFields(fields[1..]);
        FieldsPass(l, fields[1..], rest);
        PlainPasses(l, ",", more + rest);
        PassesBoth(l, ",", more, rest);
        FieldPasses(l, fields[0], ("," + more) + rest);
        PassesBoth(l, head, "," + more, rest);
        assert PrintFields(fields) == head + ("," + more);
      }
    }
  }

  /** Extraction inverts printing: whatever stands before, as long as it has no brace, and
      whatever follows. */
  lemma {:induction false} ExtractInvertsPrint(before: string, fields: seq<Field>, after: string)
    requires Valid(Obj(fields)) && '{' !in before
    ensures Extract(before + Print(Obj(fields)) + after) == Some(Print(Obj(fields)))
  {
    hide CloseAt, PrintFields, Valid;
    var text := Print(Obj(fields));
    var s := before + text + after;
    IndexAfter(before, text + after);
    assert s == before + (text + after);
    var inside := Lex(1, false, false);
    var body := PrintFields(fields);
    assert s[|before|+1..] == body + (['}'] + after);
    assert Valid(Obj(fields)) ==> forall i :: 0 <= i < |fields| ==> Valid(fields[i].value) by { ValidFields(fields); }
    FieldsPass(inside, fields, ['}'] + after);
    ClosesAtOnce(after);
    assert s[|before|..|before|+1+|body|+1] == text;
  }

  lemma {:induction false} ValidFields(fields: seq<Field>)
    ensures Valid(Obj(fields)) ==> forall i :: 0 <= i < |fields| ==> Valid(fields[i].value)
  {
  }

  lemma {:induction false} ClosesAtOnce(after: string)
    ensures CloseAt(Lex(1, false, false), ['}'] + after) == Some(1)
  {
  }

  lemma {:induction false} IndexAfter(before: string, rest: string)
    requires '{' !in before && rest != [] && rest[0] == '{'
    ensures IndexOf(before + rest, '{') == Some(|before|)
  {
    assert (before + rest)[..|before|] == before;
    IndexIs(before + rest, '{', |before|);
  }

  // ---- The four scanners ----

  /** `extractJSONObject` of the awakening report. */
  method ExtractReport(raw: string) returns (r: Option<string>)
    ensures r == Extract(raw)
  {
    hide CloseAt, IndexOf;
    var start := -1;
    var depth, inString, escape := 0, false, false;
    for i := 0 to |raw|
      invariant -1 <= start < i || (start == -1 && i == 0)
      invariant start == -1 ==> '{' !in raw[..i] && Lex(depth, inString, escape) == START
      invariant start != -1 ==>
        && IndexOf(raw, '{') == Some(start)
        && Lex(depth, inString, escape).depth >= 1 && (escape ==> inString)
        && CloseAt(Lex(1, false, false), raw[start+1..])
           == Plus(CloseAt(Lex(depth, inString, escape), raw[i..]), i - start - 1)
    {
      ghost var l := Lex(depth, inString, escape);
      assert raw[..i+1] == raw[..i] + [raw[i]];
      assert raw[i..] == [raw[i]] + raw[i+1..];
      if !Closes(l, raw[i]) { OneStep(l, raw[i], raw[i+1..]); }
      Ends(l, raw, i);
      var b := raw[i];
      if start == -1 {
        if b == '{' {
          start, depth := i, 1;
          IndexIs(raw, '{', i);
        }
        continue;
      }
      if escape {
        escape := false;
        continue;
      }
      if b == '\\' && inString {
        escape := true;
        continue;
      }
      if b == '"' {
        inString := !inString;
        continue;
      }
      if inString {
        continue;
      }
      match b
      case '{' => depth := depth + 1;
      case '}' =>
        depth := depth - 1;
        if depth == 0 {
          return Some(raw[start..i+1]);
        }
      case _ =>
    }
    assert raw[..|raw|] == raw;
    Ends(Lex(depth, inString, escape), raw, |raw|);
    return None;
  }

  /** `responseContainsJSONObject`: does any brace bring the depth to zero? */
  method ResponseContainsObject(s: string) returns (found: bool)
    ensures found <==> CloseAt(START, s).Some?
  {
    hide CloseAt;
    var depth, inString, escaped := 0, false, false;
    assert s[0..] == s;
    for i := 0 to |s|
      invariant escaped ==> inString
      invariant CloseAt(START, s) == Plus(CloseAt(Lex(depth, inString, escaped), s[i..]), i)
    {
      ghost var l := Lex(depth, inString, escaped);
      assert s[i..] == [s[i]] + s[i+1..];
      Ends(l, s, i);
      if !Closes(l, s[i]) { OneStep(l, s[i], s[i+1..]); }
      var c := s[i];
      if inString {
        if escaped {
          escaped := false;
          continue;
        }
        if c == '\\' {
          escaped := true;
          continue;
        }
        if c == '"' {
          inString := false;
        }
        continue;
      }
      match c
      case '"' => inString := true;
      case '{' => depth := depth + 1;
      case '}' =>
        depth := depth - 1;
        if depth == 0 {
          return true;
        }
      case _ =>
    }
    Ends(Lex(depth, inString, escaped), s, |s|);
    return false;
  }

  /** What `firstJSONObject` returns: a balanced segment up to the first brace that brings
      the depth to zero, from where the depth was last zero. */
  ghost predicate IsFirstSegment(s: string, r: string) {
    var n := CloseAt(START, s);
    n.Some? && |r| <= n.value && r == s[n.value-|r|..n.value]
    && Run(START, s[..n.value-|r|]) == START && Balanced(r) && r[0] == '{'
    && forall k :: 0 < k < |r| ==> !Balanced(r[..k])
  }

  lemma {:induction false} Begin(s: string)
    ensures s[0..] == s && Run(START, s[..0]) == START
    ensures CloseAt(START, "") == None
    ensures CloseAt(START, s) == Plus(CloseAt(START, s[0..]), 0)
  {
    assert s[0..] == s;
  }

  /** A scan that reaches the end has found nothing; one that closes has found it here. */
  lemma {:induction false} Ends(l: Lex, s: string, i: nat)
    requires i <= |s|
    ensures i == |s| ==> CloseAt(l, s[i..]) == None
    ensures i < |s| && Closes(l, s[i]) ==> CloseAt(l, s[i..]) == Some(1)
  {
  }

  /** At `start` a segment opened that has not closed before i. */
  ghost predicate Opened(s: string, start: int, i: int) {
    && 0 <= start < i <= |s| && s[start] == '{'
    && Run(START, s[..start]) == START
    && forall k :: 0 < k <= i - start ==> Run(START, s[start..][..k]).depth >= 1
  }

  lemma {:induction false} RunOne(l: Lex, s: string, i: nat)
    requires i < |s|
    ensures Run(l, s[..i+1]) == Step(Run(l, s[..i]), s[i])
  {
    assert s[..i+1] == s[..i] + [s[i]];
    RunAppend(l, s[..i], [s[i]]);
    assert [s[i]][1..] == [];
  }

  lemma {:induction false} RunSince(s: string, start: nat, i: nat)
    requires start <= i <= |s| && Run(START, s[..start]) == START
    ensures Run(START, s[..i]) == Run(START, s[start..][..i-start])
  {
    assert s[..i] == s[..start] + s[start..][..i-start];
    RunAppend(START, s[..start], s[start..][..i-start]);
  }

  lemma {:induction false} Opens(s: string, i: nat)
    requires i < |s| && s[i] == '{' && Run(START, s[..i]) == START
    ensures Opened(s, i, i + 1)
  {
    RunOne(START, s, i);
    RunSince(s, i, i + 1);
  }

  lemma {:induction false} StaysOpened(s: string, start: int, i: nat)
    requires Opened(s, start, i) && i < |s| && Run(START, s[..i+1]).depth >= 1
    ensures Opened(s, start, i + 1)
  {
    RunSince(s, start, i + 1);
  }

  lemma {:induction false} SegmentFound(s: string, start: int, i: nat)
    requires Opened(s, start, i) && i < |s| && CloseAt(START, s) == Some(i + 1)
    requires Run(START, s[..i+1]).depth == 0 && !Run(START, s[..i+1]).inString
    ensures IsFirstSegment(s, s[start..i+1])
  {
    hide Run, CloseAt;
    var r := s[start..i+1];
    RunSince(s, start, i + 1);
    assert s[start..][..i+1-start] == r;
    forall k | 0 < k < |r| ensures !Balanced(r[..k]) {
      assert r[..k] == s[start..][..k];
    }
  }

  /** `firstJSONObject`. */
  method FirstObject(s: string) returns (r: string)
    ensures r != "" <==> CloseAt(START, s).Some?
    ensures CloseAt(START, s).Some? ==> IsFirstSegment(s, r)
  {
    hide Run, CloseAt, Opened, IsFirstSegment;
    var depth, start, inString, escaped := 0, -1, false, false;
    Begin(s);
    for i := 0 to |s|
      invariant -1 <= start < i || (start == -1 && i == 0)
      invariant escaped ==> inString
      invariant Run(START, s[..i]) == Lex(depth, inString, escaped)
      invariant CloseAt(START, s) == Plus(CloseAt(Lex(depth, inString, escaped), s[i..]), i)
      invariant depth >= 1 ==> start >= 0 && Opened(s, start, i)
    {
      ghost var l := Lex(depth, inString, escaped);
      assert s[i..] == [s[i]] + s[i+1..];
      RunOne(START, s, i);
      Ends(l, s, i);
      if !Closes(l, s[i]) { OneStep(l, s[i], s[i+1..]); }
      if depth >= 1 && Step(l, s[i]).depth >= 1 { StaysOpened(s, start, i); }
      var c := s[i];
      if inString {
        if escaped {
          escaped := false;
          continue;
        }
        match c {
          case '\\' => escaped := true;
          case '"' => inString := false;
          case _ =>
        }
        continue;
      }
      match c
      case '"' => inString := true;
      case '{' =>
        if depth == 0 {
          start := i;
          Opens(s, i);
        }
        depth := depth + 1;
      case '}' =>
        depth := depth - 1;
        if depth == 0 && start >= 0 {
          SegmentFound(s, start, i);
          return s[start..i+1];
        }
      case _ =>
    }
    Ends(Lex(depth, inString, escaped), s, |s|);
    return "";
  }

  // ---- Agreement ----

  /** Without an opening brace the depth cannot come down from one. */
  lemma {:induction false} NothingCloses(l: Lex, before: string, rest: string)
    requires '{' !in before && l.depth <= 0
    ensures Run(l, before).depth <= 0
    ensures CloseAt(l, before + rest) == Plus(CloseAt(Run(l, before), rest), |before|)
    decreases |before|
  {
    if before == [] {
      assert before + rest == rest;
    } else {
      assert before + rest == [before[0]] + (before[1..] + rest);
      assert before[0] in before && forall c :: c in before[1..] ==> c in before;
      OneStep(l, before[0], before[1..] + rest);
      NothingCloses(Step(l, before[0]), before[1..], rest);
    }
  }

  /** Two points at which the scan is back at its start have a balanced segment between. */
  lemma {:induction false} BalancedBetween(s: string, i: nat, start: nat)
    requires i <= |s| && start <= |s| && Run(START, s[..i]) == START && Run(START, s[..start]) == START
    ensures i < start ==> Balanced(s[i..][..start-i])
  {
    if i < start { RunSince(s, i, start); }
  }

  /** What `firstJSONObject` returns is determined by the text. */
  lemma {:induction false} FirstSegmentUnique(s: string, r: string, r': string)
    requires IsFirstSegment(s, r) && IsFirstSegment(s, r')
    ensures r == r'
  {
    hide CloseAt, Run;
    var n := CloseAt(START, s).value;
    NotLonger(s, r, r', n);
    NotLonger(s, r', r, n);
  }

  lemma {:induction false} SamePrefix(s: string, r: string, n: nat, k: nat)
    requires |r| <= n <= |s| && r == s[n-|r|..n] && k <= |r|
    ensures r[..k] == s[n-|r|..][..k]
  {
  }

  lemma {:induction false} NotLonger(s: string, r: string, r': string, n: nat)
    requires |r'| <= n <= |s| && |r| <= n && r == s[n-|r|..n] && r' != []
    requires Run(START, s[..n-|r|]) == START && Run(START, s[..n-|r'|]) == START
    requires forall k :: 0 < k < |r| ==> !Balanced(r[..k])
    ensures |r| <= |r'|
  {
    hide Run, Balanced;
    BalancedBetween(s, n - |r|, n - |r'|);
    SamePrefix(s, r, n, if |r| > |r'| then |r| - |r'| else 0);
  }

  /** The loose scanners, which read quotes in the prose, stop where the strict one does and
      with its object exactly when one scan of the prose before the first brace comes back
      to where it started: every quote closed and no brace below zero.  Then no other
      segment could be theirs, and if the strict one finds nothing, neither do they. */
  lemma {:induction false} ScannersAgree(s: string, i: nat)
    requires IndexOf(s, '{') == Some(i)
    ensures match Extract(s)
            case Some(e) =>
              && ((CloseAt(START, s) == Some(i + |e|) && IsFirstSegment(s, e)) <==> Run(START, s[..i]) == START)
              && (Run(START, s[..i]) == START ==> forall r :: IsFirstSegment(s, r) ==> r == e)
            case None => Run(START, s[..i]) == START ==> CloseAt(START, s) == None
  {
    hide CloseAt, Run, IsFirstSegment, Balanced;
    var before, rest := s[..i], s[i+1..];
    assert s == before + (['{'] + rest);
    NothingCloses(START, before, ['{'] + rest);
    OneStep(START, '{', rest);
    if Extract(s).Some? && Run(START, before) == START {
      var e := Extract(s).value;
      ExtractIsShortest(s, i);
      IsSegment(s, e, i);
      forall r | IsFirstSegment(s, r) ensures r == e {
        FirstSegmentUnique(s, r, e);
      }
    }
    if Extract(s).Some? { StartsAt(s, Extract(s).value, i); }
  }

  lemma {:induction false} StartsAt(s: string, e: string, i: nat)
    requires i <= |s|
    ensures CloseAt(START, s) == Some(i + |e|) && IsFirstSegment(s, e) ==> Run(START, s[..i]) == START
  {
  }

  lemma {:induction false} IsSegment(s: string, e: string, i: nat)
    requires i < |s| && e != [] && e[0] == '{' && e <= s[i..] && CloseAt(START, s) == Some(i + |e|)
    requires Run(START, s[..i]) == START && Balanced(e)
    requires forall k :: 0 < k < |e| ==> !Balanced(s[i..][..k])
    ensures IsFirstSegment(s, e)
  {
    hide CloseAt, Run, Balanced;
    assert e == s[i..][..|e|] == s[i..i+|e|];
    forall k | 0 < k < |e| ensures !Balanced(e[..k]) {
      assert e[..k] == s[i..][..k];
    }
  }

  /** Without any brace no scanner finds anything. */
  lemma {:induction false} NoBraceNoObject(s: string)
    requires '{' !in s
    ensures Extract(s) == None && CloseAt(START, s) == None
  {
    AbsentNotFound(s, '{');
    NothingCloses(START, s, "");
    assert s + "" == s;
  }

  /** A closed quotation in the prose does no harm: every scanner finds the object. */
  lemma {:induction false} ClosedQuoteIsHarmless()
    ensures Extract("\"a\"{}") == Some("{}") && CloseAt(START, "\"a\"{}") == Some(5)
    ensures IsFirstSegment("\"a\"{}", "{}")
  {
    var s := "\"a\"{}";
    IndexIs(s, '{', 3);
    assert s[4..] == "}" && s[3..5] == "{}";
    assert Extract(s) == Some("{}");
    QuotationRuns();
    assert s[..3] == "\"a\"";
    ScannersAgree(s, 3);
  }

  lemma {:induction false} QuotationRuns()
    ensures Run(START, "\"a\"") == START
  {
    var s := "\"a\"";
    assert s[1..] == "a\"" && s[1..][1..] == "\"" && s[1..][1..][1..] == "";
    assert Run(Lex(0, true, false), "\"") == START;
  }

  /** A quote before the object hides it from the loose scanners only. */
  lemma {:induction false} QuoteHidesObject()
    ensures Extract("\"{}") == Some("{}") && CloseAt(START, "\"{}") == None
  {
    var s := "\"{}";
    assert s[1..] == "{}" && s[1..][1..] == "}" && s[1..][1..][1..] == "";
    IndexIs(s, '{', 1);
    assert s[2..] == "}";
    assert s[1..3] == "{}";
  }

  // ---- The candidate scan ----

  /** The balanced objects of the text, one after the other. */
  function Candidates(s: string): seq<string>
    decreases |s|
  {
    var r := Extract(s);
    if r.None? then []
    else [r.value] + Candidates(s[IndexOf(s, '{').value + |r.value|..])
  }

  function FirstUsable(candidates: seq<string>, usable: string -> bool): Option<string> {
    if candidates == [] then None
    else if usable(candidates[0]) then Some(candidates[0])
    else FirstUsable(candidates[1..], usable)
  }

  /** The balancing loop from an opening brace: the end of its segment. */
  method EndOfObject(s: string, start: nat) returns (end: int)
    requires start < |s| && s[start] == '{'
    ensures match CloseAt(Lex(1, false, false), s[start+1..])
            case None => end == -1
            case Some(n) => end == start + n
  {
    hide CloseAt;
    var depth, inString, escaped := 0, false, false;
    for i := start to |s|
      invariant escaped ==> inString
      invariant depth >= if i == start then 0 else 1
      invariant i == start ==> Lex(depth, inString, escaped) == START
      invariant i > start ==>
        CloseAt(Lex(1, false, false), s[start+1..])
        == Plus(CloseAt(Lex(depth, inString, escaped), s[i..]), i - start - 1)
    {
      ghost var l := Lex(depth, inString, escaped);
      assert s[i..] == [s[i]] + s[i+1..];
      Ends(l, s, i);
      if !Closes(l, s[i]) { OneStep(l, s[i], s[i+1..]); }
      var c := s[i];
      if inString {
        if escaped {
          escaped := false;
          continue;
        }
        if c == '\\' {
          escaped := true;
          continue;
        }
        if c == '"' {
          inString := false;
        }
        continue;
      }
      match c
      case '"' => inString := true;
      case '{' => depth := depth + 1;
      case '}' =>
        depth := depth - 1;
        if depth == 0 {
          return i;
        }
      case _ =>
    }
    Ends(Lex(depth, inString, escaped), s, |s|);
    return -1;
  }

  lemma {:induction false} NextCandidate(s: string, at: nat, n: nat)
    requires IndexOf(s, '{') == Some(at) && CloseAt(Lex(1, false, false), s[at+1..]) == Some(n)
    ensures Candidates(s) == [s[at..at+1+n]] + Candidates(s[at+1+n..])
  {
    hide CloseAt, IndexOf, Extract;
    ExtractAt(s, at, n);
  }

  lemma {:induction false} ExtractAt(s: string, at: nat, n: nat)
    requires IndexOf(s, '{') == Some(at) && CloseAt(Lex(1, false, false), s[at+1..]) == Some(n)
    ensures Extract(s) == Some(s[at..at+1+n])
  {
    hide CloseAt, IndexOf;
  }

  lemma {:induction false} NoCandidate(s: string)
    requires IndexOf(s, '{') == None || CloseAt(Lex(1, false, false), s[IndexOf(s, '{').value+1..]) == None
    ensures Candidates(s) == []
  {
    hide CloseAt, IndexOf;
  }

  lemma {:induction false} SkipCandidate(c: string, more: seq<string>, usable: string -> bool)
    ensures FirstUsable([c] + more, usable) == if usable(c) then Some(c) else FirstUsable(more, usable)
  {
    assert ([c] + more)[1..] == more;
  }

  /** `extractJSONObject` of the server, after its preamble and fence stripping: the first
      usable candidate, else the first, else nothing. */
  method ExtractCandidate(s: string, usable: string -> bool) returns (r: string)
    ensures match FirstUsable(Candidates(s), usable)
            case Some(c) => r == c
            case None => r == if Candidates(s) == [] then "" else Candidates(s)[0]
  {
    hide Candidates, CloseAt, FirstUsable, IndexOf;
    var firstSyntactic := "";
    var cursor := 0;
    assert s[0..] == s;
    while cursor < |s|
      invariant cursor <= |s|
      invariant firstSyntactic == "" ==> Candidates(s[cursor..]) == Candidates(s)
      invariant firstSyntactic != "" ==> Candidates(s) != [] && firstSyntactic == Candidates(s)[0]
      invariant FirstUsable(Candidates(s[cursor..]), usable) == FirstUsable(Candidates(s), usable)
    {
      var rest := s[cursor..];
      var at := IndexOf(rest, '{');
      if at.None? {
        break;
      }
      var start := at.value + cursor;
      var end := EndOfObject(s, start);
      assert rest[at.value+1..] == s[start+1..];
      if end < 0 {
        break;
      }
      var candidate := s[start..end+1];
      ghost var n := end - start;
      NextCandidate(rest, at.value, n);
      assert rest[at.value..at.value+1+n] == candidate && rest[at.value+1+n..] == s[end+1..];
      SkipCandidate(candidate, Candidates(s[end+1..]), usable);
      if firstSyntactic == "" {
        firstSyntactic := candidate;
      }
      if usable(candidate) {
        return candidate;
      }
      cursor := end + 1;
    }
    NoCandidate(s[cursor..]);
    NoneUsable(usable);
    return firstSyntactic;
  }

  lemma {:induction false} NoneUsable(usable: string -> bool)
    ensures FirstUsable([], usable) == None
  {
  }

  /** An object that is the whole text is the only candidate. */
  lemma {:induction false} WholeText(s: string)
    requires Extract(s) == Some(s)
    ensures Candidates(s) == [s]
  {
    hide CloseAt, Extract;
    FirstBraceFirst(s);
    assert s[|s|..] == "";
    NoBraceNoObject("");
    assert Candidates("") == [];
  }

  lemma {:induction false} FirstBraceFirst(s: string)
    requires Extract(s) == Some(s)
    ensures IndexOf(s, '{') == Some(0)
  {
    hide CloseAt;
    IndexIs(s, '{', 0);
  }

  /** The first candidate is what the report scanner finds. */
  lemma {:induction false} FirstCandidateAgrees(s: string)
    ensures Extract(s) == if Candidates(s) == [] then None else Some(Candidates(s)[0])
  {
  }
}
