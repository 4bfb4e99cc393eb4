/** How the clarification loop tells a counter from a reassessment (reassess.go,
    roundFromJSON and parseReassessResult): a filter that looks for the reassessment's keys
    as they are written, and a decoder that matches keys without regard to case.  And how it
    reads the classifier's answer (topologies.go, parseClassified).  Payloads are compact
    JSON; the reader is that of module Json. */
module Reassess {
  import opened Wrappers
  import opened Json
  import opened Decimals
  import opened Machine
  import Net
  import S = Scanners
  import U = Unified

  // ---- The filter ----

  predicate Contains(s: string, part: string)
    decreases |s|
  {
    part <= s || (s != [] && Contains(s[1..], part))
  }

  /** The keys by which a reassessment is recognised. */
  const NAMES: seq<string> := [
    "residual_ambiguity", "missing_dimensions", "resolved_dimensions", "decision", "next_questions",
    "stated_assumptions", "user_choice", "convergence_delta", "contradiction_detected", "frustration_signal"]

  function Needle(name: string): string {
    "\"" + name + "\""
  }

  predicate Recognised(text: string) {
    exists i :: 0 <= i < |NAMES| && Contains(text, Needle(NAMES[i]))
  }

  // ---- Keys without regard to case ----

  /** Simple case folding, as far as it meets the letters of the keys. */
  function FoldChar(c: char): char {
    if 'a' <= c <= 'z' then 'A' + (c - 'a')
    else if c == '\U{017F}' then 'S'
    else if c == '\U{212A}' then 'K'
    else c
  }

  function Fold(s: string): string {
    if s == [] then [] else [FoldChar(s[0])] + Fold(s[1..])
  }

  predicate EqualFold(a: string, b: string) {
    Fold(a) == Fold(b)
  }

  // ---- Reading a counter ----

  /** A number that fits into a machine word. */
  function ParseInt(text: string): Option<int64> {
    match IntOf(text)
    case Some(n) => if -0x8000_0000_0000_0000 <= n < 0x8000_0000_0000_0000 then Some(n as int64) else None
    case None => None
  }

  /** The fields of an object into a roundToken, in order; null leaves a field as it is, and
      a value of another type is an error. */
  function DecodeRound(fields: seq<Field>, rt: U.RoundToken): Option<U.RoundToken>
    decreases |fields|
  {
    if fields == [] then Some(rt)
    else
      var v := fields[0].value;
      if EqualFold(fields[0].key, "n") then
        if v.Null? then DecodeRound(fields[1..], rt)
        else if v.Num? && ParseInt(v.text).Some? then DecodeRound(fields[1..], rt.(n := ParseInt(v.text).value))
        else None
      else if EqualFold(fields[0].key, "reset") then
        if v.Null? then DecodeRound(fields[1..], rt)
        else if v.Bool? then DecodeRound(fields[1..], rt.(reset := v.b))
        else None
      else DecodeRound(fields[1..], rt)
  }

  predicate HasKey(fields: seq<Field>, key: string) {
    exists i :: 0 <= i < |fields| && fields[i].key == key
  }

  /** `roundFromJSON`: not recognised as a reassessment, and an object that is empty or has
      a known key. */
  function RoundFrom(text: string): Option<U.RoundToken> {
    if Recognised(text) then None
    else
      match Read(text)
      case None => None
      case Some((v, rest)) =>
        if rest != [] then None
        else
          match v
          case Null => Some(U.RoundToken(0, false))
          case Obj(fields) =>
            if fields == [] || HasKey(fields, "n") || HasKey(fields, "reset")
            then DecodeRound(fields, U.RoundToken(0, false)) else None
          case _ => None
  }

  // ---- Reading a reassessment ----

  /** How numbers, questionnaires and choices are decoded. */
  datatype Details = Details(number: string -> Option<real>, questions: Ordered -> Option<string>,
                             choice: Ordered -> bool)

  predicate AllStrings(items: seq<Ordered>) {
    forall i :: 0 <= i < |items| ==> items[i].Str? || items[i].Null?
  }

  function Texts(items: seq<Ordered>): seq<string> {
    if items == [] then [] else [if items[0].Str? then items[0].s else ""] + Texts(items[1..])
  }

  function DecisionOf(word: string): U.Decision {
    if EqualFold(word, "proceed_to_plan") then U.ProceedToPlan
    else if EqualFold(word, "request_user_choice") then U.RequestUserChoice
    else U.ClarifyAgain
  }

  /** The fields of a reassessResult. */
  const KEYS: seq<string> := [
    "residual_ambiguity", "convergence_delta", "missing_dimensions", "resolved_dimensions", "stated_assumptions",
    "contradiction_detected", "frustration_signal", "topic_shift", "decision", "rationale", "next_questions", "user_choice"]

  /** The field that a key stands for; as many as there are fields for an unknown key. */
  function KeyIndex(key: string, keys: seq<string>): (i: nat)
    ensures i <= |keys|
  {
    if keys == [] || EqualFold(key, keys[0]) then 0 else 1 + KeyIndex(key, keys[1..])
  }

  predicate NullOr(v: Ordered, typed: bool) {
    v.Null? || typed
  }

  predicate Strings(v: Ordered) {
    v.Arr? && AllStrings(v.items)
  }

  /** One field into a reassessResult; an unknown key is ignored, null changes nothing but
      the slices and pointers, and a value of another type is an error. */
  function DecodeField(i: nat, v: Ordered, rr: U.ReassessResult, d: Details): Option<U.ReassessResult> {
    var isNumber := v.Num? && d.number(v.text).Some?;
    if i == 0 then
      if !NullOr(v, isNumber) then None
      else Some(if isNumber then rr.(residualAmbiguity := d.number(v.text).value) else rr)
    else if i == 1 then if NullOr(v, isNumber) then Some(rr) else None
    else if i == 2 then
      if !NullOr(v, Strings(v)) then None
      else Some(rr.(missingDimensions := if v.Arr? then Texts(v.items) else []))
    else if i == 3 || i == 4 then if NullOr(v, Strings(v)) then Some(rr) else None
    else if i == 5 then if !NullOr(v, v.Bool?) then None else Some(if v.Bool? then rr.(contradiction := v.b) else rr)
    else if i == 6 then if NullOr(v, v.Bool?) then Some(rr) else None
    else if i == 7 then if !NullOr(v, v.Bool?) then None else Some(if v.Bool? then rr.(topicShift := v.b) else rr)
    else if i == 8 then if !NullOr(v, v.Str?) then None else Some(if v.Str? then rr.(decision := DecisionOf(v.s)) else rr)
    else if i == 9 then if NullOr(v, v.Str?) then Some(rr) else None
    else if i == 10 then
      if !NullOr(v, d.questions(v).Some?) then None
      else Some(rr.(nextQuestions := if v.Null? then None else d.questions(v)))
    else if i == 11 then if NullOr(v, d.choice(v)) then Some(rr) else None
    else Some(rr)
  }

  function DecodeReassess(fields: seq<Field>, rr: U.ReassessResult, d: Details): Option<U.ReassessResult>
    decreases |fields|
  {
    if fields == [] then Some(rr)
    else
      match DecodeField(KeyIndex(fields[0].key, KEYS), fields[0].value, rr, d)
      case None => None
      case Some(next) => DecodeReassess(fields[1..], next, d)
  }

  /** The object that the candidate scan settles on. */
  function Chosen(text: string, usable: string -> bool): string {
    var candidates := S.Candidates(text);
    match S.FirstUsable(candidates, usable)
    case Some(c) => c
    case None => if candidates == [] then "" else candidates[0]
  }

  const NOTHING_SAID := U.ReassessResult(0.0, [], false, false, U.ClarifyAgain, None)

  /** `parseReassessResult` for one payload. */
  function ReassessFrom(text: string, usable: string -> bool, d: Details): Option<U.ReassessResult> {
    match Read(Chosen(text, usable))
    case None => None
    case Some((v, rest)) => if rest == [] && v.Obj? then DecodeReassess(v.fields, NOTHING_SAID, d) else None
  }

  // ---- What the filter sees ----

  /** Letters and underscores, not the start of a counter's key. */
  predicate IsName(name: string) {
    && |name| >= 6 && name[..5] != "reset" && name[..5] != "reque"
    && forall i :: 0 <= i < |name| ==> NameChar(name[i])
  }

  predicate NameChar(c: char) {
    'a' <= c <= 'z' || c == '_'
  }

  lemma {:induction false} NameIs(name: string, a: char, b: char, c: char, d: char)
    requires |name| >= 6 && name[0] == a && name[1] == b && name[2] == c && name[3] == d
    requires !(a == 'r' && b == 'e' && c == 's' && d == 'e') && !(a == 'r' && b == 'e' && c == 'q')
    requires forall i :: 0 <= i < |name| ==> NameChar(name[i])
    ensures IsName(name)
  {
    assert name[..5][0] == a && name[..5][1] == b && name[..5][2] == c && name[..5][3] == d;
  }

  lemma {:induction false} NamesAre(i: nat)
    requires i < |NAMES|
    ensures IsName(NAMES[i])
  {
    hide IsName;
    var name := NAMES[i];
    NameIs(name, name[0], name[1], name[2], name[3]);
  }

  lemma {:induction false} Skip(s: string, part: string)
    requires s != [] && !(part <= s)
    ensures Contains(s, part) == Contains(s[1..], part)
  {
  }

  /** A needle can only start at a quote. */
  lemma {:induction false} SkipUnquoted(a: string, rest: string, name: string)
    requires '"' !in a
    ensures Contains(a + rest, Needle(name)) == Contains(rest, Needle(name))
    decreases |a|
  {
    if a == [] {
      assert a + rest == rest;
    } else {
      assert (a + rest)[1..] == a[1..] + rest;
      assert a[0] in a && forall c :: c in a[1..] ==> c in a;
      assert Needle(name)[0] == '"';
      Skip(a + rest, Needle(name));
      SkipUnquoted(a[1..], rest, name);
    }
  }

  /** At a quote, the needle does not start when what follows is not the name. */
  lemma {:induction false} SkipQuote(s: string, name: string, k: nat)
    requires |s| > k + 1 && s[0] == '"' && k < |name| && s[k+1] != name[k]
    ensures Contains(s, Needle(name)) == Contains(s[1..], Needle(name))
  {
    assert Needle(name)[k+1] == name[k];
    assert !(Needle(name) <= s);
    Skip(s, Needle(name));
  }

  lemma {:induction false} Found(a: string, part: string, b: string)
    ensures Contains(a + part + b, part)
    decreases |a|
  {
    if a == [] {
      assert a + part + b == part + b;
    } else {
      assert (a + part + b)[1..] == a[1..] + part + b;
      Found(a[1..], part, b);
    }
  }

  lemma {:induction false} PlainText(s: string)
    requires forall i :: 0 <= i < |s| ==> Escape(s[i]) == [s[i]]
    ensures Escaped(s) == s
  {
    if s != [] { PlainText(s[1..]); }
  }

  lemma {:induction false} KeyPrinted(fields: seq<Field>, i: nat) returns (a: string, b: string)
    requires i < |fields|
    ensures PrintFields(fields) == a + Quoted(fields[i].key) + b
    decreases |fields|
  {
    hide Quoted, Print;
    var head := Quoted(fields[0].key) + ":" + Print(fields[0].value);
    if i == 0 {
      a := "";
      b := PrintFields(fields)[|Quoted(fields[0].key)|..];
      assert PrintFields(fields) == head + PrintFields(fields)[|head|..];
      assert PrintFields(fields) == Quoted(fields[0].key) + b;
      assert "" + Quoted(fields[0].key) + b == Quoted(fields[0].key) + b;
    } else {
      var c, d := KeyPrinted(fields[1..], i - 1);
      a, b := head + "," + c, d;
      assert PrintFields(fields) == head + "," + (c + Quoted(fields[i].key) + d);
    }
  }

  /** The filter does what it is for: an object with any of the keys, spelled as the model is
      told to, is never taken for a counter. */
  lemma {:induction false} FilterCatches(fields: seq<Field>, i: nat, k: nat)
    requires i < |fields| && k < |NAMES| && fields[i].key == NAMES[k]
    ensures Recognised(Print(Obj(fields))) && RoundFrom(Print(Obj(fields))) == None
  {
    hide PrintFields, Contains, Read, Escape, Escaped;
    var text, name := Print(Obj(fields)), NAMES[k];
    NamesAre(k);
    var a, b := KeyPrinted(fields, i);
    forall j | 0 <= j < |name| ensures Escape(name[j]) == [name[j]] { PlainLetter(name[j]); }
    PlainText(name);
    assert Quoted(name) == Needle(name);
    assert text == ("{" + a) + Needle(name) + (b + "}");
    Found("{" + a, Needle(name), b + "}");
  }

  lemma {:induction false} PlainLetter(c: char)
    requires 'a' <= c <= 'z' || c == '_' || 'A' <= c <= 'Z' || '0' <= c <= '9' || c == '-'
    ensures Escape(c) == [c]
  {
  }

  /** Exactly when a printed object is taken for a counter. */
  lemma {:induction false} CounterExactly(fields: seq<Field>)
    requires Valid(Obj(fields))
    ensures var text := Print(Obj(fields));
            RoundFrom(text) ==
              if !Recognised(text) && (fields == [] || HasKey(fields, "n") || HasKey(fields, "reset"))
              then DecodeRound(fields, U.RoundToken(0, false)) else None
  {
    hide Print, Read, Valid, Recognised, DecodeRound, HasKey;
    var text := Print(Obj(fields));
    ReadBack(Obj(fields), "");
    assert text + "" == text;
  }

  // ---- The counter's own payload ----

  lemma {:induction false} WordBack(n: int64)
    ensures ParseInt(IntText(n)) == Some(n)
    ensures '"' !in IntText(n) && IsNumber(IntText(n))
  {
    hide IntText, IntOf;
    IntBack(n);
  }

  function RoundFields(rt: U.RoundToken): seq<Field> {
    [Field("n", Num(IntText(rt.n))), Field("reset", Bool(rt.reset))]
  }

  /** What t-followup deposits. */
  function EncodeRound(rt: U.RoundToken): string {
    Print(Obj(RoundFields(rt)))
  }

  lemma {:induction false} TwoFields(a: Field, b: Field)
    ensures Print(Obj([a, b])) ==
            "{" + (Quoted(a.key) + ":" + Print(a.value) + "," + (Quoted(b.key) + ":" + Print(b.value))) + "}"
  {
    hide Quoted, Escaped;
    assert [a, b][1..] == [b];
    assert PrintFields([b]) == Quoted(b.key) + ":" + Print(b.value);
    assert PrintFields([a, b]) == Quoted(a.key) + ":" + Print(a.value) + "," + PrintFields([b]);
  }

  lemma {:induction false} CounterKeys()
    ensures Quoted("n") == "\"n\"" && Quoted("reset") == "\"reset\""
  {
    hide Escape;
    PlainLetter('n');
    PlainLetter('r');
    PlainLetter('e');
    PlainLetter('s');
    PlainLetter('t');
    PlainText("n");
    PlainText("reset");
  }

  lemma {:induction false} EncodedIs(rt: U.RoundToken)
    ensures EncodeRound(rt) == "{\"n\":" + (IntText(rt.n) + (",\"reset\":" + if rt.reset then "true}" else "false}"))
  {
    hide IntText, PrintFields, Quoted, Escape, Escaped;
    TwoFields(RoundFields(rt)[0], RoundFields(rt)[1]);
    CounterKeys();
  }

  lemma {:induction false} CounterNotRecognised(rt: U.RoundToken)
    ensures !Recognised(EncodeRound(rt))
  {
    hide EncodeRound, IntText, Contains, Needle, IsNumber;
    EncodedIs(rt);
    WordBack(rt.n);
    forall i | 0 <= i < |NAMES| ensures !Contains(EncodeRound(rt), Needle(NAMES[i])) {
      NamesAre(i);
      NoNameInCounter(NAMES[i], IntText(rt.n), rt.reset);
    }
  }

  lemma {:induction false} NoNameInCounter(name: string, number: string, reset: bool)
    requires IsName(name) && '"' !in number
    ensures !Contains("{\"n\":" + (number + (",\"reset\":" + if reset then "true}" else "false}")), Needle(name))
  {
    hide Contains, Needle, IsName;
    var end := ",\"reset\":" + if reset then "true}" else "false}";
    NameLetters(name);
    NoNameAtEnd(name, if reset then "true}" else "false}");
    SkipUnquoted(number, end, name);
    NoNameAtStart(name, number + end);
  }

  lemma {:induction false} NoNameAtStart(name: string, rest: string)
    requires |name| >= 6 && name[0] != ':' && name[1] != '"'
    ensures Contains("{\"n\":" + rest, Needle(name)) == Contains(rest, Needle(name))
  {
    hide Contains;
    SkipWord("n", ":", rest, name, 1);
    SkipUnquoted("{", Needle("n") + ":" + rest, name);
    assert "{" + (Needle("n") + ":" + rest) == "{\"n\":" + rest;
  }

  lemma {:induction false} NoNameAtEnd(name: string, flag: string)
    requires IsName(name) && '"' !in flag && flag != ""
    ensures !Contains(",\"reset\":" + flag, Needle(name))
  {
    hide Contains, Needle;
    Unquoted(":" + flag, name);
    assert ("\":" + flag)[1..] == ":" + flag;
    SkipQuote("\":" + flag, name, 0);
    SkipUnquoted("reset", "\":" + flag, name);
    var key := "\"reset\":" + flag;
    assert key[1..] == "reset" + ("\":" + flag);
    var k := Differs(name, "reset");
    assert key[k+1] == "reset"[k];
    SkipQuote(key, name, k);
    SkipUnquoted(",", key, name);
    assert ",\"reset\":" + flag == "," + key;
  }

  lemma {:induction false} Unquoted(s: string, name: string)
    requires '"' !in s
    ensures !Contains(s, Needle(name))
  {
    SkipUnquoted(s, "", name);
    assert s + "" == s;
  }

  lemma {:induction false} Differs(name: string, word: string) returns (k: nat)
    requires |name| >= |word| && name[..|word|] != word
    ensures k < |word| && name[k] != word[k]
  {
    k :| k < |word| && name[..|word|][k] != word[k];
  }

  /** Whatever t-followup deposits reads back as the counter it was. */
  lemma {:induction false} CounterBack(rt: U.RoundToken)
    ensures RoundFrom(EncodeRound(rt)) == Some(rt)
  {
    hide Recognised, IntText, ParseInt, EncodeRound, RoundFrom, IsNumber;
    var fields := RoundFields(rt);
    WordBack(rt.n);
    assert EncodeRound(rt) == Print(Obj(fields)) by { EncodedPrints(rt); }
    CounterNotRecognised(rt);
    CounterExactly(fields);
    assert fields[0].key == "n";
    CounterDecoded(rt);
  }

  lemma {:induction false} EncodedPrints(rt: U.RoundToken)
    ensures EncodeRound(rt) == Print(Obj(RoundFields(rt)))
  {
  }

  lemma {:induction false} KeysFold()
    ensures Fold("n") == "N" && Fold("reset") == "RESET"
  {
    assert "n"[1..] == "";
    assert "reset"[1..] == "eset" && "eset"[1..] == "set" && "set"[1..] == "et" && "et"[1..] == "t" && "t"[1..] == "";
    assert Fold("t") == "T" && Fold("et") == "ET" && Fold("set") == "SET" && Fold("eset") == "ESET";
  }

  lemma {:induction false} CounterDecoded(rt: U.RoundToken)
    ensures DecodeRound(RoundFields(rt), U.RoundToken(0, false)) == Some(rt)
  {
    hide IntText, ParseInt, Fold;
    KeysFold();
    WordBack(rt.n);
    var fields := RoundFields(rt);
    assert fields[1..] == [fields[1]] && fields[1..][1..] == [];
    assert DecodeRound([], rt) == Some(rt);
  }

  // ---- A reassessment that reads as a counter ----

  const KEY_DECISION := "Decision"
  const CHOICE := "request_user_choice"
  const KEY_N := "n"
  const FAR_BACK := "-100"

  /** {"Decision":"request_user_choice","n":-100} */
  function Spoof(): string {
    TwoEntries(KEY_DECISION, CHOICE, KEY_N, FAR_BACK)
  }

  function TwoEntries(k1: string, word: string, k2: string, number: string): string {
    "{" + (Needle(k1) + ":" + Needle(word) + "," + (Needle(k2) + ":" + number)) + "}"
  }

  function EntryFields(k1: string, word: string, k2: string, number: string): seq<Field> {
    [Field(k1, Str(word)), Field(k2, Num(number))]
  }

  predicate LetterChar(c: char) {
    NameChar(c) || 'A' <= c <= 'Z'
  }

  predicate Letters(s: string) {
    forall i :: 0 <= i < |s| ==> LetterChar(s[i])
  }

  lemma {:induction false} LettersQuoted(s: string)
    requires Letters(s)
    ensures Quoted(s) == Needle(s) && '"' !in s
  {
    hide Escape, Escaped;
    forall i | 0 <= i < |s| ensures Escape(s[i]) == [s[i]] { PlainLetter(s[i]); }
    PlainText(s);
  }

  lemma {:induction false} EntriesPrinted(k1: string, word: string, k2: string, number: string)
    requires Letters(k1) && Letters(word) && Letters(k2) && IsNumber(number)
    ensures var fields := EntryFields(k1, word, k2, number);
            Valid(Obj(fields)) && Print(Obj(fields)) == TwoEntries(k1, word, k2, number)
  {
    hide PrintFields, Quoted, Letters, Needle, IsNumber;
    var fields := EntryFields(k1, word, k2, number);
    TwoFields(fields[0], fields[1]);
    LettersQuoted(k1);
    LettersQuoted(word);
    LettersQuoted(k2);
  }

  lemma {:induction false} SpoofParts()
    ensures Letters(KEY_DECISION) && Letters(CHOICE) && Letters(KEY_N)
    ensures IsNumber(FAR_BACK) && '"' !in FAR_BACK
    ensures KEY_DECISION != "" && KEY_DECISION[0] == 'D' && |CHOICE| > 5 && CHOICE[..5] == "reque" && |KEY_N| == 1
    ensures KEY_N[0] == 'n' && |KEY_DECISION| == 8
  {
    assert CHOICE[0] == 'r' && CHOICE[1] == 'e' && CHOICE[2] == 'q' && CHOICE[3] == 'u' && CHOICE[4] == 'e';
  }

  /** The filter looks for a key in lower case, between quotes. */
  lemma {:induction false} SpoofNotRecognised()
    ensures !Recognised(Spoof())
  {
    hide Contains, Needle, IsName, Spoof;
    forall i | 0 <= i < |NAMES| ensures !Contains(Spoof(), Needle(NAMES[i])) {
      NamesAre(i);
      NoNameInSpoof(NAMES[i]);
    }
  }

  lemma {:induction false} NoNameInSpoof(name: string)
    requires IsName(name)
    ensures !Contains(Spoof(), Needle(name))
  {
    hide Contains, Needle, IsNumber, Letters, TwoEntries, NameChar;
    SpoofParts();
    LettersQuoted(KEY_DECISION);
    LettersQuoted(CHOICE);
    LettersQuoted(KEY_N);
    var k := Differs(name, "reque");
    assert CHOICE[..5][k] == CHOICE[k];
    UpperCase(KEY_DECISION[0]);
    NoNameInEntries(name, KEY_DECISION, CHOICE, KEY_N, FAR_BACK, k);
  }

  lemma {:induction false} UpperCase(c: char)
    ensures c == 'D' ==> !NameChar(c)
  {
  }

  /** A quoted word that differs from the name at k, and what comes before the next one. */
  lemma {:induction false} SkipWord(word: string, between: string, rest: string, name: string, k: nat)
    requires '"' !in word && '"' !in between && between != "" && name != "" && between[0] != name[0]
    requires k < |name| && ((k < |word| && word[k] != name[k]) || (k == |word| && name[k] != '"'))
    ensures Contains(Needle(word) + between + rest, Needle(name)) == Contains(rest, Needle(name))
  {
    hide Contains;
    SkipUnquoted(between, rest, name);
    var close := "\"" + (between + rest);
    assert close[1..] == between + rest && close[1] == between[0];
    SkipQuote(close, name, 0);
    SkipUnquoted(word, close, name);
    var open := "\"" + (word + close);
    assert open[1..] == word + close;
    assert open[k+1] == if k < |word| then word[k] else '"';
    SkipQuote(open, name, k);
    assert Needle(word) + between + rest == open;
  }

  lemma {:induction false} NoNameInEntries(name: string, k1: string, word: string, k2: string, number: string, k: nat)
    requires IsName(name)
    requires '"' !in k1 && '"' !in word && '"' !in k2 && '"' !in number
    requires k1 != "" && !NameChar(k1[0]) && |k2| == 1 && k < |name| && k < |word| && word[k] != name[k]
    ensures !Contains(TwoEntries(k1, word, k2, number), Needle(name))
  {
    hide Contains, Needle, IsName;
    NameLetters(name);
    var a, b, c := Needle(k1), Needle(word), Needle(k2);
    var tail := number + "}";
    Unquoted(tail, name);
    SkipWord(k2, ":", tail, name, 1);
    SkipWord(word, ",", c + ":" + tail, name, k);
    SkipWord(k1, ":", b + "," + (c + ":" + tail), name, 0);
    SkipUnquoted("{", a + ":" + (b + "," + (c + ":" + tail)), name);
    assert TwoEntries(k1, word, k2, number) == "{" + (a + ":" + (b + "," + (c + ":" + tail)));
  }

  lemma {:induction false} NameLetters(name: string)
    requires IsName(name)
    ensures |name| >= 6 && NameChar(name[0]) && name[1] != '"' && name[0] != ':' && name[0] != ','
  {
  }

  // ---- And decodes as a request for a choice ----

  lemma {:induction false} FoldLength(s: string)
    ensures |Fold(s)| == |s|
  {
    if s != [] { FoldLength(s[1..]); }
  }

  lemma {:induction false} OtherLength(a: string, b: string)
    requires |a| != |b|
    ensures !EqualFold(a, b)
  {
    FoldLength(a);
    FoldLength(b);
  }

  lemma {:induction false} FirstLetter(a: string, b: string)
    requires a != "" && b != "" && a[1..] == b[1..] && FoldChar(a[0]) == FoldChar(b[0])
    ensures EqualFold(a, b)
  {
  }

  lemma {:induction false} IndexByLength(key: string, keys: seq<string>, i: nat)
    requires i <= |keys| && forall j :: 0 <= j < i ==> |keys[j]| != |key|
    requires i < |keys| ==> EqualFold(key, keys[i])
    ensures KeyIndex(key, keys) == i
    decreases i
  {
    hide EqualFold;
    if i > 0 {
      OtherLength(key, keys[0]);
      forall j | 0 <= j < i - 1 ensures |keys[1..][j]| != |key| { assert keys[1..][j] == keys[j+1]; }
      IndexByLength(key, keys[1..], i - 1);
    }
  }

  lemma {:induction false} SpoofKeys()
    ensures KeyIndex(KEY_DECISION, KEYS) == 8 && KeyIndex(KEY_N, KEYS) == |KEYS| == 12
  {
    hide KeyIndex, Fold, EqualFold;
    var key := KEYS[8];
    assert KEY_DECISION[1..] == key[1..] && key[0] == 'd' && KEY_DECISION[0] == 'D';
    FirstLetter(KEY_DECISION, key);
    IndexByLength(KEY_DECISION, KEYS, 8);
    IndexByLength(KEY_N, KEYS, 12);
  }

  lemma {:induction false} SpoofChoice()
    ensures DecisionOf(CHOICE) == U.RequestUserChoice
  {
    hide EqualFold;
    OtherLength(CHOICE, "proceed_to_plan");
    SameFold(CHOICE);
  }

  lemma {:induction false} SameFold(s: string)
    ensures EqualFold(s, s)
  {
  }

  lemma {:induction false} SpoofNumber()
    ensures ParseInt(FAR_BACK) == Some(-100)
  {
    var s := FAR_BACK[1..];
    assert FAR_BACK[0] == '-' && |s| == 3 && s[0] == '1' && s[1] == '0' && s[2] == '0';
    var t := s[..2];
    var o := t[..1];
    assert Digits(o) == Some(1);
    assert Digits(t) == Some(10);
    assert Digits(s) == Some(100);
  }

  lemma {:induction false} SpoofRoundKeys()
    ensures !EqualFold(KEY_DECISION, "n") && !EqualFold(KEY_DECISION, "reset") && EqualFold(KEY_N, "n") && KEY_N == "n"
  {
    hide EqualFold;
    OtherLength(KEY_DECISION, "n");
    OtherLength(KEY_DECISION, "reset");
    SameFold(KEY_N);
  }

  /** The counter that the answer reads as. */
  lemma {:induction false} SpoofReadsAsCounter()
    ensures RoundFrom(Spoof()) == Some(U.RoundToken(-100, false))
  {
    hide Recognised, Fold, EqualFold, ParseInt, Print, TwoEntries, IsNumber, Letters, RoundFrom;
    SpoofParts();
    EntriesPrinted(KEY_DECISION, CHOICE, KEY_N, FAR_BACK);
    var fields := EntryFields(KEY_DECISION, CHOICE, KEY_N, FAR_BACK);
    SpoofNotRecognised();
    CounterExactly(fields);
    SpoofRoundKeys();
    assert fields[1].key == "n";
    SpoofNumber();
    DecodeTwo(fields);
  }

  lemma {:induction false} DecodeTwo(fields: seq<Field>)
    requires |fields| == 2 && fields[1].value.Num? && ParseInt(fields[1].value.text).Some?
    requires !EqualFold(fields[0].key, "n") && !EqualFold(fields[0].key, "reset") && EqualFold(fields[1].key, "n")
    ensures DecodeRound(fields, U.RoundToken(0, false)) == Some(U.RoundToken(ParseInt(fields[1].value.text).value, false))
  {
    hide EqualFold, ParseInt;
    var rt := U.RoundToken(ParseInt(fields[1].value.text).value, false);
    assert fields[1..] == [fields[1]] && fields[1..][1..] == [];
    assert DecodeRound([], rt) == Some(rt);
  }

  /** A text that is one object is what the candidate scan settles on. */
  lemma {:induction false} ObjectIsChosen(fields: seq<Field>, usable: string -> bool)
    requires Valid(Obj(fields))
    ensures Chosen(Print(Obj(fields)), usable) == Print(Obj(fields))
  {
    hide Print, Valid, S.Extract, S.Candidates, S.FirstUsable;
    var text := Print(Obj(fields));
    S.ExtractInvertsPrint("", fields, "");
    assert "" + text + "" == text;
    S.WholeText(text);
    S.NoneUsable(usable);
    S.SkipCandidate(text, [], usable);
    assert [text] + [] == [text];
  }

  lemma {:induction false} DecodeTwoFields(a: Field, b: Field, rr: U.ReassessResult, d: Details)
    requires KeyIndex(a.key, KEYS) == 8 && a.value.Str? && KeyIndex(b.key, KEYS) == 12
    ensures DecodeReassess([a, b], rr, d) == Some(rr.(decision := DecisionOf(a.value.s)))
  {
    hide KeyIndex, DecisionOf;
    var next := rr.(decision := DecisionOf(a.value.s));
    assert [a, b][1..] == [b] && [b][1..] == [];
    assert DecodeReassess([], next, d) == Some(next);
    assert DecodeReassess([b], next, d) == Some(next);
  }

  lemma {:induction false} ReassessOfObject(fields: seq<Field>, usable: string -> bool, d: Details)
    requires Valid(Obj(fields))
    ensures ReassessFrom(Print(Obj(fields)), usable, d) == DecodeReassess(fields, NOTHING_SAID, d)
  {
    hide Print, Read, Chosen, Valid, DecodeReassess;
    var text := Print(Obj(fields));
    ObjectIsChosen(fields, usable);
    ReadBack(Obj(fields), "");
    assert text + "" == text;
  }

  /** The reassessment that the same answer reads as. */
  lemma {:induction false} SpoofReadsAsChoice(usable: string -> bool, d: Details)
    ensures ReassessFrom(Spoof(), usable, d) == Some(NOTHING_SAID.(decision := U.RequestUserChoice))
  {
    hide Print, TwoEntries, IsNumber, Letters, KeyIndex, DecisionOf, Valid, ReassessFrom, DecodeReassess;
    SpoofParts();
    EntriesPrinted(KEY_DECISION, CHOICE, KEY_N, FAR_BACK);
    ReassessOfObject(EntryFields(KEY_DECISION, CHOICE, KEY_N, FAR_BACK), usable, d);
    SpoofKeys();
    SpoofChoice();
    assert EntryFields(KEY_DECISION, CHOICE, KEY_N, FAR_BACK) == [Field(KEY_DECISION, Str(CHOICE)), Field(KEY_N, Num(FAR_BACK))];
    DecodeTwoFields(Field(KEY_DECISION, Str(CHOICE)), Field(KEY_N, Num(FAR_BACK)), NOTHING_SAID, d);
  }

  // ---- The assistant's loop with these decoders ----

  ghost predicate ReadsLike(u: U.Setup, usable: string -> bool, d: Details) {
    && (forall text :: u.codec.round(text) == RoundFrom(text))
    && (forall rt :: u.codec.encodeRound(rt) == EncodeRound(rt))
    && (forall text :: u.codec.reassess(text) == ReassessFrom(text, usable, d))
  }

  /** What the assistant's net asks of its decoders holds of these. */
  lemma {:induction false} DecodersRoundTrip(u: U.Setup, usable: string -> bool, d: Details)
    requires ReadsLike(u, usable, d)
    ensures U.RoundTrips(u.codec)
  {
    hide RoundFrom, EncodeRound, ReassessFrom;
    forall rt: U.RoundToken ensures u.codec.round(u.codec.encodeRound(rt)) == Some(rt) { CounterBack(rt); }
  }

  /** Whatever the cap and the counter, an answer of `Spoof()` lets the follow-up fire: the
      loop is open again although its counter had reached the cap. */
  lemma {:induction false} SpoofPassesCap(u: U.Setup, usable: string -> bool, d: Details, m: Net.Marking)
    requires ReadsLike(u, usable, d) && 1 <= u.maxRounds <= 5
    requires U.At(m, U.Reassessed) && U.PlaceId(U.Reassessed) in m && U.RoundId() in m
    requires U.CounterReads(u, m, u.maxRounds - 1)
    requires m[U.PlaceId(U.Reassessed)] != [] && m[U.PlaceId(U.Reassessed)][0].payload == Spoof()
    ensures U.ResidualAmbiguous(u, m[U.PlaceId(U.Reassessed)] + m[U.RoundId()])
  {
    hide RoundFrom, EncodeRound, ReassessFrom, Spoof, U.ResidualAmbiguous, U.PlaceId, U.RoundId, U.Places, U.RoundTrips;
    DecodersRoundTrip(u, usable, d);
    SpoofReadsAsCounter();
    SpoofReadsAsChoice(usable, d);
    U.SpoofPasses(u, m);
  }

  /** And the follow-up that consumes it holds the counter's event but not the counter: no
      value but -100 is benign, and -100 is what the next follow-up reads. */
  lemma {:induction false} SpoofLosesCounter(u: U.Setup, usable: string -> bool, d: Details, m: Net.Marking,
                                             c: Net.Choices, m': Net.Marking)
    requires ReadsLike(u, usable, d)
    requires U.At(m, U.Reassessed) && U.PlaceId(U.Reassessed) in m && U.RoundId() in m && U.RoundId() in m'
    requires m[U.PlaceId(U.Reassessed)] != [] && m[U.PlaceId(U.Reassessed)][0].payload == Spoof()
    requires c.order == [U.Id(U.FollowUp)] && U.CounterMoves(u, m, U.FollowUp, m')
    ensures U.EventOf(u, m, c) == U.Held
    ensures forall n: int :: U.Benign(u, m, c, n) <==> n == -100
    ensures U.CounterReads(u, m', -100)
  {
    hide RoundFrom, EncodeRound, ReassessFrom, Spoof, U.PlaceId, U.RoundId, U.Places, U.RoundTrips, U.Id;
    DecodersRoundTrip(u, usable, d);
    SpoofReadsAsCounter();
    SpoofReadsAsChoice(usable, d);
    U.SpoofHolds(u, m, c, m');
  }

  // ---- The classifier's answer ----

  /** The fields of a classifierResult, and the place of each. */
  const CLASSIFIER_KEYS: seq<string> := [
    "intent", "needs_clarification", "missing", "confidence", "manage_kind", "manage_args"]

  const KEY_INTENT := "intent"
  const TASK := "task"

  /** One field into a classifierResult, with the rules of `DecodeField`. */
  function DecodeClassifierField(i: nat, v: Ordered, r: U.ClassifierResult, d: Details): Option<U.ClassifierResult> {
    if i == 0 then if !NullOr(v, v.Str?) then None else Some(if v.Str? then r.(task := EqualFold(v.s, TASK)) else r)
    else if i == 1 then if !NullOr(v, v.Bool?) then None else Some(if v.Bool? then r.(needsClarification := v.b) else r)
    else if i == 2 then if NullOr(v, Strings(v)) then Some(r) else None
    else if i == 3 then
      if !NullOr(v, v.Num? && d.number(v.text).Some?) then None
      else Some(r.(confidence := if v.Num? then d.number(v.text) else None))
    else if i == 4 then if NullOr(v, v.Str?) then Some(r) else None
    else if i == 5 then if NullOr(v, v.Obj?) then Some(r) else None
    else Some(r)
  }

  function DecodeClassifier(fields: seq<Field>, r: U.ClassifierResult, d: Details): Option<U.ClassifierResult>
    decreases |fields|
  {
    if fields == [] then Some(r)
    else
      match DecodeClassifierField(KeyIndex(fields[0].key, CLASSIFIER_KEYS), fields[0].value, r, d)
      case None => None
      case Some(next) => DecodeClassifier(fields[1..], next, d)
  }

  /** `parseClassified` for one payload: the whole of it is one value. */
  function ClassifiedFrom(text: string, d: Details): Option<U.ClassifierResult> {
    match Read(text)
    case None => None
    case Some((v, rest)) =>
      if rest != [] then None
      else if v.Null? then Some(U.ClassifierResult(false, false, None))
      else if v.Obj? then DecodeClassifier(v.fields, U.ClassifierResult(false, false, None), d)
      else None
  }

  /** {"intent":"task"} */
  function ClearTask(): string {
    "{" + (Needle(KEY_INTENT) + ":" + Needle(TASK)) + "}"
  }

  lemma {:induction false} ClearTaskPrinted()
    ensures var fields := [Field(KEY_INTENT, Str(TASK))];
            Valid(Obj(fields)) && Print(Obj(fields)) == ClearTask()
  {
    hide Quoted, Needle;
    var f := Field(KEY_INTENT, Str(TASK));
    LettersQuoted(KEY_INTENT);
    LettersQuoted(TASK);
    assert PrintFields([f]) == Quoted(f.key) + ":" + Print(f.value);
  }

  /** The shortest answer that calls a message a task is a clear one. */
  lemma {:induction false} ClearTaskDecodes(d: Details)
    ensures ClassifiedFrom(ClearTask(), d) == Some(U.ClassifierResult(true, false, None))
  {
    hide Print, Read, Valid, ClearTask, EqualFold, KeyIndex;
    var fields := [Field(KEY_INTENT, Str(TASK))];
    ClearTaskPrinted();
    ReadBack(Obj(fields), "");
    assert Print(Obj(fields)) + "" == Print(Obj(fields));
    SameFold(KEY_INTENT);
    SameFold(TASK);
    IndexByLength(KEY_INTENT, CLASSIFIER_KEYS, 0);
    assert fields[1..] == [];
    var clear := U.ClassifierResult(true, false, None);
    assert DecodeClassifier([], clear, d) == Some(clear);
  }

  /** A threshold of NaN and that answer: nothing is enabled and the net is not complete. */
  lemma {:induction false} ClearTaskStuck(u: U.Setup, d: Details, mode: Net.Mode, m: Net.Marking)
    requires forall text :: u.codec.classified(text) == ClassifiedFrom(text, d)
    requires U.At(m, U.Classified) && U.PlaceId(U.Classified) in m && u.confidenceThreshold == U.NaN
    requires m[U.PlaceId(U.Classified)] != [] && m[U.PlaceId(U.Classified)][0].payload == ClearTask()
    ensures Net.FirableSet(U.Unified(u), mode, m) == {} && !Net.Complete(U.Unified(u), m)
  {
    hide ClassifiedFrom, ClearTask, U.At, U.PlaceId, U.Unified, Net.FirableSet, Net.Complete;
    ClearTaskDecodes(d);
    U.NaNThresholdDeadlocks(u, mode, m);
  }
}
