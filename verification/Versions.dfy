/** Qualified tool names and version order (persist/tool_registry_memory.go). */
module Versions {
  import opened Wrappers
  import opened Strings
  import opened Machine
  import opened Order

  // ---- Qualified names: ns/name@version ----

  datatype QualifiedName = QualifiedName(namespace: string, name: string, version: string)

  /** `SplitQualifiedName`; an empty version asks for the latest. */
  function SplitQualifiedName(qn: string): Option<QualifiedName> {
    var slash := IndexOf(qn, '/');
    if slash.None? || slash.value == 0 || slash.value == |qn| - 1 then None
    else
      var rest := qn[slash.value+1..];
      var at := IndexOf(rest, '@');
      if at.None? then Some(QualifiedName(qn[..slash.value], rest, ""))
      else if at.value == 0 || at.value == |rest| - 1 then None
      else Some(QualifiedName(qn[..slash.value], rest[..at.value], rest[at.value+1..]))
  }

  function PrintName(q: QualifiedName): string {
    q.namespace + "/" + q.name + if q.version == "" then "" else "@" + q.version
  }

  predicate WellFormed(q: QualifiedName) {
    q.namespace != "" && '/' !in q.namespace && q.name != "" && '@' !in q.name
  }

  /** The slash of a printed name, and what follows it. */
  lemma {:induction false} SlashFound(namespace: string, rest: string)
    requires namespace != "" && '/' !in namespace
    ensures var qn := namespace + "/" + rest;
            IndexOf(qn, '/') == Some(|namespace|) && qn[..|namespace|] == namespace && qn[|namespace|+1..] == rest
  {
    hide IndexOf;
    var qn := namespace + "/" + rest;
    assert qn[..|namespace|] == namespace && qn[|namespace|] == '/';
    IndexIs(qn, '/', |namespace|);
  }

  lemma {:induction false} PrintSplits(q: QualifiedName)
    requires WellFormed(q)
    ensures SplitQualifiedName(PrintName(q)) == Some(q)
  {
    hide IndexOf;
    var rest := q.name + if q.version == "" then "" else "@" + q.version;
    assert PrintName(q) == q.namespace + "/" + rest;
    SlashFound(q.namespace, rest);
    if q.version == "" {
      assert rest == q.name;
      AbsentNotFound(rest, '@');
    } else {
      assert rest[..|q.name|] == q.name && rest[|q.name|] == '@' && rest[|q.name|+1..] == q.version;
      IndexIs(rest, '@', |q.name|);
    }
  }

  /** Splitting and printing are inverse: the well-formed names are exactly those that
      splitting returns. */
  lemma {:induction false} SplitInvertsPrint(q: QualifiedName, qn: string)
    ensures SplitQualifiedName(qn) == Some(q) <==> WellFormed(q) && qn == PrintName(q)
  {
    hide SplitQualifiedName, PrintName;
    SplitPrints(qn);
    if WellFormed(q) { PrintSplits(q); }
  }

  lemma {:induction false} SplitPrints(qn: string)
    ensures SplitQualifiedName(qn).Some? ==>
      WellFormed(SplitQualifiedName(qn).value) && qn == PrintName(SplitQualifiedName(qn).value)
  {
    if SplitQualifiedName(qn).Some? {
      var slash := IndexOf(qn, '/').value;
      var rest := qn[slash+1..];
      assert qn == qn[..slash] + "/" + rest;
      if IndexOf(rest, '@').Some? {
        var at := IndexOf(rest, '@').value;
        assert rest == rest[..at] + "@" + rest[at+1..];
        assert qn == qn[..slash] + "/" + (rest[..at] + "@" + rest[at+1..]);
      }
    }
  }

  lemma {:induction false} VersionedName(q: QualifiedName)
    ensures q.version != "" ==> PrintName(q) == q.namespace + "/" + q.name + "@" + q.version
  {
    assert q.namespace + "/" + q.name + ("@" + q.version) == q.namespace + "/" + q.name + "@" + q.version;
  }

  // ---- Comparing versions ----

  /** At most n pieces around the separator. */
  function SplitN(s: string, c: char, n: nat): seq<string>
    requires n > 0
    decreases n
  {
    var i := IndexOf(s, c);
    if n == 1 || i.None? then [s] else [s[..i.value]] + SplitN(s[i.value+1..], c, n - 1)
  }

  datatype Component = Component(head: string, tail: string)

  /** The component before its first dash, and from there on. */
  function ComponentOf(s: string): Component {
    var dash := IndexOf(s, '-');
    if dash.None? then Component(s, "") else Component(s[..dash.value], s[dash.value..])
  }

  function ComponentAt(version: string, i: nat): Component {
    var parts := SplitN(version, '.', 3);
    ComponentOf(if i < |parts| then parts[i] else "")
  }

  /** `atoiSafe`: digits only; the sum wraps around silently. */
  function AtoiFrom(n: int64, s: string): Option<int64>
    decreases |s|
  {
    if s == "" then Some(n)
    else if '0' <= s[0] <= '9' then AtoiFrom(Wrap64(n * 10 + (s[0] - '0') as int), s[1..])
    else None
  }

  function AtoiSafe(s: string): Option<int64> {
    if s == "" then None else AtoiFrom(0, s)
  }

  function CompareStrings(a: string, b: string): int {
    if a == b then 0 else if Less(a, b) then -1 else 1
  }

  function CompareNumericOrLex(a: string, b: string): int {
    var x, y := AtoiSafe(a), AtoiSafe(b);
    if x.Some? && y.Some? then (if x.value < y.value then -1 else if x.value > y.value then 1 else 0)
    else CompareStrings(a, b)
  }

  /** No tail ranks above any tail: a release above its pre-releases. */
  function CompareTails(a: string, b: string): int {
    if a == b then 0
    else if a == "" then 1
    else if b == "" then -1
    else if Less(a, b) then -1
    else 1
  }

  function CompareComponents(a: Component, b: Component): int {
    var c := CompareNumericOrLex(a.head, b.head);
    if c != 0 then c else CompareTails(a.tail, b.tail)
  }

  function CompareFrom(a: string, b: string, i: nat): int
    requires i <= 3
    decreases 3 - i
  {
    if i == 3 then 0
    else
      var c := CompareComponents(ComponentAt(a, i), ComponentAt(b, i));
      if c != 0 then c else CompareFrom(a, b, i + 1)
  }

  /** `CompareSemver`: the loop over the three components. */
  method CompareSemver(a: string, b: string) returns (r: int)
    ensures r == CompareFrom(a, b, 0)
  {
    for i := 0 to 3
      invariant CompareFrom(a, b, 0) == CompareFrom(a, b, i)
    {
      var c := CompareNumericOrLex(ComponentAt(a, i).head, ComponentAt(b, i).head);
      if c != 0 {
        return c;
      }
      var aTail, bTail := ComponentAt(a, i).tail, ComponentAt(b, i).tail;
      if aTail == bTail {
        continue;
      }
      if aTail == "" {
        return 1;
      }
      if bTail == "" {
        return -1;
      }
      if Less(aTail, bTail) {
        return -1;
      }
      return 1;
    }
    return 0;
  }

  // ---- Where it is an order ----

  function Number(digits: string): nat
    requires forall i :: 0 <= i < |digits| ==> '0' <= digits[i] <= '9'
  {
    if digits == "" then 0
    else Number(digits[..|digits|-1]) * 10 + (digits[|digits|-1] - '0') as int
  }

  /** Nothing, or a number that fits a machine word. */
  ghost predicate NumericHead(head: string) {
    head != "" ==>
      && (forall i :: 0 <= i < |head| ==> '0' <= head[i] <= '9')
      && Number(head) < 0x8000_0000_0000_0000
  }

  ghost predicate NumericVersion(v: string) {
    forall i :: 0 <= i < 3 ==> NumericHead(ComponentAt(v, i).head)
  }

  lemma {:induction false} NumberStep(digits: string, k: nat)
    requires k < |digits| && forall i :: 0 <= i < |digits| ==> '0' <= digits[i] <= '9'
    ensures Number(digits[..k+1]) == Number(digits[..k]) * 10 + (digits[k] - '0') as int
  {
    assert digits[..k+1][..k] == digits[..k];
  }

  lemma {:induction false} PrefixSmaller(digits: string, k: nat)
    requires k <= |digits| && forall i :: 0 <= i < |digits| ==> '0' <= digits[i] <= '9'
    ensures Number(digits[..k]) <= Number(digits)
    decreases |digits| - k
  {
    if k == |digits| {
      assert digits[..k] == digits;
    } else {
      NumberStep(digits, k);
      PrefixSmaller(digits, k + 1);
    }
  }

  lemma {:induction false} WrapSmall(x: int)
    requires 0 <= x < 0x8000_0000_0000_0000
    ensures Wrap64(x) == x
  {
  }

  /** In range the wrapping sum is the number. */
  lemma {:induction false} AtoiIsNumber(digits: string, k: nat)
    requires k <= |digits| && forall i :: 0 <= i < |digits| ==> '0' <= digits[i] <= '9'
    requires Number(digits) < 0x8000_0000_0000_0000
    ensures Number(digits[..k]) < 0x8000_0000_0000_0000
    ensures AtoiFrom(Number(digits[..k]), digits[k..]) == Some(Number(digits))
    decreases |digits| - k
  {
    hide Wrap64, Number;
    PrefixSmaller(digits, k);
    if k == |digits| {
      assert digits[..k] == digits;
    } else {
      NumberStep(digits, k);
      PrefixSmaller(digits, k + 1);
      WrapSmall(Number(digits[..k+1]));
      AtoiIsNumber(digits, k + 1);
      assert digits[k..][0] == digits[k] && digits[k..][1..] == digits[k+1..];
    }
  }

  /** The rank of a numeric head; no head ranks lowest. */
  ghost function HeadRank(head: string): int
    requires NumericHead(head)
  {
    if head == "" then -1 else Number(head)
  }

  lemma {:induction false} HeadsByRank(a: string, b: string)
    requires NumericHead(a) && NumericHead(b)
    ensures CompareNumericOrLex(a, b) ==
            if HeadRank(a) < HeadRank(b) then -1 else if HeadRank(a) > HeadRank(b) then 1 else 0
  {
    if a != "" {
      AtoiIsNumber(a, 0);
      assert a[..0] == "" && a[0..] == a;
    }
    if b != "" {
      AtoiIsNumber(b, 0);
      assert b[..0] == "" && b[0..] == b;
    }
  }

  lemma {:induction false} TailsOrdered(a: string, b: string, c: string)
    ensures CompareTails(a, b) == -CompareTails(b, a)
    ensures CompareTails(a, b) == 0 <==> a == b
    ensures CompareTails(a, b) <= 0 && CompareTails(b, c) <= 0 ==> CompareTails(a, c) <= 0
  {
    LessTotal(a, b);
    LessTotal(b, c);
    LessTotal(a, c);
    if AtMost(a, b) && AtMost(b, c) { AtMostTransitive(a, b, c); }
  }

  predicate IsDigits(s: string) {
    s != "" && forall i :: 0 <= i < |s| ==> '0' <= s[i] <= '9'
  }

  /** A version of three numbers, with or without a suffix after a dash. */
  datatype Release = Release(major: string, minor: string, patch: string, suffix: string)

  ghost predicate IsRelease(r: Release) {
    && IsDigits(r.major) && IsDigits(r.minor) && IsDigits(r.patch)
    && Number(r.major) < 0x8000_0000_0000_0000 && Number(r.minor) < 0x8000_0000_0000_0000
    && Number(r.patch) < 0x8000_0000_0000_0000
    && (r.suffix != "" ==> r.suffix[0] == '-')
  }

  function PrintRelease(r: Release): string {
    r.major + "." + r.minor + "." + r.patch + r.suffix
  }

  lemma {:induction false} DigitsHaveNo(s: string, c: char)
    requires IsDigits(s) && !('0' <= c <= '9')
    ensures c !in s
  {
  }

  lemma {:induction false} DigitComponent(digits: string, suffix: string)
    requires IsDigits(digits) && (suffix != "" ==> suffix[0] == '-')
    ensures ComponentOf(digits + suffix) == Component(digits, suffix)
  {
    hide IndexOf;
    DigitsHaveNo(digits, '-');
    var s := digits + suffix;
    if suffix == "" {
      assert s == digits;
      AbsentNotFound(s, '-');
    } else {
      assert s[..|digits|] == digits && s[|digits|..] == suffix;
      IndexIs(s, '-', |digits|);
    }
  }

  lemma {:induction false} SplitAtDot(head: string, rest: string, n: nat)
    requires IsDigits(head) && n > 1
    ensures SplitN(head + "." + rest, '.', n) == [head] + SplitN(rest, '.', n - 1)
  {
    hide IndexOf;
    DigitsHaveNo(head, '.');
    var s := head + "." + rest;
    assert s[..|head|] == head && s[|head|] == '.' && s[|head|+1..] == rest;
    IndexIs(s, '.', |head|);
  }

  lemma {:induction false} SplitOnce(s: string, c: char)
    ensures SplitN(s, c, 1) == [s]
  {
  }

  lemma {:induction false} ReleaseComponents(r: Release)
    requires IsRelease(r)
    ensures ComponentAt(PrintRelease(r), 0) == Component(r.major, "")
    ensures ComponentAt(PrintRelease(r), 1) == Component(r.minor, "")
    ensures ComponentAt(PrintRelease(r), 2) == Component(r.patch, r.suffix)
  {
    hide ComponentOf, Number, IndexOf, IsDigits, SplitN;
    var last := r.patch + r.suffix;
    var more := r.minor + "." + last;
    assert PrintRelease(r) == r.major + "." + more;
    SplitAtDot(r.major, more, 3);
    SplitAtDot(r.minor, last, 2);
    SplitOnce(last, '.');
    assert SplitN(PrintRelease(r), '.', 3) == [r.major, r.minor, last];
    DigitComponent(r.major, "");
    DigitComponent(r.minor, "");
    DigitComponent(r.patch, r.suffix);
    assert r.major + "" == r.major && r.minor + "" == r.minor;
  }

  function Sign(x: int, y: int): int {
    if x < y then -1 else if x > y then 1 else 0
  }

  /** Releases compare by their three numbers, then by suffix, a release above its
      pre-releases. */
  lemma {:induction false} ReleasesCompareByNumbers(a: Release, b: Release)
    requires IsRelease(a) && IsRelease(b)
    ensures CompareFrom(PrintRelease(a), PrintRelease(b), 0) ==
            if Number(a.major) != Number(b.major) then Sign(Number(a.major), Number(b.major))
            else if Number(a.minor) != Number(b.minor) then Sign(Number(a.minor), Number(b.minor))
            else if Number(a.patch) != Number(b.patch) then Sign(Number(a.patch), Number(b.patch))
            else CompareTails(a.suffix, b.suffix)
  {
    hide CompareNumericOrLex, ComponentAt, Number, PrintRelease, IsDigits;
    ReleaseComponents(a);
    ReleaseComponents(b);
    ReleaseHeads(a);
    ReleaseHeads(b);
    HeadsByRank(a.major, b.major);
    HeadsByRank(a.minor, b.minor);
    HeadsByRank(a.patch, b.patch);
    var x, y := PrintRelease(a), PrintRelease(b);
    assert CompareFrom(x, y, 3) == 0;
    assert CompareFrom(x, y, 2) == CompareComponents(ComponentAt(x, 2), ComponentAt(y, 2));
  }

  lemma {:induction false} ReleaseHeads(r: Release)
    requires IsRelease(r)
    ensures NumericHead(r.major) && NumericHead(r.minor) && NumericHead(r.patch)
    ensures r.major != "" && r.minor != "" && r.patch != ""
    ensures HeadRank(r.major) == Number(r.major) && HeadRank(r.minor) == Number(r.minor)
    ensures HeadRank(r.patch) == Number(r.patch)
  {
  }

  /** Versions of one component without a suffix compare as that component. */
  lemma {:induction false} SingleComponents(a: string, b: string)
    requires '.' !in a && '-' !in a && '.' !in b && '-' !in b
    ensures CompareFrom(a, b, 0) == CompareNumericOrLex(a, b)
  {
    hide CompareNumericOrLex, IndexOf;
    AbsentNotFound(a, '.');
    AbsentNotFound(a, '-');
    AbsentNotFound(b, '.');
    AbsentNotFound(b, '-');
    AbsentNotFound("", '-');
    assert ComponentAt(a, 0) == Component(a, "") && ComponentAt(b, 0) == Component(b, "");
    assert ComponentAt(a, 1) == ComponentAt(b, 1) == Component("", "");
    assert ComponentAt(a, 2) == ComponentAt(b, 2) == Component("", "");
    NoDifference();
    assert CompareFrom(a, b, 3) == 0;
    assert CompareFrom(a, b, 2) == 0;
    assert CompareFrom(a, b, 1) == 0;
  }

  lemma {:induction false} NoDifference()
    ensures CompareNumericOrLex("", "") == 0
  {
  }

  /** Mixed numbers and text: 9 is below 10, 10 below 1a, and 1a below 9. */
  lemma {:induction false} MixedVersionsCycle()
    ensures CompareFrom("9", "10", 0) < 0 && CompareFrom("10", "1a", 0) < 0 && CompareFrom("1a", "9", 0) < 0
  {
    hide CompareFrom;
    SingleComponents("9", "10");
    SingleComponents("10", "1a");
    SingleComponents("1a", "9");
    SmallNumbers();
    assert Less("10", "1a") by { assert "10"[1..] == "0" && "1a"[1..] == "a"; }
    assert Less("1a", "9");
  }

  /** Two numbers in order with a text between them in the order of text, the other way
      around. */
  predicate Crossed(x: string, y: string, t: string) {
    && AtoiSafe(x).Some? && AtoiSafe(y).Some? && AtoiSafe(t).None?
    && AtoiSafe(x).value <= AtoiSafe(y).value && Less(y, t) && Less(t, x)
  }

  predicate Intransitive(a: string, b: string, c: string) {
    CompareNumericOrLex(a, b) <= 0 && CompareNumericOrLex(b, c) <= 0 && CompareNumericOrLex(a, c) > 0
  }

  lemma {:induction false} IntransitiveIsCrossed(a: string, b: string, c: string)
    ensures Intransitive(a, b, c) ==> Crossed(a, b, c) || Crossed(b, c, a) || Crossed(c, a, b)
    ensures Crossed(a, b, c) ==> Intransitive(a, b, c)
    ensures CompareNumericOrLex(a, b) == -CompareNumericOrLex(b, a)
  {
    hide AtoiSafe;
    LessTotal(a, b);
    LessTotal(b, c);
    LessTotal(a, c);
    if AtMost(a, b) && AtMost(b, c) { AtMostTransitive(a, b, c); }
  }

  /** Exactly which heads are ordered: a list of them is totally preordered if and only if no
      text stands between two of its numbers against their order. */
  lemma {:induction false} HeadsOrderedExactly(heads: set<string>)
    ensures (forall a, b, c :: a in heads && b in heads && c in heads ==> !Intransitive(a, b, c))
       <==> (forall x, y, t :: x in heads && y in heads && t in heads ==> !Crossed(x, y, t))
  {
    hide Intransitive, Crossed;
    forall a, b, c | a in heads && b in heads && c in heads
      ensures Intransitive(a, b, c) ==> Crossed(a, b, c) || Crossed(b, c, a) || Crossed(c, a, b)
      ensures Crossed(a, b, c) ==> Intransitive(a, b, c)
    {
      IntransitiveIsCrossed(a, b, c);
    }
  }

  lemma {:induction false} SmallNumbers()
    ensures AtoiSafe("9") == Some(9) && AtoiSafe("10") == Some(10) && AtoiSafe("1a") == None
  {
    assert "9"[1..] == "" && "10"[1..] == "0" && "0"[1..] == "" && "1a"[1..] == "a";
    assert AtoiFrom(0, "9") == AtoiFrom(9, "");
    assert AtoiFrom(0, "10") == AtoiFrom(1, "0") == AtoiFrom(10, "");
    assert AtoiFrom(0, "1a") == AtoiFrom(1, "a") == None;
  }

  // ---- Exactly which versions are ordered ----

  predicate IsNumber(head: string) {
    AtoiSafe(head).Some?
  }

  /** Two numbers and a text: the only heads that can be out of order. */
  predicate Mixed(a: string, b: string, c: string) {
    || (IsNumber(a) && IsNumber(b) && !IsNumber(c))
    || (IsNumber(a) && !IsNumber(b) && IsNumber(c))
    || (!IsNumber(a) && IsNumber(b) && IsNumber(c))
  }

  lemma {:induction false} HeadsOrdered(a: string, b: string, c: string)
    requires !Mixed(a, b, c)
    ensures CompareNumericOrLex(a, b) <= 0 && CompareNumericOrLex(b, c) <= 0 ==> CompareNumericOrLex(a, c) <= 0
  {
    hide AtoiSafe;
    LessTotal(a, b);
    LessTotal(b, c);
    LessTotal(a, c);
    if AtMost(a, b) && AtMost(b, c) { AtMostTransitive(a, b, c); }
  }

  /** A number and a text are never equal. */
  lemma {:induction false} NumberAgainstText(a: string, b: string)
    requires IsNumber(a) != IsNumber(b)
    ensures CompareNumericOrLex(a, b) == if Less(a, b) then -1 else 1
    ensures Less(a, b) != Less(b, a)
  {
    LessTotal(a, b);
  }

  lemma {:induction false} ComponentsSwap(a: Component, b: Component)
    ensures CompareComponents(a, b) == -CompareComponents(b, a)
  {
    IntransitiveIsCrossed(a.head, b.head, a.head);
    TailsOrdered(a.tail, b.tail, a.tail);
  }

  lemma {:induction false} ComponentsOrdered(a: Component, b: Component, c: Component)
    requires !Mixed(a.head, b.head, c.head)
    ensures CompareComponents(a, b) <= 0 && CompareComponents(b, c) <= 0 ==> CompareComponents(a, c) <= 0
    ensures CompareComponents(a, b) <= 0 && CompareComponents(b, c) <= 0 && CompareComponents(a, c) == 0 ==>
              CompareComponents(a, b) == 0 && CompareComponents(b, c) == 0
  {
    hide CompareTails, CompareNumericOrLex, IsNumber;
    HeadsOrdered(a.head, b.head, c.head);
    HeadsOrdered(c.head, a.head, b.head);
    HeadsOrdered(b.head, c.head, a.head);
    IntransitiveIsCrossed(a.head, b.head, c.head);
    IntransitiveIsCrossed(b.head, c.head, a.head);
    IntransitiveIsCrossed(c.head, a.head, b.head);
    TailsOrdered(a.tail, b.tail, c.tail);
    TailsOrdered(b.tail, c.tail, a.tail);
    TailsOrdered(c.tail, a.tail, b.tail);
  }

  lemma {:induction false} CompareSwap(a: string, b: string, i: nat)
    requires i <= 3
    ensures CompareFrom(a, b, i) == -CompareFrom(b, a, i)
    decreases 3 - i
  {
    hide CompareComponents, ComponentAt;
    if i < 3 {
      ComponentsSwap(ComponentAt(a, i), ComponentAt(b, i));
      CompareSwap(a, b, i + 1);
    }
  }

  predicate EqualAt(a: string, b: string, j: nat) {
    CompareComponents(ComponentAt(a, j), ComponentAt(b, j)) == 0
  }

  /** The three agree on the components before i. */
  predicate AgreeBefore(a: string, b: string, c: string, i: nat) {
    forall j :: 0 <= j < i ==> EqualAt(a, b, j) && EqualAt(b, c, j) && EqualAt(a, c, j)
  }

  /** Up to component i nothing decides; there x and y have numbers, and t a text that stands
      above y and below x although x is not above y. */
  predicate CrossedAt(x: string, y: string, t: string, i: nat) {
    && i < 3 && AgreeBefore(x, y, t, i) && CompareFrom(x, y, i) <= 0
    && var a, b, c := ComponentAt(x, i).head, ComponentAt(y, i).head, ComponentAt(t, i).head;
       IsNumber(a) && IsNumber(b) && !IsNumber(c) && Less(b, c) && Less(c, a)
  }

  predicate IntransitiveFrom(a: string, b: string, c: string, i: nat)
    requires i <= 3
  {
    CompareFrom(a, b, i) <= 0 && CompareFrom(b, c, i) <= 0 && CompareFrom(a, c, i) > 0
  }

  lemma {:induction false} SkipEqual(a: string, b: string, k: nat, i: nat)
    requires k <= i <= 3 && forall j :: 0 <= j < i ==> EqualAt(a, b, j)
    ensures CompareFrom(a, b, k) == CompareFrom(a, b, i)
    decreases i - k
  {
    hide CompareComponents, ComponentAt;
    if k < i {
      assert EqualAt(a, b, k);
      SkipEqual(a, b, k + 1, i);
    }
  }

  /** A crossing in a component puts the whole versions out of order. */
  lemma {:induction false} CrossingDisorders(x: string, y: string, t: string, i: nat)
    requires CrossedAt(x, y, t, i)
    ensures IntransitiveFrom(x, y, t, 0)
  {
    hide CompareTails, CompareNumericOrLex, ComponentAt, EqualAt, IsNumber;
    SkipEqual(x, y, 0, i);
    SkipEqual(y, t, 0, i);
    SkipEqual(x, t, 0, i);
    NumberAgainstText(ComponentAt(y, i).head, ComponentAt(t, i).head);
    NumberAgainstText(ComponentAt(x, i).head, ComponentAt(t, i).head);
  }

  predicate CrossedSomehow(a: string, b: string, c: string, i: nat) {
    CrossedAt(a, b, c, i) || CrossedAt(b, c, a, i) || CrossedAt(c, a, b, i)
  }

  /** Where two of three disordered versions have numbers, they are crossed. */
  lemma {:induction false} MixedIsCrossed(a: string, b: string, c: string, i: nat)
    requires i < 3 && AgreeBefore(a, b, c, i) && IntransitiveFrom(a, b, c, i)
    requires Mixed(ComponentAt(a, i).head, ComponentAt(b, i).head, ComponentAt(c, i).head)
    ensures CrossedSomehow(a, b, c, i)
  {
    hide CompareTails, CompareNumericOrLex, ComponentAt, EqualAt, IsNumber, AgreeBefore;
    var x, y, z := ComponentAt(a, i).head, ComponentAt(b, i).head, ComponentAt(c, i).head;
    AgreeTurned(a, b, c, i);
    CompareSwap(a, c, i);
    if IsNumber(x) != IsNumber(y) { NumberAgainstText(x, y); }
    if IsNumber(y) != IsNumber(z) { NumberAgainstText(y, z); }
    if IsNumber(x) != IsNumber(z) { NumberAgainstText(x, z); }
  }

  lemma {:induction false} AgreeTurned(a: string, b: string, c: string, i: nat)
    requires AgreeBefore(a, b, c, i)
    ensures AgreeBefore(b, c, a, i) && AgreeBefore(c, a, b, i)
  {
    hide CompareComponents, ComponentAt;
    forall j | 0 <= j < i ensures EqualAt(b, a, j) && EqualAt(c, a, j) && EqualAt(c, b, j) {
      assert EqualAt(a, b, j);
      ComponentsSwap(ComponentAt(a, j), ComponentAt(b, j));
      ComponentsSwap(ComponentAt(a, j), ComponentAt(c, j));
      ComponentsSwap(ComponentAt(b, j), ComponentAt(c, j));
    }
  }

  /** Where they do not, the next component has to decide. */
  lemma {:induction false} DisorderMovesOn(a: string, b: string, c: string, i: nat)
    requires i < 3 && AgreeBefore(a, b, c, i) && IntransitiveFrom(a, b, c, i)
    requires !Mixed(ComponentAt(a, i).head, ComponentAt(b, i).head, ComponentAt(c, i).head)
    ensures AgreeBefore(a, b, c, i + 1) && IntransitiveFrom(a, b, c, i + 1)
  {
    hide CompareComponents, ComponentAt, Mixed;
    ComponentsOrdered(ComponentAt(a, i), ComponentAt(b, i), ComponentAt(c, i));
  }

  /** Disordered versions are crossed in some component. */
  lemma {:induction false} DisorderIsCrossed(a: string, b: string, c: string, i: nat)
    requires i <= 3 && AgreeBefore(a, b, c, i)
    ensures IntransitiveFrom(a, b, c, i) ==> exists j :: i <= j < 3 && CrossedSomehow(a, b, c, j)
    decreases 3 - i
  {
    hide ComponentAt, Mixed, AgreeBefore, CrossedSomehow;
    if i < 3 && IntransitiveFrom(a, b, c, i) {
      if Mixed(ComponentAt(a, i).head, ComponentAt(b, i).head, ComponentAt(c, i).head) {
        MixedIsCrossed(a, b, c, i);
      } else {
        DisorderMovesOn(a, b, c, i);
        DisorderIsCrossed(a, b, c, i + 1);
      }
    }
  }

  ghost predicate InOrder(versions: set<string>) {
    forall a, b, c :: a in versions && b in versions && c in versions ==> !IntransitiveFrom(a, b, c, 0)
  }

  ghost predicate NoneCrossed(versions: set<string>) {
    forall x, y, t, i :: x in versions && y in versions && t in versions ==> !CrossedAt(x, y, t, i)
  }

  /** Exactly which versions are ordered: comparing is transitive on a set of them if and
      only if no three of it are crossed. */
  lemma {:induction false} VersionsOrderedExactly(versions: set<string>)
    ensures InOrder(versions) <==> NoneCrossed(versions)
  {
    hide IntransitiveFrom, CrossedAt;
    if InOrder(versions) {
      forall x, y, t, i | x in versions && y in versions && t in versions ensures !CrossedAt(x, y, t, i) {
        if CrossedAt(x, y, t, i) { CrossingDisorders(x, y, t, i); }
      }
    }
    if NoneCrossed(versions) {
      forall a, b, c | a in versions && b in versions && c in versions ensures !IntransitiveFrom(a, b, c, 0) {
        DisorderIsCrossed(a, b, c, 0);
      }
    }
  }

  /** Numeric versions are never crossed. */
  lemma {:induction false} NumericNeverCrossed(x: string, y: string, t: string, i: nat)
    requires NumericVersion(t)
    ensures !CrossedAt(x, y, t, i)
  {
    hide ComponentAt, AgreeBefore, CompareFrom;
    if i < 3 {
      var head := ComponentAt(t, i).head;
      assert NumericHead(head);
      if head != "" {
        AtoiIsNumber(head, 0);
        assert head[..0] == "" && head[0..] == head;
      }
    }
  }

  /** So on them the comparison is a total preorder. */
  lemma {:induction false} TotalPreorder(a: string, b: string, c: string)
    requires NumericVersion(a) && NumericVersion(b) && NumericVersion(c)
    ensures CompareFrom(a, b, 0) == -CompareFrom(b, a, 0)
    ensures CompareFrom(a, b, 0) <= 0 && CompareFrom(b, c, 0) <= 0 ==> CompareFrom(a, c, 0) <= 0
  {
    hide CompareFrom, NumericVersion, CrossedAt;
    CompareSwap(a, b, 0);
    forall x, y, t, i | x in {a, b, c} && y in {a, b, c} && t in {a, b, c} ensures !CrossedAt(x, y, t, i) {
      NumericNeverCrossed(x, y, t, i);
    }
    VersionsOrderedExactly({a, b, c});
    assert !IntransitiveFrom(a, b, c, 0);
  }

  // ---- The registry ----

  datatype Entry = Entry(namespace: string, name: string, version: string, deprecated: bool)

  datatype RegistryError = InvalidInput | ToolDuplicate | ToolNotFound

  function Key(e: Entry): string {
    e.namespace + "/" + e.name + "@" + e.version
  }

  predicate Candidate(e: Entry, namespace: string, name: string) {
    e.namespace == namespace && e.name == name && !e.deprecated
  }

  ghost predicate Descending(es: seq<Entry>) {
    forall i, j :: 0 <= i < j < |es| ==> CompareFrom(es[i].version, es[j].version, 0) >= 0
  }

  function VersionsOf(es: seq<Entry>): set<string> {
    set e | e in es :: e.version
  }

  function InsertEntry(e: Entry, es: seq<Entry>): seq<Entry> {
    if es == [] then [e]
    else if CompareFrom(e.version, es[0].version, 0) > 0 then [e] + es
    else [es[0]] + InsertEntry(e, es[1..])
  }

  /** `sort.Slice` by version, highest first. */
  function SortEntries(es: seq<Entry>): seq<Entry> {
    if es == [] then [] else InsertEntry(es[0], SortEntries(es[1..]))
  }

  lemma {:induction false} InsertKeeps(e: Entry, es: seq<Entry>)
    ensures multiset(InsertEntry(e, es)) == multiset(es) + multiset{e}
    decreases |es|
  {
    hide CompareFrom;
    if es != [] {
      assert es == [es[0]] + es[1..];
      InsertKeeps(e, es[1..]);
    }
  }

  lemma {:induction false} SortKeeps(es: seq<Entry>)
    ensures multiset(SortEntries(es)) == multiset(es)
    decreases |es|
  {
    hide CompareFrom, InsertEntry;
    if es != [] {
      assert es == [es[0]] + es[1..];
      SortKeeps(es[1..]);
      InsertKeeps(es[0], SortEntries(es[1..]));
    }
  }

  /** What is above the head is above every entry. */
  lemma {:induction false} AboveAll(e: Entry, es: seq<Entry>, versions: set<string>)
    requires Descending(es) && es != [] && InOrder(versions) && e.version in versions && VersionsOf(es) <= versions
    requires CompareFrom(e.version, es[0].version, 0) > 0
    ensures Descending([e] + es)
  {
    hide CompareFrom;
    forall j | 0 <= j < |es| ensures CompareFrom(e.version, es[j].version, 0) >= 0 {
      assert es[j].version in versions && es[0].version in versions;
      assert !IntransitiveFrom(es[j].version, es[0].version, e.version, 0);
      CompareSwap(es[j].version, es[0].version, 0);
      CompareSwap(e.version, es[0].version, 0);
      CompareSwap(es[j].version, e.version, 0);
      SelfEqual(es[0].version);
    }
  }

  lemma {:induction false} HeadOfDescending(es: seq<Entry>)
    requires Descending(es) && es != []
    ensures Descending(es[1..]) && forall x :: x in es[1..] ==> CompareFrom(es[0].version, x.version, 0) >= 0
  {
    hide CompareFrom;
  }

  lemma {:induction false} HeadOnTop(x: Entry, rest: seq<Entry>)
    requires Descending(rest) && forall y :: y in rest ==> CompareFrom(x.version, y.version, 0) >= 0
    ensures Descending([x] + rest)
  {
    hide CompareFrom;
  }

  lemma {:induction false} InsertDescending(e: Entry, es: seq<Entry>, versions: set<string>)
    requires Descending(es) && InOrder(versions) && e.version in versions && VersionsOf(es) <= versions
    ensures Descending(InsertEntry(e, es))
    decreases |es|
  {
    hide CompareFrom, Descending, InOrder;
    if es == [] {
      SingleDescending(e);
    } else if CompareFrom(e.version, es[0].version, 0) > 0 {
      AboveAll(e, es, versions);
    } else {
      CompareSwap(e.version, es[0].version, 0);
      HeadOfDescending(es);
      InsertDescending(e, es[1..], versions);
      InsertKeeps(e, es[1..]);
      var rest := InsertEntry(e, es[1..]);
      forall y | y in rest ensures CompareFrom(es[0].version, y.version, 0) >= 0 {
        assert y in multiset(rest);
        assert y == e || y in multiset(es[1..]);
      }
      HeadOnTop(es[0], rest);
    }
  }

  lemma {:induction false} SingleDescending(e: Entry)
    ensures Descending([e])
  {
  }

  lemma {:induction false} SelfEqual(v: string)
    ensures CompareFrom(v, v, 0) == 0
  {
    assert CompareFrom(v, v, 3) == 0;
    assert CompareFrom(v, v, 2) == 0;
    assert CompareFrom(v, v, 1) == 0;
  }

  lemma {:induction false} SortDescending(es: seq<Entry>, versions: set<string>)
    requires InOrder(versions) && VersionsOf(es) <= versions
    ensures Descending(SortEntries(es))
    decreases |es|
  {
    hide CompareFrom, InOrder, Descending, InsertEntry;
    if es == [] {
      EmptyDescending();
    } else {
      assert es[0].version in VersionsOf(es);
      SortDescending(es[1..], versions);
      SortKeeps(es[1..]);
      SameVersions(SortEntries(es[1..]), es[1..]);
      InsertDescending(es[0], SortEntries(es[1..]), versions);
    }
  }

  lemma {:induction false} EmptyDescending()
    ensures Descending([])
  {
  }

  lemma {:induction false} SameVersions(a: seq<Entry>, b: seq<Entry>)
    requires multiset(a) == multiset(b)
    ensures VersionsOf(a) == VersionsOf(b)
  {
    forall e ensures e in a <==> e in b {
      assert e in multiset(a) <==> e in multiset(b);
    }
  }

  class ToolRegistry {
    var entries: map<string, Entry>

    ghost predicate Valid()
      reads this
    {
      forall k :: k in entries ==> k == Key(entries[k])
    }

    constructor ()
      ensures Valid() && entries == map[]
    {
      entries := map[];
    }

    method Upsert(e: Entry) returns (err: Option<RegistryError>)
      requires Valid()
      modifies this
      ensures Valid()
      ensures err == if e.namespace == "" || e.name == "" || e.version == "" then Some(InvalidInput)
                     else if Key(e) in old(entries) then Some(ToolDuplicate)
                     else None
      ensures entries == if err == None then old(entries)[Key(e) := e] else old(entries)
    {
      if e.namespace == "" || e.name == "" || e.version == "" {
        return Some(InvalidInput);
      }
      if Key(e) in entries {
        return Some(ToolDuplicate);
      }
      entries := entries[Key(e) := e];
      return None;
    }

    method Deprecate(qualifiedName: string) returns (err: Option<RegistryError>)
      requires Valid()
      modifies this
      ensures Valid()
      ensures err == if qualifiedName in old(entries) then None else Some(ToolNotFound)
      ensures entries == if err.Some? then old(entries)
                         else old(entries)[qualifiedName := old(entries)[qualifiedName].(deprecated := true)]
    {
      if qualifiedName !in entries {
        return Some(ToolNotFound);
      }
      entries := entries[qualifiedName := entries[qualifiedName].(deprecated := true)];
      return None;
    }

    /** `Latest`: a highest version among the entries that are not deprecated, provided
        that no three of their versions are crossed. */
    method Latest(namespace: string, name: string) returns (r: Result<Entry, RegistryError>)
      requires Valid()
      ensures IsLatest(namespace, name, r)
    {
      hide CompareFrom, NoneCrossed;
      var candidates: seq<Entry> := [];
      var pending := entries.Keys;
      while pending != {}
        invariant pending <= entries.Keys
        invariant forall k :: k in entries && k !in pending && Candidate(entries[k], namespace, name) ==>
                    entries[k] in candidates
        invariant forall e :: e in candidates ==>
                    Candidate(e, namespace, name) && exists k :: k in entries && entries[k] == e
      {
        var k :| k in pending;
        pending := pending - {k};
        if Candidate(entries[k], namespace, name) {
          candidates := candidates + [entries[k]];
        }
      }
      if candidates == [] {
        return Err(ToolNotFound);
      }
      assert candidates[0] in candidates;
      var sorted := SortEntries(candidates);
      HighestFirst(candidates);
      assert VersionsOf(candidates) == LiveVersions(namespace, name);
      return Ok(sorted[0]);
    }

    /** What `Latest` may answer. */
    ghost predicate IsLatest(namespace: string, name: string, r: Result<Entry, RegistryError>)
      reads this
    {
      match r
      case Err(e) => e == ToolNotFound && forall k :: k in entries ==> !Candidate(entries[k], namespace, name)
      case Ok(e) =>
        && e in entries.Values && Candidate(e, namespace, name)
        && (NoneCrossed(LiveVersions(namespace, name)) ==>
              forall v :: v in LiveVersions(namespace, name) ==> CompareFrom(e.version, v, 0) >= 0)
    }

    ghost function LiveVersions(namespace: string, name: string): set<string>
      reads this
    {
      set k | k in entries && Candidate(entries[k], namespace, name) :: entries[k].version
    }

    /** `Get`: a versioned name finds exactly the entry filed under it, deprecated or not; a
        name without version finds what `Latest` finds. */
    method Get(qualifiedName: string) returns (r: Result<Entry, RegistryError>)
      requires Valid()
      ensures match SplitQualifiedName(qualifiedName)
              case None => r == Err(InvalidInput)
              case Some(q) =>
                if q.version == "" then IsLatest(q.namespace, q.name, r)
                else if qualifiedName in entries then r == Ok(entries[qualifiedName]) && Key(r.value) == qualifiedName
                else r == Err(ToolNotFound)
    {
      hide PrintName, SplitQualifiedName, WellFormed, CompareFrom, NoneCrossed;
      var q := SplitQualifiedName(qualifiedName);
      if q.None? {
        return Err(InvalidInput);
      }
      if q.value.version != "" {
        var key := q.value.namespace + "/" + q.value.name + "@" + q.value.version;
        SplitPrints(qualifiedName);
        VersionedName(q.value);
        if key !in entries {
          return Err(ToolNotFound);
        }
        return Ok(entries[key]);
      }
      r := Latest(q.value.namespace, q.value.name);
    }
  }

  lemma {:induction false} HighestFirst(candidates: seq<Entry>)
    requires candidates != []
    ensures SortEntries(candidates) != [] && SortEntries(candidates)[0] in candidates
    ensures NoneCrossed(VersionsOf(candidates)) ==>
      forall v :: v in VersionsOf(candidates) ==> CompareFrom(SortEntries(candidates)[0].version, v, 0) >= 0
  {
    hide CompareFrom, NoneCrossed, InOrder, SortEntries;
    var sorted := SortEntries(candidates);
    SortKeeps(candidates);
    assert |multiset(sorted)| == |multiset(candidates)|;
    assert sorted[0] in multiset(candidates);
    if NoneCrossed(VersionsOf(candidates)) {
      VersionsOrderedExactly(VersionsOf(candidates));
      SortDescending(candidates, VersionsOf(candidates));
      forall e | e in candidates ensures CompareFrom(sorted[0].version, e.version, 0) >= 0 {
        assert e in multiset(sorted);
        var j :| 0 <= j < |sorted| && sorted[j] == e;
        if j == 0 { SelfEqual(e.version); }
      }
    }
  }
}
