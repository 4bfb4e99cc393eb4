/** The order Go puts on strings, and sorting by it.
    `sort.Strings`, and `sort.Slice` over distinct IDs, return the one sorted
    arrangement of their input; that is what makes the executor's rounds and the
    canonical JSON independent of the order in which a Go map is walked. */
module Order {
  predicate Less(a: string, b: string) {
    if b == [] then false
    else if a == [] then true
    else a[0] < b[0] || (a[0] == b[0] && Less(a[1..], b[1..]))
  }

  predicate AtMost(a: string, b: string) {
    !Less(b, a)
  }

  lemma {:induction false} LessTotal(a: string, b: string)
    ensures Less(a, b) || Less(b, a) || a == b
    ensures !(Less(a, b) && Less(b, a))
    decreases |a|
  {
    if a != [] && b != [] {
      LessTotal(a[1..], b[1..]);
      if a[0] == b[0] && a[1..] == b[1..] {
        assert a == [a[0]] + a[1..] == b;
      }
    }
  }

  lemma {:induction false} AtMostTransitive(a: string, b: string, c: string)
    requires AtMost(a, b) && AtMost(b, c)
    ensures AtMost(a, c)
    decreases |a|
  {
    if a != [] && b != [] && c != [] && c[0] == a[0] {
      AtMostTransitive(a[1..], b[1..], c[1..]);
    }
  }

  ghost predicate Sorted(s: seq<string>) {
    forall i, j :: 0 <= i < j < |s| ==> AtMost(s[i], s[j])
  }

  function Insert(x: string, s: seq<string>): (r: seq<string>)
    requires Sorted(s)
    ensures Sorted(r) && multiset(r) == multiset(s) + multiset{x}
  {
    if s == [] then [x]
    else if !Less(s[0], x) then
      assert AtMost(x, s[0]);
      assert forall j :: 0 <= j < |s| ==> AtMost(x, s[j]) by {
        forall j | 0 <= j < |s| ensures AtMost(x, s[j]) {
          if j > 0 { AtMostTransitive(x, s[0], s[j]); }
        }
      }
      [x] + s
    else
      var rest := Insert(x, s[1..]);
      assert s == [s[0]] + s[1..];
      assert AtMost(s[0], x) by { LessTotal(s[0], x); }
      assert forall y :: y in rest ==> AtMost(s[0], y) by {
        forall y | y in rest ensures AtMost(s[0], y) {
          assert y in multiset(rest);
          if y != x { assert y in multiset(s[1..]); assert y in s[1..]; }
        }
      }
      [s[0]] + rest
  }

  /** `sort.Strings`. */
  function Sort(s: seq<string>): (r: seq<string>)
    ensures Sorted(r) && multiset(r) == multiset(s)
  {
    if s == [] then []
    else
      assert s == [s[0]] + s[1..];
      Insert(s[0], Sort(s[1..]))
  }

  lemma {:induction false} SortedHead(a: seq<string>, b: seq<string>)
    requires Sorted(a) && Sorted(b) && a != [] && b != [] && multiset(a) == multiset(b)
    ensures a[0] == b[0]
  {
    assert a[0] in multiset(b) && b[0] in multiset(a);
    var i :| 0 <= i < |b| && b[i] == a[0];
    var j :| 0 <= j < |a| && a[j] == b[0];
    LessTotal(a[0], b[0]);
  }

  lemma {:induction false} TailMultiset(a: seq<string>)
    requires a != []
    ensures multiset(a[1..]) == multiset(a) - multiset{a[0]}
  {
    assert a == [a[0]] + a[1..];
  }

  /** A multiset of strings has one sorted arrangement. */
  lemma {:induction false} SortedUnique(a: seq<string>, b: seq<string>)
    requires Sorted(a) && Sorted(b) && multiset(a) == multiset(b)
    ensures a == b
    decreases |a|
  {
    assert |a| == |multiset(a)| == |multiset(b)| == |b|;
    if a != [] {
      SortedHead(a, b);
      TailMultiset(a);
      TailMultiset(b);
      SortedUnique(a[1..], b[1..]);
      assert a == [a[0]] + a[1..] && b == [b[0]] + b[1..];
    }
  }

  lemma {:induction false} SortCanonical(a: seq<string>, b: seq<string>)
    ensures Sort(a) == Sort(b) <==> multiset(a) == multiset(b)
  {
    if multiset(a) == multiset(b) { SortedUnique(Sort(a), Sort(b)); }
  }

  // ---- Walking a Go map: the keys come in some order, each once ----

  ghost predicate Enumerates<T>(s: seq<T>, keys: set<T>) {
    multiset(s) == multiset(keys)
  }

  ghost predicate NoRepeats<T>(s: seq<T>) {
    forall i, j :: 0 <= i < j < |s| ==> s[i] != s[j]
  }

  lemma {:induction false} NoRepeatsTail<T>(s: seq<T>)
    requires NoRepeats(s) && s != []
    ensures NoRepeats(s[1..]) && s[0] !in s[1..]
  {
    forall i | 0 <= i < |s[1..]| ensures s[1..][i] != s[0] {
      assert s[1..][i] == s[i+1];
    }
  }

  /** A list without repeats enumerates the set of its members. */
  lemma {:induction false} MembersEnumerated<T>(s: seq<T>, keys: set<T>)
    requires NoRepeats(s)
    requires forall x :: x in s <==> x in keys
    ensures Enumerates(s, keys)
    decreases |s|
  {
    hide NoRepeats;
    if s == [] {
      assert keys == {};
    } else {
      assert s == [s[0]] + s[1..];
      NoRepeatsTail(s);
      MembersEnumerated(s[1..], keys - {s[0]});
      assert keys == (keys - {s[0]}) + {s[0]};
    }
  }

  ghost function AnyOrder(keys: set<string>): (s: seq<string>)
    ensures Enumerates(s, keys)
  {
    if keys == {} then []
    else
      var k :| k in keys;
      assert keys == {k} + (keys - {k});
      [k] + AnyOrder(keys - {k})
  }

  /** The keys of a map, gathered in any order and sorted. */
  ghost function SortedKeys(keys: set<string>): (s: seq<string>)
    ensures Sorted(s) && Enumerates(s, keys)
  {
    Sort(AnyOrder(keys))
  }

  lemma {:induction false} SortForgetsOrder(s: seq<string>, keys: set<string>)
    requires Enumerates(s, keys)
    ensures Sort(s) == SortedKeys(keys)
  {
    SortCanonical(s, AnyOrder(keys));
  }

  lemma {:induction false} TwoOccurrences<T>(s: seq<T>, i: nat, j: nat)
    requires i < j < |s|
    ensures s[i] == s[j] ==> multiset(s)[s[i]] >= 2
  {
    assert s == s[..i] + [s[i]] + s[i+1..j] + [s[j]] + s[j+1..];
  }

  lemma {:induction false} EnumerationMembers<T>(s: seq<T>, keys: set<T>)
    requires Enumerates(s, keys)
    ensures forall x :: x in s <==> x in keys
    ensures |s| == |keys|
    ensures NoRepeats(s)
  {
    forall x ensures x in s <==> x in keys {
      assert x in s <==> x in multiset(s);
    }
    assert |multiset(s)| == |s|;
    forall i, j | 0 <= i < j < |s| ensures s[i] != s[j] {
      TwoOccurrences(s, i, j);
      assert multiset(keys)[s[i]] <= 1;
    }
  }
}
