/** Laws of the step semantics: consumption partitions the queues, a round is
    serialisable, markings stay well typed, terminal places never lose a token, and
    the mode tells where human tokens are. */
module NetLaws {
  import opened Wrappers
  import opened Order
  import opened Net

  // ---- Consumption partitions the tokens ----

  function TakenFrom(taken: seq<Taken>, p: string): seq<Token> {
    if taken == [] then []
    else (if taken[0].place == p then [taken[0].token] else []) + TakenFrom(taken[1..], p)
  }

  /** The tokens a batch took from one place, in firing order. */
  function BatchTakenFrom(firings: seq<Firing>, p: string): seq<Token> {
    if firings == [] then []
    else TakenFrom(firings[0].taken, p) + BatchTakenFrom(firings[1..], p)
  }

  function PlacesOf(taken: seq<Taken>): seq<string> {
    seq(|taken|, i requires 0 <= i < |taken| => taken[i].place)
  }

  lemma {:induction false} ConsumeKeys(m: Marking, places: seq<string>)
    ensures Consume(m, places).rest.Keys == m.Keys
    decreases |places|
  {
    if places == [] {
    } else if places[0] in m && m[places[0]] != [] {
      ConsumeKeys(m[places[0] := m[places[0]][1..]], places[1..]);
    } else {
      ConsumeKeys(m, places[1..]);
    }
  }

  lemma {:induction false} ConsumePartition(m: Marking, places: seq<string>, p: string)
    requires p in m
    ensures p in Consume(m, places).rest
    ensures m[p] == TakenFrom(Consume(m, places).taken, p) + Consume(m, places).rest[p]
    decreases |places|
  {
    if places == [] {
    } else if places[0] in m && m[places[0]] != [] {
      var m1 := m[places[0] := m[places[0]][1..]];
      ConsumePartition(m1, places[1..], p);
      var c := Consume(m1, places[1..]);
      var taken := [Taken(places[0], m[places[0]][0])] + c.taken;
      assert taken[1..] == c.taken;
      if places[0] == p {
        assert m[p] == [m[p][0]] + m[p][1..];
      }
    } else {
      ConsumePartition(m, places[1..], p);
    }
  }

  lemma {:induction false} BatchPartition(net: Net, mode: Mode, m: Marking, order: seq<string>, p: string)
    requires p in m
    ensures var b := TakeBatch(net, mode, m, order);
            p in b.rest && m[p] == BatchTakenFrom(b.firings, p) + b.rest[p]
    decreases |order|
  {
    if order == [] {
    } else if Firable(net, mode, m, order[0]) {
      var t := net.transitions[order[0]];
      var c := Consume(m, t.inputs);
      ConsumePartition(m, t.inputs, p);
      BatchPartition(net, mode, c.rest, order[1..], p);
      var b := TakeBatch(net, mode, c.rest, order[1..]);
      var firings := [Firing(t, c.taken)] + b.firings;
      assert firings[1..] == b.firings;
    } else {
      BatchPartition(net, mode, m, order[1..], p);
    }
  }

  /** A firing gets one token for each of its input arcs exactly when every input
      place queues at least as many tokens as it has arcs to the transition.  The
      enabling test only asks for one, so a repeated input place can come up short. */
  lemma {:induction false} ConsumeServesEveryArc(m: Marking, places: seq<string>)
    ensures PlacesOf(Consume(m, places).taken) == places
       <==> forall p :: p in places ==> p in m && multiset(places)[p] <= |m[p]|
    ensures |Consume(m, places).taken| <= |places|
    ensures |Consume(m, places).taken| == |places| <==> PlacesOf(Consume(m, places).taken) == places
    decreases |places|
  {
    if places != [] {
      var p0, rest := places[0], places[1..];
      assert places == [p0] + rest;
      assert multiset(places) == multiset{p0} + multiset(rest);
      if p0 in m && m[p0] != [] {
        var m1 := m[p0 := m[p0][1..]];
        ConsumeServesEveryArc(m1, rest);
        var c := Consume(m1, rest);
        var taken := [Taken(p0, m[p0][0])] + c.taken;
        assert PlacesOf(taken) == [p0] + PlacesOf(c.taken);
        assert PlacesOf(taken) == places <==> PlacesOf(c.taken) == rest by {
          assert PlacesOf(taken)[1..] == PlacesOf(c.taken);
        }
        if forall p :: p in rest ==> p in m1 && multiset(rest)[p] <= |m1[p]| {
          forall p | p in places ensures p in m && multiset(places)[p] <= |m[p]| {
            if p in rest {
              assert p in m1 && multiset(rest)[p] <= |m1[p]|;
            } else {
              assert p == p0 && multiset(rest)[p0] == 0;
            }
          }
        }
        if forall p :: p in places ==> p in m && multiset(places)[p] <= |m[p]| {
          forall p | p in rest ensures p in m1 && multiset(rest)[p] <= |m1[p]| {
            assert p in places;
          }
        }
      } else {
        ConsumeServesEveryArc(m, rest);
        assert p0 in places && multiset(places)[p0] > 0;
      }
    }
  }

  /** A place entered twice with one token: enabled, and one token for two arcs. */
  lemma {:induction false} TwiceEnteredShort(p: string, tok: Token)
    ensures Marked(map[p := [tok]], [p, p])
    ensures Consume(map[p := [tok]], [p, p]).taken == [Taken(p, tok)]
  {
    var m := map[p := [tok]];
    var m1 := m[p := m[p][1..]];
    assert [p, p][1..] == [p] && [p][1..] == [];
    assert Consume(m1, []).taken == [];
    assert Consume(m1, [p]).taken == [];
  }

  /** With distinct inputs, a firing gets the head of each input place in input order. */
  lemma {:induction false} ConsumeHeads(m: Marking, places: seq<string>)
    requires NoRepeats(places) && Marked(m, places)
    ensures var c := Consume(m, places);
            && |c.taken| == |places|
            && (forall k :: 0 <= k < |places| ==> c.taken[k] == Taken(places[k], m[places[k]][0]))
            && c.rest.Keys == m.Keys
            && (forall p :: p in m ==> c.rest[p] == if p in places then m[p][1..] else m[p])
    decreases |places|
  {
    if places != [] {
      assert places[0] in m && m[places[0]] != [];
      var m1 := m[places[0] := m[places[0]][1..]];
      forall p | p in places[1..] ensures p in m1 && m1[p] == m[p] && m1[p] != [] {
        assert p in places;
      }
      ConsumeHeads(m1, places[1..]);
      var c1 := Consume(m1, places[1..]);
      var c := Consume(m, places);
      forall k | 0 <= k < |places| ensures c.taken[k] == Taken(places[k], m[places[k]][0]) {
        if k > 0 {
          assert places[1..][k-1] == places[k];
          assert places[k] in places[1..];
        }
      }
      forall p | p in m ensures c.rest[p] == if p in places then m[p][1..] else m[p] {
        assert p in places <==> p == places[0] || p in places[1..];
      }
    }
  }

  // ---- Deposits ----

  lemma {:induction false} PutAllQueues(m: Marking, ds: seq<Deposit>)
    ensures PutAll(m, ds).Keys == m.Keys
    ensures forall p :: p in m ==> PutAll(m, ds)[p] == m[p] + Sent(ds, p)
    decreases |ds|
  {
    if ds != [] {
      PutAllQueues(Put(m, ds[0]), ds[1..]);
    }
  }

  lemma {:induction false} PutAllAppend(m: Marking, a: seq<Deposit>, b: seq<Deposit>)
    ensures PutAll(m, a + b) == PutAll(PutAll(m, a), b)
    decreases |a|
  {
    if a == [] {
      assert a + b == b;
    } else {
      assert (a + b)[1..] == a[1..] + b;
      PutAllAppend(Put(m, a[0]), a[1..], b);
    }
  }

  lemma {:induction false} SentCount(ds: seq<Deposit>, p: string, tok: Token)
    ensures multiset(Sent(ds, p))[tok] == multiset(ds)[Deposit(p, tok)]
    decreases |ds|
  {
    if ds != [] {
      SentCount(ds[1..], p, tok);
      assert ds == [ds[0]] + ds[1..];
      var head := if ds[0].place == p then [ds[0].token] else [];
      assert multiset(head + Sent(ds[1..], p)) == multiset(head) + multiset(Sent(ds[1..], p));
    }
  }

  /** The order in which concurrent firings deposit only permutes each queue's new tail. */
  lemma {:induction false} DepositOrderIrrelevant(m: Marking, a: seq<Deposit>, b: seq<Deposit>, p: string)
    requires multiset(a) == multiset(b) && p in m
    ensures p in PutAll(m, a) && p in PutAll(m, b)
    ensures m[p] <= PutAll(m, a)[p] && m[p] <= PutAll(m, b)[p]
    ensures multiset(PutAll(m, a)[p]) == multiset(PutAll(m, b)[p])
  {
    PutAllQueues(m, a);
    PutAllQueues(m, b);
    assert multiset(Sent(a, p)) == multiset(Sent(b, p)) by {
      forall tok ensures multiset(Sent(a, p))[tok] == multiset(Sent(b, p))[tok] {
        SentCount(a, p, tok);
        SentCount(b, p, tok);
      }
    }
  }

  // ---- Serialisability ----

  /** `t` is `s` with tokens inserted. */
  ghost predicate Within(s: seq<Token>, t: seq<Token>)
    decreases |t|
  {
    || s == []
    || (t != [] && ((s[0] == t[0] && Within(s[1..], t[1..])) || Within(s, t[1..])))
  }

  /** A guard that extra tokens cannot turn off. */
  ghost predicate Monotone(g: Guard) {
    forall s, t :: Within(s, t) && g(s) ==> g(t)
  }

  lemma {:induction false} WithinMembers(s: seq<Token>, t: seq<Token>, tok: Token)
    requires Within(s, t) && tok in s
    ensures tok in t
    decreases |t|
  {
    if s[0] == t[0] && Within(s[1..], t[1..]) {
      if tok != s[0] { WithinMembers(s[1..], t[1..], tok); }
    } else {
      WithinMembers(s, t[1..], tok);
    }
  }

  lemma {:induction false} WithinAfter(x: seq<Token>, s: seq<Token>, t: seq<Token>)
    requires Within(s, t)
    ensures Within(s, x + t)
    decreases |x|
  {
    if x == [] {
      assert x + t == t;
    } else {
      WithinAfter(x[1..], s, t);
      assert (x + t)[1..] == x[1..] + t;
    }
  }

  lemma {:induction false} WithinPrepend(a: seq<Token>, s: seq<Token>, t: seq<Token>)
    requires Within(s, t)
    ensures Within(a + s, a + t)
    decreases |a|
  {
    if a == [] {
      assert a + s == s && a + t == t;
    } else {
      WithinPrepend(a[1..], s, t);
      assert (a + s)[1..] == a[1..] + s && (a + t)[1..] == a[1..] + t;
    }
  }

  lemma {:induction false} CentaurianMonotone(s: seq<Token>, t: seq<Token>)
    requires Within(s, t) && CentaurianGuard(s)
    ensures CentaurianGuard(t)
  {
    var h :| h in s && h.IsHumanOrigin();
    var a :| a in s && !a.IsHumanOrigin();
    WithinMembers(s, t, h);
    WithinMembers(s, t, a);
  }

  /** Queues that only grow at the tail still contain, in order, what they queued before. */
  lemma {:induction false} QueuedWithin(m: Marking, m': Marking, places: seq<string>)
    requires m'.Keys == m.Keys && forall p :: p in m ==> m[p] <= m'[p]
    ensures Within(Queued(m, places), Queued(m', places))
    decreases |places|
  {
    if places != [] {
      QueuedWithin(m, m', places[1..]);
      if places[0] in m {
        var q, q' := m[places[0]], m'[places[0]];
        assert q' == q + q'[|q|..];
        WithinAfter(q'[|q|..], Queued(m, places[1..]), Queued(m', places[1..]));
        WithinPrepend(q, Queued(m, places[1..]), q'[|q|..] + Queued(m', places[1..]));
        assert q + (q'[|q|..] + Queued(m', places[1..])) == q' + Queued(m', places[1..]);
      } else {
        assert [] + Queued(m, places[1..]) == Queued(m, places[1..]);
        assert [] + Queued(m', places[1..]) == Queued(m', places[1..]);
      }
    }
  }

  ghost predicate MonotoneNet(net: Net) {
    forall id :: id in net.transitions ==>
      && NoRepeats(net.transitions[id].inputs)
      && (net.transitions[id].guard.Some? ==> Monotone(net.transitions[id].guard.value))
  }

  lemma {:induction false} EnabledSurvivesDeposits(net: Net, mode: Mode, m: Marking, id: string, ds: seq<Deposit>)
    requires MonotoneNet(net) && Firable(net, mode, m, id)
    ensures Firable(net, mode, PutAll(m, ds), id)
  {
    var t, m' := net.transitions[id], PutAll(m, ds);
    PutAllQueues(m, ds);
    QueuedWithin(m, m', t.inputs);
    var s, s' := Queued(m, t.inputs), Queued(m', t.inputs);
    if NeedsBothOrigins(net, mode, t) { CentaurianMonotone(s, s'); }
    forall p | p in t.inputs ensures p in m' && m'[p] != [] {
      assert p in m && m[p] != [];
    }
  }

  lemma {:induction false} MarkedSurvives(m: Marking, places: seq<string>, ds: seq<Deposit>)
    requires Marked(m, places)
    ensures Marked(PutAll(m, ds), places)
    ensures forall p :: p in places ==> PutAll(m, ds)[p][0] == m[p][0]
    ensures forall p :: p in places ==> PutAll(m, ds)[p][1..] == m[p][1..] + Sent(ds, p)
  {
    PutAllQueues(m, ds);
    forall p | p in places
      ensures p in PutAll(m, ds) && PutAll(m, ds)[p] != [] && PutAll(m, ds)[p][0] == m[p][0]
      ensures PutAll(m, ds)[p][1..] == m[p][1..] + Sent(ds, p)
    {
      assert p in m && m[p] != [];
    }
  }

  lemma {:induction false} ConsumeSameTokens(m: Marking, places: seq<string>, ds: seq<Deposit>)
    requires NoRepeats(places) && Marked(m, places)
    ensures Consume(PutAll(m, ds), places).taken == Consume(m, places).taken
  {
    MarkedSurvives(m, places, ds);
    ConsumeHeads(m, places);
    ConsumeHeads(PutAll(m, ds), places);
    var a, b := Consume(PutAll(m, ds), places).taken, Consume(m, places).taken;
    forall k | 0 <= k < |places| ensures a[k] == b[k] {
      assert places[k] in places;
    }
  }

  lemma {:induction false} ConsumeCommutes(m: Marking, places: seq<string>, ds: seq<Deposit>)
    requires NoRepeats(places) && Marked(m, places)
    ensures Consume(PutAll(m, ds), places).rest == PutAll(Consume(m, places).rest, ds)
  {
    var m', c := PutAll(m, ds), Consume(m, places);
    MarkedSurvives(m, places, ds);
    PutAllQueues(m, ds);
    ConsumeHeads(m, places);
    ConsumeHeads(m', places);
    PutAllQueues(c.rest, ds);
    var lhs, rhs := Consume(m', places).rest, PutAll(c.rest, ds);
    forall p | p in m ensures lhs[p] == rhs[p] {
      if p in places {
        assert lhs[p] == m'[p][1..];
      } else {
        assert lhs[p] == m'[p];
      }
    }
  }

  /** One firing at a time: check, consume, deposit, then the next. */
  datatype Serial = Stuck | Done(m: Marking, taken: seq<seq<Taken>>)

  ghost function FireSerially(net: Net, mode: Mode, m: Marking, ids: seq<string>, outs: seq<Outcome>): Serial
    requires |ids| == |outs|
    decreases |ids|
  {
    if ids == [] then Done(m, [])
    else if !Firable(net, mode, m, ids[0]) then Stuck
    else
      var c := Consume(m, net.transitions[ids[0]].inputs);
      match FireSerially(net, mode, PutAll(c.rest, outs[0].deposits), ids[1..], outs[1..])
      case Stuck => Stuck
      case Done(m', taken) => Done(m', [c.taken] + taken)
  }

  /** The ids that the batch kept after the re-check, in order. */
  ghost function BatchIds(net: Net, mode: Mode, m: Marking, order: seq<string>): (ids: seq<string>)
    ensures |ids| == |TakeBatch(net, mode, m, order).firings|
    ensures forall i :: 0 <= i < |ids| ==>
              && ids[i] in net.transitions && ids[i] in order
              && TakeBatch(net, mode, m, order).firings[i].transition == net.transitions[ids[i]]
    decreases |order|
  {
    if order == [] then []
    else if Firable(net, mode, m, order[0]) then
      [order[0]] + BatchIds(net, mode, Consume(m, net.transitions[order[0]].inputs).rest, order[1..])
    else BatchIds(net, mode, m, order[1..])
  }

  function TakenOf(firings: seq<Firing>): seq<seq<Taken>> {
    seq(|firings|, i requires 0 <= i < |firings| => firings[i].taken)
  }

  /** Serial firing, once `ahead` has been deposited, reaches the batch's marking with
      `ahead` and its own deposits on top, and hands out the batch's tokens. */
  ghost predicate AgreesWithBatch(net: Net, mode: Mode, m: Marking, order: seq<string>,
                                  outs: seq<Outcome>, ahead: seq<Deposit>)
  {
    var b := TakeBatch(net, mode, m, order);
    && |outs| == |b.firings|
    && FireSerially(net, mode, PutAll(m, ahead), BatchIds(net, mode, m, order), outs)
       == Done(PutAll(b.rest, ahead + AllDeposits(outs)), TakenOf(b.firings))
  }

  lemma {:induction false} SerialAhead(net: Net, mode: Mode, m: Marking, order: seq<string>,
                                       outs: seq<Outcome>, ahead: seq<Deposit>)
    requires MonotoneNet(net)
    requires |outs| == |TakeBatch(net, mode, m, order).firings|
    ensures AgreesWithBatch(net, mode, m, order, outs, ahead)
    decreases |order|
  {
    if order == [] {
      assert ahead + AllDeposits(outs) == ahead;
    } else if Firable(net, mode, m, order[0]) {
      var rest := Consume(m, net.transitions[order[0]].inputs).rest;
      SerialAhead(net, mode, rest, order[1..], outs[1..], ahead + outs[0].deposits);
      assert outs == [outs[0]] + outs[1..];
      FirstSurvives(net, mode, m, order[0], ahead, outs[0].deposits);
      SerialHead(net, mode, m, order[0], order[1..], outs[0], outs[1..], ahead);
      BatchFirst(net, mode, m, order);
    } else {
      SerialAhead(net, mode, m, order[1..], outs, ahead);
    }
  }

  lemma {:induction false} FireSeriallyFirst(net: Net, mode: Mode, m: Marking, id: string, ids: seq<string>,
                          out: Outcome, outs: seq<Outcome>, m': Marking, taken: seq<seq<Taken>>)
    requires |ids| == |outs| && Firable(net, mode, m, id)
    requires var c := Consume(m, net.transitions[id].inputs);
             FireSerially(net, mode, PutAll(c.rest, out.deposits), ids, outs) == Done(m', taken)
    ensures FireSerially(net, mode, m, [id] + ids, [out] + outs)
         == Done(m', [Consume(m, net.transitions[id].inputs).taken] + taken)
  {
    assert ([id] + ids)[1..] == ids && ([out] + outs)[1..] == outs;
  }

  lemma {:induction false} BatchFirst(net: Net, mode: Mode, m: Marking, order: seq<string>)
    requires order != [] && Firable(net, mode, m, order[0])
    ensures var c := Consume(m, net.transitions[order[0]].inputs);
            var b, b1 := TakeBatch(net, mode, m, order), TakeBatch(net, mode, c.rest, order[1..]);
            && b.rest == b1.rest && |b.firings| == 1 + |b1.firings|
            && TakenOf(b.firings) == [c.taken] + TakenOf(b1.firings)
            && BatchIds(net, mode, m, order) == [order[0]] + BatchIds(net, mode, c.rest, order[1..])
  {
  }

  /** `ahead` neither disables the first transition of a batch nor changes what it takes. */
  lemma {:induction false} FirstSurvives(net: Net, mode: Mode, m: Marking, id: string, ahead: seq<Deposit>, own: seq<Deposit>)
    requires MonotoneNet(net) && Firable(net, mode, m, id)
    ensures Firable(net, mode, PutAll(m, ahead), id)
    ensures var c, c' := Consume(m, net.transitions[id].inputs), Consume(PutAll(m, ahead), net.transitions[id].inputs);
            c'.taken == c.taken && PutAll(c'.rest, own) == PutAll(c.rest, ahead + own)
  {
    var t := net.transitions[id];
    EnabledSurvivesDeposits(net, mode, m, id, ahead);
    ConsumeSameTokens(m, t.inputs, ahead);
    ConsumeCommutes(m, t.inputs, ahead);
    PutAllAppend(Consume(m, t.inputs).rest, ahead, own);
  }

  lemma {:induction false} AllDepositsFirst(out: Outcome, outs: seq<Outcome>)
    ensures AllDeposits([out] + outs) == out.deposits + AllDeposits(outs)
  {
    assert ([out] + outs)[1..] == outs;
  }

  /** The first firing of a batch, taken when `ahead` has already been deposited. */
  lemma {:induction false} SerialHead(net: Net, mode: Mode, m: Marking, id: string, order: seq<string>,
                   out: Outcome, outs: seq<Outcome>, ahead: seq<Deposit>)
    requires Firable(net, mode, m, id) && Firable(net, mode, PutAll(m, ahead), id)
    requires var c, c' := Consume(m, net.transitions[id].inputs),
                          Consume(PutAll(m, ahead), net.transitions[id].inputs);
             && c'.taken == c.taken
             && PutAll(c'.rest, out.deposits) == PutAll(c.rest, ahead + out.deposits)
             && AgreesWithBatch(net, mode, c.rest, order, outs, ahead + out.deposits)
    ensures var c := Consume(m, net.transitions[id].inputs);
            var b := TakeBatch(net, mode, c.rest, order);
            FireSerially(net, mode, PutAll(m, ahead), [id] + BatchIds(net, mode, c.rest, order), [out] + outs)
            == Done(PutAll(b.rest, ahead + AllDeposits([out] + outs)), [c.taken] + TakenOf(b.firings))
  {
    var c := Consume(m, net.transitions[id].inputs);
    var b := TakeBatch(net, mode, c.rest, order);
    AllDepositsFirst(out, outs);
    assert ahead + out.deposits + AllDeposits(outs) == ahead + AllDeposits([out] + outs);
    FireSeriallyFirst(net, mode, PutAll(m, ahead), id, BatchIds(net, mode, c.rest, order),
                      out, outs, PutAll(b.rest, ahead + AllDeposits([out] + outs)), TakenOf(b.firings));
  }

  /** A round is serialisable.  Firing the batch one transition at a time, each with its
      deposits made before the next is looked at, finds each transition enabled at its
      turn, hands it the same tokens, and ends with queues that hold the same tokens as
      the concurrent round, whatever order its deposits landed in; in both, the old
      tokens nobody consumed are still the front of each queue. */
  lemma {:induction false} RoundSerialisable(net: Net, mode: Mode, m: Marking, order: seq<string>,
                          outs: seq<Outcome>, landed: seq<Deposit>)
    requires MonotoneNet(net)
    requires |outs| == |TakeBatch(net, mode, m, order).firings|
    requires multiset(landed) == multiset(AllDeposits(outs))
    ensures var b := TakeBatch(net, mode, m, order);
            var serial := FireSerially(net, mode, m, BatchIds(net, mode, m, order), outs);
            var concurrent := PutAll(b.rest, landed);
            && serial.Done?
            && serial.taken == TakenOf(b.firings)
            && serial.m.Keys == concurrent.Keys == b.rest.Keys == m.Keys
            && forall p :: p in m ==>
                 && multiset(serial.m[p]) == multiset(concurrent[p])
                 && b.rest[p] <= serial.m[p] && b.rest[p] <= concurrent[p]
                 && m[p] == BatchTakenFrom(b.firings, p) + b.rest[p]
  {
    var b := TakeBatch(net, mode, m, order);
    SerialAhead(net, mode, m, order, outs, []);
    assert [] + AllDeposits(outs) == AllDeposits(outs);
    BatchKeys(net, mode, m, order);
    PutAllQueues(b.rest, landed);
    PutAllQueues(b.rest, AllDeposits(outs));
    forall p | p in m
      ensures multiset(PutAll(b.rest, AllDeposits(outs))[p]) == multiset(PutAll(b.rest, landed)[p])
      ensures m[p] == BatchTakenFrom(b.firings, p) + b.rest[p]
    {
      DepositOrderIrrelevant(b.rest, landed, AllDeposits(outs), p);
      BatchPartition(net, mode, m, order, p);
    }
  }

  lemma {:induction false} BatchKeys(net: Net, mode: Mode, m: Marking, order: seq<string>)
    ensures TakeBatch(net, mode, m, order).rest.Keys == m.Keys
    decreases |order|
  {
    if order == [] {
    } else if Firable(net, mode, m, order[0]) {
      ConsumeKeys(m, net.transitions[order[0]].inputs);
      BatchKeys(net, mode, Consume(m, net.transitions[order[0]].inputs).rest, order[1..]);
    } else {
      BatchKeys(net, mode, m, order[1..]);
    }
  }
}
