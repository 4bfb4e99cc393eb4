/** What every round keeps: tokens match their places, terminal places never lose a
    token, a round always fires something, and the mode says where human tokens are. */
module NetInvariants {
  import opened Wrappers
  import opened Order
  import opened Net
  import opened NetLaws
  import opened FiringLaws

  // ---- The shape of a batch ----

  /** The re-check never empties a round: the first transition in the order is fired. */
  lemma {:induction false} RoundFiresFirst(net: Net, s: NetState, c: Choices, s': NetState)
    requires Round(net, s, c, s')
    ensures var b := TakeBatch(net, s.mode, s.m, c.order);
            && b.firings != []
            && c.order[0] in net.transitions
            && b.firings[0].transition == net.transitions[c.order[0]]
            && Firable(net, s.mode, s.m, c.order[0])
  {
    EnumerationMembers(c.order, FirableSet(net, s.mode, s.m) - c.refused);
    assert c.order[0] in c.order;
  }

  // ---- Deposits land where they were sent ----

  lemma {:induction false} AllDepositsMembers(outs: seq<Outcome>, d: Deposit)
    requires d in AllDeposits(outs)
    ensures exists i :: 0 <= i < |outs| && d in outs[i].deposits
  {
    if d in outs[0].deposits {
    } else {
      AllDepositsMembers(outs[1..], d);
      var i :| 0 <= i < |outs[1..]| && d in outs[1..][i].deposits;
      assert outs[i+1] == outs[1..][i];
    }
  }

  ghost predicate Acceptable(net: Net, ds: seq<Deposit>) {
    forall d :: d in ds ==> d.place in net.places && Accepts(net.places[d.place], d.token)
  }

  lemma {:induction false} LegalDepositsAcceptable(net: Net, firings: seq<Firing>, outs: seq<Outcome>, landed: seq<Deposit>)
    requires |outs| == |firings|
    requires forall i :: 0 <= i < |outs| ==> LegalOutcome(net, firings[i], outs[i])
    requires multiset(landed) == multiset(AllDeposits(outs))
    ensures Acceptable(net, landed)
  {
    hide LegalOutcome;
    forall d | d in landed ensures d.place in net.places && Accepts(net.places[d.place], d.token) {
      assert d in multiset(AllDeposits(outs));
      AllDepositsMembers(outs, d);
      var i :| 0 <= i < |outs| && d in outs[i].deposits;
      var k :| 0 <= k < |outs[i].deposits| && outs[i].deposits[k] == d;
      FiringLands(net, firings[i], outs[i]);
      assert Lands(net, firings[i].transition, outs[i].deposits[k]);
    }
  }

  lemma {:induction false} RoutedAcceptable(net: Net, firings: seq<Firing>, outs: seq<Outcome>, handled: seq<nat>,
                                            errors: seq<Deposit>)
    requires |firings| == |outs| && Routed(net, firings, outs, handled, errors)
    ensures Acceptable(net, errors)
  {
    forall d | d in errors ensures d.place in net.places && Accepts(net.places[d.place], d.token) {
      var k :| 0 <= k < |errors| && errors[k] == d;
      ErrorLands(net, firings[handled[k]].transition, outs[handled[k]].error.value);
    }
  }

  lemma {:induction false} LandedAcceptable(net: Net, s: NetState, c: Choices, b: Batch, bridged: Mode, m: Marking)
    requires BatchFired(net, s, c, b, bridged, m)
    ensures Acceptable(net, c.landed) && Acceptable(net, c.errors)
  {
    hide LegalOutcome, TakeBatch, FirableSet, Routed, HumanBridged, PutAll;
    LegalDepositsAcceptable(net, b.firings, c.outcomes, c.landed);
    RoutedAcceptable(net, b.firings, c.outcomes, c.handled, c.errors);
  }

  lemma {:induction false} SentMembers(ds: seq<Deposit>, p: string, tok: Token)
    requires tok in Sent(ds, p)
    ensures Deposit(p, tok) in ds
  {
    if ds[0].place == p && ds[0].token == tok {
      assert ds[0] == Deposit(p, tok);
    } else {
      SentMembers(ds[1..], p, tok);
    }
  }

  lemma {:induction false} PutAllWellTyped(net: Net, m: Marking, ds: seq<Deposit>)
    requires WellTyped(net, m) && Acceptable(net, ds)
    ensures WellTyped(net, PutAll(m, ds))
  {
    var m' := PutAll(m, ds);
    PutAllQueues(m, ds);
    forall p, i | p in m' && 0 <= i < |m'[p]| ensures Accepts(net.places[p], m'[p][i]) {
      assert p in m;
      if i >= |m[p]| {
        var tok := Sent(ds, p)[i - |m[p]|];
        assert m'[p][i] == tok && tok in Sent(ds, p);
        SentMembers(ds, p, tok);
      } else {
        assert m'[p][i] == m[p][i];
      }
    }
  }

  /** A batch leaves a suffix of each queue, so what is left is still well typed. */
  lemma {:induction false} BatchWellTyped(net: Net, mode: Mode, m: Marking, order: seq<string>)
    requires WellTyped(net, m)
    ensures WellTyped(net, TakeBatch(net, mode, m, order).rest)
  {
    var b := TakeBatch(net, mode, m, order);
    BatchKeys(net, mode, m, order);
    forall p, i | p in b.rest && 0 <= i < |b.rest[p]| ensures Accepts(net.places[p], b.rest[p][i]) {
      BatchPartition(net, mode, m, order, p);
      assert b.rest[p][i] == m[p][|BatchTakenFrom(b.firings, p)| + i];
    }
  }

  lemma {:induction false} FiredKeepsTypes(net: Net, s: NetState, c: Choices, b: Batch, bridged: Mode, m: Marking)
    requires BatchFired(net, s, c, b, bridged, m) && WellTyped(net, s.m)
    ensures WellTyped(net, m)
  {
    hide LegalOutcome, TakeBatch, FirableSet, Routed, HumanBridged, PutAll, WellTyped, Acceptable;
    LandedAcceptable(net, s, c, b, bridged, m);
    BatchWellTyped(net, s.mode, s.m, c.order);
    PutAllWellTyped(net, b.rest, c.landed);
    PutAllWellTyped(net, PutAll(b.rest, c.landed), c.errors);
  }

  /** Colour and space discipline holds in every reachable state. */
  lemma {:induction false} RoundKeepsTypes(net: Net, s: NetState, c: Choices, s': NetState)
    requires (Round(net, s, c, s') || FailedRound(net, s, c, s')) && WellTyped(net, s.m)
    ensures WellTyped(net, s'.m)
  {
    hide BatchFired, Unroutable, ModeAfter, WellTyped;
    var b := TakeBatch(net, s.mode, s.m, c.order);
    var bridged :| BatchFired(net, s, c, b, bridged, s'.m);
    FiredKeepsTypes(net, s, c, b, bridged, s'.m);
  }

  lemma {:induction false} RunKeepsTypes(net: Net, states: seq<NetState>, choices: seq<Choices>, i: nat)
    requires Rounds(net, states, choices) && WellTyped(net, states[0].m) && i < |states|
    ensures WellTyped(net, states[i].m)
  {
    hide Round, WellTyped;
    if i > 0 {
      RunKeepsTypes(net, states, choices, i - 1);
      RoundKeepsTypes(net, states[i-1], choices[i-1], states[i]);
    }
  }

  // ---- Terminal places only fill up ----

  lemma {:induction false} NothingTakenFrom(m: Marking, places: seq<string>, p: string)
    requires p !in places
    ensures TakenFrom(Consume(m, places).taken, p) == []
    decreases |places|
  {
    if places == [] {
    } else if places[0] in m && m[places[0]] != [] {
      var m1 := m[places[0] := m[places[0]][1..]];
      NothingTakenFrom(m1, places[1..], p);
      var c := Consume(m1, places[1..]);
      assert ([Taken(places[0], m[places[0]][0])] + c.taken)[1..] == c.taken;
    } else {
      NothingTakenFrom(m, places[1..], p);
    }
  }

  lemma {:induction false} BatchSparesTerminals(net: Net, mode: Mode, m: Marking, order: seq<string>, p: string)
    requires IsTerminal(net, p) && p in m
    ensures p in TakeBatch(net, mode, m, order).rest && TakeBatch(net, mode, m, order).rest[p] == m[p]
    decreases |order|
  {
    if order == [] {
    } else if Firable(net, mode, m, order[0]) {
      var t := net.transitions[order[0]];
      NothingTakenFrom(m, t.inputs, p);
      ConsumePartition(m, t.inputs, p);
      BatchSparesTerminals(net, mode, Consume(m, t.inputs).rest, order[1..], p);
    } else {
      BatchSparesTerminals(net, mode, m, order[1..], p);
    }
  }

  lemma {:induction false} FiredExtendsTerminals(net: Net, s: NetState, c: Choices, b: Batch, bridged: Mode, m: Marking,
                                                 p: string)
    requires BatchFired(net, s, c, b, bridged, m) && IsTerminal(net, p) && p in s.m
    ensures p in m && s.m[p] <= m[p]
  {
    hide LegalOutcome, TakeBatch, FirableSet, Routed, HumanBridged, PutAll, IsTerminal;
    BatchSparesTerminals(net, s.mode, s.m, c.order, p);
    PutAllQueues(b.rest, c.landed);
    PutAllQueues(PutAll(b.rest, c.landed), c.errors);
  }

  lemma {:induction false} RoundExtendsTerminals(net: Net, s: NetState, c: Choices, s': NetState, p: string)
    requires (Round(net, s, c, s') || FailedRound(net, s, c, s')) && IsTerminal(net, p) && p in s.m
    ensures p in s'.m && s.m[p] <= s'.m[p]
  {
    hide BatchFired, Unroutable, ModeAfter, IsTerminal;
    var b := TakeBatch(net, s.mode, s.m, c.order);
    var bridged :| BatchFired(net, s, c, b, bridged, s'.m);
    FiredExtendsTerminals(net, s, c, b, bridged, s'.m, p);
  }

  lemma {:induction false} RoundKeepsComplete(net: Net, s: NetState, c: Choices, s': NetState)
    requires (Round(net, s, c, s') || FailedRound(net, s, c, s')) && Complete(net, s.m)
    ensures Complete(net, s'.m)
  {
    hide Round, FailedRound, IsTerminal;
    forall p | IsTerminal(net, p) ensures p in s'.m && s'.m[p] != [] {
      RoundExtendsTerminals(net, s, c, s', p);
    }
  }

  /** Completeness is stable: once every terminal place is marked, it stays so. */
  lemma {:induction false} CompleteIsStable(net: Net, states: seq<NetState>, choices: seq<Choices>, i: nat, j: nat)
    requires Rounds(net, states, choices) && i <= j < |states| && Complete(net, states[i].m)
    ensures Complete(net, states[j].m)
    decreases j - i
  {
    hide Round, Complete;
    if i < j {
      RoundKeepsComplete(net, states[i], choices[i], states[i+1]);
      CompleteIsStable(net, states, choices, i + 1, j);
    }
  }

  // ---- A validated place holds only valid payloads ----

  /** Only validate transitions whose validator yields good payloads put tokens there. */
  ghost predicate Guarded(net: Net, p: string, good: string -> bool) {
    forall id :: id in net.transitions ==>
      && net.transitions[id].errorPlace != p
      && (Reaches(net, net.transitions[id], p) ==> Yields(net.transitions[id], good))
  }

  ghost predicate HoldsGood(m: Marking, p: string, good: string -> bool) {
    p in m ==> forall i :: 0 <= i < |m[p]| ==> good(m[p][i].payload)
  }

  lemma {:induction false} BatchOfNet(net: Net, mode: Mode, m: Marking, order: seq<string>, k: nat)
    requires k < |TakeBatch(net, mode, m, order).firings|
    ensures exists id :: id in net.transitions && TakeBatch(net, mode, m, order).firings[k].transition == net.transitions[id]
    decreases |order|
  {
    hide Firable;
    if Firable(net, mode, m, order[0]) {
      TransitionKnown(net, mode, m, order[0]);
      if k > 0 { BatchOfNet(net, mode, Consume(m, net.transitions[order[0]].inputs).rest, order[1..], k - 1); }
    } else {
      BatchOfNet(net, mode, m, order[1..], k);
    }
  }

  lemma {:induction false} TransitionKnown(net: Net, mode: Mode, m: Marking, id: string)
    requires Firable(net, mode, m, id)
    ensures id in net.transitions
  {
  }

  lemma {:induction false} FiringGood(net: Net, f: Firing, o: Outcome, id: string, p: string, good: string -> bool)
    requires Guarded(net, p, good) && id in net.transitions && f.transition == net.transitions[id]
    requires LegalOutcome(net, f, o)
    ensures AllGood(o.deposits, p, good)
  {
    hide LegalOutcome, Yields, Reaches, AllGood;
    if Reaches(net, f.transition, p) {
      OnlyValidLeaves(net, f, o, p, good);
    } else {
      FiringLands(net, f, o);
      NeverLands(net, f.transition, o.deposits, p, good);
    }
  }

  lemma {:induction false} NeverLands(net: Net, t: TransitionDef, ds: seq<Deposit>, p: string, good: string -> bool)
    requires AllLand(net, t, ds) && !Reaches(net, t, p)
    ensures AllGood(ds, p, good)
  {
    hide Reaches;
    assert forall i :: 0 <= i < |ds| ==> Lands(net, t, ds[i]);
  }

  lemma {:induction false} LandedGood(net: Net, firings: seq<Firing>, outs: seq<Outcome>, landed: seq<Deposit>,
                                      p: string, good: string -> bool)
    requires |outs| == |firings| && Guarded(net, p, good)
    requires forall i :: 0 <= i < |firings| ==> exists id :: id in net.transitions && firings[i].transition == net.transitions[id]
    requires forall i :: 0 <= i < |outs| ==> LegalOutcome(net, firings[i], outs[i])
    requires multiset(landed) == multiset(AllDeposits(outs))
    ensures AllGood(landed, p, good)
  {
    hide LegalOutcome, Guarded;
    forall j | 0 <= j < |landed| && landed[j].place == p ensures good(landed[j].token.payload) {
      var d := landed[j];
      assert d in multiset(landed);
      AllDepositsMembers(outs, d);
      var i :| 0 <= i < |outs| && d in outs[i].deposits;
      var id :| id in net.transitions && firings[i].transition == net.transitions[id];
      FiringGood(net, firings[i], outs[i], id, p, good);
    }
  }

  lemma {:induction false} ErrorsElsewhere(net: Net, firings: seq<Firing>, outs: seq<Outcome>, handled: seq<nat>,
                                           errors: seq<Deposit>, p: string, good: string -> bool)
    requires |outs| == |firings| && Guarded(net, p, good)
    requires forall i :: 0 <= i < |firings| ==> exists id :: id in net.transitions && firings[i].transition == net.transitions[id]
    requires Routed(net, firings, outs, handled, errors)
    ensures AllGood(errors, p, good)
  {
    hide Yields, Reaches;
    forall k | 0 <= k < |errors| ensures errors[k].place != p {
      assert handled[k] in Failures(outs);
      var id :| id in net.transitions && firings[handled[k]].transition == net.transitions[id];
    }
  }

  lemma {:induction false} PutAllGood(m: Marking, ds: seq<Deposit>, p: string, good: string -> bool)
    requires HoldsGood(m, p, good) && AllGood(ds, p, good)
    ensures HoldsGood(PutAll(m, ds), p, good)
    decreases |ds|
  {
    if ds != [] {
      assert AllGood(ds[1..], p, good) by {
        forall i | 0 <= i < |ds[1..]| && ds[1..][i].place == p ensures good(ds[1..][i].token.payload) {
          assert ds[1..][i] == ds[i+1];
        }
      }
      PutAllGood(Put(m, ds[0]), ds[1..], p, good);
    }
  }

  lemma {:induction false} BatchLeavesGood(net: Net, mode: Mode, m: Marking, order: seq<string>, p: string,
                                           good: string -> bool)
    requires HoldsGood(m, p, good)
    ensures HoldsGood(TakeBatch(net, mode, m, order).rest, p, good)
  {
    hide TakeBatch, BatchTakenFrom;
    var b := TakeBatch(net, mode, m, order);
    BatchKeys(net, mode, m, order);
    if p in m {
      BatchPartition(net, mode, m, order, p);
      var n := |BatchTakenFrom(b.firings, p)|;
      forall i | 0 <= i < |b.rest[p]| ensures good(b.rest[p][i].payload) {
        assert b.rest[p][i] == m[p][n + i];
      }
    }
  }

  lemma {:induction false} FiredKeepsGood(net: Net, s: NetState, c: Choices, b: Batch, bridged: Mode, m: Marking,
                                          p: string, good: string -> bool)
    requires BatchFired(net, s, c, b, bridged, m) && Guarded(net, p, good) && HoldsGood(s.m, p, good)
    ensures HoldsGood(m, p, good)
  {
    hide LegalOutcome, TakeBatch, FirableSet, Routed, HumanBridged, PutAll, Guarded, HoldsGood, AllGood;
    forall k | 0 <= k < |b.firings|
      ensures exists id :: id in net.transitions && b.firings[k].transition == net.transitions[id]
    {
      BatchOfNet(net, s.mode, s.m, c.order, k);
    }
    LandedGood(net, b.firings, c.outcomes, c.landed, p, good);
    ErrorsElsewhere(net, b.firings, c.outcomes, c.handled, c.errors, p, good);
    BatchLeavesGood(net, s.mode, s.m, c.order, p, good);
    PutAllGood(b.rest, c.landed, p, good);
    PutAllGood(PutAll(b.rest, c.landed), c.errors, p, good);
  }

  /** Whatever the correcting model proposes and however often a firing is retried, a place
      that only validate transitions write holds nothing that its validators would not
      have let through. */
  lemma {:induction false} RunKeepsValid(net: Net, states: seq<NetState>, choices: seq<Choices>, i: nat,
                                         p: string, good: string -> bool)
    requires Rounds(net, states, choices) && i < |states|
    requires Guarded(net, p, good) && HoldsGood(states[0].m, p, good)
    ensures HoldsGood(states[i].m, p, good)
  {
    hide BatchFired, Guarded, HoldsGood, ModeAfter;
    if i > 0 {
      RunKeepsValid(net, states, choices, i - 1, p, good);
      var s, c, s' := states[i-1], choices[i-1], states[i];
      assert Round(net, s, c, s');
      var b := TakeBatch(net, s.mode, s.m, c.order);
      var bridged :| BatchFired(net, s, c, b, bridged, s'.m);
      FiredKeepsGood(net, s, c, b, bridged, s'.m, p, good);
    }
  }

  // ---- Mode and human tokens ----

  /** After a round, autonomous mode means no computation place holds a human token,
      and Centaurian mode means one does or a human transition could fire. */
  lemma {:induction false} ModeTellsHumanTokens(net: Net, s: NetState, c: Choices, s': NetState)
    requires Round(net, s, c, s')
    ensures s'.mode == MAS ==> !HumanInComputation(net, s'.m)
    ensures s'.mode == Centaurian ==> HumanInComputation(net, s'.m) || HITLCanFire(net, s'.m, c.refusedAfter)
  {
  }

  lemma {:induction false} QueuedMembers(m: Marking, places: seq<string>, tok: Token)
    requires tok in Queued(m, places)
    ensures exists p :: p in places && p in m && tok in m[p]
  {
    if places[0] in m && tok in m[places[0]] {
      assert places[0] in places;
    } else {
      QueuedMembers(m, places[1..], tok);
      var p :| p in places[1..] && p in m && tok in m[p];
      assert p in places;
    }
  }

  lemma {:induction false} RestMembers(m: Marking, places: seq<string>, p: string, tok: Token)
    requires p in Consume(m, places).rest && tok in Consume(m, places).rest[p]
    ensures p in m && tok in m[p]
  {
    ConsumeKeys(m, places);
    ConsumePartition(m, places, p);
  }

  /** The marking the k-th firing saw when the batch took its tokens: it was enabled
      there, and everything queued there was queued when the round began. */
  lemma {:induction false} SawEnabled(net: Net, mode: Mode, m: Marking, order: seq<string>, k: nat)
    returns (at: Marking)
    requires k < |TakeBatch(net, mode, m, order).firings|
    ensures Enabled(net, mode, at, TakeBatch(net, mode, m, order).firings[k].transition)
    ensures forall p, tok :: p in at && tok in at[p] ==> p in m && tok in m[p]
    decreases |order|
  {
    if !Firable(net, mode, m, order[0]) {
      at := SawEnabled(net, mode, m, order[1..], k);
    } else if k == 0 {
      at := m;
    } else {
      var inputs := net.transitions[order[0]].inputs;
      at := SawEnabled(net, mode, Consume(m, inputs).rest, order[1..], k - 1);
      forall p, tok | p in at && tok in at[p] ensures p in m && tok in m[p] {
        RestMembers(m, inputs, p, tok);
      }
    }
  }

  /** In Centaurian mode every fired transition that writes a computation place, other
      than a human one, had both a human and a non-human token queued on its inputs
      when the round began. */
  lemma {:induction false} CentaurianNeedsBothOrigins(net: Net, s: NetState, c: Choices, s': NetState, k: nat)
    requires Round(net, s, c, s') && s.mode == Centaurian
    requires k < |TakeBatch(net, s.mode, s.m, c.order).firings|
    ensures var t := TakeBatch(net, s.mode, s.m, c.order).firings[k].transition;
            t.kind != HITL && IsComputationTransition(net, t) ==>
              && (exists p, tok :: p in t.inputs && p in s.m && tok in s.m[p] && tok.IsHumanOrigin())
              && (exists p, tok :: p in t.inputs && p in s.m && tok in s.m[p] && !tok.IsHumanOrigin())
  {
    var t := TakeBatch(net, s.mode, s.m, c.order).firings[k].transition;
    var at := SawEnabled(net, s.mode, s.m, c.order, k);
    if t.kind != HITL && IsComputationTransition(net, t) {
      var tokens := Queued(at, t.inputs);
      var h :| h in tokens && h.IsHumanOrigin();
      var a :| a in tokens && !a.IsHumanOrigin();
      QueuedMembers(at, t.inputs, h);
      QueuedMembers(at, t.inputs, a);
      var ph :| ph in t.inputs && ph in at && h in at[ph];
      var pa :| pa in t.inputs && pa in at && a in at[pa];
      assert h in s.m[ph] && a in s.m[pa];
    }
  }
}
