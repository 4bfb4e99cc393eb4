/** The artefact ledger (artefacts_memory.go): rows, their states, and the indexes by set
    and by forge run.  Timestamps and fresh IDs are parameters. */
module Ledger {
  import opened Wrappers
  import opened FileTree
  import opened Order

  datatype RowState = Pending | Active | Quarantined | Restored | Purged

  datatype Row = Row(id: string, path: Path, setId: string, forgeRunId: string, createdAt: int, state: RowState,
                     quarantinedAt: Option<int>, quarantinePath: Path, restoredAt: Option<int>, purgedAt: Option<int>)

  datatype LedgerError = ArtefactNotFound | SetEmpty | AlreadyRolledBack | NotQuarantined

  type Rows = map<string, Row>

  type Index = map<string, seq<string>>

  function Listed(index: Index, key: string): seq<string> {
    if key in index then index[key] else []
  }

  function Appended(index: Index, key: string, id: string): Index {
    index[key := Listed(index, key) + [id]]
  }

  // ---- What each operation does to the rows ----

  predicate InSet(rows: Rows, setId: string, id: string) {
    id in rows && rows[id].setId == setId
  }

  ghost predicate SetIsEmpty(rows: Rows, setId: string) {
    forall id :: id in rows ==> !InSet(rows, setId, id)
  }

  predicate Settled(row: Row) {
    row.state == Quarantined || row.state == Purged
  }

  ghost predicate AllSettled(rows: Rows, setId: string) {
    forall id :: InSet(rows, setId, id) ==> Settled(rows[id])
  }

  ghost predicate NoneQuarantined(rows: Rows, setId: string) {
    forall id :: InSet(rows, setId, id) ==> rows[id].state != Quarantined
  }

  function QuarantineRow(row: Row, path: Path, now: int): Row {
    row.(state := Quarantined, quarantinedAt := Some(now), quarantinePath := path)
  }

  function QuarantineSet(rows: Rows, setId: string, path: Path, now: int): Rows {
    map id | id in rows :: if InSet(rows, setId, id) then QuarantineRow(rows[id], path, now) else rows[id]
  }

  function RestoreRow(row: Row, now: int): Row {
    if row.state == Quarantined then row.(state := Restored, restoredAt := Some(now)) else row
  }

  function RestoreSet(rows: Rows, setId: string, now: int): Rows {
    map id | id in rows :: if InSet(rows, setId, id) then RestoreRow(rows[id], now) else rows[id]
  }

  predicate Expired(row: Row, cutoff: int) {
    row.state == Quarantined && row.quarantinedAt.Some? && row.quarantinedAt.value < cutoff
  }

  function PurgeRow(row: Row, cutoff: int, now: int): Row {
    if Expired(row, cutoff) then row.(state := Purged, purgedAt := Some(now)) else row
  }

  function PurgeRows(rows: Rows, cutoff: int, now: int): Rows {
    map id | id in rows :: PurgeRow(rows[id], cutoff, now)
  }

  // ---- What every sequence of operations keeps ----

  /** The index lists, under each key, exactly the rows with that key, each once. */
  ghost predicate Indexes(index: Index, rows: Rows, keyOf: Row -> string, skip: string -> bool) {
    forall key {:trigger Listed(index, key)} ::
      && NoRepeats(Listed(index, key))
      && forall id :: id in Listed(index, key) <==> id in rows && keyOf(rows[id]) == key && !skip(key)
  }

  /** The quarantined rows of a set were quarantined together: one time, one directory. */
  ghost predicate QuarantinedTogether(rows: Rows) {
    forall a, b :: a in rows && b in rows && rows[a].state == Quarantined && rows[b].state == Quarantined
                   && rows[a].setId == rows[b].setId ==>
      && rows[a].quarantinedAt.Some?
      && rows[a].quarantinedAt == rows[b].quarantinedAt
      && rows[a].quarantinePath == rows[b].quarantinePath
  }

  ghost predicate BySet(index: Index, rows: Rows) {
    Indexes(index, rows, (row: Row) => row.setId, key => false)
  }

  /** Rows outside any forge run are in no forge list. */
  ghost predicate ByForge(index: Index, rows: Rows) {
    Indexes(index, rows, (row: Row) => row.forgeRunId, key => key == "")
  }

  lemma {:induction false} IndexGrows(index: Index, rows: Rows, keyOf: Row -> string, skip: string -> bool, row: Row)
    requires Indexes(index, rows, keyOf, skip) && row.id !in rows
    ensures Indexes(if skip(keyOf(row)) then index else Appended(index, keyOf(row), row.id),
                    rows[row.id := row], keyOf, skip)
  {
    var index', rows' := if skip(keyOf(row)) then index else Appended(index, keyOf(row), row.id), rows[row.id := row];
    forall key {:trigger Listed(index', key)}
      ensures NoRepeats(Listed(index', key))
      ensures forall id :: id in Listed(index', key) <==> id in rows' && keyOf(rows'[id]) == key && !skip(key)
    {
      assert NoRepeats(Listed(index, key));
      assert forall id :: id in Listed(index, key) <==> id in rows && keyOf(rows[id]) == key && !skip(key);
      assert row.id !in Listed(index, key);
      if key == keyOf(row) && !skip(key) {
        assert Listed(index', key) == Listed(index, key) + [row.id];
      } else {
        assert Listed(index', key) == Listed(index, key);
      }
    }
  }

  lemma {:induction false} IndexKept(index: Index, rows: Rows, rows': Rows, keyOf: Row -> string, skip: string -> bool)
    requires Indexes(index, rows, keyOf, skip) && rows'.Keys == rows.Keys
    requires forall id :: id in rows ==> keyOf(rows'[id]) == keyOf(rows[id])
    ensures Indexes(index, rows', keyOf, skip)
  {
    forall key {:trigger Listed(index, key)}
      ensures forall id :: id in Listed(index, key) <==> id in rows' && keyOf(rows'[id]) == key && !skip(key)
    {
      assert forall id :: id in Listed(index, key) <==> id in rows && keyOf(rows[id]) == key && !skip(key);
    }
  }

  lemma {:induction false} SetListed(index: Index, rows: Rows, setId: string)
    requires BySet(index, rows)
    ensures NoRepeats(Listed(index, setId))
    ensures forall id :: id in Listed(index, setId) <==> InSet(rows, setId, id)
    ensures Listed(index, setId) == [] <==> SetIsEmpty(rows, setId)
  {
    var ids := Listed(index, setId);
    assert forall id :: id in ids <==> id in rows && rows[id].setId == setId;
    if ids != [] { assert ids[0] in ids; }
  }

  /** All the quarantined rows of a set expire together, or none does. */
  lemma {:induction false} SetsExpireTogether(rows: Rows, setId: string, cutoff: int, now: int)
    requires QuarantinedTogether(rows)
    ensures || (forall id :: InSet(rows, setId, id) ==> !Expired(rows[id], cutoff))
            || NoneQuarantined(PurgeRows(rows, cutoff, now), setId)
    ensures QuarantinedTogether(PurgeRows(rows, cutoff, now))
  {
    if a :| InSet(rows, setId, a) && Expired(rows[a], cutoff) {
      forall id | InSet(PurgeRows(rows, cutoff, now), setId, id)
        ensures PurgeRows(rows, cutoff, now)[id].state != Quarantined
      {
        assert InSet(rows, setId, id);
        if rows[id].state == Quarantined { assert rows[a].quarantinedAt == rows[id].quarantinedAt; }
      }
    }
  }

  ghost predicate Consistent(rows: Rows, bySet: Index, byForge: Index) {
    && (forall id :: id in rows ==> rows[id].id == id)
    && BySet(bySet, rows)
    && ByForge(byForge, rows)
    && QuarantinedTogether(rows)
  }

  /** An update of row states keeps the indexes. */
  lemma {:induction false} StatesMayChange(rows: Rows, rows': Rows, bySet: Index, byForge: Index)
    requires Consistent(rows, bySet, byForge) && rows'.Keys == rows.Keys && QuarantinedTogether(rows')
    requires forall id :: id in rows ==>
      && rows'[id].id == rows[id].id && rows'[id].setId == rows[id].setId && rows'[id].forgeRunId == rows[id].forgeRunId
    ensures Consistent(rows', bySet, byForge)
  {
    hide Indexes, QuarantinedTogether;
    IndexKept(bySet, rows, rows', (row: Row) => row.setId, key => false);
    IndexKept(byForge, rows, rows', (row: Row) => row.forgeRunId, key => key == "");
  }

  lemma {:induction false} ConsistentAfterWrite(rows: Rows, bySet: Index, byForge: Index, row: Row)
    requires Consistent(rows, bySet, byForge) && row.id !in rows && row.state == Pending
    ensures Consistent(rows[row.id := row], Appended(bySet, row.setId, row.id),
                       if row.forgeRunId == "" then byForge else Appended(byForge, row.forgeRunId, row.id))
  {
    hide Indexes, Appended;
    IndexGrows(bySet, rows, (row: Row) => row.setId, key => false, row);
    IndexGrows(byForge, rows, (row: Row) => row.forgeRunId, key => key == "", row);
  }

  lemma {:induction false} ConsistentAfterActivation(rows: Rows, bySet: Index, byForge: Index, id: string)
    requires Consistent(rows, bySet, byForge) && id in rows
    ensures Consistent(rows[id := rows[id].(state := Active)], bySet, byForge)
  {
    hide BySet, ByForge;
    assert QuarantinedTogether(rows);
    StatesMayChange(rows, rows[id := rows[id].(state := Active)], bySet, byForge);
  }

  lemma {:induction false} ConsistentAfterRollback(rows: Rows, bySet: Index, byForge: Index, setId: string, path: Path,
                                                   now: int)
    requires Consistent(rows, bySet, byForge)
    ensures Consistent(QuarantineSet(rows, setId, path, now), bySet, byForge)
  {
    hide BySet, ByForge;
    assert QuarantinedTogether(QuarantineSet(rows, setId, path, now));
    StatesMayChange(rows, QuarantineSet(rows, setId, path, now), bySet, byForge);
  }

  lemma {:induction false} ConsistentAfterRestore(rows: Rows, bySet: Index, byForge: Index, setId: string, now: int)
    requires Consistent(rows, bySet, byForge)
    ensures Consistent(RestoreSet(rows, setId, now), bySet, byForge)
  {
    hide BySet, ByForge;
    assert QuarantinedTogether(RestoreSet(rows, setId, now));
    StatesMayChange(rows, RestoreSet(rows, setId, now), bySet, byForge);
  }

  lemma {:induction false} ConsistentAfterPurge(rows: Rows, bySet: Index, byForge: Index, cutoff: int, now: int)
    requires Consistent(rows, bySet, byForge)
    ensures Consistent(PurgeRows(rows, cutoff, now), bySet, byForge)
  {
    hide BySet, ByForge;
    SetsExpireTogether(rows, "", cutoff, now);
    StatesMayChange(rows, PurgeRows(rows, cutoff, now), bySet, byForge);
  }

  lemma {:induction false} ConsistentIds(rows: Rows, bySet: Index, byForge: Index)
    requires Consistent(rows, bySet, byForge)
    ensures BySet(bySet, rows) && forall id :: id in rows ==> rows[id].id == id
  {
  }

  class MemoryArtefactLedger {
    var artefacts: Rows
    var bySet: Index
    var byForge: Index

    ghost predicate Valid()
      reads this
    {
      Consistent(artefacts, bySet, byForge)
    }

    constructor ()
      ensures Valid() && artefacts == map[]
    {
      artefacts, bySet, byForge := map[], map[], map[];
    }

    /** `PreWrite`: reserves a pending row; a row without a set gets one of its own. */
    method PreWrite(id: string, setId: string, forgeRunId: string, path: Path, now: int)
      requires Valid() && id !in artefacts
      modifies this
      ensures Valid()
      ensures var set0 := if setId == "" then "singleton-" + id else setId;
              artefacts == old(artefacts)[id := Row(id, path, set0, forgeRunId, now, Pending, None, [], None, None)]
    {
      hide Consistent;
      var set0 := if setId == "" then "singleton-" + id else setId;
      var row := Row(id, path, set0, forgeRunId, now, Pending, None, [], None, None);
      ConsistentAfterWrite(artefacts, bySet, byForge, row);
      artefacts := artefacts[id := row];
      bySet := Appended(bySet, set0, id);
      if forgeRunId != "" {
        byForge := Appended(byForge, forgeRunId, id);
      }
    }

    /** `PostWrite`: activates the row, whatever state it was in. */
    method PostWrite(id: string) returns (err: Option<LedgerError>)
      requires Valid()
      modifies this
      ensures Valid()
      ensures err == None <==> id in old(artefacts)
      ensures err.Some? ==> err == Some(ArtefactNotFound) && artefacts == old(artefacts)
      ensures err == None ==> artefacts == old(artefacts)[id := old(artefacts)[id].(state := Active)]
    {
      hide Consistent;
      if id !in artefacts {
        return Some(ArtefactNotFound);
      }
      ConsistentAfterActivation(artefacts, bySet, byForge, id);
      artefacts := artefacts[id := artefacts[id].(state := Active)];
      return None;
    }

    /** `SetForSet`: the rows of a set by creation time; ties come in any order. */
    method SetForSet(setId: string) returns (err: Option<LedgerError>, rows: seq<Row>)
      requires Valid()
      ensures err == None <==> !SetIsEmpty(artefacts, setId)
      ensures err.Some? ==> err == Some(SetEmpty) && rows == []
      ensures err == None ==> rows != [] && RowsOf(artefacts, setId, rows) && ByTime(rows)
    {
      ConsistentIds(artefacts, bySet, byForge);
      SetListed(bySet, artefacts, setId);
      var ids := Listed(bySet, setId);
      if ids == [] {
        return Some(SetEmpty), [];
      }
      var found: seq<Row> := [];
      for i := 0 to |ids|
        invariant |found| == i
        invariant forall k :: 0 <= k < i ==> ids[k] in artefacts && found[k] == artefacts[ids[k]]
      {
        assert ids[i] in ids;
        if ids[i] in artefacts {
          found := found + [artefacts[ids[i]]];
        }
      }
      SortedInOrder(found);
      rows :| multiset(rows) == multiset(found) && ByTime(rows);
      FoundRows(artefacts, setId, ids, found, rows);
      return None, rows;
    }

    /** `Rollback`: quarantines every row of the set, unless all of them already are
        quarantined or purged. */
    method Rollback(setId: string, path: Path, now: int) returns (err: Option<LedgerError>)
      requires Valid()
      modifies this
      ensures Valid()
      ensures err == Some(SetEmpty) <==> SetIsEmpty(old(artefacts), setId)
      ensures err == None <==> !AllSettled(old(artefacts), setId)
      ensures err.Some? ==> artefacts == old(artefacts)
      ensures err.Some? ==> err == Some(SetEmpty) || err == Some(AlreadyRolledBack)
      ensures err == None ==> artefacts == QuarantineSet(old(artefacts), setId, path, now)
    {
      hide Consistent, BySet, QuarantineSet, RestoreSet, NoRepeats;
      ConsistentIds(artefacts, bySet, byForge);
      SetListed(bySet, artefacts, setId);
      var ids := Listed(bySet, setId);
      if ids == [] {
        return Some(SetEmpty);
      }
      var allQuarantined := AllOfThemSettled(ids);
      if allQuarantined {
        return Some(AlreadyRolledBack);
      }
      ConsistentAfterRollback(artefacts, bySet, byForge, setId, path, now);
      var rows := QuarantineEach(artefacts, setId, ids, path, now);
      artefacts := rows;
      return None;
    }

    method AllOfThemSettled(ids: seq<string>) returns (all: bool)
      requires forall id :: id in ids ==> id in artefacts
      ensures all <==> forall id :: id in ids ==> Settled(artefacts[id])
    {
      for i := 0 to |ids|
        invariant forall k :: 0 <= k < i ==> Settled(artefacts[ids[k]])
      {
        assert ids[i] in ids;
        if !Settled(artefacts[ids[i]]) {
          return false;
        }
      }
      return true;
    }

    /** `Restore`: flips the quarantined rows of the set back. */
    method Restore(setId: string, now: int) returns (err: Option<LedgerError>)
      requires Valid()
      modifies this
      ensures Valid()
      ensures err == Some(SetEmpty) <==> SetIsEmpty(old(artefacts), setId)
      ensures err == None <==> !NoneQuarantined(old(artefacts), setId)
      ensures err.Some? ==> artefacts == old(artefacts)
      ensures err.Some? ==> err == Some(SetEmpty) || err == Some(NotQuarantined)
      ensures err == None ==> artefacts == RestoreSet(old(artefacts), setId, now)
    {
      hide Consistent, BySet, QuarantineSet, RestoreSet, NoRepeats;
      ConsistentIds(artefacts, bySet, byForge);
      SetListed(bySet, artefacts, setId);
      var ids := Listed(bySet, setId);
      if ids == [] {
        return Some(SetEmpty);
      }
      var rows, anyQuarantined := RestoreEach(artefacts, setId, ids, now);
      if !anyQuarantined {
        return Some(NotQuarantined);
      }
      ConsistentAfterRestore(artefacts, bySet, byForge, setId, now);
      artefacts := rows;
      return None;
    }

    /** `PurgeExpired`: the rows are visited in any order; the purged ones are returned. */
    method PurgeExpired(cutoff: int, now: int) returns (out: seq<Row>)
      requires Valid()
      modifies this
      ensures Valid()
      ensures artefacts == PurgeRows(old(artefacts), cutoff, now)
      ensures PurgedRows(old(artefacts), artefacts, cutoff, {}, out)
    {
      hide Consistent, BySet, PurgeRows, PurgedRows;
      ConsistentIds(artefacts, bySet, byForge);
      ConsistentAfterPurge(artefacts, bySet, byForge, cutoff, now);
      var rows;
      rows, out := PurgeEach(artefacts, cutoff, now);
      artefacts := rows;
    }
  }

  /** The loop of `Rollback` over the listed rows. */
  method QuarantineEach(before: Rows, setId: string, ids: seq<string>, path: Path, now: int) returns (rows: Rows)
    requires NoRepeats(ids) && forall id :: id in ids <==> InSet(before, setId, id)
    ensures rows == QuarantineSet(before, setId, path, now)
  {
    rows := before;
    var rest := ids;
    while rest != []
      invariant NoRepeats(rest) && (forall id :: id in rest ==> InSet(before, setId, id))
      invariant rows.Keys == before.Keys
      invariant forall id :: id in rows ==>
        rows[id] == if InSet(before, setId, id) && id !in rest then QuarantineRow(before[id], path, now) else before[id]
    {
      var id := rest[0];
      assert rest == [id] + rest[1..] && id in rest;
      rows := rows[id := QuarantineRow(rows[id], path, now)];
      rest := rest[1..];
    }
  }

  /** The loop of `Restore`. */
  method RestoreEach(before: Rows, setId: string, ids: seq<string>, now: int) returns (rows: Rows, any: bool)
    requires NoRepeats(ids) && forall id :: id in ids <==> InSet(before, setId, id)
    ensures rows == RestoreSet(before, setId, now)
    ensures any <==> !NoneQuarantined(before, setId)
  {
    rows, any := before, false;
    var rest := ids;
    while rest != []
      invariant NoRepeats(rest) && (forall id :: id in rest ==> InSet(before, setId, id))
      invariant rows.Keys == before.Keys
      invariant forall id :: id in rows ==>
        rows[id] == if InSet(before, setId, id) && id !in rest then RestoreRow(before[id], now) else before[id]
      invariant any ==> !NoneQuarantined(before, setId)
      invariant !any ==> forall id :: InSet(before, setId, id) && id !in rest ==> before[id].state != Quarantined
    {
      var id := rest[0];
      assert rest == [id] + rest[1..] && id in rest;
      if rows[id].state == Quarantined {
        any := true;
        rows := rows[id := rows[id].(state := Restored, restoredAt := Some(now))];
      }
      rest := rest[1..];
    }
  }

  /** The rows that expired, as they are after the purge, each once. */
  ghost predicate PurgedRows(before: Rows, rows: Rows, cutoff: int, pending: set<string>, out: seq<Row>) {
    && (forall k :: 0 <= k < |out| ==>
          && out[k].id in rows && out[k].id in before && out[k].id !in pending && out[k] == rows[out[k].id]
          && Expired(before[out[k].id], cutoff))
    && (forall id :: id in rows && id in before && id !in pending && Expired(before[id], cutoff) ==> rows[id] in out)
    && (forall i, j :: 0 <= i < j < |out| ==> out[i].id != out[j].id)
  }

  /** The loop of `PurgeExpired`. */
  method PurgeEach(before: Rows, cutoff: int, now: int) returns (rows: Rows, out: seq<Row>)
    requires forall id :: id in before ==> before[id].id == id
    ensures rows == PurgeRows(before, cutoff, now)
    ensures PurgedRows(before, rows, cutoff, {}, out)
  {
    out := [];
    rows := before;
    var pending := before.Keys;
    while pending != {}
      invariant pending <= before.Keys == rows.Keys
      invariant forall id :: id in rows ==>
        rows[id] == if id in pending then before[id] else PurgeRow(before[id], cutoff, now)
      invariant PurgedRows(before, rows, cutoff, pending, out)
    {
      hide PurgedRows;
      var id :| id in pending;
      PurgeOne(before, rows, cutoff, now, pending, out, id);
      pending := pending - {id};
      if Expired(rows[id], cutoff) {
        rows := rows[id := PurgeRow(rows[id], cutoff, now)];
        out := out + [rows[id]];
      }
    }
  }

  lemma {:induction false} PurgeOne(before: Rows, rows: Rows, cutoff: int, now: int, pending: set<string>, out: seq<Row>,
                                    id: string)
    requires PurgedRows(before, rows, cutoff, pending, out)
    requires id in pending && id in rows && id in before && rows[id] == before[id] && before[id].id == id
    ensures if Expired(rows[id], cutoff)
            then PurgedRows(before, rows[id := PurgeRow(rows[id], cutoff, now)], cutoff, pending - {id},
                            out + [PurgeRow(rows[id], cutoff, now)])
            else PurgedRows(before, rows, cutoff, pending - {id}, out)
  {
    if Expired(rows[id], cutoff) {
      var row := PurgeRow(rows[id], cutoff, now);
      var rows', out' := rows[id := row], out + [row];
      assert out'[|out|] == row;
      forall k | k in rows' && k in before && k !in pending - {id} && Expired(before[k], cutoff)
        ensures rows'[k] in out'
      {
        if k != id { assert rows[k] in out; }
      }
    }
  }

  predicate ByTime(rows: seq<Row>) {
    forall i, j :: 0 <= i < j < |rows| ==> rows[i].createdAt <= rows[j].createdAt
  }

  function InsertedByTime(row: Row, rows: seq<Row>): seq<Row> {
    if rows == [] || row.createdAt <= rows[0].createdAt then [row] + rows
    else [rows[0]] + InsertedByTime(row, rows[1..])
  }

  predicate NotBefore(t: int, rows: seq<Row>) {
    forall k :: 0 <= k < |rows| ==> t <= rows[k].createdAt
  }

  lemma {:induction false} FirstIsEarliest(row: Row, rows: seq<Row>)
    ensures ByTime([row] + rows) <==> NotBefore(row.createdAt, rows) && ByTime(rows)
  {
    var all := [row] + rows;
    assert all[0] == row && all[1..] == rows;
    if ByTime(all) {
      forall i, j | 0 <= i < j < |rows| ensures rows[i].createdAt <= rows[j].createdAt {
        assert all[i+1].createdAt <= all[j+1].createdAt;
      }
      forall k | 0 <= k < |rows| ensures row.createdAt <= rows[k].createdAt {
        assert all[0].createdAt <= all[k+1].createdAt;
      }
    }
  }

  lemma {:induction false} InsertedNotBefore(t: int, row: Row, rows: seq<Row>)
    requires t <= row.createdAt && NotBefore(t, rows)
    ensures NotBefore(t, InsertedByTime(row, rows))
  {
    if rows != [] && row.createdAt > rows[0].createdAt {
      InsertedNotBefore(t, row, rows[1..]);
    }
  }

  lemma {:induction false} EarlierNotBefore(t: int, u: int, rows: seq<Row>)
    requires t <= u && NotBefore(u, rows)
    ensures NotBefore(t, rows)
  {
  }

  lemma {:induction false} InsertedInOrder(row: Row, rows: seq<Row>)
    requires ByTime(rows)
    ensures ByTime(InsertedByTime(row, rows))
    ensures multiset(InsertedByTime(row, rows)) == multiset(rows) + multiset{row}
  {
    hide ByTime, NotBefore;
    if rows == [] {
      NoneByTime();
      FirstIsEarliest(row, []);
      NoneNotBefore(row.createdAt);
    } else {
      assert rows == [rows[0]] + rows[1..];
      FirstIsEarliest(rows[0], rows[1..]);
      if row.createdAt <= rows[0].createdAt {
        EarlierNotBefore(row.createdAt, rows[0].createdAt, rows[1..]);
        AllNotBefore(row.createdAt, rows);
        FirstIsEarliest(row, rows);
      } else {
        InsertedInOrder(row, rows[1..]);
        InsertedNotBefore(rows[0].createdAt, row, rows[1..]);
        FirstIsEarliest(rows[0], InsertedByTime(row, rows[1..]));
      }
    }
  }

  lemma {:induction false} AllNotBefore(t: int, rows: seq<Row>)
    requires rows != [] && t <= rows[0].createdAt && NotBefore(t, rows[1..])
    ensures NotBefore(t, rows)
  {
    assert rows == [rows[0]] + rows[1..];
  }

  lemma {:induction false} NoneNotBefore(t: int)
    ensures NotBefore(t, [])
  {
  }

  /** One arrangement of the rows by creation time. */
  function SortedByTime(rows: seq<Row>): seq<Row> {
    if rows == [] then [] else InsertedByTime(rows[0], SortedByTime(rows[1..]))
  }

  lemma {:induction false} SortedInOrder(rows: seq<Row>)
    ensures ByTime(SortedByTime(rows)) && multiset(SortedByTime(rows)) == multiset(rows)
  {
    hide InsertedByTime, ByTime;
    if rows == [] {
      NoneByTime();
    } else {
      assert rows == [rows[0]] + rows[1..];
      SortedInOrder(rows[1..]);
      InsertedInOrder(rows[0], SortedByTime(rows[1..]));
    }
  }

  lemma {:induction false} NoneByTime()
    ensures ByTime([])
  {
  }

  /** Every row of the set, each once. */
  ghost predicate RowsOf(artefacts: Rows, setId: string, rows: seq<Row>) {
    && (forall k :: 0 <= k < |rows| ==> InSet(artefacts, setId, rows[k].id) && rows[k] == artefacts[rows[k].id])
    && (forall id :: InSet(artefacts, setId, id) ==> artefacts[id] in rows)
    && (forall i, j :: 0 <= i < j < |rows| ==> rows[i].id != rows[j].id)
  }

  lemma {:induction false} FoundRows(artefacts: Rows, setId: string, ids: seq<string>, found: seq<Row>, rows: seq<Row>)
    requires forall id :: id in artefacts ==> artefacts[id].id == id
    requires NoRepeats(ids) && forall id :: id in ids <==> InSet(artefacts, setId, id)
    requires |found| == |ids| && forall k :: 0 <= k < |ids| ==> ids[k] in artefacts && found[k] == artefacts[ids[k]]
    requires multiset(rows) == multiset(found)
    ensures RowsOf(artefacts, setId, rows)
    ensures |rows| == |ids|
  {
    assert |multiset(rows)| == |multiset(found)|;
    forall k | 0 <= k < |rows| ensures InSet(artefacts, setId, rows[k].id) && rows[k] == artefacts[rows[k].id] {
      assert rows[k] in multiset(found);
      var j :| 0 <= j < |found| && found[j] == rows[k];
      assert ids[j] in ids;
    }
    forall id | InSet(artefacts, setId, id) ensures artefacts[id] in rows {
      assert id in ids;
      var j :| 0 <= j < |ids| && ids[j] == id;
      assert found[j] in multiset(rows);
    }
    forall i, j | 0 <= i < j < |rows| ensures rows[i].id != rows[j].id {
      FoundOnce(found, rows[i]);
      TwoOccurrences(rows, i, j);
    }
  }

  lemma {:induction false} FoundOnce(found: seq<Row>, row: Row)
    requires NoRepeats(found)
    ensures multiset(found)[row] <= 1
    decreases |found|
  {
    if found != [] {
      assert found == [found[0]] + found[1..];
      FoundOnce(found[1..], row);
      forall j | 0 <= j < |found[1..]| ensures found[1..][j] != found[0] {
        assert found[j+1] == found[1..][j];
      }
    }
  }
}
