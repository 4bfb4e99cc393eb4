/** The purge service (purge.go): expired rows leave the ledger's quarantine, then their
    sets' directories are removed. */
module Purge {
  import opened Wrappers
  import opened FileTree
  import L = Ledger
  import R = Rollback

  /** Every quarantined row lies in its own set's directory, where the rollback service
      puts it. */
  ghost predicate InOwnDirectory(rows: L.Rows, root: Path) {
    forall id :: id in rows && rows[id].state == L.Quarantined ==>
      rows[id].quarantinePath == R.QuarantineDir(root, rows[id].setId)
  }

  /** Every ledger operation keeps that, the rollback because of the path it is given. */
  lemma {:induction false} OwnDirectoryKept(rows: L.Rows, root: Path, setId: string, id: string, row: L.Row, cutoff: int,
                                            now: int)
    requires InOwnDirectory(rows, root)
    ensures row.state == L.Pending ==> InOwnDirectory(rows[row.id := row], root)
    ensures id in rows ==> InOwnDirectory(rows[id := rows[id].(state := L.Active)], root)
    ensures InOwnDirectory(L.QuarantineSet(rows, setId, R.QuarantineDir(root, setId), now), root)
    ensures InOwnDirectory(L.RestoreSet(rows, setId, now), root)
    ensures InOwnDirectory(L.PurgeRows(rows, cutoff, now), root)
  {
    hide R.QuarantineDir;
  }

  lemma {:induction false} SetsApart(root: Path, a: string, b: string, q: Path)
    ensures Under(R.QuarantineDir(root, a), q) && Under(R.QuarantineDir(root, b), q) ==> a == b
  {
    var da, db := R.QuarantineDir(root, a), R.QuarantineDir(root, b);
    Nested(da, db, q);
    if Under(da, q) && Under(db, q) {
      assert da == db;
      assert da[|root| + 1] == a && db[|root| + 1] == b;
    }
  }

  /** The directories of the sets the rows belong to. */
  ghost predicate DirectoriesOf(rows: seq<L.Row>, dirs: map<string, Path>) {
    && (forall row :: row in rows && row.quarantinePath != [] ==> row.setId in dirs)
    && (forall setId :: setId in dirs ==>
          exists row :: row in rows && row.setId == setId && row.quarantinePath == dirs[setId])
  }

  method TouchedSets(rows: seq<L.Row>) returns (dirs: map<string, Path>)
    ensures DirectoriesOf(rows, dirs)
  {
    dirs := map[];
    for i := 0 to |rows|
      invariant DirectoriesOf(rows[..i], dirs)
    {
      assert rows[..i+1] == rows[..i] + [rows[i]];
      ghost var before := dirs;
      if rows[i].quarantinePath != [] {
        dirs := dirs[rows[i].setId := rows[i].quarantinePath];
      }
      forall setId | setId in dirs
        ensures exists row :: row in rows[..i+1] && row.setId == setId && row.quarantinePath == dirs[setId]
      {
        if setId == rows[i].setId && rows[i].quarantinePath != [] {
          assert rows[i] in rows[..i+1];
        } else {
          var row :| row in rows[..i] && row.setId == setId && row.quarantinePath == before[setId];
          assert row in rows[..i+1];
        }
      }
    }
    assert rows[..|rows|] == rows;
  }

  /** The touched sets are exactly those with an expired row; each of them is done, and its
      directory is its own. */
  lemma {:induction false} TouchedSetsAreDone(rows: L.Rows, out: seq<L.Row>, dirs: map<string, Path>, root: Path,
                                              cutoff: int, now: int, setId: string)
    requires L.QuarantinedTogether(rows) && InOwnDirectory(rows, root)
    requires L.PurgedRows(rows, L.PurgeRows(rows, cutoff, now), cutoff, {}, out)
    requires DirectoriesOf(out, dirs)
    ensures setId in dirs <==> exists id :: L.InSet(rows, setId, id) && L.Expired(rows[id], cutoff)
    ensures setId in dirs ==>
              dirs[setId] == R.QuarantineDir(root, setId) && L.NoneQuarantined(L.PurgeRows(rows, cutoff, now), setId)
  {
    hide L.QuarantinedTogether, L.NoneQuarantined;
    L.SetsExpireTogether(rows, setId, cutoff, now);
    if setId in dirs {
      var row :| row in out && row.setId == setId && row.quarantinePath == dirs[setId];
      var k :| 0 <= k < |out| && out[k] == row;
      assert L.InSet(rows, setId, row.id) && L.Expired(rows[row.id], cutoff);
    }
    if id :| L.InSet(rows, setId, id) && L.Expired(rows[id], cutoff) {
      assert L.PurgeRows(rows, cutoff, now)[id] in out;
    }
  }

  /** A directory that gets purged holds no file of a row that stays quarantined. */
  lemma {:induction false} PurgedDirectoriesAreDone(rows: L.Rows, root: Path, setId: string, id: string, q: Path)
    requires InOwnDirectory(rows, root) && L.NoneQuarantined(rows, setId)
    requires id in rows && rows[id].state == L.Quarantined
    ensures !(Under(R.QuarantineDir(root, setId), q) && Under(rows[id].quarantinePath, q))
  {
    hide R.QuarantineDir;
    assert L.InSet(rows, rows[id].setId, id);
    SetsApart(root, setId, rows[id].setId, q);
  }

  class PurgeService {
    const root: Path
    const ledger: L.MemoryArtefactLedger
    const fs: FileSystem

    constructor (root: Path, ledger: L.MemoryArtefactLedger, fs: FileSystem)
      ensures this.root == root && this.ledger == ledger && this.fs == fs
    {
      this.root, this.ledger, this.fs := root, ledger, fs;
    }

    /** `Run`: exactly the rows quarantined before the cutoff are purged, whole sets at a
        time, and no file of a set that stays quarantined, nor any file outside the purged
        directories, is touched. */
    method Run(cutoff: int, now: int)
      returns (purged: nat, failed: bool, ghost dirs: map<string, Path>, ghost rows: seq<L.Row>)
      requires ledger.Valid() && InOwnDirectory(ledger.artefacts, root)
      modifies ledger, fs
      ensures ledger.Valid() && InOwnDirectory(ledger.artefacts, root)
      ensures ledger.artefacts == L.PurgeRows(old(ledger.artefacts), cutoff, now)
      ensures L.PurgedRows(old(ledger.artefacts), ledger.artefacts, cutoff, {}, rows) && purged == |rows|
      ensures failed <==> fs.failedOthers > old(fs.failedOthers)
      ensures forall setId :: setId in dirs <==>
                exists id :: L.InSet(old(ledger.artefacts), setId, id) && L.Expired(old(ledger.artefacts)[id], cutoff)
      ensures forall setId :: setId in dirs ==>
                dirs[setId] == R.QuarantineDir(root, setId) && L.NoneQuarantined(ledger.artefacts, setId)
      ensures forall q :: (forall setId :: setId in dirs ==> !Under(dirs[setId], q)) ==>
                && (q in fs.tree.files <==> q in old(fs.tree.files))
                && (q in fs.tree.files ==> fs.tree.files[q] == old(fs.tree.files)[q])
      ensures forall q, id :: id in ledger.artefacts && ledger.artefacts[id].state == L.Quarantined
                              && Under(ledger.artefacts[id].quarantinePath, q) ==>
                (q in fs.tree.files <==> q in old(fs.tree.files))
      ensures !failed ==> forall setId :: setId in dirs ==> NothingUnder(fs.tree.files, dirs[setId])
    {
      hide L.PurgeRows, L.PurgedRows, DirectoriesOf, L.NoneQuarantined, L.QuarantinedTogether, R.QuarantineDir, InOwnDirectory,
           L.BySet, L.ByForge;
      ghost var before, files := ledger.artefacts, fs.tree.files;
      OwnDirectoryKept(before, root, "", "", L.Row("", [], "", "", 0, L.Pending, None, [], None, None), cutoff, now);
      var out := ledger.PurgeExpired(cutoff, now);
      var touched := TouchedSets(out);
      dirs, rows := touched, out;
      forall setId
        ensures setId in dirs <==> exists id :: L.InSet(before, setId, id) && L.Expired(before[id], cutoff)
        ensures setId in dirs ==> dirs[setId] == R.QuarantineDir(root, setId) && L.NoneQuarantined(ledger.artefacts, setId)
      {
        TouchedSetsAreDone(before, out, dirs, root, cutoff, now, setId);
      }
      failed := RemoveAllOf(touched);
      purged := |out|;
      forall q, id | id in ledger.artefacts && ledger.artefacts[id].state == L.Quarantined
                     && Under(ledger.artefacts[id].quarantinePath, q)
        ensures q in fs.tree.files <==> q in files
      {
        forall setId | setId in dirs ensures !Under(dirs[setId], q) {
          PurgedDirectoriesAreDone(ledger.artefacts, root, setId, id, q);
        }
      }
    }

    /** Removes the directories one after the other, going on after a failure. */
    method RemoveAllOf(dirs: map<string, Path>) returns (failed: bool)
      modifies fs
      ensures forall q :: (forall setId :: setId in dirs ==> !Under(dirs[setId], q)) ==>
                && (q in fs.tree.files <==> q in old(fs.tree.files))
                && (q in fs.tree.files ==> fs.tree.files[q] == old(fs.tree.files)[q])
      ensures !failed ==> forall setId :: setId in dirs ==> NothingUnder(fs.tree.files, dirs[setId])
      ensures failed <==> fs.failedOthers > old(fs.failedOthers)
    {
      failed := false;
      var pending := dirs.Keys;
      while pending != {}
        invariant pending <= dirs.Keys
        invariant fs.failedOthers >= old(fs.failedOthers)
        invariant failed <==> fs.failedOthers > old(fs.failedOthers)
        invariant forall q :: (forall setId :: setId in dirs ==> !Under(dirs[setId], q)) ==>
                    && (q in fs.tree.files <==> q in old(fs.tree.files))
                    && (q in fs.tree.files ==> fs.tree.files[q] == old(fs.tree.files)[q])
        invariant !failed ==>
          forall setId :: setId in dirs && setId !in pending ==> NothingUnder(fs.tree.files, dirs[setId])
      {
        var setId :| setId in pending;
        pending := pending - {setId};
        var ok := fs.RemoveAll(dirs[setId]);
        failed := failed || !ok;
      }
    }
  }
}
