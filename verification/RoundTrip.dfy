/** A rollback followed by a restore: what comes back, and which sets never do. */
module RoundTrip {
  import opened Wrappers
  import opened FileTree
  import opened Returns
  import opened Rollback
  import L = Ledger

  lemma {:induction false} QuarantinedIsReturnable(files: Files, mid: Tree, paths: set<Path>, root: Path, setId: string)
    requires IsQuarantined(files, mid, paths, root, QuarantineDir(root, setId))
    ensures Returnable(mid, paths, root, QuarantineDir(root, setId))
  {
    hide Relocated, Rebase, QuarantineDir, QuarantineRoot;
    Dirs(root, setId);
    forall p | p in paths ensures !Under(QuarantineDir(root, setId), p) {
      NotStaged(root, setId, p);
    }
  }

  /** The files after a rollback and a restore are the files before. */
  lemma {:induction false} FilesRoundTrip(files: Files, mid: Tree, after: Files, paths: set<Path>, root: Path, setId: string)
    requires IsQuarantined(files, mid, paths, root, QuarantineDir(root, setId))
    requires Restored(mid.files, after, paths, root, QuarantineDir(root, setId))
    ensures after == files
  {
    hide Relocated, Rebase, QuarantineDir, QuarantineRoot;
    var final := QuarantineDir(root, setId);
    forall q ensures (q in after <==> q in files) && (q in after ==> after[q] == files[q]) {
      RelocatedAt(files, paths, root, final, q);
      if q in paths {
        RebaseBack(root, final, q);
        RelocatedAt(files, paths, root, final, Rebase(root, final, q));
        NotStaged(root, setId, q);
      }
    }
    SameFiles(after, files);
  }

  /** For a set whose rows are all active or restored, both steps name the same files, and
      every row of the set ends up restored, no other row changed. */
  lemma {:induction false} RowsRoundTrip(rows: L.Rows, setId: string, path: Path, t1: int, t2: int)
    requires forall id :: L.InSet(rows, setId, id) ==> Moves(rows[id])
    ensures var mid := L.QuarantineSet(rows, setId, path, t1);
            var after := L.RestoreSet(mid, setId, t2);
            && QuarantinedPaths(mid, setId) == PathsOf(rows, setId)
            && after.Keys == rows.Keys
            && (forall id :: id in rows ==>
                  if L.InSet(rows, setId, id) then after[id].state == L.Restored && after[id].path == rows[id].path
                  else after[id] == rows[id])
  {
    var mid := L.QuarantineSet(rows, setId, path, t1);
    forall p ensures p in QuarantinedPaths(mid, setId) <==> p in PathsOf(rows, setId) {
      if p in PathsOf(rows, setId) {
        var id :| id in rows && L.InSet(rows, setId, id) && Moves(rows[id]) && rows[id].path == p;
        assert L.InSet(mid, setId, id) && mid[id].state == L.Quarantined && mid[id].path == p;
      }
      if p in QuarantinedPaths(mid, setId) {
        var id :| id in mid && L.InSet(mid, setId, id) && mid[id].state == L.Quarantined && mid[id].path == p;
        assert L.InSet(rows, setId, id) && rows[id].path == p;
      }
    }
  }

  // ---- Which sets come back ----

  /** Every row of the set is one that a rollback moves. */
  ghost predicate AllMove(rows: L.Rows, setId: string) {
    forall id :: L.InSet(rows, setId, id) ==> Moves(rows[id])
  }

  /** No file lies below another. */
  ghost predicate Flat(files: Files) {
    forall f, q :: f in files && q < f ==> q !in files
  }

  /** After a rollback nothing is in the way of the files that it moved. */
  lemma {:induction false} QuarantinedIsClear(files: Files, mid: Tree, paths: set<Path>, root: Path, setId: string)
    requires IsQuarantined(files, mid, paths, root, QuarantineDir(root, setId)) && Flat(files)
    requires forall p :: p in paths ==> InRoot(root, p)
    ensures Clear(mid, paths, root, QuarantineDir(root, setId))
  {
    hide Relocated, Rebase, QuarantineDir, QuarantineRoot, Flat, NothingUnder;
    var final := QuarantineDir(root, setId);
    QuarantinedIsReturnable(files, mid, paths, root, setId);
    forall p | p in paths
      ensures Rebase(root, final, p) in mid.files && forall q :: q < p ==> q !in mid.files && q !in paths
    {
      RebaseBack(root, final, p);
      RelocatedAt(files, paths, root, final, Rebase(root, final, p));
      NotStaged(root, setId, p);
      forall q | q < p ensures q !in mid.files && q !in paths {
        RelocatedAt(files, paths, root, final, q);
        if Under(final, q) { UnderTransitive(final, q, p); }
        NoneAbove(files, p, q);
      }
    }
  }

  lemma {:induction false} NoneAbove(files: Files, p: Path, q: Path)
    requires Flat(files) && p in files && q < p
    ensures q !in files
  {
  }

  lemma {:induction false} DifferAfter(rows: L.Rows, setId: string, path: Path, now: int)
    requires PathsDiffer(rows, setId) && AllMove(rows, setId)
    ensures QuarantinedDiffer(L.QuarantineSet(rows, setId, path, now), setId)
  {
    var mid := L.QuarantineSet(rows, setId, path, now);
    forall a, b | a in QuarantinedIds(mid, setId) && b in QuarantinedIds(mid, setId) && a != b
      ensures mid[a].path != mid[b].path
    {
      assert L.InSet(rows, setId, a) && L.InSet(rows, setId, b);
    }
  }

  ghost function MovingIds(rows: L.Rows, setId: string): set<string> {
    set id | id in rows && L.InSet(rows, setId, id) && Moves(rows[id])
  }

  /** There are at most as many images as there are elements. */
  lemma {:induction false} ImageIsSmaller(rows: L.Rows, ids: set<string>, image: set<Path>)
    requires ids <= rows.Keys
    requires forall p :: p in image ==> exists id :: id in ids && rows[id].path == p
    ensures |image| <= |ids|
    decreases |ids|
  {
    if image != {} {
      var p :| p in image;
      var id :| id in ids && rows[id].path == p;
      forall q | q in image - {p} ensures exists k :: k in ids - {id} && rows[k].path == q {
        var k :| k in ids && rows[k].path == q;
        assert k in ids - {id};
      }
      ImageIsSmaller(rows, ids - {id}, image - {p});
    }
  }

  lemma {:induction false} RebasedIsSmaller(inside: set<Path>, paths: set<Path>, root: Path, final: Path)
    requires forall f :: f in inside ==> Under(final, f) && Rebase(final, root, f) in paths
    ensures |inside| <= |paths|
    decreases |inside|
  {
    if inside != {} {
      var f :| f in inside;
      forall g | g in inside - {f} ensures Rebase(final, root, g) in paths - {Rebase(final, root, f)} {
        RebaseDistinct(final, root, f, g);
      }
      RebasedIsSmaller(inside - {f}, paths - {Rebase(final, root, f)}, root, final);
    }
  }

  /** The quarantine directory holds at most one file for each row that was moved. */
  lemma {:induction false} HeldFiles(rows: L.Rows, files: Files, mid: Tree, root: Path, setId: string)
    requires IsQuarantined(files, mid, PathsOf(rows, setId), root, QuarantineDir(root, setId))
    ensures |Inside(mid.files, QuarantineDir(root, setId))| <= |MovingIds(rows, setId)|
  {
    hide Relocated, Rebase, QuarantineDir, QuarantineRoot, NothingUnder;
    var paths, final := PathsOf(rows, setId), QuarantineDir(root, setId);
    forall f | f in Inside(mid.files, final) ensures Under(final, f) && Rebase(final, root, f) in paths {
      RelocatedAt(files, paths, root, final, f);
    }
    RebasedIsSmaller(Inside(mid.files, final), paths, root, final);
    forall p | p in paths ensures exists id :: id in MovingIds(rows, setId) && rows[id].path == p {
      var id :| id in rows && L.InSet(rows, setId, id) && Moves(rows[id]) && rows[id].path == p;
      assert id in MovingIds(rows, setId);
    }
    ImageIsSmaller(rows, MovingIds(rows, setId), paths);
  }

  /** A row that was quarantined without being moved leaves fewer files than rows. */
  lemma {:induction false} EnoughFilesMeansAllMove(rows: L.Rows, setId: string, path: Path, now: int, held: nat)
    requires held <= |MovingIds(rows, setId)|
    requires |QuarantinedIds(L.QuarantineSet(rows, setId, path, now), setId)| <= held
    ensures AllMove(rows, setId)
  {
    var all, moving := QuarantinedIds(L.QuarantineSet(rows, setId, path, now), setId), MovingIds(rows, setId);
    forall id | L.InSet(rows, setId, id) ensures id in all {
      assert L.InSet(L.QuarantineSet(rows, setId, path, now), setId, id);
    }
    assert moving <= all;
    SubsetOfSameSize(moving, all);
  }

  lemma {:induction false} SubsetOfSameSize(a: set<string>, b: set<string>)
    requires a <= b && |b| <= |a|
    ensures a == b
  {
    if x :| x in b && x !in a {
      FewerOrEqual(a, b - {x});
    }
  }

  /** The files of a set are plain files outside the quarantine, and nothing is left from an
      earlier rollback of it. */
  ghost predicate Ready(t: Tree, rows: L.Rows, setId: string, root: Path) {
    Sound(t, PathsOf(rows, setId), root, setId) && NoStaging(t, root, setId) && Flat(t.files)
  }

  /** Every row of the set is restored under its old path; no other row changed. */
  ghost predicate RowsAreBack(before: L.Rows, after: L.Rows, setId: string) {
    && after.Keys == before.Keys
    && forall id :: id in before ==>
         if L.InSet(before, setId, id) then after[id].state == L.Restored && after[id].path == before[id].path
         else after[id] == before[id]
  }

  /** What the rollback leaves, for the restore after it. */
  lemma {:induction false} AfterRollback(rows: L.Rows, files: Files, mid: Tree, root: Path, setId: string, now: int)
    requires IsQuarantined(files, mid, PathsOf(rows, setId), root, QuarantineDir(root, setId)) && Flat(files)
    requires PathsDiffer(rows, setId) && AllMove(rows, setId)
    requires forall p :: p in PathsOf(rows, setId) ==> InRoot(root, p)
    ensures var quarantined := L.QuarantineSet(rows, setId, QuarantineDir(root, setId), now);
            && QuarantinedPaths(quarantined, setId) == PathsOf(rows, setId)
            && QuarantinedDiffer(quarantined, setId)
            && Clear(mid, PathsOf(rows, setId), root, QuarantineDir(root, setId))
            && Returnable(mid, PathsOf(rows, setId), root, QuarantineDir(root, setId))
  {
    hide IsQuarantined, QuarantineDir, PathsOf, QuarantinedPaths, QuarantinedDiffer, PathsDiffer, Flat, L.QuarantineSet,
         Returnable;
    QuarantinedIsClear(files, mid, PathsOf(rows, setId), root, setId);
    DifferAfter(rows, setId, QuarantineDir(root, setId), now);
    RowsRoundTrip(rows, setId, QuarantineDir(root, setId), now, now);
  }

  lemma {:induction false} StillThere(rows: L.Rows, setId: string, path: Path, now: int)
    ensures var mid := L.QuarantineSet(rows, setId, path, now);
            && (L.SetIsEmpty(mid, setId) <==> L.SetIsEmpty(rows, setId))
            && (!L.SetIsEmpty(rows, setId) ==> !L.NoneQuarantined(mid, setId))
  {
    var mid := L.QuarantineSet(rows, setId, path, now);
    if id :| L.InSet(rows, setId, id) {
      assert L.InSet(mid, setId, id) && mid[id].state == L.Quarantined;
    }
  }

  lemma {:induction false} FinalThere(t: Tree, root: Path, final: Path)
    requires Kept(t, root, final)
    ensures final in t.dirs
  {
  }

  lemma {:induction false} RolledInRoot(paths: set<Path>, settled: bool, root: Path, failedMoves: int, failedOthers: int,
                                        outages: int)
    requires Explained(None, paths, settled, root, failedMoves, failedOthers, outages)
    ensures forall p :: p in paths ==> InRoot(root, p)
  {
  }

  lemma {:induction false} RowsCameBack(rows: L.Rows, setId: string, path: Path, t1: int, t2: int)
    requires AllMove(rows, setId)
    ensures RowsAreBack(rows, L.RestoreSet(L.QuarantineSet(rows, setId, path, t1), setId, t2), setId)
  {
    hide L.QuarantineSet, L.RestoreSet, QuarantinedPaths, PathsOf;
    RowsRoundTrip(rows, setId, path, t1, t2);
  }

  lemma {:induction false} RestoreSucceeds(err: Option<ServiceError>, paths: set<Path>, root: Path, failedMoves: int,
                                           outages: int)
    requires RestoreExplained(err, paths, false, root, failedMoves, outages)
    requires outages == 0 && !(err.Some? && err.value.MoveFailed?)
    requires forall p :: p in paths ==> InRoot(root, p)
    ensures err == None
  {
  }

  /** A rollback that succeeded, and then a restore.  When the restore succeeds too, every
      row of the set was active or restored, the files are the ones of the start and every
      row is restored.  And unless a rename or the ledger is at fault, it succeeds exactly
      when every row was: pending, quarantined and purged rows are quarantined without
      their files, and then block the restore. */
  method RollbackThenRestore(service: RollbackService, setId: string, t1: int, t2: int)
    returns (rolled: Option<ServiceError>, restored: Option<ServiceError>, ghost faults: nat, ghost outages: nat)
    requires service.ledger.Valid()
    modifies service.ledger, service.fs, service`outages
    ensures service.ledger.Valid()
    ensures Ready(old(service.fs.tree), old(service.ledger.artefacts), setId, service.root) && rolled == None ==>
      && (restored == None ==>
            && AllMove(old(service.ledger.artefacts), setId)
            && service.fs.tree.files == old(service.fs.tree.files)
            && RowsAreBack(old(service.ledger.artefacts), service.ledger.artefacts, setId))
      && (service.fs.faults == faults && service.outages == outages ==>
            (restored == None <==> AllMove(old(service.ledger.artefacts), setId)))
  {
    hide Sound, NoStaging, Flat, PathsOf, IsQuarantined, PathsDiffer, Kept, Clear, Returnable, Restored, Explained,
         RestoreExplained, WentBack, Undoable, NoneReoccupied, Inside, Members, AllMove, RowsAreBack, InRoot,
         QuarantineDir, L.QuarantineSet, L.RestoreSet, L.SetIsEmpty, L.NoneQuarantined, L.AllSettled,
         QuarantinedPaths, QuarantinedIds, QuarantinedDiffer;
    ghost var files, rows, root := service.fs.tree.files, service.ledger.artefacts, service.root;
    ghost var final, ready := QuarantineDir(service.root, setId), Ready(service.fs.tree, rows, setId, service.root);
    rolled := service.Rollback(setId, t1);
    faults, outages := service.fs.faults, service.outages;
    if rolled.Some? {
      return rolled, rolled, faults, outages;
    }
    RolledInRoot(PathsOf(rows, setId), L.AllSettled(rows, setId), root,
                 service.fs.failedMoves - old(service.fs.failedMoves), service.fs.failedOthers - old(service.fs.failedOthers),
                 service.outages - old(service.outages));
    ghost var mid := service.fs.tree;
    ghost var quarantined := L.QuarantineSet(rows, setId, final, t1);
    StillThere(rows, setId, final, t1);
    ghost var made;
    ghost var failedMoves := service.fs.failedMoves;
    restored, made := service.Restore(setId, t2);
    if ready {
      FinalThere(mid, root, final);
      if restored == None {
        HeldFiles(rows, files, mid, root, setId);
        EnoughFilesMeansAllMove(rows, setId, final, t1, |Inside(mid.files, final)|);
      }
      if AllMove(rows, setId) {
        AfterRollback(rows, files, mid, root, setId, t1);
        if restored == None {
          FilesRoundTrip(files, mid, service.fs.tree.files, PathsOf(rows, setId), root, setId);
          RowsCameBack(rows, setId, final, t1, t2);
        } else if service.fs.faults == faults && service.outages == outages {
          RestoreSucceeds(restored, PathsOf(rows, setId), root, service.fs.failedMoves - failedMoves, 0);
        }
      }
    }
  }
}
