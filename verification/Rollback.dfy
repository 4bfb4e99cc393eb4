/** The two-phase rollback and its inverse (rollback.go): move the files of a set into a
    staging directory one by one, commit with one rename, update the ledger, and undo
    everything on the first failure. */
module Rollback {
  import opened Wrappers
  import opened FileTree
  import opened Returns
  import L = Ledger

  datatype ServiceError =
    | SetIdRequired
    | RootEmpty
    | LedgerFailed(error: L.LedgerError)
    | LedgerUnavailable
    | AlreadyRolledBack
    | NotQuarantined
    | MkdirFailed
    | OutsideRoot(path: Path)
    | MoveFailed(path: Path)
    | CommitFailed

  function QuarantineRoot(root: Path): Path {
    root + ["quarantine"]
  }

  function QuarantineDir(root: Path, setId: string): Path {
    QuarantineRoot(root) + [setId]
  }

  function StagingDir(root: Path, setId: string): Path {
    QuarantineRoot(root) + [".staging-" + setId]
  }

  predicate Moves(row: L.Row) {
    row.state == L.Active || row.state == L.Restored
  }

  /** The renames whose failure this error reports. */
  function FailedMoves(err: Option<ServiceError>): nat {
    if err.Some? && (err.value.MoveFailed? || err.value.CommitFailed?) then 1 else 0
  }

  /** Once there is something to move, it fails only for a reason: an operation failed, a
      path lies outside the root, or the ledger would not or could not take the update.
      Without any of these it succeeds. */
  ghost predicate Explained(err: Option<ServiceError>, paths: set<Path>, settled: bool, root: Path,
                            failedMoves: int, failedOthers: int, outages: int)
  {
    match err
    case None => !settled && outages == 0 && forall p :: p in paths ==> InRoot(root, p)
    case Some(MkdirFailed) => failedOthers > 0
    case Some(OutsideRoot(p)) => p in paths && !InRoot(root, p)
    case Some(MoveFailed(p)) => p in paths && failedMoves > 0
    case Some(CommitFailed) => failedMoves > 0
    case Some(LedgerUnavailable) => outages > 0
    case Some(LedgerFailed(_)) => settled
    case _ => false
  }

  ghost predicate RestoreExplained(err: Option<ServiceError>, paths: set<Path>, none: bool, root: Path,
                                   failedMoves: int, outages: int)
  {
    match err
    case None => !none && outages == 0 && forall p :: p in paths ==> InRoot(root, p)
    case Some(OutsideRoot(p)) => p in paths && !InRoot(root, p)
    case Some(MoveFailed(_)) => failedMoves > 0
    case Some(LedgerUnavailable) => outages > 0
    case Some(LedgerFailed(_)) => none
    case _ => false
  }

  // ---- Undoing ----

  /** `reverse`: moves everything back, going on after a failure. */
  method Reverse(fs: FileSystem, moves: seq<Move>)
    modifies fs
    ensures fs.failedMoves >= old(fs.failedMoves) && fs.faults >= old(fs.faults)
    ensures fs.failedMoves == old(fs.failedMoves) && Undone(old(fs.tree.files), moves).Some? ==>
              fs.tree.files == Undone(old(fs.tree.files), moves).value
  {
    var rest := moves;
    while rest != []
      invariant fs.failedMoves >= old(fs.failedMoves) && fs.faults >= old(fs.faults)
      invariant fs.failedMoves == old(fs.failedMoves) && Undone(old(fs.tree.files), moves).Some? ==>
        Undone(fs.tree.files, rest) == Undone(old(fs.tree.files), moves)
    {
      var last := rest[|rest|-1];
      var moved := fs.Move(last.to, last.from);
      rest := rest[..|rest|-1];
    }
  }

  // ---- Rollback ----

  function Froms(moves: seq<Move>): set<Path> {
    set i | 0 <= i < |moves| :: moves[i].from
  }

  lemma {:induction false} FromsStep(moves: seq<Move>, m: Move)
    ensures Froms(moves + [m]) == Froms(moves) + {m.from}
  {
    assert forall i :: 0 <= i < |moves| ==> (moves + [m])[i] == moves[i];
    assert (moves + [m])[|moves|] == m;
    forall p | p in Froms(moves) + {m.from} ensures p in Froms(moves + [m]) {
      if p in Froms(moves) {
        var i :| 0 <= i < |moves| && moves[i].from == p;
        assert (moves + [m])[i].from == p;
      }
    }
  }

  /** The paths the rollback of a set has to move. */
  ghost function PathsOf(rows: L.Rows, setId: string): set<Path> {
    set id | id in rows && L.InSet(rows, setId, id) && Moves(rows[id]) :: rows[id].path
  }

  function PathsAmong(rows: seq<L.Row>): set<Path> {
    set i | 0 <= i < |rows| && Moves(rows[i]) :: rows[i].path
  }

  lemma {:induction false} PathsAmongStep(rows: seq<L.Row>, row: L.Row)
    ensures PathsAmong(rows + [row]) == PathsAmong(rows) + if Moves(row) then {row.path} else {}
  {
    var all := rows + [row];
    assert forall i :: 0 <= i < |rows| ==> all[i] == rows[i];
    assert all[|rows|] == row;
    forall p | p in PathsAmong(rows) ensures p in PathsAmong(all) {
      var i :| 0 <= i < |rows| && Moves(rows[i]) && rows[i].path == p;
      assert all[i].path == p;
    }
  }

  lemma {:induction false} PathsAmongAll(rows: L.Rows, setId: string, found: seq<L.Row>)
    requires L.RowsOf(rows, setId, found)
    ensures PathsAmong(found) == PathsOf(rows, setId)
  {
    forall p | p in PathsOf(rows, setId) ensures p in PathsAmong(found) {
      var id :| id in rows && L.InSet(rows, setId, id) && Moves(rows[id]) && rows[id].path == p;
      assert rows[id] in found;
    }
  }

  /** The files to move are files, outside the quarantine, and nothing is staged yet. */
  ghost predicate Sound(t: Tree, paths: set<Path>, root: Path, setId: string) {
    && NothingUnder(t.files, StagingDir(root, setId))
    && forall p :: p in paths ==> p !in t.dirs && !Under(QuarantineRoot(root), p)
  }

  /** Distinct files of the start, outside the quarantine, each to its own staged place. */
  ghost predicate Listed(files: Files, moves: seq<Move>, root: Path, dest: Path) {
    && (forall i :: 0 <= i < |moves| ==>
          && Under(root, moves[i].from) && moves[i].to == Rebase(root, dest, moves[i].from)
          && moves[i].from in files && !Under(QuarantineRoot(root), moves[i].from))
    && (forall i, j :: 0 <= i < j < |moves| ==> moves[i].from != moves[j].from)
  }

  lemma {:induction false} ListedFroms(files: Files, moves: seq<Move>, root: Path, dest: Path)
    requires Listed(files, moves, root, dest)
    ensures forall p :: p in Froms(moves) ==> Under(root, p) && p in files && !Under(QuarantineRoot(root), p)
  {
  }

  lemma {:induction false} ListedStep(files: Files, moves: seq<Move>, root: Path, dest: Path, p: Path)
    requires Listed(files, moves, root, dest)
    requires p in files && p !in Froms(moves) && Under(root, p) && !Under(QuarantineRoot(root), p)
    ensures Listed(files, moves + [Move(p, Rebase(root, dest, p))], root, dest)
  {
    forall i | 0 <= i < |moves| ensures moves[i].from != p {
      assert moves[i].from in Froms(moves);
    }
  }

  lemma {:induction false} ListedPrefix(files: Files, moves: seq<Move>, root: Path, dest: Path)
    requires Listed(files, moves, root, dest) && moves != []
    ensures var last := moves[|moves|-1];
            && Listed(files, moves[..|moves|-1], root, dest)
            && last.from !in Froms(moves[..|moves|-1])
            && Froms(moves) == Froms(moves[..|moves|-1]) + {last.from}
  {
    var before, last := moves[..|moves|-1], moves[|moves|-1];
    assert moves == before + [last];
    FromsStep(before, last);
  }

  /** Undoing the staged moves gives back the files of the start. */
  lemma {:induction false} UndoneStaged(files: Files, moves: seq<Move>, root: Path, dest: Path)
    requires Listed(files, moves, root, dest) && NothingUnder(files, dest)
    requires forall p :: p in Froms(moves) ==> Under(root, p) && p in files
    ensures Undone(Relocated(files, Froms(moves), root, dest), moves) == Some(files)
    decreases |moves|
  {
    if moves == [] {
      RelocatedNone(files, root, dest);
      assert Froms(moves) == {};
    } else {
      var before, last := moves[..|moves|-1], moves[|moves|-1];
      ListedPrefix(files, moves, root, dest);
      ListedFroms(files, before, root, dest);
      RelocateOne(files, Froms(before), root, dest, last.from);
      UndoneStaged(files, before, root, dest);
    }
  }

  /** How far the first phase has come: the files moved so far are staged, nothing else
      has changed. */
  ghost predicate Staged(t: Tree, t0: Tree, moves: seq<Move>, root: Path, setId: string) {
    var staging := StagingDir(root, setId);
    && NothingUnder(t0.files, staging)
    && (forall q :: q in t0.files ==> !Under(q, staging))
    && (forall d :: d in t.dirs ==> d in t0.dirs || Under(d, staging) || Under(staging, d))
    && Listed(t0.files, moves, root, staging)
    && (forall i :: 0 <= i < |moves| ==> moves[i].to !in t.dirs)
    && (forall p :: p in Froms(moves) ==> Under(root, p) && p in t0.files)
    && t.files == Relocated(t0.files, Froms(moves), root, staging)
  }

  lemma {:induction false} Dirs(root: Path, setId: string)
    ensures var staging, final, q := StagingDir(root, setId), QuarantineDir(root, setId), QuarantineRoot(root);
            && Under(q, staging) && Under(q, final) && Under(root, q) && Under(root, staging) && Under(root, final)
            && !Under(staging, final) && !Under(final, staging)
            && |staging| == |final| == |root| + 2
  {
    var staging, final := StagingDir(root, setId), QuarantineDir(root, setId);
    assert |".staging-" + setId| == 9 + |setId|;
    assert staging[|root| + 1] != final[|root| + 1];
  }

  lemma {:induction false} StagingBegins(t0: Tree, t: Tree, root: Path, setId: string)
    requires NothingUnder(t0.files, StagingDir(root, setId)) && CanMakeDirs(t0, StagingDir(root, setId))
    requires t.files == t0.files
    requires t.dirs <= t0.dirs + Parents(StagingDir(root, setId)) + {StagingDir(root, setId)}
    ensures Staged(t, t0, [], root, setId)
  {
    var staging := StagingDir(root, setId);
    RelocatedNone(t0.files, root, staging);
    assert Froms([]) == {};
    forall q | q in t0.files ensures !Under(q, staging) {
      assert Under(q, staging) && q != staging ==> q in Parents(staging);
    }
  }

  /** A staged file is a file in the staging directory, and not a directory. */
  lemma {:induction false} StagedFiles(t: Tree, t0: Tree, moves: seq<Move>, root: Path, setId: string)
    requires Staged(t, t0, moves, root, setId)
    ensures forall i :: 0 <= i < |moves| ==> moves[i].to in t.files
    ensures StagingDir(root, setId) !in t.files
  {
    hide Relocated, Rebase, NothingUnder, QuarantineRoot;
    var staging := StagingDir(root, setId);
    forall i | 0 <= i < |moves| ensures moves[i].to in t.files {
      RebaseBack(root, staging, moves[i].from);
      RelocatedAt(t0.files, Froms(moves), root, staging, moves[i].to);
      assert moves[i].from in Froms(moves);
    }
    RelocatedAt(t0.files, Froms(moves), root, staging, staging);
    StagingItself(root, setId);
  }

  lemma {:induction false} StagingItself(root: Path, setId: string)
    ensures Under(StagingDir(root, setId), StagingDir(root, setId))
    ensures Rebase(StagingDir(root, setId), root, StagingDir(root, setId)) == root
    ensures Under(root, StagingDir(root, setId))
  {
  }

  /** A successful move of one more path stages one more file. */
  lemma {:induction false} StageOne(t: Tree, t0: Tree, moves: seq<Move>, root: Path, setId: string, p: Path)
    requires Staged(t, t0, moves, root, setId)
    requires p !in t0.dirs && !Under(QuarantineRoot(root), p) && Under(root, p)
    requires CanMove(t, p, Rebase(root, StagingDir(root, setId), p))
    ensures var to := Rebase(root, StagingDir(root, setId), p);
            Staged(Moved(t, p, to), t0, moves + [Move(p, to)], root, setId)
    ensures p in t.files && p !in Froms(moves)
  {
    hide Relocated, NothingUnder, QuarantineRoot, Listed, Froms, StagingDir;
    var staging := StagingDir(root, setId);
    var to := Rebase(root, staging, p);
    Dirs(root, setId);
    assert Under(staging, to);
    NotStaged(root, setId, p);
    StagedIsFile(t, t0, moves, root, setId, p);
    RelocatedAt(t0.files, Froms(moves), root, staging, p);
    RelocateOne(t0.files, Froms(moves), root, staging, p);
    FromsStep(moves, Move(p, to));
    ListedStep(t0.files, moves, root, staging, p);
    StagedFiles(t, t0, moves, root, setId);
    forall d | d in Parents(to) ensures Under(d, staging) || Under(staging, d) {
      Nested(d, staging, to);
    }
  }

  lemma {:induction false} NotStaged(root: Path, setId: string, p: Path)
    requires !Under(QuarantineRoot(root), p)
    ensures !Under(StagingDir(root, setId), p) && !Under(QuarantineDir(root, setId), p)
  {
    Dirs(root, setId);
    if Under(StagingDir(root, setId), p) { UnderTransitive(QuarantineRoot(root), StagingDir(root, setId), p); }
    if Under(QuarantineDir(root, setId), p) { UnderTransitive(QuarantineRoot(root), QuarantineDir(root, setId), p); }
  }

  lemma {:induction false} StagedIsFile(t: Tree, t0: Tree, moves: seq<Move>, root: Path, setId: string, p: Path)
    requires Staged(t, t0, moves, root, setId)
    requires p !in t0.dirs && !Under(StagingDir(root, setId), p) && Under(root, p)
    requires CanMove(t, p, Rebase(root, StagingDir(root, setId), p))
    ensures p in t.files
  {
    hide Relocated, NothingUnder, Listed, Froms, StagingDir;
    var staging := StagingDir(root, setId);
    if p !in t.files && Under(p, staging) {
      UnderTransitive(p, staging, Rebase(root, staging, p));
    }
  }

  /** Every file of `paths` is in the quarantine directory under its relative path and
      every other file is where it was. */
  ghost predicate IsQuarantined(files: Files, t: Tree, paths: set<Path>, root: Path, final: Path) {
    && NothingUnder(files, final)
    && (forall p :: p in paths ==> Under(root, p) && p in files && !Under(QuarantineRoot(root), p))
    && t.files == Relocated(files, paths, root, final)
    && (forall p :: p in paths ==> Rebase(root, final, p) !in t.dirs && p !in t.dirs)
  }

  /** No directory below `dir` is empty. */
  ghost predicate Snug(t: Tree, dir: Path) {
    forall d :: d in t.dirs && Under(dir, d) && d != dir ==> exists f :: f in t.files && d < f
  }

  lemma {:induction false} SnugStep(t: Tree, dir: Path, p: Path, to: Path)
    requires Snug(t, dir) && !Under(dir, p) && p in t.files && CanMove(t, p, to)
    ensures Snug(Moved(t, p, to), dir)
  {
    var t' := Moved(t, p, to);
    forall d | d in t'.dirs && Under(dir, d) && d != dir ensures exists f :: f in t'.files && d < f {
      if d in t.dirs {
        var f :| f in t.files && d < f;
        if f == p { UnderTransitive(dir, d, p); }
        assert f in t'.files;
      } else {
        assert to in t'.files && d < to;
      }
    }
  }

  lemma {:induction false} SnugRenamed(t: Tree, src: Path, dst: Path)
    requires Snug(t, src) && src !in t.files && CanMove(t, src, dst) && !Under(src, dst) && !Under(dst, src)
    ensures Snug(Moved(t, src, dst), dst) && dst in Moved(t, src, dst).dirs && dst !in Moved(t, src, dst).files
  {
    hide MoveDir, NothingUnder;
    var t' := Moved(t, src, dst);
    RebaseItself(src, dst);
    MoveDirAt(t.files, src, dst, dst);
    assert Rebase(src, dst, src) in t'.dirs;
    forall d | d in t'.dirs && Under(dst, d) && d != dst ensures exists f :: f in t'.files && d < f {
      assert d !in Parents(dst);
      var e :| e in t.dirs + Parents(dst) && Under(src, e) && d == Rebase(src, dst, e);
      if e in Parents(dst) { UnderTransitive(src, e, dst); }
      var f :| f in t.files && e < f;
      UnderTransitive(src, e, f);
      RebaseBack(src, dst, f);
      MoveDirAt(t.files, src, dst, Rebase(src, dst, f));
      RebaseBelow(src, dst, e, f);
    }
  }

  lemma {:induction false} RebaseItself(src: Path, dst: Path)
    ensures Rebase(src, dst, src) == dst && Rebase(dst, src, dst) == src && Under(dst, dst)
  {
  }

  lemma {:induction false} RebaseBelow(src: Path, dst: Path, e: Path, f: Path)
    requires Under(src, e) && e < f
    ensures Under(src, f) && Rebase(src, dst, e) < Rebase(src, dst, f)
  {
    UnderTransitive(src, e, f);
    assert f == e + f[|e|..];
    assert f[|src|..] == e[|src|..] + f[|e|..];
    assert Rebase(src, dst, f) == Rebase(src, dst, e) + f[|e|..];
  }

  lemma {:induction false} NothingFinal(t: Tree, t0: Tree, moves: seq<Move>, root: Path, setId: string)
    requires Staged(t, t0, moves, root, setId) && NothingUnder(t.files, QuarantineDir(root, setId))
    ensures NothingUnder(t0.files, QuarantineDir(root, setId))
  {
    hide Relocated, Rebase, QuarantineRoot, Froms, StagingDir, QuarantineDir;
    var staging, final := StagingDir(root, setId), QuarantineDir(root, setId);
    Dirs(root, setId);
    forall q | q in t0.files ensures !Under(final, q) {
      RelocatedAt(t0.files, Froms(moves), root, staging, q);
      Nested(staging, final, q);
      ListedFroms(t0.files, moves, root, staging);
      if Under(final, q) { UnderTransitive(QuarantineRoot(root), final, q); }
    }
  }

  /** The commit: one rename puts every staged file into the quarantine directory. */
  lemma {:induction false} Commit(t: Tree, t0: Tree, moves: seq<Move>, root: Path, setId: string)
    requires Staged(t, t0, moves, root, setId)
    requires forall p :: p in Froms(moves) ==> p !in t0.dirs
    requires CanMove(t, StagingDir(root, setId), QuarantineDir(root, setId))
    ensures IsQuarantined(t0.files, Moved(t, StagingDir(root, setId), QuarantineDir(root, setId)), Froms(moves), root,
                          QuarantineDir(root, setId))
  {
    hide Relocated, Rebase, NothingUnder, QuarantineRoot, Froms, MoveDir, MoveDirs, MoveFile, StagingDir, QuarantineDir;
    var staging, final := StagingDir(root, setId), QuarantineDir(root, setId);
    StagedFiles(t, t0, moves, root, setId);
    NothingFinal(t, t0, moves, root, setId);
    Dirs(root, setId);
    RenameRelocated(t0.files, Froms(moves), root, staging, final);
    ListedFroms(t0.files, moves, root, staging);
    forall p | p in Froms(moves)
      ensures Rebase(root, final, p) !in Moved(t, staging, final).dirs && p !in Moved(t, staging, final).dirs
    {
      CommittedDirs(t, t0, moves, root, setId, p);
      CommittedPaths(t, t0, moves, root, setId, p);
    }
  }

  /** A file that was moved away is not a directory afterwards. */
  lemma {:induction false} CommittedPaths(t: Tree, t0: Tree, moves: seq<Move>, root: Path, setId: string, p: Path)
    requires Staged(t, t0, moves, root, setId) && p in Froms(moves)
    requires p !in t0.dirs && !Under(QuarantineRoot(root), p)
    requires StagingDir(root, setId) !in t.files
    requires CanMove(t, StagingDir(root, setId), QuarantineDir(root, setId))
    ensures p !in Moved(t, StagingDir(root, setId), QuarantineDir(root, setId)).dirs
  {
    hide Relocated, NothingUnder, MoveDir, MoveFile, Rebase;
    var staging, final, q := StagingDir(root, setId), QuarantineDir(root, setId), QuarantineRoot(root);
    Dirs(root, setId);
    NotStaged(root, setId, p);
    assert !Under(p, staging);
    if Under(p, final) {
      Nested(p, q, final);
      UnderTransitive(p, q, staging);
    }
    if d :| d in t.dirs + Parents(final) && Under(staging, d) && Rebase(staging, final, d) == p {
      RebaseBack(staging, final, d);
    }
  }

  lemma {:induction false} CommittedDirs(t: Tree, t0: Tree, moves: seq<Move>, root: Path, setId: string, p: Path)
    requires Staged(t, t0, moves, root, setId) && p in Froms(moves)
    requires StagingDir(root, setId) !in t.files
    requires CanMove(t, StagingDir(root, setId), QuarantineDir(root, setId))
    ensures Under(root, p)
    ensures Rebase(root, QuarantineDir(root, setId), p) !in Moved(t, StagingDir(root, setId), QuarantineDir(root, setId)).dirs
  {
    hide Relocated, NothingUnder, QuarantineRoot, MoveDir, MoveFile, StagingDir, QuarantineDir;
    var staging, final := StagingDir(root, setId), QuarantineDir(root, setId);
    Dirs(root, setId);
    var i :| 0 <= i < |moves| && moves[i].from == p;
    var to, dst := Rebase(root, staging, p), Rebase(root, final, p);
    assert p != root by { assert root in t0.files ==> !Under(root, staging); }
    assert |dst| > |final|;
    assert Under(final, dst);
    assert dst !in t.dirs + Parents(final);
    if d :| d in t.dirs + Parents(final) && Under(staging, d) && Rebase(staging, final, d) == dst {
      RebaseTwice(root, staging, final, p);
      RebaseDistinct(staging, final, d, to);
    }
  }

  /** Undoing the commit after the ledger refused. */
  lemma {:induction false} Uncommit(files: Files, t: Tree, paths: set<Path>, root: Path, setId: string)
    requires IsQuarantined(files, t, paths, root, QuarantineDir(root, setId))
    requires NothingUnder(files, StagingDir(root, setId)) && root !in files
    requires CanMove(t, QuarantineDir(root, setId), StagingDir(root, setId))
    ensures Moved(t, QuarantineDir(root, setId), StagingDir(root, setId)).files
            == Relocated(files, paths, root, StagingDir(root, setId))
  {
    hide Relocated, NothingUnder, QuarantineRoot, MoveDir, MoveDirs, MoveFile, StagingDir, QuarantineDir;
    var staging, final := StagingDir(root, setId), QuarantineDir(root, setId);
    Dirs(root, setId);
    RelocatedAt(files, paths, root, final, final);
    assert Rebase(final, root, final) == root;
    RenameRelocated(files, paths, root, final, staging);
  }

  lemma {:induction false} RootIsNoFile(t: Tree, t0: Tree, moves: seq<Move>, root: Path, setId: string)
    requires Staged(t, t0, moves, root, setId)
    ensures root !in t0.files
  {
    Dirs(root, setId);
  }

  class RollbackService {
    const root: Path
    const ledger: L.MemoryArtefactLedger
    const fs: FileSystem
    /** How often the ledger could not be reached. */
    ghost var outages: nat

    constructor (root: Path, ledger: L.MemoryArtefactLedger, fs: FileSystem)
      ensures this.root == root && this.ledger == ledger && this.fs == fs && outages == 0
    {
      this.root, this.ledger, this.fs, outages := root, ledger, fs, 0;
    }

    /** The ledger update; a ledger kept elsewhere may also be unreachable. */
    method UpdateLedger(setId: string, now: int) returns (err: Option<ServiceError>)
      requires ledger.Valid()
      modifies ledger, `outages
      ensures ledger.Valid()
      ensures err.Some? ==> ledger.artefacts == old(ledger.artefacts) && FailedMoves(err) == 0
      ensures outages == old(outages) + if err == Some(LedgerUnavailable) then 1 else 0
      ensures err == None ==> !L.AllSettled(old(ledger.artefacts), setId)
      ensures err.Some? && err != Some(LedgerUnavailable) ==>
        && L.AllSettled(old(ledger.artefacts), setId)
        && (err == Some(LedgerFailed(L.AlreadyRolledBack)) || err == Some(LedgerFailed(L.SetEmpty)))
      ensures err == None ==>
        ledger.artefacts == L.QuarantineSet(old(ledger.artefacts), setId, QuarantineDir(root, setId), now)
    {
      var fault: bool := *;
      if fault {
        outages := outages + 1;
        return Some(LedgerUnavailable);
      }
      var e := ledger.Rollback(setId, QuarantineDir(root, setId), now);
      err := if e.Some? then Some(LedgerFailed(e.value)) else None;
    }

    /** The first phase: stage the files one by one. */
    method Stage(rows: seq<L.Row>, setId: string, ghost t0: Tree, ghost sound: bool)
      returns (err: Option<ServiceError>, moves: seq<Move>)
      requires sound ==> Staged(fs.tree, t0, [], root, setId)
      requires sound ==> forall p :: p in PathsAmong(rows) ==> p !in t0.dirs && !Under(QuarantineRoot(root), p)
      modifies fs
      ensures sound ==> Listed(t0.files, moves, root, StagingDir(root, setId)) && root !in t0.files
      ensures sound ==> forall p :: p in Froms(moves) ==> Under(root, p) && p in t0.files
      ensures sound ==> fs.tree.files == Relocated(t0.files, Froms(moves), root, StagingDir(root, setId))
      ensures sound && err == None ==> Staged(fs.tree, t0, moves, root, setId) && Froms(moves) == PathsAmong(rows)
      ensures sound && err == None ==> Once(rows)
      ensures sound && err == None && Snug(old(fs.tree), StagingDir(root, setId)) ==> Snug(fs.tree, StagingDir(root, setId))
      ensures fs.failedMoves == old(fs.failedMoves) + FailedMoves(err)
      ensures err.Some? ==> err.value.OutsideRoot? || err.value.MoveFailed?
      ensures err.Some? ==> err.value.path in PathsAmong(rows)
      ensures err.Some? && err.value.OutsideRoot? ==> !InRoot(root, err.value.path)
      ensures err == None ==> forall p :: p in PathsAmong(rows) ==> InRoot(root, p)
    {
      hide Relocated, Rebase, Listed, PathsAmong, Froms, StagingDir, QuarantineRoot, CanMove, Moved, Once, Snug;
      moves := [];
      OnceNone();
      var staging := StagingDir(root, setId);
      if sound { RootIsNoFile(fs.tree, t0, [], root, setId); }
      NoPaths();
      for i := 0 to |rows|
        invariant sound ==> Staged(fs.tree, t0, moves, root, setId)
        invariant sound ==> Froms(moves) == PathsAmong(rows[..i]) && Once(rows[..i])
        invariant sound && Snug(old(fs.tree), staging) ==> Snug(fs.tree, staging)
        invariant fs.failedMoves == old(fs.failedMoves)
        invariant forall p :: p in PathsAmong(rows[..i]) ==> InRoot(root, p)
      {
        hide Staged;
        assert rows[..i+1] == rows[..i] + [rows[i]];
        PathsAmongStep(rows[..i], rows[i]);
        OnceStep(rows[..i], rows[i]);
        if Moves(rows[i]) {
          PathAmong(rows, i);
          var p := rows[i].path;
          if !InRoot(root, p) {
            StagedGives(fs.tree, t0, moves, root, setId, sound);
            return Some(OutsideRoot(p)), moves;
          }
          var dst := Rebase(root, staging, p);
          ghost var before := fs.tree;
          var ok := fs.Move(p, dst);
          if !ok {
            StagedGives(before, t0, moves, root, setId, sound);
            return Some(MoveFailed(p)), moves;
          }
          if sound {
            StageOne(before, t0, moves, root, setId, p);
            NotStaged(root, setId, p);
            if Snug(before, staging) { SnugStep(before, staging, p, dst); }
          }
          FromsStep(moves, Move(p, dst));
          moves := moves + [Move(p, dst)];
        }
      }
      assert rows[..|rows|] == rows;
      return None, moves;
    }

    lemma {:induction false} StagedGives(t: Tree, t0: Tree, moves: seq<Move>, root: Path, setId: string, sound: bool)
      requires sound ==> Staged(t, t0, moves, root, setId)
      ensures sound ==> Listed(t0.files, moves, root, StagingDir(root, setId))
      ensures sound ==> forall p :: p in Froms(moves) ==> Under(root, p) && p in t0.files
      ensures sound ==> t.files == Relocated(t0.files, Froms(moves), root, StagingDir(root, setId))
    {
    }

    /** Move everything back and drop the staging directory. */
    method Unstage(moves: seq<Move>, setId: string, ghost files: Files, ghost sound: bool)
      requires sound ==> Listed(files, moves, root, StagingDir(root, setId))
      requires sound ==> NothingUnder(files, StagingDir(root, setId))
      requires sound ==> forall p :: p in Froms(moves) ==> Under(root, p) && p in files
      requires sound ==> fs.tree.files == Relocated(files, Froms(moves), root, StagingDir(root, setId))
      modifies fs
      ensures fs.failedMoves >= old(fs.failedMoves)
      ensures sound && fs.failedMoves == old(fs.failedMoves) ==> fs.tree.files == files
    {
      hide Relocated, Listed, Froms, StagingDir, Undone;
      if sound { UndoneStaged(files, moves, root, StagingDir(root, setId)); }
      Reverse(fs, moves);
      ghost var back := fs.tree.files;
      var removed := fs.RemoveAll(StagingDir(root, setId));
      if sound && fs.failedMoves == old(fs.failedMoves) {
        assert back == files;
        forall q ensures (q in fs.tree.files <==> q in files) && (q in files ==> fs.tree.files[q] == files[q]) {
          assert q in files ==> !Under(StagingDir(root, setId), q);
        }
        SameFiles(fs.tree.files, files);
      }
    }

    /** `Rollback`.  All or nothing: an error changes no row, and no file either unless a
        compensating rename failed too; success quarantines exactly the files of the active and restored
        rows and every row of the set. */
    method Rollback(setId: string, now: int) returns (err: Option<ServiceError>)
      requires ledger.Valid()
      modifies ledger, fs, `outages
      ensures ledger.Valid()
      ensures err.Some? ==> ledger.artefacts == old(ledger.artefacts)
      ensures var final, rows := QuarantineDir(root, setId), old(ledger.artefacts);
              if setId == "" then err == Some(SetIdRequired)
              else if root == [] then err == Some(RootEmpty)
              else if L.SetIsEmpty(rows, setId) then err == Some(LedgerFailed(L.SetEmpty))
              else if final in old(fs.tree.files) || final in old(fs.tree.dirs) then err == Some(AlreadyRolledBack)
              else Explained(err, PathsOf(rows, setId), L.AllSettled(rows, setId), root,
                             fs.failedMoves - old(fs.failedMoves), fs.failedOthers - old(fs.failedOthers),
                             outages - old(outages))
      ensures var paths := PathsOf(old(ledger.artefacts), setId);
              Sound(old(fs.tree), paths, root, setId) ==>
                && (err.Some? && fs.failedMoves == old(fs.failedMoves) + FailedMoves(err) ==>
                      fs.tree.files == old(fs.tree.files))
                && (err == None ==>
                      && IsQuarantined(old(fs.tree.files), fs.tree, paths, root, QuarantineDir(root, setId))
                      && PathsDiffer(old(ledger.artefacts), setId)
                      && (NoStaging(old(fs.tree), root, setId) ==> Kept(fs.tree, root, QuarantineDir(root, setId))))
      ensures err == None ==>
        ledger.artefacts == L.QuarantineSet(old(ledger.artefacts), setId, QuarantineDir(root, setId), now)
    {
      hide L.RowsOf, PathsOf, IsQuarantined, PathsAmong, L.QuarantineSet, L.AllSettled, L.SetIsEmpty, Explained, Once,
           PathsDiffer, Kept, NoStaging, Sound;
      if setId == "" { return Some(SetIdRequired); }
      if root == [] { return Some(RootEmpty); }
      var e, rows := ledger.SetForSet(setId);
      if e.Some? { return Some(LedgerFailed(e.value)); }
      var final := QuarantineDir(root, setId);
      var taken := fs.Exists(final);
      if taken { return Some(AlreadyRolledBack); }
      PathsAmongAll(ledger.artefacts, setId, rows);
      OnceDiffer(ledger.artefacts, setId, rows);
      err := Relocate(rows, setId, now);
    }

    /** Both phases, once there is something to move and somewhere to put it. */
    method Relocate(rows: seq<L.Row>, setId: string, now: int) returns (err: Option<ServiceError>)
      requires ledger.Valid()
      modifies ledger, fs, `outages
      ensures ledger.Valid()
      ensures err.Some? ==> ledger.artefacts == old(ledger.artefacts)
      ensures Explained(err, PathsAmong(rows), L.AllSettled(old(ledger.artefacts), setId), root,
                        fs.failedMoves - old(fs.failedMoves), fs.failedOthers - old(fs.failedOthers),
                        outages - old(outages))
      ensures Sound(old(fs.tree), PathsAmong(rows), root, setId) ==>
        && (err.Some? && fs.failedMoves == old(fs.failedMoves) + FailedMoves(err) ==>
              fs.tree.files == old(fs.tree.files))
        && (err == None ==>
              && IsQuarantined(old(fs.tree.files), fs.tree, PathsAmong(rows), root, QuarantineDir(root, setId))
              && Once(rows)
              && (NoStaging(old(fs.tree), root, setId) ==> Kept(fs.tree, root, QuarantineDir(root, setId))))
      ensures err == None ==>
        ledger.artefacts == L.QuarantineSet(old(ledger.artefacts), setId, QuarantineDir(root, setId), now)
    {
      hide Relocated, Rebase, Listed, PathsAmong, Froms, StagingDir, QuarantineDir, QuarantineRoot, CanMove, Moved, Staged,
           IsQuarantined, L.QuarantineSet, NothingUnder, L.AllSettled, InRoot, Once, Snug, Kept, NoStaging;
      ghost var t0 := fs.tree;
      ghost var sound := Sound(t0, PathsAmong(rows), root, setId);
      var staging := StagingDir(root, setId);
      var made := fs.MkdirAll(staging);
      if !made { return Some(MkdirFailed); }
      if sound { StagingBegins(t0, fs.tree, root, setId); }
      if NoStaging(t0, root, setId) { SnugBegins(t0, fs.tree, root, setId); }
      var moves;
      err, moves := Stage(rows, setId, t0, sound);
      if err.Some? {
        Unstage(moves, setId, t0.files, sound);
        return;
      }
      err := Finish(moves, setId, now, t0, sound);
    }

    /** The second phase: commit the staged files and update the ledger. */
    method Finish(moves: seq<Move>, setId: string, now: int, ghost t0: Tree, ghost sound: bool)
      returns (err: Option<ServiceError>)
      requires ledger.Valid()
      requires sound ==> Staged(fs.tree, t0, moves, root, setId) && forall p :: p in Froms(moves) ==> p !in t0.dirs
      modifies ledger, fs, `outages
      ensures ledger.Valid()
      ensures err.Some? ==> ledger.artefacts == old(ledger.artefacts)
      ensures match err
              case None => !L.AllSettled(old(ledger.artefacts), setId) && outages == old(outages)
              case Some(CommitFailed) => fs.failedMoves > old(fs.failedMoves)
              case Some(LedgerUnavailable) => outages > old(outages)
              case Some(LedgerFailed(_)) => L.AllSettled(old(ledger.artefacts), setId)
              case _ => false
      ensures fs.failedMoves >= old(fs.failedMoves)
      ensures sound && err.Some? && fs.failedMoves == old(fs.failedMoves) + FailedMoves(err) ==> fs.tree.files == t0.files
      ensures sound && err == None ==> IsQuarantined(t0.files, fs.tree, Froms(moves), root, QuarantineDir(root, setId))
      ensures sound && err == None && Snug(old(fs.tree), StagingDir(root, setId)) ==>
                Kept(fs.tree, root, QuarantineDir(root, setId))
      ensures err == None ==>
        ledger.artefacts == L.QuarantineSet(old(ledger.artefacts), setId, QuarantineDir(root, setId), now)
    {
      hide Relocated, Rebase, Listed, Froms, StagingDir, QuarantineDir, QuarantineRoot, CanMove, Moved, Staged,
           IsQuarantined, L.QuarantineSet, NothingUnder, L.AllSettled, Snug, Kept;
      var staging, final := StagingDir(root, setId), QuarantineDir(root, setId);
      ghost var staged := fs.tree;
      if sound { StagedFacts(staged, t0, moves, root, setId); }
      var committed := fs.Move(staging, final);
      if !committed {
        Unstage(moves, setId, t0.files, sound);
        return Some(CommitFailed);
      }
      if sound {
        Commit(staged, t0, moves, root, setId);
        if Snug(staged, staging) { KeptAfter(staged, t0, moves, root, setId); }
      }
      err := UpdateLedger(setId, now);
      if err.Some? {
        TakeBack(moves, setId, t0.files, sound);
      }
    }

    /** The ledger refused: the commit is renamed back and the staged files moved back. */
    method TakeBack(moves: seq<Move>, setId: string, ghost files: Files, ghost sound: bool)
      requires sound ==> Listed(files, moves, root, StagingDir(root, setId)) && root !in files
      requires sound ==> NothingUnder(files, StagingDir(root, setId))
      requires sound ==> forall p :: p in Froms(moves) ==> Under(root, p) && p in files
      requires sound ==> IsQuarantined(files, fs.tree, Froms(moves), root, QuarantineDir(root, setId))
      modifies fs
      ensures fs.failedMoves >= old(fs.failedMoves)
      ensures sound && fs.failedMoves == old(fs.failedMoves) ==> fs.tree.files == files
    {
      hide Relocated, Listed, Froms, StagingDir, QuarantineDir, CanMove, Moved, IsQuarantined, NothingUnder;
      ghost var quarantined := fs.tree;
      var uncommitted := fs.Move(QuarantineDir(root, setId), StagingDir(root, setId));
      if !uncommitted { return; }
      if sound { Uncommit(files, quarantined, Froms(moves), root, setId); }
      Unstage(moves, setId, files, sound);
    }

    // ---- Restore ----

    /** The loop of `Restore`: the quarantined files go back one by one, up to the first
        that cannot. */
    method Return(rows: seq<L.Row>, setId: string)
      returns (err: Option<ServiceError>, moves: seq<Move>, ghost made: seq<Path>)
      modifies fs
      ensures AllInRoot(root, made) && moves == MovesBack(made, root, QuarantineDir(root, setId))
      ensures var went := WentBack(old(fs.tree), made, root, QuarantineDir(root, setId));
              && went.Some? && fs.tree.files == went.value.files
              && (err == None ==> made == QuarantinedList(rows))
      ensures err.Some? ==>
                && |made| < |QuarantinedList(rows)| && made == QuarantinedList(rows)[..|made|]
                && var p, final := QuarantinedList(rows)[|made|], QuarantineDir(root, setId);
                   if !InRoot(root, p) then err == Some(OutsideRoot(p))
                   else
                     && err == Some(MoveFailed(Rebase(root, final, p)))
                     && (CanReturn(WentBack(old(fs.tree), made, root, final).value, p, root, final) ==> fs.faults > old(fs.faults))
      ensures fs.failedMoves == old(fs.failedMoves) + FailedMoves(err) && fs.faults >= old(fs.faults)
    {
      hide Rebase, QuarantineDir, CanMove, Moved, WentBack, QuarantinedList, InRoot, MovesBack;
      moves, made := [], [];
      var final := QuarantineDir(root, setId);
      NothingMovedBack(fs.tree, root, final);
      NoneListed();
      for i := 0 to |rows|
        invariant AllInRoot(root, made) && moves == MovesBack(made, root, final)
        invariant WentBack(old(fs.tree), made, root, final) == Some(fs.tree)
        invariant made == QuarantinedList(rows[..i])
        invariant fs.failedMoves == old(fs.failedMoves) && fs.faults == old(fs.faults)
      {
        assert rows[..i+1] == rows[..i] + [rows[i]];
        ListStep(rows[..i], rows[i]);
        if rows[i].state == L.Quarantined {
          var p := rows[i].path;
          ListedNext(rows, i);
          if !InRoot(root, p) {
            return Some(OutsideRoot(p)), moves, made;
          }
          IsUnder(root, p);
          var src := Rebase(root, final, p);
          WentOneMore(old(fs.tree), made, p, root, final);
          var ok := fs.Move(src, p);
          if !ok {
            return Some(MoveFailed(src)), moves, made;
          }
          OneMoreMove(made, p, root, final);
          moves, made := moves + [Move(src, p)], made + [p];
        }
      }
      assert rows[..|rows|] == rows;
      err := None;
    }

    /** `Restore`.  Success puts every quarantined file back under its own path, over
        whatever is there, and clears the quarantine directory as far as it can.  When a path
        cannot go back, the ones `made` before it are undone: the rows are untouched, and the
        files too exactly when none of the paths that went back held a file at the start; no
        file is lost at any point when none of the paths that could go back holds one.
        Without a fault, paths whose way is clear all go back. */
    method Restore(setId: string, now: int) returns (err: Option<ServiceError>, ghost made: seq<Path>)
      requires ledger.Valid()
      modifies ledger, fs, `outages
      ensures ledger.Valid()
      ensures var final, rows := QuarantineDir(root, setId), old(ledger.artefacts);
              if setId == "" then err == Some(SetIdRequired)
              else if L.SetIsEmpty(rows, setId) then err == Some(LedgerFailed(L.SetEmpty))
              else if final !in old(fs.tree.files) && final !in old(fs.tree.dirs) then err == Some(NotQuarantined)
              else RestoreExplained(err, QuarantinedPaths(rows, setId), L.NoneQuarantined(rows, setId), root,
                                    fs.failedMoves - old(fs.failedMoves), outages - old(outages))
      ensures err.Some? ==> ledger.artefacts == old(ledger.artefacts)
      ensures err == None ==> ledger.artefacts == L.RestoreSet(old(ledger.artefacts), setId, now)
      ensures Members(made) <= QuarantinedPaths(old(ledger.artefacts), setId)
      ensures WentBack(old(fs.tree), made, root, QuarantineDir(root, setId)).Some?
      ensures var paths, final := QuarantinedPaths(old(ledger.artefacts), setId), QuarantineDir(root, setId);
              Returnable(old(fs.tree), paths, root, final) ==>
                && (err == None ==> Restored(old(fs.tree.files), fs.tree.files, paths, root, final))
                && (Undoable(err) && fs.failedMoves == old(fs.failedMoves) + FailedMoves(err) ==>
                      && fs.tree.files == old(fs.tree.files) - Members(made)
                      && (fs.tree.files == old(fs.tree.files) <==> forall p :: p in made ==> p !in old(fs.tree.files))
                      && (NoneReoccupied(old(fs.tree), paths, root, final) ==> fs.tree.files == old(fs.tree.files)))
      ensures err == None && Kept(old(fs.tree), root, QuarantineDir(root, setId)) ==>
                |QuarantinedIds(old(ledger.artefacts), setId)| <= |Inside(old(fs.tree.files), QuarantineDir(root, setId))|
      ensures var paths, final := QuarantinedPaths(old(ledger.artefacts), setId), QuarantineDir(root, setId);
              err.Some? && err.value.MoveFailed? && fs.faults == old(fs.faults) ==>
                !(Clear(old(fs.tree), paths, root, final) && QuarantinedDiffer(old(ledger.artefacts), setId))
    {
      hide L.RowsOf, QuarantinedPaths, Restored, QuarantinedList, L.RestoreSet, Returnable, Undone, QuarantineDir,
           L.SetIsEmpty, L.NoneQuarantined, InRoot, WentBack, NoneReoccupied, Kept, Clear, CanReturn, Inside, Members,
           QuarantinedIds, MovesBack, QuarantinedDiffer;
      made := [];
      var final := QuarantineDir(root, setId);
      NothingMade(fs.tree, root, final);
      if setId == "" { return Some(SetIdRequired), []; }
      var e, rows := ledger.SetForSet(setId);
      if e.Some? { return Some(LedgerFailed(e.value)), []; }
      var there := fs.Exists(final);
      if !there { return Some(NotQuarantined), []; }
      ghost var t0 := fs.tree;
      ghost var paths := QuarantinedPaths(ledger.artefacts, setId);
      ListedAll(ledger.artefacts, setId, rows);
      var moves;
      err, moves, made := Return(rows, setId);
      if err.Some? {
        FailedReturn(t0, ledger.artefacts, setId, rows, made, root, final);
        if Returnable(t0, paths, root, final) { UndoneMade(t0, paths, made, root, final); }
        Reverse(fs, moves);
        return;
      }
      if Returnable(t0, paths, root, final) { ReturnableMembers(t0, paths, made, root, final); }
      MadeInRoot(t0, made, root, final);
      if Kept(t0, root, final) { AtMostTheFilesReturn(t0, made, root, final); }
      var cleared := fs.RemoveAll(final);
      if Returnable(t0, paths, root, final) { IsRestored(t0, made, fs.tree.files, root, final); }
      var fault: bool := *;
      if fault {
        outages := outages + 1;
        return Some(LedgerUnavailable), made;
      }
      var e' := ledger.Restore(setId, now);
      err := if e'.Some? then Some(LedgerFailed(e'.value)) else None;
    }
  }

  lemma {:induction false} StagedFacts(t: Tree, t0: Tree, moves: seq<Move>, root: Path, setId: string)
    requires Staged(t, t0, moves, root, setId)
    ensures Listed(t0.files, moves, root, StagingDir(root, setId)) && root !in t0.files
    ensures NothingUnder(t0.files, StagingDir(root, setId))
    ensures forall p :: p in Froms(moves) ==> Under(root, p) && p in t0.files
    ensures t.files == Relocated(t0.files, Froms(moves), root, StagingDir(root, setId))
  {
    RootIsNoFile(t, t0, moves, root, setId);
  }

  lemma {:induction false} IsUnder(root: Path, p: Path)
    requires InRoot(root, p)
    ensures Under(root, p)
  {
  }

  lemma {:induction false} NoPaths()
    ensures Froms([]) == {} && PathsAmong([]) == {}
  {
  }

  lemma {:induction false} PathAmong(rows: seq<L.Row>, i: nat)
    requires i < |rows| && Moves(rows[i])
    ensures rows[i].path in PathsAmong(rows)
  {
  }

  /** No directory is left from an earlier rollback of the set. */
  ghost predicate NoStaging(t: Tree, root: Path, setId: string) {
    forall d :: d in t.dirs ==> !Under(StagingDir(root, setId), d)
  }

  lemma {:induction false} SnugBegins(t0: Tree, t: Tree, root: Path, setId: string)
    requires NoStaging(t0, root, setId)
    requires t.dirs <= t0.dirs + Parents(StagingDir(root, setId)) + {StagingDir(root, setId)}
    ensures Snug(t, StagingDir(root, setId))
  {
  }

  lemma {:induction false} KeptAfter(t: Tree, t0: Tree, moves: seq<Move>, root: Path, setId: string)
    requires Staged(t, t0, moves, root, setId) && Snug(t, StagingDir(root, setId))
    requires CanMove(t, StagingDir(root, setId), QuarantineDir(root, setId))
    requires IsQuarantined(t0.files, Moved(t, StagingDir(root, setId), QuarantineDir(root, setId)), Froms(moves), root,
                           QuarantineDir(root, setId))
    ensures Kept(Moved(t, StagingDir(root, setId), QuarantineDir(root, setId)), root, QuarantineDir(root, setId))
  {
    hide Relocated, Rebase, NothingUnder, QuarantineRoot, Froms, MoveDir, MoveDirs, MoveFile, StagingDir, QuarantineDir,
         Staged, Moved, CanMove;
    var staging, final := StagingDir(root, setId), QuarantineDir(root, setId);
    var t' := Moved(t, staging, final);
    Dirs(root, setId);
    StagedFiles(t, t0, moves, root, setId);
    SnugRenamed(t, staging, final);
    forall f | f in t'.files && Under(final, f) ensures !Under(final, Rebase(final, root, f)) {
      RelocatedAt(t0.files, Froms(moves), root, final, f);
      NotStaged(root, setId, Rebase(final, root, f));
    }
  }

  // ---- Rows whose files are moved, each under its own path ----

  ghost predicate Once(rows: seq<L.Row>) {
    forall i, j :: 0 <= i < j < |rows| && Moves(rows[i]) && Moves(rows[j]) ==> rows[i].path != rows[j].path
  }

  lemma {:induction false} OnceNone()
    ensures Once([])
  {
  }

  lemma {:induction false} OnceStep(rows: seq<L.Row>, row: L.Row)
    ensures Once(rows) && (Moves(row) ==> row.path !in PathsAmong(rows)) ==> Once(rows + [row])
  {
    var all := rows + [row];
    forall i, j | 0 <= i < j < |all| && Moves(all[i]) && Moves(all[j]) && Once(rows)
                  && (Moves(row) ==> row.path !in PathsAmong(rows))
      ensures all[i].path != all[j].path
    {
      assert rows[i] == all[i];
      if j == |rows| { assert rows[i].path in PathsAmong(rows); }
    }
  }

  /** No two rows that a rollback of the set moves name the same file. */
  ghost predicate PathsDiffer(rows: L.Rows, setId: string) {
    forall a, b :: L.InSet(rows, setId, a) && L.InSet(rows, setId, b) && Moves(rows[a]) && Moves(rows[b]) && a != b ==>
      rows[a].path != rows[b].path
  }

  lemma {:induction false} OnceDiffer(rows: L.Rows, setId: string, found: seq<L.Row>)
    requires L.RowsOf(rows, setId, found) && forall id :: id in rows ==> rows[id].id == id
    ensures Once(found) ==> PathsDiffer(rows, setId)
  {
    forall a, b | L.InSet(rows, setId, a) && L.InSet(rows, setId, b) && Moves(rows[a]) && Moves(rows[b]) && a != b && Once(found)
      ensures rows[a].path != rows[b].path
    {
      assert rows[a] in found && rows[b] in found;
      var i :| 0 <= i < |found| && found[i] == rows[a];
      var j :| 0 <= j < |found| && found[j] == rows[b];
    }
  }

  // ---- Restore: what comes back, and what a failure undoes ----

  ghost function QuarantinedPaths(rows: L.Rows, setId: string): set<Path> {
    set id | id in rows && L.InSet(rows, setId, id) && rows[id].state == L.Quarantined :: rows[id].path
  }

  ghost function QuarantinedIds(rows: L.Rows, setId: string): set<string> {
    set id | id in rows && L.InSet(rows, setId, id) && rows[id].state == L.Quarantined
  }

  /** No two quarantined rows of the set name the same file. */
  ghost predicate QuarantinedDiffer(rows: L.Rows, setId: string) {
    forall a, b :: a in QuarantinedIds(rows, setId) && b in QuarantinedIds(rows, setId) && a != b ==>
      rows[a].path != rows[b].path
  }

  /** The paths of the quarantined rows, in order. */
  function QuarantinedList(rows: seq<L.Row>): seq<Path> {
    if rows == [] then []
    else
      var last := rows[|rows|-1];
      QuarantinedList(rows[..|rows|-1]) + if last.state == L.Quarantined then [last.path] else []
  }

  lemma {:induction false} NoneListed()
    ensures QuarantinedList([]) == [] && IdsAmong([]) == {} && ListedPaths([]) == {}
  {
  }

  lemma {:induction false} ListStep(rows: seq<L.Row>, row: L.Row)
    ensures QuarantinedList(rows + [row]) == QuarantinedList(rows) + if row.state == L.Quarantined then [row.path] else []
  {
    assert (rows + [row])[..|rows|] == rows;
  }

  /** What is listed of a prefix is a prefix of the list. */
  lemma {:induction false} ListPrefix(rows: seq<L.Row>, i: nat)
    requires i <= |rows|
    ensures QuarantinedList(rows[..i]) <= QuarantinedList(rows)
    decreases |rows| - i
  {
    if i == |rows| {
      assert rows[..i] == rows;
    } else {
      assert rows[..i+1] == rows[..i] + [rows[i]];
      ListStep(rows[..i], rows[i]);
      ListPrefix(rows, i + 1);
    }
  }

  lemma {:induction false} ListedNext(rows: seq<L.Row>, i: nat)
    requires i < |rows| && rows[i].state == L.Quarantined
    ensures var list, n := QuarantinedList(rows), |QuarantinedList(rows[..i])|;
            n < |list| && list[..n] == QuarantinedList(rows[..i]) && list[n] == rows[i].path
  {
    assert rows[..i+1] == rows[..i] + [rows[i]];
    ListStep(rows[..i], rows[i]);
    ListPrefix(rows, i + 1);
  }

  ghost function IdsAmong(rows: seq<L.Row>): set<string> {
    set i | 0 <= i < |rows| && rows[i].state == L.Quarantined :: rows[i].id
  }

  /** Rows with IDs of their own: the list has one entry for each of the IDs. */
  lemma {:induction false} ListCounts(rows: seq<L.Row>)
    requires forall i, j :: 0 <= i < j < |rows| ==> rows[i].id != rows[j].id
    ensures |QuarantinedList(rows)| == |IdsAmong(rows)|
  {
    hide QuarantinedList, IdsAmong;
    if rows == [] {
      NoneListed();
    } else {
      var before, last := rows[..|rows|-1], rows[|rows|-1];
      ListCounts(before);
      assert rows == before + [last];
      ListStep(before, last);
      IdsStep(before, last);
      NewId(before, last);
    }
  }

  lemma {:induction false} NewId(rows: seq<L.Row>, row: L.Row)
    requires forall i :: 0 <= i < |rows| ==> rows[i].id != row.id
    ensures row.id !in IdsAmong(rows)
  {
  }

  lemma {:induction false} ListPaths(rows: seq<L.Row>)
    ensures Members(QuarantinedList(rows)) == ListedPaths(rows)
  {
    hide QuarantinedList, ListedPaths;
    if rows == [] {
      NoneListed();
    } else {
      var before, last := rows[..|rows|-1], rows[|rows|-1];
      ListPaths(before);
      assert rows == before + [last];
      ListStep(before, last);
      PathsStep(before, last);
    }
  }

  lemma {:induction false} IdsStep(rows: seq<L.Row>, row: L.Row)
    ensures IdsAmong(rows + [row]) == IdsAmong(rows) + if row.state == L.Quarantined then {row.id} else {}
  {
    var all := rows + [row];
    assert forall i :: 0 <= i < |rows| ==> all[i] == rows[i];
    assert all[|rows|] == row;
    forall id | id in IdsAmong(rows) ensures id in IdsAmong(all) {
      var i :| 0 <= i < |rows| && rows[i].state == L.Quarantined && rows[i].id == id;
      assert all[i].id == id;
    }
  }

  ghost function ListedPaths(rows: seq<L.Row>): set<Path> {
    set i | 0 <= i < |rows| && rows[i].state == L.Quarantined :: rows[i].path
  }

  lemma {:induction false} PathsStep(rows: seq<L.Row>, row: L.Row)
    ensures ListedPaths(rows + [row]) == ListedPaths(rows) + if row.state == L.Quarantined then {row.path} else {}
  {
    var all := rows + [row];
    assert forall i :: 0 <= i < |rows| ==> all[i] == rows[i];
    assert all[|rows|] == row;
    forall p | p in ListedPaths(rows) ensures p in ListedPaths(all) {
      var i :| 0 <= i < |rows| && rows[i].state == L.Quarantined && rows[i].path == p;
      assert all[i].path == p;
    }
  }

  /** The rows of a set, in whatever order they are found. */
  lemma {:induction false} ListedAll(rows: L.Rows, setId: string, found: seq<L.Row>)
    requires L.RowsOf(rows, setId, found) && forall id :: id in rows ==> rows[id].id == id
    ensures Members(QuarantinedList(found)) == QuarantinedPaths(rows, setId)
    ensures |QuarantinedList(found)| == |QuarantinedIds(rows, setId)|
  {
    hide QuarantinedList;
    ListCounts(found);
    ListPaths(found);
    forall id | id in QuarantinedIds(rows, setId) ensures id in IdsAmong(found) && rows[id].path in ListedPaths(found) {
      assert rows[id] in found;
      var i :| 0 <= i < |found| && found[i] == rows[id];
      assert found[i].id == id && found[i].path == rows[id].path;
    }
    forall id | id in IdsAmong(found) ensures id in QuarantinedIds(rows, setId) {
      var i :| 0 <= i < |found| && found[i].state == L.Quarantined && found[i].id == id;
    }
    assert IdsAmong(found) == QuarantinedIds(rows, setId);
    forall p | p in QuarantinedPaths(rows, setId) ensures p in ListedPaths(found) {
      var id :| id in QuarantinedIds(rows, setId) && rows[id].path == p;
    }
  }

  /** Distinct paths are listed without repeats. */
  lemma {:induction false} ListedOnce(rows: L.Rows, setId: string, found: seq<L.Row>, i: nat)
    requires L.RowsOf(rows, setId, found) && QuarantinedDiffer(rows, setId)
    requires i < |found| && found[i].state == L.Quarantined
    ensures found[i].path !in QuarantinedList(found[..i])
  {
    hide QuarantinedList;
    var p, before := found[i].path, found[..i];
    ListPaths(before);
    assert found[i].id in QuarantinedIds(rows, setId);
    forall q | q in QuarantinedList(before) ensures q != p {
      assert q in Members(QuarantinedList(before));
      var k :| 0 <= k < |before| && before[k].state == L.Quarantined && before[k].path == q;
      assert found[k] == before[k] && found[k].id in QuarantinedIds(rows, setId);
    }
  }

  lemma {:induction false} MembersOfPrefix(order: seq<Path>, n: nat)
    requires n < |order|
    ensures Members(order[..n]) <= Members(order) && order[n] in Members(order)
  {
  }

  lemma {:induction false} NothingMade(t: Tree, root: Path, final: Path)
    ensures WentBack(t, [], root, final) == Some(t) && Members([]) == {}
    ensures forall files: Files :: files - {} == files
  {
    forall files: Files ensures files - {} == files { WithoutNone(files, {}); }
  }

  lemma {:induction false} NothingMovedBack(t: Tree, root: Path, final: Path)
    ensures WentBack(t, [], root, final) == Some(t) && AllInRoot(root, []) && MovesBack([], root, final) == []
  {
  }

  lemma {:induction false} OneMoreMove(order: seq<Path>, p: Path, root: Path, final: Path)
    requires AllInRoot(root, order) && InRoot(root, p)
    ensures AllInRoot(root, order + [p]) && Under(root, p)
    ensures MovesBack(order + [p], root, final) == MovesBack(order, root, final) + [Move(Rebase(root, final, p), p)]
  {
    assert AllInRoot(root, order + [p]);
  }

  lemma {:induction false} MadeInRoot(t: Tree, made: seq<Path>, root: Path, final: Path)
    requires WentBack(t, made, root, final).Some?
    ensures forall p :: p in Members(made) ==> InRoot(root, p)
  {
    WentInRoot(t, made, root, final);
  }

  lemma {:induction false} ReturnableMembers(t: Tree, paths: set<Path>, made: seq<Path>, root: Path, final: Path)
    requires Returnable(t, paths, root, final) && Members(made) <= paths
    ensures Returnable(t, Members(made), root, final)
  {
  }

  /** The files after undoing what was made. */
  lemma {:induction false} UndoneMade(t: Tree, paths: set<Path>, made: seq<Path>, root: Path, final: Path)
    requires Returnable(t, paths, root, final) && Members(made) <= paths && WentBack(t, made, root, final).Some?
    ensures AllInRoot(root, made)
    ensures Undone(WentBack(t, made, root, final).value.files, MovesBack(made, root, final)) == Some(t.files - Members(made))
    ensures t.files - Members(made) == t.files <==> forall p :: p in made ==> p !in t.files
    ensures NoneReoccupied(t, paths, root, final) ==> t.files - Members(made) == t.files
  {
    hide Undone, WentBack, MovesBack, Returnable, CanReturn;
    ReturnableMembers(t, paths, made, root, final);
    FailureLoses(t, made, root, final);
    HarmlessExactly(t, paths, root, final);
  }

  /** A rename that failed although its way was clear was a fault. */
  lemma {:induction false} FailedReturn(t: Tree, rows: L.Rows, setId: string, found: seq<L.Row>, made: seq<Path>,
                                        root: Path, final: Path)
    requires L.RowsOf(rows, setId, found) && forall id :: id in rows ==> rows[id].id == id
    requires var list := QuarantinedList(found); |made| < |list| && made == list[..|made|]
    requires WentBack(t, made, root, final).Some?
    ensures Members(made) <= QuarantinedPaths(rows, setId)
    ensures QuarantinedList(found)[|made|] in QuarantinedPaths(rows, setId)
    ensures Clear(t, QuarantinedPaths(rows, setId), root, final) && QuarantinedDiffer(rows, setId) ==>
              CanReturn(WentBack(t, made, root, final).value, QuarantinedList(found)[|made|], root, final)
  {
    hide WentBack, QuarantinedPaths, CanReturn, Clear, QuarantinedDiffer, L.RowsOf, QuarantinedList;
    ListedAll(rows, setId, found);
    MembersOfPrefix(QuarantinedList(found), |made|);
    if Clear(t, QuarantinedPaths(rows, setId), root, final) && QuarantinedDiffer(rows, setId) {
      NextListed(rows, setId, found, |made|);
      ClearPathsReturn(t, made, QuarantinedList(found)[|made|], QuarantinedPaths(rows, setId), root, final);
    }
  }

  /** The row behind an entry of the list. */
  lemma {:induction false} RowListed(rows: seq<L.Row>, n: nat) returns (i: nat)
    requires n < |QuarantinedList(rows)|
    ensures i < |rows| && rows[i].state == L.Quarantined && rows[i].path == QuarantinedList(rows)[n]
    ensures QuarantinedList(rows[..i]) == QuarantinedList(rows)[..n]
  {
    var before := rows[..|rows|-1];
    assert rows == before + [rows[|rows|-1]];
    ListStep(before, rows[|rows|-1]);
    if n < |QuarantinedList(before)| {
      i := RowListed(before, n);
      assert before[..i] == rows[..i];
    } else {
      i := |rows| - 1;
    }
  }

  lemma {:induction false} NextListed(rows: L.Rows, setId: string, found: seq<L.Row>, n: nat)
    requires L.RowsOf(rows, setId, found) && QuarantinedDiffer(rows, setId) && n < |QuarantinedList(found)|
    ensures QuarantinedList(found)[n] !in QuarantinedList(found)[..n]
  {
    hide L.RowsOf, QuarantinedDiffer, QuarantinedList;
    var i := RowListed(found, n);
    ListedOnce(rows, setId, found, i);
  }

  /** Errors after which the files that had gone back were moved away again. */
  predicate Undoable(err: Option<ServiceError>) {
    err.Some? && err != Some(LedgerUnavailable)
    && !(err.value.LedgerFailed? && err.value.error == L.NotQuarantined)
  }
}
