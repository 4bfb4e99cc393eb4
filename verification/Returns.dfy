/** Putting quarantined files back one by one (rollback.go, Restore): how far the renames
    can go, and what is left of the files when a later one fails and they are undone. */
module Returns {
  import opened Wrappers
  import opened FileTree

  datatype Move = Move(from: Path, to: Path)

  /** The relative path exists and does not start with two dots. */
  predicate InRoot(root: Path, p: Path) {
    Under(root, p) && (|p| > |root| ==> !(".." <= p[|root|]))
  }

  // ---- Undoing a list of moves ----

  /** The files after moving everything back, last move first; None when one of the files
      is not where it was moved to. */
  function Undone(files: Files, moves: seq<Move>): Option<Files>
    decreases |moves|
  {
    if moves == [] then Some(files)
    else
      var last := moves[|moves|-1];
      if last.to !in files then None
      else Undone(MoveFile(files, last.to, last.from), moves[..|moves|-1])
  }

  // ---- The renames of a restore ----

  predicate AllInRoot(root: Path, order: seq<Path>) {
    forall i :: 0 <= i < |order| ==> InRoot(root, order[i])
  }

  function MovesBack(order: seq<Path>, root: Path, final: Path): seq<Move>
    requires AllInRoot(root, order)
  {
    seq(|order|, i requires 0 <= i < |order| => Move(Rebase(root, final, order[i]), order[i]))
  }

  /** The file of this path can go back in this tree. */
  predicate CanReturn(t: Tree, p: Path, root: Path, final: Path) {
    InRoot(root, p) && CanMove(t, Rebase(root, final, p), p)
  }

  /** The tree after the files of these paths went back in this order, if every rename is
      possible. */
  function WentBack(t: Tree, order: seq<Path>, root: Path, final: Path): Option<Tree>
    decreases |order|
  {
    if order == [] then Some(t)
    else
      var before, p := WentBack(t, order[..|order|-1], root, final), order[|order|-1];
      if before.Some? && CanReturn(before.value, p, root, final)
      then Some(Moved(before.value, Rebase(root, final, p), p))
      else None
  }

  function Members(order: seq<Path>): set<Path> {
    set p | p in order
  }

  lemma {:induction false} WentOneMore(t: Tree, order: seq<Path>, p: Path, root: Path, final: Path)
    ensures var before := WentBack(t, order, root, final);
            WentBack(t, order + [p], root, final)
            == if before.Some? && CanReturn(before.value, p, root, final)
               then Some(Moved(before.value, Rebase(root, final, p), p)) else None
  {
    assert (order + [p])[..|order|] == order;
  }

  lemma {:induction false} Split(order: seq<Path>)
    requires order != []
    ensures var before, p := order[..|order|-1], order[|order|-1];
            order == before + [p] && Members(order) == Members(before) + {p}
  {
    var before, p := order[..|order|-1], order[|order|-1];
    assert order == before + [p];
  }

  lemma {:induction false} WentInRoot(t: Tree, order: seq<Path>, root: Path, final: Path)
    requires WentBack(t, order, root, final).Some?
    ensures AllInRoot(root, order)
    decreases |order|
  {
    hide CanReturn, Moved;
    if order != [] {
      var before := order[..|order|-1];
      WentInRoot(t, before, root, final);
      CanReturnInRoot(WentBack(t, before, root, final).value, order[|order|-1], root, final);
      forall i | 0 <= i < |before| ensures InRoot(root, order[i]) {
        assert before[i] == order[i];
      }
    }
  }

  // ---- Files that have gone back ----

  /** The quarantined copies are not directories, and nothing goes back into the quarantine. */
  ghost predicate Returnable(t: Tree, paths: set<Path>, root: Path, final: Path) {
    && Under(root, final)
    && forall p :: p in paths ==> !Under(final, p) && (Under(root, p) ==> Rebase(root, final, p) !in t.dirs)
  }

  ghost predicate Movable(files: Files, paths: set<Path>, root: Path, final: Path) {
    forall p :: p in paths ==> Under(root, p) && Rebase(root, final, p) in files && !Under(final, p)
  }

  /** The files while those of `paths` have gone back. */
  function Returning(files: Files, paths: set<Path>, root: Path, final: Path): Files
    requires forall p :: p in paths ==> Under(root, p) && Rebase(root, final, p) in files
  {
    map q | q in paths + (files.Keys - set p | p in paths :: Rebase(root, final, p))
      :: if q in paths then files[Rebase(root, final, q)] else if q in files then files[q] else ""
  }

  lemma {:induction false} ReturningAt(files: Files, paths: set<Path>, root: Path, final: Path, q: Path)
    requires Movable(files, paths, root, final)
    ensures var r := Returning(files, paths, root, final);
            if q in paths then q in r && r[q] == files[Rebase(root, final, q)]
            else if Under(final, q) && Rebase(final, root, q) in paths then q !in r
            else (q in r <==> q in files) && (q in r ==> r[q] == files[q])
  {
    forall p | p in paths ensures Under(final, Rebase(root, final, p)) && Rebase(final, root, Rebase(root, final, p)) == p {
      RebaseBack(root, final, p);
    }
    if Under(final, q) {
      RebaseBack(final, root, q);
    }
  }

  lemma {:induction false} ReturningNone(files: Files, root: Path, final: Path)
    ensures Returning(files, {}, root, final) == files
  {
    forall q ensures (q in Returning(files, {}, root, final) <==> q in files)
                  && (q in files ==> Returning(files, {}, root, final)[q] == files[q]) {
      ReturningAt(files, {}, root, final, q);
    }
    SameFiles(Returning(files, {}, root, final), files);
  }

  /** One more file goes back; moving it away again also removes what it had overwritten. */
  lemma {:induction false} ReturningStep(files: Files, paths: set<Path>, root: Path, final: Path, p: Path)
    requires Movable(files, paths, root, final)
    requires Under(root, p) && !Under(final, p) && p !in paths && Rebase(root, final, p) in files
    ensures var before, after := Returning(files, paths, root, final), Returning(files, paths + {p}, root, final);
            var src := Rebase(root, final, p);
            && src in before && MoveFile(before, src, p) == after
            && p in after && MoveFile(after, p, src) == before - {p}
  {
    hide Returning, Rebase;
    var before, after := Returning(files, paths, root, final), Returning(files, paths + {p}, root, final);
    var src := Rebase(root, final, p);
    RebaseBack(root, final, p);
    ReturningAt(files, paths, root, final, src);
    ReturningAt(files, paths + {p}, root, final, p);
    ReturningAt(files, paths + {p}, root, final, src);
    forall q | q != p && q != src ensures (q in before <==> q in after) && (q in before ==> before[q] == after[q]) {
      ReturningAt(files, paths, root, final, q);
      ReturningAt(files, paths + {p}, root, final, q);
      if Under(final, q) { RebaseBack(final, root, q); }
    }
    SameFiles(MoveFile(before, src, p), after);
    SameFiles(MoveFile(after, p, src), before - {p});
  }

  /** Where the renames have got to: the files that went back are the ones named, each once;
      below the quarantine directory there is no new directory, elsewhere only parents. */
  ghost predicate Went(t: Tree, t0: Tree, order: seq<Path>, root: Path, final: Path) {
    && Movable(t0.files, Members(order), root, final)
    && t.files == Returning(t0.files, Members(order), root, final)
    && (forall d :: d in t.dirs && Under(final, d) ==> d in t0.dirs)
    && t0.dirs <= t.dirs
    && (forall d :: d in t.dirs ==> d in t0.dirs || exists p :: p in order && d < p)
  }

  lemma {:induction false} WentStep(t: Tree, t0: Tree, order: seq<Path>, p: Path, root: Path, final: Path)
    requires Went(t, t0, order, root, final) && CanReturn(t, p, root, final)
    requires Under(root, final) && !Under(final, p) && Rebase(root, final, p) !in t0.dirs
    ensures Rebase(root, final, p) in t.files && p !in order
    ensures Went(Moved(t, Rebase(root, final, p), p), t0, order + [p], root, final)
  {
    hide Returning, NothingUnder, MoveDir, MoveDirs;
    var src := Rebase(root, final, p);
    RebaseBack(root, final, p);
    assert src in t.files;
    ReturningAt(t0.files, Members(order), root, final, src);
    ReturningStep(t0.files, Members(order), root, final, p);
    assert Members(order + [p]) == Members(order) + {p};
    forall d | d in Parents(p) ensures !Under(final, d) {
      if Under(final, d) { UnderTransitive(final, d, p); }
    }
    forall d | d in Moved(t, src, p).dirs ensures d in t0.dirs || exists q :: q in order + [p] && d < q {
      if d in Parents(p) { assert p in order + [p]; }
      if q :| q in order && d < q { assert q in order + [p]; }
    }
  }

  lemma {:induction false} WentBackGives(t0: Tree, order: seq<Path>, root: Path, final: Path)
    requires WentBack(t0, order, root, final).Some? && Returnable(t0, Members(order), root, final)
    ensures Went(WentBack(t0, order, root, final).value, t0, order, root, final)
    ensures forall i, j :: 0 <= i < j < |order| ==> order[i] != order[j]
    decreases |order|
  {
    hide Went, CanReturn, Moved;
    if order == [] {
      NothingWent(t0, root, final);
    } else {
      var before, p := order[..|order|-1], order[|order|-1];
      Split(order);
      WentBackGives(t0, before, root, final);
      var t := WentBack(t0, before, root, final).value;
      assert p in Members(order);
      CanReturnInRoot(t, p, root, final);
      WentStep(t, t0, before, p, root, final);
      forall i, j | 0 <= i < j < |order| ensures order[i] != order[j] {
        assert before[i] == order[i];
        if j < |before| { assert before[j] == order[j]; }
      }
    }
  }

  lemma {:induction false} CanReturnInRoot(t: Tree, p: Path, root: Path, final: Path)
    requires CanReturn(t, p, root, final)
    ensures InRoot(root, p) && Under(root, p)
  {
  }

  lemma {:induction false} NothingWent(t0: Tree, root: Path, final: Path)
    ensures Went(t0, t0, [], root, final)
  {
    assert Members([]) == {};
    ReturningNone(t0.files, root, final);
  }

  // ---- Undoing a restore that failed half way ----

  lemma {:induction false} UndoneReturn(files: Files, order: seq<Path>, root: Path, final: Path, lost: set<Path>)
    requires AllInRoot(root, order) && Movable(files, Members(order), root, final)
    requires forall i, j :: 0 <= i < j < |order| ==> order[i] != order[j]
    requires lost !! Members(order) && forall p :: p in lost ==> !Under(final, p)
    ensures Undone(Returning(files, Members(order), root, final) - lost, MovesBack(order, root, final))
            == Some(files - (Members(order) + lost))
    decreases |order|
  {
    hide Returning, Rebase, MovesBack;
    if order == [] {
      NoMoves(root, final);
      assert Members([]) == {};
      ReturningNone(files, root, final);
      assert {} + lost == lost;
    } else {
      var before, p := order[..|order|-1], order[|order|-1];
      Split(order);
      assert p !in Members(before);
      ReturningStep(files, Members(before), root, final, p);
      var now, earlier := Returning(files, Members(order), root, final), Returning(files, Members(before), root, final);
      var src := Rebase(root, final, p);
      RebaseBack(root, final, p);
      assert MoveFile(now - lost, p, src) == earlier - (lost + {p});
      UndoneReturn(files, before, root, final, lost + {p});
      assert Members(before) + (lost + {p}) == Members(order) + lost;
      LastMoveBack(order, root, final);
    }
  }

  lemma {:induction false} NoMoves(root: Path, final: Path)
    ensures MovesBack([], root, final) == []
  {
  }

  lemma {:induction false} LastMoveBack(order: seq<Path>, root: Path, final: Path)
    requires AllInRoot(root, order) && order != []
    ensures var moves, before := MovesBack(order, root, final), order[..|order|-1];
            && |moves| == |order| && AllInRoot(root, before)
            && moves[|moves|-1] == Move(Rebase(root, final, order[|order|-1]), order[|order|-1])
            && moves[..|moves|-1] == MovesBack(before, root, final)
  {
    var moves, before := MovesBack(order, root, final), order[..|order|-1];
    assert AllInRoot(root, before);
    assert moves[..|moves|-1] == MovesBack(before, root, final);
  }

  lemma {:induction false} WithoutNone(files: Files, gone: set<Path>)
    ensures files - gone == files <==> gone !! files.Keys
  {
    if gone !! files.Keys {
      assert (files - gone).Keys == files.Keys;
    } else {
      var p :| p in gone && p in files;
      assert p !in files - gone;
    }
  }

  /** Whatever the order and wherever the restore fails: once the renames made so far are
      undone, the files are as they were without those that had come back to one of the
      paths.  They are all there exactly when none of these paths held a file. */
  lemma {:induction false} FailureLoses(t: Tree, order: seq<Path>, root: Path, final: Path)
    requires Returnable(t, Members(order), root, final) && WentBack(t, order, root, final).Some?
    ensures AllInRoot(root, order)
    ensures var undone := Undone(WentBack(t, order, root, final).value.files, MovesBack(order, root, final));
            && undone == Some(t.files - Members(order))
            && (undone == Some(t.files) <==> forall p :: p in order ==> p !in t.files)
  {
    hide WentBack, Undone, Returning, MovesBack;
    WentInRoot(t, order, root, final);
    WentBackGives(t, order, root, final);
    var back := Returning(t.files, Members(order), root, final);
    UndoneReturn(t.files, order, root, final, {});
    assert back - {} == back;
    assert Members(order) + {} == Members(order);
    WithoutNone(t.files, Members(order));
  }

  /** Every way of failing leaves every file. */
  ghost predicate Harmless(t: Tree, paths: set<Path>, root: Path, final: Path) {
    forall order :: Members(order) <= paths && WentBack(t, order, root, final).Some? && AllInRoot(root, order) ==>
      Undone(WentBack(t, order, root, final).value.files, MovesBack(order, root, final)) == Some(t.files)
  }

  /** No path that a file has come back to can be restored. */
  ghost predicate NoneReoccupied(t: Tree, paths: set<Path>, root: Path, final: Path) {
    forall p :: p in paths && p in t.files ==> !CanReturn(t, p, root, final)
  }

  /** A file that can go back after others could have gone back first. */
  lemma {:induction false} CouldGoFirst(t: Tree, t0: Tree, order: seq<Path>, p: Path, root: Path, final: Path)
    requires Went(t, t0, order, root, final) && CanReturn(t, p, root, final)
    requires Under(root, final) && !Under(final, p) && Rebase(root, final, p) !in t0.dirs
    ensures CanReturn(t0, p, root, final)
  {
    hide Returning, NothingUnder, MoveDir, MoveDirs;
    var src := Rebase(root, final, p);
    RebaseBack(root, final, p);
    assert src in t.files;
    ReturningAt(t0.files, Members(order), root, final, src);
    forall q | q in Parents(p) ensures q !in t0.files {
      ReturningAt(t0.files, Members(order), root, final, q);
      if Under(final, q) { UnderTransitive(final, q, p); }
    }
  }

  lemma {:induction false} PrefixCouldGoFirst(t0: Tree, order: seq<Path>, p: Path, root: Path, final: Path)
    requires WentBack(t0, order, root, final).Some? && Returnable(t0, Members(order), root, final) && p in order
    ensures CanReturn(t0, p, root, final)
    decreases |order|
  {
    hide Went, CanReturn, Moved;
    var before, last := order[..|order|-1], order[|order|-1];
    Split(order);
    WentBackGives(t0, before, root, final);
    if p == last {
      CanReturnInRoot(WentBack(t0, before, root, final).value, p, root, final);
      assert p in Members(order);
      CouldGoFirst(WentBack(t0, before, root, final).value, t0, before, p, root, final);
    } else {
      PrefixCouldGoFirst(t0, before, p, root, final);
    }
  }

  /** For the caller, before the call: a failing restore is harmless at every point and in
      every order exactly when no path that holds a file again can be restored. */
  lemma {:induction false} HarmlessExactly(t: Tree, paths: set<Path>, root: Path, final: Path)
    requires Returnable(t, paths, root, final)
    ensures Harmless(t, paths, root, final) <==> NoneReoccupied(t, paths, root, final)
  {
    hide CanReturn, Undone, WentBack, MovesBack;
    forall order | Members(order) <= paths && WentBack(t, order, root, final).Some? && AllInRoot(root, order)
                   && NoneReoccupied(t, paths, root, final)
      ensures Undone(WentBack(t, order, root, final).value.files, MovesBack(order, root, final)) == Some(t.files)
    {
      FailureLoses(t, order, root, final);
      forall p | p in order ensures p !in t.files {
        PrefixCouldGoFirst(t, order, p, root, final);
        assert p in Members(order);
      }
    }
    if p :| p in paths && p in t.files && CanReturn(t, p, root, final) {
      OneWentBack(t, p, root, final);
      assert Members([p]) <= paths;
      FailureLoses(t, [p], root, final);
      assert p in [p];
    }
  }

  lemma {:induction false} OneWentBack(t: Tree, p: Path, root: Path, final: Path)
    requires CanReturn(t, p, root, final)
    ensures WentBack(t, [p], root, final).Some? && AllInRoot(root, [p])
  {
    assert [p][..0] == [];
    assert WentBack(t, [], root, final) == Some(t);
  }

  const WITNESS_ROOT: Path := ["r"]
  const WITNESS_FINAL: Path := ["r", "quarantine", "s"]
  const WITNESS_A: Path := ["r", "a"]
  const WITNESS_B: Path := ["r", "b"]
  const KEPT_A: Path := ["r", "quarantine", "s", "a"]
  const KEPT_B: Path := ["r", "quarantine", "s", "b"]

  /** Two quarantined files; a new file has come to the path of the first. */
  function WitnessTree(): Tree {
    Tree(map[WITNESS_A := "new a", KEPT_A := "old a", KEPT_B := "old b"],
         {WITNESS_ROOT, ["r", "quarantine"], WITNESS_FINAL})
  }

  lemma {:induction false} WitnessPaths()
    ensures Under(WITNESS_ROOT, WITNESS_FINAL)
    ensures InRoot(WITNESS_ROOT, WITNESS_A) && Rebase(WITNESS_ROOT, WITNESS_FINAL, WITNESS_A) == KEPT_A
    ensures InRoot(WITNESS_ROOT, WITNESS_B) && Rebase(WITNESS_ROOT, WITNESS_FINAL, WITNESS_B) == KEPT_B
    ensures !Under(WITNESS_FINAL, WITNESS_A) && !Under(WITNESS_FINAL, WITNESS_B)
    ensures |WITNESS_A| == |WITNESS_B| == 2 && |KEPT_A| == |KEPT_B| == 4
    ensures WITNESS_A[1] != WITNESS_B[1] && KEPT_A[3] != KEPT_B[3]
  {
    assert WITNESS_A[1] == "a" && WITNESS_B[1] == "b" && KEPT_A[3] == "a" && KEPT_B[3] == "b";
    assert WITNESS_FINAL + ["a"] == KEPT_A && WITNESS_FINAL + ["b"] == KEPT_B;
    assert WITNESS_A[1..] == ["a"] && WITNESS_B[1..] == ["b"];
  }

  /** In a directory at the top there is no file above. */
  lemma {:induction false} ShortPath(t: Tree, p: Path, root: Path, final: Path)
    requires |p| == 2 && InRoot(root, p) && Rebase(root, final, p) in t.files && p !in t.dirs
    requires forall f :: f in t.files ==> |f| >= 2
    ensures CanReturn(t, p, root, final)
  {
  }

  lemma {:induction false} OneMoved(t: Tree, p: Path, root: Path, final: Path)
    requires CanReturn(t, p, root, final) && Rebase(root, final, p) in t.files
    ensures var src := Rebase(root, final, p);
            WentBack(t, [p], root, final) == Some(Tree(MoveFile(t.files, src, p), t.dirs + Parents(p)))
  {
    hide CanMove, CanReturn;
    assert WentBack(t, [], root, final) == Some(t);
    WentOneMore(t, [], p, root, final);
    assert [] + [p] == [p];
  }

  lemma {:induction false} WitnessAllows()
    ensures CanReturn(WitnessTree(), WITNESS_A, WITNESS_ROOT, WITNESS_FINAL)
    ensures var t1 := WentBack(WitnessTree(), [WITNESS_A], WITNESS_ROOT, WITNESS_FINAL);
            t1.Some? && CanReturn(t1.value, WITNESS_B, WITNESS_ROOT, WITNESS_FINAL)
  {
    hide CanReturn, WentBack, Rebase, InRoot;
    var t := WitnessTree();
    WitnessPaths();
    assert |WITNESS_ROOT| == 1 && |WITNESS_FINAL| == 3;
    var quarantine: Path := ["r", "quarantine"];
    assert quarantine[1] == "quarantine" && WITNESS_A[1] == "a" && WITNESS_B[1] == "b";
    ShortPath(t, WITNESS_A, WITNESS_ROOT, WITNESS_FINAL);
    OneMoved(t, WITNESS_A, WITNESS_ROOT, WITNESS_FINAL);
    var t1 := Tree(MoveFile(t.files, KEPT_A, WITNESS_A), t.dirs + Parents(WITNESS_A));
    ShortPath(t1, WITNESS_B, WITNESS_ROOT, WITNESS_FINAL);
  }

  /** The first rename is made, the second would be possible but fails; undoing the first
      takes the new file along. */
  lemma {:induction false} FailureLosesNewFile()
    ensures var t, order := WitnessTree(), [WITNESS_A];
            && Returnable(t, {WITNESS_A, WITNESS_B}, WITNESS_ROOT, WITNESS_FINAL)
            && WITNESS_A in t.files && WITNESS_A != WITNESS_B
            && WentBack(t, order, WITNESS_ROOT, WITNESS_FINAL).Some? && AllInRoot(WITNESS_ROOT, order)
            && CanReturn(WentBack(t, order, WITNESS_ROOT, WITNESS_FINAL).value, WITNESS_B, WITNESS_ROOT, WITNESS_FINAL)
            && Undone(WentBack(t, order, WITNESS_ROOT, WITNESS_FINAL).value.files,
                      MovesBack(order, WITNESS_ROOT, WITNESS_FINAL)) == Some(t.files - {WITNESS_A})
  {
    hide CanReturn, WentBack, Undone, MovesBack;
    WitnessPaths();
    WitnessAllows();
    assert |WITNESS_FINAL| == 3;
    assert Members([WITNESS_A]) == {WITNESS_A};
    FailureLoses(WitnessTree(), [WITNESS_A], WITNESS_ROOT, WITNESS_FINAL);
  }

  // ---- How many files can come back ----

  function Inside(files: Files, dir: Path): set<Path> {
    set f | f in files && Under(dir, f)
  }

  /** The quarantine directory holds files of the root, and no empty directories. */
  ghost predicate Kept(t: Tree, root: Path, final: Path) {
    && Under(root, final) && root != final && final in t.dirs && final !in t.files
    && (forall f :: f in t.files && Under(final, f) ==> !Under(final, Rebase(final, root, f)))
    && (forall d :: d in t.dirs && Under(final, d) && d != final ==> exists f :: f in t.files && d < f)
  }

  /** After n renames, each quarantined file is still there or under its own path, and at
      least n of them have left. */
  ghost predicate Leaving(t: Tree, t0: Tree, n: nat, root: Path, final: Path) {
    && final in t.dirs
    && (forall f :: f in t0.files && Under(final, f) ==> f in t.files || Rebase(final, root, f) in t.files)
    && Inside(t.files, final) <= Inside(t0.files, final)
    && (forall d :: d in t.dirs && Under(final, d) && d != final ==> exists f :: f in t0.files && d < f)
    && n + |Inside(t.files, final)| <= |Inside(t0.files, final)|
  }

  lemma {:induction false} Fewer(a: set<Path>, b: set<Path>, f: Path)
    requires a <= b && f in b && f !in a
    ensures |a| < |b|
  {
    var rest := b - {f};
    assert a <= rest;
    FewerOrEqual(a, rest);
  }

  lemma {:induction false} FewerOrEqual<T>(a: set<T>, b: set<T>)
    requires a <= b
    ensures |a| <= |b|
    decreases |a|
  {
    if a != {} {
      var x :| x in a;
      FewerOrEqual(a - {x}, b - {x});
    }
  }

  /** A path cannot go back into the quarantine directory: neither a quarantined file nor a
      directory above one would have come from there. */
  lemma {:induction false} NotIntoQuarantine(t: Tree, t0: Tree, n: nat, root: Path, final: Path, p: Path)
    requires Kept(t0, root, final) && Leaving(t, t0, n, root, final) && CanReturn(t, p, root, final)
    ensures !Under(final, p)
  {
    hide NothingUnder;
    var src := Rebase(root, final, p);
    RebaseBack(root, final, p);
    TopIsRoot(root, final, p);
    if src in t.files {
      assert src in Inside(t.files, final);
    } else if src != final {
      var f :| f in t0.files && src < f;
      BelowSource(root, final, p, f);
      if Under(final, p) { UnderTransitive(final, p, Rebase(final, root, f)); }
    }
  }

  lemma {:induction false} BelowSource(root: Path, final: Path, p: Path, f: Path)
    requires Under(root, p) && Under(Rebase(root, final, p), f)
    ensures Under(final, f) && Under(p, Rebase(final, root, f))
    ensures Rebase(Rebase(root, final, p), p, f) == Rebase(final, root, f)
  {
    var src := Rebase(root, final, p);
    UnderTransitive(final, src, f);
    assert f == src + f[|src|..];
    assert f[|final|..] == p[|root|..] + f[|src|..];
    assert Rebase(final, root, f) == root + p[|root|..] + f[|src|..];
    assert root + p[|root|..] == p;
  }

  lemma {:induction false} FileLeaves(t: Tree, t0: Tree, n: nat, root: Path, final: Path, p: Path)
    requires Kept(t0, root, final) && Leaving(t, t0, n, root, final) && CanReturn(t, p, root, final)
    requires Rebase(root, final, p) in t.files && !Under(final, p)
    ensures Leaving(Moved(t, Rebase(root, final, p), p), t0, n + 1, root, final)
  {
    hide NothingUnder, MoveDir, MoveDirs;
    var src := Rebase(root, final, p);
    var t' := Moved(t, src, p);
    RebaseBack(root, final, p);
    forall d | d in Parents(p) ensures !Under(final, d) {
      if Under(final, d) { UnderTransitive(final, d, p); }
    }
    assert Inside(t'.files, final) <= Inside(t.files, final);
    Fewer(Inside(t'.files, final), Inside(t.files, final), src);
  }

  /** The files of a directory that is renamed go under their own paths. */
  lemma {:induction false} DirFiles(t: Tree, root: Path, final: Path, p: Path, q: Path)
    requires Under(root, p) && !Under(final, p) && Under(final, Rebase(root, final, p))
    requires NothingUnder(t.files, p) && !Under(Rebase(root, final, p), p)
    ensures var src := Rebase(root, final, p);
            var files := MoveDir(t.files, src, p);
            && (q in t.files && !Under(src, q) ==> q in files)
            && (q in t.files && Under(src, q) ==> Under(final, q) && Rebase(final, root, q) in files)
            && (Under(final, q) && q in files ==> (q in t.files && !Under(src, q)) || Under(p, q))
  {
    var src := Rebase(root, final, p);
    forall f | f in t.files && Under(src, f)
      ensures Under(final, f) && Rebase(src, p, f) == Rebase(final, root, f) && Under(p, Rebase(src, p, f))
    {
      BelowSource(root, final, p, f);
    }
  }

  lemma {:induction false} DirLeaves(t: Tree, t0: Tree, n: nat, root: Path, final: Path, p: Path)
    requires Kept(t0, root, final) && Leaving(t, t0, n, root, final) && CanReturn(t, p, root, final)
    requires Rebase(root, final, p) !in t.files && !Under(final, p)
    ensures Leaving(Moved(t, Rebase(root, final, p), p), t0, n + 1, root, final)
  {
    hide MoveDir, MoveDirs, Rebase;
    var src := Rebase(root, final, p);
    var t' := Moved(t, src, p);
    RebaseBack(root, final, p);
    NothingAboveFinal(t, root, final, p);
    DirSourceHolds(t, t0, n, root, final, p);
    var g :| g in t.files && Under(src, g) && Under(final, g);
    forall q
      ensures q in t.files && !Under(src, q) ==> q in t'.files
      ensures q in t.files && Under(src, q) ==> Under(final, q) && Rebase(final, root, q) in t'.files
      ensures Under(final, q) && q in t'.files ==> q in t.files && !Under(src, q)
    {
      DirFiles(t, root, final, p, q);
      if Under(final, q) && Under(p, q) { Nested(final, p, q); }
    }
    assert Inside(t'.files, final) <= Inside(t.files, final);
    Fewer(Inside(t'.files, final), Inside(t.files, final), g);
    DirDirs(t, root, final, p);
  }

  /** The directory that is renamed still holds one of its files, for a file that has gone
      back would be in the way. */
  lemma {:induction false} DirSourceHolds(t: Tree, t0: Tree, n: nat, root: Path, final: Path, p: Path)
    requires Kept(t0, root, final) && Leaving(t, t0, n, root, final) && CanReturn(t, p, root, final)
    requires Rebase(root, final, p) !in t.files && !Under(final, p)
    ensures Rebase(root, final, p) != final
    ensures exists g :: g in t.files && Under(Rebase(root, final, p), g) && Under(final, g)
  {
    var src := Rebase(root, final, p);
    RebaseBack(root, final, p);
    NothingAboveFinal(t, root, final, p);
    TopIsRoot(root, final, p);
    var f :| f in t0.files && src < f;
    BelowSource(root, final, p, f);
    assert Rebase(final, root, f) !in t.files;
  }

  lemma {:induction false} TopIsRoot(root: Path, final: Path, p: Path)
    requires Under(root, p)
    ensures Rebase(root, final, p) == final ==> p == root
  {
    assert |Rebase(root, final, p)| == |final| + |p| - |root|;
    assert p == root + p[|root|..];
  }

  lemma {:induction false} NothingAboveFinal(t: Tree, root: Path, final: Path, p: Path)
    requires CanReturn(t, p, root, final) && Rebase(root, final, p) !in t.files && final in t.dirs && !Under(final, p)
    ensures !Under(p, final)
  {
  }

  lemma {:induction false} DirDirs(t: Tree, root: Path, final: Path, p: Path)
    requires Under(root, p) && !Under(final, p) && !Under(p, final) && Rebase(root, final, p) != final
    requires final in t.dirs
    ensures var dirs := MoveDirs(t.dirs + Parents(p), Rebase(root, final, p), p);
            && final in dirs
            && forall d :: d in dirs && Under(final, d) ==> d in t.dirs
  {
    var src := Rebase(root, final, p);
    RebaseBack(root, final, p);
    forall d | d in Parents(p) ensures !Under(final, d) {
      if Under(final, d) { UnderTransitive(final, d, p); }
    }
    forall d | d in t.dirs + Parents(p) && Under(src, d) ensures !Under(final, Rebase(src, p, d)) {
      RebaseBack(src, p, d);
      Nested(final, p, Rebase(src, p, d));
    }
  }

  /** Every rename takes at least one file out of the quarantine directory, so no more paths
      can be restored than it held files. */
  lemma {:induction false} EachTakesAFile(t0: Tree, order: seq<Path>, root: Path, final: Path)
    requires WentBack(t0, order, root, final).Some? && Kept(t0, root, final)
    ensures Leaving(WentBack(t0, order, root, final).value, t0, |order|, root, final)
    decreases |order|
  {
    hide Leaving, Kept, CanReturn, Moved;
    if order == [] {
      NothingLeft(t0, root, final);
    } else {
      var before, p := order[..|order|-1], order[|order|-1];
      EachTakesAFile(t0, before, root, final);
      var t := WentBack(t0, before, root, final).value;
      CanReturnInRoot(t, p, root, final);
      NotIntoQuarantine(t, t0, |before|, root, final, p);
      if Rebase(root, final, p) in t.files {
        FileLeaves(t, t0, |before|, root, final, p);
      } else {
        DirLeaves(t, t0, |before|, root, final, p);
      }
    }
  }

  lemma {:induction false} NothingLeft(t0: Tree, root: Path, final: Path)
    requires Kept(t0, root, final)
    ensures Leaving(t0, t0, 0, root, final)
  {
  }

  lemma {:induction false} AtMostTheFilesReturn(t0: Tree, order: seq<Path>, root: Path, final: Path)
    requires WentBack(t0, order, root, final).Some? && Kept(t0, root, final)
    ensures |order| <= |Inside(t0.files, final)|
  {
    EachTakesAFile(t0, order, root, final);
  }

  // ---- When every rename is possible ----

  /** The quarantined copies are there, and nothing is in the way of their paths. */
  ghost predicate Clear(t: Tree, paths: set<Path>, root: Path, final: Path) {
    && Returnable(t, paths, root, final)
    && forall p :: p in paths ==>
         && InRoot(root, p) && Rebase(root, final, p) in t.files && p !in t.dirs
         && forall q :: q < p ==> q !in t.files && q !in paths
  }

  lemma {:induction false} ClearStaysClear(t: Tree, t0: Tree, order: seq<Path>, paths: set<Path>, p: Path, root: Path, final: Path)
    requires Went(t, t0, order, root, final) && Clear(t0, paths, root, final) && Members(order) <= paths
    requires p in paths && p !in order
    ensures CanReturn(t, p, root, final)
  {
    hide Returning, Rebase;
    var src := Rebase(root, final, p);
    RebaseBack(root, final, p);
    ReturningAt(t0.files, Members(order), root, final, src);
    forall q | q in Parents(p) ensures q !in t.files {
      ReturningAt(t0.files, Members(order), root, final, q);
    }
    forall q | q in order ensures !(p < q) {
      assert q in Members(order);
    }
  }

  /** Distinct paths whose way is clear can all be restored, in any order. */
  lemma {:induction false} ClearPathsReturn(t0: Tree, order: seq<Path>, p: Path, paths: set<Path>, root: Path, final: Path)
    requires WentBack(t0, order, root, final).Some? && Clear(t0, paths, root, final)
    requires Members(order) <= paths && p in paths && p !in order
    ensures CanReturn(WentBack(t0, order, root, final).value, p, root, final)
  {
    hide Went, CanReturn, Moved;
    WentBackGives(t0, order, root, final);
    ClearStaysClear(WentBack(t0, order, root, final).value, t0, order, paths, p, root, final);
  }

  // ---- What success means ----

  /** Each path holds its quarantined content; other files are untouched; of the
      quarantine directory only leftovers of other files may remain. */
  ghost predicate Restored(before: Files, after: Files, paths: set<Path>, root: Path, final: Path) {
    && (forall p :: p in paths ==>
          && Under(root, p) && Rebase(root, final, p) in before
          && p in after && after[p] == before[Rebase(root, final, p)])
    && (forall q :: !Under(final, q) && q !in paths ==>
          (q in after <==> q in before) && (q in after ==> after[q] == before[q]))
    && (forall q :: Under(final, q) && q in after ==> q in before && Rebase(final, root, q) !in paths)
  }

  lemma {:induction false} IsRestored(t0: Tree, order: seq<Path>, after: Files, root: Path, final: Path)
    requires WentBack(t0, order, root, final).Some? && Returnable(t0, Members(order), root, final)
    requires forall q :: !Under(final, q) ==>
               (q in after <==> q in WentBack(t0, order, root, final).value.files)
               && (q in after ==> after[q] == WentBack(t0, order, root, final).value.files[q])
    requires forall q :: q in after ==>
               q in WentBack(t0, order, root, final).value.files && after[q] == WentBack(t0, order, root, final).value.files[q]
    ensures Restored(t0.files, after, Members(order), root, final)
  {
    hide Returning, Rebase, WentBack;
    WentBackGives(t0, order, root, final);
    var files, paths := t0.files, Members(order);
    forall q
      ensures q in paths ==> q in after && after[q] == files[Rebase(root, final, q)]
      ensures !Under(final, q) && q !in paths ==> (q in after <==> q in files) && (q in after ==> after[q] == files[q])
      ensures Under(final, q) && q in after ==> q in files && Rebase(final, root, q) !in paths
    {
      ReturningAt(files, paths, root, final, q);
    }
  }
}
