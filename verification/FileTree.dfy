/** The file system the rollback service works on (rollback.go, FSMover): files and
    directories under clean absolute paths.  A rename may fail for any reason; when it
    does, no file has moved. */
module FileTree {
  import opened Wrappers

  type Path = seq<string>

  type Files = map<Path, string>

  datatype Tree = Tree(files: Files, dirs: set<Path>)

  predicate Under(dir: Path, p: Path) {
    dir <= p
  }

  predicate NothingUnder(files: Files, dir: Path) {
    forall p :: p in files ==> !Under(dir, p)
  }

  lemma {:induction false} UnderTransitive(a: Path, b: Path, c: Path)
    requires Under(a, b) && Under(b, c)
    ensures Under(a, c)
  {
    assert c[..|a|] == b[..|a|];
  }

  function Parents(p: Path): (ps: set<Path>)
    ensures forall q :: q in ps <==> q < p
  {
    assert forall q :: q < p ==> q == p[..|q|];
    set n | 0 <= n < |p| :: p[..n]
  }

  /** Rename of one file; an existing file at the destination is replaced. */
  function MoveFile(files: Files, src: Path, dst: Path): Files
    requires src in files
  {
    (files - {src})[dst := files[src]]
  }

  function Rebase(from: Path, to: Path, p: Path): Path
    requires Under(from, p)
  {
    to + p[|from|..]
  }

  /** Rename of a directory: every path below it gets the new prefix. */
  function MoveDir(files: Files, src: Path, dst: Path): Files {
    map q | q in (set p | p in files && !Under(src, p)) + (set p | p in files && Under(src, p) :: Rebase(src, dst, p))
      :: if Under(dst, q) && Rebase(dst, src, q) in files then files[Rebase(dst, src, q)]
         else if q in files then files[q] else ""
  }

  function MoveDirs(dirs: set<Path>, src: Path, dst: Path): set<Path> {
    (set d | d in dirs && !Under(src, d)) + (set d | d in dirs && Under(src, d) :: Rebase(src, dst, d))
  }

  predicate CanMakeDirs(t: Tree, p: Path) {
    forall q :: q in Parents(p) ==> q !in t.files
  }

  predicate CanMove(t: Tree, src: Path, dst: Path) {
    && CanMakeDirs(t, dst)
    && if src in t.files then dst !in t.dirs
       else
         && src in t.dirs && !Under(src, dst) && dst !in t.files
         && NothingUnder(t.files, dst) && (forall d :: d in t.dirs && Under(dst, d) ==> d == dst)
  }

  function Moved(t: Tree, src: Path, dst: Path): Tree
    requires CanMove(t, src, dst)
  {
    if src in t.files then Tree(MoveFile(t.files, src, dst), t.dirs + Parents(dst))
    else Tree(MoveDir(t.files, src, dst), MoveDirs(t.dirs + Parents(dst), src, dst))
  }

  class FileSystem {
    var tree: Tree
    /** How many renames, and how many other operations, have failed so far. */
    ghost var failedMoves: nat
    ghost var failedOthers: nat
    /** How many renames failed that the tree would have allowed. */
    ghost var faults: nat

    constructor (tree: Tree)
      ensures this.tree == tree && failedMoves == failedOthers == faults == 0
    {
      this.tree, failedMoves, failedOthers, faults := tree, 0, 0, 0;
    }

    method Exists(p: Path) returns (r: bool)
      ensures r <==> p in tree.files || p in tree.dirs
    {
      r := p in tree.files || p in tree.dirs;
    }

    method MkdirAll(p: Path) returns (ok: bool)
      modifies `tree, `failedOthers
      ensures failedOthers == old(failedOthers) + if ok then 0 else 1
      ensures tree.files == old(tree.files)
      ensures old(tree.dirs) <= tree.dirs <= old(tree.dirs) + Parents(p) + {p}
      ensures ok ==> p in tree.dirs && CanMakeDirs(old(tree), p)
    {
      var fault: bool := *;
      ok := !fault && p !in tree.files && CanMakeDirs(tree, p);
      if !ok { failedOthers := failedOthers + 1; }
      if ok {
        tree := tree.(dirs := tree.dirs + Parents(p) + {p});
      }
    }

    /** `Move`: creates the parents of the destination, then renames. */
    method Move(src: Path, dst: Path) returns (ok: bool)
      modifies `tree, `failedMoves, `faults
      ensures ok ==> CanMove(old(tree), src, dst) && tree == Moved(old(tree), src, dst)
      ensures !ok ==> tree.files == old(tree.files)
      ensures !ok ==> old(tree.dirs) <= tree.dirs <= old(tree.dirs) + Parents(dst)
      ensures failedMoves == old(failedMoves) + if ok then 0 else 1
      ensures faults == old(faults) + if !ok && CanMove(old(tree), src, dst) then 1 else 0
    {
      var fault: bool := *;
      var madeParents: bool := *;
      ok := !fault && CanMove(tree, src, dst);
      if !ok {
        failedMoves := failedMoves + 1;
        if CanMove(tree, src, dst) { faults := faults + 1; }
      }
      if ok {
        tree := Moved(tree, src, dst);
      } else if madeParents && CanMakeDirs(tree, dst) {
        tree := tree.(dirs := tree.dirs + Parents(dst));
      }
    }

    /** `RemoveAll`: on an error part of the tree below may be gone already. */
    method RemoveAll(p: Path) returns (ok: bool)
      modifies `tree, `failedOthers
      ensures failedOthers == old(failedOthers) + if ok then 0 else 1
      ensures forall q :: !Under(p, q) ==>
                && (q in tree.files <==> q in old(tree.files))
                && (q in tree.files ==> tree.files[q] == old(tree.files)[q])
                && (q in tree.dirs <==> q in old(tree.dirs))
      ensures forall q :: q in tree.files ==> q in old(tree.files) && tree.files[q] == old(tree.files)[q]
      ensures tree.dirs <= old(tree.dirs)
      ensures ok ==> NothingUnder(tree.files, p) && p !in tree.dirs
    {
      var kept: set<Path> := *;
      ok := kept == {};
      if !ok { failedOthers := failedOthers + 1; }
      tree := Tree(map q | q in tree.files && (!Under(p, q) || q in kept) :: tree.files[q],
                   set d | d in tree.dirs && (!Under(p, d) || d in kept));
    }
  }

  // ---- Relocating a set of files under another root ----

  /** The files with those of `moved` re-rooted from `root` to `dest`. */
  function Relocated(files: Files, moved: set<Path>, root: Path, dest: Path): Files
    requires forall p :: p in moved ==> Under(root, p) && p in files
  {
    map q | q in (files.Keys - moved) + (set p | p in moved :: Rebase(root, dest, p))
      :: if Under(dest, q) && Rebase(dest, root, q) in moved then files[Rebase(dest, root, q)]
         else if q in files then files[q] else ""
  }

  lemma {:induction false} RebaseBack(from: Path, to: Path, p: Path)
    requires Under(from, p)
    ensures Under(to, Rebase(from, to, p)) && Rebase(to, from, Rebase(from, to, p)) == p
  {
    var q := Rebase(from, to, p);
    assert q[..|to|] == to;
    assert q[|to|..] == p[|from|..];
    assert from + p[|from|..] == p;
  }

  lemma {:induction false} RebaseDistinct(from: Path, to: Path, p: Path, q: Path)
    requires Under(from, p) && Under(from, q)
    ensures Rebase(from, to, p) == Rebase(from, to, q) ==> p == q
  {
    RebaseBack(from, to, p);
    RebaseBack(from, to, q);
  }

  /** Membership and contents of a relocated tree, one path at a time. */
  lemma {:induction false} RelocatedAt(files: Files, moved: set<Path>, root: Path, dest: Path, q: Path)
    requires forall p :: p in moved ==> Under(root, p) && p in files
    requires NothingUnder(files, dest)
    ensures var r := Relocated(files, moved, root, dest);
            if Under(dest, q) then
              && (q in r <==> Rebase(dest, root, q) in moved)
              && (q in r ==> r[q] == files[Rebase(dest, root, q)])
            else
              && (q in r <==> q in files && q !in moved)
              && (q in r ==> r[q] == files[q])
  {
    forall p | p in moved
      ensures Under(dest, Rebase(root, dest, p)) && Rebase(dest, root, Rebase(root, dest, p)) == p
    {
      RebaseBack(root, dest, p);
    }
    if Under(dest, q) {
      RebaseBack(dest, root, q);
      if Rebase(dest, root, q) in moved {
        assert Rebase(root, dest, Rebase(dest, root, q)) == q;
      }
    }
  }

  lemma {:induction false} SameFiles(a: Files, b: Files)
    requires forall q :: (q in a <==> q in b) && (q in a ==> a[q] == b[q])
    ensures a == b
  {
    assert a.Keys == b.Keys;
  }

  lemma {:induction false} RelocatedNone(files: Files, root: Path, dest: Path)
    requires NothingUnder(files, dest)
    ensures Relocated(files, {}, root, dest) == files
  {
    forall q ensures (q in Relocated(files, {}, root, dest) <==> q in files)
                  && (q in files ==> Relocated(files, {}, root, dest)[q] == files[q]) {
      RelocatedAt(files, {}, root, dest, q);
    }
    SameFiles(Relocated(files, {}, root, dest), files);
  }

  lemma {:induction false} RelocatedElsewhere(files: Files, moved: set<Path>, root: Path, dest: Path, p: Path, q: Path)
    requires forall q :: q in moved ==> Under(root, q) && q in files
    requires NothingUnder(files, dest) && p in files && Under(root, p)
    requires q != p && q != Rebase(root, dest, p)
    ensures var before, after := Relocated(files, moved, root, dest), Relocated(files, moved + {p}, root, dest);
            (q in before <==> q in after) && (q in before ==> before[q] == after[q])
  {
    hide Relocated, Rebase;
    RelocatedAt(files, moved, root, dest, q);
    RelocatedAt(files, moved + {p}, root, dest, q);
    if Under(dest, q) { RebaseBack(dest, root, q); }
  }

  /** Moving one more file, and moving it back. */
  lemma {:induction false} RelocateOne(files: Files, moved: set<Path>, root: Path, dest: Path, p: Path)
    requires forall q :: q in moved ==> Under(root, q) && q in files
    requires NothingUnder(files, dest)
    requires p in files && p !in moved && Under(root, p)
    ensures var before, after := Relocated(files, moved, root, dest), Relocated(files, moved + {p}, root, dest);
            var to := Rebase(root, dest, p);
            && p in before && to !in before && p !in after && to in after
            && MoveFile(before, p, to) == after
            && MoveFile(after, to, p) == before
  {
    hide Relocated, Rebase;
    var before, after := Relocated(files, moved, root, dest), Relocated(files, moved + {p}, root, dest);
    var to := Rebase(root, dest, p);
    RebaseBack(root, dest, p);
    RelocatedAt(files, moved, root, dest, p);
    RelocatedAt(files, moved, root, dest, to);
    RelocatedAt(files, moved + {p}, root, dest, p);
    RelocatedAt(files, moved + {p}, root, dest, to);
    forall q | q != p && q != to ensures (q in before <==> q in after) && (q in before ==> before[q] == after[q]) {
      RelocatedElsewhere(files, moved, root, dest, p, q);
    }
    SameFiles(MoveFile(before, p, to), after);
    SameFiles(MoveFile(after, to, p), before);
  }

  /** Renaming the directory that holds the relocated files relocates them there instead. */
  lemma {:induction false} RenameRelocated(files: Files, moved: set<Path>, root: Path, dest: Path, dest': Path)
    requires forall p :: p in moved ==> Under(root, p) && p in files
    requires NothingUnder(files, dest) && NothingUnder(files, dest')
    requires !Under(dest, dest') && !Under(dest', dest)
    ensures MoveDir(Relocated(files, moved, root, dest), dest, dest') == Relocated(files, moved, root, dest')
  {
    hide Relocated, MoveDir, Rebase, NothingUnder;
    var before, after := Relocated(files, moved, root, dest), Relocated(files, moved, root, dest');
    var r := MoveDir(before, dest, dest');
    forall q ensures (q in r <==> q in after) && (q in r ==> r[q] == after[q]) {
      NothingMovedThere(files, moved, root, dest, dest');
      MoveDirAt(before, dest, dest', q);
      RelocatedAt(files, moved, root, dest', q);
      if Under(dest', q) {
        RebaseBack(dest', dest, q);
        RelocatedAt(files, moved, root, dest, Rebase(dest', dest, q));
        RebaseTwice(dest', dest, root, q);
      } else {
        RelocatedAt(files, moved, root, dest, q);
        NotUnder(files, dest, q);
      }
    }
    SameFiles(r, after);
  }

  lemma {:induction false} NotUnder(files: Files, dir: Path, q: Path)
    requires NothingUnder(files, dir)
    ensures Under(dir, q) ==> q !in files
  {
  }

  lemma {:induction false} RebaseTwice(a: Path, b: Path, c: Path, q: Path)
    requires Under(a, q)
    ensures Under(b, Rebase(a, b, q))
    ensures Rebase(b, c, Rebase(a, b, q)) == Rebase(a, c, q)
  {
    assert Rebase(a, b, q)[|b|..] == q[|a|..];
  }

  /** Of two directories above the same path, one is above the other. */
  lemma {:induction false} Nested(a: Path, b: Path, q: Path)
    ensures Under(a, q) && Under(b, q) ==> Under(a, b) || Under(b, a)
  {
    if Under(a, q) && Under(b, q) {
      if |a| <= |b| {
        assert b[..|a|] == q[..|a|] == a;
      } else {
        assert a[..|b|] == q[..|b|] == b;
      }
    }
  }

  lemma {:induction false} NothingMovedThere(files: Files, moved: set<Path>, root: Path, dest: Path, other: Path)
    requires forall p :: p in moved ==> Under(root, p) && p in files
    requires NothingUnder(files, dest) && NothingUnder(files, other)
    requires !Under(dest, other) && !Under(other, dest)
    ensures NothingUnder(Relocated(files, moved, root, dest), other)
  {
    hide Relocated, Rebase;
    var r := Relocated(files, moved, root, dest);
    forall q | q in r ensures !Under(other, q) {
      RelocatedAt(files, moved, root, dest, q);
      Nested(dest, other, q);
      NotUnder(files, other, q);
    }
  }

  lemma {:induction false} MoveDirAt(files: Files, src: Path, dst: Path, q: Path)
    requires NothingUnder(files, dst) && !Under(src, dst) && !Under(dst, src)
    ensures var r := MoveDir(files, src, dst);
            if Under(dst, q) then
              && (q in r <==> Rebase(dst, src, q) in files)
              && (q in r ==> r[q] == files[Rebase(dst, src, q)])
            else
              && (q in r <==> q in files && !Under(src, q))
              && (q in r ==> r[q] == files[q])
  {
    forall p | p in files && Under(src, p)
      ensures Under(dst, Rebase(src, dst, p)) && Rebase(dst, src, Rebase(src, dst, p)) == p
    {
      RebaseBack(src, dst, p);
    }
    if Under(dst, q) {
      RebaseBack(dst, src, q);
      if Rebase(dst, src, q) in files {
        assert Rebase(src, dst, Rebase(dst, src, q)) == q;
      }
    }
  }
}
