/** Snapshot and restore of the working directory around an escalation, over plain finite trees. */
module WorkTree {
  import opened Wrappers

  type Name = string

  datatype Node = File(content: string) | Dir(entries: map<Name, Node>)

  type Tree = n: Node | n.Dir? witness Dir(map[])

  /** The two directories that are neither saved nor wiped. */
  predicate IsCache(n: Name) { n == "target" || n == ".git" }

  // ---------------------------------------------------------------- specification

  /** The node without any entry named like a cache, at any depth. */
  function Prune(n: Node): (r: Node)
    ensures r.Dir? <==> n.Dir?
    decreases n
  {
    match n
    case File(_) => n
    case Dir(es) => Dir(map k | k in es && !IsCache(k) :: Prune(es[k]))
  }

  ghost predicate CacheFree(n: Node)
    decreases n
  {
    n.Dir? ==> forall k :: k in n.entries ==> !IsCache(k) && CacheFree(n.entries[k])
  }

  function Caches(t: Tree): Tree {
    Dir(map k | k in t.entries && IsCache(k) :: t.entries[k])
  }

  function Sources(t: Tree): Tree {
    Dir(map k | k in t.entries && !IsCache(k) :: t.entries[k])
  }

  function Under(dst: Tree, k: Name): Tree {
    if k in dst.entries && dst.entries[k].Dir? then dst.entries[k] else Dir(map[])
  }

  /** `copy_tree_contents(src, dst)` when it succeeds: directories merge, files overwrite. */
  function Merge(src: Tree, dst: Tree): Tree
    decreases src, 0
  {
    Dir(dst.entries + map k | k in src.entries && !IsCache(k) :: Landed(src.entries[k], Under(dst, k)))
  }

  function Landed(n: Node, sub: Tree): Node
    decreases n, 1
  {
    if n.File? then n else Merge(n, sub)
  }

  /** It succeeds exactly when no directory lands on a file and no file on a directory. */
  ghost predicate Copyable(src: Tree, dst: Tree)
    decreases src, 0
  {
    forall k :: k in src.entries && !IsCache(k) ==> Fits(src.entries[k], k, dst)
  }

  ghost predicate Fits(n: Node, k: Name, dst: Tree)
    decreases n, 1
  {
    && (k in dst.entries ==> (n.Dir? <==> dst.entries[k].Dir?))
    && (n.Dir? ==> Copyable(n, Under(dst, k)))
  }

  // ---------------------------------------------------------------- the operations

  method CopyEntry(n: Node, k: Name, dst: Tree) returns (ok: bool, out: Node)
    ensures ok <==> Fits(n, k, dst)
    ensures ok ==> out == Landed(n, Under(dst, k))
    decreases n, 1
  {
    out := n;
    if k in dst.entries && n.Dir? != dst.entries[k].Dir? { return false, out; }
    if n.File? { return true, out; }
    ok, out := CopyTreeContents(n, Under(dst, k));
  }

  /** The target once the entries in `read` have been copied. */
  ghost function Copied(src: Tree, dst: Tree, read: set<Name>): map<Name, Node>
    requires read <= src.entries.Keys
  {
    dst.entries + map k | k in read && !IsCache(k) :: Landed(src.entries[k], Under(dst, k))
  }

  lemma CopiedStep(src: Tree, dst: Tree, read: set<Name>, k: Name)
    requires read <= src.entries.Keys && k in src.entries && k !in read
    ensures IsCache(k) ==> Copied(src, dst, read + {k}) == Copied(src, dst, read)
    ensures !IsCache(k) ==> Copied(src, dst, read + {k}) == Copied(src, dst, read)[k := Landed(src.entries[k], Under(dst, k))]
  {
  }

  lemma NotCopiedYet(src: Tree, dst: Tree, read: set<Name>, k: Name)
    requires read <= src.entries.Keys && k !in read
    ensures k in Copied(src, dst, read) <==> k in dst.entries
    ensures k in dst.entries ==> Copied(src, dst, read)[k] == dst.entries[k]
  {
  }

  /** Copies entry by entry, in whatever order the directory is read, and stops at the first clash. */
  method CopyTreeContents(src: Tree, dst: Tree) returns (ok: bool, out: Tree)
    ensures ok <==> Copyable(src, dst)
    ensures ok ==> out == Merge(src, dst)
    ensures ok ==> forall p :: At(out, p) == if "target" !in p && ".git" !in p && At(src, p).Some? then At(src, p) else At(dst, p)
    decreases src, 0
  {
    out := dst;
    var names := src.entries.Keys;
    ghost var read: set<Name> := {};
    while names != {}
      invariant names + read == src.entries.Keys && names !! read
      invariant forall k :: k in read && !IsCache(k) ==> Fits(src.entries[k], k, dst)
      invariant out.entries == Copied(src, dst, read)
    {
      var name :| name in names;
      CopiedStep(src, dst, read, name);
      NotCopiedYet(src, dst, read, name);
      names, read := names - {name}, read + {name};
      if !IsCache(name) {
        var entryOk, entry := CopyEntry(src.entries[name], name, out);
        assert Under(out, name) == Under(dst, name);
        assert Fits(src.entries[name], name, out) <==> Fits(src.entries[name], name, dst);
        if !entryOk { return false, out; }
        out := Dir(out.entries[name := entry]);
      }
    }
    ok := true;
    assert read == src.entries.Keys;
    forall p ensures At(out, p) == if "target" !in p && ".git" !in p && At(src, p).Some? then At(src, p) else At(dst, p) {
      CopyAt(src, dst, p);
    }
  }

  /** A copy of the working directory into a fresh directory. */
  method SnapshotWorkdir(cwd: Tree) returns (snap: Tree)
    ensures snap == Prune(cwd)
    ensures forall p :: At(snap, p) == if "target" in p || ".git" in p then None else At(cwd, p)
  {
    var ok;
    ok, snap := CopyTreeContents(cwd, Dir(map[]));
    MergeIntoEmpty(cwd);
    forall p ensures At(snap, p) == if "target" in p || ".git" in p then None else At(cwd, p) {
      PruneAt(cwd, p);
    }
  }

  /** Removes everything but the top-level caches, then copies the snapshot back. */
  method RestoreWorkdir(cwd: Tree, snap: Tree) returns (out: Tree)
    ensures out == Restored(cwd, Prune(snap))
    ensures forall p :: p != [] ==>
              At(out, p) == if Top(p) then At(cwd, p) else if "target" in p || ".git" in p then None else At(snap, p)
  {
    var left := Caches(cwd);
    var ok;
    ok, out := CopyTreeContents(snap, left);
    MergeDisjoint(snap, left);
    forall p | p != []
      ensures At(out, p) == if Top(p) then At(cwd, p) else if "target" in p || ".git" in p then None else At(snap, p)
    {
      PruneAt(snap, p);
    }
  }

  // ---------------------------------------------------------------- paths

  /** What is at a path: a file with its content, or a directory. */
  datatype Entry = FileOf(content: string) | Folder

  /** Under one of the two top-level directories that are kept as they are. */
  ghost predicate Top(p: seq<Name>)
    requires p != []
  {
    p[0] == "target" || p[0] == ".git"
  }

  ghost function At(n: Node, p: seq<Name>): Option<Entry>
    decreases |p|
  {
    if p == [] then Some(if n.File? then FileOf(n.content) else Folder)
    else if n.Dir? && p[0] in n.entries then At(n.entries[p[0]], p[1..])
    else None
  }

  lemma {:induction false} PruneAt(n: Node, p: seq<Name>)
    ensures At(Prune(n), p) == if "target" in p || ".git" in p then None else At(n, p)
    decreases |p|
  {
    if p != [] {
      assert forall x :: x in p <==> x == p[0] || x in p[1..];
      if n.Dir? && p[0] in n.entries {
        PruneAt(n.entries[p[0]], p[1..]);
      }
    }
  }

  /** A copy that succeeds puts every path of the source without a cache name in place, and leaves every
      other path as it was. */
  lemma {:induction false} CopyAt(src: Tree, dst: Tree, p: seq<Name>)
    requires Copyable(src, dst)
    ensures At(Merge(src, dst), p) == if "target" !in p && ".git" !in p && At(src, p).Some? then At(src, p) else At(dst, p)
    decreases |p|
  {
    if p != [] {
      assert forall x :: x in p <==> x == p[0] || x in p[1..];
      var k := p[0];
      if k in src.entries && !IsCache(k) {
        assert Fits(src.entries[k], k, dst);
        if src.entries[k].Dir? {
          CopyAt(src.entries[k], Under(dst, k), p[1..]);
        }
      }
    }
  }

  // ---------------------------------------------------------------- laws

  /** The snapshot, beside the caches the later tree has at its top. */
  function Restored(later: Tree, snap: Tree): Tree {
    Dir(Caches(later).entries + snap.entries)
  }

  lemma {:induction false} MergeIntoEmpty(t: Tree)
    ensures Copyable(t, Dir(map[])) && Merge(t, Dir(map[])) == Prune(t)
    decreases t
  {
    var empty: Tree := Dir(map[]);
    var m := Merge(t, empty);
    forall k | k in t.entries && !IsCache(k)
      ensures Fits(t.entries[k], k, empty) && m.entries[k] == Prune(t.entries[k])
    {
      assert m.entries[k] == Landed(t.entries[k], Under(empty, k));
      assert Under(empty, k) == empty;
      if t.entries[k].Dir? {
        MergeIntoEmpty(t.entries[k]);
      }
    }
    assert m.entries == Prune(t).entries;
  }

  lemma {:induction false} PruneIsCacheFree(n: Node)
    ensures CacheFree(Prune(n))
    decreases n
  {
    if n.Dir? {
      forall k | k in Prune(n).entries ensures CacheFree(Prune(n).entries[k]) {
        PruneIsCacheFree(n.entries[k]);
      }
    }
  }

  /** Pruning changes nothing exactly when no entry at any depth is named like a cache. */
  lemma {:induction false} PruneFixpoint(n: Node)
    ensures Prune(n) == n <==> CacheFree(n)
    decreases n
  {
    if n.Dir? {
      forall k | k in n.entries ensures Prune(n.entries[k]) == n.entries[k] <==> CacheFree(n.entries[k]) {
        PruneFixpoint(n.entries[k]);
      }
      if CacheFree(n) {
        assert Prune(n).entries == n.entries;
      } else {
        var k :| k in n.entries && (IsCache(k) || !CacheFree(n.entries[k]));
        assert k in Prune(n).entries ==> Prune(n).entries[k] != n.entries[k];
      }
    }
  }

  lemma MergeDisjoint(snap: Tree, left: Tree)
    requires forall k :: k in left.entries ==> IsCache(k)
    ensures Copyable(snap, left) && Merge(snap, left) == Dir(left.entries + Prune(snap).entries)
  {
    MergeIntoEmpty(snap);
    assert Merge(snap, left).entries == left.entries + Merge(snap, Dir(map[])).entries;
  }

  /** The restore theorem: whatever the tree was and whatever became of it, snapshot then restore gives
      the original without any nested cache, plus the later tree's own top-level caches. */
  method SnapshotThenRestore(original: Tree, later: Tree) returns (out: Tree)
    ensures Caches(out) == Caches(later)
    ensures Sources(out) == Prune(original)
    ensures Sources(out) == Sources(original) <==> forall k :: k in Sources(original).entries ==> CacheFree(original.entries[k])
    // path by path
    ensures forall p :: p != [] ==>
              At(out, p) == if Top(p) then At(later, p) else if "target" in p || ".git" in p then None else At(original, p)
  {
    var snap := SnapshotWorkdir(original);
    PruneIsCacheFree(original);
    PruneFixpoint(snap);
    out := RestoreWorkdir(later, snap);
    RestoredParts(later, snap);
    RestoredExactly(original);
  }

  lemma RestoredParts(later: Tree, snap: Tree)
    requires CacheFree(snap)
    ensures Caches(Restored(later, snap)) == Caches(later)
    ensures Sources(Restored(later, snap)) == snap
  {
    assert Caches(Restored(later, snap)).entries == Caches(later).entries;
    assert Sources(Restored(later, snap)).entries == snap.entries;
  }

  /** Nothing of the sources is lost exactly when no source has a nested entry named like a cache. */
  lemma RestoredExactly(original: Tree)
    ensures Prune(original) == Sources(original) <==>
            forall k :: k in Sources(original).entries ==> CacheFree(original.entries[k])
  {
    PruneFixpoint(Sources(original));
    assert Prune(Sources(original)).entries == Prune(original).entries;
    assert CacheFree(Sources(original)) <==> forall k :: k in Sources(original).entries ==> CacheFree(original.entries[k]);
  }

  /** Restoring twice is restoring once, whatever the snapshot. */
  method RestoreTwice(cwd: Tree, snap: Tree) returns (once: Tree, twice: Tree)
    ensures twice == once
  {
    once := RestoreWorkdir(cwd, snap);
    twice := RestoreWorkdir(once, snap);
    PruneIsCacheFree(snap);
    RestoredParts(cwd, Prune(snap));
    RestoreForgets(once, cwd, Prune(snap));
  }

  /** What the sources were before a restore does not matter, only the top-level caches do. */
  lemma RestoreForgets(a: Tree, b: Tree, snap: Tree)
    requires Caches(a) == Caches(b)
    ensures Restored(a, snap) == Restored(b, snap)
  {
  }
}
