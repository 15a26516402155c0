/** The filesystem the script works on, as a map from path to entry, and the
    `os`/`shutil` calls it makes, each with the error Python would raise. */
module Disk {
  import opened Text
  import opened Paths

  datatype Node = Dir | File(content: string) | Link(target: string)

  /** The `OSError` subclasses the calls raise. */
  datatype OsError =
    | FileExists        // FileExistsError
    | FileNotFound      // FileNotFoundError
    | IsADirectory      // IsADirectoryError
    | NotADirectory     // NotADirectoryError
    | SymlinkRefused    // shutil.rmtree on a symlink
    | Busy              // removing the filesystem root

  /** The outcome of materialising one artifact: made now, already there
      (Python's FileExistsError, the normal no-op of a re-run), or a real
      failure. */
  datatype Made = Created | AlreadyPresent | Failed(error: OsError)

  /** Linux follows at most 40 symbolic links while resolving one path. */
  const MaxHops: nat := 40

  /** The entry at `p`, following links for at most `hops` steps. */
  function Follow(m: map<Path, Node>, p: Path, hops: nat): Option<Path>
    decreases hops
  {
    if p !in m then None
    else if !m[p].Link? then Some(p)
    else if hops == 0 || p == [] then None
    else Follow(m, ResolveLink(p, m[p].target), hops - 1)
  }

  /** `os.path.exists`: something is there after following links; a broken
      or looping link does not exist. */
  predicate Exists(m: map<Path, Node>, p: Path) {
    Follow(m, p, MaxHops).Some?
  }

  predicate IsDirAt(m: map<Path, Node>, p: Path) {
    p in m && m[p].Dir?
  }

  /** A tree: the root is a directory, every other entry sits in a directory
      and has a good name. */
  predicate ValidTree(m: map<Path, Node>) {
    IsDirAt(m, []) &&
    forall p {:trigger Parent(p)} :: p in m && p != [] ==> IsDirAt(m, Parent(p)) && GoodName(p[|p| - 1])
  }

  /** In a tree every ancestor of an entry is a directory. */
  lemma {:induction false} AncestorIsDir(m: map<Path, Node>, q: Path, k: nat)
    requires ValidTree(m) && q in m && k < |q|
    ensures IsDirAt(m, q[..k])
    decreases |q| - k
  {
    var p := Parent(q);
    assert IsDirAt(m, p);
    if k < |p| {
      AncestorIsDir(m, p, k);
      assert p[..k] == q[..k];
    }
  }

  /** The error for a path that is not there: `NotADirectoryError` when the
      walk down to it stops at something that is not a directory,
      `FileNotFoundError` otherwise. */
  function Missing(m: map<Path, Node>, p: Path): OsError {
    var k := PresentPrefix(m, p, 0);
    if k < |p| && p[..k] in m && !m[p[..k]].Dir? then NotADirectory else FileNotFound
  }

  /** What `os.symlink(target, at)` does to the tree. */
  function SymlinkOutcome(m: map<Path, Node>, p: Path): Made {
    if p in m || p == [] then AlreadyPresent
    else if IsDirAt(m, Parent(p)) then Created
    else Failed(Missing(m, p))
  }

  function RemoveOutcome(m: map<Path, Node>, p: Path): Option<OsError> {
    if p !in m then Some(Missing(m, p))
    else if m[p].Dir? then Some(IsADirectory)
    else None
  }

  function WriteOutcome(m: map<Path, Node>, p: Path): Option<OsError> {
    if p in m && m[p].Dir? then Some(IsADirectory)
    else if p == [] then Some(IsADirectory)
    else if p in m || IsDirAt(m, Parent(p)) then None
    else Some(Missing(m, p))
  }

  /** How many leading components of `p`, from `i` on, are present. */
  function PresentPrefix(m: map<Path, Node>, p: Path, i: nat): (k: nat)
    requires i <= |p|
    ensures i <= k <= |p|
    ensures p[..i] in m ==> forall l :: i <= l <= k ==> p[..l] in m
    ensures k < |p| ==> p[..k + 1] !in m
    decreases |p| - i
  {
    if i < |p| && p[..i + 1] in m then PresentPrefix(m, p, i + 1) else i
  }

  /** `os.path.isdir`: a directory once links are followed. */
  predicate IsDirFollowed(m: map<Path, Node>, p: Path) {
    var f := Follow(m, p, MaxHops);
    f.Some? && f.value in m && m[f.value].Dir?
  }

  /** What `os.makedirs(at, exist_ok)` raises, if anything. With `exist_ok`
      a path that is already there passes when `os.path.isdir` holds for
      it, so a link to a directory passes too. */
  function MakeDirsOutcome(m: map<Path, Node>, p: Path, existOk: bool): Option<OsError> {
    var k := PresentPrefix(m, p, 0);
    if p[..k] !in m then Some(FileNotFound)
    else if k == |p| then (if existOk && IsDirFollowed(m, p) then None else Some(FileExists))
    else if !m[p[..k]].Dir? then Some(NotADirectory)
    else None
  }

  function RmTreeOutcome(m: map<Path, Node>, p: Path): Option<OsError> {
    if p !in m then Some(Missing(m, p))
    else if m[p].Link? then Some(SymlinkRefused)
    else if m[p].File? then Some(NotADirectory)
    else if p == [] then Some(Busy)
    else None
  }

  /** `m` without the subtree at `p`. */
  function WithoutTree(m: map<Path, Node>, p: Path): (r: map<Path, Node>)
    ensures forall q :: q in r <==> q in m && !IsPrefix(p, q)
    ensures forall q :: q in r ==> r[q] == m[q]
  {
    map q | q in m && !IsPrefix(p, q) :: m[q]
  }

  /** The directories `p[..l]` for `k < l <= |p|`. */
  function DirsBelow(p: Path, k: nat): map<Path, Node> {
    map l | k < l <= |p| :: p[..l] := Dir
  }

  /** The tree `os.makedirs` leaves: the missing directories on the way to
      `p` added on success, nothing changed on failure. Only ancestors of
      `p`, and `p` itself, can be new, and no entry that was there changes. */
  function MadeDirs(m: map<Path, Node>, p: Path, existOk: bool): (r: map<Path, Node>)
    ensures forall q :: q in r && q !in m ==> IsPrefix(q, p)
    ensures forall q :: !IsPrefix(q, p) ==> (q in r <==> q in m) && (q in m ==> r[q] == m[q])
    ensures forall q :: q in m ==> q in r
    ensures MakeDirsOutcome(m, p, existOk).Some? ==> r == m
    ensures MakeDirsOutcome(m, p, existOk) == None ==> p in r && (p !in m ==> r[p] == Dir)
  {
    if MakeDirsOutcome(m, p, existOk) == None then
      var k := PresentPrefix(m, p, 0);
      assert p in m + DirsBelow(p, k) && (p !in m ==> (m + DirsBelow(p, k))[p] == Dir) by {
        if k < |p| { DirsBelowHasEnd(p, k); } else { assert p[..k] == p; }
      }
      m + DirsBelow(p, k)
    else m
  }

  lemma DirsBelowNone(p: Path)
    ensures DirsBelow(p, |p|) == map[]
  {
    assert DirsBelow(p, |p|).Keys == {};
  }

  /** The directories `os.makedirs` adds below the present `p[..k]` keep
      the tree a tree. */
  lemma MakeDirsValid(m: map<Path, Node>, p: Path, k: nat)
    requires ValidTree(m) && k < |p| && IsDirAt(m, p[..k])
    requires forall i :: 0 <= i < |p| ==> GoodName(p[i])
    ensures ValidTree(m + DirsBelow(p, k))
  {
    var r := m + DirsBelow(p, k);
    forall q | q in r && q != []
      ensures IsDirAt(r, Parent(q)) && GoodName(q[|q| - 1])
    {
      if q in DirsBelow(p, k) {
        var l :| k < l <= |p| && q == p[..l];
        assert Parent(q) == p[..l - 1];
        if l - 1 > k {
          assert Parent(q) in DirsBelow(p, k);
        }
      }
    }
  }

  lemma DirsBelowHasEnd(p: Path, k: nat)
    requires k < |p|
    ensures p in DirsBelow(p, k) && DirsBelow(p, k)[p] == Dir
  {
    assert p[..|p|] == p;
  }



  /** The machine's filesystem and the notifications sent so far. */
  class FileSystem {
    var entries: map<Path, Node>
    /** Youtube ids of the videos a new-video notification was sent for. */
    var notified: seq<string>

    ghost predicate Valid()
      reads this
    {
      ValidTree(entries)
    }

    constructor (m: map<Path, Node>)
      requires ValidTree(m)
      ensures Valid() && entries == m && notified == []
    {
      entries := m;
      notified := [];
    }

    /** `os.symlink(target, at)`. */
    method Symlink(target: string, at: string) returns (r: Made)
      requires Valid()
      modifies this
      ensures Valid() && notified == old(notified)
      ensures r == SymlinkOutcome(old(entries), SplitPath(at))
      ensures entries == if r == Created then old(entries)[SplitPath(at) := Link(target)] else old(entries)
    {
      var p := SplitPath(at);
      r := SymlinkOutcome(entries, p);
      if r == Created {
        entries := entries[p := Link(target)];
      }
    }

    /** `os.remove(at)`. */
    method Remove(at: string) returns (e: Option<OsError>)
      requires Valid()
      modifies this
      ensures Valid() && notified == old(notified)
      ensures e == RemoveOutcome(old(entries), SplitPath(at))
      ensures entries == if e == None then old(entries) - {SplitPath(at)} else old(entries)
    {
      e := RemovePath(SplitPath(at));
    }

    /** `os.remove` on a path already split into components. */
    method RemovePath(p: Path) returns (e: Option<OsError>)
      requires Valid()
      modifies this
      ensures Valid() && notified == old(notified)
      ensures e == RemoveOutcome(old(entries), p)
      ensures entries == if e == None then old(entries) - {p} else old(entries)
    {
      e := RemoveOutcome(entries, p);
      if e == None {
        entries := entries - {p};
      }
    }

    /** `open(at, "w+")` followed by a write of `content`. */
    method WriteFile(at: string, content: string) returns (e: Option<OsError>)
      requires Valid()
      modifies this
      ensures Valid() && notified == old(notified)
      ensures e == WriteOutcome(old(entries), SplitPath(at))
      ensures entries == if e == None then old(entries)[SplitPath(at) := File(content)] else old(entries)
    {
      var p := SplitPath(at);
      e := WriteOutcome(entries, p);
      if e == None {
        entries := entries[p := File(content)];
      }
    }

    /** `os.makedirs(at, exist_ok)`: every missing directory on the way is
        created, or nothing is when a present component is in the way. */
    method MakeDirs(at: string, existOk: bool) returns (e: Option<OsError>)
      requires Valid()
      modifies this
      ensures Valid() && notified == old(notified)
      ensures e == MakeDirsOutcome(old(entries), SplitPath(at), existOk)
      ensures e == None ==> IsDirFollowed(entries, SplitPath(at))
      ensures entries == if e == None then old(entries) + DirsBelow(SplitPath(at), PresentPrefix(old(entries), SplitPath(at), 0))
                         else old(entries)
      ensures entries == MadeDirs(old(entries), SplitPath(at), existOk)
    {
      var p := SplitPath(at);
      e := MakeDirsOutcome(entries, p, existOk);
      var k := PresentPrefix(entries, p, 0);
      assert p[..0] == [];
      if e == None && k < |p| {
        MakeDirsValid(entries, p, k);
        entries := entries + DirsBelow(p, k);
        DirsBelowHasEnd(p, k);
      } else if e == None {
        DirsBelowNone(p);
      }
      assert p[..|p|] == p;
    }

    /** `shutil.rmtree(at)` on a platform whose rmtree does not follow
        symlinks: the directory and everything under it go, nothing else. */
    method RmTree(at: string) returns (e: Option<OsError>)
      requires Valid()
      modifies this
      ensures Valid() && notified == old(notified)
      ensures e == RmTreeOutcome(old(entries), SplitPath(at))
      ensures entries == if e == None then WithoutTree(old(entries), SplitPath(at)) else old(entries)
    {
      e := RmTreePath(SplitPath(at));
    }

    /** `shutil.rmtree` on a path already split into components. */
    method RmTreePath(p: Path) returns (e: Option<OsError>)
      requires Valid()
      modifies this
      ensures Valid() && notified == old(notified)
      ensures e == RmTreeOutcome(old(entries), p)
      ensures entries == if e == None then WithoutTree(old(entries), p) else old(entries)
    {
      e := RmTreeOutcome(entries, p);
      if e == None {
        ghost var m := entries;
        entries := WithoutTree(entries, p);
        forall q | q in entries && q != []
          ensures IsDirAt(entries, Parent(q)) && GoodName(q[|q| - 1])
        {
          assert IsDirAt(m, Parent(q));
        }
      }
    }

    /** The new-video notification (`notify`), as an event. */
    method Notify(youtubeId: string)
      modifies this
      ensures entries == old(entries) && notified == old(notified) + [youtubeId]
    {
      notified := notified + [youtubeId];
    }
  }
}
