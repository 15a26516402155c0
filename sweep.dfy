/** The deleting half of `cleanup_after_deleted_videos`
    (ta-helper.py:302-337): the queued files are removed, then (only where
    `shutil.rmtree` resists symlink attacks) the empty-folder candidates, and
    last every channel folder left without a subfolder. */
module Sweep {
  import opened Text
  import opened Catalog
  import opened Paths
  import opened Disk
  import opened Orphans

  function Elems(s: seq<Path>): set<Path> {
    set q | q in s
  }

  /** `m1` is `m0` with some entries deleted and nothing else changed. */
  predicate Shrunk(m0: map<Path, Node>, m1: map<Path, Node>) {
    forall q :: q in m1 ==> q in m0 && m1[q] == m0[q]
  }

  /** Deleting entries never makes a broken path resolve. */
  lemma {:induction false} FollowShrunk(m0: map<Path, Node>, m1: map<Path, Node>, p: Path, h: nat)
    requires Shrunk(m0, m1) && Follow(m1, p, h).Some?
    ensures Follow(m0, p, h) == Follow(m1, p, h)
    decreases h
  {
    if m1[p].Link? {
      FollowShrunk(m0, m1, ResolveLink(p, m1[p].target), h - 1);
    }
  }

  lemma DirEntryShrunk(m0: map<Path, Node>, m1: map<Path, Node>, q: Path)
    requires Shrunk(m0, m1) && IsDirEntry(m1, q)
    ensures IsDirEntry(m0, q) && Follow(m0, q, MaxHops) == Follow(m1, q, MaxHops)
  {
    FollowShrunk(m0, m1, q, MaxHops);
  }

  /** Following a chain that resolves within `h` hops resolves within more. */
  lemma {:induction false} FollowMoreHops(m: map<Path, Node>, p: Path, h: nat)
    requires Follow(m, p, h).Some?
    ensures Follow(m, p, h + 1) == Follow(m, p, h)
    decreases h
  {
    if m[p].Link? {
      FollowMoreHops(m, ResolveLink(p, m[p].target), h - 1);
    }
  }

  // ---------------------------------------------------------------------
  // What the cleanup keeps.

  /** The entries under a season folder: two levels or more below the
      target folder. */
  predicate InSeason(root: Path, q: Path) {
    IsPrefix(root, q) && |q| >= |root| + 3
  }

  /** `q` lies in (or is) an empty-folder candidate. */
  ghost predicate UnderCandidate(m: map<Path, Node>, cfg: Config, top: string, q: Path) {
    exists d :: IsPrefix(d, q) && Candidate(m, cfg, top, d)
  }

  /** An entry below a candidate is the candidate or a plain file of it:
      a candidate has no subfolder. */
  lemma CandidateContents(m: map<Path, Node>, cfg: Config, top: string, d: Path, q: Path)
    requires ValidTree(m) && q in m && IsPrefix(d, q) && Candidate(m, cfg, top, d)
    ensures q == d || (|q| == |d| + 1 && !IsDirEntry(m, q) && !IsWorkingLink(m, cfg, q))
  {
    if |q| >= |d| + 2 {
      DeepEntrySubdir(m, d, q);
    } else if |q| == |d| + 1 {
      assert q in Children(m, d);
    } else {
      assert q == q[..|d|];
    }
  }

  /** A folder with an entry two levels down has a subfolder. */
  lemma DeepEntrySubdir(m: map<Path, Node>, d: Path, q: Path)
    requires ValidTree(m) && q in m && IsPrefix(d, q) && |q| >= |d| + 2
    ensures HasSubdir(m, d)
  {
    AncestorIsDir(m, q, |d| + 1);
    var c := q[..|d| + 1];
    assert c[..|d|] == d;
    assert c in Children(m, d);
    assert Follow(m, c, MaxHops) == Some(c);
  }

  /** Two candidates are never nested. */
  lemma CandidatesApart(m: map<Path, Node>, cfg: Config, top: string, d: Path, d': Path)
    requires ValidTree(m) && Candidate(m, cfg, top, d) && Candidate(m, cfg, top, d') && d != d'
    ensures !IsPrefix(d, d')
  {
    assert IsDirEntry(m, d') by {
      assert Follow(m, d', MaxHops) == Some(d');
    }
    if IsPrefix(d, d') {
      CandidateContents(m, cfg, top, d, d');
    }
  }

  /** A working video symlink: a link whose name is not an extra's and
      that resolves to a file. */
  predicate LiveVideo(m: map<Path, Node>, cfg: Config, v: Path) {
    v in m && v != [] && m[v].Link? && !IsExtraName(cfg, v[|v| - 1]) &&
    var f := Follow(m, v, MaxHops);
    f.Some? && f.value in m && m[f.value].File?
  }

  lemma LiveIsWorking(m: map<Path, Node>, cfg: Config, v: Path)
    requires LiveVideo(m, cfg, v)
    ensures IsWorkingLink(m, cfg, v) && !IsDirEntry(m, v)
  {
    assert Follow(m, v, MaxHops) == Follow(m, ResolveLink(v, m[v].target), MaxHops - 1);
    FollowMoreHops(m, ResolveLink(v, m[v].target), MaxHops - 1);
  }

  /** A live video in a season folder is neither queued nor inside an
      empty-folder candidate. */
  lemma LiveVideoKept(m: map<Path, Node>, cfg: Config, top: string, v: Path)
    requires ValidTree(m) && LiveVideo(m, cfg, v)
    ensures !Queued(m, cfg, top, v) && !UnderCandidate(m, cfg, top, v)
  {
    LiveIsWorking(m, cfg, v);
    if d :| IsPrefix(d, v) && Candidate(m, cfg, top, d) {
      CandidateContents(m, cfg, top, d, v);
    }
  }

  /** The extras of a live video (its NFO, poster link and subtitle link,
      named like the video with another suffix) are neither queued nor
      inside an empty-folder candidate. */
  lemma LiveExtrasKept(m: map<Path, Node>, cfg: Config, top: string, d: Path, b: string, suffix: string)
    requires ValidTree(m) && d in Walked(m, SplitPath(top)) && '/' !in cfg.subFormat
    requires d + [b + suffix] in m && !IsDirEntry(m, d + [b + suffix])
    requires ExtraMatch(b + suffix, cfg.subFormat) == |suffix|
    requires LiveVideo(m, cfg, d + [b + ".mp4"])
    ensures !Queued(m, cfg, top, d + [b + suffix]) && !UnderCandidate(m, cfg, top, d + [b + suffix])
  {
    LiveExtraNotQueued(m, cfg, top, d, b, suffix);
    LiveExtraNotUnder(m, cfg, top, d, b, suffix);
  }

  lemma LiveExtraNotQueued(m: map<Path, Node>, cfg: Config, top: string, d: Path, b: string, suffix: string)
    requires ValidTree(m) && d in Walked(m, SplitPath(top)) && '/' !in cfg.subFormat
    requires d + [b + suffix] in m && ExtraMatch(b + suffix, cfg.subFormat) == |suffix|
    requires LiveVideo(m, cfg, d + [b + ".mp4"])
    ensures !Queued(m, cfg, top, d + [b + suffix])
  {
    var x := d + [b + suffix];
    var v := d + [b + ".mp4"];
    assert Parent(v) == d;
    EntryNames(m, v);
    assert GoodName(b + ".mp4") by { assert v[|v| - 1] == b + ".mp4"; }
    if !IsShowSidecar(b + suffix) && !IsDirEntry(m, x) && !IsSkipped(top, d) {
      ExtraQueuedIff(m, cfg, top, d, b, suffix);
    }
  }

  lemma LiveExtraNotUnder(m: map<Path, Node>, cfg: Config, top: string, d: Path, b: string, suffix: string)
    requires ValidTree(m) && d + [b + suffix] in m && !IsDirEntry(m, d + [b + suffix])
    requires LiveVideo(m, cfg, d + [b + ".mp4"])
    ensures !UnderCandidate(m, cfg, top, d + [b + suffix])
  {
    var x := d + [b + suffix];
    var v := d + [b + ".mp4"];
    LiveIsWorking(m, cfg, v);
    assert v in Children(m, d) by { assert v[..|d|] == d; }
    assert x[..|d|] == d;
    if e :| IsPrefix(e, x) && Candidate(m, cfg, top, e) {
      CandidateContents(m, cfg, top, e, x);
    }
  }

  // ---------------------------------------------------------------------
  // The deletions.

  /** The loop over `broken` (ta-helper.py:305-311). The `os.remove` there
      is unguarded; it cannot raise, because every queued entry is a file
      or a link and none is queued twice. */
  method RemoveBroken(fs: FileSystem, broken: seq<Path>)
    requires fs.Valid() && NoDups(broken)
    requires forall i :: 0 <= i < |broken| ==> broken[i] in fs.entries && !fs.entries[broken[i]].Dir?
    modifies fs
    ensures fs.Valid() && fs.notified == old(fs.notified)
    ensures fs.entries == old(fs.entries) - Elems(broken)
  {
    var i := 0;
    while i < |broken|
      invariant 0 <= i <= |broken| && fs.Valid() && fs.notified == old(fs.notified)
      invariant fs.entries == old(fs.entries) - Elems(broken[..i])
    {
      assert broken[i] !in broken[..i];
      var e := fs.RemovePath(broken[i]);
      assert e == None;
      assert broken[..i + 1] == broken[..i] + [broken[i]];
      assert Elems(broken[..i + 1]) == Elems(broken[..i]) + {broken[i]};
      i := i + 1;
    }
    assert broken[..i] == broken;
  }

  /** `m` without the subtrees at the paths `ds`. */
  function WithoutTrees(m: map<Path, Node>, ds: seq<Path>): (r: map<Path, Node>)
    ensures Shrunk(m, r)
    ensures forall q :: q in r <==> q in m && forall i :: 0 <= i < |ds| ==> !IsPrefix(ds[i], q)
  {
    map q | q in m && (forall i :: 0 <= i < |ds| ==> !IsPrefix(ds[i], q)) :: m[q]
  }

  /** The loop over `empty_subfolders` (ta-helper.py:317-322). `rmtree`
      fails only on the filesystem root. */
  method RemoveEmpty(fs: FileSystem, empty: seq<Path>) returns (e: Option<OsError>)
    requires fs.Valid()
    requires forall i :: 0 <= i < |empty| ==> IsDirAt(fs.entries, empty[i])
    requires forall i, j :: 0 <= i < |empty| && 0 <= j < |empty| && i != j ==> !IsPrefix(empty[i], empty[j])
    modifies fs
    ensures fs.Valid() && fs.notified == old(fs.notified)
    ensures e == None <==> [] !in empty
    ensures e != None ==> e == Some(Busy)
    ensures e == None ==> fs.entries == WithoutTrees(old(fs.entries), empty)
    ensures Shrunk(old(fs.entries), fs.entries)
    ensures forall q :: q in WithoutTrees(old(fs.entries), empty) ==> q in fs.entries
  {
    ghost var i;
    e, i := RemoveEach(fs, empty);
    if e == None {
      assert empty[..i] == empty;
    } else {
      assert empty[i] in empty;
      WithoutTreesPrefix(old(fs.entries), empty, i);
    }
  }

  /** The loop itself: it stops at the `i`-th folder when that one fails. */
  method RemoveEach(fs: FileSystem, empty: seq<Path>) returns (e: Option<OsError>, ghost i: nat)
    requires fs.Valid()
    requires forall i :: 0 <= i < |empty| ==> IsDirAt(fs.entries, empty[i])
    requires forall i, j :: 0 <= i < |empty| && 0 <= j < |empty| && i != j ==> !IsPrefix(empty[i], empty[j])
    modifies fs
    ensures fs.Valid() && fs.notified == old(fs.notified)
    ensures i <= |empty| && fs.entries == WithoutTrees(old(fs.entries), empty[..i])
    ensures forall j :: 0 <= j < i ==> empty[j] != []
    ensures e == None ==> i == |empty|
    ensures e != None ==> i < |empty| && empty[i] == [] && e == Some(Busy)
  {
    e := None;
    var k := 0;
    while k < |empty| && e == None
      invariant 0 <= k <= |empty| && fs.Valid() && fs.notified == old(fs.notified)
      invariant forall j :: 0 <= j < k ==> empty[j] != []
      invariant fs.entries == WithoutTrees(old(fs.entries), empty[..k])
      invariant e != None ==> k < |empty| && empty[k] == [] && e == Some(Busy)
      decreases |empty| - k, if e == None then 1 else 0
    {
      e := RemoveOne(fs, old(fs.entries), empty, k);
      if e == None {
        k := k + 1;
      }
    }
    i := k;
  }

  /** One turn of the loop: `shutil.rmtree` on the `k`-th folder. */
  method RemoveOne(fs: FileSystem, ghost m0: map<Path, Node>, empty: seq<Path>, k: nat) returns (e: Option<OsError>)
    requires fs.Valid() && k < |empty| && fs.entries == WithoutTrees(m0, empty[..k])
    requires forall i :: 0 <= i < |empty| ==> IsDirAt(m0, empty[i])
    requires forall i, j :: 0 <= i < |empty| && 0 <= j < |empty| && i != j ==> !IsPrefix(empty[i], empty[j])
    modifies fs
    ensures fs.Valid() && fs.notified == old(fs.notified)
    ensures e == None ==> empty[k] != [] && fs.entries == WithoutTrees(m0, empty[..k + 1])
    ensures e != None ==> empty[k] == [] && e == Some(Busy) && fs.entries == old(fs.entries)
  {
    RemoveEachStep(m0, fs.entries, empty, k);
    e := fs.RmTreePath(empty[k]);
  }

  /** The next folder of the loop is still there, and deleting it extends
      the deleted prefix by one. */
  lemma RemoveEachStep(m0: map<Path, Node>, m: map<Path, Node>, ds: seq<Path>, k: nat)
    requires k < |ds| && m == WithoutTrees(m0, ds[..k])
    requires forall i :: 0 <= i < |ds| ==> IsDirAt(m0, ds[i])
    requires forall i, j :: 0 <= i < |ds| && 0 <= j < |ds| && i != j ==> !IsPrefix(ds[i], ds[j])
    ensures IsDirAt(m, ds[k])
    ensures WithoutTree(m, ds[k]) == WithoutTrees(m0, ds[..k + 1])
  {
    StillThere(m0, ds, k);
    WithoutTreesSnoc(m0, ds[..k], ds[k]);
    assert ds[..k + 1] == ds[..k] + [ds[k]];
  }

  /** No earlier subtree holds a later path of `ds`. */
  lemma StillThere(m: map<Path, Node>, ds: seq<Path>, i: nat)
    requires i < |ds| && ds[i] in m
    requires forall k, j :: 0 <= k < |ds| && 0 <= j < |ds| && k != j ==> !IsPrefix(ds[k], ds[j])
    ensures ds[i] in WithoutTrees(m, ds[..i])
  {
    forall k | 0 <= k < i
      ensures !IsPrefix(ds[..i][k], ds[i])
    {
      assert ds[..i][k] == ds[k];
    }
  }

  /** Fewer subtrees removed keep more. */
  lemma WithoutTreesPrefix(m: map<Path, Node>, ds: seq<Path>, i: nat)
    requires i <= |ds|
    ensures forall q :: q in WithoutTrees(m, ds) ==> q in WithoutTrees(m, ds[..i])
  {
    forall q | q in WithoutTrees(m, ds)
      ensures q in WithoutTrees(m, ds[..i])
    {
      forall k | 0 <= k < i
        ensures !IsPrefix(ds[..i][k], q)
      {
        assert ds[..i][k] == ds[k];
      }
    }
  }

  lemma WithoutTreesSnoc(m: map<Path, Node>, ds: seq<Path>, d: Path)
    ensures WithoutTree(WithoutTrees(m, ds), d) == WithoutTrees(m, ds + [d])
  {
    var a := WithoutTree(WithoutTrees(m, ds), d);
    var b := WithoutTrees(m, ds + [d]);
    forall q | q in b
      ensures q in a
    {
      assert (ds + [d])[|ds|] == d;
      forall i | 0 <= i < |ds|
        ensures !IsPrefix(ds[i], q)
      {
        assert (ds + [d])[i] == ds[i];
      }
    }
    forall q | q in a
      ensures q in b
    {
      forall i | 0 <= i < |ds + [d]|
        ensures !IsPrefix((ds + [d])[i], q)
      {
        if i < |ds| {
          assert (ds + [d])[i] == ds[i];
        }
      }
    }
    assert a.Keys == b.Keys;
  }

  /** The inner loop of the channel-folder pass: whether `dir` holds a
      subfolder, stopping at the first one. */
  method HasSubfolder(fs: FileSystem, dir: Path) returns (found: bool)
    ensures found <==> HasSubdir(fs.entries, dir)
  {
    var m := fs.entries;
    var rest := Children(m, dir);
    found := false;
    while rest != {}
      invariant rest <= Children(m, dir)
      invariant !found && forall q :: q in Children(m, dir) - rest ==> !IsDirEntry(m, q)
      decreases |rest|
    {
      var q :| q in rest;
      if IsDirEntry(m, q) {
        found := true;
        return;
      }
      rest := rest - {q};
    }
  }

  /** Whether the channel-folder pass deletes the entry `c` of the target
      folder: a folder (after following links) without a subfolder. The
      "./.git" test compares a bare name, which never holds a '/'. */
  predicate IsPruned(m: map<Path, Node>, c: Path) {
    c != [] && IsDirEntry(m, c) && !StartsWith(c[|c| - 1], "./.git") &&
    !HasSubdir(m, Follow(m, c, MaxHops).value)
  }

  /** A name never holds a '/', so it never starts with "./.git". */
  lemma GitTestNeverHolds(name: string)
    requires GoodName(name)
    ensures !StartsWith(name, "./.git")
  {
    if |name| >= 2 {
      assert name[1] in name;
    }
  }

  /** One entry of the channel-folder pass (ta-helper.py:325-337);
      `rmtree` refuses a symlink, and that error is not caught. */
  method PruneEntry(fs: FileSystem, c: Path) returns (e: Option<OsError>)
    requires fs.Valid() && c != []
    modifies fs
    ensures fs.Valid() && fs.notified == old(fs.notified)
    ensures e == (if IsPruned(old(fs.entries), c) then RmTreeOutcome(old(fs.entries), c) else None)
    ensures fs.entries == if IsPruned(old(fs.entries), c) && e == None then WithoutTree(old(fs.entries), c) else old(fs.entries)
  {
    e := None;
    if !IsDirEntry(fs.entries, c) || StartsWith(c[|c| - 1], "./.git") {
      return;
    }
    var sub := HasSubfolder(fs, Follow(fs.entries, c, MaxHops).value);
    if !sub {
      e := fs.RmTreePath(c);
    }
  }

  /** The error `os.scandir` raises on the target folder, if any; a
      target folder that is a symlink is not modelled as followed. */
  function ScandirError(m: map<Path, Node>, p: Path): Option<OsError> {
    if p !in m then Some(Missing(m, p))
    else if !m[p].Dir? then Some(NotADirectory)
    else None
  }

  /** `q` lies in (or is) a child of the target folder `root` that is a
      folder, after following links: the only entries the channel-folder
      pass may delete. */
  predicate InFolderChild(m: map<Path, Node>, root: Path, q: Path) {
    |q| > |root| && IsPrefix(root, q) && IsDirEntry(m, q[..|root| + 1])
  }

  /** The child `c` of the target folder `root` holds a season folder: a
      directory, not a link, directly inside it. Such a channel folder
      is never deleted. */
  predicate HoldsSeason(m: map<Path, Node>, root: Path, c: Path) {
    exists s :: s in m && IsDirAt(m, s) && |s| == |root| + 2 && IsPrefix(c, s)
  }

  /** The channel-folder pass (ta-helper.py:324-337): every folder of the
      target folder that holds no subfolder is deleted. Entries below a
      season folder are never touched. */
  method PruneChannels(fs: FileSystem, root: Path) returns (e: Option<OsError>)
    requires fs.Valid()
    modifies fs
    ensures fs.Valid() && fs.notified == old(fs.notified)
    ensures ScandirError(old(fs.entries), root) != None ==> e == ScandirError(old(fs.entries), root) && fs.entries == old(fs.entries)
    ensures Shrunk(old(fs.entries), fs.entries)
    ensures forall q :: q in old(fs.entries) && !IsPrefix(root, q) ==> q in fs.entries
    ensures forall q :: q in old(fs.entries) && !InFolderChild(old(fs.entries), root, q) ==> q in fs.entries
    ensures forall q :: q in old(fs.entries) && IsPrefix(root, q) && |q| >= |root| + 2 && IsDirAt(old(fs.entries), q[..|root| + 2]) ==> q in fs.entries
    ensures forall q :: (q in old(fs.entries) && IsPrefix(root, q) && |q| > |root| &&
                         HoldsSeason(old(fs.entries), root, q[..|root| + 1])) ==> q in fs.entries
    ensures e == None ==> forall c :: (c in Children(old(fs.entries), root) && IsDirAt(old(fs.entries), c) &&
                                       !HasSubdir(old(fs.entries), c)) ==> c !in fs.entries
  {
    e := ScandirError(fs.entries, root);
    if e != None {
      return;
    }
    ghost var m0 := fs.entries;
    var rest := Children(fs.entries, root);
    while rest != {}
      invariant rest <= Children(m0, root)
      invariant fs.Valid() && fs.notified == old(fs.notified) && e == None
      invariant Shrunk(m0, fs.entries)
      invariant forall q :: q in m0 && q !in fs.entries ==>
        InFolderChild(m0, root, q) && q[..|root| + 1] !in rest && !HoldsSeason(m0, root, q[..|root| + 1])
      invariant forall q :: q in m0 && IsPrefix(root, q) && |q| >= |root| + 2 && IsDirAt(m0, q[..|root| + 2]) ==> q in fs.entries
      invariant forall c :: c in Children(m0, root) - rest && IsDirAt(m0, c) && !HasSubdir(m0, c) ==> c !in fs.entries
      decreases |rest|
    {
      var c :| c in rest;
      PruneStep(m0, fs.entries, root, rest, c);
      e := PruneEntry(fs, c);
      if e.Some? {
        return;
      }
      rest := rest - {c};
    }
  }

  /** What deleting the child `c` of the target folder keeps. */
  lemma PruneStep(m0: map<Path, Node>, m: map<Path, Node>, root: Path, rest: set<Path>, c: Path)
    requires ValidTree(m0) && ValidTree(m) && Shrunk(m0, m) && c in rest && rest <= Children(m0, root)
    requires forall q :: q in m0 && q !in m ==> InFolderChild(m0, root, q) && q[..|root| + 1] !in rest
    requires forall q :: q in m0 && IsPrefix(root, q) && |q| >= |root| + 2 && IsDirAt(m0, q[..|root| + 2]) ==> q in m
    ensures c != [] && c in m
    ensures IsPruned(m, c) ==> IsDirEntry(m0, c)
    ensures IsPruned(m, c) ==> forall q :: q in m0 && IsPrefix(root, q) && |q| >= |root| + 2 && IsDirAt(m0, q[..|root| + 2]) ==> !IsPrefix(c, q)
    ensures IsPruned(m, c) ==> !HoldsSeason(m0, root, c)
    ensures IsDirAt(m0, c) && !HasSubdir(m0, c) ==> IsPruned(m, c) && RmTreeOutcome(m, c) == None
    ensures forall q :: q in m0 && IsPrefix(c, q) ==> |q| > |root| && IsPrefix(root, q) && q[..|root| + 1] == c
  {
    assert c[..|root|] == root;
    assert c[..|root| + 1] == c;
    assert c in m;
    forall q | q in m0 && IsPrefix(c, q)
      ensures |q| > |root| && IsPrefix(root, q) && q[..|root| + 1] == c
    {
      assert q[..|root|] == c[..|root|];
    }
    if IsPruned(m, c) {
      DirEntryShrunk(m0, m, c);
      PrunedHoldsNoSeason(m0, m, root, c);
      NoSeasonHeld(m0, root, c);
    }
    if IsDirAt(m0, c) && !HasSubdir(m0, c) {
      EmptyChannelPruned(m0, m, c);
    }
  }

  /** A folder the pass deletes holds no season folder that was there at
      the start. */
  lemma PrunedHoldsNoSeason(m0: map<Path, Node>, m: map<Path, Node>, root: Path, c: Path)
    requires ValidTree(m) && Shrunk(m0, m) && c in m && IsPruned(m, c) && |c| == |root| + 1 && c[..|root|] == root
    requires forall q :: q in m0 && IsPrefix(root, q) && |q| >= |root| + 2 && IsDirAt(m0, q[..|root| + 2]) ==> q in m
    ensures forall q :: q in m0 && IsPrefix(root, q) && |q| >= |root| + 2 && IsDirAt(m0, q[..|root| + 2]) ==> !IsPrefix(c, q)
  {
    forall q | q in m0 && IsPrefix(root, q) && |q| >= |root| + 2 && IsDirAt(m0, q[..|root| + 2])
      ensures !IsPrefix(c, q)
    {
      if IsPrefix(c, q) {
        SeasonIsSubdir(m0, m, root, c, q);
      }
    }
  }

  /** A channel folder that no season folder lies below holds none. */
  lemma NoSeasonHeld(m0: map<Path, Node>, root: Path, c: Path)
    requires |c| == |root| + 1 && c[..|root|] == root
    requires forall q :: q in m0 && IsPrefix(root, q) && |q| >= |root| + 2 && IsDirAt(m0, q[..|root| + 2]) ==> !IsPrefix(c, q)
    ensures !HoldsSeason(m0, root, c)
  {
    forall s | s in m0 && IsDirAt(m0, s) && |s| == |root| + 2
      ensures !IsPrefix(c, s)
    {
      ChildPrefix(root, c, s);
    }
  }

  /** A path one level below a child of `root` lies below `root`. */
  lemma ChildPrefix(root: Path, c: Path, s: Path)
    ensures |c| == |root| + 1 && c[..|root|] == root && |s| == |root| + 2 && IsPrefix(c, s) ==>
      IsPrefix(root, s) && s[..|root| + 2] == s
  {
    if |c| == |root| + 1 && c[..|root|] == root && |s| == |root| + 2 && IsPrefix(c, s) {
      assert s[..|root|] == c[..|root|];
    }
  }

  /** A season folder kept below the channel folder `c` is a subfolder of
      it. */
  lemma SeasonIsSubdir(m0: map<Path, Node>, m: map<Path, Node>, root: Path, c: Path, q: Path)
    requires ValidTree(m) && Shrunk(m0, m) && c in m && IsDirEntry(m, c) && |c| == |root| + 1 && c[..|root|] == root
    requires forall q :: q in m0 && IsPrefix(root, q) && |q| >= |root| + 2 && IsDirAt(m0, q[..|root| + 2]) ==> q in m
    requires q in m0 && IsPrefix(c, q) && |q| >= |root| + 2 && IsDirAt(m0, q[..|root| + 2])
    ensures HasSubdir(m, Follow(m, c, MaxHops).value)
  {
    var s := q[..|root| + 2];
    assert q[..|root|] == root;
    assert s[..|root| + 2] == s && s in m;
    assert s[..|c|] == c && Parent(s) == c;
    assert IsDirAt(m, c);
    assert Follow(m, c, MaxHops).value == c && s in Children(m, c);
  }

  /** A channel folder with no subfolder at the start is still one when
      the pass reaches it, and is deleted. */
  lemma EmptyChannelPruned(m0: map<Path, Node>, m: map<Path, Node>, c: Path)
    requires ValidTree(m) && Shrunk(m0, m) && c in m && c != []
    requires IsDirAt(m0, c) && !HasSubdir(m0, c)
    ensures IsPruned(m, c) && RmTreeOutcome(m, c) == None
  {
    assert IsDirAt(m, Parent(c));
    GitTestNeverHolds(c[|c| - 1]);
    assert Follow(m, c, MaxHops) == Some(c);
    forall q | q in Children(m, c)
      ensures !IsDirEntry(m, q)
    {
      if IsDirEntry(m, q) {
        DirEntryShrunk(m0, m, q);
      }
    }
  }

  /** With SUB_FORMAT set to the empty string, the pattern as written
      treats every video link `n` as an extra whose video is `n + ".mp4"`;
      unless such a file happens to exist, the working link counts as
      hanging and is queued. The corrected classification keeps it. */
  lemma LiveVideoHangsAsWritten(m: map<Path, Node>, cfg: Config, top: string, d: Path, n: string)
    requires ValidTree(m) && d in m && IsPrefix(SplitPath(top), d)
    requires cfg.subFormat == "" && LiveVideo(m, cfg, d + [n]) && d + [n + ".mp4"] !in m
    ensures IsHangingAsWritten(m, cfg, top, d + [n])
    ensures !IsHanging(m, cfg, top, d + [n])
  {
    var v := d + [n];
    assert Parent(v) == d && v[|v| - 1] == n;
    LiveIsWorking(m, cfg, v);
    EntryNames(m, v);
    ExpectedAsWrittenOfVideo(m, top, d, n);
  }

  /** Where the pattern as written, with an empty SUB_FORMAT, looks for the
      video of a file `n` that is not an NFO or a poster: at `n + ".mp4"`. */
  lemma ExpectedAsWrittenOfVideo(m: map<Path, Node>, top: string, d: Path, n: string)
    requires ValidTree(m) && d in m && IsPrefix(SplitPath(top), d) && GoodName(n)
    requires !EndsWithFold(n, ".nfo") && !EndsWithFold(n, "-poster.jpg")
    ensures IsPrefix(SplitPath(top), d + [n])
    ensures SplitPath(ExtrasSubAsWritten(WalkPath(top, d + [n]), "")) == d + [n + ".mp4"]
  {
    var dir := WalkPath(top, d);
    WalkPathChild(top, d, n);
    var path := Join(dir, n);
    assert n + "" == n;
    JoinEnds(dir, n, "");
    FoldSuffix(path, n, ".nfo");
    FoldSuffix(path, n, "-poster.jpg");
    assert ExtrasSubAsWritten(path, "") == path + ".mp4";
    JoinEnds(dir, n, ".mp4");
    JoinSplit(dir, n + ".mp4");
    WalkPathSplit(m, top, d);
  }

  // ---------------------------------------------------------------------
  // The whole cleanup.

  /** `cleanup_after_deleted_videos` (ta-helper.py:260-337). The queued
      files always go; where `shutil.rmtree` is unsafe the function stops
      there. Otherwise the empty-folder candidates and the channel folders
      left without a subfolder go too. Nothing inside a season folder that
      is neither queued nor in a candidate is touched, which by
      `LiveVideoKept` and `LiveExtrasKept` covers every working video link
      and its extras. */
  method Cleanup(fs: FileSystem, cfg: Config, avoidsSymlinkAttacks: bool) returns (e: Option<OsError>)
    requires fs.Valid()
    modifies fs
    ensures fs.Valid() && fs.notified == old(fs.notified)
    ensures Shrunk(old(fs.entries), fs.entries)
    ensures forall q :: Queued(old(fs.entries), cfg, cfg.targetFolder, q) ==> q !in fs.entries
    ensures forall q :: (q in old(fs.entries) && InSeason(SplitPath(cfg.targetFolder), q) &&
                         !Queued(old(fs.entries), cfg, cfg.targetFolder, q) &&
                         !UnderCandidate(old(fs.entries), cfg, cfg.targetFolder, q)) ==> q in fs.entries
    ensures !avoidsSymlinkAttacks ==>
      (e == None && forall q :: q in fs.entries <==> q in old(fs.entries) && !Queued(old(fs.entries), cfg, cfg.targetFolder, q))
    ensures avoidsSymlinkAttacks && e == None ==>
      forall d :: Candidate(old(fs.entries), cfg, cfg.targetFolder, d) ==> d !in fs.entries
    // Only the queued entries, the candidates and the folders among the
    // target folder's children lose anything.
    ensures forall q :: (q in old(fs.entries) && !Queued(old(fs.entries), cfg, cfg.targetFolder, q) &&
                         !UnderCandidate(old(fs.entries), cfg, cfg.targetFolder, q) &&
                         !InFolderChild(old(fs.entries), SplitPath(cfg.targetFolder), q)) ==> q in fs.entries
    // A channel folder that still holds a season after the first two
    // loops keeps everything in it but the queued files and candidates.
    ensures forall q :: (q in old(fs.entries) && !Queued(old(fs.entries), cfg, cfg.targetFolder, q) &&
                         !UnderCandidate(old(fs.entries), cfg, cfg.targetFolder, q) &&
                         IsPrefix(SplitPath(cfg.targetFolder), q) && |q| > |SplitPath(cfg.targetFolder)| &&
                         HoldsSeason(Swept(old(fs.entries), cfg, cfg.targetFolder), SplitPath(cfg.targetFolder),
                                     q[..|SplitPath(cfg.targetFolder)| + 1])) ==> q in fs.entries
    // Every channel folder the first two loops leave without a subfolder
    // is gone.
    ensures avoidsSymlinkAttacks && e == None ==>
      var m := Swept(old(fs.entries), cfg, cfg.targetFolder);
      forall c :: (c in Children(m, SplitPath(cfg.targetFolder)) && IsDirAt(m, c) && !HasSubdir(m, c)) ==> c !in fs.entries
  {
    var top := cfg.targetFolder;
    ghost var m0 := fs.entries;
    var broken, empty := FindOrphans(fs, cfg, top);
    QueuedAreFiles(m0, cfg, top, broken);
    RemoveBroken(fs, broken);
    if !avoidsSymlinkAttacks {
      return None;
    }
    e := RemoveFolders(fs, cfg, m0, broken, empty);
  }

  /** The last two loops of the cleanup (ta-helper.py:317-337), run where
      `shutil.rmtree` resists symlink attacks: the empty-folder candidates
      go, then the channel folders left without a subfolder. `m0` is the
      tree before the queued entries `broken` were removed. */
  method RemoveFolders(fs: FileSystem, cfg: Config, ghost m0: map<Path, Node>, ghost broken: seq<Path>, empty: seq<Path>)
    returns (e: Option<OsError>)
    requires fs.Valid() && ValidTree(m0) && fs.entries == m0 - Elems(broken)
    requires forall q :: q in broken <==> Queued(m0, cfg, cfg.targetFolder, q)
    requires NoDups(empty) && forall d :: d in empty <==> Candidate(m0, cfg, cfg.targetFolder, d)
    modifies fs
    ensures fs.Valid() && fs.notified == old(fs.notified)
    ensures Shrunk(old(fs.entries), fs.entries)
    ensures forall q :: (q in m0 && InSeason(SplitPath(cfg.targetFolder), q) &&
                         !Queued(m0, cfg, cfg.targetFolder, q) && !UnderCandidate(m0, cfg, cfg.targetFolder, q)) ==> q in fs.entries
    ensures forall q :: (q in m0 && !Queued(m0, cfg, cfg.targetFolder, q) && !UnderCandidate(m0, cfg, cfg.targetFolder, q) &&
                         !InFolderChild(m0, SplitPath(cfg.targetFolder), q)) ==> q in fs.entries
    ensures forall q :: (q in m0 && !Queued(m0, cfg, cfg.targetFolder, q) && !UnderCandidate(m0, cfg, cfg.targetFolder, q) &&
                         IsPrefix(SplitPath(cfg.targetFolder), q) && |q| > |SplitPath(cfg.targetFolder)| &&
                         HoldsSeason(Swept(m0, cfg, cfg.targetFolder), SplitPath(cfg.targetFolder),
                                     q[..|SplitPath(cfg.targetFolder)| + 1])) ==> q in fs.entries
    ensures e == None ==> forall d :: Candidate(m0, cfg, cfg.targetFolder, d) ==> d !in fs.entries
    ensures e == None ==>
      var m := Swept(m0, cfg, cfg.targetFolder);
      forall c :: (c in Children(m, SplitPath(cfg.targetFolder)) && IsDirAt(m, c) && !HasSubdir(m, c)) ==> c !in fs.entries
  {
    var top := cfg.targetFolder;
    ghost var m1 := fs.entries;
    CandidatesReady(m0, m1, cfg, top, broken, empty);
    e := RemoveEmpty(fs, empty);
    ghost var m2 := fs.entries;
    SeasonsKept(m0, m1, m2, cfg, top, broken, empty);
    OthersKept(m0, m1, m2, cfg, top, broken, empty);
    SweptKept(m0, m1, m2, cfg, top, broken, empty);
    if e.Some? {
      return;
    }
    SweptIs(m0, m1, cfg, top, broken, empty);
    CandidatesGone(m0, m2, cfg, top, empty);
    e := PruneChannels(fs, SplitPath(top));
  }

  /** Removing the candidates' subtrees removes the candidates. */
  lemma CandidatesGone(m0: map<Path, Node>, m: map<Path, Node>, cfg: Config, top: string, empty: seq<Path>)
    requires forall d :: d in empty <==> Candidate(m0, cfg, top, d)
    requires forall q :: q in m ==> forall i :: 0 <= i < |empty| ==> !IsPrefix(empty[i], q)
    ensures forall d :: Candidate(m0, cfg, top, d) ==> d !in m
  {
    forall d | Candidate(m0, cfg, top, d)
      ensures d !in m
    {
      assert d in empty;
      assert IsPrefix(d, d);
    }
  }

  lemma QueuedAreFiles(m: map<Path, Node>, cfg: Config, top: string, broken: seq<Path>)
    requires forall q :: q in broken <==> Queued(m, cfg, top, q)
    ensures forall i :: 0 <= i < |broken| ==> broken[i] in m && !m[broken[i]].Dir?
  {
    forall i | 0 <= i < |broken|
      ensures broken[i] in m && !m[broken[i]].Dir?
    {
      assert Queued(m, cfg, top, broken[i]);
    }
  }

  /** After the queued files are gone the candidates are still folders, and
      none lies in another. */
  lemma CandidatesReady(m0: map<Path, Node>, m1: map<Path, Node>, cfg: Config, top: string,
                        broken: seq<Path>, empty: seq<Path>)
    requires ValidTree(m0) && m1 == m0 - Elems(broken)
    requires forall q :: q in broken <==> Queued(m0, cfg, top, q)
    requires NoDups(empty) && forall d :: d in empty <==> Candidate(m0, cfg, top, d)
    ensures forall i :: 0 <= i < |empty| ==> IsDirAt(m1, empty[i])
    ensures forall i, j :: 0 <= i < |empty| && 0 <= j < |empty| && i != j ==> !IsPrefix(empty[i], empty[j])
  {
    forall i | 0 <= i < |empty|
      ensures IsDirAt(m1, empty[i])
    {
      assert Candidate(m0, cfg, top, empty[i]);
      assert Follow(m0, empty[i], MaxHops) == Some(empty[i]);
    }
    forall i, j | 0 <= i < |empty| && 0 <= j < |empty| && i != j
      ensures !IsPrefix(empty[i], empty[j])
    {
      assert Candidate(m0, cfg, top, empty[i]) && Candidate(m0, cfg, top, empty[j]);
      assert empty[i] != empty[j] by {
        if i < j { } else { }
      }
      CandidatesApart(m0, cfg, top, empty[i], empty[j]);
    }
  }

  /** What the first two deletion loops keep of a season folder. */
  lemma SeasonsKept(m0: map<Path, Node>, m1: map<Path, Node>, m2: map<Path, Node>, cfg: Config, top: string,
                    broken: seq<Path>, empty: seq<Path>)
    requires ValidTree(m0) && m1 == m0 - Elems(broken)
    requires forall q :: q in broken <==> Queued(m0, cfg, top, q)
    requires forall d :: d in empty <==> Candidate(m0, cfg, top, d)
    requires Shrunk(m1, m2) && forall q :: q in WithoutTrees(m1, empty) ==> q in m2
    ensures forall q :: q in m0 && InSeason(SplitPath(top), q) && !Queued(m0, cfg, top, q) && !UnderCandidate(m0, cfg, top, q) ==>
      q in m2 && IsDirAt(m2, q[..|SplitPath(top)| + 2])
  {
    var root := SplitPath(top);
    forall q | q in m0 && InSeason(root, q) && !Queued(m0, cfg, top, q) && !UnderCandidate(m0, cfg, top, q)
      ensures q in m2 && IsDirAt(m2, q[..|root| + 2])
    {
      KeptByEmpty(m0, m1, cfg, top, broken, empty, q);
      SeasonFolderKept(m0, cfg, top, q, q[..|root| + 2]);
      KeptByEmpty(m0, m1, cfg, top, broken, empty, q[..|root| + 2]);
    }
  }

  /** The season folder holding a kept entry is neither queued nor in a
      candidate. */
  lemma SeasonFolderKept(m0: map<Path, Node>, cfg: Config, top: string, q: Path, s: Path)
    requires ValidTree(m0) && q in m0 && !UnderCandidate(m0, cfg, top, q)
    requires |q| >= |SplitPath(top)| + 3 && s == q[..|SplitPath(top)| + 2]
    ensures s in m0 && IsDirAt(m0, s) && !Queued(m0, cfg, top, s) && !UnderCandidate(m0, cfg, top, s)
  {
    AncestorIsDir(m0, q, |s|);
    assert Follow(m0, s, MaxHops) == Some(s);
    forall d | IsPrefix(d, s)
      ensures IsPrefix(d, q)
    {
      assert q[..|d|] == s[..|d|];
    }
  }

  /** What the first two deletion loops keep outside the folders among
      the target folder's children. */
  lemma OthersKept(m0: map<Path, Node>, m1: map<Path, Node>, m2: map<Path, Node>, cfg: Config, top: string,
                   broken: seq<Path>, empty: seq<Path>)
    requires m1 == m0 - Elems(broken)
    requires forall q :: q in broken <==> Queued(m0, cfg, top, q)
    requires forall d :: d in empty <==> Candidate(m0, cfg, top, d)
    requires Shrunk(m1, m2) && forall q :: q in WithoutTrees(m1, empty) ==> q in m2
    ensures forall q :: (q in m0 && !Queued(m0, cfg, top, q) && !UnderCandidate(m0, cfg, top, q) &&
                         !InFolderChild(m0, SplitPath(top), q)) ==> q in m2 && !InFolderChild(m2, SplitPath(top), q)
  {
    var root := SplitPath(top);
    forall q | q in m0 && !Queued(m0, cfg, top, q) && !UnderCandidate(m0, cfg, top, q) && !InFolderChild(m0, root, q)
      ensures q in m2 && !InFolderChild(m2, root, q)
    {
      KeptByEmpty(m0, m1, cfg, top, broken, empty, q);
      StaysOutside(m0, m2, root, q);
    }
  }

  /** The first two deletion loops keep every entry that is neither
      queued nor in a candidate. */
  lemma SweptKept(m0: map<Path, Node>, m1: map<Path, Node>, m2: map<Path, Node>, cfg: Config, top: string,
                  broken: seq<Path>, empty: seq<Path>)
    requires m1 == m0 - Elems(broken)
    requires forall q :: q in broken <==> Queued(m0, cfg, top, q)
    requires forall d :: d in empty <==> Candidate(m0, cfg, top, d)
    requires forall q :: q in WithoutTrees(m1, empty) ==> q in m2
    ensures forall q :: q in m0 && !Queued(m0, cfg, top, q) && !UnderCandidate(m0, cfg, top, q) ==> q in m2
  {
    forall q | q in m0 && !Queued(m0, cfg, top, q) && !UnderCandidate(m0, cfg, top, q)
      ensures q in m2
    {
      KeptByEmpty(m0, m1, cfg, top, broken, empty, q);
    }
  }

  /** Deleting entries never makes an entry lie in a folder child. */
  lemma StaysOutside(m0: map<Path, Node>, m: map<Path, Node>, root: Path, q: Path)
    requires Shrunk(m0, m) && !InFolderChild(m0, root, q)
    ensures !InFolderChild(m, root, q)
  {
    if |q| > |root| && IsDirEntry(m, q[..|root| + 1]) {
      DirEntryShrunk(m0, m, q[..|root| + 1]);
    }
  }

  /** The tree the channel-folder pass starts from when the first two
      loops complete: the queued entries and the candidates' subtrees are
      gone. */
  ghost function Swept(m: map<Path, Node>, cfg: Config, top: string): (r: map<Path, Node>)
    ensures Shrunk(m, r)
  {
    map q | q in m && !Queued(m, cfg, top, q) && !UnderCandidate(m, cfg, top, q) :: m[q]
  }

  lemma SweptIs(m0: map<Path, Node>, m1: map<Path, Node>, cfg: Config, top: string,
                broken: seq<Path>, empty: seq<Path>)
    requires m1 == m0 - Elems(broken)
    requires forall q :: q in broken <==> Queued(m0, cfg, top, q)
    requires forall d :: d in empty <==> Candidate(m0, cfg, top, d)
    ensures WithoutTrees(m1, empty) == Swept(m0, cfg, top)
  {
    var a := WithoutTrees(m1, empty);
    var b := Swept(m0, cfg, top);
    forall q | q in a
      ensures q in b
    {
      assert forall d :: IsPrefix(d, q) ==> d !in empty;
    }
    forall q | q in b
      ensures q in a
    {
      KeptByEmpty(m0, m1, cfg, top, broken, empty, q);
    }
    assert a.Keys == b.Keys;
  }

  /** An entry neither queued nor in a candidate survives the first two
      loops. */
  lemma KeptByEmpty(m0: map<Path, Node>, m1: map<Path, Node>, cfg: Config, top: string,
                    broken: seq<Path>, empty: seq<Path>, q: Path)
    requires m1 == m0 - Elems(broken)
    requires forall q :: q in broken <==> Queued(m0, cfg, top, q)
    requires forall d :: d in empty <==> Candidate(m0, cfg, top, d)
    requires q in m0 && !Queued(m0, cfg, top, q) && !UnderCandidate(m0, cfg, top, q)
    ensures q in WithoutTrees(m1, empty)
  {
    assert q !in Elems(broken);
    forall i | 0 <= i < |empty|
      ensures !IsPrefix(empty[i], q)
    {
      assert Candidate(m0, cfg, top, empty[i]);
    }
  }
}
