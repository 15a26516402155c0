/** The read-only half of `cleanup_after_deleted_videos`
    (ta-helper.py:260-300): a walk of the target folder that classifies every
    entry and collects the hanging extra files and broken symlinks, and the
    folders that hold neither a subfolder nor a working symlink.

    `os.walk` visits the target folder and every directory below it; in the
    tree model nothing can sit below a symlink, so those are exactly the
    directories of the map under the target. The order in which directories
    and entries come is the filesystem's, and the model leaves it open: each
    loop picks any entry not yet seen. */
module Orphans {
  import opened Text
  import opened Catalog
  import opened Paths
  import opened Disk

  predicate NoDups<T(==)>(s: seq<T>) {
    forall i, j :: 0 <= i < j < |s| ==> s[i] != s[j]
  }

  lemma NoDupsAppend<T>(a: seq<T>, b: seq<T>)
    requires NoDups(a) && NoDups(b)
    requires forall x :: x in a ==> x !in b
    ensures NoDups(a + b)
  {
    forall i, j | 0 <= i < j < |a + b|
      ensures (a + b)[i] != (a + b)[j]
    {
      if i < |a| && |a| <= j {
        assert (a + b)[i] in a && (a + b)[j] == b[j - |a|];
      }
    }
  }

  // ---------------------------------------------------------------------
  // The strings the walk builds.

  /** `os.path.join(top, *rel)`: how `os.walk` names the directory (or,
      with the file name last, the file) `rel` below `top`. */
  function WalkRoot(top: string, rel: seq<string>): string
    decreases |rel|
  {
    if rel == [] then top else Join(WalkRoot(top, rel[..|rel| - 1]), rel[|rel| - 1])
  }

  /** Joining a name onto a path string adds one component. */
  lemma JoinSplit(a: string, n: string)
    requires GoodName(n)
    ensures SplitPath(Join(a, n)) == SplitPath(a) + [n]
  {
    SplitName(n);
    assert SplitPath("") == [];
    if a == "" {
      assert Join(a, n) == n;
    } else if EndsWith(a, "/") {
      var init := a[..|a| - 1];
      assert a == init + "/" + "";
      SplitSlash(init, "");
      assert a + n == init + "/" + n;
      SplitSlash(init, n);
    } else {
      SplitSlash(a, n);
    }
  }

  /** The string the walk builds for a directory resolves to that directory. */
  lemma {:induction false} WalkRootSplit(top: string, rel: seq<string>)
    requires forall i :: 0 <= i < |rel| ==> GoodName(rel[i])
    ensures SplitPath(WalkRoot(top, rel)) == SplitPath(top) + rel
    decreases |rel|
  {
    if rel != [] {
      var init := rel[..|rel| - 1];
      WalkRootSplit(top, init);
      JoinSplit(WalkRoot(top, init), rel[|rel| - 1]);
      assert init + [rel[|rel| - 1]] == rel;
    }
  }

  /** The path string of the entry `q` below the target folder `top`. */
  function WalkPath(top: string, q: Path): string
    requires IsPrefix(SplitPath(top), q)
  {
    WalkRoot(top, q[|SplitPath(top)|..])
  }

  /** Every component of an entry of a tree is a good name. */
  lemma EntryNames(m: map<Path, Node>, q: Path)
    requires ValidTree(m) && q in m
    ensures forall i :: 0 <= i < |q| ==> GoodName(q[i])
  {
    forall i | 0 <= i < |q|
      ensures GoodName(q[i])
    {
      if i + 1 < |q| {
        AncestorIsDir(m, q, i + 1);
        var a := q[..i + 1];
        assert Parent(a) == q[..i] && a[|a| - 1] == q[i];
      } else {
        assert Parent(q) == q[..i];
      }
    }
  }

  /** The path strings the walk builds name the entries they come from, so
      removing by string removes that entry. */
  lemma WalkPathSplit(m: map<Path, Node>, top: string, q: Path)
    requires ValidTree(m) && q in m && IsPrefix(SplitPath(top), q)
    ensures SplitPath(WalkPath(top, q)) == q
  {
    EntryNames(m, q);
    var rel := q[|SplitPath(top)|..];
    WalkRootSplit(top, rel);
    assert SplitPath(top) + rel == q;
  }

  // ---------------------------------------------------------------------
  // `extras_pattern`.

  function SuffixLen(s: string, suffix: string): int {
    if EndsWithFold(s, suffix) then |suffix| else -1
  }

  function Max(a: int, b: int): int {
    if a < b then b else a
  }

  /** The length of the suffix of `s` that `extras_pattern` matches, -1
      when it matches none: ".nfo", "-poster.jpg" or the subtitle suffix,
      case-insensitively. Every alternative is anchored at the end, so the
      leftmost match a search finds is the longest suffix that matches. An
      empty SUB_FORMAT contributes no alternative (see `ExtraMatchAsWritten`
      for what the pattern does with it). */
  function ExtraMatch(s: string, subFormat: string): (r: int)
    ensures -1 <= r <= |s|
    ensures r >= 0 <==> EndsWithFold(s, ".nfo") || EndsWithFold(s, "-poster.jpg") || (subFormat != "" && EndsWithFold(s, subFormat))
    ensures EndsWithFold(s, ".nfo") ==> r >= 4
    ensures EndsWithFold(s, "-poster.jpg") ==> r >= 11
    ensures subFormat != "" && EndsWithFold(s, subFormat) ==> r >= |subFormat|
    ensures r >= 0 ==> (r == 4 && EndsWithFold(s, ".nfo")) || (r == 11 && EndsWithFold(s, "-poster.jpg")) ||
                       (r == |subFormat| > 0 && EndsWithFold(s, subFormat))
  {
    Max(SuffixLen(s, ".nfo"), Max(SuffixLen(s, "-poster.jpg"), if subFormat == "" then -1 else SuffixLen(s, subFormat)))
  }

  /** `extras_pattern.sub(".mp4", path)`: the matched suffix becomes ".mp4". */
  function ExtrasSub(path: string, subFormat: string): (r: string)
    ensures ExtraMatch(path, subFormat) < 0 ==> r == path
    ensures ExtraMatch(path, subFormat) >= 0 ==> EndsWith(r, ".mp4") && |r| == |path| - ExtraMatch(path, subFormat) + 4
  {
    var l := ExtraMatch(path, subFormat);
    if l < 0 then path else path[..|path| - l] + ".mp4"
  }

  /** The file an extra named `b + suffix` belongs to is `b + ".mp4"`, when
      `suffix` is the longest match. */
  lemma ExtrasSubStem(b: string, suffix: string, subFormat: string)
    requires ExtraMatch(b + suffix, subFormat) == |suffix|
    ensures ExtrasSub(b + suffix, subFormat) == b + ".mp4"
  {
    assert (b + suffix)[..|b|] == b;
  }

  /** `extras_pattern` as ta-helper.py:264 builds it. With an empty
      SUB_FORMAT the third alternative is empty, and an empty alternative
      anchored at the end matches every string. */
  function ExtraMatchAsWritten(s: string, subFormat: string): (r: int)
    ensures subFormat != "" ==> r == ExtraMatch(s, subFormat)
    ensures subFormat == "" ==> r == Max(ExtraMatch(s, subFormat), 0)
  {
    Max(SuffixLen(s, ".nfo"), Max(SuffixLen(s, "-poster.jpg"), SuffixLen(s, subFormat)))
  }

  /** `extras_pattern.sub(".mp4", path)` as written. With the empty
      alternative, the end of the string also matches right after a
      non-empty match, and `re.sub` replaces that empty match too. */
  function ExtrasSubAsWritten(path: string, subFormat: string): (r: string)
    ensures subFormat != "" ==> r == ExtrasSub(path, subFormat)
    ensures subFormat == "" && ExtraMatch(path, subFormat) < 0 ==> r == path + ".mp4"
    ensures subFormat == "" && ExtraMatch(path, subFormat) >= 0 ==> r == ExtrasSub(path, subFormat) + ".mp4"
  {
    var l := ExtraMatchAsWritten(path, subFormat);
    if l < 0 then path
    else path[..|path| - l] + ".mp4" + (if subFormat == "" && l > 0 then ".mp4" else "")
  }

  // ---------------------------------------------------------------------
  // Classification.

  /** `entry.is_dir()` / membership in `dirs`: a directory after following
      links. */
  predicate IsDirEntry(m: map<Path, Node>, q: Path) {
    var f := Follow(m, q, MaxHops);
    f.Some? && f.value in m && m[f.value].Dir?
  }

  /** The entries directly inside `d`. */
  function Children(m: map<Path, Node>, d: Path): set<Path> {
    set q | q in m && |q| == |d| + 1 && q[..|d|] == d
  }

  /** The directories `os.walk` visits below (and at) `root`. */
  function Walked(m: map<Path, Node>, root: Path): set<Path> {
    set d | d in m && m[d].Dir? && IsPrefix(root, d)
  }

  predicate IsShowSidecar(name: string) {
    name == "tvshow.nfo" || name == "season.nfo"
  }

  predicate IsExtraName(cfg: Config, name: string) {
    ExtraMatch(name, cfg.subFormat) >= 0
  }

  /** The video the extra file at `path` belongs to. */
  function ExpectedVideo(cfg: Config, path: string): Path {
    SplitPath(ExtrasSub(path, cfg.subFormat))
  }

  /** A directory whose walk string starts with "./.git" is passed over. */
  predicate IsSkipped(top: string, d: Path) {
    IsPrefix(SplitPath(top), d) && StartsWith(WalkPath(top, d), "./.git")
  }

  /** A file (not a directory entry) the walk queues: an extra file, other
      than the show and season NFOs, whose video does not exist, or any
      other symlink whose target does not exist. A relative target is
      resolved against the link's own folder. */
  predicate IsHanging(m: map<Path, Node>, cfg: Config, top: string, q: Path): (b: bool)
    ensures q != [] && IsShowSidecar(q[|q| - 1]) ==> !b
    ensures q in m && q != [] && !m[q].Link? && !IsExtraName(cfg, q[|q| - 1]) ==> !b
  {
    q in m && q != [] && IsPrefix(SplitPath(top), q) &&
    var name := q[|q| - 1];
    SidecarIsExtra(cfg, name);
    if IsExtraName(cfg, name) then !IsShowSidecar(name) && !Exists(m, ExpectedVideo(cfg, WalkPath(top, q)))
    else m[q].Link? && !Exists(m, ResolveLink(q, m[q].target))
  }

  /** `IsHanging` with the pattern as written. */
  predicate IsHangingAsWritten(m: map<Path, Node>, cfg: Config, top: string, q: Path) {
    q in m && q != [] && IsPrefix(SplitPath(top), q) &&
    var name := q[|q| - 1];
    if ExtraMatchAsWritten(name, cfg.subFormat) >= 0 then
      !IsShowSidecar(name) && !Exists(m, SplitPath(ExtrasSubAsWritten(WalkPath(top, q), cfg.subFormat)))
    else m[q].Link? && !Exists(m, ResolveLink(q, m[q].target))
  }

  /** A symlink that is not an extra file and whose target exists. Such a
      link never hangs; any other link that is not an extra file hangs
      wherever the walk starts above it. */
  predicate IsWorkingLink(m: map<Path, Node>, cfg: Config, q: Path): (b: bool)
    ensures b ==> forall top :: !IsHanging(m, cfg, top, q)
    ensures !b && q in m && q != [] && m[q].Link? && !IsExtraName(cfg, q[|q| - 1]) ==>
      forall top :: IsPrefix(SplitPath(top), q) ==> IsHanging(m, cfg, top, q)
  {
    q in m && q != [] && !IsExtraName(cfg, q[|q| - 1]) && m[q].Link? && Exists(m, ResolveLink(q, m[q].target))
  }

  /** `q` ends up in `broken`: an entry strictly inside the target folder,
      never a working link and never `tvshow.nfo` or `season.nfo`. */
  predicate Queued(m: map<Path, Node>, cfg: Config, top: string, q: Path): (b: bool)
    ensures b ==> |q| > |SplitPath(top)| && IsPrefix(SplitPath(top), q)
    ensures b ==> !IsWorkingLink(m, cfg, q)
    ensures q != [] && IsShowSidecar(q[|q| - 1]) ==> !b
  {
    q != [] && Parent(q) in Walked(m, SplitPath(top)) && !IsSkipped(top, Parent(q)) &&
    q in m && !IsDirEntry(m, q) && IsHanging(m, cfg, top, q)
  }

  predicate HasSubdir(m: map<Path, Node>, d: Path) {
    exists q :: q in Children(m, d) && IsDirEntry(m, q)
  }

  predicate HasWorkingLink(m: map<Path, Node>, cfg: Config, d: Path) {
    exists q :: q in Children(m, d) && !IsDirEntry(m, q) && IsWorkingLink(m, cfg, q)
  }

  /** `d` ends up in `empty_subfolders`: a walked folder every entry of
      which is neither a directory nor a working link. */
  predicate Candidate(m: map<Path, Node>, cfg: Config, top: string, d: Path): (b: bool)
    ensures b ==> IsPrefix(SplitPath(top), d) && d in m && m[d].Dir?
    ensures b ==> forall q :: q in Children(m, d) ==> !IsDirEntry(m, q) && !IsWorkingLink(m, cfg, q)
  {
    d in Walked(m, SplitPath(top)) && !IsSkipped(top, d) && !HasSubdir(m, d) && !HasWorkingLink(m, cfg, d)
  }

  // ---------------------------------------------------------------------
  // The walk.

  /** What the scan of `d` has gathered after seeing the entries `seen`. */
  ghost predicate Scanned(m: map<Path, Node>, cfg: Config, top: string, seen: set<Path>,
                    found: seq<Path>, hasSubdir: bool, hasWorking: bool)
  {
    NoDups(found) &&
    (forall q :: q in found <==> q in seen && !IsDirEntry(m, q) && IsHanging(m, cfg, top, q)) &&
    (hasSubdir <==> exists q :: q in seen && IsDirEntry(m, q)) &&
    (hasWorking <==> exists q :: q in seen && !IsDirEntry(m, q) && IsWorkingLink(m, cfg, q))
  }

  lemma ScanDirStep(m: map<Path, Node>, cfg: Config, top: string, seen: set<Path>, q: Path,
                    found: seq<Path>, hasSubdir: bool, hasWorking: bool)
    requires Scanned(m, cfg, top, seen, found, hasSubdir, hasWorking) && q !in seen
    ensures var hanging := !IsDirEntry(m, q) && IsHanging(m, cfg, top, q);
      Scanned(m, cfg, top, seen + {q}, if hanging then found + [q] else found,
              hasSubdir || IsDirEntry(m, q), hasWorking || (!IsDirEntry(m, q) && IsWorkingLink(m, cfg, q)))
  {
    if !IsDirEntry(m, q) && IsHanging(m, cfg, top, q) {
      NoDupsAppend(found, [q]);
    }
  }

  /** The loop over `files` of one directory of the walk. */
  method ScanDir(fs: FileSystem, cfg: Config, top: string, d: Path)
    returns (found: seq<Path>, hasSubdir: bool, hasWorking: bool)
    requires fs.Valid() && IsPrefix(SplitPath(top), d)
    ensures NoDups(found)
    ensures forall q :: q in found <==> q in Children(fs.entries, d) && !IsDirEntry(fs.entries, q) && IsHanging(fs.entries, cfg, top, q)
    ensures hasSubdir <==> HasSubdir(fs.entries, d)
    ensures hasWorking <==> HasWorkingLink(fs.entries, cfg, d)
  {
    var m := fs.entries;
    var rest := Children(m, d);
    found, hasSubdir, hasWorking := [], false, false;
    while rest != {}
      invariant rest <= Children(m, d)
      invariant Scanned(m, cfg, top, Children(m, d) - rest, found, hasSubdir, hasWorking)
      decreases |rest|
    {
      var q :| q in rest;
      ScanDirStep(m, cfg, top, Children(m, d) - rest, q, found, hasSubdir, hasWorking);
      assert q[..|d|] == d && IsPrefix(SplitPath(top), q);
      var sub, hanging, working := ScanEntry(fs, cfg, top, q);
      if hanging {
        found := found + [q];
      }
      hasSubdir, hasWorking := hasSubdir || sub, hasWorking || working;
      assert Children(m, d) - (rest - {q}) == (Children(m, d) - rest) + {q};
      rest := rest - {q};
    }
  }

  /** The body of the loop over one directory's entries, in the source's
      branch order: a folder only counts as a subfolder; an extra file is
      hanging when it is not a show or season NFO and its video is
      missing; any other link is working or broken; a plain file is
      passed over. */
  method ScanEntry(fs: FileSystem, cfg: Config, top: string, q: Path) returns (sub: bool, hanging: bool, working: bool)
    requires fs.Valid() && q in fs.entries && q != [] && IsPrefix(SplitPath(top), q)
    ensures sub <==> IsDirEntry(fs.entries, q)
    ensures hanging <==> !IsDirEntry(fs.entries, q) && IsHanging(fs.entries, cfg, top, q)
    ensures working <==> !IsDirEntry(fs.entries, q) && IsWorkingLink(fs.entries, cfg, q)
    ensures !(hanging && working)
  {
    var m := fs.entries;
    var name := q[|q| - 1];
    sub, hanging, working := false, false, false;
    if IsDirEntry(m, q) {
      sub := true;
    } else if ExtraMatch(name, cfg.subFormat) >= 0 {
      hanging := !IsShowSidecar(name) && !Exists(m, ExpectedVideo(cfg, WalkPath(top, q)));
    } else if m[q].Link? {
      working := Exists(m, ResolveLink(q, m[q].target));
      hanging := !working;
    }
  }

  /** The walk of `cleanup_after_deleted_videos`: `broken` holds exactly the
      queued files and `empty` exactly the empty-folder candidates, each
      once. Nothing is changed. */
  method FindOrphans(fs: FileSystem, cfg: Config, top: string) returns (broken: seq<Path>, empty: seq<Path>)
    requires fs.Valid()
    ensures NoDups(broken) && forall q :: q in broken <==> Queued(fs.entries, cfg, top, q)
    ensures NoDups(empty) && forall d :: d in empty <==> Candidate(fs.entries, cfg, top, d)
  {
    var m := fs.entries;
    var root := SplitPath(top);
    var rest := Walked(m, root);
    broken, empty := [], [];
    while rest != {}
      invariant rest <= Walked(m, root)
      invariant NoDups(broken) && forall q :: q in broken <==> Queued(m, cfg, top, q) && Parent(q) !in rest
      invariant NoDups(empty) && forall d :: d in empty <==> Candidate(m, cfg, top, d) && d !in rest
      decreases |rest|
    {
      var d :| d in rest;
      if !StartsWith(WalkPath(top, d), "./.git") {
        var found, hasSubdir, hasWorking := ScanDir(fs, cfg, top, d);
        ScanStep(m, cfg, top, rest, d, broken, found);
        broken := broken + found;
        if !hasSubdir && !hasWorking {
          NoDupsAppend(empty, [d]);
          empty := empty + [d];
        }
      }
      rest := rest - {d};
    }
  }

  /** Adding the files of the directory `d` keeps `broken` what the walk so
      far has queued. */
  lemma ScanStep(m: map<Path, Node>, cfg: Config, top: string, rest: set<Path>, d: Path,
                 broken: seq<Path>, found: seq<Path>)
    requires d in rest && rest <= Walked(m, SplitPath(top)) && !IsSkipped(top, d)
    requires NoDups(broken) && forall q :: q in broken <==> Queued(m, cfg, top, q) && Parent(q) !in rest
    requires NoDups(found) && forall q :: q in found <==> q in Children(m, d) && !IsDirEntry(m, q) && IsHanging(m, cfg, top, q)
    ensures NoDups(broken + found)
    ensures forall q :: q in broken + found <==> Queued(m, cfg, top, q) && Parent(q) !in rest - {d}
  {
    forall q | q in broken
      ensures q !in found
    {
      assert Parent(q) != d;
    }
    NoDupsAppend(broken, found);
    forall q | Queued(m, cfg, top, q) && Parent(q) == d
      ensures q in Children(m, d)
    {
    }
  }

  // ---------------------------------------------------------------------
  // What the classification promises.

  /** The show and season NFOs match the extras pattern through ".nfo". */
  lemma SidecarIsExtra(cfg: Config, name: string)
    ensures IsShowSidecar(name) ==> IsExtraName(cfg, name)
  {
    if IsShowSidecar(name) {
      assert EndsWithFold(name, ".nfo") by {
        assert name[|name| - 4..] == ".nfo";
      }
    }
  }

  /** An extra file `b + suffix` (an NFO, a poster or a subtitle) in a
      walked folder `d` is queued exactly when `b + ".mp4"` in the same
      folder does not exist. */
  lemma ExtraQueuedIff(m: map<Path, Node>, cfg: Config, top: string, d: Path, b: string, suffix: string)
    requires ValidTree(m) && d in Walked(m, SplitPath(top)) && !IsSkipped(top, d)
    requires d + [b + suffix] in m && !IsDirEntry(m, d + [b + suffix])
    requires ExtraMatch(b + suffix, cfg.subFormat) == |suffix| && !IsShowSidecar(b + suffix)
    requires GoodName(b + ".mp4") && '/' !in cfg.subFormat
    ensures Queued(m, cfg, top, d + [b + suffix]) <==> !Exists(m, d + [b + ".mp4"])
  {
    var q := d + [b + suffix];
    assert Parent(q) == d;
    ExpectedOfExtra(m, cfg, top, d, b, suffix);
  }

  /** The walk looks for the video of the extra `b + suffix` in folder `d`
      at `b + ".mp4"` in the same folder. */
  lemma ExpectedOfExtra(m: map<Path, Node>, cfg: Config, top: string, d: Path, b: string, suffix: string)
    requires ValidTree(m) && d in m && IsPrefix(SplitPath(top), d)
    requires ExtraMatch(b + suffix, cfg.subFormat) == |suffix|
    requires GoodName(b + ".mp4") && '/' !in cfg.subFormat
    ensures IsPrefix(SplitPath(top), d + [b + suffix])
    ensures ExpectedVideo(cfg, WalkPath(top, d + [b + suffix])) == d + [b + ".mp4"]
  {
    var dir := WalkPath(top, d);
    WalkPathChild(top, d, b + suffix);
    var path := Join(dir, b + suffix);
    JoinEnds(dir, b, suffix);
    SameExtraMatch(path, b + suffix, cfg.subFormat);
    ExtrasSubStem(Join(dir, b), suffix, cfg.subFormat);
    JoinEnds(dir, b, ".mp4");
    JoinSplit(dir, b + ".mp4");
    WalkPathSplit(m, top, d);
  }

  /** The walk string of a child is the parent's joined with its name. */
  lemma WalkPathChild(top: string, d: Path, n: string)
    requires IsPrefix(SplitPath(top), d)
    ensures IsPrefix(SplitPath(top), d + [n])
    ensures WalkPath(top, d + [n]) == Join(WalkPath(top, d), n)
  {
    var k := |SplitPath(top)|;
    assert (d + [n])[..k] == d[..k];
    var rel := (d + [n])[k..];
    assert rel[..|rel| - 1] == d[k..];
  }

  /** Folding never turns another character into '/'. */
  lemma FoldSuffix(path: string, name: string, t: string)
    requires '/' !in t
    requires path == name || (|name| < |path| && path[|path| - |name|..] == name && path[|path| - |name| - 1] == '/')
    ensures EndsWithFold(path, t) <==> EndsWithFold(name, t)
  {
    if |t| <= |name| {
      assert path[|path| - |t|..] == name[|name| - |t|..];
    } else if path != name && |t| <= |path| {
      var i := |t| - |name| - 1;
      assert path[|path| - |t|..][i] == '/';
      assert LowerStr(path[|path| - |t|..])[i] == '/';
      assert LowerStr(t)[i] == Lower(t[i]) != '/';
    }
  }

  /** A path string and the name it ends in match the same suffix, unless
      SUB_FORMAT holds a '/'. */
  lemma SameExtraMatch(path: string, name: string, subFormat: string)
    requires '/' !in subFormat
    requires path == name || (|name| < |path| && path[|path| - |name|..] == name && path[|path| - |name| - 1] == '/')
    ensures ExtraMatch(path, subFormat) == ExtraMatch(name, subFormat)
  {
    FoldSuffix(path, name, ".nfo");
    FoldSuffix(path, name, "-poster.jpg");
    FoldSuffix(path, name, subFormat);
  }

  /** `os.path.join(dir, b + suffix)` ends in the name after a '/'. */
  lemma JoinEnds(dir: string, b: string, suffix: string)
    ensures Join(dir, b) + suffix == Join(dir, b + suffix)
    ensures var path := Join(dir, b + suffix); var name := b + suffix;
      path == name || (|name| < |path| && path[|path| - |name|..] == name && path[|path| - |name| - 1] == '/')
  {
    var name := b + suffix;
    if dir == "" {
    } else if EndsWith(dir, "/") {
      var path := dir + name;
      assert dir[|dir| - 1..] == "/";
      assert path[|dir| - 1] == dir[|dir| - 1] == '/';
      assert path[|dir|..] == name;
      assert (dir + b) + suffix == dir + name;
    } else {
      var path := dir + "/" + name;
      assert path[|dir|] == '/';
      assert path[|dir| + 1..] == name;
      assert (dir + "/" + b) + suffix == path;
    }
  }
}
