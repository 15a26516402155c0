/** The steps that put one channel, playlist or video into the mirror:
    thumbnail links, `.nfo` sidecars, subtitle links and the video link
    itself (ta-helper.py:84-223, 339-356). A Python exception that escapes a
    step is returned as `Some(error)`, and the step stops where Python
    would. */
module Materialise {
  import opened Text
  import opened Catalog
  import opened Naming
  import opened Nfo
  import opened Paths
  import opened Disk

  /** `TARGET_FOLDER/chan_name`. */
  function ChannelDir(cfg: Config, chanName: string): string {
    cfg.targetFolder + "/" + chanName
  }

  /** `TARGET_FOLDER/chan_name/playlist_name`. */
  function PlaylistDir(cfg: Config, chanName: string, playlistName: string): string {
    cfg.targetFolder + "/" + chanName + "/" + playlistName
  }

  /** The exception `os.symlink` raises for an outcome. */
  function SymlinkError(r: Made): (e: Option<OsError>)
    ensures e == None <==> r == Created
    ensures r == AlreadyPresent ==> e == Some(FileExists)
  {
    match r
    case Created => None
    case AlreadyPresent => Some(FileExists)
    case Failed(x) => Some(x)
  }

  /** The exception that escapes `os.remove` (with `FileNotFoundError`
      ignored) followed by `os.symlink`. */
  function RelinkOutcome(m: map<Path, Node>, p: Path): Option<OsError> {
    match RemoveOutcome(m, p)
    case Some(FileNotFound) => SymlinkError(SymlinkOutcome(m, p))
    case Some(e) => Some(e)
    case None => SymlinkError(SymlinkOutcome(m - {p}, p))
  }

  /** The tree after a successful remove-and-symlink: `p` is a link to
      `target`, whatever was there before. */
  function Relinked(m: map<Path, Node>, p: Path, target: string): (r: map<Path, Node>)
    ensures p in r && r[p] == Link(target)
    ensures forall q :: q != p ==> (q in r <==> q in m)
    ensures forall q :: q != p && q in m ==> r[q] == m[q]
  {
    m[p := Link(target)]
  }

  /** A link that was just removed can always be created again: its
      directory is still there. */
  lemma RelinkAfterRemove(m: map<Path, Node>, p: Path)
    requires ValidTree(m) && RemoveOutcome(m, p) == None
    ensures SymlinkOutcome(m - {p}, p) == Created
  {
    assert p != [];
    assert IsDirAt(m, Parent(p));
    assert Parent(p) != p;
  }

  /** A relink over a link that is already there always succeeds and
      leaves the same tree, so re-running the thumbnail setup of a folder
      is harmless. */
  lemma RelinkIdempotent(m: map<Path, Node>, p: Path, target: string)
    requires ValidTree(Relinked(m, p, target))
    ensures RelinkOutcome(Relinked(m, p, target), p) == None
    ensures Relinked(Relinked(m, p, target), p, target) == Relinked(m, p, target)
  {
    RelinkAfterRemove(Relinked(m, p, target), p);
  }

  // ---------------------------------------------------------------------
  // Effects: what a step leaves behind, as a function of the tree before.

  /** The tree after a step, and the exception that escaped it, if any. */
  datatype Effect = Effect(tree: map<Path, Node>, error: Option<OsError>)

  /** `m` and `r` hold the same entry at `q`, or both hold none. */
  predicate Agree(m: map<Path, Node>, r: map<Path, Node>, q: Path) {
    (q in m <==> q in r) && (q in m ==> m[q] == r[q])
  }

  /** Remove-and-symlink at `p`: the link on success, the old tree on
      failure, and no other path touched. It never raises
      `FileExistsError` below the root. */
  function RelinkEffect(m: map<Path, Node>, p: Path, target: string): (r: Effect)
    ensures r.error == None ==> p in r.tree && r.tree[p] == Link(target)
    ensures r.error != None ==> r.tree == m
    ensures forall q :: q != p ==> Agree(m, r.tree, q)
    ensures forall q :: q in m ==> q in r.tree
    ensures p != [] ==> r.error != Some(FileExists)
  {
    var e := RelinkOutcome(m, p);
    Effect(if e == None then Relinked(m, p, target) else m, e)
  }

  /** Writing a file at `p`: the file on success, the old tree on failure,
      and no other path touched. */
  function WriteEffect(m: map<Path, Node>, p: Path, content: string): (r: Effect)
    ensures r.error == None ==> p in r.tree && r.tree[p] == File(content)
    ensures r.error != None ==> r.tree == m
    ensures r.error != Some(FileExists)
    ensures forall q :: q != p ==> Agree(m, r.tree, q)
    ensures forall q :: q in m ==> q in r.tree
  {
    var e := WriteOutcome(m, p);
    Effect(if e == None then m[p := File(content)] else m, e)
  }

  /** A name joined to a folder lies inside that folder. */
  lemma BelowDir(dir: string, name: string)
    ensures IsPrefix(SplitPath(dir), SplitPath(dir + "/" + name))
  {
    SplitSlash(dir, name);
    var d := SplitPath(dir);
    assert (d + SplitPath(name))[..|d|] == d;
  }

  /** The entry `dir + "/" + name`: always inside `dir`. */
  function InDir(dir: string, name: string): (r: Path)
    ensures IsPrefix(SplitPath(dir), r)
  {
    BelowDir(dir, name);
    SplitPath(dir + "/" + name)
  }

  /** `os.remove(at)` ignoring `FileNotFoundError`, then `os.symlink(target,
      at)`, as every `setup_*_thumb` does for each of its links. */
  method Relink(fs: FileSystem, target: string, at: string) returns (e: Option<OsError>)
    requires fs.Valid()
    modifies fs
    ensures fs.Valid() && fs.notified == old(fs.notified)
    ensures e == RelinkOutcome(old(fs.entries), SplitPath(at))
    ensures fs.entries == if e == None then Relinked(old(fs.entries), SplitPath(at), target) else old(fs.entries)
    ensures Effect(fs.entries, e) == RelinkEffect(old(fs.entries), SplitPath(at), target)
  {
    var p := SplitPath(at);
    ghost var m := fs.entries;
    var r := fs.Remove(at);
    if r.Some? && r.value != FileNotFound {
      return r;
    }
    if r == None {
      RelinkAfterRemove(m, p);
    }
    var made := fs.Symlink(target, at);
    e := SymlinkError(made);
    assert e == None ==> fs.entries == Relinked(m, p, target);
  }

  // ---------------------------------------------------------------------
  // Channel and playlist folders.

  /** The four images `setup_channel_thumb` links, in order. */
  const ArtNames: seq<string> := ["poster.jpg", "cover.jpg", "folder.jpg", "banner.jpg"]

  /** The banner image points at the channel banner, every other image at
      the channel thumbnail. */
  function ArtTarget(name: string, thumb: string, banner: string): string {
    if name == "banner.jpg" then banner else thumb
  }

  /** The tree after relinking `dir/name` to its image for each name, in
      order. */
  function RelinkAll(m: map<Path, Node>, dir: string, names: seq<string>, thumb: string, banner: string): map<Path, Node>
    decreases |names|
  {
    if names == [] then m
    else
      var last := names[|names| - 1];
      Relinked(RelinkAll(m, dir, names[..|names| - 1], thumb, banner), SplitPath(dir + "/" + last),
               ArtTarget(last, thumb, banner))
  }

  /** The exception, if any, that relinking the names in order raises. */
  function RelinkAllOutcome(m: map<Path, Node>, dir: string, names: seq<string>, thumb: string, banner: string): Option<OsError>
    decreases |names|
  {
    if names == [] then None
    else
      match RelinkAllOutcome(m, dir, names[..|names| - 1], thumb, banner)
      case Some(e) => Some(e)
      case None =>
        RelinkOutcome(RelinkAll(m, dir, names[..|names| - 1], thumb, banner), SplitPath(dir + "/" + names[|names| - 1]))
  }

  /** A path no name leads to keeps its entry. */
  lemma {:induction false} RelinkAllElsewhere(m: map<Path, Node>, dir: string, names: seq<string>, thumb: string, banner: string, q: Path)
    requires forall j :: 0 <= j < |names| ==> q != SplitPath(dir + "/" + names[j])
    ensures var r := RelinkAll(m, dir, names, thumb, banner);
      (q in r <==> q in m) && (q in m ==> r[q] == m[q])
    decreases |names|
  {
    if names != [] {
      RelinkAllElsewhere(m, dir, names[..|names| - 1], thumb, banner, q);
    }
  }

  /** The path of the `k`-th name ends up linked to its image, provided no
      later name leads to the same path. */
  lemma {:induction false} RelinkAllAt(m: map<Path, Node>, dir: string, names: seq<string>, thumb: string, banner: string, k: nat)
    requires k < |names|
    requires forall j :: k < j < |names| ==> SplitPath(dir + "/" + names[j]) != SplitPath(dir + "/" + names[k])
    ensures var r := RelinkAll(m, dir, names, thumb, banner);
      var p := SplitPath(dir + "/" + names[k]);
      p in r && r[p] == Link(ArtTarget(names[k], thumb, banner))
    decreases |names|
  {
    if k < |names| - 1 {
      var init := names[..|names| - 1];
      assert init[k] == names[k];
      RelinkAllAt(m, dir, init, thumb, banner, k);
    }
  }

  /** The four image names lead to four different paths in the folder. */
  lemma ArtNamePaths(dir: string)
    ensures forall j :: 0 <= j < |ArtNames| ==> SplitPath(dir + "/" + ArtNames[j]) == SplitPath(dir) + [ArtNames[j]]
    ensures forall j, k :: 0 <= j < k < |ArtNames| ==> SplitPath(dir + "/" + ArtNames[j]) != SplitPath(dir + "/" + ArtNames[k])
  {
    var d := SplitPath(dir);
    forall j | 0 <= j < |ArtNames|
      ensures SplitPath(dir + "/" + ArtNames[j]) == d + [ArtNames[j]]
    {
      ArtPath(dir, ArtNames[j]);
    }
    forall j, k | 0 <= j < k < |ArtNames|
      ensures SplitPath(dir + "/" + ArtNames[j]) != SplitPath(dir + "/" + ArtNames[k])
    {
      assert (d + [ArtNames[j]])[|d|] != (d + [ArtNames[k]])[|d|];
    }
  }

  /** The image links of a channel folder after `setup_channel_thumb`:
      poster, cover and folder images point at the channel thumbnail, the
      banner image at the banner. */
  lemma ChannelArtLinks(m: map<Path, Node>, dir: string, thumb: string, banner: string)
    ensures var r := RelinkAll(m, dir, ArtNames, thumb, banner);
      var d := SplitPath(dir);
      d + ["poster.jpg"] in r && r[d + ["poster.jpg"]] == Link(thumb) &&
      d + ["cover.jpg"] in r && r[d + ["cover.jpg"]] == Link(thumb) &&
      d + ["folder.jpg"] in r && r[d + ["folder.jpg"]] == Link(thumb) &&
      d + ["banner.jpg"] in r && r[d + ["banner.jpg"]] == Link(banner)
  {
    ArtNamePaths(dir);
    RelinkAllAt(m, dir, ArtNames, thumb, banner, 0);
    RelinkAllAt(m, dir, ArtNames, thumb, banner, 1);
    RelinkAllAt(m, dir, ArtNames, thumb, banner, 2);
    RelinkAllAt(m, dir, ArtNames, thumb, banner, 3);
  }

  /** `setup_channel_thumb` touches no path but its four image links. */
  lemma ChannelArtElsewhere(m: map<Path, Node>, dir: string, thumb: string, banner: string, q: Path)
    requires q !in ArtPaths(SplitPath(dir))
    ensures var r := RelinkAll(m, dir, ArtNames, thumb, banner);
      (q in r <==> q in m) && (q in m ==> r[q] == m[q])
  {
    ArtNamePaths(dir);
    RelinkAllElsewhere(m, dir, ArtNames, thumb, banner, q);
  }

  function ArtPaths(d: Path): set<Path> {
    {d + ["poster.jpg"], d + ["cover.jpg"], d + ["folder.jpg"], d + ["banner.jpg"]}
  }

  lemma ArtPath(dir: string, name: string)
    requires GoodName(name)
    ensures SplitPath(dir + "/" + name) == SplitPath(dir) + [name]
  {
    SplitSlash(dir, name);
    SplitName(name);
  }

  /** `setup_channel_thumb`: with a cache folder configured, the four image
      links of the channel folder are replaced by links into the cache. An
      exception leaves the links before the failing one relinked. */
  method SetupChannelThumb(fs: FileSystem, cfg: Config, chanName: string, ch: Channel)
    returns (folder: string, e: Option<OsError>)
    requires fs.Valid()
    modifies fs
    ensures fs.Valid() && fs.notified == old(fs.notified)
    ensures Effect(fs.entries, e) == ChannelThumbEffect(cfg, old(fs.entries), chanName, ch)
    ensures cfg.cache == "" ==> folder == "" && e == None && fs.entries == old(fs.entries)
    ensures cfg.cache != "" ==>
      var thumb := CachePath(cfg, ch.channelThumbUrl);
      var banner := CachePath(cfg, ch.channelBannerUrl);
      e == RelinkAllOutcome(old(fs.entries), ChannelDir(cfg, chanName), ArtNames, thumb, banner) &&
      (e == None ==> folder == ChannelDir(cfg, chanName) + "/folder.jpg" &&
                     fs.entries == RelinkAll(old(fs.entries), ChannelDir(cfg, chanName), ArtNames, thumb, banner))
  {
    if cfg.cache == "" {
      return "", None;
    }
    e := RelinkEach(fs, ChannelDir(cfg, chanName), ArtNames,
                    CachePath(cfg, ch.channelThumbUrl), CachePath(cfg, ch.channelBannerUrl));
    folder := if e == None then ChannelDir(cfg, chanName) + "/folder.jpg" else "";
  }

  /** The tree the image loop leaves whether or not a relink raised: the
      names are relinked in order up to the first one that raises. Only
      paths inside `dir` change, and none disappears. */
  function RelinkAllLeft(m: map<Path, Node>, dir: string, names: seq<string>, thumb: string, banner: string): (r: map<Path, Node>)
    ensures forall q :: q in m ==> q in r
    ensures forall q :: !IsPrefix(SplitPath(dir), q) ==> Agree(m, r, q)
    decreases |names|
  {
    if names == [] then m
    else
      var init := names[..|names| - 1];
      var last := names[|names| - 1];
      var before := RelinkAllLeft(m, dir, init, thumb, banner);
      var p := SplitPath(dir + "/" + last);
      BelowDir(dir, last);
      if RelinkAllOutcome(m, dir, init, thumb, banner) == None && RelinkOutcome(before, p) == None
      then Relinked(before, p, ArtTarget(last, thumb, banner))
      else before
  }

  lemma RelinkAllLeftStep(m: map<Path, Node>, dir: string, names: seq<string>, thumb: string, banner: string, i: nat)
    requires i < |names|
    ensures var p := SplitPath(dir + "/" + names[i]);
      var before := RelinkAllLeft(m, dir, names[..i], thumb, banner);
      RelinkAllLeft(m, dir, names[..i + 1], thumb, banner) ==
        if RelinkAllOutcome(m, dir, names[..i], thumb, banner) == None && RelinkOutcome(before, p) == None
        then Relinked(before, p, ArtTarget(names[i], thumb, banner))
        else before
  {
    assert names[..i + 1][..i] == names[..i];
  }

  /** Once a relink has raised, later names leave the tree alone. */
  lemma {:induction false} RelinkAllLeftStops(m: map<Path, Node>, dir: string, names: seq<string>, thumb: string, banner: string, i: nat)
    requires i <= |names| && RelinkAllOutcome(m, dir, names[..i], thumb, banner).Some?
    ensures RelinkAllLeft(m, dir, names, thumb, banner) == RelinkAllLeft(m, dir, names[..i], thumb, banner)
    decreases |names| - i
  {
    if i < |names| {
      RelinkAllStep(m, dir, names, thumb, banner, i);
      RelinkAllLeftStep(m, dir, names, thumb, banner, i);
      RelinkAllLeftStops(m, dir, names, thumb, banner, i + 1);
    } else {
      assert names[..i] == names;
    }
  }

  /** The loop of `setup_channel_thumb`: each image link is removed and
      made again, stopping at the first exception. */
  method RelinkEach(fs: FileSystem, root: string, names: seq<string>, thumb: string, banner: string)
    returns (e: Option<OsError>)
    requires fs.Valid()
    modifies fs
    ensures fs.Valid() && fs.notified == old(fs.notified)
    ensures e == RelinkAllOutcome(old(fs.entries), root, names, thumb, banner)
    ensures fs.entries == RelinkAllLeft(old(fs.entries), root, names, thumb, banner)
    ensures e == None ==> fs.entries == RelinkAll(old(fs.entries), root, names, thumb, banner)
  {
    ghost var m := fs.entries;
    var i := 0;
    while i < |names|
      invariant 0 <= i <= |names|
      invariant fs.Valid() && fs.notified == old(fs.notified)
      invariant RelinkAllOutcome(m, root, names[..i], thumb, banner) == None
      invariant fs.entries == RelinkAll(m, root, names[..i], thumb, banner)
      invariant fs.entries == RelinkAllLeft(m, root, names[..i], thumb, banner)
    {
      var target := ArtTarget(names[i], thumb, banner);
      RelinkAllStep(m, root, names, thumb, banner, i);
      RelinkAllLeftStep(m, root, names, thumb, banner, i);
      e := Relink(fs, target, root + "/" + names[i]);
      if e.Some? {
        RelinkAllOutcomeStops(m, root, names, thumb, banner, i + 1);
        RelinkAllLeftStops(m, root, names, thumb, banner, i + 1);
        return;
      }
      i := i + 1;
    }
    assert names[..i] == names;
    e := None;
  }

  /** One more name: one more relink. */
  lemma RelinkAllStep(m: map<Path, Node>, dir: string, names: seq<string>, thumb: string, banner: string, i: nat)
    requires i < |names|
    ensures var p := SplitPath(dir + "/" + names[i]);
      var before := RelinkAll(m, dir, names[..i], thumb, banner);
      RelinkAll(m, dir, names[..i + 1], thumb, banner) == Relinked(before, p, ArtTarget(names[i], thumb, banner)) &&
      RelinkAllOutcome(m, dir, names[..i + 1], thumb, banner) ==
        (if RelinkAllOutcome(m, dir, names[..i], thumb, banner).Some?
         then RelinkAllOutcome(m, dir, names[..i], thumb, banner)
         else RelinkOutcome(before, p))
  {
    assert names[..i + 1][..i] == names[..i];
  }

  /** Once a relink has raised, later names cannot change the outcome. */
  lemma {:induction false} RelinkAllOutcomeStops(m: map<Path, Node>, dir: string, names: seq<string>, thumb: string, banner: string, i: nat)
    requires i <= |names| && RelinkAllOutcome(m, dir, names[..i], thumb, banner).Some?
    ensures RelinkAllOutcome(m, dir, names, thumb, banner) == RelinkAllOutcome(m, dir, names[..i], thumb, banner)
    decreases |names| - i
  {
    if i < |names| {
      var next := names[..i + 1];
      assert next[..|next| - 1] == names[..i];
      RelinkAllOutcomeStops(m, dir, names, thumb, banner, i + 1);
    } else {
      assert names[..i] == names;
    }
  }

  /** What `setup_channel_thumb` leaves: nothing without a cache folder;
      otherwise the image links relinked up to the first that raises, and
      that exception. Only paths inside the channel folder change. */
  function ChannelThumbEffect(cfg: Config, m: map<Path, Node>, chanName: string, ch: Channel): (r: Effect)
    ensures forall q :: q in m ==> q in r.tree
    ensures forall q :: !IsPrefix(SplitPath(ChannelDir(cfg, chanName)), q) ==> Agree(m, r.tree, q)
  {
    if cfg.cache == "" then Effect(m, None)
    else
      var dir := ChannelDir(cfg, chanName);
      var thumb := CachePath(cfg, ch.channelThumbUrl);
      var banner := CachePath(cfg, ch.channelBannerUrl);
      Effect(RelinkAllLeft(m, dir, ArtNames, thumb, banner), RelinkAllOutcome(m, dir, ArtNames, thumb, banner))
  }

  /** The `folder.jpg` path `setup_channel_thumb` returns. */
  function ChannelFolderImage(cfg: Config, chanName: string): string {
    if cfg.cache == "" then "" else ChannelDir(cfg, chanName) + "/folder.jpg"
  }

  /** What `setup_new_channel_resources` leaves: the image links, then
      `tvshow.nfo` when show NFOs are enabled; an exception stops it. */
  function NewChannelEffect(cfg: Config, m: map<Path, Node>, chanName: string, ch: Channel): (r: Effect)
    ensures forall q :: q in m ==> q in r.tree
    ensures forall q :: !IsPrefix(SplitPath(ChannelDir(cfg, chanName)), q) ==> Agree(m, r.tree, q)
  {
    var t := ChannelThumbEffect(cfg, m, chanName, ch);
    if t.error.Some? || !cfg.generateShowsNfo then t
    else
      WriteEffect(t.tree, InDir(ChannelDir(cfg, chanName), "tvshow.nfo"),
                  TvShowNfo(chanName, ch, ChannelFolderImage(cfg, chanName)))
  }

  /** `setup_new_channel_resources`: the channel's image links, then
      `tvshow.nfo` when show NFOs are enabled. An exception leaves the
      image links as far as they got, and no `tvshow.nfo` written. */
  method SetupNewChannelResources(fs: FileSystem, cfg: Config, chanName: string, ch: Channel)
    returns (e: Option<OsError>)
    requires fs.Valid()
    modifies fs
    ensures fs.Valid() && fs.notified == old(fs.notified)
    ensures Effect(fs.entries, e) == NewChannelEffect(cfg, old(fs.entries), chanName, ch)
    ensures e != None ==> fs.entries == ChannelThumbEffect(cfg, old(fs.entries), chanName, ch).tree
    ensures e == None ==>
      var thumbs := ChannelThumbEffect(cfg, old(fs.entries), chanName, ch).tree;
      fs.entries == if cfg.generateShowsNfo
                    then thumbs[InDir(ChannelDir(cfg, chanName), "tvshow.nfo") :=
                                File(TvShowNfo(chanName, ch, ChannelFolderImage(cfg, chanName)))]
                    else thumbs
  {
    var folder;
    folder, e := SetupChannelThumb(fs, cfg, chanName, ch);
    if e.Some? {
      return;
    }
    if cfg.generateShowsNfo {
      e := fs.WriteFile(ChannelDir(cfg, chanName) + "/" + "tvshow.nfo", TvShowNfo(chanName, ch, folder));
    }
  }

  /** `setup_playlist_thumb`: one `folder.jpg` link, except for the
      "Videos" season or when no cache folder is configured. */
  method SetupPlaylistThumb(fs: FileSystem, cfg: Config, chanName: string, playlistName: string, pl: Playlist)
    returns (folder: string, e: Option<OsError>)
    requires fs.Valid()
    modifies fs
    ensures fs.Valid() && fs.notified == old(fs.notified)
    ensures Effect(fs.entries, e) == PlaylistThumbEffect(cfg, old(fs.entries), chanName, playlistName, pl)
    ensures folder == PlaylistFolderImage(cfg, chanName, playlistName, pl)
  {
    if cfg.cache == "" || pl.playlistName == "Videos" {
      return "", None;
    }
    folder := PlaylistDir(cfg, chanName, playlistName) + "/folder.jpg";
    assert folder == PlaylistDir(cfg, chanName, playlistName) + "/" + "folder.jpg";
    e := Relink(fs, CachePath(cfg, pl.playlistThumbnail), folder);
  }

  /** What `setup_playlist_thumb` leaves. Only paths inside the playlist
      folder change. */
  function PlaylistThumbEffect(cfg: Config, m: map<Path, Node>, chanName: string, playlistName: string, pl: Playlist): (r: Effect)
    ensures forall q :: q in m ==> q in r.tree
    ensures forall q :: !IsPrefix(SplitPath(PlaylistDir(cfg, chanName, playlistName)), q) ==> Agree(m, r.tree, q)
  {
    if cfg.cache == "" || pl.playlistName == "Videos" then Effect(m, None)
    else
      RelinkEffect(m, InDir(PlaylistDir(cfg, chanName, playlistName), "folder.jpg"), CachePath(cfg, pl.playlistThumbnail))
  }

  function PlaylistFolderImage(cfg: Config, chanName: string, playlistName: string, pl: Playlist): string {
    if cfg.cache == "" || pl.playlistName == "Videos" then "" else PlaylistDir(cfg, chanName, playlistName) + "/folder.jpg"
  }

  /** What `setup_new_channel_playlist_resources` leaves: the image link,
      then `season.nfo` with the season number when show NFOs are enabled;
      an exception stops it. */
  function NewPlaylistEffect(cfg: Config, m: map<Path, Node>, chanName: string, playlistName: string, pl: Playlist, seasonNum: nat): (r: Effect)
    ensures forall q :: q in m ==> q in r.tree
    ensures forall q :: !IsPrefix(SplitPath(PlaylistDir(cfg, chanName, playlistName)), q) ==> Agree(m, r.tree, q)
  {
    var t := PlaylistThumbEffect(cfg, m, chanName, playlistName, pl);
    if t.error.Some? || !cfg.generateShowsNfo then t
    else
      WriteEffect(t.tree, InDir(PlaylistDir(cfg, chanName, playlistName), "season.nfo"),
                  SeasonNfo(pl, PlaylistFolderImage(cfg, chanName, playlistName, pl), seasonNum))
  }

  /** `setup_new_channel_playlist_resources`: the playlist's image link,
      then `season.nfo` when show NFOs are enabled. An exception leaves
      the image link as far as it got, and no `season.nfo` written. */
  method SetupNewPlaylistResources(fs: FileSystem, cfg: Config, chanName: string, playlistName: string, pl: Playlist, seasonNum: nat)
    returns (e: Option<OsError>)
    requires fs.Valid()
    modifies fs
    ensures fs.Valid() && fs.notified == old(fs.notified)
    ensures Effect(fs.entries, e) == NewPlaylistEffect(cfg, old(fs.entries), chanName, playlistName, pl, seasonNum)
    ensures e != None ==> fs.entries == PlaylistThumbEffect(cfg, old(fs.entries), chanName, playlistName, pl).tree
    ensures e == None ==>
      var thumbs := PlaylistThumbEffect(cfg, old(fs.entries), chanName, playlistName, pl).tree;
      fs.entries == if cfg.generateShowsNfo
                    then thumbs[InDir(PlaylistDir(cfg, chanName, playlistName), "season.nfo") :=
                                File(SeasonNfo(pl, PlaylistFolderImage(cfg, chanName, playlistName, pl), seasonNum))]
                    else thumbs
  {
    var folder;
    folder, e := SetupPlaylistThumb(fs, cfg, chanName, playlistName, pl);
    if e.Some? {
      return;
    }
    if cfg.generateShowsNfo {
      e := fs.WriteFile(PlaylistDir(cfg, chanName, playlistName) + "/" + "season.nfo", SeasonNfo(pl, folder, seasonNum));
    }
  }

  // ---------------------------------------------------------------------
  // Videos.

  /** The `-poster.jpg` name next to a video link. */
  function PosterName(videoName: string): string {
    ReplaceAll(videoName, ".mp4", "-poster.jpg")
  }

  function NfoName(videoName: string): string {
    ReplaceAll(videoName, ".mp4", ".nfo")
  }

  function SubtitleName(cfg: Config, videoName: string): string {
    ReplaceAll(videoName, ".mp4", cfg.subFormat)
  }

  /** The four entries processing one video can touch, all in its
      playlist folder: the video link, its poster link, its `.nfo` and its
      subtitle link. */
  datatype Spot = Spot(link: Path, poster: Path, nfo: Path, sub: Path)

  function VideoSpot(cfg: Config, chanName: string, playlistName: string, videoName: string): (s: Spot)
    ensures var dir := SplitPath(PlaylistDir(cfg, chanName, playlistName));
      IsPrefix(dir, s.link) && IsPrefix(dir, s.poster) && IsPrefix(dir, s.nfo) && IsPrefix(dir, s.sub)
  {
    var dir := PlaylistDir(cfg, chanName, playlistName);
    Spot(InDir(dir, videoName), InDir(dir, PosterName(videoName)), InDir(dir, NfoName(videoName)),
         InDir(dir, SubtitleName(cfg, videoName)))
  }

  function VideoLinkPath(cfg: Config, chanName: string, playlistName: string, videoName: string): Path {
    VideoSpot(cfg, chanName, playlistName, videoName).link
  }

  function SpotPaths(s: Spot): set<Path> {
    {s.link, s.poster, s.nfo, s.sub}
  }

  /** The four entries of a video are four different entries below the
      root, as they are for every video name the script builds from a
      youtube id. */
  predicate SidecarsApart(s: Spot) {
    s.link != [] && s.poster != [] && s.nfo != [] && s.sub != [] &&
    s.link != s.poster && s.link != s.nfo && s.link != s.sub && s.poster != s.nfo && s.poster != s.sub && s.nfo != s.sub
  }

  /** The poster path `setup_video_thumb` returns. */
  function PosterLink(cfg: Config, chanName: string, playlistName: string, videoName: string): string {
    if cfg.cache == "" then "" else PlaylistDir(cfg, chanName, playlistName) + "/" + PosterName(videoName)
  }

  /** `setup_video_thumb`: the video's `-poster.jpg` link into the cache. */
  method SetupVideoThumb(fs: FileSystem, cfg: Config, chanName: string, playlistName: string, videoName: string, v: Video)
    returns (poster: string, e: Option<OsError>)
    requires fs.Valid()
    modifies fs
    ensures fs.Valid() && fs.notified == old(fs.notified)
    ensures poster == PosterLink(cfg, chanName, playlistName, videoName)
    ensures Effect(fs.entries, e) == VideoThumbEffect(cfg, old(fs.entries), VideoSpot(cfg, chanName, playlistName, videoName), v)
  {
    if cfg.cache == "" {
      return "", None;
    }
    poster := PlaylistDir(cfg, chanName, playlistName) + "/" + PosterName(videoName);
    e := Relink(fs, CachePath(cfg, v.vidThumbUrl), poster);
  }

  /** What `setup_video_thumb` leaves: the poster link relinked into the
      video thumbnail in the cache, when a cache folder is configured. */
  function VideoThumbEffect(cfg: Config, m: map<Path, Node>, s: Spot, v: Video): (r: Effect)
    ensures forall q :: q != s.poster ==> Agree(m, r.tree, q)
    ensures forall q :: q in m ==> q in r.tree
    ensures s.poster != [] ==> r.error != Some(FileExists)
    ensures cfg.cache == "" ==> r == Effect(m, None)
    ensures cfg.cache != "" ==> r.error == RelinkOutcome(m, s.poster)
    ensures cfg.cache != "" && r.error == None ==> s.poster in r.tree && r.tree[s.poster] == Link(CachePath(cfg, v.vidThumbUrl))
  {
    if cfg.cache == "" then Effect(m, None)
    else RelinkEffect(m, s.poster, CachePath(cfg, v.vidThumbUrl))
  }

  /** What `generate_new_video_nfo` leaves: the poster link, then, when
      NFOs are enabled, the `.nfo` holding the video document `doc`.
      Nothing else changes, and a failure leaves the tree as the failing
      step left it. */
  function VideoNfoEffect(cfg: Config, m: map<Path, Node>, s: Spot, v: Video, doc: string): (r: Effect)
    ensures forall q :: q != s.poster && q != s.nfo ==> Agree(m, r.tree, q)
    ensures forall q :: q in m ==> q in r.tree
    ensures s.poster != [] ==> r.error != Some(FileExists)
    ensures r.error == None && cfg.generateNfo ==>
      s.nfo in r.tree && r.tree[s.nfo] == File(doc)
    ensures r.error == None && cfg.cache != "" && s.poster != s.nfo ==>
      s.poster in r.tree && r.tree[s.poster] == Link(CachePath(cfg, v.vidThumbUrl))
    ensures !cfg.generateNfo ==> r == VideoThumbEffect(cfg, m, s, v)
  {
    var t := VideoThumbEffect(cfg, m, s, v);
    if t.error.Some? || !cfg.generateNfo then t
    else WriteEffect(t.tree, s.nfo, doc)
  }

  /** `generate_new_video_nfo`: the poster link, then the video's `.nfo`
      when NFOs are enabled. */
  method GenerateNewVideoNfo(fs: FileSystem, cfg: Config, chanName: string, playlistName: string, videoName: string,
                             v: Video, episodeNum: nat, seasonNum: nat)
    returns (e: Option<OsError>)
    requires fs.Valid()
    modifies fs
    ensures fs.Valid() && fs.notified == old(fs.notified)
    ensures Effect(fs.entries, e) ==
      VideoNfoEffect(cfg, old(fs.entries), VideoSpot(cfg, chanName, playlistName, videoName), v,
                     VideoNfo(cfg.generateShowsNfo, v, PosterLink(cfg, chanName, playlistName, videoName), episodeNum, seasonNum))
  {
    var poster;
    poster, e := SetupVideoThumb(fs, cfg, chanName, playlistName, videoName, v);
    if e.Some? {
      return;
    }
    if cfg.generateNfo {
      var nfo := PlaylistDir(cfg, chanName, playlistName) + "/" + NfoName(videoName);
      e := fs.WriteFile(nfo, VideoNfo(cfg.generateShowsNfo, v, poster, episodeNum, seasonNum));
    }
  }

  /** `TA_MEDIA_FOLDER + splitext(media_url)[0] + SUB_FORMAT`. */
  function SubtitleSource(cfg: Config, v: Video): string {
    cfg.mediaFolder + SplitExtRoot(v.mediaUrl) + cfg.subFormat
  }

  /** What `generate_new_video_sub` leaves: a subtitle link exactly when
      the subtitle file exists; `FileExistsError` when something is
      already at the subtitle path. */
  function VideoSubEffect(cfg: Config, m: map<Path, Node>, s: Spot, v: Video): (r: Effect)
    ensures forall q :: q != s.sub ==> Agree(m, r.tree, q)
    ensures forall q :: q in m ==> q in r.tree
    ensures !Exists(m, SplitPath(SubtitleSource(cfg, v))) ==> r == Effect(m, None)
    ensures r.error == Some(FileExists) <==> Exists(m, SplitPath(SubtitleSource(cfg, v))) && (s.sub in m || s.sub == [])
    ensures s.sub in r.tree && s.sub !in m ==> r.tree[s.sub] == Link(SubtitleSource(cfg, v))
  {
    var source := SubtitleSource(cfg, v);
    if !Exists(m, SplitPath(source)) then Effect(m, None)
    else
      var e := SymlinkError(SymlinkOutcome(m, s.sub));
      Effect(if e == None then m[s.sub := Link(source)] else m, e)
  }

  /** `generate_new_video_sub`: a subtitle link is made only when the
      subtitle file exists in the media folder. */
  method GenerateNewVideoSub(fs: FileSystem, cfg: Config, chanName: string, playlistName: string, videoName: string, v: Video)
    returns (e: Option<OsError>)
    requires fs.Valid()
    modifies fs
    ensures fs.Valid() && fs.notified == old(fs.notified)
    ensures Effect(fs.entries, e) == VideoSubEffect(cfg, old(fs.entries), VideoSpot(cfg, chanName, playlistName, videoName), v)
  {
    var source := SubtitleSource(cfg, v);
    if Exists(fs.entries, SplitPath(source)) {
      var made := fs.Symlink(source, PlaylistDir(cfg, chanName, playlistName) + "/" + SubtitleName(cfg, videoName));
      e := SymlinkError(made);
    } else {
      e := None;
    }
  }

  /** The media URL with every "/youtube" dropped, as `process_video`
      rewrites it; every other field is kept, and the URL gets shorter
      exactly when "/youtube" occurs in it. */
  function LocalMedia(v: Video): (r: Video)
    ensures r == v.(mediaUrl := r.mediaUrl)
    ensures r.youtubeId == v.youtubeId && r.vidThumbUrl == v.vidThumbUrl && r.playlists == v.playlists
    ensures !Contains(v.mediaUrl, "/youtube") ==> r == v
    ensures |r.mediaUrl| <= |v.mediaUrl|
    ensures Contains(v.mediaUrl, "/youtube") <==> |r.mediaUrl| < |v.mediaUrl|
    ensures forall i: nat :: FirstAt(v.mediaUrl, "/youtube", i) && !Contains(v.mediaUrl[i + 8..], "/youtube") ==>
      r.mediaUrl == v.mediaUrl[..i] + v.mediaUrl[i + 8..]
  {
    var r := v.(mediaUrl := ReplaceAll(v.mediaUrl, "/youtube", ""));
    RemovalShrinks(v.mediaUrl, "/youtube");
    forall i: nat | FirstAt(v.mediaUrl, "/youtube", i) && !Contains(v.mediaUrl[i + 8..], "/youtube")
      ensures r.mediaUrl == v.mediaUrl[..i] + v.mediaUrl[i + 8..]
    {
      ReplaceAllAt(v.mediaUrl, "/youtube", "", i);
      ReplaceAbsent(v.mediaUrl[i + 8..], "/youtube", "");
    }
    assert !Contains(v.mediaUrl, "/youtube") ==> r == v by {
      if !Contains(v.mediaUrl, "/youtube") {
        ReplaceAbsent(v.mediaUrl, "/youtube", "");
      }
    }
    r
  }

  /** The target of a video link: the media file in the media folder. */
  function MediaTarget(cfg: Config, v: Video): string {
    cfg.mediaFolder + LocalMedia(v).mediaUrl
  }

  /** The outcome `process_video` reports for the exception escaping it:
      `FileExistsError` is the "already mirrored" case. */
  function MadeOf(e: Option<OsError>): (r: Made)
    ensures SymlinkError(r) == e
  {
    match e
    case None => Created
    case Some(FileExists) => AlreadyPresent
    case Some(x) => Failed(x)
  }

  /** What `process_video` does after making a new video link: the
      poster link and the `.nfo` (`doc`), then the subtitle link, stopping
      at the first exception. Only the three sidecar entries change. */
  function SidecarsEffect(cfg: Config, m: map<Path, Node>, s: Spot, w: Video, doc: string): (r: Effect)
    ensures forall q :: q != s.poster && q != s.nfo && q != s.sub ==> Agree(m, r.tree, q)
    ensures forall q :: q in m ==> q in r.tree
  {
    var n := VideoNfoEffect(cfg, m, s, w, doc);
    if n.error.Some? || !cfg.symlinkSubs then n
    else VideoSubEffect(cfg, n.tree, s, w)
  }

  /** What `process_video` leaves, `doc` being the video's `.nfo`
      document: the video link into the media folder, then for a new link
      the poster link and `.nfo`, then the subtitle link; and the exception
      that escapes, if any. A link that is already there raises
      `FileExistsError` and changes nothing, and no entry other than the
      video's four changes. */
  function ProcessVideoEffect(cfg: Config, m: map<Path, Node>, s: Spot, v: Video, doc: string): (r: Effect)
    ensures forall q :: q !in SpotPaths(s) ==> Agree(m, r.tree, q)
    ensures forall q :: q in m ==> q in r.tree
    ensures SymlinkOutcome(m, s.link) != Created ==> r == Effect(m, SymlinkError(SymlinkOutcome(m, s.link)))
  {
    var made := SymlinkOutcome(m, s.link);
    if made != Created then Effect(m, SymlinkError(made))
    else SidecarsEffect(cfg, m[s.link := Link(MediaTarget(cfg, v))], s, LocalMedia(v), doc)
  }

  /** A new video on disk: when `process_video` finds no video link and
      returns normally or with `FileExistsError` (raised by a subtitle
      link that is already there), the video link points into the media
      folder, the poster link points at the video thumbnail in the cache,
      the `.nfo` holds the video document, and an entry that appeared at
      the subtitle path is the subtitle link. */
  lemma NewVideoOnDisk(cfg: Config, m: map<Path, Node>, s: Spot, v: Video, doc: string)
    requires SidecarsApart(s) && s.link !in m
    requires ProcessVideoEffect(cfg, m, s, v, doc).error in {None, Some(FileExists)}
    ensures var r := ProcessVideoEffect(cfg, m, s, v, doc).tree;
      s.link in r && r[s.link] == Link(MediaTarget(cfg, v)) &&
      (cfg.cache != "" ==> s.poster in r && r[s.poster] == Link(CachePath(cfg, v.vidThumbUrl))) &&
      (cfg.generateNfo ==> s.nfo in r && r[s.nfo] == File(doc)) &&
      (s.sub in r && s.sub !in m ==> cfg.symlinkSubs && r[s.sub] == Link(SubtitleSource(cfg, LocalMedia(v))))
  {
    var m1 := m[s.link := Link(MediaTarget(cfg, v))];
    var n := VideoNfoEffect(cfg, m1, s, LocalMedia(v), doc);
    assert SymlinkOutcome(m, s.link) == Created;
    assert ProcessVideoEffect(cfg, m, s, v, doc) == SidecarsEffect(cfg, m1, s, LocalMedia(v), doc);
    assert Agree(m1, n.tree, s.link);
    assert Agree(m1, n.tree, s.sub);
    if cfg.symlinkSubs && n.error == None {
      var t := VideoSubEffect(cfg, n.tree, s, LocalMedia(v));
      assert Agree(n.tree, t.tree, s.link);
      assert Agree(n.tree, t.tree, s.nfo);
      assert Agree(n.tree, t.tree, s.poster);
    }
  }

  /** A video that `process_video` leaves without a real failure has its
      link afterwards: made now, or already there. */
  lemma VideoLinkAfter(cfg: Config, m: map<Path, Node>, s: Spot, v: Video, doc: string)
    requires SidecarsApart(s)
    requires ProcessVideoEffect(cfg, m, s, v, doc).error in {None, Some(FileExists)}
    ensures s.link in ProcessVideoEffect(cfg, m, s, v, doc).tree
  {
    if s.link !in m {
      NewVideoOnDisk(cfg, m, s, v, doc);
    }
  }

  /** `FileExistsError` from `process_video` means the video link or,
      with subtitle links enabled, the subtitle link was already there. */
  lemma AlreadyThere(cfg: Config, m: map<Path, Node>, s: Spot, v: Video, doc: string)
    requires SidecarsApart(s)
    requires ProcessVideoEffect(cfg, m, s, v, doc).error == Some(FileExists)
    ensures s.link in m || (cfg.symlinkSubs && s.sub in m)
  {
    if s.link !in m {
      var m1 := m[s.link := Link(MediaTarget(cfg, v))];
      assert SymlinkOutcome(m, s.link) == Created;
      var n := VideoNfoEffect(cfg, m1, s, LocalMedia(v), doc);
      assert ProcessVideoEffect(cfg, m, s, v, doc) == SidecarsEffect(cfg, m1, s, LocalMedia(v), doc);
      assert Agree(m1, n.tree, s.sub);
    }
  }

  /** The `.nfo` document `process_video` writes for a new video: the
      video with its media URL rewritten, the poster path, and the episode
      and season numbers it was given. */
  function NewVideoDoc(cfg: Config, chanName: string, playlistName: string, videoName: string,
                       v: Video, episodeNum: nat, seasonNum: nat): string {
    VideoNfo(cfg.generateShowsNfo, LocalMedia(v), PosterLink(cfg, chanName, playlistName, videoName), episodeNum, seasonNum)
  }

  /** `process_video`: the video link, then (for a new video only) the
      notification, the `.nfo` and the subtitle link. `AlreadyPresent` is
      a `FileExistsError` escaping from any of these steps. */
  method ProcessVideo(fs: FileSystem, cfg: Config, chanName: string, playlistName: string, videoName: string,
                      v: Video, episodeNum: nat, seasonNum: nat)
    returns (r: Made)
    requires fs.Valid()
    modifies fs
    ensures fs.Valid()
    ensures var E := ProcessVideoEffect(cfg, old(fs.entries), VideoSpot(cfg, chanName, playlistName, videoName), v,
                                        NewVideoDoc(cfg, chanName, playlistName, videoName, v, episodeNum, seasonNum));
      fs.entries == E.tree && r == MadeOf(E.error)
    // A notification goes out exactly for a newly linked video, when enabled.
    ensures fs.notified == if cfg.notificationsEnabled &&
                              SymlinkOutcome(old(fs.entries), VideoLinkPath(cfg, chanName, playlistName, videoName)) == Created
                           then old(fs.notified) + [v.youtubeId] else old(fs.notified)
  {
    var w := LocalMedia(v);
    var link := PlaylistDir(cfg, chanName, playlistName) + "/" + videoName;
    var made := fs.Symlink(cfg.mediaFolder + w.mediaUrl, link);
    if made != Created {
      return made;
    }
    if cfg.notificationsEnabled {
      fs.Notify(v.youtubeId);
    }
    var e := MakeSidecars(fs, cfg, chanName, playlistName, videoName, w, episodeNum, seasonNum);
    r := MadeOf(e);
  }

  /** The `.nfo` then the subtitle link of a newly linked video. */
  method MakeSidecars(fs: FileSystem, cfg: Config, chanName: string, playlistName: string, videoName: string,
                      w: Video, episodeNum: nat, seasonNum: nat)
    returns (e: Option<OsError>)
    requires fs.Valid()
    modifies fs
    ensures fs.Valid() && fs.notified == old(fs.notified)
    ensures Effect(fs.entries, e) ==
      SidecarsEffect(cfg, old(fs.entries), VideoSpot(cfg, chanName, playlistName, videoName), w,
                     VideoNfo(cfg.generateShowsNfo, w, PosterLink(cfg, chanName, playlistName, videoName), episodeNum, seasonNum))
  {
    e := GenerateNewVideoNfo(fs, cfg, chanName, playlistName, videoName, w, episodeNum, seasonNum);
    if e == None && cfg.symlinkSubs {
      e := GenerateNewVideoSub(fs, cfg, chanName, playlistName, videoName, w);
    }
  }
}
