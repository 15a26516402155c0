/** The script's top level (ta-helper.py:374-557): create the target folder,
    mirror every channel in the order the API listed them, then run the
    cleanup when it is enabled. An `OSError` that escapes a step ends the
    script; here it ends `Run` with that error. */
module Script {
  import opened Text
  import opened Catalog
  import opened Naming
  import opened Paths
  import opened Disk
  import opened Materialise
  import opened Mirror
  import opened Orphans
  import opened Sweep

  /** Everything before the cleanup (ta-helper.py:375-553): the target
      folder is created (an existing folder is fine), then every channel
      is mirrored. */
  function MirrorEffect(cfg: Config, cat: Catalogue, m: map<Path, Node>, n: seq<string>): Outcome {
    var root := SplitPath(cfg.targetFolder);
    var made := MakeDirsOutcome(m, root, true);
    if made.Some? then Outcome(m, n, made)
    else ChannelsFrom(cfg, cat, 0, MadeDirs(m, root, true), n)
  }

  /** The mirroring changes nothing outside the target folder but the
      ancestors `os.makedirs` creates. */
  lemma MirrorOutside(cfg: Config, cat: Catalogue, m: map<Path, Node>, n: seq<string>, q: Path)
    requires !IsPrefix(q, SplitPath(cfg.targetFolder)) && !IsPrefix(SplitPath(cfg.targetFolder), q)
    ensures Agree(m, MirrorEffect(cfg, cat, m, n).tree, q)
  {
    var root := SplitPath(cfg.targetFolder);
    if MakeDirsOutcome(m, root, true) == None {
      ChannelsOutside(cfg, cat, 0, MadeDirs(m, root, true), n, q);
    }
  }

  /** The whole script. `mirrored` is what the channel loop leaves; the
      cleanup runs on that tree, when it is enabled and nothing escaped
      before it. `seasons` records, per channel, each playlist id with the
      season number it was processed under. */
  method Run(fs: FileSystem, cfg: Config, cat: Catalogue, avoidsSymlinkAttacks: bool)
    returns (e: Option<OsError>, ghost mirrored: Outcome, ghost seasons: seq<seq<(string, nat)>>)
    requires fs.Valid()
    modifies fs
    ensures fs.Valid()
    ensures mirrored == MirrorEffect(cfg, cat, old(fs.entries), old(fs.notified))
    ensures fs.notified == mirrored.notified
    ensures mirrored.error.Some? || !cfg.cleanupDeletedVideos ==> fs.entries == mirrored.tree && e == mirrored.error
    ensures mirrored.error == None && cfg.cleanupDeletedVideos ==>
      var m := mirrored.tree;
      var top := cfg.targetFolder;
      Shrunk(m, fs.entries) &&
      (forall q :: Queued(m, cfg, top, q) ==> q !in fs.entries) &&
      (forall q :: (q in m && !Queued(m, cfg, top, q) && !UnderCandidate(m, cfg, top, q) &&
                    !InFolderChild(m, SplitPath(top), q)) ==> q in fs.entries) &&
      (forall q :: (q in m && InSeason(SplitPath(top), q) && !Queued(m, cfg, top, q) &&
                    !UnderCandidate(m, cfg, top, q)) ==> q in fs.entries) &&
      (forall q :: (q in m && !Queued(m, cfg, top, q) && !UnderCandidate(m, cfg, top, q) &&
                    IsPrefix(SplitPath(top), q) && |q| > |SplitPath(top)| &&
                    HoldsSeason(Swept(m, cfg, top), SplitPath(top), q[..|SplitPath(top)| + 1])) ==> q in fs.entries) &&
      (!avoidsSymlinkAttacks ==> e == None && forall q :: q in fs.entries <==> q in m && !Queued(m, cfg, top, q)) &&
      (avoidsSymlinkAttacks && e == None ==>
         (forall d :: Candidate(m, cfg, top, d) ==> d !in fs.entries) &&
         var w := Swept(m, cfg, top);
         forall c :: (c in Children(w, SplitPath(top)) && IsDirAt(w, c) && !HasSubdir(w, c)) ==> c !in fs.entries)
    ensures old(fs.notified) <= fs.notified
    ensures !cfg.notificationsEnabled ==> fs.notified == old(fs.notified)
    ensures e == None ==>
      (|seasons| == |cat.channels| &&
       forall i :: 0 <= i < |cat.channels| ==>
         seasons[i] == Number(OwnedPlaylists(cat.playlists, cat.channels[i].channelId), 2))
  {
    e, mirrored, seasons := MirrorChannels(fs, cfg, cat);
    if e == None && cfg.cleanupDeletedVideos {
      e := Cleanup(fs, cfg, avoidsSymlinkAttacks);
    }
  }

  /** Everything before the cleanup: the target folder, then the channel
      loop, which stops at the first exception. */
  method MirrorChannels(fs: FileSystem, cfg: Config, cat: Catalogue)
    returns (e: Option<OsError>, ghost mirrored: Outcome, ghost seasons: seq<seq<(string, nat)>>)
    requires fs.Valid()
    modifies fs
    ensures fs.Valid()
    ensures mirrored == MirrorEffect(cfg, cat, old(fs.entries), old(fs.notified))
    ensures mirrored == Outcome(fs.entries, fs.notified, e)
    ensures old(fs.notified) <= fs.notified
    ensures !cfg.notificationsEnabled ==> fs.notified == old(fs.notified)
    ensures e == None ==>
      (|seasons| == |cat.channels| &&
       forall i :: 0 <= i < |cat.channels| ==>
         seasons[i] == Number(OwnedPlaylists(cat.playlists, cat.channels[i].channelId), 2))
  {
    mirrored := MirrorEffect(cfg, cat, fs.entries, fs.notified);
    seasons := [];
    e := fs.MakeDirs(cfg.targetFolder, true);
    if e.Some? {
      return;
    }
    e, seasons := Channels(fs, cfg, cat);
  }
}
