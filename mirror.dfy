/** The per-channel pass of the main loop (ta-helper.py:416-553): the channel
    folder, the "Videos" season of videos that belong to no playlist, and one
    season per playlist of the channel. Episodes and seasons are numbered in
    list order; ghost traces record the numbers handed to `process_video`
    so that the contracts can state them. */
module Mirror {
  import opened Text
  import opened Catalog
  import opened Naming
  import opened Nfo
  import opened Paths
  import opened Disk
  import opened Materialise

  // ---------------------------------------------------------------------
  // Numbering.

  /** `xs` numbered from `first`, as episodes and seasons are numbered. */
  function Number(xs: seq<string>, first: nat): (r: seq<(string, nat)>)
    ensures |r| == |xs|
    decreases |xs|
  {
    if xs == [] then []
    else Number(xs[..|xs| - 1], first) + [(xs[|xs| - 1], first + |xs| - 1)]
  }

  /** The `k`-th element is numbered `first + k`. */
  lemma {:induction false} NumberAt(xs: seq<string>, first: nat, k: nat)
    requires k < |xs|
    ensures Number(xs, first)[k] == (xs[k], first + k)
    decreases |xs|
  {
    if k < |xs| - 1 {
      NumberAt(xs[..|xs| - 1], first, k);
    }
  }

  lemma NumberSnoc(xs: seq<string>, x: string, first: nat)
    ensures Number(xs + [x], first) == Number(xs, first) + [(x, first + |xs|)]
  {
    assert (xs + [x])[..|xs|] == xs;
  }

  lemma {:induction false} NumberPrefix(xs: seq<string>, ys: seq<string>, first: nat)
    requires |xs| <= |ys| && ys[..|xs|] == xs
    ensures Number(ys, first)[..|xs|] == Number(xs, first)
    decreases |ys|
  {
    if |xs| < |ys| {
      var init := ys[..|ys| - 1];
      assert init[..|xs|] == xs;
      NumberPrefix(xs, init, first);
    } else {
      assert ys == xs;
    }
  }

  /** A video that belongs to no playlist goes into the "Videos" season. */
  predicate IsUnassigned(v: Video) {
    |v.playlists| == 0
  }

  /** The ids of the channel's videos that belong to no playlist, in order. */
  function UnassignedIds(vs: seq<Video>): (r: seq<string>)
    ensures |r| <= |vs|
    decreases |vs|
  {
    if vs == [] then []
    else
      var last := vs[|vs| - 1];
      UnassignedIds(vs[..|vs| - 1]) + (if IsUnassigned(last) then [last.youtubeId] else [])
  }

  lemma UnassignedStep(vs: seq<Video>, i: nat)
    requires i < |vs|
    ensures UnassignedIds(vs[..i + 1]) ==
      UnassignedIds(vs[..i]) + (if IsUnassigned(vs[i]) then [vs[i].youtubeId] else [])
  {
    assert vs[..i + 1][..i] == vs[..i];
  }

  /** The ids picked from a prefix of the videos are a prefix of all the
      ids picked. */
  lemma {:induction false} UnassignedPrefix(vs: seq<Video>, i: nat)
    requires i <= |vs|
    ensures var p := UnassignedIds(vs[..i]);
      |p| <= |UnassignedIds(vs)| && UnassignedIds(vs)[..|p|] == p
    decreases |vs| - i
  {
    if i < |vs| {
      UnassignedPrefix(vs, i + 1);
      UnassignedStep(vs, i);
    } else {
      assert vs[..i] == vs;
    }
  }

  /** Exactly the ids of the videos that belong to no playlist are picked. */
  lemma {:induction false} UnassignedMembers(vs: seq<Video>, id: string)
    ensures id in UnassignedIds(vs) <==> exists j :: 0 <= j < |vs| && IsUnassigned(vs[j]) && vs[j].youtubeId == id
    decreases |vs|
  {
    if vs != [] {
      var init := vs[..|vs| - 1];
      UnassignedMembers(init, id);
      if exists j :: 0 <= j < |init| && IsUnassigned(init[j]) && init[j].youtubeId == id {
        var j :| 0 <= j < |init| && IsUnassigned(init[j]) && init[j].youtubeId == id;
        assert vs[j] == init[j];
      }
      if exists j :: 0 <= j < |vs| && IsUnassigned(vs[j]) && vs[j].youtubeId == id {
        var j :| 0 <= j < |vs| && IsUnassigned(vs[j]) && vs[j].youtubeId == id;
        if j < |init| {
          assert init[j] == vs[j];
        }
      }
    }
  }

  /** The playlist entries whose video the server returned, in order. */
  function KnownEntries(ids: seq<string>, byId: map<string, Video>): (r: seq<string>)
    ensures |r| <= |ids|
    decreases |ids|
  {
    if ids == [] then []
    else
      var last := ids[|ids| - 1];
      KnownEntries(ids[..|ids| - 1], byId) + (if last in byId then [last] else [])
  }

  lemma KnownStep(ids: seq<string>, byId: map<string, Video>, i: nat)
    requires i < |ids|
    ensures KnownEntries(ids[..i + 1], byId) ==
      KnownEntries(ids[..i], byId) + (if ids[i] in byId then [ids[i]] else [])
  {
    assert ids[..i + 1][..i] == ids[..i];
  }

  lemma {:induction false} KnownPrefix(ids: seq<string>, byId: map<string, Video>, i: nat)
    requires i <= |ids|
    ensures var p := KnownEntries(ids[..i], byId);
      |p| <= |KnownEntries(ids, byId)| && KnownEntries(ids, byId)[..|p|] == p
    decreases |ids| - i
  {
    if i < |ids| {
      KnownPrefix(ids, byId, i + 1);
      KnownStep(ids, byId, i);
    } else {
      assert ids[..i] == ids;
    }
  }

  /** Every kept entry is known to the server, and none is dropped. */
  lemma {:induction false} KnownMembers(ids: seq<string>, byId: map<string, Video>, id: string)
    ensures id in KnownEntries(ids, byId) <==> id in ids && id in byId
    decreases |ids|
  {
    if ids != [] {
      var init := ids[..|ids| - 1];
      KnownMembers(init, byId, id);
      assert ids == init + [ids[|ids| - 1]];
    }
  }

  /** The ids of the playlists of channel `chanId`, in list order. */
  function OwnedPlaylists(pls: seq<Playlist>, chanId: string): (r: seq<string>)
    ensures |r| <= |pls|
    decreases |pls|
  {
    if pls == [] then []
    else
      var last := pls[|pls| - 1];
      OwnedPlaylists(pls[..|pls| - 1], chanId) + (if last.playlistChannelId == chanId then [last.playlistId] else [])
  }

  lemma OwnedStep(pls: seq<Playlist>, chanId: string, i: nat)
    requires i < |pls|
    ensures OwnedPlaylists(pls[..i + 1], chanId) ==
      OwnedPlaylists(pls[..i], chanId) + (if pls[i].playlistChannelId == chanId then [pls[i].playlistId] else [])
  {
    assert pls[..i + 1][..i] == pls[..i];
  }

  lemma {:induction false} OwnedMembers(pls: seq<Playlist>, chanId: string, id: string)
    ensures id in OwnedPlaylists(pls, chanId) <==>
      exists j :: 0 <= j < |pls| && pls[j].playlistChannelId == chanId && pls[j].playlistId == id
    decreases |pls|
  {
    if pls != [] {
      var init := pls[..|pls| - 1];
      OwnedMembers(init, chanId, id);
      if exists j :: 0 <= j < |init| && init[j].playlistChannelId == chanId && init[j].playlistId == id {
        var j :| 0 <= j < |init| && init[j].playlistChannelId == chanId && init[j].playlistId == id;
        assert pls[j] == init[j];
      }
      if exists j :: 0 <= j < |pls| && pls[j].playlistChannelId == chanId && pls[j].playlistId == id {
        var j :| 0 <= j < |pls| && pls[j].playlistChannelId == chanId && pls[j].playlistId == id;
        if j < |init| {
          assert init[j] == pls[j];
        }
      }
    }
  }

  /** The "Videos" season numbers its episodes 1, 2, ... over exactly the
      channel's videos that belong to no playlist. */
  lemma VideosSeasonPlan(vs: seq<Video>, k: nat)
    requires k < |Number(UnassignedIds(vs), 1)|
    ensures Number(UnassignedIds(vs), 1)[k].1 == k + 1
    ensures exists j :: 0 <= j < |vs| && |vs[j].playlists| == 0 && vs[j].youtubeId == Number(UnassignedIds(vs), 1)[k].0
  {
    NumberAt(UnassignedIds(vs), 1, k);
    UnassignedMembers(vs, UnassignedIds(vs)[k]);
  }

  /** The channel's playlists become seasons 2, 3, ... in list order, and
      only the channel's own playlists do. */
  lemma PlaylistSeasonPlan(pls: seq<Playlist>, chanId: string, k: nat)
    requires k < |Number(OwnedPlaylists(pls, chanId), 2)|
    ensures Number(OwnedPlaylists(pls, chanId), 2)[k].1 == k + 2
    ensures exists j :: 0 <= j < |pls| && pls[j].playlistChannelId == chanId &&
                        pls[j].playlistId == Number(OwnedPlaylists(pls, chanId), 2)[k].0
  {
    NumberAt(OwnedPlaylists(pls, chanId), 2, k);
    OwnedMembers(pls, chanId, OwnedPlaylists(pls, chanId)[k]);
  }

  /** The trace with one more element, numbered after the others. */
  function Numbered(trace: seq<(string, nat)>, id: string, first: nat): seq<(string, nat)> {
    trace + [(id, first + |trace|)]
  }

  /** The numbering of the "Videos" season after the first `i` videos. */
  function EpisodePlan(vs: seq<Video>, i: nat): seq<(string, nat)>
    requires i <= |vs|
  {
    Number(UnassignedIds(vs[..i]), 1)
  }

  lemma EpisodePlanStep(vs: seq<Video>, i: nat)
    requires i < |vs|
    ensures EpisodePlan(vs, i + 1) ==
      (if IsUnassigned(vs[i]) then Numbered(EpisodePlan(vs, i), vs[i].youtubeId, 1) else EpisodePlan(vs, i))
  {
    UnassignedStep(vs, i);
    if IsUnassigned(vs[i]) {
      NumberSnoc(UnassignedIds(vs[..i]), vs[i].youtubeId, 1);
    } else {
      assert UnassignedIds(vs[..i + 1]) == UnassignedIds(vs[..i]);
    }
  }

  /** The plan after `i` videos is a prefix of the whole plan. */
  lemma EpisodePlanPrefix(vs: seq<Video>, i: nat)
    requires i <= |vs|
    ensures EpisodePlan(vs, i) <= Number(UnassignedIds(vs), 1)
    ensures |EpisodePlan(vs, i)| <= |UnassignedIds(vs)|
    ensures i == |vs| ==> EpisodePlan(vs, i) == Number(UnassignedIds(vs), 1)
  {
    UnassignedPrefix(vs, i);
    NumberPrefix(UnassignedIds(vs[..i]), UnassignedIds(vs), 1);
    assert i == |vs| ==> vs[..i] == vs;
  }

  /** The numbering of a playlist season after its first `i` entries. */
  function EntryPlan(ids: seq<string>, byId: map<string, Video>, i: nat): seq<(string, nat)>
    requires i <= |ids|
  {
    Number(KnownEntries(ids[..i], byId), 1)
  }

  lemma EntryPlanStep(ids: seq<string>, byId: map<string, Video>, i: nat)
    requires i < |ids|
    ensures EntryPlan(ids, byId, i + 1) ==
      (if ids[i] in byId then Numbered(EntryPlan(ids, byId, i), ids[i], 1) else EntryPlan(ids, byId, i))
  {
    KnownStep(ids, byId, i);
    if ids[i] in byId {
      NumberSnoc(KnownEntries(ids[..i], byId), ids[i], 1);
    } else {
      assert KnownEntries(ids[..i + 1], byId) == KnownEntries(ids[..i], byId);
    }
  }

  lemma EntryPlanPrefix(ids: seq<string>, byId: map<string, Video>, i: nat)
    requires i <= |ids|
    ensures EntryPlan(ids, byId, i) <= Number(KnownEntries(ids, byId), 1)
    ensures |EntryPlan(ids, byId, i)| <= |KnownEntries(ids, byId)|
    ensures i == |ids| ==> EntryPlan(ids, byId, i) == Number(KnownEntries(ids, byId), 1)
  {
    KnownPrefix(ids, byId, i);
    NumberPrefix(KnownEntries(ids[..i], byId), KnownEntries(ids, byId), 1);
    assert i == |ids| ==> ids[..i] == ids;
  }

  /** The season numbers handed out after the first `j` playlists. */
  function SeasonPlan(pls: seq<Playlist>, chanId: string, j: nat): seq<(string, nat)>
    requires j <= |pls|
  {
    Number(OwnedPlaylists(pls[..j], chanId), 2)
  }

  lemma SeasonPlanStep(pls: seq<Playlist>, chanId: string, j: nat)
    requires j < |pls|
    ensures SeasonPlan(pls, chanId, j + 1) ==
      (if pls[j].playlistChannelId == chanId then Numbered(SeasonPlan(pls, chanId, j), pls[j].playlistId, 2)
       else SeasonPlan(pls, chanId, j))
  {
    OwnedStep(pls, chanId, j);
    if pls[j].playlistChannelId == chanId {
      NumberSnoc(OwnedPlaylists(pls[..j], chanId), pls[j].playlistId, 2);
    } else {
      assert OwnedPlaylists(pls[..j + 1], chanId) == OwnedPlaylists(pls[..j], chanId);
    }
  }

  lemma SeasonPlanAll(pls: seq<Playlist>, chanId: string)
    ensures SeasonPlan(pls, chanId, |pls|) == Number(OwnedPlaylists(pls, chanId), 2)
  {
    assert pls[..|pls|] == pls;
  }

  // ---------------------------------------------------------------------
  // What a season pass leaves behind.

  /** A season folder: the channel folder name, the season folder name and
      the season number its videos are filed under. */
  datatype Season = Season(chan: string, name: string, num: nat)

  /** The "Videos" season of a channel. */
  function VideosSeason(chanName: string): Season {
    Season(chanName, "Videos", 1)
  }

  /** What a pass does with one item of its list: drop the stale link
      `name`, visit `video` under the link name `name`, or nothing. */
  datatype Job = Unlink(name: string) | Visit(name: string, video: Video) | Skip

  /** The tree, the notifications sent and the exception escaping after one
      item; `stop` is the QUICK stop. */
  datatype Step = Step(tree: map<Path, Node>, notified: seq<string>, error: Option<OsError>, stop: bool)

  /** The same after a run of items; `seen` is the index after the last
      item handled. */
  datatype Pass = Pass(tree: map<Path, Node>, notified: seq<string>, error: Option<OsError>, stop: bool, seen: nat)

  /** The four entries of the video linked as `name` in season `w`. */
  function SpotOf(cfg: Config, w: Season, name: string): Spot {
    VideoSpot(cfg, w.chan, w.name, name)
  }

  /** The entries an item may change. */
  function JobPaths(cfg: Config, w: Season, job: Job): set<Path> {
    match job
    case Unlink(name) => {SpotOf(cfg, w, name).link}
    case Visit(name, _) => SpotPaths(SpotOf(cfg, w, name))
    case Skip => {}
  }

  /** What the loop body around `process_video` leaves, `doc` being the
      video's `.nfo` document: the video and its sidecars for a new link,
      and a notification for it when enabled; on
      `FileExistsError` a QUICK stop, or else the poster link refreshed. */
  function VisitEffect(cfg: Config, m: map<Path, Node>, n: seq<string>, w: Season, name: string,
                       v: Video, doc: string): (r: Step)
    ensures r.stop ==> cfg.quick && r.error == None
    ensures r.notified == n || (cfg.notificationsEnabled && r.notified == n + [v.youtubeId])
  {
    var s := SpotOf(cfg, w, name);
    var p := ProcessVideoEffect(cfg, m, s, v, doc);
    var sent := if cfg.notificationsEnabled && SymlinkOutcome(m, s.link) == Created then n + [v.youtubeId] else n;
    if p.error != Some(FileExists) then Step(p.tree, sent, p.error, false)
    else if cfg.quick then Step(p.tree, sent, None, true)
    else
      var t := VideoThumbEffect(cfg, p.tree, s, LocalMedia(v));
      Step(t.tree, sent, t.error, false)
  }

  /** A visit changes only the video's four entries, and drops none. */
  lemma VisitFrame(cfg: Config, m: map<Path, Node>, n: seq<string>, w: Season, name: string, v: Video, doc: string)
    ensures var r := VisitEffect(cfg, m, n, w, name, v, doc);
      (forall q :: q !in SpotPaths(SpotOf(cfg, w, name)) ==> Agree(m, r.tree, q)) &&
      (forall q :: q in m ==> q in r.tree)
  {
  }

  /** What one item leaves. A stale link is removed only when it still
      leads somewhere. */
  function JobEffect(cfg: Config, m: map<Path, Node>, n: seq<string>, w: Season, job: Job, doc: string): (r: Step)
    ensures r.stop ==> cfg.quick && r.error == None && job.Visit?
    ensures !job.Visit? ==> r.notified == n
  {
    match job
    case Skip => Step(m, n, None, false)
    case Unlink(name) =>
      var p := SpotOf(cfg, w, name).link;
      if !Exists(m, p) then Step(m, n, None, false)
      else
        var e := RemoveOutcome(m, p);
        Step(if e == None then m - {p} else m, n, e, false)
    case Visit(name, v) => VisitEffect(cfg, m, n, w, name, v, doc)
  }

  /** Only the item's own entries change, and only an unlink drops an
      entry. */
  lemma JobFrame(cfg: Config, m: map<Path, Node>, n: seq<string>, w: Season, job: Job, doc: string)
    ensures var r := JobEffect(cfg, m, n, w, job, doc);
      (forall q :: q !in JobPaths(cfg, w, job) ==> Agree(m, r.tree, q)) &&
      (forall q :: q in m && !(job.Unlink? && q == SpotOf(cfg, w, job.name).link) ==> q in r.tree)
  {
    if job.Visit? {
      VisitFrame(cfg, m, n, w, job.name, job.video, doc);
    }
  }

  /** What a pass leaves from item `i` on, `docs[k]` being the `.nfo`
      document of item `k`: the pass ends at the first exception or QUICK
      stop, and nothing outside the season folder changes. */
  function JobsFrom(cfg: Config, w: Season, jobs: seq<Job>, docs: seq<string>, i: nat,
                    m: map<Path, Node>, n: seq<string>): (r: Pass)
    requires i <= |jobs| == |docs|
    ensures i <= r.seen <= |jobs|
    ensures r.error == None && !r.stop ==> r.seen == |jobs|
    ensures r.stop ==> cfg.quick && r.error == None && i < r.seen && jobs[r.seen - 1].Visit?
    decreases |jobs| - i, 1
  {
    if i == |jobs| then Pass(m, n, None, false, i)
    else JobsAt(cfg, w, jobs, docs, i, m, n)
  }

  /** A pass from item `i`, an item being there: the item's effect, then,
      unless it raised or stopped, the pass from `i + 1`. */
  function JobsAt(cfg: Config, w: Season, jobs: seq<Job>, docs: seq<string>, i: nat,
                  m: map<Path, Node>, n: seq<string>): (r: Pass)
    requires i < |jobs| == |docs|
    ensures i < r.seen <= |jobs|
    ensures r.error == None && !r.stop ==> r.seen == |jobs|
    ensures r.stop ==> cfg.quick && r.error == None && jobs[r.seen - 1].Visit?
    decreases |jobs| - i, 0
  {
    var s := JobEffect(cfg, m, n, w, jobs[i], docs[i]);
    if s.error.Some? || s.stop then Pass(s.tree, s.notified, s.error, s.stop, i + 1)
    else JobsFrom(cfg, w, jobs, docs, i + 1, s.tree, s.notified)
  }

  /** One item of a pass: the pass from item `i` is the item's effect
      followed, unless it raised or stopped, by the pass from `i + 1`. */
  lemma JobsNext(cfg: Config, w: Season, jobs: seq<Job>, docs: seq<string>, i: nat, m: map<Path, Node>, n: seq<string>)
    requires i < |jobs| == |docs|
    ensures var s := JobEffect(cfg, m, n, w, jobs[i], docs[i]);
      JobsFrom(cfg, w, jobs, docs, i, m, n) ==
      if s.error.Some? || s.stop then Pass(s.tree, s.notified, s.error, s.stop, i + 1)
      else JobsFrom(cfg, w, jobs, docs, i + 1, s.tree, s.notified)
  {
  }

  /** A pass only adds notifications, at most one per visited item, and
      none when notifications are off. */
  lemma {:induction false} JobsNotified(cfg: Config, w: Season, jobs: seq<Job>, docs: seq<string>, i: nat,
                                        m: map<Path, Node>, n: seq<string>)
    requires i <= |jobs| == |docs|
    ensures var r := JobsFrom(cfg, w, jobs, docs, i, m, n);
      n <= r.notified && |r.notified| + Visits(jobs, i) <= |n| + Visits(jobs, |jobs|) &&
      (!cfg.notificationsEnabled ==> r.notified == n)
    decreases |jobs| - i, 1
  {
    if i < |jobs| {
      var s := JobEffect(cfg, m, n, w, jobs[i], docs[i]);
      JobsNext(cfg, w, jobs, docs, i, m, n);
      JobNotified(cfg, m, n, w, jobs[i], docs[i]);
      NotifiedOn(cfg, w, jobs, docs, i, n, s);
    }
  }

  /** An item adds at most one notification, and only a visit adds one. */
  lemma JobNotified(cfg: Config, m: map<Path, Node>, n: seq<string>, w: Season, job: Job, doc: string)
    ensures var r := JobEffect(cfg, m, n, w, job, doc);
      n <= r.notified && |r.notified| <= |n| + (if job.Visit? then 1 else 0) &&
      (!cfg.notificationsEnabled ==> r.notified == n)
  {
  }

  /** The rest of a pass after item `i` left `s`. */
  lemma NotifiedOn(cfg: Config, w: Season, jobs: seq<Job>, docs: seq<string>, i: nat, n: seq<string>, s: Step)
    requires i < |jobs| == |docs|
    requires n <= s.notified && |s.notified| <= |n| + (if jobs[i].Visit? then 1 else 0)
    requires !cfg.notificationsEnabled ==> s.notified == n
    ensures var r := if s.error.Some? || s.stop then Pass(s.tree, s.notified, s.error, s.stop, i + 1)
                     else JobsFrom(cfg, w, jobs, docs, i + 1, s.tree, s.notified);
      n <= r.notified && |r.notified| + Visits(jobs, i) <= |n| + Visits(jobs, |jobs|) &&
      (!cfg.notificationsEnabled ==> r.notified == n)
    decreases |jobs| - i, 0
  {
    if !(s.error.Some? || s.stop) {
      JobsNotified(cfg, w, jobs, docs, i + 1, s.tree, s.notified);
    }
    VisitsGrow(jobs, i + 1, |jobs|);
  }

  lemma {:induction false} VisitsGrow(jobs: seq<Job>, i: nat, j: nat)
    requires i <= j <= |jobs|
    ensures Visits(jobs, i) <= Visits(jobs, j)
    decreases j - i
  {
    if i < j {
      VisitsGrow(jobs, i, j - 1);
    }
  }

  /** The number of visits among the first `k` items. */
  function Visits(jobs: seq<Job>, k: nat): (c: nat)
    requires k <= |jobs|
    ensures c <= k
  {
    if k == 0 then 0 else Visits(jobs, k - 1) + (if jobs[k - 1].Visit? then 1 else 0)
  }

  /** The `.nfo` document of an item visited as episode `num` of season
      `w`. */
  function ItemDoc(cfg: Config, w: Season, job: Job, num: nat): string {
    if job.Visit? then NewVideoDoc(cfg, w.chan, w.name, job.name, job.video, num, w.num) else ""
  }

  /** The `.nfo` documents of a pass: visits are numbered from 1 in list
      order. */
  function Docs(cfg: Config, w: Season, jobs: seq<Job>): (r: seq<string>)
    ensures |r| == |jobs|
  {
    seq(|jobs|, k requires 0 <= k < |jobs| => ItemDoc(cfg, w, jobs[k], Visits(jobs, k + 1)))
  }

  /** What a whole pass leaves. */
  function PassEffect(cfg: Config, w: Season, jobs: seq<Job>, m: map<Path, Node>, n: seq<string>): (r: Pass)
    ensures r.seen <= |jobs|
    ensures r.error == None && !r.stop ==> r.seen == |jobs|
    ensures r.stop ==> cfg.quick && r.error == None && 0 < r.seen && jobs[r.seen - 1].Visit?
  {
    JobsFrom(cfg, w, jobs, Docs(cfg, w, jobs), 0, m, n)
  }

  // Lemmas about a pass.

  /** An entry that no item from `i` on may change is as it was. */
  lemma {:induction false} JobsFrame(cfg: Config, w: Season, jobs: seq<Job>, docs: seq<string>, i: nat,
                                     m: map<Path, Node>, n: seq<string>, q: Path)
    requires i <= |jobs| == |docs|
    requires forall l :: i <= l < |jobs| ==> q !in JobPaths(cfg, w, jobs[l])
    ensures Agree(m, JobsFrom(cfg, w, jobs, docs, i, m, n).tree, q)
    decreases |jobs| - i
  {
    if i < |jobs| {
      var s := JobEffect(cfg, m, n, w, jobs[i], docs[i]);
      JobFrame(cfg, m, n, w, jobs[i], docs[i]);
      if !(s.error.Some? || s.stop) {
        JobsFrame(cfg, w, jobs, docs, i + 1, s.tree, s.notified, q);
      }
    }
  }

  /** Nothing outside the season folder changes. */
  lemma JobsOutside(cfg: Config, w: Season, jobs: seq<Job>, docs: seq<string>, i: nat,
                    m: map<Path, Node>, n: seq<string>, q: Path)
    requires i <= |jobs| == |docs| && !IsPrefix(SplitPath(PlaylistDir(cfg, w.chan, w.name)), q)
    ensures Agree(m, JobsFrom(cfg, w, jobs, docs, i, m, n).tree, q)
  {
    forall l | i <= l < |jobs|
      ensures q !in JobPaths(cfg, w, jobs[l])
    {
      if !jobs[l].Skip? {
        var _ := VideoSpot(cfg, w.chan, w.name, jobs[l].name);
      }
    }
    JobsFrame(cfg, w, jobs, docs, i, m, n, q);
  }

  /** An entry that no later item unlinks stays. */
  lemma {:induction false} JobsKeep(cfg: Config, w: Season, jobs: seq<Job>, docs: seq<string>, i: nat,
                                    m: map<Path, Node>, n: seq<string>, q: Path)
    requires i <= |jobs| == |docs| && q in m
    requires forall l :: i <= l < |jobs| && jobs[l].Unlink? ==> SpotOf(cfg, w, jobs[l].name).link != q
    ensures q in JobsFrom(cfg, w, jobs, docs, i, m, n).tree
    decreases |jobs| - i
  {
    if i < |jobs| {
      var s := JobEffect(cfg, m, n, w, jobs[i], docs[i]);
      JobFrame(cfg, m, n, w, jobs[i], docs[i]);
      if !(s.error.Some? || s.stop) {
        JobsKeep(cfg, w, jobs, docs, i + 1, s.tree, s.notified, q);
      }
    }
  }

  /** A new video, visited without an exception escaping, is on disk: the
      link into the media folder, the poster link into the cache, the
      `.nfo` holding `doc`, and any entry that appeared at the subtitle
      path is the subtitle link. */
  lemma NewVideoVisited(cfg: Config, m: map<Path, Node>, n: seq<string>, w: Season, name: string, v: Video, doc: string)
    requires SidecarsApart(SpotOf(cfg, w, name)) && SpotOf(cfg, w, name).link !in m
    requires VisitEffect(cfg, m, n, w, name, v, doc).error == None
    ensures var s := SpotOf(cfg, w, name);
      var r := VisitEffect(cfg, m, n, w, name, v, doc).tree;
      s.link in r && r[s.link] == Link(MediaTarget(cfg, v)) &&
      (cfg.cache != "" ==> s.poster in r && r[s.poster] == Link(CachePath(cfg, v.vidThumbUrl))) &&
      (cfg.generateNfo ==> s.nfo in r && r[s.nfo] == File(doc)) &&
      (s.sub in r && s.sub !in m ==> cfg.symlinkSubs && r[s.sub] == Link(SubtitleSource(cfg, LocalMedia(v))))
  {
    var s := SpotOf(cfg, w, name);
    var p := ProcessVideoEffect(cfg, m, s, v, doc);
    NewVideoOnDisk(cfg, m, s, v, doc);
    if p.error == Some(FileExists) && !cfg.quick {
      var t := VideoThumbEffect(cfg, p.tree, s, LocalMedia(v));
      assert Agree(p.tree, t.tree, s.link);
      assert Agree(p.tree, t.tree, s.nfo);
      assert Agree(p.tree, t.tree, s.sub);
    }
  }

  /** A visit that lets no exception escape leaves the video link. */
  lemma VisitLink(cfg: Config, m: map<Path, Node>, n: seq<string>, w: Season, name: string, v: Video, doc: string)
    requires SidecarsApart(SpotOf(cfg, w, name))
    requires VisitEffect(cfg, m, n, w, name, v, doc).error == None
    ensures SpotOf(cfg, w, name).link in VisitEffect(cfg, m, n, w, name, v, doc).tree
  {
    VideoLinkAfter(cfg, m, SpotOf(cfg, w, name), v, doc);
  }

  /** A QUICK stop: the video link, or with subtitle links enabled the
      subtitle link, was there before the visit. */
  lemma VisitStop(cfg: Config, m: map<Path, Node>, n: seq<string>, w: Season, name: string, v: Video, doc: string)
    requires SidecarsApart(SpotOf(cfg, w, name))
    requires VisitEffect(cfg, m, n, w, name, v, doc).stop
    ensures var s := SpotOf(cfg, w, name); s.link in m || (cfg.symlinkSubs && s.sub in m)
  {
    AlreadyThere(cfg, m, SpotOf(cfg, w, name), v, doc);
  }

  /** Every video the pass visited, except one whose visit raised, has its
      link afterwards, unless a later item unlinks the same path. */
  lemma {:induction false} JobsLinks(cfg: Config, w: Season, jobs: seq<Job>, docs: seq<string>, i: nat,
                                     m: map<Path, Node>, n: seq<string>, j: nat)
    requires i <= j < |jobs| == |docs| && jobs[j].Visit? && SidecarsApart(SpotOf(cfg, w, jobs[j].name))
    requires forall l :: j < l < |jobs| && jobs[l].Unlink? ==> SpotOf(cfg, w, jobs[l].name).link != SpotOf(cfg, w, jobs[j].name).link
    ensures var r := JobsFrom(cfg, w, jobs, docs, i, m, n);
      j < r.seen && (j + 1 < r.seen || r.error == None) ==> SpotOf(cfg, w, jobs[j].name).link in r.tree
    decreases |jobs| - i
  {
    var s := JobEffect(cfg, m, n, w, jobs[i], docs[i]);
    if s.error.Some? || s.stop {
      if i == j && s.error == None {
        VisitLink(cfg, m, n, w, jobs[j].name, jobs[j].video, docs[j]);
      }
    } else if i < j {
      JobsLinks(cfg, w, jobs, docs, i + 1, s.tree, s.notified, j);
    } else {
      VisitLink(cfg, m, n, w, jobs[j].name, jobs[j].video, docs[j]);
      JobsKeep(cfg, w, jobs, docs, i + 1, s.tree, s.notified, SpotOf(cfg, w, jobs[j].name).link);
    }
  }

  /** The `.nfo` of a video that was new when the pass reached it holds its
      document, unless a later item may change that entry. */
  lemma {:induction false} JobsNfo(cfg: Config, w: Season, jobs: seq<Job>, docs: seq<string>, i: nat,
                                   m: map<Path, Node>, n: seq<string>, j: nat)
    requires i <= j < |jobs| == |docs| && jobs[j].Visit? && SidecarsApart(SpotOf(cfg, w, jobs[j].name)) && cfg.generateNfo
    requires SpotOf(cfg, w, jobs[j].name).link !in m
    requires forall l :: i <= l < j ==> SpotOf(cfg, w, jobs[j].name).link !in JobPaths(cfg, w, jobs[l])
    requires forall l :: j < l < |jobs| ==> SpotOf(cfg, w, jobs[j].name).nfo !in JobPaths(cfg, w, jobs[l])
    ensures var r := JobsFrom(cfg, w, jobs, docs, i, m, n);
      var s := SpotOf(cfg, w, jobs[j].name);
      j < r.seen && (j + 1 < r.seen || r.error == None) ==> s.nfo in r.tree && r.tree[s.nfo] == File(docs[j])
    decreases |jobs| - i
  {
    var s := JobEffect(cfg, m, n, w, jobs[i], docs[i]);
    if s.error.Some? || s.stop {
      if i == j && s.error == None {
        NewVideoVisited(cfg, m, n, w, jobs[j].name, jobs[j].video, docs[j]);
      }
    } else if i < j {
      JobFrame(cfg, m, n, w, jobs[i], docs[i]);
      assert Agree(m, s.tree, SpotOf(cfg, w, jobs[j].name).link);
      JobsNfo(cfg, w, jobs, docs, i + 1, s.tree, s.notified, j);
    } else {
      NewVideoVisited(cfg, m, n, w, jobs[j].name, jobs[j].video, docs[j]);
      JobsFrame(cfg, w, jobs, docs, i + 1, s.tree, s.notified, SpotOf(cfg, w, jobs[j].name).nfo);
    }
  }

  /** Where a QUICK stop can happen: at a video whose link (or, with
      subtitle links enabled, subtitle link) was there before the pass, or
      was made by an earlier item of the same pass. */
  predicate StoppedAt(cfg: Config, w: Season, jobs: seq<Job>, i: nat, k: nat, m: map<Path, Node>)
    requires i <= k < |jobs|
  {
    jobs[k].Visit? &&
    var s := SpotOf(cfg, w, jobs[k].name);
    s.link in m || (cfg.symlinkSubs && s.sub in m) ||
    TouchedBetween(cfg, w, jobs, i, k, s.link) || TouchedBetween(cfg, w, jobs, i, k, s.sub)
  }

  /** Whether an item from `i` up to, not including, `k` may change `p`. */
  predicate TouchedBetween(cfg: Config, w: Season, jobs: seq<Job>, i: nat, k: nat, p: Path)
    requires i <= k <= |jobs|
    decreases k - i
  {
    i < k && (p in JobPaths(cfg, w, jobs[i]) || TouchedBetween(cfg, w, jobs, i + 1, k, p))
  }

  /** The entries of each video visited from item `i` on are distinct. */
  predicate VisitsApart(cfg: Config, w: Season, jobs: seq<Job>, i: nat)
    requires i <= |jobs|
    decreases |jobs| - i
  {
    i < |jobs| ==> (jobs[i].Visit? ==> SidecarsApart(SpotOf(cfg, w, jobs[i].name))) && VisitsApart(cfg, w, jobs, i + 1)
  }

  /** A QUICK stop happens only where `StoppedAt` allows it. */
  lemma {:induction false} JobsQuick(cfg: Config, w: Season, jobs: seq<Job>, docs: seq<string>, i: nat,
                                     m: map<Path, Node>, n: seq<string>)
    requires i <= |jobs| == |docs| && VisitsApart(cfg, w, jobs, i)
    ensures var r := JobsFrom(cfg, w, jobs, docs, i, m, n);
      r.stop ==> StoppedAt(cfg, w, jobs, i, r.seen - 1, m)
    decreases |jobs| - i, 1
  {
    if i < |jobs| {
      var s := JobEffect(cfg, m, n, w, jobs[i], docs[i]);
      JobsNext(cfg, w, jobs, docs, i, m, n);
      if s.stop {
        JobStop(cfg, w, jobs, docs, i, m, n);
      } else if s.error == None {
        QuickOn(cfg, w, jobs, docs, i, m, n);
      }
    }
  }

  /** A stop after item `i` of the pass over `m` is one `StoppedAt`
      allows from `i` on. */
  lemma QuickOn(cfg: Config, w: Season, jobs: seq<Job>, docs: seq<string>, i: nat,
                m: map<Path, Node>, n: seq<string>)
    requires i < |jobs| == |docs| && VisitsApart(cfg, w, jobs, i + 1)
    ensures var s := JobEffect(cfg, m, n, w, jobs[i], docs[i]);
      var r := JobsFrom(cfg, w, jobs, docs, i + 1, s.tree, s.notified);
      r.stop ==> StoppedAt(cfg, w, jobs, i, r.seen - 1, m)
    decreases |jobs| - i, 0
  {
    var s := JobEffect(cfg, m, n, w, jobs[i], docs[i]);
    JobFrame(cfg, m, n, w, jobs[i], docs[i]);
    JobsQuick(cfg, w, jobs, docs, i + 1, s.tree, s.notified);
    var r := JobsFrom(cfg, w, jobs, docs, i + 1, s.tree, s.notified);
    if r.stop {
      QuickShift(cfg, w, jobs, i, r.seen - 1, m, s.tree);
    }
  }

  /** An item that stops the pass is a visit `StoppedAt` allows. */
  lemma JobStop(cfg: Config, w: Season, jobs: seq<Job>, docs: seq<string>, i: nat, m: map<Path, Node>, n: seq<string>)
    requires i < |jobs| == |docs| && jobs[i].Visit? && SidecarsApart(SpotOf(cfg, w, jobs[i].name))
    requires JobEffect(cfg, m, n, w, jobs[i], docs[i]).stop
    ensures StoppedAt(cfg, w, jobs, i, i, m)
  {
    VisitStop(cfg, m, n, w, jobs[i].name, jobs[i].video, docs[i]);
  }

  /** `StoppedAt` after item `i` is `StoppedAt` before it, counting item
      `i` among the earlier ones. */
  lemma QuickShift(cfg: Config, w: Season, jobs: seq<Job>, i: nat, k: nat, m: map<Path, Node>, t: map<Path, Node>)
    requires i < k < |jobs| && jobs[k].Visit?
    requires forall q :: q !in JobPaths(cfg, w, jobs[i]) ==> Agree(m, t, q)
    requires StoppedAt(cfg, w, jobs, i + 1, k, t)
    ensures StoppedAt(cfg, w, jobs, i, k, m)
  {
    var s := SpotOf(cfg, w, jobs[k].name);
    if s.link in JobPaths(cfg, w, jobs[i]) || s.sub in JobPaths(cfg, w, jobs[i]) {
    } else {
      assert Agree(m, t, s.link) && Agree(m, t, s.sub);
    }
  }

  /** The items of a pass apart from each other's video entries: then each
      visited video has four distinct entries. */
  lemma {:induction false} ApartFrom(cfg: Config, w: Season, jobs: seq<Job>, i: nat)
    requires i <= |jobs|
    requires forall k :: i <= k < |jobs| && jobs[k].Visit? ==> SidecarsApart(SpotOf(cfg, w, jobs[k].name))
    ensures VisitsApart(cfg, w, jobs, i)
    decreases |jobs| - i
  {
    if i < |jobs| {
      ApartFrom(cfg, w, jobs, i + 1);
    }
  }

  // ---------------------------------------------------------------------
  // The "Videos" pass and the playlist passes as lists of items.

  /** The name of a video's link in the "Videos" season. */
  function VideoName(cfg: Config, v: Video): string {
    VideoSymlinkName(cfg.isWord, VideoChannelLabel(v), v.published, v.youtubeId)
  }

  /** In the "Videos" pass a video assigned to a playlist only loses its
      stale link; any other video is visited. */
  function VideoJob(cfg: Config, v: Video): Job {
    if IsUnassigned(v) then Visit(VideoName(cfg, v), v) else Unlink(VideoName(cfg, v))
  }

  function VideosJobs(cfg: Config, videos: seq<Video>): (r: seq<Job>)
    ensures |r| == |videos|
  {
    seq(|videos|, k requires 0 <= k < |videos| => VideoJob(cfg, videos[k]))
  }

  /** In a playlist pass an entry the server knows is visited under its
      own link name; an unknown entry is skipped. */
  function EntryJob(cfg: Config, byId: map<string, Video>, id: string): Job {
    if id in byId
    then Visit(VideoSymlinkName(cfg.isWord, VideoChannelLabel(byId[id]), byId[id].published, id), byId[id])
    else Skip
  }

  function EntriesJobs(cfg: Config, byId: map<string, Video>, ids: seq<string>): (r: seq<Job>)
    ensures |r| == |ids|
  {
    seq(|ids|, k requires 0 <= k < |ids| => EntryJob(cfg, byId, ids[k]))
  }

  /** The "Videos" pass numbers exactly the unassigned videos. */
  lemma {:induction false} VideosVisitCount(cfg: Config, videos: seq<Video>, j: nat)
    requires j <= |videos|
    ensures Visits(VideosJobs(cfg, videos), j) == |UnassignedIds(videos[..j])|
    decreases j
  {
    if j > 0 {
      var jobs := VideosJobs(cfg, videos);
      VideosVisitCount(cfg, videos, j - 1);
      UnassignedStep(videos, j - 1);
      VideosJobVisit(cfg, videos, j - 1);
      assert Visits(jobs, j) == Visits(jobs, j - 1) + (if jobs[j - 1].Visit? then 1 else 0);
    }
  }

  lemma VideosJobVisit(cfg: Config, videos: seq<Video>, i: nat)
    requires i < |videos|
    ensures VideosJobs(cfg, videos)[i].Visit? <==> IsUnassigned(videos[i])
  {
    assert VideosJobs(cfg, videos)[i] == VideoJob(cfg, videos[i]);
  }

  /** A playlist pass numbers exactly the entries the server knows. */
  lemma {:induction false} EntriesVisitCount(cfg: Config, byId: map<string, Video>, ids: seq<string>, j: nat)
    requires j <= |ids|
    ensures Visits(EntriesJobs(cfg, byId, ids), j) == |KnownEntries(ids[..j], byId)|
    decreases j
  {
    if j > 0 {
      var jobs := EntriesJobs(cfg, byId, ids);
      EntriesVisitCount(cfg, byId, ids, j - 1);
      KnownStep(ids, byId, j - 1);
      EntriesJobVisit(cfg, byId, ids, j - 1);
      assert Visits(jobs, j) == Visits(jobs, j - 1) + (if jobs[j - 1].Visit? then 1 else 0);
    }
  }

  lemma EntriesJobVisit(cfg: Config, byId: map<string, Video>, ids: seq<string>, i: nat)
    requires i < |ids|
    ensures EntriesJobs(cfg, byId, ids)[i].Visit? <==> ids[i] in byId
  {
    assert EntriesJobs(cfg, byId, ids)[i] == EntryJob(cfg, byId, ids[i]);
  }

  lemma PassQuick(cfg: Config, w: Season, jobs: seq<Job>, m: map<Path, Node>, n: seq<string>)
    requires VisitsApart(cfg, w, jobs, 0)
    ensures var r := PassEffect(cfg, w, jobs, m, n);
      r.stop ==> StoppedAt(cfg, w, jobs, 0, r.seen - 1, m)
  {
    JobsQuick(cfg, w, jobs, Docs(cfg, w, jobs), 0, m, n);
  }

  lemma PassNfo(cfg: Config, w: Season, jobs: seq<Job>, m: map<Path, Node>, n: seq<string>, j: nat)
    requires j < |jobs| && jobs[j].Visit? && SidecarsApart(SpotOf(cfg, w, jobs[j].name)) && cfg.generateNfo
    requires SpotOf(cfg, w, jobs[j].name).link !in m
    requires forall l :: 0 <= l < j ==> SpotOf(cfg, w, jobs[j].name).link !in JobPaths(cfg, w, jobs[l])
    requires forall l :: j < l < |jobs| ==> SpotOf(cfg, w, jobs[j].name).nfo !in JobPaths(cfg, w, jobs[l])
    ensures var r := PassEffect(cfg, w, jobs, m, n);
      var s := SpotOf(cfg, w, jobs[j].name);
      j < r.seen && (j + 1 < r.seen || r.error == None) ==>
        s.nfo in r.tree && r.tree[s.nfo] == File(ItemDoc(cfg, w, jobs[j], Visits(jobs, j + 1)))
  {
    JobsNfo(cfg, w, jobs, Docs(cfg, w, jobs), 0, m, n, j);
    DocAt(cfg, w, jobs, j);
  }

  lemma DocAt(cfg: Config, w: Season, jobs: seq<Job>, j: nat)
    requires j < |jobs|
    ensures Docs(cfg, w, jobs)[j] == ItemDoc(cfg, w, jobs[j], Visits(jobs, j + 1))
  {
  }

  lemma VideosApart(cfg: Config, chanName: string, videos: seq<Video>)
    requires forall k :: 0 <= k < |videos| && IsUnassigned(videos[k]) ==>
      SidecarsApart(SpotOf(cfg, VideosSeason(chanName), VideoName(cfg, videos[k])))
    ensures VisitsApart(cfg, VideosSeason(chanName), VideosJobs(cfg, videos), 0)
  {
    var jobs := VideosJobs(cfg, videos);
    forall k | 0 <= k < |jobs| && jobs[k].Visit?
      ensures SidecarsApart(SpotOf(cfg, VideosSeason(chanName), jobs[k].name))
    {
      assert jobs[k] == VideoJob(cfg, videos[k]);
    }
    ApartFrom(cfg, VideosSeason(chanName), jobs, 0);
  }

  lemma EntriesApart(cfg: Config, byId: map<string, Video>, w: Season, ids: seq<string>)
    requires forall k :: 0 <= k < |ids| && ids[k] in byId ==> SidecarsApart(SpotOf(cfg, w, EntryJob(cfg, byId, ids[k]).name))
    ensures VisitsApart(cfg, w, EntriesJobs(cfg, byId, ids), 0)
  {
    var jobs := EntriesJobs(cfg, byId, ids);
    forall k | 0 <= k < |jobs| && jobs[k].Visit?
      ensures SidecarsApart(SpotOf(cfg, w, jobs[k].name))
    {
      assert jobs[k] == EntryJob(cfg, byId, ids[k]);
    }
    ApartFrom(cfg, w, jobs, 0);
  }

  /** The `i`-th item of the "Videos" pass, and how it counts. */
  lemma VideosItem(cfg: Config, videos: seq<Video>, i: nat)
    requires i < |videos|
    ensures VideosJobs(cfg, videos)[i] == VideoJob(cfg, videos[i])
    ensures var jobs := VideosJobs(cfg, videos);
      Visits(jobs, i + 1) == Visits(jobs, i) + (if IsUnassigned(videos[i]) then 1 else 0)
  {
  }

  /** The `i`-th item of a playlist pass, and how it counts. */
  lemma EntryItem(cfg: Config, byId: map<string, Video>, ids: seq<string>, i: nat)
    requires i < |ids|
    ensures EntriesJobs(cfg, byId, ids)[i] == EntryJob(cfg, byId, ids[i])
    ensures var jobs := EntriesJobs(cfg, byId, ids);
      Visits(jobs, i + 1) == Visits(jobs, i) + (if ids[i] in byId then 1 else 0)
  {
  }

  /** What the "Videos" pass over `videos` leaves. */
  function VideosPassEffect(cfg: Config, chanName: string, videos: seq<Video>, m: map<Path, Node>, n: seq<string>): Pass {
    PassEffect(cfg, VideosSeason(chanName), VideosJobs(cfg, videos), m, n)
  }

  /** What the pass over a playlist's entries leaves, in season `w`. */
  function PlaylistPassEffect(cfg: Config, byId: map<string, Video>, w: Season, ids: seq<string>,
                              m: map<Path, Node>, n: seq<string>): Pass {
    PassEffect(cfg, w, EntriesJobs(cfg, byId, ids), m, n)
  }

  /** After the "Videos" pass every unassigned video it reached has its
      link, unless its own visit raised or a later assigned video's stale
      link is the same path. */
  lemma VideosPassLinks(cfg: Config, chanName: string, videos: seq<Video>, m: map<Path, Node>, n: seq<string>, j: nat)
    requires j < |videos| && IsUnassigned(videos[j])
    requires SidecarsApart(SpotOf(cfg, VideosSeason(chanName), VideoName(cfg, videos[j])))
    requires forall l :: j < l < |videos| && !IsUnassigned(videos[l]) ==>
      SpotOf(cfg, VideosSeason(chanName), VideoName(cfg, videos[l])).link != SpotOf(cfg, VideosSeason(chanName), VideoName(cfg, videos[j])).link
    ensures var r := VideosPassEffect(cfg, chanName, videos, m, n);
      j < r.seen && (j + 1 < r.seen || r.error == None) ==>
        SpotOf(cfg, VideosSeason(chanName), VideoName(cfg, videos[j])).link in r.tree
  {
    var jobs := VideosJobs(cfg, videos);
    JobsLinks(cfg, VideosSeason(chanName), jobs, Docs(cfg, VideosSeason(chanName), jobs), 0, m, n, j);
  }

  /** A new unassigned video's `.nfo` after the "Videos" pass is episode
      `k` of season 1, `k` being its position among the unassigned videos,
      unless another item of the pass may change its entries. */
  lemma VideosPassNfo(cfg: Config, chanName: string, videos: seq<Video>, m: map<Path, Node>, n: seq<string>, j: nat)
    requires j < |videos| && IsUnassigned(videos[j]) && cfg.generateNfo
    requires var s := SpotOf(cfg, VideosSeason(chanName), VideoName(cfg, videos[j]));
      SidecarsApart(s) && s.link !in m &&
      (forall l :: 0 <= l < j ==> s.link !in JobPaths(cfg, VideosSeason(chanName), VideoJob(cfg, videos[l]))) &&
      (forall l :: j < l < |videos| ==> s.nfo !in JobPaths(cfg, VideosSeason(chanName), VideoJob(cfg, videos[l])))
    ensures var r := VideosPassEffect(cfg, chanName, videos, m, n);
      var v := videos[j];
      var s := SpotOf(cfg, VideosSeason(chanName), VideoName(cfg, v));
      j < r.seen && (j + 1 < r.seen || r.error == None) ==>
        s.nfo in r.tree &&
        r.tree[s.nfo] == File(NewVideoDoc(cfg, chanName, "Videos", VideoName(cfg, v), v, |UnassignedIds(videos[..j + 1])|, 1))
  {
    VideosNfoApart(cfg, chanName, videos, j);
    PassNfo(cfg, VideosSeason(chanName), VideosJobs(cfg, videos), m, n, j);
    VideosNfoDoc(cfg, chanName, videos, j);
  }

  lemma VideosNfoApart(cfg: Config, chanName: string, videos: seq<Video>, j: nat)
    requires j < |videos| && IsUnassigned(videos[j])
    requires var s := SpotOf(cfg, VideosSeason(chanName), VideoName(cfg, videos[j]));
      (forall l :: 0 <= l < j ==> s.link !in JobPaths(cfg, VideosSeason(chanName), VideoJob(cfg, videos[l]))) &&
      (forall l :: j < l < |videos| ==> s.nfo !in JobPaths(cfg, VideosSeason(chanName), VideoJob(cfg, videos[l])))
    ensures var jobs := VideosJobs(cfg, videos);
      jobs[j] == Visit(VideoName(cfg, videos[j]), videos[j]) &&
      (forall l :: 0 <= l < j ==> SpotOf(cfg, VideosSeason(chanName), jobs[j].name).link !in JobPaths(cfg, VideosSeason(chanName), jobs[l])) &&
      (forall l :: j < l < |jobs| ==> SpotOf(cfg, VideosSeason(chanName), jobs[j].name).nfo !in JobPaths(cfg, VideosSeason(chanName), jobs[l]))
  {
    var w := VideosSeason(chanName);
    var jobs := VideosJobs(cfg, videos);
    var s := SpotOf(cfg, w, VideoName(cfg, videos[j]));
    assert jobs[j] == Visit(VideoName(cfg, videos[j]), videos[j]);
    forall l | 0 <= l < j
      ensures s.link !in JobPaths(cfg, w, jobs[l])
    {
      assert jobs[l] == VideoJob(cfg, videos[l]);
    }
    forall l | j < l < |jobs|
      ensures s.nfo !in JobPaths(cfg, w, jobs[l])
    {
      assert jobs[l] == VideoJob(cfg, videos[l]);
    }
  }

  lemma VideosNfoDoc(cfg: Config, chanName: string, videos: seq<Video>, j: nat)
    requires j < |videos| && IsUnassigned(videos[j])
    ensures var jobs := VideosJobs(cfg, videos);
      var v := videos[j];
      ItemDoc(cfg, VideosSeason(chanName), jobs[j], Visits(jobs, j + 1)) ==
      NewVideoDoc(cfg, chanName, "Videos", VideoName(cfg, v), v, |UnassignedIds(videos[..j + 1])|, 1)
  {
    VideosVisitCount(cfg, videos, j + 1);
    assert VideosJobs(cfg, videos)[j] == Visit(VideoName(cfg, videos[j]), videos[j]);
  }

  /** A QUICK stop of the "Videos" pass happens at an unassigned video. */
  lemma VideosPassStop(cfg: Config, chanName: string, videos: seq<Video>, m: map<Path, Node>, n: seq<string>)
    ensures var r := VideosPassEffect(cfg, chanName, videos, m, n);
      r.stop ==> cfg.quick && r.error == None && IsUnassigned(videos[r.seen - 1])
  {
    var r := VideosPassEffect(cfg, chanName, videos, m, n);
    if r.stop {
      VideosItem(cfg, videos, r.seen - 1);
    }
  }

  /** A QUICK stop of the "Videos" pass happens where `StoppedAt` allows
      it. */
  lemma VideosPassQuick(cfg: Config, chanName: string, videos: seq<Video>, m: map<Path, Node>, n: seq<string>)
    requires forall k :: 0 <= k < |videos| && IsUnassigned(videos[k]) ==>
      SidecarsApart(SpotOf(cfg, VideosSeason(chanName), VideoName(cfg, videos[k])))
    ensures var r := VideosPassEffect(cfg, chanName, videos, m, n);
      r.stop ==> StoppedAt(cfg, VideosSeason(chanName), VideosJobs(cfg, videos), 0, r.seen - 1, m)
  {
    var w := VideosSeason(chanName);
    var jobs := VideosJobs(cfg, videos);
    VideosApart(cfg, chanName, videos);
    PassQuick(cfg, w, jobs, m, n);
  }

  /** After a playlist pass every known entry it reached has its link,
      unless its own visit raised. */
  lemma PlaylistPassLinks(cfg: Config, byId: map<string, Video>, w: Season, ids: seq<string>,
                          m: map<Path, Node>, n: seq<string>, j: nat)
    requires j < |ids| && ids[j] in byId
    requires SidecarsApart(SpotOf(cfg, w, EntryJob(cfg, byId, ids[j]).name))
    ensures var r := PlaylistPassEffect(cfg, byId, w, ids, m, n);
      j < r.seen && (j + 1 < r.seen || r.error == None) ==>
        SpotOf(cfg, w, EntryJob(cfg, byId, ids[j]).name).link in r.tree
  {
    var jobs := EntriesJobs(cfg, byId, ids);
    JobsLinks(cfg, w, jobs, Docs(cfg, w, jobs), 0, m, n, j);
  }

  /** A new entry's `.nfo` after a playlist pass is episode `k` of the
      season, `k` being its position among the known entries, unless
      another entry of the pass may change its entries. */
  lemma PlaylistPassNfo(cfg: Config, byId: map<string, Video>, w: Season, ids: seq<string>,
                        m: map<Path, Node>, n: seq<string>, j: nat)
    requires j < |ids| && ids[j] in byId && cfg.generateNfo
    requires var s := SpotOf(cfg, w, EntryJob(cfg, byId, ids[j]).name);
      SidecarsApart(s) && s.link !in m &&
      (forall l :: 0 <= l < j ==> s.link !in JobPaths(cfg, w, EntryJob(cfg, byId, ids[l]))) &&
      (forall l :: j < l < |ids| ==> s.nfo !in JobPaths(cfg, w, EntryJob(cfg, byId, ids[l])))
    ensures var r := PlaylistPassEffect(cfg, byId, w, ids, m, n);
      var job := EntryJob(cfg, byId, ids[j]);
      var s := SpotOf(cfg, w, job.name);
      j < r.seen && (j + 1 < r.seen || r.error == None) ==>
        s.nfo in r.tree &&
        r.tree[s.nfo] == File(NewVideoDoc(cfg, w.chan, w.name, job.name, byId[ids[j]], |KnownEntries(ids[..j + 1], byId)|, w.num))
  {
    EntriesNfoApart(cfg, byId, w, ids, j);
    PassNfo(cfg, w, EntriesJobs(cfg, byId, ids), m, n, j);
    EntriesNfoDoc(cfg, byId, w, ids, j);
  }

  lemma EntriesNfoApart(cfg: Config, byId: map<string, Video>, w: Season, ids: seq<string>, j: nat)
    requires j < |ids| && ids[j] in byId
    requires var s := SpotOf(cfg, w, EntryJob(cfg, byId, ids[j]).name);
      (forall l :: 0 <= l < j ==> s.link !in JobPaths(cfg, w, EntryJob(cfg, byId, ids[l]))) &&
      (forall l :: j < l < |ids| ==> s.nfo !in JobPaths(cfg, w, EntryJob(cfg, byId, ids[l])))
    ensures var jobs := EntriesJobs(cfg, byId, ids);
      jobs[j] == EntryJob(cfg, byId, ids[j]) &&
      (forall l :: 0 <= l < j ==> SpotOf(cfg, w, jobs[j].name).link !in JobPaths(cfg, w, jobs[l])) &&
      (forall l :: j < l < |jobs| ==> SpotOf(cfg, w, jobs[j].name).nfo !in JobPaths(cfg, w, jobs[l]))
  {
    var jobs := EntriesJobs(cfg, byId, ids);
    var s := SpotOf(cfg, w, EntryJob(cfg, byId, ids[j]).name);
    assert jobs[j] == EntryJob(cfg, byId, ids[j]);
    forall l | 0 <= l < j
      ensures s.link !in JobPaths(cfg, w, jobs[l])
    {
      assert jobs[l] == EntryJob(cfg, byId, ids[l]);
    }
    forall l | j < l < |jobs|
      ensures s.nfo !in JobPaths(cfg, w, jobs[l])
    {
      assert jobs[l] == EntryJob(cfg, byId, ids[l]);
    }
  }

  lemma EntriesNfoDoc(cfg: Config, byId: map<string, Video>, w: Season, ids: seq<string>, j: nat)
    requires j < |ids| && ids[j] in byId
    ensures var jobs := EntriesJobs(cfg, byId, ids);
      var job := EntryJob(cfg, byId, ids[j]);
      ItemDoc(cfg, w, jobs[j], Visits(jobs, j + 1)) ==
      NewVideoDoc(cfg, w.chan, w.name, job.name, byId[ids[j]], |KnownEntries(ids[..j + 1], byId)|, w.num)
  {
    EntriesVisitCount(cfg, byId, ids, j + 1);
    assert EntriesJobs(cfg, byId, ids)[j] == EntryJob(cfg, byId, ids[j]);
  }

  /** A QUICK stop of a playlist pass happens at an entry the server
      knows. */
  lemma PlaylistPassStop(cfg: Config, byId: map<string, Video>, w: Season, ids: seq<string>, m: map<Path, Node>, n: seq<string>)
    ensures var r := PlaylistPassEffect(cfg, byId, w, ids, m, n);
      r.stop ==> cfg.quick && r.error == None && ids[r.seen - 1] in byId
  {
    var r := PlaylistPassEffect(cfg, byId, w, ids, m, n);
    if r.stop {
      EntryItem(cfg, byId, ids, r.seen - 1);
    }
  }

  /** A QUICK stop of a playlist pass happens where `StoppedAt` allows
      it. */
  lemma PlaylistPassQuick(cfg: Config, byId: map<string, Video>, w: Season, ids: seq<string>, m: map<Path, Node>, n: seq<string>)
    requires forall k :: 0 <= k < |ids| && ids[k] in byId ==> SidecarsApart(SpotOf(cfg, w, EntryJob(cfg, byId, ids[k]).name))
    ensures var r := PlaylistPassEffect(cfg, byId, w, ids, m, n);
      r.stop ==> StoppedAt(cfg, w, EntriesJobs(cfg, byId, ids), 0, r.seen - 1, m)
  {
    var jobs := EntriesJobs(cfg, byId, ids);
    EntriesApart(cfg, byId, w, ids);
    PassQuick(cfg, w, jobs, m, n);
  }

  // ---------------------------------------------------------------------
  // Videos.

  /** `process_video` with its `FileExistsError` handler: an already
      mirrored video stops the pass under QUICK, and otherwise has its
      poster link refreshed. */
  method VisitVideo(fs: FileSystem, cfg: Config, chanName: string, playlistName: string, name: string,
                    v: Video, episodeNum: nat, seasonNum: nat)
    returns (stop: bool, e: Option<OsError>)
    requires fs.Valid()
    modifies fs
    ensures fs.Valid()
    ensures Step(fs.entries, fs.notified, e, stop) ==
      VisitEffect(cfg, old(fs.entries), old(fs.notified), Season(chanName, playlistName, seasonNum), name, v,
                  NewVideoDoc(cfg, chanName, playlistName, name, v, episodeNum, seasonNum))
    // A video whose link is already there is not processed again.
    ensures VideoLinkPath(cfg, chanName, playlistName, name) in old(fs.entries) ==>
      fs.notified == old(fs.notified) && (stop <==> cfg.quick) &&
      (cfg.quick || cfg.cache == "" ==> e == None && fs.entries == old(fs.entries))
  {
    var r := ProcessVideo(fs, cfg, chanName, playlistName, name, v, episodeNum, seasonNum);
    match r
    case Created =>
      stop, e := false, None;
    case Failed(x) =>
      stop, e := false, Some(x);
    case AlreadyPresent =>
      if cfg.quick {
        return true, None;
      }
      var poster;
      poster, e := SetupVideoThumb(fs, cfg, chanName, playlistName, name, LocalMedia(v));
      stop := false;
  }

  /** One video of the "Videos" pass: a video assigned to a playlist only
      loses its stale link in the "Videos" folder, if that link still leads
      somewhere; any other video is processed as episode `episodeNum`. */
  method VideosStep(fs: FileSystem, cfg: Config, chanName: string, v: Video, episodeNum: nat)
    returns (stop: bool, e: Option<OsError>)
    requires fs.Valid()
    modifies fs
    ensures fs.Valid()
    ensures Step(fs.entries, fs.notified, e, stop) ==
      JobEffect(cfg, old(fs.entries), old(fs.notified), VideosSeason(chanName), VideoJob(cfg, v),
                ItemDoc(cfg, VideosSeason(chanName), VideoJob(cfg, v), episodeNum))
  {
    var name := VideoName(cfg, v);
    if |v.playlists| > 0 {
      var link := PlaylistDir(cfg, chanName, "Videos") + "/" + name;
      stop := false;
      if Exists(fs.entries, SplitPath(link)) {
        e := fs.Remove(link);
      } else {
        e := None;
      }
    } else {
      stop, e := VisitVideo(fs, cfg, chanName, "Videos", name, v, episodeNum, 1);
    }
  }

  /** The "Videos" pass over the channel's videos (ta-helper.py:473-500):
      a video assigned to a playlist loses its stale "Videos" link, every
      other video is numbered and processed. `trace` records each processed
      video with its episode number; under QUICK the pass may stop early,
      after a prefix of the plan. At most one notification goes out per
      numbered video. */
  method VideosPass(fs: FileSystem, cfg: Config, chanName: string, videos: seq<Video>)
    returns (e: Option<OsError>, ghost trace: seq<(string, nat)>)
    requires fs.Valid()
    modifies fs
    ensures fs.Valid()
    ensures var R := VideosPassEffect(cfg, chanName, videos, old(fs.entries), old(fs.notified));
      fs.entries == R.tree && fs.notified == R.notified && e == R.error &&
      trace == EpisodePlan(videos, R.seen)
    ensures e == None ==> trace <= Number(UnassignedIds(videos), 1)
    ensures e == None && !cfg.quick ==> trace == Number(UnassignedIds(videos), 1)
    ensures old(fs.notified) <= fs.notified && |fs.notified| <= |old(fs.notified)| + |UnassignedIds(videos)|
    ensures !cfg.notificationsEnabled ==> fs.notified == old(fs.notified)
  {
    ghost var w := VideosSeason(chanName);
    ghost var jobs := VideosJobs(cfg, videos);
    ghost var docs := Docs(cfg, w, jobs);
    ghost var R := JobsFrom(cfg, w, jobs, docs, 0, fs.entries, fs.notified);
    var episodeNum := 0;
    trace := [];
    e := None;
    var i := 0;
    var stop := false;
    while i < |videos| && e == None && !stop
      invariant i <= |videos| && fs.Valid()
      invariant trace == EpisodePlan(videos, i) && episodeNum == |trace| && episodeNum == Visits(jobs, i)
      invariant if e.Some? || stop then R == Pass(fs.entries, fs.notified, e, stop, i)
                else JobsFrom(cfg, w, jobs, docs, i, fs.entries, fs.notified) == R
    {
      stop, e, episodeNum, trace := VideosTurn(fs, cfg, chanName, videos, i, episodeNum, trace);
      i := i + 1;
    }
    EpisodePlanPrefix(videos, i);
    JobsNotified(cfg, w, jobs, docs, 0, old(fs.entries), old(fs.notified));
    VideosVisitCount(cfg, videos, |videos|);
    assert videos[..|videos|] == videos;
  }

  /** One turn of the "Videos" pass: number the `i`-th video when it is
      unassigned, then visit it. */
  method VideosTurn(fs: FileSystem, cfg: Config, chanName: string, videos: seq<Video>, i: nat,
                    episodeNum: nat, ghost trace: seq<(string, nat)>)
    returns (stop: bool, e: Option<OsError>, nextNum: nat, ghost next: seq<(string, nat)>)
    requires fs.Valid() && i < |videos| && trace == EpisodePlan(videos, i) && episodeNum == |trace|
    requires episodeNum == Visits(VideosJobs(cfg, videos), i)
    modifies fs
    ensures fs.Valid()
    ensures next == EpisodePlan(videos, i + 1) && nextNum == |next|
    ensures nextNum == Visits(VideosJobs(cfg, videos), i + 1)
    ensures var w := VideosSeason(chanName);
      var jobs := VideosJobs(cfg, videos);
      JobsFrom(cfg, w, jobs, Docs(cfg, w, jobs), i, old(fs.entries), old(fs.notified)) ==
      if e.Some? || stop then Pass(fs.entries, fs.notified, e, stop, i + 1)
      else JobsFrom(cfg, w, jobs, Docs(cfg, w, jobs), i + 1, fs.entries, fs.notified)
  {
    var v := videos[i];
    EpisodePlanStep(videos, i);
    nextNum, next := episodeNum, trace;
    if |v.playlists| == 0 {
      nextNum := episodeNum + 1;
      next := Numbered(trace, v.youtubeId, 1);
    }
    VideosItem(cfg, videos, i);
    ghost var jobs := VideosJobs(cfg, videos);
    DocAt(cfg, VideosSeason(chanName), jobs, i);
    stop, e := VideosStep(fs, cfg, chanName, v, nextNum);
  }

  /** One playlist season (ta-helper.py:530-551): entries the server knows
      are numbered and processed, unknown entries are skipped. */
  method PlaylistPass(fs: FileSystem, cfg: Config, byId: map<string, Video>, chanName: string,
                      playlistName: string, entries: seq<string>, seasonNum: nat)
    returns (e: Option<OsError>, ghost trace: seq<(string, nat)>)
    requires fs.Valid()
    modifies fs
    ensures fs.Valid()
    ensures var R := PlaylistPassEffect(cfg, byId, Season(chanName, playlistName, seasonNum), entries,
                                        old(fs.entries), old(fs.notified));
      fs.entries == R.tree && fs.notified == R.notified && e == R.error &&
      trace == EntryPlan(entries, byId, R.seen)
    ensures e == None ==> trace <= Number(KnownEntries(entries, byId), 1)
    ensures e == None && !cfg.quick ==> trace == Number(KnownEntries(entries, byId), 1)
    ensures old(fs.notified) <= fs.notified && |fs.notified| <= |old(fs.notified)| + |KnownEntries(entries, byId)|
    ensures !cfg.notificationsEnabled ==> fs.notified == old(fs.notified)
  {
    ghost var w := Season(chanName, playlistName, seasonNum);
    ghost var jobs := EntriesJobs(cfg, byId, entries);
    ghost var docs := Docs(cfg, w, jobs);
    ghost var R := JobsFrom(cfg, w, jobs, docs, 0, fs.entries, fs.notified);
    var episodeNum := 0;
    trace := [];
    e := None;
    var i := 0;
    var stop := false;
    while i < |entries| && e == None && !stop
      invariant i <= |entries| && fs.Valid()
      invariant trace == EntryPlan(entries, byId, i) && episodeNum == |trace| && episodeNum == Visits(jobs, i)
      invariant if e.Some? || stop then R == Pass(fs.entries, fs.notified, e, stop, i)
                else JobsFrom(cfg, w, jobs, docs, i, fs.entries, fs.notified) == R
    {
      stop, e, episodeNum, trace := EntryTurn(fs, cfg, byId, chanName, playlistName, entries, i, episodeNum, trace, seasonNum);
      i := i + 1;
    }
    EntryPlanPrefix(entries, byId, i);
    JobsNotified(cfg, w, jobs, docs, 0, old(fs.entries), old(fs.notified));
    EntriesVisitCount(cfg, byId, entries, |entries|);
    assert entries[..|entries|] == entries;
  }

  /** One turn of a playlist season: number and visit the `i`-th entry
      when the server knows it. */
  method EntryTurn(fs: FileSystem, cfg: Config, byId: map<string, Video>, chanName: string, playlistName: string,
                   entries: seq<string>, i: nat, episodeNum: nat, ghost trace: seq<(string, nat)>, seasonNum: nat)
    returns (stop: bool, e: Option<OsError>, nextNum: nat, ghost next: seq<(string, nat)>)
    requires fs.Valid() && i < |entries| && trace == EntryPlan(entries, byId, i) && episodeNum == |trace|
    requires episodeNum == Visits(EntriesJobs(cfg, byId, entries), i)
    modifies fs
    ensures fs.Valid()
    ensures next == EntryPlan(entries, byId, i + 1) && nextNum == |next|
    ensures nextNum == Visits(EntriesJobs(cfg, byId, entries), i + 1)
    ensures var w := Season(chanName, playlistName, seasonNum);
      var jobs := EntriesJobs(cfg, byId, entries);
      JobsFrom(cfg, w, jobs, Docs(cfg, w, jobs), i, old(fs.entries), old(fs.notified)) ==
      if e.Some? || stop then Pass(fs.entries, fs.notified, e, stop, i + 1)
      else JobsFrom(cfg, w, jobs, Docs(cfg, w, jobs), i + 1, fs.entries, fs.notified)
  {
    var id := entries[i];
    EntryPlanStep(entries, byId, i);
    nextNum, next := episodeNum, trace;
    if id in byId {
      nextNum := episodeNum + 1;
      next := Numbered(trace, id, 1);
    }
    ghost var w := Season(chanName, playlistName, seasonNum);
    ghost var jobs := EntriesJobs(cfg, byId, entries);
    EntryItem(cfg, byId, entries, i);
    DocAt(cfg, w, jobs, i);
    stop, e := EntryStep(fs, cfg, byId, chanName, playlistName, id, nextNum, seasonNum);
  }

  /** One entry of a playlist season: an entry the server knows is
      processed as episode `episodeNum`; an unknown one is skipped. */
  method EntryStep(fs: FileSystem, cfg: Config, byId: map<string, Video>, chanName: string, playlistName: string,
                   id: string, episodeNum: nat, seasonNum: nat)
    returns (stop: bool, e: Option<OsError>)
    requires fs.Valid()
    modifies fs
    ensures fs.Valid()
    ensures var w := Season(chanName, playlistName, seasonNum);
      Step(fs.entries, fs.notified, e, stop) ==
      JobEffect(cfg, old(fs.entries), old(fs.notified), w, EntryJob(cfg, byId, id), ItemDoc(cfg, w, EntryJob(cfg, byId, id), episodeNum))
  {
    stop, e := false, None;
    if id in byId {
      var v := byId[id];
      var name := VideoSymlinkName(cfg.isWord, VideoChannelLabel(v), v.published, id);
      stop, e := VisitVideo(fs, cfg, chanName, playlistName, name, v, episodeNum, seasonNum);
    }
  }

  // ---------------------------------------------------------------------
  // Channels.

  /** The stand-in playlist record the script makes for the "Videos"
      season. */
  const VideosPlaylist := Playlist("", "Videos", "Channel's videos not assigned to playlists.", "", "", "", [])

  lemma {:induction false} OwnedPrefix(pls: seq<Playlist>, chanId: string, j: nat)
    requires j <= |pls|
    ensures var p := OwnedPlaylists(pls[..j], chanId);
      |p| <= |OwnedPlaylists(pls, chanId)| && OwnedPlaylists(pls, chanId)[..|p|] == p
    decreases |pls| - j
  {
    if j < |pls| {
      OwnedPrefix(pls, chanId, j + 1);
      OwnedStep(pls, chanId, j);
    } else {
      assert pls[..j] == pls;
    }
  }

  /** The seasons handed out after `j` playlists are a prefix of the
      whole numbering, and all of it after the last playlist. */
  lemma SeasonPlanPrefix(pls: seq<Playlist>, chanId: string, j: nat)
    requires j <= |pls|
    ensures SeasonPlan(pls, chanId, j) <= Number(OwnedPlaylists(pls, chanId), 2)
    ensures j == |pls| ==> SeasonPlan(pls, chanId, j) == Number(OwnedPlaylists(pls, chanId), 2)
  {
    OwnedPrefix(pls, chanId, j);
    NumberPrefix(OwnedPlaylists(pls[..j], chanId), OwnedPlaylists(pls, chanId), 2);
    assert j == |pls| ==> pls[..j] == pls;
  }

  /** A folder inside another lies inside that one's ancestors' subtrees. */
  lemma PrefixTrans(a: Path, b: Path, c: Path)
    requires IsPrefix(a, b) && IsPrefix(b, c)
    ensures IsPrefix(a, c)
  {
    assert c[..|a|] == c[..|b|][..|a|];
  }

  /** Two ancestors of one path are nested one in the other. */
  lemma PrefixesNest(a: Path, b: Path, c: Path)
    requires IsPrefix(a, c) && IsPrefix(b, c)
    ensures IsPrefix(a, b) || IsPrefix(b, a)
  {
    if |a| <= |b| {
      assert b[..|a|] == c[..|b|][..|a|];
    } else {
      assert a[..|b|] == c[..|a|][..|b|];
    }
  }

  /** A playlist folder lies inside its channel folder, and a channel
      folder inside the target folder. */
  lemma SeasonInChannel(cfg: Config, chanName: string, playlistName: string)
    ensures IsPrefix(SplitPath(ChannelDir(cfg, chanName)), SplitPath(PlaylistDir(cfg, chanName, playlistName)))
    ensures IsPrefix(SplitPath(cfg.targetFolder), SplitPath(ChannelDir(cfg, chanName)))
  {
    assert PlaylistDir(cfg, chanName, playlistName) == ChannelDir(cfg, chanName) + "/" + playlistName;
    BelowDir(ChannelDir(cfg, chanName), playlistName);
    BelowDir(cfg.targetFolder, chanName);
  }

  /** A path that is neither inside folder `c` nor one of its ancestors is
      neither inside nor an ancestor of a folder `p` inside `c`. */
  lemma AwayFromInner(c: Path, p: Path, q: Path)
    requires IsPrefix(c, p) && !IsPrefix(q, c) && !IsPrefix(c, q)
    ensures !IsPrefix(q, p) && !IsPrefix(p, q)
  {
    if IsPrefix(q, p) {
      PrefixesNest(q, c, p);
    }
    if IsPrefix(p, q) {
      PrefixTrans(c, p, q);
    }
  }

  /** What the channel-folder step leaves (ta-helper.py:428-436): a folder
      that is there gets its image links refreshed, and an exception from
      that escapes; a missing folder is created with its resources, and an
      exception from either is logged. Nothing outside the folder and its
      ancestors changes, and nothing disappears. */
  function ChannelFolderEffect(cfg: Config, m: map<Path, Node>, chanName: string, ch: Channel): (r: Effect)
    ensures forall q :: q in m ==> q in r.tree
    ensures forall q :: !IsPrefix(q, SplitPath(ChannelDir(cfg, chanName))) && !IsPrefix(SplitPath(ChannelDir(cfg, chanName)), q) ==>
      Agree(m, r.tree, q)
    ensures r.error.Some? ==> Exists(m, SplitPath(ChannelDir(cfg, chanName)))
  {
    var p := SplitPath(ChannelDir(cfg, chanName));
    if Exists(m, p) then ChannelThumbEffect(cfg, m, chanName, ch)
    else if MakeDirsOutcome(m, p, false).Some? then Effect(m, None)
    else Effect(NewChannelEffect(cfg, MadeDirs(m, p, false), chanName, ch).tree, None)
  }

  /** A channel folder that was missing is there afterwards unless
      `os.makedirs` failed, and with show NFOs enabled it holds the
      channel's `tvshow.nfo` unless the exception the script logs came
      from its resources. */
  lemma NewChannelFolder(cfg: Config, m: map<Path, Node>, chanName: string, ch: Channel)
    requires !Exists(m, SplitPath(ChannelDir(cfg, chanName)))
    ensures var p := SplitPath(ChannelDir(cfg, chanName));
      var r := ChannelFolderEffect(cfg, m, chanName, ch);
      r.error == None &&
      (MakeDirsOutcome(m, p, false) == None ==> p in r.tree) &&
      (MakeDirsOutcome(m, p, false) != None ==> r.tree == m)
    ensures var p := SplitPath(ChannelDir(cfg, chanName));
      var r := ChannelFolderEffect(cfg, m, chanName, ch);
      var nfo := InDir(ChannelDir(cfg, chanName), "tvshow.nfo");
      MakeDirsOutcome(m, p, false) == None && cfg.generateShowsNfo &&
      NewChannelEffect(cfg, MadeDirs(m, p, false), chanName, ch).error == None ==>
        nfo in r.tree && r.tree[nfo] == File(TvShowNfo(chanName, ch, ChannelFolderImage(cfg, chanName)))
  {
  }

  /** The same for a playlist folder (ta-helper.py:518-527), whose new
      resources carry the season number. */
  function PlaylistFolderEffect(cfg: Config, m: map<Path, Node>, chanName: string, playlistName: string, pl: Playlist,
                                seasonNum: nat): (r: Effect)
    ensures forall q :: q in m ==> q in r.tree
    ensures forall q :: (!IsPrefix(q, SplitPath(PlaylistDir(cfg, chanName, playlistName))) &&
                         !IsPrefix(SplitPath(PlaylistDir(cfg, chanName, playlistName)), q)) ==> Agree(m, r.tree, q)
    ensures r.error.Some? ==> Exists(m, SplitPath(PlaylistDir(cfg, chanName, playlistName)))
  {
    var p := SplitPath(PlaylistDir(cfg, chanName, playlistName));
    if Exists(m, p) then PlaylistThumbEffect(cfg, m, chanName, playlistName, pl)
    else if MakeDirsOutcome(m, p, false).Some? then Effect(m, None)
    else Effect(NewPlaylistEffect(cfg, MadeDirs(m, p, false), chanName, playlistName, pl, seasonNum).tree, None)
  }

  /** A playlist folder that was missing is there afterwards unless
      `os.makedirs` failed, and with show NFOs enabled its `season.nfo`
      carries the season number, unless the exception the script logs
      came from its resources. */
  lemma NewPlaylistFolder(cfg: Config, m: map<Path, Node>, chanName: string, playlistName: string, pl: Playlist, seasonNum: nat)
    requires !Exists(m, SplitPath(PlaylistDir(cfg, chanName, playlistName)))
    ensures var p := SplitPath(PlaylistDir(cfg, chanName, playlistName));
      var r := PlaylistFolderEffect(cfg, m, chanName, playlistName, pl, seasonNum);
      r.error == None &&
      (MakeDirsOutcome(m, p, false) == None ==> p in r.tree) &&
      (MakeDirsOutcome(m, p, false) != None ==> r.tree == m)
    ensures var p := SplitPath(PlaylistDir(cfg, chanName, playlistName));
      var r := PlaylistFolderEffect(cfg, m, chanName, playlistName, pl, seasonNum);
      var nfo := InDir(PlaylistDir(cfg, chanName, playlistName), "season.nfo");
      MakeDirsOutcome(m, p, false) == None && cfg.generateShowsNfo &&
      NewPlaylistEffect(cfg, MadeDirs(m, p, false), chanName, playlistName, pl, seasonNum).error == None ==>
        nfo in r.tree && r.tree[nfo] == File(SeasonNfo(pl, PlaylistFolderImage(cfg, chanName, playlistName, pl), seasonNum))
  {
  }

  /** What the "Videos" folder step leaves (ta-helper.py:446-458): a
      missing folder is created as season 1 with the stand-in record. */
  function VideosFolderTree(cfg: Config, m: map<Path, Node>, chanName: string): (r: map<Path, Node>)
    ensures forall q :: q in m ==> q in r
    ensures forall q :: (!IsPrefix(q, SplitPath(PlaylistDir(cfg, chanName, "Videos"))) &&
                         !IsPrefix(SplitPath(PlaylistDir(cfg, chanName, "Videos")), q)) ==> Agree(m, r, q)
  {
    var p := SplitPath(PlaylistDir(cfg, chanName, "Videos"));
    if Exists(m, p) || MakeDirsOutcome(m, p, false).Some? then m
    else NewPlaylistEffect(cfg, MadeDirs(m, p, false), chanName, "Videos", VideosPlaylist, 1).tree
  }

  /** A new "Videos" folder's `season.nfo` names season 1 and no image. */
  lemma NewVideosFolder(cfg: Config, m: map<Path, Node>, chanName: string)
    requires !Exists(m, SplitPath(PlaylistDir(cfg, chanName, "Videos")))
    requires MakeDirsOutcome(m, SplitPath(PlaylistDir(cfg, chanName, "Videos")), false) == None
    ensures var r := VideosFolderTree(cfg, m, chanName);
      var p := SplitPath(PlaylistDir(cfg, chanName, "Videos"));
      var nfo := InDir(PlaylistDir(cfg, chanName, "Videos"), "season.nfo");
      p in r &&
      (cfg.generateShowsNfo && NewPlaylistEffect(cfg, MadeDirs(m, p, false), chanName, "Videos", VideosPlaylist, 1).error == None ==>
         nfo in r && r[nfo] == File(SeasonNfo(VideosPlaylist, "", 1)))
  {
  }

  /** The tree, the notifications sent and the exception escaping after a
      channel, or after a run of seasons. */
  datatype Outcome = Outcome(tree: map<Path, Node>, notified: seq<string>, error: Option<OsError>)

  /** One playlist season (ta-helper.py:508-551): its folder, then its
      entries, as season `seasonNum` in the folder the playlist's name
      gives. */
  function SeasonEffect(cfg: Config, byId: map<string, Video>, chanName: string, pl: Playlist, seasonNum: nat,
                        m: map<Path, Node>, n: seq<string>): Outcome
  {
    var playlistName := PlaylistDirName(pl);
    var f := PlaylistFolderEffect(cfg, m, chanName, playlistName, pl, seasonNum);
    if f.error.Some? then Outcome(f.tree, n, f.error)
    else
      var r := PlaylistPassEffect(cfg, byId, Season(chanName, playlistName, seasonNum), pl.playlistEntries, f.tree, n);
      Outcome(r.tree, r.notified, r.error)
  }

  /** The playlist loop from playlist `j` on, `seasonNum` being the last
      season number handed out: each playlist of the channel becomes the
      next season; the first exception ends the loop. */
  function SeasonsFrom(cfg: Config, cat: Catalogue, chanName: string, chanId: string, j: nat, seasonNum: nat,
                       m: map<Path, Node>, n: seq<string>): Outcome
    requires j <= |cat.playlists|
    decreases |cat.playlists| - j, 1
  {
    if j == |cat.playlists| then Outcome(m, n, None)
    else SeasonsAt(cfg, cat, chanName, chanId, j, seasonNum, m, n)
  }

  /** The playlist loop from playlist `j` on, there being one. */
  function SeasonsAt(cfg: Config, cat: Catalogue, chanName: string, chanId: string, j: nat, seasonNum: nat,
                     m: map<Path, Node>, n: seq<string>): Outcome
    requires j < |cat.playlists|
    decreases |cat.playlists| - j, 0
  {
    var pl := cat.playlists[j];
    if pl.playlistChannelId != chanId then SeasonsFrom(cfg, cat, chanName, chanId, j + 1, seasonNum, m, n)
    else
      var s := SeasonEffect(cfg, cat.videoById, chanName, pl, seasonNum + 1, m, n);
      if s.error.Some? then s
      else SeasonsFrom(cfg, cat, chanName, chanId, j + 1, seasonNum + 1, s.tree, s.notified)
  }

  /** One playlist of the loop. */
  lemma SeasonsNext(cfg: Config, cat: Catalogue, chanName: string, chanId: string, j: nat, seasonNum: nat,
                    m: map<Path, Node>, n: seq<string>)
    requires j < |cat.playlists|
    ensures var pl := cat.playlists[j];
      var s := SeasonEffect(cfg, cat.videoById, chanName, pl, seasonNum + 1, m, n);
      SeasonsFrom(cfg, cat, chanName, chanId, j, seasonNum, m, n) ==
        if pl.playlistChannelId != chanId then SeasonsFrom(cfg, cat, chanName, chanId, j + 1, seasonNum, m, n)
        else if s.error.Some? then s
        else SeasonsFrom(cfg, cat, chanName, chanId, j + 1, seasonNum + 1, s.tree, s.notified)
  {
  }

  /** The channel's own playlists in list order, each with the season
      number it is due: `first`, `first + 1`, ... */
  function SeasonList(pls: seq<Playlist>, chanId: string, first: nat): (r: seq<(Playlist, nat)>)
    decreases |pls|
  {
    if pls == [] then []
    else if pls[0].playlistChannelId == chanId then [(pls[0], first)] + SeasonList(pls[1..], chanId, first + 1)
    else SeasonList(pls[1..], chanId, first)
  }

  /** The seasons of `plan` one after the other, the first exception
      ending the run. */
  function SeasonsOver(cfg: Config, byId: map<string, Video>, chanName: string, plan: seq<(Playlist, nat)>,
                       m: map<Path, Node>, n: seq<string>): Outcome
    decreases |plan|
  {
    if plan == [] then Outcome(m, n, None)
    else
      var s := SeasonEffect(cfg, byId, chanName, plan[0].0, plan[0].1, m, n);
      if s.error.Some? then s
      else SeasonsOver(cfg, byId, chanName, plan[1..], s.tree, s.notified)
  }

  /** The playlist loop from playlist `j` on is the run of seasons over the
      remaining playlists of the channel, numbered on from `seasonNum`. */
  lemma {:induction false} SeasonsNumbered(cfg: Config, cat: Catalogue, chanName: string, chanId: string, j: nat,
                                           seasonNum: nat, m: map<Path, Node>, n: seq<string>)
    requires j <= |cat.playlists|
    ensures SeasonsFrom(cfg, cat, chanName, chanId, j, seasonNum, m, n) ==
      SeasonsOver(cfg, cat.videoById, chanName, SeasonList(cat.playlists[j..], chanId, seasonNum + 1), m, n)
    decreases |cat.playlists| - j
  {
    var rest := cat.playlists[j..];
    if j < |cat.playlists| {
      assert rest[0] == cat.playlists[j] && rest[1..] == cat.playlists[j + 1..];
      var pl := cat.playlists[j];
      if pl.playlistChannelId != chanId {
        SeasonsNumbered(cfg, cat, chanName, chanId, j + 1, seasonNum, m, n);
      } else {
        var s := SeasonEffect(cfg, cat.videoById, chanName, pl, seasonNum + 1, m, n);
        var plan := SeasonList(rest, chanId, seasonNum + 1);
        assert plan[0] == (pl, seasonNum + 1) && plan[1..] == SeasonList(rest[1..], chanId, seasonNum + 2);
        if s.error.None? {
          SeasonsNumbered(cfg, cat, chanName, chanId, j + 1, seasonNum + 1, s.tree, s.notified);
        }
      }
    } else {
      assert rest == [];
    }
  }

  /** The whole playlist loop: seasons from 2 over the channel's own
      playlists. */
  lemma SeasonsFromStart(cfg: Config, cat: Catalogue, chanName: string, chanId: string, m: map<Path, Node>, n: seq<string>)
    ensures SeasonsFrom(cfg, cat, chanName, chanId, 0, 1, m, n) ==
      SeasonsOver(cfg, cat.videoById, chanName, SeasonList(cat.playlists, chanId, 2), m, n)
  {
    SeasonsNumbered(cfg, cat, chanName, chanId, 0, 1, m, n);
    assert cat.playlists[0..] == cat.playlists;
  }

  /** `SeasonList` hands the channel's own playlists, and only those, the
      numbers `first`, `first + 1`, ... in list order. */
  lemma {:induction false} SeasonListNumbering(pls: seq<Playlist>, chanId: string, first: nat)
    ensures |SeasonList(pls, chanId, first)| == |OwnedPlaylists(pls, chanId)|
    ensures forall k :: 0 <= k < |SeasonList(pls, chanId, first)| ==>
      SeasonList(pls, chanId, first)[k].0.playlistChannelId == chanId &&
      SeasonList(pls, chanId, first)[k].0.playlistId == OwnedPlaylists(pls, chanId)[k] &&
      SeasonList(pls, chanId, first)[k].1 == first + k
    decreases |pls|
  {
    if pls != [] {
      OwnedCons(pls, chanId);
      if pls[0].playlistChannelId == chanId {
        SeasonListNumbering(pls[1..], chanId, first + 1);
      } else {
        SeasonListNumbering(pls[1..], chanId, first);
      }
    }
  }

  /** `OwnedPlaylists` read from the front. */
  lemma {:induction false} OwnedCons(pls: seq<Playlist>, chanId: string)
    requires pls != []
    ensures OwnedPlaylists(pls, chanId) ==
      (if pls[0].playlistChannelId == chanId then [pls[0].playlistId] else []) + OwnedPlaylists(pls[1..], chanId)
    decreases |pls|
  {
    var head: seq<string> := if pls[0].playlistChannelId == chanId then [pls[0].playlistId] else [];
    if |pls| == 1 {
      assert pls[..0] == [] && pls[1..] == [];
    } else {
      var init := pls[..|pls| - 1];
      var last := pls[|pls| - 1];
      var tail: seq<string> := if last.playlistChannelId == chanId then [last.playlistId] else [];
      OwnedCons(init, chanId);
      assert init[0] == pls[0] && init[1..] == pls[1..][..|pls[1..]| - 1];
      assert pls[1..][|pls[1..]| - 1] == last;
      assert OwnedPlaylists(pls[1..], chanId) == OwnedPlaylists(init[1..], chanId) + tail;
      assert OwnedPlaylists(pls, chanId) == head + OwnedPlaylists(init[1..], chanId) + tail;
    }
  }

  /** What one channel of the main loop leaves (ta-helper.py:416-553): its
      folder, the "Videos" folder, the "Videos" pass when the channel's
      video listing came back, then its playlist seasons from season 2. A
      QUICK stop ends only the pass it happens in. */
  function ChannelEffect(cfg: Config, cat: Catalogue, ch: Channel, m: map<Path, Node>, n: seq<string>): Outcome {
    var chanName := ChannelDirName(ch);
    var c := ChannelFolderEffect(cfg, m, chanName, ch);
    if c.error.Some? then Outcome(c.tree, n, c.error)
    else
      var t := VideosFolderTree(cfg, c.tree, chanName);
      var v := if ch.channelId in cat.channelVideos
               then VideosPassEffect(cfg, chanName, cat.channelVideos[ch.channelId], t, n)
               else Pass(t, n, None, false, 0);
      if v.error.Some? then Outcome(v.tree, v.notified, v.error)
      else SeasonsFrom(cfg, cat, chanName, ch.channelId, 0, 1, v.tree, v.notified)
  }

  /** A pass changes nothing outside its season folder. */
  lemma PassOutside(cfg: Config, w: Season, jobs: seq<Job>, m: map<Path, Node>, n: seq<string>, q: Path)
    requires !IsPrefix(SplitPath(PlaylistDir(cfg, w.chan, w.name)), q)
    ensures Agree(m, PassEffect(cfg, w, jobs, m, n).tree, q)
  {
    JobsOutside(cfg, w, jobs, Docs(cfg, w, jobs), 0, m, n, q);
  }

  /** A season changes nothing outside its channel folder but the
      ancestors `os.makedirs` may create. */
  lemma SeasonOutside(cfg: Config, byId: map<string, Video>, chanName: string, pl: Playlist, seasonNum: nat,
                      m: map<Path, Node>, n: seq<string>, q: Path)
    requires !IsPrefix(q, SplitPath(ChannelDir(cfg, chanName))) && !IsPrefix(SplitPath(ChannelDir(cfg, chanName)), q)
    ensures Agree(m, SeasonEffect(cfg, byId, chanName, pl, seasonNum, m, n).tree, q)
  {
    var playlistName := PlaylistDirName(pl);
    SeasonInChannel(cfg, chanName, playlistName);
    AwayFromInner(SplitPath(ChannelDir(cfg, chanName)), SplitPath(PlaylistDir(cfg, chanName, playlistName)), q);
    var f := PlaylistFolderEffect(cfg, m, chanName, playlistName, pl, seasonNum);
    PassOutside(cfg, Season(chanName, playlistName, seasonNum), EntriesJobs(cfg, byId, pl.playlistEntries), f.tree, n, q);
  }

  /** The playlist loop changes nothing outside the channel folder but its
      ancestors. */
  lemma {:induction false} SeasonsOutside(cfg: Config, cat: Catalogue, chanName: string, chanId: string, j: nat, seasonNum: nat,
                                          m: map<Path, Node>, n: seq<string>, q: Path)
    requires j <= |cat.playlists|
    requires !IsPrefix(q, SplitPath(ChannelDir(cfg, chanName))) && !IsPrefix(SplitPath(ChannelDir(cfg, chanName)), q)
    ensures Agree(m, SeasonsFrom(cfg, cat, chanName, chanId, j, seasonNum, m, n).tree, q)
    decreases |cat.playlists| - j
  {
    if j < |cat.playlists| {
      SeasonsNext(cfg, cat, chanName, chanId, j, seasonNum, m, n);
      var pl := cat.playlists[j];
      if pl.playlistChannelId != chanId {
        SeasonsOutside(cfg, cat, chanName, chanId, j + 1, seasonNum, m, n, q);
      } else {
        var s := SeasonEffect(cfg, cat.videoById, chanName, pl, seasonNum + 1, m, n);
        SeasonOutside(cfg, cat.videoById, chanName, pl, seasonNum + 1, m, n, q);
        if s.error == None {
          SeasonsOutside(cfg, cat, chanName, chanId, j + 1, seasonNum + 1, s.tree, s.notified, q);
        }
      }
    }
  }

  /** A season only adds notifications, and none when they are off. */
  lemma SeasonNotified(cfg: Config, byId: map<string, Video>, chanName: string, pl: Playlist, seasonNum: nat,
                       m: map<Path, Node>, n: seq<string>)
    ensures var r := SeasonEffect(cfg, byId, chanName, pl, seasonNum, m, n);
      n <= r.notified && (!cfg.notificationsEnabled ==> r.notified == n)
  {
    var playlistName := PlaylistDirName(pl);
    var f := PlaylistFolderEffect(cfg, m, chanName, playlistName, pl, seasonNum);
    var w := Season(chanName, playlistName, seasonNum);
    var jobs := EntriesJobs(cfg, byId, pl.playlistEntries);
    JobsNotified(cfg, w, jobs, Docs(cfg, w, jobs), 0, f.tree, n);
  }

  /** So does the playlist loop. */
  lemma {:induction false} SeasonsNotified(cfg: Config, cat: Catalogue, chanName: string, chanId: string, j: nat, seasonNum: nat,
                                           m: map<Path, Node>, n: seq<string>)
    requires j <= |cat.playlists|
    ensures var r := SeasonsFrom(cfg, cat, chanName, chanId, j, seasonNum, m, n);
      n <= r.notified && (!cfg.notificationsEnabled ==> r.notified == n)
    decreases |cat.playlists| - j
  {
    if j < |cat.playlists| {
      SeasonsNext(cfg, cat, chanName, chanId, j, seasonNum, m, n);
      var pl := cat.playlists[j];
      if pl.playlistChannelId != chanId {
        SeasonsNotified(cfg, cat, chanName, chanId, j + 1, seasonNum, m, n);
      } else {
        var s := SeasonEffect(cfg, cat.videoById, chanName, pl, seasonNum + 1, m, n);
        SeasonNotified(cfg, cat.videoById, chanName, pl, seasonNum + 1, m, n);
        if s.error == None {
          SeasonsNotified(cfg, cat, chanName, chanId, j + 1, seasonNum + 1, s.tree, s.notified);
        }
      }
    }
  }

  /** And so does a channel. */
  lemma ChannelNotified(cfg: Config, cat: Catalogue, ch: Channel, m: map<Path, Node>, n: seq<string>)
    ensures var r := ChannelEffect(cfg, cat, ch, m, n);
      n <= r.notified && (!cfg.notificationsEnabled ==> r.notified == n)
  {
    var chanName := ChannelDirName(ch);
    var c := ChannelFolderEffect(cfg, m, chanName, ch);
    if c.error == None {
      var t := VideosFolderTree(cfg, c.tree, chanName);
      var v := if ch.channelId in cat.channelVideos
               then VideosPassEffect(cfg, chanName, cat.channelVideos[ch.channelId], t, n)
               else Pass(t, n, None, false, 0);
      if ch.channelId in cat.channelVideos {
        var w := VideosSeason(chanName);
        var jobs := VideosJobs(cfg, cat.channelVideos[ch.channelId]);
        JobsNotified(cfg, w, jobs, Docs(cfg, w, jobs), 0, t, n);
      }
      if v.error == None {
        SeasonsNotified(cfg, cat, chanName, ch.channelId, 0, 1, v.tree, v.notified);
      }
    }
  }

  /** A channel changes nothing outside its folder but the ancestors
      `os.makedirs` may create. */
  lemma ChannelOutside(cfg: Config, cat: Catalogue, ch: Channel, m: map<Path, Node>, n: seq<string>, q: Path)
    requires var c := SplitPath(ChannelDir(cfg, ChannelDirName(ch))); !IsPrefix(q, c) && !IsPrefix(c, q)
    ensures Agree(m, ChannelEffect(cfg, cat, ch, m, n).tree, q)
  {
    var chanName := ChannelDirName(ch);
    var c := ChannelFolderEffect(cfg, m, chanName, ch);
    if c.error == None {
      SeasonInChannel(cfg, chanName, "Videos");
      AwayFromInner(SplitPath(ChannelDir(cfg, chanName)), SplitPath(PlaylistDir(cfg, chanName, "Videos")), q);
      var t := VideosFolderTree(cfg, c.tree, chanName);
      var v := if ch.channelId in cat.channelVideos
               then VideosPassEffect(cfg, chanName, cat.channelVideos[ch.channelId], t, n)
               else Pass(t, n, None, false, 0);
      if ch.channelId in cat.channelVideos {
        PassOutside(cfg, VideosSeason(chanName), VideosJobs(cfg, cat.channelVideos[ch.channelId]), t, n, q);
      }
      if v.error == None {
        SeasonsOutside(cfg, cat, chanName, ch.channelId, 0, 1, v.tree, v.notified, q);
      }
    }
  }

  /** A folder that is already there gets its image links refreshed, and an
      exception from that is not caught; a new folder is created with its
      resources, and an exception from either is logged. */
  method ChannelFolder(fs: FileSystem, cfg: Config, chanName: string, ch: Channel) returns (e: Option<OsError>)
    requires fs.Valid()
    modifies fs
    ensures fs.Valid() && fs.notified == old(fs.notified)
    ensures Effect(fs.entries, e) == ChannelFolderEffect(cfg, old(fs.entries), chanName, ch)
    ensures Exists(old(fs.entries), SplitPath(ChannelDir(cfg, chanName))) && cfg.cache != "" && e == None ==>
      fs.entries == RelinkAll(old(fs.entries), ChannelDir(cfg, chanName), ArtNames,
                              CachePath(cfg, ch.channelThumbUrl), CachePath(cfg, ch.channelBannerUrl))
  {
    var path := ChannelDir(cfg, chanName);
    if Exists(fs.entries, SplitPath(path)) {
      var folder;
      folder, e := SetupChannelThumb(fs, cfg, chanName, ch);
    } else {
      var made := fs.MakeDirs(path, false);
      if made == None {
        made := SetupNewChannelResources(fs, cfg, chanName, ch);
      }
      e := None;
    }
  }

  /** The same for a playlist folder (ta-helper.py:518-527). */
  method PlaylistFolder(fs: FileSystem, cfg: Config, chanName: string, playlistName: string, pl: Playlist, seasonNum: nat)
    returns (e: Option<OsError>)
    requires fs.Valid()
    modifies fs
    ensures fs.Valid() && fs.notified == old(fs.notified)
    ensures Effect(fs.entries, e) == PlaylistFolderEffect(cfg, old(fs.entries), chanName, playlistName, pl, seasonNum)
    ensures Exists(old(fs.entries), SplitPath(PlaylistDir(cfg, chanName, playlistName))) &&
            cfg.cache != "" && pl.playlistName != "Videos" && e == None ==>
      fs.entries == Relinked(old(fs.entries), InDir(PlaylistDir(cfg, chanName, playlistName), "folder.jpg"),
                             CachePath(cfg, pl.playlistThumbnail))
  {
    var path := PlaylistDir(cfg, chanName, playlistName);
    if Exists(fs.entries, SplitPath(path)) {
      var folder;
      folder, e := SetupPlaylistThumb(fs, cfg, chanName, playlistName, pl);
    } else {
      var made := fs.MakeDirs(path, false);
      if made == None {
        made := SetupNewPlaylistResources(fs, cfg, chanName, playlistName, pl, seasonNum);
      }
      e := None;
    }
  }

  /** The "Videos" season folder (ta-helper.py:446-458): created with its
      resources when nothing is there; an exception is logged, not raised. */
  method VideosFolder(fs: FileSystem, cfg: Config, chanName: string)
    requires fs.Valid()
    modifies fs
    ensures fs.Valid() && fs.notified == old(fs.notified)
    ensures fs.entries == VideosFolderTree(cfg, old(fs.entries), chanName)
  {
    var path := PlaylistDir(cfg, chanName, "Videos");
    if !Exists(fs.entries, SplitPath(path)) {
      var made := fs.MakeDirs(path, false);
      if made == None {
        made := SetupNewPlaylistResources(fs, cfg, chanName, "Videos", VideosPlaylist, 1);
      }
    }
  }

  /** The seasons of the channel's own playlists (ta-helper.py:503-553), in
      list order from season 2. `seasons` records each playlist id with the
      season number it was processed under. */
  method PlaylistSeasons(fs: FileSystem, cfg: Config, cat: Catalogue, chanName: string, chanId: string)
    returns (e: Option<OsError>, ghost seasons: seq<(string, nat)>)
    requires fs.Valid()
    modifies fs
    ensures fs.Valid()
    ensures var R := SeasonsFrom(cfg, cat, chanName, chanId, 0, 1, old(fs.entries), old(fs.notified));
      fs.entries == R.tree && fs.notified == R.notified && e == R.error
    ensures var P := SeasonsOver(cfg, cat.videoById, chanName, SeasonList(cat.playlists, chanId, 2), old(fs.entries), old(fs.notified));
      fs.entries == P.tree && fs.notified == P.notified && e == P.error
    ensures seasons <= Number(OwnedPlaylists(cat.playlists, chanId), 2)
    ensures e == None ==> seasons == Number(OwnedPlaylists(cat.playlists, chanId), 2)
    ensures old(fs.notified) <= fs.notified
    ensures !cfg.notificationsEnabled ==> fs.notified == old(fs.notified)
  {
    ghost var R := SeasonsFrom(cfg, cat, chanName, chanId, 0, 1, fs.entries, fs.notified);
    seasons := [];
    e := None;
    var seasonNum := 1;
    var pls := cat.playlists;
    var j := 0;
    while j < |pls| && e == None
      invariant 0 <= j <= |pls|
      invariant fs.Valid()
      invariant seasons == SeasonPlan(pls, chanId, j) && seasonNum == 1 + |seasons|
      invariant if e.Some? then R == Outcome(fs.entries, fs.notified, e)
                else SeasonsFrom(cfg, cat, chanName, chanId, j, seasonNum, fs.entries, fs.notified) == R
    {
      e, seasonNum, seasons := SeasonTurn(fs, cfg, cat, chanName, chanId, j, seasonNum, seasons);
      j := j + 1;
    }
    SeasonPlanPrefix(pls, chanId, j);
    SeasonsNotified(cfg, cat, chanName, chanId, 0, 1, old(fs.entries), old(fs.notified));
    SeasonsFromStart(cfg, cat, chanName, chanId, old(fs.entries), old(fs.notified));
  }

  /** One turn of the playlist loop: a playlist of the channel becomes
      the next season, with its folder and its entries. */
  method SeasonTurn(fs: FileSystem, cfg: Config, cat: Catalogue, chanName: string, chanId: string,
                    j: nat, seasonNum: nat, ghost seasons: seq<(string, nat)>)
    returns (e: Option<OsError>, nextNum: nat, ghost next: seq<(string, nat)>)
    requires fs.Valid() && j < |cat.playlists| && seasons == SeasonPlan(cat.playlists, chanId, j) && seasonNum == 1 + |seasons|
    modifies fs
    ensures fs.Valid()
    ensures next == SeasonPlan(cat.playlists, chanId, j + 1) && nextNum == 1 + |next|
    ensures SeasonsFrom(cfg, cat, chanName, chanId, j, seasonNum, old(fs.entries), old(fs.notified)) ==
      if e.Some? then Outcome(fs.entries, fs.notified, e)
      else SeasonsFrom(cfg, cat, chanName, chanId, j + 1, nextNum, fs.entries, fs.notified)
  {
    var pl := cat.playlists[j];
    SeasonPlanStep(cat.playlists, chanId, j);
    SeasonsNext(cfg, cat, chanName, chanId, j, seasonNum, fs.entries, fs.notified);
    nextNum, next := seasonNum, seasons;
    e := None;
    if pl.playlistChannelId == chanId {
      nextNum := seasonNum + 1;
      next := Numbered(seasons, pl.playlistId, 2);
      var playlistName := PlaylistDirName(pl);
      e := PlaylistFolder(fs, cfg, chanName, playlistName, pl, nextNum);
      if e.Some? {
        return;
      }
      ghost var episodes;
      e, episodes := PlaylistPass(fs, cfg, cat.videoById, chanName, playlistName, pl.playlistEntries, nextNum);
    }
  }

  /** One channel of the main loop (ta-helper.py:416-553): its folder, the
      "Videos" season, then one season per playlist of the channel. A
      channel whose video listing failed has no "Videos" pass. */
  method ProcessChannel(fs: FileSystem, cfg: Config, cat: Catalogue, ch: Channel)
    returns (e: Option<OsError>, ghost seasons: seq<(string, nat)>)
    requires fs.Valid()
    modifies fs
    ensures fs.Valid()
    ensures var R := ChannelEffect(cfg, cat, ch, old(fs.entries), old(fs.notified));
      fs.entries == R.tree && fs.notified == R.notified && e == R.error
    ensures seasons <= Number(OwnedPlaylists(cat.playlists, ch.channelId), 2)
    ensures e == None ==> seasons == Number(OwnedPlaylists(cat.playlists, ch.channelId), 2)
    ensures old(fs.notified) <= fs.notified
    ensures !cfg.notificationsEnabled ==> fs.notified == old(fs.notified)
  {
    seasons := [];
    var chanName := ChannelDirName(ch);
    e := ChannelFolder(fs, cfg, chanName, ch);
    if e.Some? {
      return;
    }
    VideosFolder(fs, cfg, chanName);
    if ch.channelId in cat.channelVideos {
      ghost var episodes;
      e, episodes := VideosPass(fs, cfg, chanName, cat.channelVideos[ch.channelId]);
      if e.Some? {
        return;
      }
    }
    e, seasons := PlaylistSeasons(fs, cfg, cat, chanName, ch.channelId);
  }

  /** The channel loop from channel `i` on (ta-helper.py:416-553): each
      channel in turn, the first exception ending the loop. */
  function ChannelsFrom(cfg: Config, cat: Catalogue, i: nat, m: map<Path, Node>, n: seq<string>): Outcome
    requires i <= |cat.channels|
    decreases |cat.channels| - i, 2
  {
    if i == |cat.channels| then Outcome(m, n, None)
    else ChannelsMid(cfg, cat, i, m, n)
  }

  /** The same, there being a channel left. This extra step between
      `ChannelsFrom` and `ChannelsAt` keeps the verifier from expanding a
      whole channel's effect wherever only the loop is meant. */
  function ChannelsMid(cfg: Config, cat: Catalogue, i: nat, m: map<Path, Node>, n: seq<string>): Outcome
    requires i < |cat.channels|
    decreases |cat.channels| - i, 1
  {
    ChannelsAt(cfg, cat, i, m, n)
  }

  /** The channel loop from channel `i` on, there being one. */
  function ChannelsAt(cfg: Config, cat: Catalogue, i: nat, m: map<Path, Node>, n: seq<string>): Outcome
    requires i < |cat.channels|
    decreases |cat.channels| - i, 0
  {
    var c := ChannelEffect(cfg, cat, cat.channels[i], m, n);
    if c.error.Some? then c else ChannelsFrom(cfg, cat, i + 1, c.tree, c.notified)
  }

  /** One channel of the loop. */
  lemma ChannelsNext(cfg: Config, cat: Catalogue, i: nat, m: map<Path, Node>, n: seq<string>)
    requires i < |cat.channels|
    ensures var c := ChannelEffect(cfg, cat, cat.channels[i], m, n);
      ChannelsFrom(cfg, cat, i, m, n) ==
        if c.error.Some? then c else ChannelsFrom(cfg, cat, i + 1, c.tree, c.notified)
  {
    assert ChannelsMid(cfg, cat, i, m, n) == ChannelsAt(cfg, cat, i, m, n);
  }

  /** The channel loop changes nothing outside the target folder but its
      ancestors. */
  lemma {:induction false} ChannelsOutside(cfg: Config, cat: Catalogue, i: nat, m: map<Path, Node>, n: seq<string>, q: Path)
    requires i <= |cat.channels|
    requires !IsPrefix(q, SplitPath(cfg.targetFolder)) && !IsPrefix(SplitPath(cfg.targetFolder), q)
    ensures Agree(m, ChannelsFrom(cfg, cat, i, m, n).tree, q)
    decreases |cat.channels| - i
  {
    if i < |cat.channels| {
      ChannelsNext(cfg, cat, i, m, n);
      var ch := cat.channels[i];
      var chanName := ChannelDirName(ch);
      SeasonInChannel(cfg, chanName, "Videos");
      AwayFromInner(SplitPath(cfg.targetFolder), SplitPath(ChannelDir(cfg, chanName)), q);
      ChannelOutside(cfg, cat, ch, m, n, q);
      var c := ChannelEffect(cfg, cat, ch, m, n);
      if c.error == None {
        ChannelsOutside(cfg, cat, i + 1, c.tree, c.notified, q);
      }
    }
  }

  /** The channel loop only adds notifications, and none when they are
      off. */
  lemma {:induction false} ChannelsNotified(cfg: Config, cat: Catalogue, i: nat, m: map<Path, Node>, n: seq<string>)
    requires i <= |cat.channels|
    ensures var r := ChannelsFrom(cfg, cat, i, m, n);
      n <= r.notified && (!cfg.notificationsEnabled ==> r.notified == n)
    decreases |cat.channels| - i
  {
    if i < |cat.channels| {
      ChannelsNext(cfg, cat, i, m, n);
      ChannelNotified(cfg, cat, cat.channels[i], m, n);
      var c := ChannelEffect(cfg, cat, cat.channels[i], m, n);
      if c.error == None {
        ChannelsNotified(cfg, cat, i + 1, c.tree, c.notified);
      }
    }
  }

  /** The channel loop (ta-helper.py:416-553), proved against
      `ChannelsFrom`. */
  method Channels(fs: FileSystem, cfg: Config, cat: Catalogue)
    returns (e: Option<OsError>, ghost seasons: seq<seq<(string, nat)>>)
    requires fs.Valid()
    modifies fs
    ensures fs.Valid()
    ensures ChannelsFrom(cfg, cat, 0, old(fs.entries), old(fs.notified)) == Outcome(fs.entries, fs.notified, e)
    ensures old(fs.notified) <= fs.notified
    ensures !cfg.notificationsEnabled ==> fs.notified == old(fs.notified)
    ensures e == None ==>
      (|seasons| == |cat.channels| &&
       forall i :: 0 <= i < |cat.channels| ==>
         seasons[i] == Number(OwnedPlaylists(cat.playlists, cat.channels[i].channelId), 2))
  {
    ghost var R := ChannelsFrom(cfg, cat, 0, fs.entries, fs.notified);
    seasons := [];
    e := None;
    var i := 0;
    while i < |cat.channels| && e == None
      invariant 0 <= i <= |cat.channels|
      invariant fs.Valid()
      invariant if e.Some? then R == Outcome(fs.entries, fs.notified, e)
                else ChannelsFrom(cfg, cat, i, fs.entries, fs.notified) == R
      invariant e == None ==> seasons == ChannelPlan(cat, i)
    {
      e, seasons := ChannelTurn(fs, cfg, cat, i, R, seasons);
      i := i + 1;
    }
    if e == None {
      ChannelPlanAt(cat, i);
    }
    ChannelsNotified(cfg, cat, 0, old(fs.entries), old(fs.notified));
  }

  /** The seasons of the first `i` channels: each channel's own
      playlists, numbered from 2. */
  function ChannelPlan(cat: Catalogue, i: nat): seq<seq<(string, nat)>>
    requires i <= |cat.channels|
  {
    if i == 0 then []
    else ChannelPlan(cat, i - 1) + [Number(OwnedPlaylists(cat.playlists, cat.channels[i - 1].channelId), 2)]
  }

  lemma {:induction false} ChannelPlanAt(cat: Catalogue, i: nat)
    requires i <= |cat.channels|
    ensures var r := ChannelPlan(cat, i);
      |r| == i && forall k :: 0 <= k < i ==> r[k] == Number(OwnedPlaylists(cat.playlists, cat.channels[k].channelId), 2)
  {
    if i > 0 {
      ChannelPlanAt(cat, i - 1);
    }
  }

  /** One turn of the channel loop, which is to end in `R`. */
  method ChannelTurn(fs: FileSystem, cfg: Config, cat: Catalogue, i: nat, ghost R: Outcome,
                     ghost plan: seq<seq<(string, nat)>>)
    returns (e: Option<OsError>, ghost next: seq<seq<(string, nat)>>)
    requires fs.Valid() && i < |cat.channels| && plan == ChannelPlan(cat, i)
    requires ChannelsFrom(cfg, cat, i, fs.entries, fs.notified) == R
    modifies fs
    ensures fs.Valid()
    ensures if e.Some? then R == Outcome(fs.entries, fs.notified, e)
            else ChannelsFrom(cfg, cat, i + 1, fs.entries, fs.notified) == R
    ensures e == None ==> next == ChannelPlan(cat, i + 1)
  {
    ChannelsNext(cfg, cat, i, fs.entries, fs.notified);
    ghost var s;
    e, s := ProcessChannel(fs, cfg, cat, cat.channels[i]);
    next := plan + [s];
  }
}
