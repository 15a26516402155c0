# ta-helper mirror, modelled in Dafny

`ta-helper.py` mirrors a TubeArchivist catalogue into a folder tree that
media managers read as TV shows. Each channel becomes a show folder and
each of the channel's playlists becomes a season folder. Videos that
belong to no playlist go into a "Videos" season, which is always season 1.
Each video is an `.mp4` symlink into the TubeArchivist media folder. Next
to it sit an `.nfo` XML sidecar, a `-poster.jpg` thumbnail link and a
subtitle link. Show and season folders get `tvshow.nfo`, `season.nfo` and
image links into the TubeArchivist cache. An optional cleanup pass removes
extra files whose video is gone, broken symlinks, empty folders and
channel folders that no longer hold a season.

This project models the script's core in three parts:

- **The naming and escaping helpers**, as pure functions:
  `sanitize`, `urlify`, `simplify_date`, `strmaxlen`, `cache_path`,
  `xmlesc`, `format_desc`, the folder-name fallbacks, the video symlink
  name and the three NFO documents (modules `Naming`, `Xml`, `Nfo`).
- **Materialisation** over an abstract filesystem. The filesystem is the
  class `Disk.FileSystem`: a map from path to `Dir | File | Link(target)`,
  plus the log of videos a notification was sent for. Its methods are the
  `os` and `shutil` calls the script makes, each with the exception Python
  raises. These are modules `Disk` and `Paths`. On top of them sit:
  - the thumbnail, NFO, subtitle and video steps (`Materialise`);
  - the per-channel loop with its season and episode counters (`Mirror`);
  - the top level (`Script`).

  `os.symlink` has a tri-state outcome, `Created | AlreadyPresent |
  Failed(error)`. `AlreadyPresent` is the `FileExistsError` that the main
  loop treats as "already mirrored".
- **The orphan walk and sweep** of `cleanup_after_deleted_videos`:
  - the classification of every entry, and the `broken` and
    `empty_subfolders` lists the walk collects (`Orphans`);
  - the deletions and the channel-folder pruning (`Sweep`).

The central properties proved are these:

- **Naming:**
  - `sanitize` replaces each hostile character one for one.
  - `urlify` leaves no whitespace.
  - `xmlesc` leaves no raw markup, and its entities decode back to the input.
  - `strmaxlen` truncates to exactly `maxlen` characters.
  - The video symlink name parses back to its channel part, date and youtube id.
- **NFO files:** every document reads back to the fields it was built from.
- **Mirroring:** each step is proved equal to an effect function on the tree, and properties are proved of those functions.
  - A new video gets its link to the media file, its poster link, and an `.nfo` holding its document.
  - In a pass, the `.nfo` of the k-th processed video carries episode number k and the pass's season number.
  - The playlist loop runs one season per playlist of the channel, numbered 2, 3, … in list order, and skips other channels' playlists (`SeasonsNumbered`, `SeasonListNumbering`).
  - New channel and season folders get their `tvshow.nfo` or `season.nfo`.
  - No step changes anything outside its own channel or season folder.
  - With `QUICK`, a pass stops only after a video whose link or subtitle link was already there, either before the pass or made by an earlier item of the same pass.
- **Notifications:** a notification goes out exactly for a newly linked video.
- **Cleanup:**
  - What the walk queues is exactly the hanging extras and the broken links.
  - Nothing live is deleted: neither a working video link nor its extras.
  - Only queued entries, candidate folders and folders directly inside the target folder can lose anything.
  - A channel folder that still holds a season keeps its `tvshow.nfo` and image links.

## Model

| member | source | states |
|---|---|---|
| Naming.Sanitize | ta-helper.py:363-365 | same length as the input; each hostile character (`/ \ ? % * : \| " < >`, DEL, 0x00-0x1F) becomes `_`, every other character is kept, and no hostile character remains |
| Naming.SanitizeIdempotent | ta-helper.py:363-365 | sanitizing twice is sanitizing once |
| Naming.KeepWordAndSpace | ta-helper.py:359 | the first `re.sub` keeps only word and whitespace characters, never lengthens the string, and keeps every word or whitespace character of the input as often as it occurs |
| Naming.KeepConcat | ta-helper.py:359 | the first `re.sub` works character by character: on a concatenation it is the concatenation of its results, so the kept characters stay in input order |
| Naming.KeepOne | ta-helper.py:359 | a single character is kept exactly when it is a word or whitespace character |
| Naming.CollapseSpaces | ta-helper.py:360 | the second `re.sub` leaves no whitespace character |
| Naming.CollapseRun | ta-helper.py:360 | one maximal whitespace run between non-space text becomes exactly one `_` |
| Naming.Urlify | ta-helper.py:358-361 | `urlify`'s output holds no whitespace; each of its characters is `_` or a word character of the input; every character other than whitespace and `_` occurs in it exactly as often as in the input when it is a word character, and not at all otherwise |
| Naming.UrlifyDropsOther | ta-helper.py:358-361 | removing a character that is neither a word character nor whitespace from anywhere in the input leaves `urlify`'s output unchanged, so `urlify("a.b")` is `urlify("ab")` |
| Naming.CollapseCounts | ta-helper.py:360 | the `\s+` substitution keeps every character other than whitespace and `_`, as often as it occurs |
| Naming.UrlifyFixesWords | ta-helper.py:358-361 | a string made only of word characters passes through `urlify` unchanged |
| Naming.UrlifyIdempotent | ta-helper.py:358-361 | when `_` is a word character, `urlify` applied twice equals `urlify` applied once |
| Naming.SimplifyDate | ta-helper.py:367-369 | the result is at most 10 characters and holds no `-` |
| Naming.SimplifyIsoDate | ta-helper.py:367-369 | an ISO date `YYYY-MM-DD...` becomes `YYYYMMDD` |
| Naming.StrMaxLen | ta-helper.py:371-373 | a string that fits is returned unchanged; a longer one becomes its first `maxlen-1` characters and an ellipsis, exactly `maxlen` long |
| Naming.CachePath | ta-helper.py:62-66 | the result starts with the cache prefix; without the docker layout the reference follows it unchanged; with it, a leading "/cache" is dropped; a reference holding no "/cache" is never altered |
| Naming.ChannelDirName | ta-helper.py:419-427 | the sanitized channel name, or the sanitized id when the name is empty, or "None" for a null name; no hostile character |
| Naming.PlaylistDirName | ta-helper.py:511-517 | the sanitized playlist name, same length and free of hostile characters, or the raw playlist id when the name is empty |
| Naming.VideoSymlinkName | ta-helper.py:475-477 | the name ends in `].mp4` |
| Naming.ParseVideoSymlinkName | ta-helper.py:475-477 | the name parses back to `urlify(sanitize(channel))`, `simplify_date(published)` and the youtube id |
| Naming.VideoSymlinkNameInjective | ta-helper.py:540-542 | two videos with the same symlink name have the same youtube id, date part and channel part |
| Xml.XmlEscRaw | ta-helper.py:68-76 | the five chained replacements, `&` first, equal escaping each character on its own (the reference `EscapeEach`) |
| Xml.EscapeEachEscaped | ta-helper.py:68-76 | the escaped text has no raw `<`, `>`, `"` or `'`, and every `&` starts one of the five entities |
| Xml.UnescEscapeEach | ta-helper.py:68-76 | decoding the entities gives back the input exactly |
| Xml.XmlEsc | ta-helper.py:68-76 | `xmlesc` returns "" for empty input, returns escaped text, and decodes back to its input |
| Xml.FormatDesc | ta-helper.py:78-82 | `format_desc` equals replacing each newline on its own by `<br>` and the newline; the result is four characters longer per newline, and removing the `<br>` before each newline gives the input back |
| Xml.EscapedDescription | ta-helper.py:116 | a two-line description is written into an NFO as `a&lt;br&gt;\nb` |
| Nfo.Decimal | ta-helper.py:163 | `str(n)` is non-empty and all decimal digits |
| Nfo.DecimalRoundTrip | ta-helper.py:163 | reading the digits of `str(n)` gives back `n` |
| Nfo.ReadRender | ta-helper.py:113-125 | a document built from header, root element and '<'-free items reads back to exactly those items |
| Nfo.TvShowNfo | ta-helper.py:113-125 | when the refresh date, channel id and poster link hold no `<`, the rendered `tvshow.nfo` parses back to exactly its elements: the escaped, `<br>`-formatted description as plot and outline, the title, the poster link and the channel id |
| Nfo.SeasonNfo | ta-helper.py:153-165 | when the refresh date, playlist id and poster link hold no `<`, the rendered `season.nfo` parses back to its elements: description, name, poster link, season number and playlist id |
| Nfo.VideoNfo | ta-helper.py:196-211 | when the published date, youtube id and poster link hold no `<`, the rendered video `.nfo` parses back to its elements: description, title, channel name, youtube id, poster link, episode and season numbers |
| Paths.SplitExtDrops | ta-helper.py:216 | `splitext(...)[0]` drops exactly the last extension of a name with a stem |
| Disk.FileSystem.Symlink | ta-helper.py:344 | `os.symlink`: creates the link when nothing is at the path and its folder exists; `AlreadyPresent` when something is there; otherwise a failure with the tree unchanged |
| Disk.FileSystem.Remove | ta-helper.py:309 | `os.remove`: deletes a file or link; a missing path or a directory raises and changes nothing |
| Disk.FileSystem.WriteFile | ta-helper.py:113 | `open(..., "w+")` and `write`: the path holds the file with that content, or the error and an unchanged tree |
| Disk.FileSystem.MakeDirs | ta-helper.py:375 | `os.makedirs`: after success the path is a directory and only its missing ancestors were added; `FileExistsError` when present and `exist_ok` is false |
| Disk.FileSystem.RmTree | ta-helper.py:321 | `shutil.rmtree`: deletes the whole subtree of a directory; a symlink, a file or a missing path raises and changes nothing |
| Disk.FileSystem.Notify | ta-helper.py:350-351 | a notification appends the video's id and leaves the tree alone |
| Materialise.SymlinkError | ta-helper.py:344 | the exception `os.symlink` raises: none exactly when the link was created, `FileExistsError` when something was there |
| Materialise.Relink | ta-helper.py:137-142 | remove (ignoring a missing file), then symlink: on success the path is a link to the target and nothing else changed; on failure the tree is unchanged |
| Materialise.RelinkAfterRemove | ta-helper.py:137-142 | after a successful remove the symlink always succeeds |
| Materialise.RelinkIdempotent | ta-helper.py:137-142 | relinking an already relinked path succeeds and gives the same tree |
| Materialise.ChannelArtLinks | ta-helper.py:94-102 | poster, cover and folder images link to the channel thumbnail, the banner image to the banner |
| Materialise.ChannelArtElsewhere | ta-helper.py:94-102 | no path other than the four image links changes |
| Materialise.RelinkEach | ta-helper.py:95-102 | the loop stops at the first exception and returns it; the tree is the one the relinks up to that point leave, and the fully relinked tree when nothing raised |
| Materialise.SetupChannelThumb | ta-helper.py:84-105 | without a cache nothing changes and "" is returned; otherwise the exception is the first one the four relinks raise, and when none does the four links point into the cache and `folder.jpg` is returned |
| Materialise.SetupNewChannelResources | ta-helper.py:107-126 | the image links, then `tvshow.nfo` holding the show document when show NFOs are enabled; after an exception in the image links, the tree those links left and no NFO |
| Materialise.SetupPlaylistThumb | ta-helper.py:128-145 | without a cache, or for the "Videos" season, nothing changes; otherwise `folder.jpg` is relinked to the playlist thumbnail |
| Materialise.SetupNewPlaylistResources | ta-helper.py:147-166 | the playlist image link, then `season.nfo` with the season number when show NFOs are enabled; after an exception in the image link, the tree it left and no NFO |
| Materialise.SetupVideoThumb | ta-helper.py:168-187 | without a cache nothing changes; otherwise the `-poster.jpg` link next to the video is relinked to the video thumbnail |
| Materialise.GenerateNewVideoNfo | ta-helper.py:189-212 | the tree and the exception are exactly `VideoNfoEffect`'s, with the video document built from the episode and season numbers |
| Materialise.GenerateNewVideoSub | ta-helper.py:214-223 | a subtitle link is made exactly when the subtitle file exists; otherwise nothing changes |
| Materialise.ProcessVideo | ta-helper.py:339-356 | the tree and the outcome are exactly `ProcessVideoEffect`'s; a notification goes out exactly when the link is newly created and notifications are on |
| Materialise.LocalMedia | ta-helper.py:340 | only `media_url` changes; it never gets longer, and it gets shorter exactly when "/youtube" occurs in it; when "/youtube" occurs once, the new `media_url` is the old one with that occurrence cut out |
| Text.ReplaceAllAt | ta-helper.py:340 | `str.replace` keeps the text before the first occurrence, replaces that occurrence, and carries on after it |
| Materialise.VideoNfoEffect | ta-helper.py:189-212 | only the poster link and the `.nfo` can change, and nothing is lost; when nothing raised, the `.nfo` holds the document (NFOs on) and the poster links to the cached thumbnail (cache set); with NFOs off it is exactly the thumbnail step |
| Materialise.ProcessVideoEffect | ta-helper.py:339-356 | only the video's link, poster, `.nfo` and subtitle paths can change, and nothing is lost; when the video link is not newly created, nothing changes and the exception is the symlink's |
| Materialise.NewVideoOnDisk | ta-helper.py:339-356 | when the video link was missing and at most `FileExistsError` escaped, the link points into the media folder, the poster at the cached thumbnail (cache set), the `.nfo` holds the document (NFOs on), and a subtitle entry that appeared is the subtitle link, made only with subtitle links on |
| Materialise.VideoLinkAfter | ta-helper.py:344 | when at most `FileExistsError` escaped, the video link exists afterwards |
| Materialise.AlreadyThere | ta-helper.py:344-356 | a `FileExistsError` means the video link, or with subtitle links on the subtitle link, was already there |
| Materialise.MakeSidecars | ta-helper.py:353-356 | the `.nfo`, poster and subtitle steps have exactly `SidecarsEffect`'s tree and exception |
| Mirror.NumberAt | ta-helper.py:491 | the k-th numbered element carries number `first + k` |
| Mirror.UnassignedMembers | ta-helper.py:479-491 | an id is in the "Videos" episode list exactly when some video with that id has no playlist |
| Mirror.KnownMembers | ta-helper.py:530-544 | an entry is numbered exactly when it is in the playlist and the server knows the video |
| Mirror.OwnedMembers | ta-helper.py:503-510 | a playlist is numbered exactly when its channel id is the channel's |
| Mirror.VideosSeasonPlan | ta-helper.py:473-491 | the k-th "Videos" episode is numbered k+1 and is a video with no playlist |
| Mirror.PlaylistSeasonPlan | ta-helper.py:503-510 | the k-th season of playlists is numbered k+2 and is a playlist of this channel |
| Mirror.EpisodePlanPrefix | ta-helper.py:473-497 | the episodes handed out after any prefix of the video list are a prefix of the full numbering |
| Mirror.EntryPlanPrefix | ta-helper.py:529-550 | the same for the entries of one playlist |
| Mirror.SeasonPlanAll | ta-helper.py:503-510 | the season counter over the whole playlist list numbers exactly the channel's playlists from 2 |
| Mirror.VisitVideo | ta-helper.py:492-498 | the tree, log, exception and stop flag are exactly `VisitEffect`'s; an already mirrored video sends no notification and stops the pass exactly under `QUICK`, and with `QUICK` or without a cache it changes nothing |
| Mirror.VisitEffect | ta-helper.py:492-498 | a visit stops the pass only under `QUICK` and without an exception, and notifies at most the visited video, only when notifications are on |
| Mirror.NewVideoVisited | ta-helper.py:339-356 | visiting a video that had no link and raised nothing leaves its link to the media file, its poster link, its `.nfo` document, and only a legitimate subtitle link |
| Mirror.VisitStop | ta-helper.py:494-497 | a visit stops the pass only when the video link or its subtitle link was already there |
| Mirror.VideosVisitCount | ta-helper.py:479-491 | the number of videos visited among the first j equals the number of unassigned ones among them |
| Mirror.EntriesVisitCount | ta-helper.py:530-547 | the number of entries visited among the first j equals the number of known ones among them |
| Mirror.VideosPassLinks | ta-helper.py:473-500 | every unassigned video the pass gets past, or ends at without an exception, has its link afterwards, unless a later video unlinks the same path |
| Mirror.VideosPassNfo | ta-helper.py:473-500 | the `.nfo` of a new unassigned video the pass gets past holds its document with episode number equal to its rank among the unassigned videos, and season 1 |
| Mirror.VideosPassStop | ta-helper.py:494-497 | the pass stops only under `QUICK`, without an exception, at an unassigned video |
| Mirror.VideosPassQuick | ta-helper.py:494-497 | the pass stops only at a video whose link or subtitle link was there before the pass or was made by an earlier video of the pass |
| Mirror.PlaylistPassLinks | ta-helper.py:529-553 | every known entry the pass gets past, or ends at without an exception, has its link afterwards |
| Mirror.PlaylistPassNfo | ta-helper.py:529-553 | the `.nfo` of a new known entry the pass gets past holds its document with episode number equal to its rank among the known entries, and the playlist's season number |
| Mirror.PlaylistPassStop | ta-helper.py:548-550 | the pass stops only under `QUICK`, without an exception, at a known entry |
| Mirror.PlaylistPassQuick | ta-helper.py:548-550 | the pass stops only at an entry whose link or subtitle link was there before the pass or was made by an earlier entry of the pass |
| Mirror.PassOutside | ta-helper.py:473-553 | a pass changes nothing outside its season folder |
| Mirror.VideosStep | ta-helper.py:479-498 | one video of the "Videos" pass has exactly `JobEffect`'s result: a video with a playlist only has its stale link removed, if it still leads somewhere; an unassigned one is visited with the given episode number and season 1 |
| Mirror.VideosTurn | ta-helper.py:474-498 | one video advances the episode numbering exactly as the plan says, and the pass from this video equals the pass from the next one on the new tree, unless this one raised or stopped |
| Mirror.VideosPass | ta-helper.py:473-500 | the tree, log and exception are exactly `VideosPassEffect`'s; the episodes handed out are a prefix of the numbering of the unassigned videos, and all of it without `QUICK`; notifications only grow, by at most one per unassigned video, and none when disabled |
| Mirror.EntryTurn | ta-helper.py:530-551 | one playlist entry advances the episode numbering as the plan says, and the pass from this entry equals the pass from the next one on the new tree, unless this one raised or stopped |
| Mirror.PlaylistPass | ta-helper.py:529-551 | the tree, log and exception are exactly `PlaylistPassEffect`'s; the episodes handed out are a prefix of the numbering of the known entries, and all of it without `QUICK`; notifications are bounded as for the "Videos" pass |
| Mirror.ChannelFolder | ta-helper.py:427-436 | the tree and exception are exactly `ChannelFolderEffect`'s; an existing folder, with a cache and no exception, has its four image links relinked into the cache |
| Mirror.ChannelFolderEffect | ta-helper.py:428-436 | nothing is lost; nothing changes outside the channel folder and its ancestors; an exception escapes only for a folder that already existed |
| Mirror.NewChannelFolder | ta-helper.py:431-436 | for a new channel folder nothing escapes; the folder exists afterwards unless `makedirs` failed, which changes nothing; with show NFOs, `tvshow.nfo` holds the show document unless the resources step raised |
| Mirror.PlaylistFolderEffect | ta-helper.py:519-527 | nothing is lost; nothing changes outside the season folder and its ancestors; an exception escapes only for a folder that already existed |
| Mirror.NewPlaylistFolder | ta-helper.py:522-527 | for a new season folder nothing escapes; the folder exists afterwards unless `makedirs` failed, which changes nothing; with show NFOs, `season.nfo` holds the season document with its number unless the resources step raised |
| Mirror.VideosFolderTree | ta-helper.py:448-458 | nothing is lost, and nothing changes outside the "Videos" folder and its ancestors |
| Mirror.NewVideosFolder | ta-helper.py:448-458 | a newly made "Videos" folder exists, and with show NFOs holds a `season.nfo` for season 1 unless the resources step raised |
| Mirror.PlaylistFolder | ta-helper.py:519-527 | the tree and exception are exactly `PlaylistFolderEffect`'s; an existing folder other than "Videos", with a cache and no exception, has `folder.jpg` relinked to the playlist thumbnail |
| Mirror.VideosFolder | ta-helper.py:448-460 | the tree is exactly `VideosFolderTree`, and nothing escapes, since every exception is caught |
| Mirror.SeasonTurn | ta-helper.py:503-551 | one playlist advances the season numbering exactly when it belongs to the channel, and the loop from it equals the loop from the next playlist on the new tree, unless it raised |
| Mirror.PlaylistSeasons | ta-helper.py:503-553 | the tree, log and exception are exactly those of `SeasonsOver`, which runs `SeasonEffect` over the channel's own playlists with the season numbers `SeasonList` hands out from 2; notifications only grow, and none when disabled |
| Mirror.SeasonPlanPrefix | ta-helper.py:503-510 | the seasons handed out after any prefix of the playlist list are a prefix of the full numbering from 2, and all of it after the whole list |
| Mirror.SeasonsNumbered | ta-helper.py:503-553 | the playlist loop from any playlist on equals `SeasonsOver` over the channel's remaining playlists, numbered on from the last season number handed out: each playlist of another channel is skipped, and an exception ends the loop |
| Mirror.SeasonListNumbering | ta-helper.py:503-510 | the plan holds exactly the channel's own playlists, in list order, the k-th numbered `first + k` |
| Mirror.SeasonOutside | ta-helper.py:503-553 | one season changes nothing outside the channel's folder and its ancestors |
| Mirror.SeasonsOutside | ta-helper.py:503-553 | the playlist loop changes nothing outside the channel's folder and its ancestors |
| Mirror.SeasonsNotified | ta-helper.py:503-553 | the playlist loop only adds notifications, and none when they are disabled |
| Mirror.ProcessChannel | ta-helper.py:416-553 | the tree, log and exception are exactly `ChannelEffect`'s, whose playlist part is the loop `SeasonsNumbered` numbers from 2; notifications only grow, and none when disabled |
| Mirror.ChannelOutside | ta-helper.py:416-553 | one channel changes nothing outside its folder and the folder's ancestors |
| Mirror.ChannelNotified | ta-helper.py:416-553 | one channel only adds notifications, and none when they are disabled |
| Mirror.ChannelsOutside | ta-helper.py:416-553 | the channel loop changes nothing outside the target folder and its ancestors |
| Mirror.ChannelsNotified | ta-helper.py:416-553 | the channel loop only adds notifications, and none when they are disabled |
| Mirror.Channels | ta-helper.py:416-553 | the tree, log and exception are exactly `ChannelsFrom`'s from the first channel, each channel being `ChannelEffect` with its playlists numbered by `SeasonsNumbered` |
| Script.Run | ta-helper.py:375-557 | the mirroring is exactly `MirrorEffect`; without cleanup, or after an exception, its tree is the final tree; otherwise every queued entry is gone, an entry survives unless it is queued, inside a candidate or inside a folder directly under the target folder, season contents and the entries of a channel folder that still holds a season survive unless queued or inside a candidate, without a symlink-safe `rmtree` exactly the queued entries go, and with one every candidate and every channel folder left without a subfolder is gone; each channel's playlists are numbered as `SeasonsNumbered` states; notifications only grow, and none when disabled |
| Script.MirrorOutside | ta-helper.py:375-553 | the mirroring changes nothing outside the target folder and its ancestors |
| Script.MirrorChannels | ta-helper.py:375-553 | `makedirs` of the target folder (an existing one is fine) and then the channel loop: the tree, log and exception are exactly `MirrorEffect`'s |
| Orphans.ExtraMatch | ta-helper.py:264 | `extras_pattern` matches exactly the names ending (case-insensitively) in `.nfo`, `-poster.jpg` or a non-empty SUB_FORMAT, and the match is that suffix |
| Orphans.ExtrasSub | ta-helper.py:280 | the matched suffix is replaced by `.mp4` |
| Orphans.ExtrasSubStem | ta-helper.py:280 | `stem + suffix` becomes `stem.mp4` |
| Orphans.ExtraMatchAsWritten | ta-helper.py:264 | the pattern as written: with an empty SUB_FORMAT every name matches |
| Orphans.ExtrasSubAsWritten | ta-helper.py:280 | the substitution as written: with an empty SUB_FORMAT `.mp4` is also appended at the end |
| Orphans.WalkPathSplit | ta-helper.py:267-274 | the path string the walk builds names the entry it came from |
| Orphans.ScanEntry | ta-helper.py:273-297 | one entry is a subfolder, a hanging file, a working link or none of these, exactly by the classification rules, and never both hanging and working |
| Orphans.IsHanging | ta-helper.py:273-297 | `tvshow.nfo` and `season.nfo` never hang, and neither does a plain file that is neither an extra nor a link |
| Orphans.IsWorkingLink | ta-helper.py:284-291 | a working link never hangs, wherever the walk starts; a non-extra link that is not working hangs for every walk that reaches it |
| Orphans.Candidate | ta-helper.py:299-300 | a candidate is a directory at or below the target folder, and no entry directly in it is a directory or a working link |
| Orphans.ScanDir | ta-helper.py:272-300 | one folder yields exactly its hanging files, without duplicates, and whether it has a subfolder and a working link |
| Orphans.FindOrphans | ta-helper.py:264-300 | `broken` is exactly the queued files and `empty_subfolders` exactly the candidate folders, each without duplicates |
| Orphans.Queued | ta-helper.py:266-300 | a queued entry lies strictly inside the target folder, is never a working link, and is never `tvshow.nfo` or `season.nfo` |
| Orphans.ExtraQueuedIff | ta-helper.py:276-283 | an extra file is queued exactly when the same path with its suffix replaced by `.mp4` does not exist |
| Orphans.ExpectedOfExtra | ta-helper.py:280 | the expected video of `dir/stem+suffix` is `dir/stem.mp4` |
| Sweep.CandidateContents | ta-helper.py:299-300 | an entry inside an empty-folder candidate is the folder itself or one of its own entries that is neither a directory nor a working link |
| Sweep.CandidatesApart | ta-helper.py:299-300 | no candidate lies inside another |
| Sweep.LiveVideoKept | ta-helper.py:284-300 | a video link whose file exists is neither queued nor inside a candidate folder |
| Sweep.LiveExtrasKept | ta-helper.py:276-300 | an extra file next to a live video is neither queued nor inside a candidate folder |
| Sweep.RemoveBroken | ta-helper.py:302-311 | exactly the queued files are removed |
| Sweep.RemoveEach | ta-helper.py:320-322 | candidates are removed in order; the loop stops only at the filesystem root, with the error `rmtree` raises there |
| Sweep.RemoveEmpty | ta-helper.py:316-322 | every candidate subtree is removed, and nothing else; it fails only if the root itself is a candidate |
| Sweep.HasSubfolder | ta-helper.py:329-333 | the inner scan reports exactly whether the folder has a subfolder |
| Sweep.GitTestNeverHolds | ta-helper.py:326 | an entry name never starts with "./.git" |
| Sweep.PruneEntry | ta-helper.py:325-337 | a channel folder with no subfolder is removed; anything else is left alone |
| Sweep.EmptyChannelPruned | ta-helper.py:335-336 | a folder that had no subfolder still has none after earlier deletions, and is removed |
| Sweep.PrunedHoldsNoSeason | ta-helper.py:329-336 | a pruned channel folder holds no season folder |
| Sweep.PruneChannels | ta-helper.py:324-337 | only deletes; a `scandir` error changes nothing; entries outside the target folder, entries not inside a folder directly under it, and entries below a season folder survive, and so does everything in a channel folder that holds a season folder; when nothing raised, every channel folder without a subfolder is gone |
| Sweep.SeasonsKept | ta-helper.py:260-337 | every entry inside a season folder that is neither queued nor inside a candidate survives the first two deletion passes, and so does its season folder |
| Sweep.LiveVideoHangsAsWritten | ta-helper.py:264-283 | with an empty SUB_FORMAT the code as written classifies a live video link as hanging when its `.mp4.mp4` sibling is missing; the intended pattern does not |
| Sweep.Cleanup | ta-helper.py:260-337 | only deletes; every queued file is gone; an entry survives unless it is queued, inside a candidate or inside a folder directly under the target folder; entries inside seasons that are neither queued nor inside a candidate survive, and so does every such entry of a channel folder that still holds a season after the first two loops (its `tvshow.nfo` and image links); without a symlink-safe `rmtree` exactly the queued files go; with one and no exception every candidate folder goes, and so does every channel folder the first two loops leave without a subfolder |
| Sweep.RemoveFolders | ta-helper.py:313-337 | with the queued files gone: entries in seasons, entries outside candidates and outside the target's folder children, and entries of a channel folder that still holds a season survive; when nothing raised, every candidate and every channel folder left without a subfolder is gone |
| Sweep.SweptIs | ta-helper.py:302-322 | the tree after the first two loops is the original without the queued files and the candidate subtrees |

## Left out

- HTTP requests and pagination (ta-helper.py:377-411, 462-471, 531-534) are not modelled. The catalogue is an input value.
  - A failed channel-video request is a channel missing from `channelVideos`.
  - A failed single-video lookup is an id missing from `videoById`.
  - The early exits when no channel or playlist is returned are not modelled.
- Configuration loading with dotenv and `strtobool` (ta-helper.py:14-60) is not modelled, and neither is logging. The flags form the immutable `Config` record.
- `notify` (ta-helper.py:225-258) builds an e-mail and calls apprise. The model records only the youtube id in `FileSystem.notified`.
- The `POSTPROCESS_COMMAND` subprocess call (ta-helper.py:559-561) is not modelled; it runs an external process.
- Python's Unicode `\w` is the parameter `Config.isWord`. Case-insensitive matching folds ASCII letters only.
- `$` in `extras_pattern` also matches before a trailing newline. File names are taken to hold no newline.
- Paths:
  - They are strings, read as component lists by `SplitPath`, which drops empty and `.` components.
  - `..` is not resolved.
  - A symlink in the middle of a path is not followed; only the last component is resolved, up to 40 hops.
  - A relative path resolves from the root.
  - An empty TARGET_FOLDER is the root here, whereas Python's `makedirs("")` raises.
- Writing a file over an existing symlink replaces the link. Python would write through it.
- Disk.FileSystem.RmTree: on the filesystem root (reachable only with TARGET_FOLDER "/" or empty) the model raises and changes nothing. `shutil.rmtree` would delete the root's contents first and fail only at the final `rmdir`.
- `os.walk` and `os.scandir` return entries in filesystem order. The model leaves the order open: each loop picks any entry not yet seen.
- `process_video` rewrites `media_url` in the caller's record. The model passes the rewritten record (`LocalMedia`) where the code would see it.
- The flag `shutil.rmtree.avoids_symlink_attacks` is the parameter `avoidsSymlinkAttacks`.
- Every uncaught exception ends `Script.Run` with `Some(error)`. Python would end the process with a traceback.
- Naming.StrMaxLen: requires `maxlen >= 1`. For `maxlen` 0, Python's `s[:-1]` would drop the last character.
- Nfo.TvShowNfo, Nfo.SeasonNfo, Nfo.VideoNfo: state the read-back only for refresh dates, ids and poster paths free of `<`. Escaped fields need no such condition.
- Orphans.ExtraQueuedIff: requires that SUB_FORMAT holds no `/`.
- Mirror.VideosPass, Mirror.PlaylistPass, Mirror.ProcessChannel, Script.Run: bound the notification log rather than naming each notified id.
- Mirror.NewChannelFolder, Mirror.NewPlaylistFolder, Mirror.NewVideosFolder: state the new `tvshow.nfo` or `season.nfo` only when the resources step raised nothing. The image links of a new folder are stated by `SetupNewChannelResources` and `SetupNewPlaylistResources`.
- Mirror.NewVideosFolder: covers a successful `makedirs` only. A failed one is caught, and `VideosFolderTree` then leaves the tree as it was.
- Mirror.VisitVideo: for an already mirrored video without `QUICK` and with a cache, it does not restate the refreshed poster link. That link is stated by `SetupVideoThumb`.
- Materialise.NewVideoOnDisk, Materialise.VideoLinkAfter, Materialise.AlreadyThere, Mirror.NewVideoVisited, Mirror.VisitStop: require `SidecarsApart`, that a video's link, poster, `.nfo` and subtitle paths are four distinct non-empty paths. The code never checks this; with the usual suffixes it holds.
- Mirror.VideosPassLinks, Mirror.VideosPassNfo, Mirror.VideosPassQuick, Mirror.PlaylistPassLinks, Mirror.PlaylistPassNfo, Mirror.PlaylistPassQuick: require `SidecarsApart` for the videos concerned. The `.nfo` lemmas also require that no other item of the pass touches that video's link or `.nfo` path.
- Mirror.VideosPassQuick, Mirror.PlaylistPassQuick: state where a `QUICK` stop can happen through `StoppedAt`. At the item the pass stops at, the link or subtitle link was there before the pass or was made by an earlier item. They do not say which earlier videos were already mirrored.
- Sweep.PruneChannels, Sweep.Cleanup, Script.Run: bound what the channel-folder loop may delete by `InFolderChild`, anything inside a folder directly under the target folder, and keep every channel folder that holds a season (`HoldsSeason`). A folder child with no season folder but a subfolder reached through a link is in neither set.
- Script.Run: the per-pass facts (links, `.nfo` documents, `QUICK` stops) are proved for each pass, on the tree that pass starts from. They are not carried through the later passes and channels into one statement about the final tree.

## Findings

| source | as written | input that shows it | evidently intended | confidence | as-written member | corrected member |
|---|---|---|---|---|---|---|
| ta-helper.py:264, 280-283 | With an empty SUB_FORMAT, `re.escape("")` leaves an empty alternative in `extras_pattern`, which matches at the end of every name. `sub(".mp4", path)` then appends `.mp4`, or appends it twice after a `.nfo` or `-poster.jpg` match. | SUB_FORMAT="" and a live video link `Videos/x.mp4`: the expected video is `Videos/x.mp4.mp4`, which is missing, so the live link is queued and deleted. | An empty SUB_FORMAT contributes no alternative, so only `.nfo` and `-poster.jpg` extras are checked. | medium, not executed | Orphans.ExtraMatchAsWritten, Sweep.LiveVideoHangsAsWritten | Orphans.ExtraMatch, Sweep.LiveVideoKept |
