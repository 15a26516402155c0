/** The pure naming helpers of ta-helper.py and the names built from them:
    channel and playlist folder names, and the video symlink name. */
module Naming {
  import opened Text
  import opened Catalog

  /** The characters `sanitize` replaces: `/ \ ? % * : | " < >`, DEL and the
      control characters 0x00-0x1F. */
  predicate IsHostile(c: char) {
    c == '/' || c == '\\' || c == '?' || c == '%' || c == '*' || c == ':' ||
    c == '|' || c == '"' || c == '<' || c == '>' || c as int == 0x7F || c as int <= 0x1F
  }

  /** `sanitize(s)`: each hostile character becomes `_`, one for one. */
  function Sanitize(s: string): (r: string)
    ensures |r| == |s|
    ensures forall i :: 0 <= i < |r| ==> !IsHostile(r[i])
    ensures forall i :: 0 <= i < |s| && IsHostile(s[i]) ==> r[i] == '_'
    ensures forall i :: 0 <= i < |s| && !IsHostile(s[i]) ==> r[i] == s[i]
  {
    if s == [] then []
    else [if IsHostile(s[0]) then '_' else s[0]] + Sanitize(s[1..])
  }

  /** Sanitizing twice is sanitizing once. */
  lemma SanitizeIdempotent(s: string)
    ensures Sanitize(Sanitize(s)) == Sanitize(s)
  {
    var once := Sanitize(s);
    assert forall i :: 0 <= i < |once| ==> Sanitize(once)[i] == once[i];
  }

  /** Python's `\s` for `str` patterns: the characters for which
      `str.isspace()` holds. */
  predicate IsSpace(c: char) {
    var n := c as int;
    (0x09 <= n <= 0x0D) || (0x1C <= n <= 0x20) || n == 0x85 || n == 0xA0 ||
    n == 0x1680 || (0x2000 <= n <= 0x200A) || n == 0x2028 || n == 0x2029 ||
    n == 0x202F || n == 0x205F || n == 0x3000
  }

  /** First step of `urlify`: drop every character that is neither a word
      character nor whitespace (`re.sub(r"[^\w\s]", "", s)`). */
  function KeepWordAndSpace(isWord: char -> bool, s: string): (r: string)
    ensures |r| <= |s|
    ensures forall i :: 0 <= i < |r| ==> isWord(r[i]) || IsSpace(r[i])
    ensures forall c :: isWord(c) || IsSpace(c) ==> multiset(r)[c] == multiset(s)[c]
    decreases |s|
  {
    if s == [] then []
    else
      assert s == [s[0]] + s[1..];
      if isWord(s[0]) || IsSpace(s[0]) then [s[0]] + KeepWordAndSpace(isWord, s[1..])
      else KeepWordAndSpace(isWord, s[1..])
  }

  /** The first step distributes over concatenation, so it keeps the
      surviving characters in their order. */
  lemma {:induction false} KeepConcat(isWord: char -> bool, a: string, b: string)
    ensures KeepWordAndSpace(isWord, a + b) == KeepWordAndSpace(isWord, a) + KeepWordAndSpace(isWord, b)
    decreases |a|
  {
    if a == [] {
      assert a + b == b;
    } else {
      assert (a + b)[0] == a[0] && (a + b)[1..] == a[1..] + b;
      KeepConcat(isWord, a[1..], b);
    }
  }

  /** A single character is kept exactly when it is a word character or
      whitespace. */
  lemma KeepOne(isWord: char -> bool, c: char)
    ensures KeepWordAndSpace(isWord, [c]) == if isWord(c) || IsSpace(c) then [c] else []
  {
    assert [c][1..] == [];
  }

  /** The suffix of `s` after its leading whitespace. */
  function SkipSpaces(s: string): (r: string)
    ensures |r| <= |s| && r == s[|s| - |r|..]
    ensures r == [] || !IsSpace(r[0])
    ensures forall i :: 0 <= i < |s| - |r| ==> IsSpace(s[i])
  {
    if s != [] && IsSpace(s[0]) then SkipSpaces(s[1..]) else s
  }

  /** Second step of `urlify`: each maximal run of whitespace becomes one `_`
      (`re.sub(r"\s+", "_", s)`). */
  function CollapseSpaces(s: string): (r: string)
    ensures forall i :: 0 <= i < |r| ==> !IsSpace(r[i])
    decreases |s|
  {
    if s == [] then []
    else if IsSpace(s[0]) then "_" + CollapseSpaces(SkipSpaces(s[1..]))
    else [s[0]] + CollapseSpaces(s[1..])
  }

  /** Skipping leading whitespace loses no other character. */
  lemma {:induction false} SkipCounts(s: string, c: char)
    requires !IsSpace(c)
    ensures multiset(SkipSpaces(s))[c] == multiset(s)[c]
    decreases |s|
  {
    if s != [] && IsSpace(s[0]) {
      assert s == [s[0]] + s[1..];
      SkipCounts(s[1..], c);
    }
  }

  /** Collapsing keeps every character other than whitespace and `_`, as
      often as it occurs. */
  lemma {:induction false} CollapseCounts(s: string, c: char)
    requires !IsSpace(c) && c != '_'
    ensures multiset(CollapseSpaces(s))[c] == multiset(s)[c]
    decreases |s|
  {
    if s != [] {
      assert s == [s[0]] + s[1..];
      if IsSpace(s[0]) {
        SkipCounts(s[1..], c);
        CollapseCounts(SkipSpaces(s[1..]), c);
      } else {
        CollapseCounts(s[1..], c);
      }
    }
  }

  /** Collapsing brings in no character but `_`. */
  lemma {:induction false} CollapseChars(s: string)
    ensures forall c :: c in CollapseSpaces(s) ==> c == '_' || c in s
    decreases |s|
  {
    if s == [] {
    } else if IsSpace(s[0]) {
      var t := SkipSpaces(s[1..]);
      CollapseChars(t);
      SuffixIn(s, t);
    } else {
      CollapseChars(s[1..]);
      forall c | c in s[1..]
        ensures c in s
      {
        SuffixIn(s, s[1..]);
      }
    }
  }

  /** Every character of a proper suffix of `s` is a character of `s`. */
  lemma SuffixIn(s: string, t: string)
    requires |t| < |s| && t == s[|s| - |t|..]
    ensures forall c :: c in t ==> c in s
  {
    forall c | c in t
      ensures c in s
    {
      var j :| 0 <= j < |t| && t[j] == c;
      assert s[|s| - |t| + j] == c;
    }
  }

  /** `urlify(s)`: the output holds no whitespace, and every character in
      it is `_` or a word character of the input. */
  function Urlify(isWord: char -> bool, s: string): (r: string)
    ensures forall i :: 0 <= i < |r| ==> !IsSpace(r[i])
    ensures forall i :: 0 <= i < |r| ==> r[i] == '_' || (isWord(r[i]) && r[i] in s)
    ensures forall c :: !IsSpace(c) && c != '_' ==>
      multiset(r)[c] == if isWord(c) then multiset(s)[c] else 0
  {
    UrlifyChars(isWord, s);
    UrlifyCounts(isWord, s);
    CollapseSpaces(KeepWordAndSpace(isWord, s))
  }

  /** How often each character other than whitespace and `_` survives:
      every occurrence of a word character, no occurrence of anything else. */
  lemma UrlifyCounts(isWord: char -> bool, s: string)
    ensures forall c :: !IsSpace(c) && c != '_' ==>
      multiset(CollapseSpaces(KeepWordAndSpace(isWord, s)))[c] == if isWord(c) then multiset(s)[c] else 0
  {
    var k := KeepWordAndSpace(isWord, s);
    forall c | !IsSpace(c) && c != '_'
      ensures multiset(CollapseSpaces(k))[c] == if isWord(c) then multiset(s)[c] else 0
    {
      CollapseCounts(k, c);
      if !isWord(c) {
        assert c !in k;
      }
    }
  }

  /** A character that is neither a word character nor whitespace can be
      removed from anywhere in the input without changing the output: the
      word characters around it end up next to each other, in order. */
  lemma UrlifyDropsOther(isWord: char -> bool, a: string, c: char, b: string)
    requires !isWord(c) && !IsSpace(c)
    ensures Urlify(isWord, a + [c] + b) == Urlify(isWord, a + b)
  {
    KeepConcat(isWord, a + [c], b);
    KeepConcat(isWord, a, [c]);
    KeepConcat(isWord, a, b);
    KeepOne(isWord, c);
    assert KeepWordAndSpace(isWord, a) + [] == KeepWordAndSpace(isWord, a);
  }

  /** The characters the two substitutions leave. */
  lemma UrlifyChars(isWord: char -> bool, s: string)
    ensures forall c :: c in CollapseSpaces(KeepWordAndSpace(isWord, s)) ==> c == '_' || (isWord(c) && c in s)
  {
    var k := KeepWordAndSpace(isWord, s);
    KeepIsSubsequence(isWord, s);
    CollapseChars(k);
    forall c | c in CollapseSpaces(k) && c != '_'
      ensures isWord(c) && c in s
    {
      var i :| 0 <= i < |CollapseSpaces(k)| && CollapseSpaces(k)[i] == c;
      assert c in k && !IsSpace(c);
      var j :| 0 <= j < |k| && k[j] == c;
    }
  }

  lemma {:induction false} KeepIsSubsequence(isWord: char -> bool, s: string)
    ensures forall c :: c in KeepWordAndSpace(isWord, s) ==> c in s
  {
    if s != [] {
      KeepIsSubsequence(isWord, s[1..]);
    }
  }

  /** A string of whitespace-free word characters is left as it is. */
  lemma {:induction false} UrlifyFixesWords(isWord: char -> bool, s: string)
    requires forall i :: 0 <= i < |s| ==> isWord(s[i]) && !IsSpace(s[i])
    ensures Urlify(isWord, s) == s
  {
    KeepAll(isWord, s);
    CollapseNoSpace(s);
  }

  lemma {:induction false} KeepAll(isWord: char -> bool, s: string)
    requires forall i :: 0 <= i < |s| ==> isWord(s[i]) || IsSpace(s[i])
    ensures KeepWordAndSpace(isWord, s) == s
  {
    if s != [] {
      KeepAll(isWord, s[1..]);
    }
  }

  lemma {:induction false} CollapseNoSpace(s: string)
    requires forall i :: 0 <= i < |s| ==> !IsSpace(s[i])
    ensures CollapseSpaces(s) == s
  {
    if s != [] {
      CollapseNoSpace(s[1..]);
    }
  }

  /** `urlify` is idempotent, since `_` is a word character. */
  lemma UrlifyIdempotent(isWord: char -> bool, s: string)
    requires isWord('_')
    ensures Urlify(isWord, Urlify(isWord, s)) == Urlify(isWord, s)
  {
    UrlifyFixesWords(isWord, Urlify(isWord, s));
  }

  /** A whitespace run between two non-space characters becomes exactly one
      `_`: the `\s+` replacement seen on one maximal run. */
  lemma {:induction false} CollapseRun(a: string, run: string, b: string)
    requires forall i :: 0 <= i < |a| ==> !IsSpace(a[i])
    requires run != [] && forall i :: 0 <= i < |run| ==> IsSpace(run[i])
    requires b == [] || !IsSpace(b[0])
    ensures CollapseSpaces(a + run + b) == a + "_" + CollapseSpaces(b)
    decreases |a|
  {
    if a == [] {
      assert a + run + b == run + b;
      CollapseRunStart(run, b);
    } else {
      var t := a[1..] + run + b;
      calc {
        CollapseSpaces(a + run + b);
        { assert a + run + b == [a[0]] + t; }
        CollapseSpaces([a[0]] + t);
        { CollapseHead(a[0], t); }
        [a[0]] + CollapseSpaces(t);
        { CollapseRun(a[1..], run, b); }
        [a[0]] + (a[1..] + "_" + CollapseSpaces(b));
        { assert [a[0]] + a[1..] == a; }
        a + "_" + CollapseSpaces(b);
      }
    }
  }

  lemma CollapseRunStart(run: string, b: string)
    requires run != [] && forall i :: 0 <= i < |run| ==> IsSpace(run[i])
    requires b == [] || !IsSpace(b[0])
    ensures CollapseSpaces(run + b) == "_" + CollapseSpaces(b)
  {
    var s := run + b;
    assert s[0] == run[0];
    assert s[1..] == run[1..] + b;
    SkipRun(run[1..], b);
  }

  lemma CollapseHead(c: char, t: string)
    requires !IsSpace(c)
    ensures CollapseSpaces([c] + t) == [c] + CollapseSpaces(t)
  {
    assert ([c] + t)[0] == c && ([c] + t)[1..] == t;
  }

  lemma {:induction false} SkipRun(run: string, b: string)
    requires forall i :: 0 <= i < |run| ==> IsSpace(run[i])
    requires b == [] || !IsSpace(b[0])
    ensures SkipSpaces(run + b) == b
    decreases |run|
  {
    if run == [] {
      assert run + b == b;
    } else {
      assert (run + b)[1..] == run[1..] + b;
      SkipRun(run[1..], b);
    }
  }

  /** The characters of `s` other than `c`, in order. */
  function RemoveChar(s: string, c: char): (r: string)
    ensures |r| <= |s|
    ensures c !in r
  {
    if s == [] then []
    else if s[0] == c then RemoveChar(s[1..], c)
    else [s[0]] + RemoveChar(s[1..], c)
  }

  lemma {:induction false} RemoveCharConcat(a: string, b: string, c: char)
    ensures RemoveChar(a + b, c) == RemoveChar(a, c) + RemoveChar(b, c)
  {
    if a == [] {
      assert a + b == b;
    } else {
      assert (a + b)[1..] == a[1..] + b;
      RemoveCharConcat(a[1..], b, c);
    }
  }

  lemma {:induction false} RemoveCharAbsent(s: string, c: char)
    requires c !in s
    ensures RemoveChar(s, c) == s
  {
    if s != [] {
      RemoveCharAbsent(s[1..], c);
    }
  }

  /** The first `n` characters of `s` (Python's `s[:n]`). */
  function Take(s: string, n: nat): (r: string)
    ensures |r| <= n && |r| <= |s|
    ensures r == s[..|r|]
    ensures |s| >= n ==> |r| == n
  {
    if |s| <= n then s else s[..n]
  }

  /** `simplify_date(s)`: the first ten characters without their dashes. */
  function SimplifyDate(s: string): (r: string)
    ensures |r| <= 10
    ensures '-' !in r
  {
    RemoveChar(Take(s, 10), '-')
  }

  /** An ISO date "YYYY-MM-DD", whatever follows it, becomes "YYYYMMDD". */
  lemma SimplifyIsoDate(y: string, m: string, d: string, rest: string)
    requires |y| == 4 && |m| == 2 && |d| == 2
    requires '-' !in y && '-' !in m && '-' !in d
    ensures SimplifyDate(y + "-" + m + "-" + d + rest) == y + m + d
  {
    var date := y + "-" + m + "-" + d;
    assert Take(date + rest, 10) == date by {
      assert (date + rest)[..10] == date;
    }
    RemoveDashes(y, m, d);
  }

  lemma RemoveDashes(y: string, m: string, d: string)
    requires '-' !in y && '-' !in m && '-' !in d
    ensures RemoveChar(y + "-" + m + "-" + d, '-') == y + m + d
  {
    assert RemoveChar("-", '-') == [];
    calc {
      RemoveChar(y + "-" + m + "-" + d, '-');
      { RemoveCharConcat(y + "-" + m + "-", d, '-'); }
      RemoveChar(y + "-" + m + "-", '-') + RemoveChar(d, '-');
      { RemoveCharConcat(y + "-" + m, "-", '-'); }
      RemoveChar(y + "-" + m, '-') + RemoveChar(d, '-');
      { RemoveCharConcat(y + "-", m, '-'); RemoveCharConcat(y, "-", '-'); }
      RemoveChar(y, '-') + RemoveChar(m, '-') + RemoveChar(d, '-');
      { RemoveCharAbsent(y, '-'); RemoveCharAbsent(m, '-'); RemoveCharAbsent(d, '-'); }
      y + m + d;
    }
  }

  /** The horizontal ellipsis `strmaxlen` appends. */
  const Ellipsis: char := '\U{2026}'

  /** `strmaxlen(s, maxlen)`: `s` itself when it fits, otherwise its first
      `maxlen - 1` characters and an ellipsis, exactly `maxlen` long. */
  function StrMaxLen(s: string, maxlen: nat): (r: string)
    requires maxlen >= 1
    ensures |s| <= maxlen ==> r == s
    ensures |s| > maxlen ==> |r| == maxlen && r[..maxlen - 1] == s[..maxlen - 1] && r[maxlen - 1] == Ellipsis
    ensures |r| <= maxlen || r == s
  {
    if |s| > maxlen then s[..maxlen - 1] + [Ellipsis] else s
  }

  /** `cache_path(cache)`: the cache prefix, and with the docker layout the
      first "/cache" of the reference dropped. */
  function CachePath(cfg: Config, cache: string): (r: string)
    ensures StartsWith(r, cfg.cache)
    ensures !cfg.cacheDocker ==> r[|cfg.cache|..] == cache
    ensures cfg.cacheDocker && StartsWith(cache, "/cache") ==> r[|cfg.cache|..] == cache[6..]
    ensures !Contains(cache, "/cache") ==> r[|cfg.cache|..] == cache
    ensures cfg.cacheDocker ==>
      forall i: nat :: FirstAt(cache, "/cache", i) ==> r[|cfg.cache|..] == cache[..i] + cache[i + 6..]
  {
    ReplaceFirstAll(cache, "/cache", "");
    var tail := if cfg.cacheDocker then ReplaceFirst(cache, "/cache", "") else cache;
    assert (cfg.cache + tail)[..|cfg.cache|] == cfg.cache;
    assert (cfg.cache + tail)[|cfg.cache|..] == tail;
    cfg.cache + tail
  }

  /** What `str(x)` gives for a channel name: "None" for a JSON null. */
  function Display(name: Option<string>): string {
    match name
    case None => "None"
    case Some(n) => n
  }

  /** The channel folder name (ta-helper.py:419-427): the sanitized
      `str(channel_name)`, or the sanitized id when that is empty. */
  function ChannelDirName(ch: Channel): (r: string)
    ensures forall i :: 0 <= i < |r| ==> !IsHostile(r[i])
    ensures ch.channelName == None ==> r == "None"
    ensures ch.channelName.Some? && ch.channelName.value != "" ==>
      r == Sanitize(ch.channelName.value) && |r| == |ch.channelName.value|
    ensures ch.channelName == Some("") ==> r == Sanitize(ch.channelId) && |r| == |ch.channelId|
  {
    var shown := Display(ch.channelName);
    Sanitize(if |shown| < 1 then ch.channelId else shown)
  }

  /** The playlist folder name (ta-helper.py:511-517): the sanitized name, or
      the playlist id as it is when the name is empty. */
  function PlaylistDirName(pl: Playlist): (r: string)
    ensures pl.playlistName != "" ==> r == Sanitize(pl.playlistName) && |r| == |pl.playlistName|
    ensures pl.playlistName != "" ==> forall i :: 0 <= i < |r| ==> !IsHostile(r[i])
    ensures pl.playlistName == "" ==> r == pl.playlistId
  {
    var s := Sanitize(pl.playlistName);
    if |s| < 1 then pl.playlistId else s
  }

  /** The channel label a video's name starts from: `channel_name or channel_id`. */
  function VideoChannelLabel(v: Video): string {
    if v.channelName != "" then v.channelName else v.channelId
  }

  /** The video symlink name (ta-helper.py:475-477, 540-542). */
  function VideoSymlinkName(isWord: char -> bool, chanLabel: string, published: string, youtubeId: string): (r: string)
    ensures EndsWith(r, "].mp4")
  {
    var u := Urlify(isWord, Sanitize(chanLabel));
    var name := u + " - " + SimplifyDate(published) + " - [" + youtubeId + "].mp4";
    assert name[|name| - 5..] == "].mp4";
    name
  }

  /** Reads back the three parts of a video symlink name: the urlified
      channel, the simplified date and the youtube id. */
  function ParseVideoName(name: string): Option<(string, string, string)> {
    var i := IndexOf(name, ' ');
    if StartsWith(name[i..], " - ") then ParseDateAndId(name[..i], name[i + 3..]) else None
  }

  function ParseDateAndId(u: string, rest: string): Option<(string, string, string)> {
    var j := IndexOf(rest, '-');
    if 1 <= j && StartsWith(rest[j - 1..], " - [") then ParseId(u, rest[..j - 1], rest[j + 3..]) else None
  }

  function ParseId(u: string, d: string, tail: string): Option<(string, string, string)> {
    if EndsWith(tail, "].mp4") then Some((u, d, tail[..|tail| - 5])) else None
  }

  /** The first `c` of `a + b` is the head of `b` when `a` holds none. */
  lemma {:induction false} IndexOfAfter(a: string, b: string, c: char)
    requires c !in a
    requires b != [] && b[0] == c
    ensures IndexOf(a + b, c) == |a|
  {
    if a != [] {
      assert (a + b)[1..] == a[1..] + b;
      IndexOfAfter(a[1..], b, c);
    }
  }

  /** Parsing inverts the layout "<channel> - <date> - [<id>].mp4" whenever
      the channel part holds no space and the date part no dash. */
  lemma ParseLayout(u: string, d: string, id: string)
    requires ' ' !in u
    requires '-' !in d
    ensures ParseVideoName(u + " - " + d + " - [" + id + "].mp4") == Some((u, d, id))
  {
    var rest := d + " - [" + id + "].mp4";
    assert u + " - " + d + " - [" + id + "].mp4" == u + (" - " + rest);
    ParseChannelPart(u, rest);
    ParseDateLayout(u, d, id);
  }

  /** The channel part ends at the first space. */
  lemma ParseChannelPart(u: string, rest: string)
    requires ' ' !in u
    ensures ParseVideoName(u + (" - " + rest)) == ParseDateAndId(u, rest)
  {
    var name := u + (" - " + rest);
    IndexOfAfter(u, " - " + rest, ' ');
    assert name[|u|..] == " - " + rest;
    assert name[..|u|] == u;
    assert name[|u| + 3..] == rest;
  }

  lemma ParseDateLayout(u: string, d: string, id: string)
    requires '-' !in d
    ensures ParseDateAndId(u, d + " - [" + id + "].mp4") == Some((u, d, id))
  {
    var tail := id + "].mp4";
    assert d + " - [" + id + "].mp4" == (d + " ") + ("- [" + tail);
    ParseDatePart(u, d, tail);
    assert tail[|tail| - 5..] == "].mp4";
    assert tail[..|tail| - 5] == id;
  }

  /** The date part ends before the first dash. */
  lemma ParseDatePart(u: string, d: string, tail: string)
    requires '-' !in d
    ensures ParseDateAndId(u, (d + " ") + ("- [" + tail)) == ParseId(u, d, tail)
  {
    var rest := (d + " ") + ("- [" + tail);
    IndexOfAfter(d + " ", "- [" + tail, '-');
    assert rest[|d|..] == " - [" + tail;
    assert rest[..|d|] == d;
    assert rest[|d| + 4..] == tail;
  }

  /** The name determines the urlified channel, the simplified date and the
      youtube id: parsing it gives them back. */
  lemma ParseVideoSymlinkName(isWord: char -> bool, chanLabel: string, published: string, youtubeId: string)
    ensures ParseVideoName(VideoSymlinkName(isWord, chanLabel, published, youtubeId)) ==
      Some((Urlify(isWord, Sanitize(chanLabel)), SimplifyDate(published), youtubeId))
  {
    var u := Urlify(isWord, Sanitize(chanLabel));
    assert ' ' !in u by {
      assert IsSpace(' ');
    }
    ParseLayout(u, SimplifyDate(published), youtubeId);
  }

  /** Two videos get the same symlink name only when their urlified channel
      labels, simplified dates and youtube ids all agree. */
  lemma VideoSymlinkNameInjective(isWord: char -> bool, c1: string, p1: string, y1: string, c2: string, p2: string, y2: string)
    requires VideoSymlinkName(isWord, c1, p1, y1) == VideoSymlinkName(isWord, c2, p2, y2)
    ensures Urlify(isWord, Sanitize(c1)) == Urlify(isWord, Sanitize(c2))
    ensures SimplifyDate(p1) == SimplifyDate(p2)
    ensures y1 == y2
  {
    ParseVideoSymlinkName(isWord, c1, p1, y1);
    ParseVideoSymlinkName(isWord, c2, p2, y2);
  }
}
