/** The `.nfo` sidecars the script writes for media managers (ta-helper.py:
    113-125, 153-165, 196-211), as pure string builders, and a reader that
    recovers the elements from a document. Every document is an XML header,
    a root element, and one element per line indented by a tab. */
module Nfo {
  import opened Text
  import opened Catalog
  import opened Naming
  import opened Xml

  const Header := "<?xml version=\"1.0\" encoding=\"utf-8\" standalone=\"yes\"?>\n"

  /** One child of the root element: a text element, or the `<art>` element
      holding one `<poster>`. */
  datatype Item = Leaf(name: string, text: string) | Art(poster: string)

  function RenderItem(it: Item): string {
    match it
    case Leaf(n, t) => "<" + n + ">" + t + "</" + n + ">"
    case Art(p) => "<art>" + ArtOpen + p + ArtClose
  }

  const ArtOpen := "\n\t\t<poster>"
  const ArtClose := "</poster>\n\t</art>"

  /** Items separated by "\n\t"; the last one is followed by "\n". */
  function RenderItems(items: seq<Item>): string {
    if items == [] then ""
    else if |items| == 1 then RenderItem(items[0]) + "\n"
    else RenderItem(items[0]) + "\n\t" + RenderItems(items[1..])
  }

  function Render(root: string, items: seq<Item>): string {
    Open(root) + RenderItems(items) + Close(root)
  }

  function Open(root: string): string {
    Header + "<" + root + ">\n\t"
  }

  function Close(root: string): string {
    "</" + root + ">"
  }

  /** `str(n)` for a natural number. */
  function Decimal(n: nat): (r: string)
    ensures r != []
    ensures forall i :: 0 <= i < |r| ==> '0' <= r[i] <= '9'
  {
    if n < 10 then [Digit(n)] else Decimal(n / 10) + [Digit(n % 10)]
  }

  function Digit(d: nat): char
    requires d < 10
  {
    "0123456789"[d]
  }

  /** The value of a string of decimal digits; `None` for any other
      string. */
  function ReadDecimal(s: string): Option<nat> {
    if s == [] || !('0' <= s[|s| - 1] <= '9') then None
    else if |s| == 1 then Some((s[0] - '0') as nat)
    else
      match ReadDecimal(s[..|s| - 1])
      case None => None
      case Some(high) => Some(10 * high + (s[|s| - 1] - '0') as nat)
  }

  lemma {:induction false} DecimalRoundTrip(n: nat)
    ensures ReadDecimal(Decimal(n)) == Some(n)
  {
    var r := Decimal(n);
    if n < 10 {
      assert r == [Digit(n)];
    } else {
      DecimalRoundTrip(n / 10);
      assert r[..|r| - 1] == Decimal(n / 10);
    }
  }

  /** `chan_data['channel_name']` through `xmlesc`, which maps `None` to "". */
  function NameOrEmpty(name: Option<string>): string {
    match name
    case None => ""
    case Some(n) => n
  }

  /** The elements of `tvshow.nfo` for a new channel folder. */
  function TvShowItems(chanName: string, ch: Channel, folderSymlink: string): seq<Item> {
    ShowElements(XmlEsc(FormatDesc(ch.channelDescription)), XmlEsc(NameOrEmpty(ch.channelName)),
                 XmlEsc(chanName), ch.channelLastRefresh, folderSymlink, ch.channelId)
  }

  function ShowElements(desc: string, title: string, original: string, refresh: string, poster: string, id: string): seq<Item> {
    [ Leaf("plot", desc),
      Leaf("outline", desc),
      Leaf("title", title),
      Leaf("originaltitle", original),
      Leaf("year", Take(refresh, 4)),
      Leaf("premiered", Take(refresh, 10)),
      Leaf("releasedate", Take(refresh, 10)),
      Art(poster),
      Leaf("youtubemetadataid", id) ]
  }

  /** `tvshow.nfo`. A media manager reading it gets back the channel's
      description (from plot and outline), its name, the folder name, the
      poster link and the channel id, as long as the fields written
      unescaped hold no `<`. */
  function TvShowNfo(chanName: string, ch: Channel, folderSymlink: string): (r: string)
    ensures '<' !in ch.channelLastRefresh && '<' !in ch.channelId && '<' !in folderSymlink ==>
      var items := TvShowItems(chanName, ch, folderSymlink);
      Read("tvshow", Layout(items), r) == Some(items) &&
      StripBreaks(XmlUnesc(ContentAt(items, 0))) == ch.channelDescription &&
      StripBreaks(XmlUnesc(ContentAt(items, 1))) == ch.channelDescription &&
      XmlUnesc(ContentAt(items, 2)) == NameOrEmpty(ch.channelName) &&
      XmlUnesc(ContentAt(items, 3)) == chanName &&
      ContentAt(items, 7) == folderSymlink &&
      ContentAt(items, 8) == ch.channelId
  {
    TvShowReadsBack(chanName, ch, folderSymlink);
    Render("tvshow", TvShowItems(chanName, ch, folderSymlink))
  }

  /** The elements of `season.nfo` for a new playlist folder. */
  function SeasonItems(pl: Playlist, folderSymlink: string, seasonNum: nat): seq<Item> {
    SeasonElements(XmlEsc(FormatDesc(pl.playlistDescription)), XmlEsc(pl.playlistName),
                   pl.playlistLastRefresh, folderSymlink, Decimal(seasonNum), pl.playlistId)
  }

  function SeasonElements(desc: string, title: string, refresh: string, poster: string, season: string, id: string): seq<Item> {
    [ Leaf("plot", desc),
      Leaf("outline", desc),
      Leaf("title", title),
      Leaf("year", Take(refresh, 4)),
      Leaf("premiered", Take(refresh, 10)),
      Leaf("releasedate", Take(refresh, 10)),
      Art(poster),
      Leaf("seasonnumber", season),
      Leaf("youtubemetadataid", id) ]
  }

  /** `season.nfo`: it reads back to the playlist's description, name,
      poster link, season number and id, as long as the fields written
      unescaped hold no `<`. */
  function SeasonNfo(pl: Playlist, folderSymlink: string, seasonNum: nat): (r: string)
    ensures '<' !in pl.playlistLastRefresh && '<' !in pl.playlistId && '<' !in folderSymlink ==>
      var items := SeasonItems(pl, folderSymlink, seasonNum);
      Read("season", Layout(items), r) == Some(items) &&
      StripBreaks(XmlUnesc(ContentAt(items, 0))) == pl.playlistDescription &&
      XmlUnesc(ContentAt(items, 2)) == pl.playlistName &&
      ContentAt(items, 6) == folderSymlink &&
      ReadDecimal(ContentAt(items, 7)) == Some(seasonNum) &&
      ContentAt(items, 8) == pl.playlistId
  {
    SeasonReadsBack(pl, folderSymlink, seasonNum);
    Render("season", SeasonItems(pl, folderSymlink, seasonNum))
  }

  /** `episodedetails` when show NFOs are generated, `musicvideo` otherwise. */
  function VideoTag(generateShowsNfo: bool): string {
    if generateShowsNfo then "episodedetails" else "musicvideo"
  }

  /** The elements of a video's `.nfo`. */
  function VideoItems(v: Video, posterSymlink: string, episodeNum: nat, seasonNum: nat): seq<Item> {
    VideoElements(XmlEsc(FormatDesc(v.description)), XmlEsc(v.title), XmlEsc(v.channelName),
                  v.published, v.youtubeId, posterSymlink, Decimal(episodeNum), Decimal(seasonNum))
  }

  function VideoElements(desc: string, title: string, director: string, published: string, id: string,
                         poster: string, episode: string, season: string): seq<Item> {
    [ Leaf("plot", desc),
      Leaf("title", title),
      Leaf("director", director),
      Leaf("year", Take(published, 4)),
      Leaf("premiered", Take(published, 10)),
      Leaf("releasedate", Take(published, 10)),
      Leaf("youtubemetadataid", id),
      Art(poster),
      Leaf("episode", episode),
      Leaf("season", season) ]
  }

  /** A video's `.nfo`: it reads back to the video's description, title,
      channel, youtube id, poster link, episode and season numbers, as long
      as the fields written unescaped hold no `<`. */
  function VideoNfo(generateShowsNfo: bool, v: Video, posterSymlink: string, episodeNum: nat, seasonNum: nat): (r: string)
    ensures '<' !in v.published && '<' !in v.youtubeId && '<' !in posterSymlink ==>
      var items := VideoItems(v, posterSymlink, episodeNum, seasonNum);
      Read(VideoTag(generateShowsNfo), Layout(items), r) == Some(items) &&
      StripBreaks(XmlUnesc(ContentAt(items, 0))) == v.description &&
      XmlUnesc(ContentAt(items, 1)) == v.title &&
      XmlUnesc(ContentAt(items, 2)) == v.channelName &&
      ContentAt(items, 6) == v.youtubeId &&
      ContentAt(items, 7) == posterSymlink &&
      ReadDecimal(ContentAt(items, 8)) == Some(episodeNum) &&
      ReadDecimal(ContentAt(items, 9)) == Some(seasonNum)
  {
    VideoReadsBack(generateShowsNfo, v, posterSymlink, episodeNum, seasonNum);
    Render(VideoTag(generateShowsNfo), VideoItems(v, posterSymlink, episodeNum, seasonNum))
  }

  // ---------------------------------------------------------------------
  // Reading a document back.

  /** What a reader expects at one position: a named text element, or the
      `<art>` element. */
  datatype Slot = TextSlot(name: string) | ArtSlot

  function SlotOf(it: Item): Slot {
    match it
    case Leaf(n, _) => TextSlot(n)
    case Art(_) => ArtSlot
  }

  /** The layout of a document: the slots of its items, in order. */
  function Layout(items: seq<Item>): (r: seq<Slot>)
    ensures |r| == |items|
  {
    if items == [] then [] else [SlotOf(items[0])] + Layout(items[1..])
  }

  /** The content an item carries: the text, or the poster path. */
  function Content(it: Item): string {
    match it
    case Leaf(_, t) => t
    case Art(p) => p
  }

  /** No content holds a `<`, so the reader can find where each ends. */
  predicate AllPlain(items: seq<Item>) {
    forall i :: 0 <= i < |items| ==> '<' !in Content(items[i])
  }

  /** The content of the `i`-th item, "" past the end. */
  function ContentAt(items: seq<Item>, i: nat): string {
    if i < |items| then Content(items[i]) else ""
  }

  function Expect(s: string, lit: string): (r: Option<string>)
    ensures r.Some? ==> |r.value| <= |s|
  {
    if StartsWith(s, lit) then Some(s[|lit|..]) else None
  }

  /** Content runs from `s` to the next `<`, which must open `close`. */
  function ReadUpTo(s: string, close: string): Option<(string, string)> {
    var j := IndexOf(s, '<');
    match Expect(s[j..], close)
    case None => None
    case Some(rest) => Some((s[..j], rest))
  }

  /** The item a slot expects at the start of `s`, and what follows it. */
  function ReadSlot(slot: Slot, s: string): Option<(Item, string)> {
    match slot
    case TextSlot(n) =>
      (match Expect(s, "<" + n + ">")
       case None => None
       case Some(after) =>
         match ReadUpTo(after, "</" + n + ">")
         case None => None
         case Some((t, rest)) => Some((Leaf(n, t), rest)))
    case ArtSlot =>
      match Expect(s, "<art>" + ArtOpen)
      case None => None
      case Some(after) =>
        match ReadUpTo(after, ArtClose)
        case None => None
        case Some((p, rest)) => Some((Art(p), rest))
  }

  /** Items laid out as `layout`, separated by "\n\t", the last one followed
      by a newline and the closing root tag. */
  function ReadItems(layout: seq<Slot>, s: string, root: string): Option<seq<Item>>
    decreases |layout|
  {
    if layout == [] then None
    else
      match ReadSlot(layout[0], s)
      case None => None
      case Some((it, rest)) =>
        if |layout| == 1 then
          (if rest == "\n" + Close(root) then Some([it]) else None)
        else
          match Expect(rest, "\n\t")
          case None => None
          case Some(more) =>
            match ReadItems(layout[1..], more, root)
            case None => None
            case Some(tail) => Some([it] + tail)
  }

  /** The items of a document whose root element is `root`, read by a
      reader that expects `layout`. */
  function Read(root: string, layout: seq<Slot>, doc: string): Option<seq<Item>> {
    match Expect(doc, Open(root))
    case None => None
    case Some(body) => ReadItems(layout, body, root)
  }

  lemma ExpectPrefix(lit: string, rest: string)
    ensures Expect(lit + rest, lit) == Some(rest)
  {
    assert (lit + rest)[..|lit|] == lit;
    assert (lit + rest)[|lit|..] == rest;
  }

  lemma ReadUpToAt(t: string, close: string, rest: string)
    requires '<' !in t
    requires close != [] && close[0] == '<'
    ensures ReadUpTo(t + (close + rest), close) == Some((t, rest))
  {
    var s := t + (close + rest);
    IndexOfAfter(t, close + rest, '<');
    assert s[|t|..] == close + rest;
    assert s[..|t|] == t;
    ExpectPrefix(close, rest);
  }

  lemma ReadSlotRender(it: Item, rest: string)
    requires '<' !in Content(it)
    ensures ReadSlot(SlotOf(it), RenderItem(it) + rest) == Some((it, rest))
  {
    match it
    case Leaf(n, t) =>
      var close := "</" + n + ">";
      assert RenderItem(it) + rest == ("<" + n + ">") + (t + (close + rest));
      ExpectPrefix("<" + n + ">", t + (close + rest));
      ReadUpToAt(t, close, rest);
    case Art(p) =>
      assert RenderItem(it) + rest == ("<art>" + ArtOpen) + (p + (ArtClose + rest));
      ExpectPrefix("<art>" + ArtOpen, p + (ArtClose + rest));
      ReadUpToAt(p, ArtClose, rest);
  }

  lemma ReadItemsOne(items: seq<Item>, root: string)
    requires |items| == 1 && '<' !in Content(items[0])
    ensures ReadItems(Layout(items), RenderItems(items) + Close(root), root) == Some(items)
  {
    var head := RenderItem(items[0]);
    assert RenderItems(items) + Close(root) == head + ("\n" + Close(root));
    ReadSlotRender(items[0], "\n" + Close(root));
    assert [items[0]] == items;
  }

  /** One step of the reader: an item followed by "\n\t" and more. */
  lemma ReadItemsStep(layout: seq<Slot>, s: string, root: string, it: Item, more: string)
    requires |layout| > 1 && ReadSlot(layout[0], s) == Some((it, "\n\t" + more))
    ensures ReadItems(layout, s, root) ==
            match ReadItems(layout[1..], more, root)
            case None => None
            case Some(tail) => Some([it] + tail)
  {
    ExpectPrefix("\n\t", more);
  }

  lemma ReadItemsCons(items: seq<Item>, root: string)
    requires |items| > 1 && '<' !in Content(items[0])
    requires ReadItems(Layout(items[1..]), RenderItems(items[1..]) + Close(root), root) == Some(items[1..])
    ensures ReadItems(Layout(items), RenderItems(items) + Close(root), root) == Some(items)
  {
    var close := Close(root);
    var head := RenderItem(items[0]);
    var tail := RenderItems(items[1..]) + close;
    assert RenderItems(items) == head + "\n\t" + RenderItems(items[1..]);
    Assoc(head, "\n\t", RenderItems(items[1..]));
    Assoc(head, "\n\t" + RenderItems(items[1..]), close);
    Assoc("\n\t", RenderItems(items[1..]), close);
    ReadSlotRender(items[0], "\n\t" + tail);
    assert Layout(items)[0] == SlotOf(items[0]);
    assert Layout(items)[1..] == Layout(items[1..]);
    ReadItemsStep(Layout(items), RenderItems(items) + close, root, items[0], tail);
    assert [items[0]] + items[1..] == items;
  }

  lemma Assoc(a: string, b: string, c: string)
    ensures a + b + c == a + (b + c)
  {
  }

  lemma {:induction false} ReadItemsRender(items: seq<Item>, root: string)
    requires items != []
    requires AllPlain(items)
    ensures ReadItems(Layout(items), RenderItems(items) + Close(root), root) == Some(items)
    decreases |items|
  {
    if |items| == 1 {
      ReadItemsOne(items, root);
    } else {
      ReadItemsRender(items[1..], root);
      ReadItemsCons(items, root);
    }
  }

  /** Every document rendered from items whose contents hold no `<` reads
      back, in its own layout, to those items. */
  lemma ReadRender(root: string, items: seq<Item>)
    requires items != []
    requires AllPlain(items)
    ensures Read(root, Layout(items), Render(root, items)) == Some(items)
  {
    ReadItemsRender(items, root);
    ReadOpen(root, items);
  }

  lemma ReadOpen(root: string, items: seq<Item>)
    ensures Read(root, Layout(items), Render(root, items)) == ReadItems(Layout(items), RenderItems(items) + Close(root), root)
  {
    Assoc(Open(root), RenderItems(items), Close(root));
    ExpectPrefix(Open(root), RenderItems(items) + Close(root));
  }

  lemma EscapedNoLt(s: string)
    ensures '<' !in XmlEsc(s)
  {
    var r := XmlEsc(s);
    assert forall i :: 0 <= i < |r| ==> r[i] != '<';
  }

  lemma TakeNoLt(s: string, n: nat)
    requires '<' !in s
    ensures '<' !in Take(s, n)
  {
    var t := Take(s, n);
    assert forall i :: 0 <= i < |t| ==> t[i] == s[i];
  }

  lemma DecimalNoLt(n: nat)
    ensures '<' !in Decimal(n)
  {
    var r := Decimal(n);
    assert forall i :: 0 <= i < |r| ==> r[i] != '<';
  }

  lemma ShowElementsPlain(desc: string, title: string, original: string, refresh: string, poster: string, id: string)
    requires '<' !in desc && '<' !in title && '<' !in original && '<' !in refresh && '<' !in poster && '<' !in id
    ensures var items := ShowElements(desc, title, original, refresh, poster, id);
      AllPlain(items) &&
      ContentAt(items, 0) == desc && ContentAt(items, 1) == desc && ContentAt(items, 2) == title &&
      ContentAt(items, 3) == original && ContentAt(items, 7) == poster && ContentAt(items, 8) == id
  {
    TakeNoLt(refresh, 4);
    TakeNoLt(refresh, 10);
  }

  lemma SeasonElementsPlain(desc: string, title: string, refresh: string, poster: string, season: string, id: string)
    requires '<' !in desc && '<' !in title && '<' !in refresh && '<' !in poster && '<' !in season && '<' !in id
    ensures var items := SeasonElements(desc, title, refresh, poster, season, id);
      AllPlain(items) &&
      ContentAt(items, 0) == desc && ContentAt(items, 1) == desc && ContentAt(items, 2) == title &&
      ContentAt(items, 6) == poster && ContentAt(items, 7) == season && ContentAt(items, 8) == id
  {
    TakeNoLt(refresh, 4);
    TakeNoLt(refresh, 10);
  }

  lemma VideoElementsPlain(desc: string, title: string, director: string, published: string, id: string,
                           poster: string, episode: string, season: string)
    requires '<' !in desc && '<' !in title && '<' !in director && '<' !in published && '<' !in id
    requires '<' !in poster && '<' !in episode && '<' !in season
    ensures var items := VideoElements(desc, title, director, published, id, poster, episode, season);
      AllPlain(items) &&
      ContentAt(items, 0) == desc && ContentAt(items, 1) == title && ContentAt(items, 2) == director &&
      ContentAt(items, 6) == id && ContentAt(items, 7) == poster &&
      ContentAt(items, 8) == episode && ContentAt(items, 9) == season
  {
    TakeNoLt(published, 4);
    TakeNoLt(published, 10);
  }

  /** The read-back of `tvshow.nfo`. */
  lemma TvShowReadsBack(chanName: string, ch: Channel, folderSymlink: string)
    ensures '<' !in ch.channelLastRefresh && '<' !in ch.channelId && '<' !in folderSymlink ==>
      var items := TvShowItems(chanName, ch, folderSymlink);
      Read("tvshow", Layout(items), Render("tvshow", items)) == Some(items) &&
      StripBreaks(XmlUnesc(ContentAt(items, 0))) == ch.channelDescription &&
      StripBreaks(XmlUnesc(ContentAt(items, 1))) == ch.channelDescription &&
      XmlUnesc(ContentAt(items, 2)) == NameOrEmpty(ch.channelName) &&
      XmlUnesc(ContentAt(items, 3)) == chanName &&
      ContentAt(items, 7) == folderSymlink &&
      ContentAt(items, 8) == ch.channelId
  {
    if '<' !in ch.channelLastRefresh && '<' !in ch.channelId && '<' !in folderSymlink {
      var desc := XmlEsc(FormatDesc(ch.channelDescription));
      EscapedNoLt(FormatDesc(ch.channelDescription));
      EscapedNoLt(NameOrEmpty(ch.channelName));
      EscapedNoLt(chanName);
      ShowElementsPlain(desc, XmlEsc(NameOrEmpty(ch.channelName)), XmlEsc(chanName),
                        ch.channelLastRefresh, folderSymlink, ch.channelId);
      ReadRender("tvshow", TvShowItems(chanName, ch, folderSymlink));
    }
  }

  /** The read-back of `season.nfo`. */
  lemma SeasonReadsBack(pl: Playlist, folderSymlink: string, seasonNum: nat)
    ensures '<' !in pl.playlistLastRefresh && '<' !in pl.playlistId && '<' !in folderSymlink ==>
      var items := SeasonItems(pl, folderSymlink, seasonNum);
      Read("season", Layout(items), Render("season", items)) == Some(items) &&
      StripBreaks(XmlUnesc(ContentAt(items, 0))) == pl.playlistDescription &&
      XmlUnesc(ContentAt(items, 2)) == pl.playlistName &&
      ContentAt(items, 6) == folderSymlink &&
      ReadDecimal(ContentAt(items, 7)) == Some(seasonNum) &&
      ContentAt(items, 8) == pl.playlistId
  {
    if '<' !in pl.playlistLastRefresh && '<' !in pl.playlistId && '<' !in folderSymlink {
      var desc := XmlEsc(FormatDesc(pl.playlistDescription));
      EscapedNoLt(FormatDesc(pl.playlistDescription));
      EscapedNoLt(pl.playlistName);
      DecimalNoLt(seasonNum);
      SeasonElementsPlain(desc, XmlEsc(pl.playlistName), pl.playlistLastRefresh, folderSymlink,
                          Decimal(seasonNum), pl.playlistId);
      ReadRender("season", SeasonItems(pl, folderSymlink, seasonNum));
      DecimalRoundTrip(seasonNum);
    }
  }

  /** The read-back of a video's `.nfo`. */
  lemma VideoReadsBack(generateShowsNfo: bool, v: Video, posterSymlink: string, episodeNum: nat, seasonNum: nat)
    ensures '<' !in v.published && '<' !in v.youtubeId && '<' !in posterSymlink ==>
      var items := VideoItems(v, posterSymlink, episodeNum, seasonNum);
      Read(VideoTag(generateShowsNfo), Layout(items), Render(VideoTag(generateShowsNfo), items)) == Some(items) &&
      StripBreaks(XmlUnesc(ContentAt(items, 0))) == v.description &&
      XmlUnesc(ContentAt(items, 1)) == v.title &&
      XmlUnesc(ContentAt(items, 2)) == v.channelName &&
      ContentAt(items, 6) == v.youtubeId &&
      ContentAt(items, 7) == posterSymlink &&
      ReadDecimal(ContentAt(items, 8)) == Some(episodeNum) &&
      ReadDecimal(ContentAt(items, 9)) == Some(seasonNum)
  {
    if '<' !in v.published && '<' !in v.youtubeId && '<' !in posterSymlink {
      EscapedNoLt(FormatDesc(v.description));
      EscapedNoLt(v.title);
      EscapedNoLt(v.channelName);
      DecimalNoLt(episodeNum);
      DecimalNoLt(seasonNum);
      VideoElementsPlain(XmlEsc(FormatDesc(v.description)), XmlEsc(v.title), XmlEsc(v.channelName),
                         v.published, v.youtubeId, posterSymlink, Decimal(episodeNum), Decimal(seasonNum));
      ReadRender(VideoTag(generateShowsNfo), VideoItems(v, posterSymlink, episodeNum, seasonNum));
      DecimalRoundTrip(episodeNum);
      DecimalRoundTrip(seasonNum);
    }
  }
}
