/** The run's immutable configuration and the catalogue records the script
    reads from the TubeArchivist API, as typed values. A JSON `null` in a text
    field that the script only passes through `x or ""` or `xmlesc` is
    modelled as the empty string; the one field where `null` behaves
    differently (a channel's name, which `str()` turns into "None") is an
    `Option`. */
module Catalog {
  import opened Text

  /** The environment flags of ta-helper.py:26-43 that the core reads. */
  datatype Config = Config(
    notificationsEnabled: bool,
    generateNfo: bool,
    symlinkSubs: bool,
    subFormat: string,
    generateShowsNfo: bool,
    mediaFolder: string,
    server: string,
    cache: string,
    cacheDocker: bool,
    targetFolder: string,
    quick: bool,
    cleanupDeletedVideos: bool,
    /** Python's `\w` for `str` patterns: the Unicode word characters. Their
        tables are not modelled; only the facts stated where they are needed. */
    isWord: char -> bool)

  datatype Channel = Channel(
    channelId: string,
    channelName: Option<string>,
    channelDescription: string,
    channelThumbUrl: string,
    channelBannerUrl: string,
    channelLastRefresh: string)

  datatype Playlist = Playlist(
    playlistId: string,
    playlistName: string,
    playlistDescription: string,
    playlistThumbnail: string,
    playlistLastRefresh: string,
    playlistChannelId: string,
    /** The youtube ids of `playlist_entries`, in order. */
    playlistEntries: seq<string>)

  datatype Video = Video(
    youtubeId: string,
    title: string,
    description: string,
    published: string,
    mediaUrl: string,
    vidThumbUrl: string,
    /** `video['channel']['channel_name']` and `...['channel_id']`. */
    channelName: string,
    channelId: string,
    /** The `playlist` field; an absent field is the empty list. */
    playlists: seq<string>)

  /** The catalogue as the HTTP requests would have returned it. A channel id
      missing from `channelVideos` is a channel whose video request failed; a
      youtube id missing from `videoById` is a failed single-video lookup. */
  datatype Catalogue = Catalogue(
    channels: seq<Channel>,
    playlists: seq<Playlist>,
    channelVideos: map<string, seq<Video>>,
    videoById: map<string, Video>)
}
