/**
 * The resolver front end of `audio_sources.py`: which handler an input is routed to, and the
 * shape of what each handler returns. The Spotify, YouTube search and yt-dlp services are
 * parameters (`Services`); only their observable answers matter here.
 */
module AudioSources {
  import opened Wrappers
  import opened Text
  import opened Tenant
  import Player

  /** The handlers `process_url` dispatches to. */
  datatype Route = SpotifyTrack | SpotifyPlaylist | YouTubePlaylist | MusicPlaylist | DirectUrl | SearchQuery

  /** `process_url`'s dispatch on an already stripped input, tests in source order. */
  function Classify(s: string): Route {
    if Contains(s, "spotify.com/track") then SpotifyTrack
    else if Contains(s, "spotify.com/playlist") then SpotifyPlaylist
    else if Contains(s, "youtube.com") && Contains(s, "playlist") then YouTubePlaylist
    else if Contains(s, "music.youtube.com") && Contains(s, "playlist") then MusicPlaylist
    else if StartsWith(s, "http") then DirectUrl
    else SearchQuery
  }

  /** The route of a raw input: classification happens after `strip()`. */
  function RouteOf(input: string): Route {
    Classify(Strip(input))
  }

  /**
   * The routes as conditions on the input rather than as a chain of tests: each route holds
   * exactly when its own marker is present and no earlier marker is; a url that is neither a
   * Spotify link nor a YouTube playlist and starts with `http` is fetched directly, and anything
   * else is a search.
   */
  lemma RouteConditions(s: string)
    ensures Classify(s) == SpotifyTrack <==> Contains(s, "spotify.com/track")
    ensures Classify(s) == SpotifyPlaylist <==> !Contains(s, "spotify.com/track") && Contains(s, "spotify.com/playlist")
    ensures Classify(s) == YouTubePlaylist <==>
      !Contains(s, "spotify.com/track") && !Contains(s, "spotify.com/playlist") && Contains(s, "youtube.com") && Contains(s, "playlist")
    ensures Classify(s) == DirectUrl <==>
      && !Contains(s, "spotify.com/track") && !Contains(s, "spotify.com/playlist")
      && !(Contains(s, "youtube.com") && Contains(s, "playlist")) && StartsWith(s, "http")
    ensures Classify(s) == SearchQuery <==>
      && !Contains(s, "spotify.com/track") && !Contains(s, "spotify.com/playlist")
      && !(Contains(s, "youtube.com") && Contains(s, "playlist")) && !StartsWith(s, "http")
  {
    NoMusicPlaylistRoute(s);
  }

  /** Surrounding whitespace never changes the route. */
  lemma RouteIgnoresSurroundingSpace(input: string)
    ensures RouteOf(Strip(input)) == RouteOf(input)
  {
    StripIdempotent(input);
  }

  /**
   * The YouTube Music playlist handler is dead code: every input naming music.youtube.com also
   * names youtube.com, so the plain YouTube playlist test catches it first.
   */
  lemma MusicPlaylistUnreachable(input: string)
    ensures RouteOf(input) != MusicPlaylist
  {
    NoMusicPlaylistRoute(Strip(input));
  }

  /** The dispatch itself never answers `MusicPlaylist`, whatever the (stripped) input. */
  lemma NoMusicPlaylistRoute(s: string)
    ensures Classify(s) != MusicPlaylist
  {
    if Contains(s, "music.youtube.com") {
      MusicHostNamesYouTube();
      ContainsTransitive(s, "music.youtube.com", "youtube.com");
    }
  }

  /** The YouTube Music host name contains the YouTube host name. */
  lemma MusicHostNamesYouTube()
    ensures Contains("music.youtube.com", "youtube.com")
  {
    var m := "music.youtube.com";
    assert m[6..] == "youtube.com";
    assert StartsWith(m[6..], "youtube.com");
  }

  /** What yt-dlp's `extract_info` gives for a url: an info dict, a timeout, a `DownloadError`, or another exception. */
  datatype Extraction = Extracted(title: Option<string>, audio: Option<string>) | TimedOut | DownloadFailed | Crashed

  /** A Spotify playlist item: the track, when present, with its name and artist names. */
  datatype Track = Track(name: Option<string>, artists: seq<string>)

  /** The external services, each already reduced to what the handlers observe (`None`: the call raised or found nothing). */
  datatype Services = Services(
    trackInfo: string -> Option<(string, string)>,
    playlistItems: string -> Option<seq<Option<Track>>>,
    searchFirst: string -> Option<string>,
    flatEntries: string -> Option<seq<Option<string>>>,
    extract: string -> Extraction)

  /** The result dictionary: `type` (single or playlist), `title`, `urls`, and `audio_url` when there is one. */
  datatype Processed = Processed(single: bool, title: Option<string>, urls: seq<string>, audio: Option<string>)

  /** The two link prefixes `get_playlist_urls` builds watch links with. */
  const MusicWatch := "https://music.youtube.com/watch?v="
  const VideoWatch := "https://www.youtube.com/watch?v="

  function WatchPrefix(music: bool): string {
    if music then MusicWatch else VideoWatch
  }

  /** The entries whose id is truthy, in entry order. */
  function TruthyIds(ids: seq<Option<string>>): (r: seq<string>)
    ensures |r| <= |ids|
    ensures forall x :: x in r <==> Some(x) in ids && x != ""
    decreases |ids|
  {
    if |ids| == 0 then []
    else
      var rest := TruthyIds(ids[1..]);
      assert forall x :: Some(x) in ids <==> Some(x) == ids[0] || Some(x) in ids[1..];
      if Truthy(ids[0]) then [ids[0].value] + rest else rest
  }

  /** `get_playlist_urls`: one watch link per entry with a truthy id, in order; `[]` when extraction raised. */
  function PlaylistLinks(entries: Option<seq<Option<string>>>, music: bool): (r: seq<string>)
    ensures entries.None? ==> r == []
    ensures entries.Some? ==> |r| == |TruthyIds(entries.value)|
    ensures entries.Some? ==> forall k :: 0 <= k < |r| ==> r[k] == WatchPrefix(music) + TruthyIds(entries.value)[k]
  {
    match entries
    case None => []
    case Some(ids) =>
      var found := TruthyIds(ids);
      seq(|found|, k requires 0 <= k < |found| => WatchPrefix(music) + found[k])
  }

  /** Every built link gives back its video id after the prefix: nothing is lost or reordered. */
  lemma PlaylistLinksRecoverIds(ids: seq<Option<string>>, music: bool)
    ensures var links := PlaylistLinks(Some(ids), music);
      var p := WatchPrefix(music);
      && (forall k :: 0 <= k < |links| ==> |links[k]| > |p| && StartsWith(links[k], p))
      && seq(|links|, k requires 0 <= k < |links| => links[k][|p|..]) == TruthyIds(ids)
  {
    var links := PlaylistLinks(Some(ids), music);
    var p := WatchPrefix(music);
    forall k | 0 <= k < |links|
      ensures |links[k]| > |p| && StartsWith(links[k], p) && links[k][|p|..] == TruthyIds(ids)[k]
    {
      assert TruthyIds(ids)[k] in TruthyIds(ids);
      assert links[k] == p + TruthyIds(ids)[k];
    }
  }

  /** A playlist item yields a query when its track is present with a name and at least one artist. */
  predicate Keeps(item: Option<Track>) {
    item.Some? && Truthy(item.value.name) && |item.value.artists| > 0
  }

  function QueryOf(item: Option<Track>): string
    requires Keeps(item)
  {
    item.value.name.value + " " + item.value.artists[0]
  }

  /** `get_playlist_tracks`: the `"name artist"` queries of the kept items, in item order. */
  function PlaylistQueries(items: seq<Option<Track>>): (r: seq<string>)
    ensures |r| <= |items|
    ensures forall i :: 0 <= i < |items| && Keeps(items[i]) ==> QueryOf(items[i]) in r
    ensures forall q :: q in r ==> exists i :: 0 <= i < |items| && Keeps(items[i]) && q == QueryOf(items[i])
    decreases |items|
  {
    if |items| == 0 then []
    else
      var rest := PlaylistQueries(items[1..]);
      assert forall i :: 1 <= i < |items| ==> items[i] == items[1..][i - 1];
      if Keeps(items[0]) then [QueryOf(items[0])] + rest else rest
  }

  /** The search results that were found, in query order (`_process_spotify_playlist`'s loop). */
  function FoundLinks(search: string -> Option<string>, queries: seq<string>): (r: seq<string>)
    ensures |r| <= |queries|
    ensures forall u :: u in r ==> u != "" && exists i :: 0 <= i < |queries| && search(queries[i]) == Some(u)
    ensures forall i :: 0 <= i < |queries| && Truthy(search(queries[i])) ==> search(queries[i]).value in r
    decreases |queries|
  {
    if |queries| == 0 then []
    else
      var rest := FoundLinks(search, queries[1..]);
      assert forall i :: 1 <= i < |queries| ==> queries[i] == queries[1..][i - 1];
      if Truthy(search(queries[0])) then [search(queries[0]).value] + rest else rest
  }

  /** Filtering ids distributes over concatenation: kept ids stay in entry order, none is added or dropped. */
  lemma {:induction false} TruthyIdsAppend(a: seq<Option<string>>, b: seq<Option<string>>)
    ensures TruthyIds(a + b) == TruthyIds(a) + TruthyIds(b)
    decreases |a|
  {
    if |a| > 0 {
      assert (a + b)[1..] == a[1..] + b;
      TruthyIdsAppend(a[1..], b);
    } else {
      assert a + b == b;
    }
  }

  /** One entry keeps its id exactly when the id is truthy. */
  lemma TruthyIdsOne(e: Option<string>)
    ensures TruthyIds([e]) == if Truthy(e) then [e.value] else []
  {
    assert [e][1..] == [];
  }

  /** Queries distribute over concatenation: one per kept item, in item order. */
  lemma {:induction false} PlaylistQueriesAppend(a: seq<Option<Track>>, b: seq<Option<Track>>)
    ensures PlaylistQueries(a + b) == PlaylistQueries(a) + PlaylistQueries(b)
    decreases |a|
  {
    if |a| > 0 {
      assert (a + b)[1..] == a[1..] + b;
      PlaylistQueriesAppend(a[1..], b);
    } else {
      assert a + b == b;
    }
  }

  /** One item yields its query exactly when it is kept. */
  lemma PlaylistQueriesOne(item: Option<Track>)
    ensures PlaylistQueries([item]) == if Keeps(item) then [QueryOf(item)] else []
  {
    assert [item][1..] == [];
  }

  /** Search hits distribute over concatenation: one per found query, in query order. */
  lemma {:induction false} FoundLinksAppend(search: string -> Option<string>, a: seq<string>, b: seq<string>)
    ensures FoundLinks(search, a + b) == FoundLinks(search, a) + FoundLinks(search, b)
    decreases |a|
  {
    if |a| > 0 {
      assert (a + b)[1..] == a[1..] + b;
      FoundLinksAppend(search, a[1..], b);
    } else {
      assert a + b == b;
    }
  }

  /** One query contributes its hit exactly when the search found a non-empty link. */
  lemma FoundLinksOne(search: string -> Option<string>, q: string)
    ensures FoundLinks(search, [q]) == if Truthy(search(q)) then [search(q).value] else []
  {
    assert [q][1..] == [];
  }

  /**
   * `_process_direct_url`: a single result for the url itself, with the extracted title and audio
   * url. A `None` title stands for a missing `title` key, which `info.get("title", "Unknown")`
   * replaces; an info dict holding an explicit `None` title is not distinguished.
   */
  function Direct(url: string, svc: Services): (r: Result<Processed, Player.FailKind>)
    ensures svc.extract(url).Extracted? ==>
      r == Success(Processed(true, Some(svc.extract(url).title.GetOr("Unknown")), [url], svc.extract(url).audio))
    ensures svc.extract(url) == TimedOut ==> r == Failure(Player.Timeout)
    ensures svc.extract(url) == DownloadFailed ==> r == Failure(Player.Unplayable)
    ensures svc.extract(url) == Crashed ==> r == Failure(Player.Unexpected)
  {
    match svc.extract(url)
    case Extracted(title, audio) => Success(Processed(true, Some(title.GetOr("Unknown")), [url], audio))
    case TimedOut => Failure(Player.Timeout)
    case DownloadFailed => Failure(Player.Unplayable)
    case Crashed => Failure(Player.Unexpected)
  }

  /** A playlist result, or the "nothing playable" error when no url came out. */
  function PlaylistResult(urls: seq<string>): Result<Processed, Player.FailKind> {
    if |urls| == 0 then Failure(Player.Unplayable) else Success(Processed(false, None, urls, None))
  }

  /** `_process_spotify_track` as written: a single result holding the found YouTube link, without an audio url. */
  function SpotifyTrackResult(s: string, svc: Services): (r: Result<Processed, Player.FailKind>)
    ensures r.Failure? <==> svc.trackInfo(s).None? || !Truthy(svc.searchFirst(svc.trackInfo(s).value.0 + " " + svc.trackInfo(s).value.1))
    ensures r.Failure? ==> r.error == Player.Unplayable
    ensures r.Success? ==>
      var (name, artist) := svc.trackInfo(s).value;
      && r.value.single && r.value.audio.None?
      && r.value.urls == [svc.searchFirst(name + " " + artist).value]
      && r.value.title == Some(name + " - " + artist)
  {
    match svc.trackInfo(s)
    case None => Failure(Player.Unplayable)
    case Some((name, artist)) =>
      var link := svc.searchFirst(name + " " + artist);
      if !Truthy(link) then Failure(Player.Unplayable)
      else Success(Processed(true, Some(name + " - " + artist), [link.value], None))
  }

  /** `process_url`: strip, route, and run the handler. */
  function ProcessUrl(input: string, svc: Services): (r: Result<Processed, Player.FailKind>)
    ensures r.Success? && r.value.single ==> |r.value.urls| == 1
    ensures r.Success? && !r.value.single ==> |r.value.urls| > 0 && r.value.audio.None?
    ensures RouteOf(input) == DirectUrl ==> r == Direct(Strip(input), svc)
    ensures RouteOf(input) == DirectUrl && svc.extract(Strip(input)).Extracted? ==> r.Success? && r.value.urls == [Strip(input)]
    ensures RouteOf(input) == SearchQuery && !Truthy(svc.searchFirst(Strip(input))) ==> r == Failure(Player.Unplayable)
    ensures RouteOf(input) == SearchQuery && Truthy(svc.searchFirst(Strip(input))) ==> r == Direct(svc.searchFirst(Strip(input)).value, svc)
    ensures RouteOf(input) == YouTubePlaylist ==> r == PlaylistResult(PlaylistLinks(svc.flatEntries(Strip(input)), false))
    ensures RouteOf(input) == SpotifyPlaylist && svc.playlistItems(Strip(input)).None? ==> r == Failure(Player.Unplayable)
    ensures RouteOf(input) == SpotifyPlaylist && svc.playlistItems(Strip(input)).Some? ==>
      r == PlaylistResult(FoundLinks(svc.searchFirst, PlaylistQueries(svc.playlistItems(Strip(input)).value)))
    ensures RouteOf(input) == SpotifyTrack ==> r == SpotifyTrackResult(Strip(input), svc)
  {
    var s := Strip(input);
    match Classify(s)
    case SpotifyTrack => SpotifyTrackResult(s, svc)
    case SpotifyPlaylist =>
      (match svc.playlistItems(s)
       case None => Failure(Player.Unplayable)
       case Some(items) => PlaylistResult(FoundLinks(svc.searchFirst, PlaylistQueries(items))))
    case YouTubePlaylist => PlaylistResult(PlaylistLinks(svc.flatEntries(s), false))
    case MusicPlaylist => PlaylistResult(PlaylistLinks(svc.flatEntries(s), true))
    case DirectUrl => Direct(s, svc)
    case SearchQuery =>
      var link := svc.searchFirst(s);
      if !Truthy(link) then Failure(Player.Unplayable) else Direct(link.value, svc)
  }

  /** What the playback session sees of a result. */
  function ToResolution(r: Result<Processed, Player.FailKind>): (res: Player.Resolution)
    ensures r.Failure? <==> res.Fail?
    ensures r.Success? && r.value.single ==> res == Player.Single(r.value.title, r.value.audio)
    ensures r.Success? && !r.value.single ==> res == Player.Playlist(r.value.urls)
  {
    match r
    case Failure(k) => Player.Fail(k)
    case Success(p) => if p.single then Player.Single(p.title, p.audio) else Player.Playlist(p.urls)
  }

  /**
   * As written, a Spotify track link can never be played by the modular player: the result
   * holds the matching YouTube link but no audio url, so `stream_play` blacklists the track.
   */
  lemma SpotifyTrackAlwaysBlacklisted(t: TenantState, url: string, svc: Services, env: Player.Env)
    requires RouteOf(url) == SpotifyTrack
    requires env.resolve(url) == ToResolution(ProcessUrl(url, svc))
    requires url !in t.blacklist && env.voiceReady
    ensures !Player.Playable(env.resolve(url))
    ensures env.resolve(url) != Player.Fail(Player.Unexpected)
    ensures Player.StreamPlay(t, url, false, env).t.blacklist == t.blacklist + {url}
    ensures Player.StreamPlay(t, url, false, env).t.current.url.None?
  {
    var r := ProcessUrl(url, svc);
    assert r == SpotifyTrackResult(Strip(url), svc);
    assert r.Failure? ==> r.error == Player.Unplayable;
    assert r.Success? ==> r.value.single && r.value.audio.None?;
    assert env.resolve(url) == ToResolution(r);
  }

  /**
   * `_process_spotify_track` carried through to the stream, as the single-file bot does it
   * (search, then stream the link found): the YouTube link is extracted and its audio url kept.
   */
  function SpotifyTrackResultFixed(s: string, svc: Services): (r: Result<Processed, Player.FailKind>)
    ensures svc.trackInfo(s).None? ==> r == Failure(Player.Unplayable)
    ensures svc.trackInfo(s).Some? && !Truthy(svc.searchFirst(svc.trackInfo(s).value.0 + " " + svc.trackInfo(s).value.1)) ==>
      r == Failure(Player.Unplayable)
    ensures svc.trackInfo(s).Some? ==>
      var (name, artist) := svc.trackInfo(s).value;
      var link := svc.searchFirst(name + " " + artist);
      Truthy(link) && svc.extract(link.value).Extracted? ==>
        r == Success(Processed(true, Some(name + " - " + artist), [link.value], svc.extract(link.value).audio))
  {
    match svc.trackInfo(s)
    case None => Failure(Player.Unplayable)
    case Some((name, artist)) =>
      var link := svc.searchFirst(name + " " + artist);
      if !Truthy(link) then Failure(Player.Unplayable)
      else match Direct(link.value, svc)
        case Failure(k) => Failure(k)
        case Success(p) => Success(p.(title := Some(name + " - " + artist)))
  }

  /** `process_url` with the Spotify track handler carried through to the stream. */
  function ProcessUrlFixed(input: string, svc: Services): (r: Result<Processed, Player.FailKind>)
    ensures RouteOf(input) != SpotifyTrack ==> r == ProcessUrl(input, svc)
    ensures RouteOf(input) == SpotifyTrack ==> r == SpotifyTrackResultFixed(Strip(input), svc)
  {
    if RouteOf(input) == SpotifyTrack then SpotifyTrackResultFixed(Strip(input), svc) else ProcessUrl(input, svc)
  }

  /**
   * With the fixed handler, a Spotify track whose YouTube match streams is started like any
   * other single track.
   */
  lemma SpotifyTrackPlaysWhenFixed(t: TenantState, url: string, svc: Services, env: Player.Env)
    requires RouteOf(url) == SpotifyTrack
    requires env.resolve(url) == ToResolution(ProcessUrlFixed(url, svc))
    requires url !in t.blacklist && env.voiceReady
    requires svc.trackInfo(Strip(url)).Some?
    requires var (name, artist) := svc.trackInfo(Strip(url)).value;
      var link := svc.searchFirst(name + " " + artist);
      Truthy(link) && svc.extract(link.value).Extracted? && Truthy(svc.extract(link.value).audio)
    ensures Player.Playable(env.resolve(url))
    ensures Player.StreamPlay(t, url, false, env).t.current.url == Some(url)
    ensures Player.StreamPlay(t, url, false, env).ending == Player.Return(env.playerAccepts)
    ensures Player.StreamPlay(t, url, false, env).t.blacklist == t.blacklist
  {
    var (name, artist) := svc.trackInfo(Strip(url)).value;
    var link := svc.searchFirst(name + " " + artist).value;
    var r := ProcessUrlFixed(url, svc);
    assert r == SpotifyTrackResultFixed(Strip(url), svc);
    assert r == Success(Processed(true, Some(name + " - " + artist), [link], svc.extract(link).audio));
    assert env.resolve(url) == ToResolution(r);
  }
  /**
   * What the player makes of a directly fetched url: it streams exactly when yt-dlp returned an
   * info dict with a non-empty audio url, only a crash is an unexpected error, and otherwise
   * `stream_play` blacklists the url.
   */
  lemma DirectResolution(t: TenantState, url: string, svc: Services, env: Player.Env)
    requires env.resolve(url) == ToResolution(Direct(url, svc))
    requires url !in t.blacklist && env.voiceReady
    ensures Player.Playable(env.resolve(url)) <==> svc.extract(url).Extracted? && Truthy(svc.extract(url).audio)
    ensures env.resolve(url) == Player.Fail(Player.Unexpected) <==> svc.extract(url) == Crashed
    ensures var s := Player.StreamPlay(t, url, false, env);
      s.t.blacklist == if Player.Playable(env.resolve(url)) || svc.extract(url) == Crashed then t.blacklist else t.blacklist + {url}
  {
  }

  /**
   * The fixed Spotify track handler differs from the written one only in the audio url: the
   * same tracks succeed once the YouTube match extracts, with the same title and link, and
   * every other route is untouched.
   */
  lemma ProcessUrlFixedOnlyAddsAudio(input: string, svc: Services)
    ensures RouteOf(input) != SpotifyTrack ==> ProcessUrlFixed(input, svc) == ProcessUrl(input, svc)
    ensures RouteOf(input) == SpotifyTrack && ProcessUrl(input, svc).Failure? ==> ProcessUrlFixed(input, svc).Failure?
    ensures RouteOf(input) == SpotifyTrack && ProcessUrl(input, svc).Success? ==>
      var link := ProcessUrl(input, svc).value.urls[0];
      && (ProcessUrlFixed(input, svc).Success? <==> svc.extract(link).Extracted?)
      && (ProcessUrlFixed(input, svc).Success? ==>
            ProcessUrlFixed(input, svc).value == ProcessUrl(input, svc).value.(audio := svc.extract(link).audio))
  {
  }
}
