/**
 * The queue-shaping commands of `music_commands.py`: `skip`, `interlude`, `playlist`,
 * `clean_list` and `clean_all`. Each maps the registry to a new one and reports what the user
 * is told (as a result value) and whether `play_next` follows. Voice-client state is an input.
 */
module Commands {
  import opened Wrappers
  import opened Seqs
  import opened Config
  import opened Tenant
  import StateManager
  import Player

  /** Why a command did nothing. */
  datatype Refusal = NothingPlaying | NotAPlaylist | EmptyContent | ResolveFailed | BadCount

  /** `skip`: with something playing or paused, clear `from_back` so the stopped track is recorded normally. */
  function Skip(reg: Registry, g: int, playingOrPaused: bool): (r: Result<Registry, Refusal>)
    ensures !playingOrPaused <==> r == Failure(NothingPlaying)
    ensures r.Success? ==> OnlyGuildChanged(reg, r.value, g)
    ensures r.Success? ==> Get(r.value, g) == Get(reg, g).(current := Get(reg, g).current.(fromBack := false))
  {
    if !playingOrPaused then Failure(NothingPlaying)
    else
      var t := Get(reg, g);
      Success(reg[g := t.(current := t.current.(fromBack := false))])
  }

  /**
   * Skipping a back replay turns its completion into a normal one: the track goes into the
   * history, which it would not have done without the skip.
   */
  lemma SkipRecordsBackReplay(reg: Registry, g: int, url: string, lim: Limits)
    requires Get(reg, g).current.fromBack
    ensures var t := Get(reg, g);
      && Player.PlaybackFinished(t, url, lim).0.played == t.played
      && Player.PlaybackFinished(Get(Skip(reg, g, true).value, g), url, lim).0.played == RecordBounded(t.played, url, lim.maxHistory)
  {
  }

  /** The links `interlude` inserts for a resolution: the input itself for a single item, the members of a playlist. */
  function InterludeLinks(input: string, res: Player.Resolution): Option<seq<string>> {
    match res
    case Single(_, _) => Some([input])
    case Playlist(urls) => Some(urls)
    case Fail(_) => None
  }

  /**
   * `interlude`: put the links at the head of the queue, in their order, ahead of the old queue.
   * Returns the registry, the number of links, and whether `play_next` is called (nothing was playing).
   */
  function Interlude(reg: Registry, g: int, input: string, res: Player.Resolution, playing: bool): (r: Result<(Registry, nat, bool), Refusal>)
    ensures res.Fail? ==> r == Failure(ResolveFailed)
    ensures res == Player.Playlist([]) ==> r == Failure(EmptyContent)
    ensures res.Single? ==> r.Success? && Get(r.value.0, g).queue == [input] + Get(reg, g).queue
    ensures res.Playlist? && |res.urls| > 0 ==> r.Success? && Get(r.value.0, g).queue == res.urls + Get(reg, g).queue
    ensures r.Success? ==>
      && OnlyGuildChanged(reg, r.value.0, g)
      && Get(r.value.0, g) == Get(reg, g).(queue := Get(r.value.0, g).queue)
      && r.value.1 > 0 && |Get(r.value.0, g).queue| == r.value.1 + |Get(reg, g).queue|
      && Get(r.value.0, g).queue[r.value.1..] == Get(reg, g).queue
      && r.value.2 == !playing
  {
    match InterludeLinks(input, res)
    case None => Failure(ResolveFailed)
    case Some(links) =>
      if |links| == 0 then Failure(EmptyContent)
      else
        var t := Get(reg, g);
        Success((reg[g := t.(queue := InsertEachAtFront(t.queue, links))], |links|, !playing))
  }

  /** After an interlude, the next `play_next` starts on the first inserted link. */
  lemma InterludePlaysFirst(reg: Registry, g: int, input: string, res: Player.Resolution, env: Player.Env)
    requires Interlude(reg, g, input, res, false).Success?
    ensures var t := Get(Interlude(reg, g, input, res, false).value.0, g);
      var s := Player.PlayNextStep(t, env);
      && s.asked == [if res.Single? then input else res.urls[0]]
      && (env.resolve(s.asked[0]).Single? ==> s.t.queue == t.queue[1..] && s.ending.call == Player.Stream(s.asked[0]))
  {
  }

  /**
   * While a track `u` plays, `interlude` stops it instead of calling `play_next`, so the
   * completion handler for `u` runs on the new queue: when the first inserted link is not `u`
   * the handler continues and `play_next` starts on that link; when it is `u`, the handler takes
   * it for the finished track's own entry and pops it.
   */
  lemma InterludeWhilePlaying(reg: Registry, g: int, input: string, res: Player.Resolution, u: string, lim: Limits, env: Player.Env)
    requires Interlude(reg, g, input, res, true).Success?
    ensures var links := if res.Single? then [input] else res.urls;
      var t := Get(Interlude(reg, g, input, res, true).value.0, g);
      var (done, more) := Player.PlaybackFinished(t, u, lim);
      && !Interlude(reg, g, input, res, true).value.2
      && (links[0] != u ==> more && Player.PlayNextStep(done, env).asked == [links[0]])
      && (links[0] == u ==> done.queue == links[1..] + Get(reg, g).queue)
  {
    var links := if res.Single? then [input] else res.urls;
    var t := Get(Interlude(reg, g, input, res, true).value.0, g);
    assert |links| > 0;
    assert t.queue == links + Get(reg, g).queue;
    assert t.queue[0] == links[0];
    assert t.queue[1..] == links[1..] + Get(reg, g).queue;
  }

  /**
   * `playlist`: only a non-empty playlist is accepted; its urls are enqueued until the queue is
   * full, without rollback. Returns the registry, the count added, and whether `play_next` follows
   * (the voice client was idle).
   */
  function PlaylistCommand(reg: Registry, g: int, res: Player.Resolution, lim: Limits, idle: bool): (r: Result<(Registry, nat, bool), Refusal>)
    ensures res.Fail? ==> r == Failure(ResolveFailed)
    ensures res.Single? ==> r == Failure(NotAPlaylist)
    ensures res == Player.Playlist([]) ==> r == Failure(EmptyContent)
    ensures res.Playlist? && |res.urls| > 0 ==>
      && r.Success?
      && r.value.1 == Min(|res.urls|, Max(0, lim.maxQueue - |Get(reg, g).queue|))
      && Get(r.value.0, g) == Get(reg, g).(queue := Get(reg, g).queue + res.urls[..r.value.1])
      && OnlyGuildChanged(reg, r.value.0, g)
      && r.value.2 == idle
  {
    match res
    case Fail(_) => Failure(ResolveFailed)
    case Single(_, _) => Failure(NotAPlaylist)
    case Playlist(urls) =>
      if |urls| == 0 then Failure(EmptyContent)
      else
        var (reg', n) := StateManager.EnqueueMany(reg, g, urls, lim);
        Success((reg', n, idle))
  }

  /** A full queue takes none of the playlist; room for all takes all of it. */
  lemma PlaylistFillsToCapacity(reg: Registry, g: int, urls: seq<string>, lim: Limits, idle: bool)
    requires |urls| > 0
    ensures var r := PlaylistCommand(reg, g, Player.Playlist(urls), lim, idle);
      && (|Get(reg, g).queue| >= lim.maxQueue ==> r.value.1 == 0 && Get(r.value.0, g) == Get(reg, g))
      && (|Get(reg, g).queue| + |urls| <= lim.maxQueue ==> Get(r.value.0, g).queue == Get(reg, g).queue + urls)
      && |Get(r.value.0, g).queue| <= Max(lim.maxQueue, |Get(reg, g).queue|)
  {
    var r := PlaylistCommand(reg, g, Player.Playlist(urls), lim, idle);
    assert urls[..|urls|] == urls;
    assert Get(reg, g).queue + urls[..0] == Get(reg, g).queue;
  }

  /** `clean_list`: refuse a count that is not positive, otherwise drop `min(count, len)` from the front. */
  function CleanList(reg: Registry, g: int, count: int): (r: Result<(Registry, nat), Refusal>)
    ensures count <= 0 <==> r == Failure(BadCount)
    ensures r.Success? ==>
      var q := Get(reg, g).queue;
      && r.value.1 == Min(count, |q|)
      && Get(r.value.0, g).queue == q[r.value.1..]
      && Get(r.value.0, g) == Get(reg, g).(queue := q[r.value.1..])
      && OnlyGuildChanged(reg, r.value.0, g)
  {
    if count <= 0 then Failure(BadCount)
    else
      var (reg', removed) := StateManager.RemoveFromQueue(reg, g, count);
      Success((reg', removed))
  }

  /** `clean_all`: empty the queue and report how many entries were removed. */
  function CleanAll(reg: Registry, g: int): (r: (Registry, nat))
    ensures r.1 == |Get(reg, g).queue| && Get(r.0, g).queue == []
    ensures Get(r.0, g) == Get(reg, g).(queue := [])
    ensures OnlyGuildChanged(reg, r.0, g)
  {
    StateManager.ClearQueue(reg, g)
  }

  /** Cleaning the whole length of the queue or more is the same as cleaning all of it. */
  lemma CleanListOfAllIsCleanAll(reg: Registry, g: int, count: int)
    requires count >= |Get(reg, g).queue| && count > 0
    ensures CleanList(reg, g, count).Success?
    ensures CleanList(reg, g, count).value == CleanAll(reg, g)
  {
    var t := Get(reg, g);
    assert t.(queue := []) == Get(CleanAll(reg, g).0, g);
    var r := CleanList(reg, g, count);
    assert t.queue[|t.queue|..] == [];
    assert r.value.0 == reg[g := t.(queue := [])] by {
      assert r.value.0.Keys == reg[g := t.(queue := [])].Keys;
    }
  }
}
