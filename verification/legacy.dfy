/**
 * The single-file bot `fixed_music_bot.py`, which keeps the same per-guild state in module-level
 * dictionaries and calls the extractor directly. Where it behaves like the modular bot the model
 * says so by a lemma; where it differs (what a missing audio stream does, when `_after` moves on,
 * what a failed resolution does to the history) the difference is spelled out.
 */
module Legacy {
  import opened Wrappers
  import opened Seqs
  import opened Config
  import opened Tenant
  import opened Text
  import Player
  import Snapshot
  import Commands
  import opened AudioSources

  /** The history and back-stack lengths `save_state` keeps: `v[-50:]` and `v[-20:]`. */
  const SavedHistory := 50
  const SavedBackHistory := 20

  /** `save_state`: the same document the state manager writes under the default limits. */
  function Save(reg: Registry, order: seq<int>): (doc: Snapshot.Document)
    requires Snapshot.Writable(reg, order)
    ensures doc == Snapshot.Save(reg, order, DefaultLimits.maxHistory, DefaultLimits.maxBack)
    ensures forall i :: 0 <= i < |order| ==>
      && doc[i].1.queue == reg[order[i]].queue
      && doc[i].1.current == reg[order[i]].current
      && |doc[i].1.played| == Min(50, |reg[order[i]].played|)
      && |doc[i].1.backHistory| == Min(20, |reg[order[i]].backHistory|)
  {
    var doc := Snapshot.Save(reg, order, SavedHistory, SavedBackHistory);
    assert forall i :: 0 <= i < |order| ==>
      |doc[i].1.played| == Min(50, |reg[order[i]].played|) && |doc[i].1.backHistory| == Min(20, |reg[order[i]].backHistory|) by {
      forall i | 0 <= i < |order|
        ensures |doc[i].1.played| == Min(50, |reg[order[i]].played|) && |doc[i].1.backHistory| == Min(20, |reg[order[i]].backHistory|)
      {
        Snapshot.SavedMembersAreBounded(reg, order, SavedHistory, SavedBackHistory, i);
      }
    }
    doc
  }

  /** What `stream_play` may consult: the extractor, the channel, the voice client, and whether `vc.play` accepts the source. */
  datatype Env = Env(extract: string -> Extraction, channelId: int, voiceReady: bool, playerAccepts: bool)

  /**
   * `stream_play`. Every path that advances releases the lock first, so the nested `play_next`
   * never finds it held. An uncaught extractor exception ends the call with nothing changed.
   * This `stream_play` returns nothing; the `Return(true)` of a started track is the model's own
   * signal, shared with `Player.StreamPlay`, and no caller in this bot reads a result.
   */
  function StreamPlay(t: TenantState, url: string, lockHeld: bool, env: Env): (s: Player.Step)
    ensures s.ending.Await? ==> s.ending == Player.Await(Player.Advance, false, false)
    ensures url in t.blacklist ==> s == Player.Step(t, [], Player.Await(Player.Advance, false, false))
    ensures url !in t.blacklist && (lockHeld || !env.voiceReady) ==> s == Player.Step(t, [], Player.Return(false))
    ensures s.asked == [url] && (env.extract(url).TimedOut? || env.extract(url).DownloadFailed?) ==>
      && s.ending.Await?
      && s.t.blacklist == t.blacklist + {url}
      && s.t.queue == PopIfHead(t.queue, url)
      && s.t.current == t.current.(url := None, title := None)
      && s.t.played == RemoveFirst(t.played, url)
    ensures s.asked == [url] && env.extract(url).Extracted? && !Truthy(env.extract(url).audio) ==>
      s.ending.Await? && s.t == t.(queue := PopIfHead(t.queue, url))
    ensures s.asked == [url] && env.extract(url).Extracted? && Truthy(env.extract(url).audio) ==>
      && s.t.current == t.current.(url := Some(url), title := Some(env.extract(url).title.GetOr("Unknown")),
                                   channelId := Some(env.channelId), position := 0)
      && s.t.blacklist == t.blacklist && s.t.played == t.played
      && (env.playerAccepts ==> s.ending == Player.Return(true) && s.t.queue == t.queue)
      && (!env.playerAccepts ==> s.ending.Await? && s.t.queue == PopIfHead(t.queue, url))
    ensures s.asked == [url] && env.extract(url) == Crashed ==> s == Player.Step(t, [url], Player.Return(false))
    ensures s.asked == [] || s.asked == [url]
  {
    if url in t.blacklist then Player.Step(t, [], Player.Await(Player.Advance, false, false))
    else if lockHeld || !env.voiceReady then Player.Step(t, [], Player.Return(false))
    else
      match env.extract(url)
      case Crashed => Player.Step(t, [url], Player.Return(false))
      case TimedOut => Player.Step(Forget(t, url), [url], Player.Await(Player.Advance, false, false))
      case DownloadFailed => Player.Step(Forget(t, url), [url], Player.Await(Player.Advance, false, false))
      case Extracted(title, audio) =>
        if !Truthy(audio) then
          Player.Step(t.(queue := PopIfHead(t.queue, url)), [url], Player.Await(Player.Advance, false, false))
        else
          var started := t.(current := t.current.(url := Some(url), title := Some(title.GetOr("Unknown")),
                                                  channelId := Some(env.channelId), position := 0));
          if env.playerAccepts then Player.Step(started, [url], Player.Return(true))
          else Player.Step(started.(queue := PopIfHead(t.queue, url)), [url], Player.Await(Player.Advance, false, false))
  }

  /** A url that failed to extract: blacklisted, dropped from the head, cleared, and its first history entry removed. */
  function Forget(t: TenantState, url: string): (r: TenantState)
    ensures url in r.blacklist && r.current.url.None?
    ensures url in t.played ==> multiset(r.played) + multiset{url} == multiset(t.played)
    ensures url !in t.played ==> r.played == t.played
  {
    assert url in t.played ==> multiset(RemoveFirst(t.played, url)) + multiset{url} == multiset(t.played) by {
      if url in t.played {
        ForgetOnePlay(t.played, url);
      }
    }
    t.(blacklist := t.blacklist + {url}, queue := PopIfHead(t.queue, url),
       current := t.current.(url := None, title := None), played := RemoveFirst(t.played, url))
  }

  /** `list.remove` takes one occurrence of the url out of the history and nothing else. */
  lemma ForgetOnePlay(played: seq<string>, url: string)
    requires url in played
    ensures multiset(RemoveFirst(played, url)) + multiset{url} == multiset(played)
  {
    var k := IndexOf(played, url);
    assert played == played[..k] + [url] + played[k + 1..];
  }

  /** A failed extraction removes exactly one history entry for the url when it had one, and keeps the rest in order. */
  lemma FailedExtractionForgetsOnePlay(t: TenantState, url: string, env: Env)
    requires url !in t.blacklist && env.voiceReady && env.extract(url) == DownloadFailed
    ensures var s := StreamPlay(t, url, false, env);
      && (url in t.played ==>
            && |s.t.played| == |t.played| - 1
            && s.t.played == t.played[..IndexOf(t.played, url)] + t.played[IndexOf(t.played, url) + 1..])
      && (url !in t.played ==> s.t.played == t.played)
      && url in s.t.blacklist
  {
  }

  /**
   * Where the two bots part ways on a stream with no audio url: this one drops it from the head
   * without blacklisting it; the modular bot blacklists it.
   */
  lemma MissingAudioIsNotBlacklisted(t: TenantState, url: string, env: Env, penv: Player.Env)
    requires url !in t.blacklist && env.voiceReady && penv.voiceReady
    requires env.extract(url) == Extracted(Some("x"), None) && penv.resolve(url) == Player.Single(Some("x"), None)
    ensures url !in StreamPlay(t, url, false, env).t.blacklist
    ensures url in Player.StreamPlay(t, url, false, penv).t.blacklist
    ensures StreamPlay(t, url, false, env).t.queue == Player.StreamPlay(t, url, false, penv).t.queue
  {
  }

  /**
   * `_after`: drop the url from the head if it is still there, record it unless it was a back
   * replay (append, then drop the oldest past 50), reset the current record and the back counter,
   * and go on to `play_next` only when the queue is not empty.
   */
  function After(t: TenantState, url: string): (r: (TenantState, bool))
    ensures r.0.queue == PopIfHead(t.queue, url)
    ensures r.0.current == t.current.(url := None, title := None, fromBack := false, processingBack := false)
    ensures r.0.backCount == 0 && r.0.blacklist == t.blacklist && r.0.backHistory == t.backHistory
    ensures t.current.fromBack ==> r.0.played == t.played
    ensures !t.current.fromBack && |t.played| < 50 ==> r.0.played == t.played + [url]
    ensures !t.current.fromBack && |t.played| == 50 ==> r.0.played == t.played[1..] + [url]
    ensures r.1 <==> |r.0.queue| > 0
  {
    var fromBack := t.current.fromBack;
    var queue := PopIfHead(t.queue, url);
    var appended := t.played + [url];
    var played := if fromBack then t.played else if |appended| > 50 then appended[1..] else appended;
    var current := t.current.(url := None, title := None, fromBack := false, processingBack := false);
    (t.(queue := queue, played := played, current := current, backCount := 0), |queue| > 0)
  }

  /**
   * `_after` and the modular bot's completion handler agree on the queue, the history (under the
   * default history cap) and the current record; they disagree only on whether a back replay
   * with nothing queued goes on to `play_next`, and `_after` also zeroes the back counter.
   */
  lemma AfterMatchesPlaybackFinished(t: TenantState, url: string)
    ensures var (a, more) := After(t, url);
      var (p, next) := Player.PlaybackFinished(t, url, DefaultLimits);
      && a == p.(backCount := 0)
      && (more != next <==> t.current.fromBack && |p.queue| == 0)
  {
  }

  /** The `interlude` test for a playlist link: `"playlist" in url or "list=" in url`. */
  predicate LooksLikePlaylist(url: string) {
    Contains(url, "playlist") || Contains(url, "list=")
  }

  /**
   * The links `interlude` inserts: a playlist-looking url is flattened (YouTube Music links when
   * the url names music.youtube.com), anything else is taken as one link. `flatten(url, music)`
   * is `yt_flat_playlist`, `None` when it raises (the exception ends the command).
   */
  function InterludeLinks(url: string, flatten: (string, bool) -> Option<seq<string>>): Option<seq<string>> {
    if LooksLikePlaylist(url) then flatten(url, Contains(url, "music.youtube.com")) else Some([url])
  }

  /**
   * `interlude`: the links go in front of the queue, in their order. Returns the new state and
   * whether `play_next` is called, or `None` when the extractor raised or no link came out, in
   * which case nothing changes.
   */
  function Interlude(t: TenantState, url: string, flatten: (string, bool) -> Option<seq<string>>, playing: bool): (r: Option<(TenantState, bool)>)
    ensures !LooksLikePlaylist(url) ==> r == Some((t.(queue := [url] + t.queue), !playing))
    ensures LooksLikePlaylist(url) ==>
      var links := flatten(url, Contains(url, "music.youtube.com"));
      && (links.None? || |links.value| == 0 <==> r.None?)
      && (links.Some? && |links.value| > 0 ==> r == Some((t.(queue := links.value + t.queue), !playing)))
  {
    match InterludeLinks(url, flatten)
    case None => None
    case Some(links) =>
      if |links| == 0 then None
      else Some((t.(queue := InsertEachAtFront(t.queue, links)), !playing))
  }

  /**
   * Given the same links, the single-file `interlude` and the modular one agree: both refuse, or
   * both put the links in front and call `play_next` in the same case.
   */
  lemma InterludeAgrees(reg: Registry, g: int, url: string, flatten: (string, bool) -> Option<seq<string>>, res: Player.Resolution, playing: bool)
    requires InterludeLinks(url, flatten) == Commands.InterludeLinks(url, res)
    ensures var single := Interlude(Get(reg, g), url, flatten, playing);
      var modular := Commands.Interlude(reg, g, url, res, playing);
      && (single.None? <==> modular.Failure?)
      && (single.Some? ==> single.value.0 == Get(modular.value.0, g) && single.value.1 == modular.value.2)
  {
  }

  /** `clean_list`: a count that is not positive is refused; otherwise `min(count, len)` leave the front. */
  function CleanList(t: TenantState, count: int): (r: Option<(TenantState, nat)>)
    ensures count <= 0 <==> r.None?
    ensures r.Some? ==> r.value.1 == Min(count, |t.queue|) && t.queue == t.queue[..r.value.1] + r.value.0.queue
    ensures r.Some? ==> r.value.0 == t.(queue := r.value.0.queue)
  {
    if count <= 0 then None
    else
      var removed := Min(count, |t.queue|);
      assert t.queue == t.queue[..removed] + t.queue[removed..];
      Some((t.(queue := t.queue[removed..]), removed))
  }

  /** `clean_all`: empty the queue and report the old length. */
  function CleanAll(t: TenantState): (r: (TenantState, nat))
    ensures r.1 == |t.queue| && r.0 == t.(queue := [])
  {
    (t.(queue := []), |t.queue|)
  }

  /** The single-file `clean_list` and `clean_all` do to a guild what the modular commands do. */
  lemma CleanCommandsAgree(reg: Registry, g: int, count: int)
    ensures var single := CleanList(Get(reg, g), count);
      var modular := Commands.CleanList(reg, g, count);
      && (single.None? <==> modular.Failure?)
      && (single.Some? ==> single.value.0 == Get(modular.value.0, g) && single.value.1 == modular.value.1)
    ensures CleanAll(Get(reg, g)) == (Get(Commands.CleanAll(reg, g).0, g), Commands.CleanAll(reg, g).1)
  {
    var single := CleanList(Get(reg, g), count);
    if single.Some? {
      var q := Get(reg, g).queue;
      var k := single.value.1;
      assert q == q[..k] + single.value.0.queue;
      assert single.value.0.queue == q[k..];
    }
  }

  /**
   * What `auto_resume_playback` does once connected: only with a current url set (the
   * `queue or url` half of its test adds nothing), a channel id set that still resolves to a
   * channel. An interrupted url not in the queue is put back at the head when it still extracts;
   * when extraction fails with a `DownloadError` (the extractor's own timeout becomes one) it is
   * cleared; any other exception aborts with nothing changed. Returns the state and whether
   * `play_next` is called.
   */
  function AutoResume(t: TenantState, connected: bool, channelExists: int -> bool, extract: string -> Extraction): (r: (TenantState, bool))
    ensures !connected || !Truthy(t.current.url) ==> r == (t, false)
    ensures !(ChannelSet(t.current.channelId) && channelExists(t.current.channelId.value)) ==> r == (t, false)
    ensures r.1 ==> connected && Truthy(t.current.url) && |r.0.queue| > 0
    ensures connected && Truthy(t.current.url) && ChannelSet(t.current.channelId) && channelExists(t.current.channelId.value) ==>
        var u := t.current.url.value;
        && (u in t.queue ==> r == (t, true))
        && (u !in t.queue && extract(u).Extracted? ==> r == (t.(queue := [u] + t.queue), true))
        && (u !in t.queue && (extract(u).DownloadFailed? || extract(u).TimedOut?) ==>
              r == (t.(current := t.current.(url := None, title := None)), |t.queue| > 0))
        && (u !in t.queue && extract(u).Crashed? ==> r == (t, false))
  {
    var cur := t.current;
    if !connected || !Truthy(cur.url) then (t, false)
    else if !ChannelSet(cur.channelId) || !channelExists(cur.channelId.value) then (t, false)
    else if cur.url.value !in t.queue then
      match extract(cur.url.value)
      case Crashed => (t, false)
      case DownloadFailed | TimedOut =>
        var t' := t.(current := cur.(url := None, title := None));
        (t', |t'.queue| > 0)
      case Extracted(_, _) =>
        (t.(queue := [cur.url.value] + t.queue), true)
    else (t, |t.queue| > 0)
  }

  /** With only a queue and no current url, the single bot does not resume at all. */
  lemma QueueAloneDoesNotResume(t: TenantState, channelExists: int -> bool, extract: string -> Extraction)
    requires |t.queue| > 0 && t.current.url.None?
    ensures AutoResume(t, true, channelExists, extract) == (t, false)
  {
  }
}
