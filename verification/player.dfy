/**
 * The playback session of `music_player.py`: starting a track under the guild's lock, the
 * completion handler, advancing through the queue, and the enqueue entry point.
 *
 * Each coroutine is modelled as ONE step: a function from the guild's state to the new state,
 * the list of inputs it handed to the resolver, and what it does last: return, or await another
 * coroutine (and whether the guild lock is still held while it does). `Run` chains the steps.
 * The guild lock is a flag; the resolver is a parameter.
 */
module Player {
  import opened Wrappers
  import opened Seqs
  import opened Config
  import opened Tenant
  import StateManager

  /** How resolving an input failed: timeout, unplayable (`AudioSourceError`), or any other exception. */
  datatype FailKind = Timeout | Unplayable | Unexpected

  /** What the resolver (`process_url`) produces for an input. */
  datatype Resolution =
    | Single(title: Option<string>, audio: Option<string>)
    | Playlist(urls: seq<string>)
    | Fail(kind: FailKind)

  /** A resolution that can be streamed: a single item with a non-empty audio endpoint. */
  predicate Playable(res: Resolution) {
    res.Single? && Truthy(res.audio)
  }

  /** The coroutines a step can await: `play_next` and `stream_play(url)`. */
  datatype Call = Advance | Stream(url: string)

  /**
   * How a step ends: `Return(ok)`, or `Await(call, lockHeld, passOn)`: await `call`, with this
   * step still holding the guild lock when `lockHeld`, and return the callee's result when
   * `passOn` (otherwise return False).
   */
  datatype Then = Return(ok: bool) | Await(call: Call, lockHeld: bool, passOn: bool)

  /** One step: the new guild state, the inputs given to the resolver, and the ending. */
  datatype Step = Step(t: TenantState, asked: seq<string>, ending: Then)

  /**
   * What a step may consult: the resolver, the invoking text channel, whether the voice client
   * is connected, whether `vc.play` accepts the source (false stands for any exception it
   * raises, which `stream_play` turns into returning False), and the bounds.
   */
  datatype Env = Env(resolve: string -> Resolution, channelId: int, voiceReady: bool, playerAccepts: bool, limits: Limits)

  /** The state after a failed resolution: url blacklisted, dropped from the head, current url/title cleared. */
  function SkipFailed(t: TenantState, url: string): TenantState {
    t.(blacklist := t.blacklist + {url},
       queue := PopIfHead(t.queue, url),
       current := t.current.(url := None, title := None))
  }

  /**
   * `stream_play` with the lock released before advancing after a failed resolution, as
   * `fixed_music_bot.py` does it (the as-written version is `StreamPlayAsWritten`).
   */
  function StreamPlay(t: TenantState, url: string, lockHeld: bool, env: Env): (s: Step)
    // a blacklisted url is skipped without consulting the resolver
    ensures url in t.blacklist ==> s == Step(t, [], Await(Advance, false, false))
    // a held lock drops the call without any effect
    ensures url !in t.blacklist && lockHeld ==> s == Step(t, [], Return(false))
    ensures url !in t.blacklist && !lockHeld && !env.voiceReady ==> s == Step(t, [], Return(false))
    // otherwise the url itself, and nothing else, is resolved
    ensures url !in t.blacklist && !lockHeld && env.voiceReady ==> s.asked == [url]
    // the current record is written before `vc.play`, so a refused play leaves it set and returns False
    ensures s.asked == [url] && Playable(env.resolve(url)) ==>
      && s.ending == Return(env.playerAccepts)
      && s.t.current.url == Some(url) && s.t.current.channelId == Some(env.channelId)
      && s.t.current.position == 0
      && s.t.current.fromBack == t.current.fromBack
      && s.t.current.processingBack == t.current.processingBack
      && s.t.queue == t.queue && s.t.played == t.played && s.t.blacklist == t.blacklist
    ensures s.asked == [url] && !Playable(env.resolve(url)) && env.resolve(url) != Fail(Unexpected) ==>
      && s.ending == Await(Advance, false, false)
      && s.t.blacklist == t.blacklist + {url}
      && s.t.queue == PopIfHead(t.queue, url)
      && s.t.current.url.None? && s.t.current.title.None?
      && s.t.played == t.played
    ensures s.asked == [url] && env.resolve(url) == Fail(Unexpected) ==> s.t == t && s.ending == Return(false)
  {
    if url in t.blacklist then Step(t, [], Await(Advance, false, false))
    else if lockHeld || !env.voiceReady then Step(t, [], Return(false))
    else
      var res := env.resolve(url);
      if res == Fail(Unexpected) then Step(t, [url], Return(false))
      else if Playable(res) then
        var current := t.current.(url := Some(url), title := Some(res.title.GetOr("Unknown")),
                                  channelId := Some(env.channelId), position := 0);
        Step(t.(current := current), [url], Return(env.playerAccepts))
      else
        Step(SkipFailed(t, url), [url], Await(Advance, false, false))
  }

  /**
   * `stream_play` as written: identical to `StreamPlay` except that after a failed resolution
   * `play_next` is awaited inside `async with lock`, so the guild lock is still held meanwhile.
   */
  function StreamPlayAsWritten(t: TenantState, url: string, lockHeld: bool, env: Env): (s: Step)
    ensures s.t == StreamPlay(t, url, lockHeld, env).t && s.asked == StreamPlay(t, url, lockHeld, env).asked
    ensures StreamPlay(t, url, lockHeld, env).ending == Await(Advance, false, false) && url !in t.blacklist ==>
      s.ending == Await(Advance, true, false)
    ensures url in t.blacklist || StreamPlay(t, url, lockHeld, env).ending.Return? ==>
      s.ending == StreamPlay(t, url, lockHeld, env).ending
  {
    var s := StreamPlay(t, url, lockHeld, env);
    if url !in t.blacklist && s.ending == Await(Advance, false, false) then s.(ending := Await(Advance, true, false))
    else s
  }

  /**
   * `play_next`: on an empty queue clear current url/title and return False; otherwise pop the
   * head, resolve it, and stream it, splice a playlist in at the front, or move on.
   */
  function PlayNextStep(t: TenantState, env: Env): (s: Step)
    ensures |t.queue| == 0 ==>
      s.ending == Return(false) && s.asked == [] &&
      s.t == t.(current := t.current.(url := None, title := None))
    ensures |t.queue| > 0 ==> s.asked == [t.queue[0]] && s.ending.Await? && s.ending.passOn && !s.ending.lockHeld
    ensures |t.queue| > 0 && env.resolve(t.queue[0]).Single? ==>
      s.t == t.(queue := t.queue[1..]) && s.ending.call == Stream(t.queue[0])
    ensures |t.queue| > 0 && env.resolve(t.queue[0]).Playlist? ==>
      s.t == t.(queue := env.resolve(t.queue[0]).urls + t.queue[1..]) && s.ending.call == Advance
    ensures |t.queue| > 0 && env.resolve(t.queue[0]).Fail? ==>
      s.t == t.(queue := t.queue[1..]) && s.ending.call == Advance
  {
    if |t.queue| == 0 then
      Step(t.(current := t.current.(url := None, title := None)), [], Return(false))
    else
      var next := t.queue[0];
      var rest := t.queue[1..];
      match env.resolve(next)
      case Single(_, _) => Step(t.(queue := rest), [next], Await(Stream(next), false, true))
      case Playlist(urls) =>
        var q := if |urls| > 0 then InsertEachAtFront(rest, urls) else rest;
        Step(t.(queue := q), [next], Await(Advance, false, true))
      case Fail(_) => Step(t.(queue := rest), [next], Await(Advance, false, true))
  }

  /**
   * `_handle_playback_finished`: drop the url from the head if it is still there, record it in
   * the bounded history unless it was a back-navigation replay, reset the current record, and
   * report whether `play_next` follows.
   */
  function PlaybackFinished(t: TenantState, url: string, lim: Limits): (r: (TenantState, bool))
    ensures r.0.queue == PopIfHead(t.queue, url)
    ensures !t.current.fromBack ==> r.0.played == RecordBounded(t.played, url, lim.maxHistory)
    ensures t.current.fromBack ==> r.0.played == t.played
    ensures r.0.current == t.current.(url := None, title := None, fromBack := false, processingBack := false)
    ensures r.0.blacklist == t.blacklist && r.0.backHistory == t.backHistory && r.0.backCount == t.backCount
    ensures r.1 <==> |r.0.queue| > 0 || t.current.fromBack
  {
    var fromBack := t.current.fromBack;
    var queue := PopIfHead(t.queue, url);
    var played := if fromBack then t.played else RecordBounded(t.played, url, lim.maxHistory);
    var current := t.current.(url := None, title := None, fromBack := false, processingBack := false);
    (t.(queue := queue, played := played, current := current), |queue| > 0 || fromBack)
  }

  /** A normal completion appends the url once; a back replay leaves the history exactly as it was. */
  lemma CompletionRecordsOnlyNormalPlays(t: TenantState, url: string, lim: Limits)
    requires lim.maxHistory >= 1 && |t.played| < lim.maxHistory
    ensures !t.current.fromBack ==> PlaybackFinished(t, url, lim).0.played == t.played + [url]
    ensures t.current.fromBack ==> PlaybackFinished(t, url, lim).0.played == t.played
  {
    RecordBoundedKeepsBound(t.played, url, lim.maxHistory);
  }

  /**
   * `MusicPlayer.add_to_queue`: a single item is enqueued (failing when full), a playlist is
   * enqueued until the first capacity error; a failed resolution changes nothing.
   * Returns the new registry, the success flag and the number of entries added.
   */
  function AddToQueue(reg: Registry, g: int, input: string, res: Resolution, lim: Limits): (r: (Registry, bool, nat))
    ensures res.Fail? ==> r == (reg, false, 0)
    ensures res.Single? ==> (r.1 <==> |Get(reg, g).queue| < lim.maxQueue)
    ensures res.Single? && r.1 ==> Get(r.0, g).queue == Get(reg, g).queue + [input] && r.2 == 1
    ensures res.Single? && !r.1 ==> r.0 == reg && r.2 == 0
    ensures res.Playlist? ==> r.1 && r.2 == Min(|res.urls|, Max(0, lim.maxQueue - |Get(reg, g).queue|))
    ensures res.Playlist? ==> Get(r.0, g).queue == Get(reg, g).queue + res.urls[..r.2]
    ensures OnlyGuildChanged(reg, r.0, g)
  {
    match res
    case Single(_, _) =>
      (match StateManager.AddToQueue(reg, g, input, lim)
       case Success((reg', _)) => (reg', true, 1)
       case Failure(_) => (reg, false, 0))
    case Playlist(urls) =>
      var (reg', n) := StateManager.EnqueueMany(reg, g, urls, lim);
      (reg', true, n)
    case Fail(_) => (reg, false, 0)
  }

  /**
   * The enqueue entry point goes through the state manager: a single item is its `add_to_queue`,
   * a playlist its item-by-item loop, and the status shows the queue grown by the count added.
   */
  lemma AddToQueueUsesStateManager(reg: Registry, g: int, input: string, res: Resolution, lim: Limits)
    ensures var r := AddToQueue(reg, g, input, res, lim);
      var direct := StateManager.AddToQueue(reg, g, input, lim);
      && (res.Single? ==> (r.1 <==> direct.Success?) && (r.1 ==> r.0 == direct.value.0))
      && (res.Playlist? ==> (r.0, r.2) == StateManager.EnqueueMany(reg, g, res.urls, lim))
      && StateManager.QueueStatus(r.0, g).queueLength == StateManager.QueueStatus(reg, g).queueLength + r.2
  {
  }

  /** The step a call takes; `asWritten` selects `stream_play` as written over the corrected one. */
  function StepOf(t: TenantState, call: Call, lockHeld: bool, env: Env, asWritten: bool): Step {
    match call
    case Advance => PlayNextStep(t, env)
    case Stream(u) => if asWritten then StreamPlayAsWritten(t, u, lockHeld, env) else StreamPlay(t, u, lockHeld, env)
  }

  /** The final state of a chain of calls, everything resolved on the way, the result, and whether fuel ran out. */
  datatype Outcome = Outcome(t: TenantState, asked: seq<string>, ok: bool, exhausted: bool)

  /**
   * Run `call` and every call it awaits, at most `fuel` steps deep (a playlist that expands to
   * itself would recurse forever). Along any chain the blacklist only grows, and the played
   * history and back stack are untouched: only completion and back-navigation change those.
   */
  function Run(t: TenantState, call: Call, lockHeld: bool, env: Env, asWritten: bool, fuel: nat): (o: Outcome)
    ensures t.blacklist <= o.t.blacklist
    ensures o.t.played == t.played && o.t.backHistory == t.backHistory && o.t.backCount == t.backCount
    ensures |o.asked| <= fuel
    decreases fuel
  {
    if fuel == 0 then Outcome(t, [], false, true)
    else
      var s := StepOf(t, call, lockHeld, env, asWritten);
      match s.ending
      case Return(ok) => Outcome(s.t, s.asked, ok, false)
      case Await(c, held, passOn) =>
        var o := Run(s.t, c, lockHeld || held, env, asWritten, fuel - 1);
        Outcome(o.t, s.asked + o.asked, if passOn then o.ok else false, o.exhausted)
  }

  /**
   * As written, a failed resolution loses the next queued track: `play_next` pops it and
   * resolves it, but the nested `stream_play` finds the lock held and returns False. The track
   * is neither played, nor blacklisted, nor left in the queue.
   */
  lemma AsWrittenFailureDropsNextTrack(t: TenantState, a: string, env: Env)
    requires a !in t.blacklist && env.voiceReady
    requires env.resolve(a) == Fail(Unplayable)
    requires var q := PopIfHead(t.queue, a); |q| > 0 && q[0] !in t.blacklist && q[0] != a && env.resolve(q[0]).Single?
    ensures var q := PopIfHead(t.queue, a);
      var o := Run(t, Stream(a), false, env, true, 3);
      && !o.exhausted && !o.ok
      && o.t.queue == q[1..]
      && o.t.current.url.None?
      && q[0] !in o.t.blacklist
      && o.asked == [a, q[0]]
  {
  }

  /**
   * With the lock released before advancing, the same situation plays the next track; the
   * failed call itself still reports False.
   */
  lemma CorrectedFailurePlaysNextTrack(t: TenantState, a: string, env: Env)
    requires a !in t.blacklist && env.voiceReady
    requires env.resolve(a) == Fail(Unplayable)
    requires var q := PopIfHead(t.queue, a); |q| > 0 && q[0] !in t.blacklist && q[0] != a && Playable(env.resolve(q[0]))
    ensures var q := PopIfHead(t.queue, a);
      var o := Run(t, Stream(a), false, env, false, 3);
      && !o.exhausted
      && o.t.queue == q[1..]
      && o.t.current.url == Some(q[0])
      && o.asked == [a, q[0], q[0]]
      && !o.ok
  {
  }

  /** `play_next` resolves the popped head before `stream_play` checks the blacklist. */
  lemma PlayNextResolvesBlacklistedHead(t: TenantState, env: Env)
    requires |t.queue| > 0 && t.queue[0] in t.blacklist && env.resolve(t.queue[0]).Single?
    ensures var o := Run(t, Advance, false, env, false, 2);
      |o.asked| > 0 && o.asked[0] == t.queue[0]
  {
  }
}
