/**
 * The connection supervisor of `main.py` and `music_player.py`: the resume decision after a
 * (re)connect, the reconnect decision after an unexpected disconnect, the connect-retry backoff,
 * and forgetting a guild the bot was removed from. Sleeping, the Discord gateway and the voice
 * transport are outside the model; their observations are inputs.
 */
module Supervisor {
  import opened Wrappers
  import opened Seqs
  import opened Tenant
  import StateManager
  import Player

  /** Something is left to play: a current url or a non-empty queue (`current.get("url") or queue`). */
  predicate HasWork(t: TenantState) {
    Truthy(t.current.url) || |t.queue| > 0
  }

  /**
   * `_auto_resume_guild_playback`: with the voice client connected, work left and the stored
   * channel still present, an interrupted url that is not queued is revalidated with the resolver
   * and put back at the head, or cleared when the resolver fails; then `play_next` runs if the
   * queue is non-empty. Returns the state and whether `play_next` is called.
   */
  function AutoResume(t: TenantState, connected: bool, channelExists: int -> bool, resolve: string -> Player.Resolution): (r: (TenantState, bool))
    ensures !connected || !HasWork(t) ==> r == (t, false)
    ensures !(ChannelSet(t.current.channelId) && channelExists(t.current.channelId.value)) ==> r == (t, false)
    ensures r.1 <==> connected && HasWork(t) && ChannelSet(t.current.channelId) && channelExists(t.current.channelId.value) && |r.0.queue| > 0
    ensures connected && HasWork(t) && ChannelSet(t.current.channelId) && channelExists(t.current.channelId.value) ==>
      var u := t.current.url;
      && (!(Truthy(u) && u.value !in t.queue) ==> r.0 == t)
      && (Truthy(u) && u.value !in t.queue && !resolve(u.value).Fail? ==> r.0 == t.(queue := [u.value] + t.queue))
      && (Truthy(u) && u.value !in t.queue && resolve(u.value).Fail? ==>
            r.0 == t.(current := t.current.(url := None, title := None)))
    ensures r.0.played == t.played && r.0.blacklist == t.blacklist && r.0.backHistory == t.backHistory
  {
    var cur := t.current;
    if !connected || !HasWork(t) then (t, false)
    else if !ChannelSet(cur.channelId) || !channelExists(cur.channelId.value) then (t, false)
    else
      var t' :=
        if Truthy(cur.url) && cur.url.value !in t.queue then
          if resolve(cur.url.value).Fail? then t.(current := cur.(url := None, title := None))
          else t.(queue := [cur.url.value] + t.queue)
        else t;
      (t', |t'.queue| > 0)
  }

  /**
   * Resuming never loses the interrupted track: when it is revalidated, the `play_next` that
   * follows pops it first.
   */
  lemma ResumeStartsWithInterruptedTrack(t: TenantState, channelExists: int -> bool, env: Player.Env)
    requires Truthy(t.current.url) && t.current.url.value !in t.queue
    requires ChannelSet(t.current.channelId) && channelExists(t.current.channelId.value)
    requires !env.resolve(t.current.url.value).Fail?
    ensures var (t', more) := AutoResume(t, true, channelExists, env.resolve);
      && more
      && Player.PlayNextStep(t', env).asked == [t.current.url.value]
      && Player.PlayNextStep(t', env).t.queue[|Player.PlayNextStep(t', env).t.queue| - |t.queue|..] == t.queue
  {
    var (t', more) := AutoResume(t, true, channelExists, env.resolve);
    var s := Player.PlayNextStep(t', env);
    if env.resolve(t.current.url.value).Playlist? {
      var urls := env.resolve(t.current.url.value).urls;
      assert s.t.queue == urls + t.queue;
      assert s.t.queue[|urls|..] == t.queue;
    }
  }

  /** The first voice channel (by position in the guild's list) with at least one member. */
  function FirstWithMembers(members: seq<nat>): (r: Option<nat>)
    ensures r.None? <==> forall i :: 0 <= i < |members| ==> members[i] == 0
    ensures r.Some? ==> r.value < |members| && members[r.value] > 0
    ensures r.Some? ==> forall j :: 0 <= j < r.value ==> members[j] == 0
  {
    if |members| == 0 then None
    else if members[0] > 0 then Some(0)
    else match FirstWithMembers(members[1..])
      case None => None
      case Some(i) => Some(i + 1)
  }

  /**
   * `on_voice_state_update` after the bot left a channel: reconnect only when there is work left
   * and no voice client has come back, to the first channel with members. `members[i]` is the
   * member count of the guild's i-th voice channel.
   */
  function ReconnectChannel(t: TenantState, voiceClientBack: bool, members: seq<nat>): (r: Option<nat>)
    ensures r.Some? ==> HasWork(t) && !voiceClientBack && r.value < |members| && members[r.value] > 0
    ensures r.Some? ==> forall j :: 0 <= j < r.value ==> members[j] == 0
    ensures r.None? <==> !HasWork(t) || voiceClientBack || forall i :: 0 <= i < |members| ==> members[i] == 0
  {
    if !HasWork(t) || voiceClientBack then None else FirstWithMembers(members)
  }

  /** `on_guild_remove`: the guild's state is forgotten and every other guild keeps its own. */
  function OnGuildRemove(reg: Registry, g: int): (reg': Registry)
    ensures g !in reg' && Get(reg', g) == Fresh
    ensures forall h :: h != g ==> Get(reg', h) == Get(reg, h)
    ensures reg'.Keys == reg.Keys - {g}
  {
    var r := StateManager.CleanupGuild(reg, g);
    assert forall h :: h != g ==> Get(r, h) == Get(reg, h) by {
      forall h | h != g
        ensures Get(r, h) == Get(reg, h)
      {
        OnlyGuildChangedFrames(reg, r, g, h);
      }
    }
    r
  }

  /** The pause before retrying after failed attempt `i` (0-based): two seconds per attempt, at most five. */
  function Backoff(i: nat): int {
    Min(5, 2 * (i + 1))
  }

  /**
   * `safe_connect(channel, retry)`: attempt `i` succeeds when `connects(i)`. Returns the attempt
   * that connected (`None` is the `RuntimeError` after `retry` failures) and the pauses taken,
   * one after every failed attempt except the last.
   */
  method SafeConnect(connects: nat -> bool, retry: int) returns (joined: Option<nat>, waits: seq<int>)
    ensures joined.Some? ==> joined.value < retry && connects(joined.value)
    ensures joined.Some? ==> forall j :: 0 <= j < joined.value ==> !connects(j)
    ensures joined.None? ==> forall j :: 0 <= j < retry ==> !connects(j)
    ensures |waits| == if joined.Some? then joined.value else Max(0, retry - 1)
    ensures forall k :: 0 <= k < |waits| ==> waits[k] == Backoff(k)
  {
    waits := [];
    var i := 0;
    while i < retry
      invariant 0 <= i && (retry > 0 ==> i <= retry)
      invariant forall j :: 0 <= j < i ==> !connects(j)
      invariant |waits| == Min(i, Max(0, retry - 1))
      invariant forall k :: 0 <= k < |waits| ==> waits[k] == Backoff(k)
      decreases retry - i
    {
      if connects(i) {
        joined := Some(i);
        return;
      }
      if i < retry - 1 {
        waits := waits + [Backoff(i)];
      }
      i := i + 1;
    }
    joined := None;
  }

  /** With the default five attempts all failing, the pauses are 2, 4, 5 and 5 seconds. */
  lemma DefaultBackoffSchedule()
    ensures seq(4, k requires 0 <= k => Backoff(k)) == [2, 4, 5, 5]
  {
  }
}
