/**
 * The state manager (`state_manager.py`): guild-scoped accessors and the bounded queue, history
 * and blacklist operations every other component goes through. Each operation maps the registry
 * of all guilds to a new registry and touches only the guild it is given.
 */
module StateManager {
  import opened Wrappers
  import opened Seqs
  import opened Config
  import opened Tenant

  /** `add_to_queue`'s `ValueError` when the queue is at capacity. */
  datatype Error = QueueFull(max: int)

  /** The `current` record, or the idle record `get_current` would create. */
  function GetCurrent(reg: Registry, g: int): (c: Current)
    ensures g !in reg ==> c == Idle
    ensures g in reg ==> c == reg[g].current
  {
    Get(reg, g).current
  }

  /** Bounded enqueue: refuses at capacity, otherwise appends at the tail and reports the new length. */
  function AddToQueue(reg: Registry, g: int, item: string, lim: Limits): (r: Result<(Registry, nat), Error>)
    ensures r.Failure? <==> |Get(reg, g).queue| >= lim.maxQueue
    ensures r.Failure? ==> r.error == QueueFull(lim.maxQueue)
    ensures r.Success? ==> OnlyGuildChanged(reg, r.value.0, g)
    ensures r.Success? ==> Get(r.value.0, g) == Get(reg, g).(queue := Get(reg, g).queue + [item])
    ensures r.Success? ==> r.value.1 == |Get(reg, g).queue| + 1
  {
    var t := Get(reg, g);
    if |t.queue| >= lim.maxQueue then Failure(QueueFull(lim.maxQueue))
    else
      var t' := t.(queue := t.queue + [item]);
      Success((reg[g := t'], |t'.queue|))
  }

  /**
   * Enqueue items one by one until the first capacity error, keeping what was inserted
   * (the playlist loops of `add_to_queue` and the `playlist` command). Returns the count inserted.
   */
  function EnqueueMany(reg: Registry, g: int, items: seq<string>, lim: Limits): (r: (Registry, nat))
    ensures r.1 == Min(|items|, Max(0, lim.maxQueue - |Get(reg, g).queue|))
    ensures Get(r.0, g) == Get(reg, g).(queue := Get(reg, g).queue + items[..r.1])
    ensures OnlyGuildChanged(reg, r.0, g)
    decreases |items|
  {
    if |items| == 0 then (reg, 0)
    else match AddToQueue(reg, g, items[0], lim)
      case Failure(_) => (reg, 0)
      case Success((reg1, _)) =>
        var (reg2, n) := EnqueueMany(reg1, g, items[1..], lim);
        assert items[..n + 1] == [items[0]] + items[1..][..n];
        (reg2, n + 1)
  }

  /** Append to the played history, evicting only the oldest entry when over the history cap. */
  function AddToPlayed(reg: Registry, g: int, url: string, lim: Limits): (reg': Registry)
    ensures OnlyGuildChanged(reg, reg', g)
    ensures Get(reg', g) == Get(reg, g).(played := Get(reg', g).played)
    ensures Get(reg', g).played == RecordBounded(Get(reg, g).played, url, lim.maxHistory)
  {
    var t := Get(reg, g);
    reg[g := t.(played := RecordBounded(t.played, url, lim.maxHistory))]
  }

  /** With a positive cap, the url becomes the newest entry and a history within the cap stays within it. */
  lemma AddToPlayedKeepsBound(reg: Registry, g: int, url: string, lim: Limits)
    requires lim.maxHistory >= 1 && |Get(reg, g).played| <= lim.maxHistory
    ensures var p := Get(AddToPlayed(reg, g, url, lim), g).played;
      |p| <= lim.maxHistory && p[|p| - 1] == url
  {
    RecordBoundedKeepsBound(Get(reg, g).played, url, lim.maxHistory);
  }

  predicate IsBlacklisted(reg: Registry, g: int, url: string) {
    url in Get(reg, g).blacklist
  }

  /** Idempotent blacklist insertion. */
  function AddToBlacklist(reg: Registry, g: int, url: string): (reg': Registry)
    ensures IsBlacklisted(reg', g, url)
    ensures OnlyGuildChanged(reg, reg', g)
    ensures Get(reg', g) == Get(reg, g).(blacklist := Get(reg, g).blacklist + {url})
  {
    var t := Get(reg, g);
    reg[g := t.(blacklist := t.blacklist + {url})]
  }

  /** Blacklisting twice is blacklisting once. */
  lemma BlacklistIdempotent(reg: Registry, g: int, url: string)
    ensures AddToBlacklist(AddToBlacklist(reg, g, url), g, url) == AddToBlacklist(reg, g, url)
  {
  }

  /** The blacklist only grows, and another guild's blacklist is unaffected. */
  lemma BlacklistIsolatedAndMonotone(reg: Registry, g: int, url: string, h: int, v: string)
    ensures IsBlacklisted(reg, h, v) ==> IsBlacklisted(AddToBlacklist(reg, g, url), h, v)
    ensures h != g ==> (IsBlacklisted(AddToBlacklist(reg, g, url), h, v) <==> IsBlacklisted(reg, h, v))
  {
    if h != g {
      OnlyGuildChangedFrames(reg, AddToBlacklist(reg, g, url), g, h);
    }
  }

  /** Empty the queue and report how many entries it held. */
  function ClearQueue(reg: Registry, g: int): (r: (Registry, nat))
    ensures r.1 == |Get(reg, g).queue|
    ensures Get(r.0, g) == Get(reg, g).(queue := [])
    ensures OnlyGuildChanged(reg, r.0, g)
  {
    var t := Get(reg, g);
    (reg[g := t.(queue := [])], |t.queue|)
  }

  /**
   * Remove up to `count` entries from the front. The reported count is Python's `min(count, len)`,
   * which is negative (and removes nothing) for a negative `count`.
   */
  function RemoveFromQueue(reg: Registry, g: int, count: int): (r: (Registry, int))
    ensures r.1 == Min(count, |Get(reg, g).queue|)
    ensures r.1 <= 0 ==> Get(r.0, g).queue == Get(reg, g).queue
    ensures r.1 > 0 ==> Get(reg, g).queue == Get(reg, g).queue[..r.1] + Get(r.0, g).queue
    ensures Get(r.0, g) == Get(reg, g).(queue := Get(r.0, g).queue)
    ensures OnlyGuildChanged(reg, r.0, g)
  {
    var t := Get(reg, g);
    var removed := Min(count, |t.queue|);
    var rest := if removed <= 0 then t.queue else t.queue[removed..];
    assert removed > 0 ==> t.queue == t.queue[..removed] + rest;
    (reg[g := t.(queue := rest)], removed)
  }

  /**
   * FIFO: items enqueued into an empty queue within capacity come out in insertion order; after
   * the first `k` are removed from the front, the head is the `k`-th item enqueued.
   */
  lemma FifoOrder(reg: Registry, g: int, items: seq<string>, lim: Limits, k: nat)
    requires Get(reg, g).queue == [] && |items| <= lim.maxQueue && k < |items|
    ensures var filled := EnqueueMany(reg, g, items, lim);
      filled.1 == |items| && Get(filled.0, g).queue == items &&
      Get(RemoveFromQueue(filled.0, g, k).0, g).queue == items[k..]
  {
    var filled := EnqueueMany(reg, g, items, lim);
    assert filled.1 == |items|;
    assert items[..|items|] == items;
    assert Get(filled.0, g).queue == items;
    RemoveLeavesSuffix(filled.0, g, k);
  }

  /** Removing `k` items that are there leaves exactly the queue after its first `k`. */
  lemma RemoveLeavesSuffix(reg: Registry, g: int, k: nat)
    requires k <= |Get(reg, g).queue|
    ensures Get(RemoveFromQueue(reg, g, k).0, g).queue == Get(reg, g).queue[k..]
  {
    var q := Get(reg, g).queue;
    var rest := Get(RemoveFromQueue(reg, g, k).0, g).queue;
    if k > 0 {
      assert q == q[..k] + rest;
      assert q[k..] == rest;
    }
  }

  /** The counts the status command shows. */
  datatype Status = Status(
    queueLength: nat,
    playedCount: nat,
    blacklistCount: nat,
    currentPlaying: Option<string>,
    backHistoryLength: nat)

  /** The status `get_queue_status` reports for a guild. */
  function QueueStatus(reg: Registry, g: int): (s: Status)
    ensures s.queueLength == |Get(reg, g).queue| && s.playedCount == |Get(reg, g).played|
    ensures s.blacklistCount == |Get(reg, g).blacklist| && s.backHistoryLength == |Get(reg, g).backHistory|
    ensures s.currentPlaying == Get(reg, g).current.title
  {
    var t := Get(reg, g);
    Status(|t.queue|, |t.played|, |t.blacklist|, t.current.title, |t.backHistory|)
  }

  /** One enqueue, one completed play and one blacklisting on a new guild each show up as a count of one. */
  lemma StatusCountsScenario(reg: Registry, g: int, lim: Limits)
    requires g !in reg && lim.maxQueue >= 1 && lim.maxHistory >= 1
    ensures var r1 := AddToQueue(reg, g, "test_url", lim);
      r1.Success? &&
      var s := QueueStatus(AddToBlacklist(AddToPlayed(r1.value.0, g, "played_url", lim), g, "bad_url"), g);
      s.queueLength == 1 && s.playedCount == 1 && s.blacklistCount == 1 && s.backHistoryLength == 0
  {
  }

  /** Forget a guild entirely; every other guild keeps its state. */
  function CleanupGuild(reg: Registry, g: int): (reg': Registry)
    ensures g !in reg' && Get(reg', g) == Fresh
    ensures OnlyGuildChanged(reg, reg', g)
    ensures reg'.Keys == reg.Keys - {g}
  {
    reg - {g}
  }

  /**
   * The status follows every update: a successful enqueue adds one to the queue length (a refused
   * one changes nothing), a completed play adds one to the played count unless the cap evicts
   * the oldest, a new blacklisting adds one to the blacklist count, and each leaves the other
   * counts as they were.
   */
  lemma StatusTracksUpdates(reg: Registry, g: int, url: string, lim: Limits)
    ensures var before := QueueStatus(reg, g);
      var r := AddToQueue(reg, g, url, lim);
      && (r.Success? ==> QueueStatus(r.value.0, g) == before.(queueLength := before.queueLength + 1))
      && (r.Failure? ==> before.queueLength >= lim.maxQueue)
    ensures var before := QueueStatus(reg, g);
      var after := QueueStatus(AddToPlayed(reg, g, url, lim), g);
      after == before.(playedCount := if before.playedCount + 1 > lim.maxHistory then before.playedCount else before.playedCount + 1)
    ensures var before := QueueStatus(reg, g);
      var after := QueueStatus(AddToBlacklist(reg, g, url), g);
      after == before.(blacklistCount := if IsBlacklisted(reg, g, url) then before.blacklistCount else before.blacklistCount + 1)
  {
    var t := Get(reg, g);
    if !IsBlacklisted(reg, g, url) {
      assert |t.blacklist + {url}| == |t.blacklist| + 1;
    } else {
      assert t.blacklist + {url} == t.blacklist;
    }
  }

  /** After the guild is forgotten it reads as idle and every count is zero. */
  lemma CleanupResetsStatus(reg: Registry, g: int)
    ensures GetCurrent(CleanupGuild(reg, g), g) == Idle
    ensures QueueStatus(CleanupGuild(reg, g), g) == Status(0, 0, 0, None, 0)
  {
  }
}
