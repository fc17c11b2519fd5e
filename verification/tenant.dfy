/**
 * Per-guild playback state. Every guild owns a queue, a bounded played history, a blacklist,
 * a back-navigation stack, a back counter and the record of what is (about to be) playing.
 * Guilds are created lazily: a guild never touched reads as `Fresh`.
 */
module Tenant {
  import opened Wrappers

  /** The `current` record: what plays now, where its notices go, and the back-navigation flags. */
  datatype Current = Current(
    url: Option<string>,
    title: Option<string>,
    channelId: Option<int>,
    position: int,
    fromBack: bool,
    processingBack: bool)

  /** The record `get_current` creates on first access. */
  const Idle: Current := Current(None, None, None, 0, false, false)

  /** Python truthiness of an optional string: present and non-empty. */
  predicate Truthy(o: Option<string>) {
    o.Some? && o.value != ""
  }

  /** Python truthiness of a stored channel id: present and not 0. */
  predicate ChannelSet(c: Option<int>) {
    c.Some? && c.value != 0
  }

  datatype TenantState = TenantState(
    queue: seq<string>,
    played: seq<string>,
    current: Current,
    blacklist: set<string>,
    backCount: int,
    backHistory: seq<string>)

  /** The state a guild has before anything was stored for it. */
  const Fresh: TenantState := TenantState([], [], Idle, {}, 0, [])

  /** All guilds' state, keyed by guild id. */
  type Registry = map<int, TenantState>

  /** Lazy lookup: a guild without an entry reads as `Fresh`. */
  function Get(reg: Registry, g: int): TenantState {
    if g in reg then reg[g] else Fresh
  }

  /** `reg2` differs from `reg1` at most in guild `g`'s entry. */
  predicate OnlyGuildChanged(reg1: Registry, reg2: Registry, g: int) {
    reg2 - {g} == reg1 - {g}
  }

  /** Guild `g` is the only guild whose visible state may differ. */
  lemma OnlyGuildChangedFrames(reg1: Registry, reg2: Registry, g: int, h: int)
    requires OnlyGuildChanged(reg1, reg2, g) && h != g
    ensures Get(reg2, h) == Get(reg1, h)
  {
    assert h in reg2 <==> h in reg2 - {g};
    assert h in reg1 <==> h in reg1 - {g};
  }
}
