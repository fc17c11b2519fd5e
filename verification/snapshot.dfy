/**
 * The persisted snapshot (`save_state` / `load_state`). The JSON document is modelled as its
 * list of members, guild key first, in the order the in-memory dictionaries iterate; reading it
 * back replaces the whole in-memory state, and a later member for the same guild wins.
 * Writing and reading the file itself is outside the model.
 */
module Snapshot {
  import opened Wrappers
  import opened Seqs
  import opened Decimal
  import opened Tenant

  /** The stored document: one `(str(guild_id), state)` member per guild. */
  type Document = seq<(string, TenantState)>

  /** What `load_state` finds on disk. */
  datatype StateFile = Missing | Unreadable | Stored(doc: Document)

  /** The state as written: history reduced to `played[-histCap:]`, back stack to `back_history[-backCap:]`. */
  function Trimmed(t: TenantState, histCap: int, backCap: int): TenantState {
    t.(played := PyFrom(t.played, -histCap), backHistory := PyFrom(t.backHistory, -backCap))
  }

  /** The guilds of `order` all have state to write. */
  predicate Writable(reg: Registry, order: seq<int>) {
    forall i :: 0 <= i < |order| ==> order[i] in reg
  }

  /** `order` lists exactly the guilds of `reg`, each once: the iteration order of the dictionaries. */
  ghost predicate IsOrderOf(order: seq<int>, reg: Registry) {
    && (forall i, j :: 0 <= i < j < |order| ==> order[i] != order[j])
    && Writable(reg, order)
    && (forall g :: g in reg ==> g in order)
  }

  /** The member written for guild `g`. */
  function Member(reg: Registry, g: int, histCap: int, backCap: int): (string, TenantState)
    requires g in reg
  {
    (IntToString(g), Trimmed(reg[g], histCap, backCap))
  }

  /** The document `save_state` writes for the guilds of `order`, in that order. */
  function Save(reg: Registry, order: seq<int>, histCap: int, backCap: int): (doc: Document)
    requires Writable(reg, order)
    ensures |doc| == |order|
    ensures forall i :: 0 <= i < |order| ==> doc[i] == Member(reg, order[i], histCap, backCap)
    decreases |order|
  {
    if |order| == 0 then []
    else
      var init := order[..|order| - 1];
      assert Writable(reg, init) by {
        forall i | 0 <= i < |init| ensures init[i] in reg { assert init[i] == order[i]; }
      }
      Save(reg, init, histCap, backCap) + [Member(reg, order[|order| - 1], histCap, backCap)]
  }

  /** Every written member keeps the queue, blacklist and current record whole and respects positive caps. */
  lemma SavedMembersAreBounded(reg: Registry, order: seq<int>, histCap: int, backCap: int, i: nat)
    requires Writable(reg, order) && i < |order|
    ensures var m := Save(reg, order, histCap, backCap)[i];
      var t := reg[order[i]];
      && m.0 == IntToString(order[i])
      && m.1.queue == t.queue && m.1.blacklist == t.blacklist && m.1.current == t.current
      && (histCap > 0 ==> |m.1.played| == Min(histCap, |t.played|))
      && (backCap > 0 ==> |m.1.backHistory| == Min(backCap, |t.backHistory|))
  {
    var t := reg[order[i]];
    if histCap > 0 { PyFromNegativeKeepsLast(t.played, histCap); }
    if backCap > 0 { PyFromNegativeKeepsLast(t.backHistory, backCap); }
  }

  /** The registry a document denotes, or `None` when some key is not an integer. */
  function FromDocument(doc: Document): Option<Registry>
    decreases |doc|
  {
    if |doc| == 0 then Some(map[])
    else match FromDocument(doc[..|doc| - 1])
      case None => None
      case Some(reg) =>
        match ParseInt(doc[|doc| - 1].0)
        case None => None
        case Some(g) => Some(reg[g := doc[|doc| - 1].1])
  }

  /**
   * `load_state`: success without change when there is no file; failure when the file cannot be
   * read or a key is not an integer; otherwise the document replaces all state. Every guild key
   * stands for the same key in all six dictionaries, as `save_state` writes them, so the first
   * dictionary replaced already meets a bad key and a failure leaves the state as it was.
   */
  function LoadState(reg: Registry, file: StateFile): (r: (bool, Registry))
    ensures file.Missing? ==> r == (true, reg)
    ensures !r.0 ==> r.1 == reg
    ensures file.Stored? && FromDocument(file.doc).Some? ==> r == (true, FromDocument(file.doc).value)
  {
    match file
    case Missing => (true, reg)
    case Unreadable => (false, reg)
    case Stored(doc) =>
      match FromDocument(doc)
      case None => (false, reg)
      case Some(loaded) => (true, loaded)
  }

  /** The registry rebuilt from the guilds of `keys`, each with its written (trimmed) state. */
  function Rebuilt(reg: Registry, keys: seq<int>, histCap: int, backCap: int): (m: Registry)
    requires Writable(reg, keys)
    ensures forall g :: g in m <==> g in keys
    ensures forall g :: g in m ==> g in reg && m[g] == Trimmed(reg[g], histCap, backCap)
    decreases |keys|
  {
    if |keys| == 0 then map[]
    else
      var g := keys[|keys| - 1];
      assert forall h :: h in keys <==> h in keys[..|keys| - 1] || h == g;
      Rebuilt(reg, keys[..|keys| - 1], histCap, backCap)[g := Trimmed(reg[g], histCap, backCap)]
  }

  /** Reading back a written document rebuilds exactly the guilds written. */
  lemma {:induction false} LoadWritten(reg: Registry, keys: seq<int>, histCap: int, backCap: int)
    requires Writable(reg, keys)
    ensures FromDocument(Save(reg, keys, histCap, backCap)) == Some(Rebuilt(reg, keys, histCap, backCap))
    decreases |keys|
  {
    if |keys| > 0 {
      var doc := Save(reg, keys, histCap, backCap);
      var init := keys[..|keys| - 1];
      var g := keys[|keys| - 1];
      LoadWritten(reg, init, histCap, backCap);
      assert doc[..|doc| - 1] == Save(reg, init, histCap, backCap);
      IntRoundTrip(g);
      assert ParseInt(doc[|doc| - 1].0) == Some(g);
    }
  }

  /**
   * Round trip: loading what was saved yields, for every guild, its queue, current record,
   * blacklist and back counter unchanged and its history and back stack cut to their caps.
   */
  lemma SaveLoadRoundTrip(any: Registry, reg: Registry, order: seq<int>, histCap: int, backCap: int)
    requires IsOrderOf(order, reg)
    ensures Writable(reg, order)
    ensures LoadState(any, Stored(Save(reg, order, histCap, backCap))) ==
      (true, map g | g in reg :: Trimmed(reg[g], histCap, backCap))
  {
    LoadWritten(reg, order, histCap, backCap);
    RebuiltCoversAll(reg, order, histCap, backCap);
  }

  /** Rebuilding from an order that lists every guild gives back every guild. */
  lemma RebuiltCoversAll(reg: Registry, order: seq<int>, histCap: int, backCap: int)
    requires Writable(reg, order) && forall g :: g in reg ==> g in order
    ensures Rebuilt(reg, order, histCap, backCap) == map g | g in reg :: Trimmed(reg[g], histCap, backCap)
  {
    var m := Rebuilt(reg, order, histCap, backCap);
    var target := map g | g in reg :: Trimmed(reg[g], histCap, backCap);
    RebuiltKeys(reg, order, histCap, backCap);
    assert m.Keys == target.Keys;
    forall g | g in m ensures m[g] == target[g] { }
  }

  lemma RebuiltKeys(reg: Registry, order: seq<int>, histCap: int, backCap: int)
    requires Writable(reg, order) && forall g :: g in reg ==> g in order
    ensures Rebuilt(reg, order, histCap, backCap).Keys == reg.Keys
  {
    var m := Rebuilt(reg, order, histCap, backCap);
    forall g | g in m ensures g in reg { }
    forall g | g in reg ensures g in m { assert g in order; }
  }

  /** What a reloaded guild looks like, field by field, for positive caps. */
  lemma RoundTripFields(reg: Registry, order: seq<int>, histCap: int, backCap: int, g: int)
    requires IsOrderOf(order, reg) && histCap > 0 && backCap > 0
    ensures Writable(reg, order)
    ensures var loaded := LoadState(map[], Stored(Save(reg, order, histCap, backCap))).1;
      var t := Get(reg, g);
      var u := Get(loaded, g);
      && u.queue == t.queue && u.blacklist == t.blacklist && u.current == t.current
      && u.backCount == t.backCount
      && u.played == t.played[|t.played| - Min(histCap, |t.played|)..]
      && u.backHistory == t.backHistory[|t.backHistory| - Min(backCap, |t.backHistory|)..]
  {
    SaveLoadRoundTrip(map[], reg, order, histCap, backCap);
    var t := Get(reg, g);
    PyFromNegativeKeepsLast(t.played, histCap);
    PyFromNegativeKeepsLast(t.backHistory, backCap);
  }

  /**
   * A key that is not an integer makes loading fail and leaves the state as it was (for a
   * document whose six dictionaries share their keys; see `LoadState`).
   */
  lemma BadKeyLeavesStateUnchanged(reg: Registry, doc: Document, i: nat)
    requires i < |doc| && ParseInt(doc[i].0).None?
    ensures LoadState(reg, Stored(doc)) == (false, reg)
  {
    BadKeyFails(doc, i);
  }

  lemma {:induction false} BadKeyFails(doc: Document, i: nat)
    requires i < |doc| && ParseInt(doc[i].0).None?
    ensures FromDocument(doc).None?
    decreases |doc|
  {
    if i < |doc| - 1 {
      assert doc[..|doc| - 1][i] == doc[i];
      BadKeyFails(doc[..|doc| - 1], i);
    }
  }
}
