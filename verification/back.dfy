/**
 * Back-navigation (`back` in `music_commands.py`, repeated line for line in `fixed_music_bot.py`):
 * push the current track onto the back stack, backfill a short stack from the last five played
 * tracks, pop the current track, and rebuild the queue as the continuation after the target
 * followed by the original queue.
 */
module BackNav {
  import opened Wrappers
  import opened Seqs
  import opened Tenant
  import Player
  import Config

  /** The elements of a sequence. */
  function Elems(s: seq<string>): set<string> {
    set x | x in s
  }

  /** No track sits directly on top of itself in the stack. */
  predicate NoAdjacentRepeats(s: seq<string>) {
    forall i :: 0 <= i < |s| - 1 ==> s[i] != s[i + 1]
  }

  /** Push the current url, when it is set, unless it is already on top. */
  function PushCurrent(stack: seq<string>, cur: Option<string>): (r: seq<string>)
    ensures !Truthy(cur) ==> r == stack
    ensures Truthy(cur) ==> |r| > 0 && r[|r| - 1] == cur.value
    ensures |stack| <= |r| <= |stack| + 1 && r[..|stack|] == stack
    ensures |r| == |stack| + 1 <==> Truthy(cur) && (|stack| == 0 || stack[|stack| - 1] != cur.value)
  {
    if Truthy(cur) && (|stack| == 0 || stack[|stack| - 1] != cur.value) then stack + [cur.value] else stack
  }

  /** `stack.insert(-1 if stack else 0, x)`: before the top, or alone when the stack is empty. */
  function InsertBeforeTop(stack: seq<string>, x: string): seq<string> {
    if |stack| == 0 then [x] else stack[..|stack| - 1] + [x, stack[|stack| - 1]]
  }

  /** The backfill loop: each candidate not yet on the stack is inserted before the top. */
  function Backfill(stack: seq<string>, cands: seq<string>): (r: seq<string>)
    ensures forall x :: x in r <==> x in stack || x in cands
    decreases |cands|
  {
    if |cands| == 0 then stack
    else Backfill(if cands[0] in stack then stack else InsertBeforeTop(stack, cands[0]), cands[1..])
  }

  /** The candidates that are not in `seen`, each once, in order of first appearance. */
  function NewEntries(seen: set<string>, cands: seq<string>): (r: seq<string>)
    ensures forall x :: x in r <==> x in cands && x !in seen
    ensures forall i, j :: 0 <= i < j < |r| ==> r[i] != r[j]
    decreases |cands|
  {
    if |cands| == 0 then []
    else if cands[0] in seen then NewEntries(seen, cands[1..])
    else [cands[0]] + NewEntries(seen + {cands[0]}, cands[1..])
  }

  /**
   * On a non-empty stack the backfill keeps the top on top and slides the new candidates, in
   * order, in just below it.
   */
  lemma {:induction false} BackfillBelowTop(stack: seq<string>, cands: seq<string>)
    requires |stack| > 0
    ensures Backfill(stack, cands) == stack[..|stack| - 1] + NewEntries(Elems(stack), cands) + [stack[|stack| - 1]]
    decreases |cands|
  {
    if |cands| > 0 {
      var c := cands[0];
      if c in stack {
        assert c in Elems(stack);
        assert NewEntries(Elems(stack), cands) == NewEntries(Elems(stack), cands[1..]);
        assert Backfill(stack, cands) == Backfill(stack, cands[1..]);
        BackfillBelowTop(stack, cands[1..]);
      } else {
        var st := InsertBeforeTop(stack, c);
        assert Backfill(stack, cands) == Backfill(st, cands[1..]);
        BackfillBelowTop(st, cands[1..]);
        InsertBeforeTopShape(stack, c);
        assert c !in Elems(stack);
        assert NewEntries(Elems(stack), cands) == [c] + NewEntries(Elems(st), cands[1..]);
      }
    }
  }

  /** Inserting before the top keeps the top, adds `x` just below it and adds `x` to the elements. */
  lemma InsertBeforeTopShape(stack: seq<string>, x: string)
    requires |stack| > 0
    ensures var st := InsertBeforeTop(stack, x);
      && |st| == |stack| + 1 && st[|st| - 1] == stack[|stack| - 1]
      && st[..|st| - 1] == stack[..|stack| - 1] + [x]
      && Elems(st) == Elems(stack) + {x}
  {
    var st := InsertBeforeTop(stack, x);
    assert stack == stack[..|stack| - 1] + [stack[|stack| - 1]];
    assert forall y :: y in st <==> y in stack || y == x;
  }

  /**
   * On an empty stack the first new candidate (the oldest) ends up on TOP, above the others:
   * the effect of `insert(-1)` once the stack is no longer empty.
   */
  lemma {:induction false} BackfillFromEmpty(cands: seq<string>)
    ensures var e := NewEntries({}, cands);
      && (|e| == 0 ==> Backfill([], cands) == [])
      && (|e| > 0 ==> Backfill([], cands) == e[1..] + [e[0]])
  {
    if |cands| > 0 {
      var c := cands[0];
      var seen: set<string> := {c};
      assert Backfill([], cands) == Backfill([c], cands[1..]);
      BackfillBelowTop([c], cands[1..]);
      assert Elems([c]) == seen;
      assert {} + {c} == seen;
      var e := NewEntries({}, cands);
      assert e == [c] + NewEntries(seen, cands[1..]);
      assert e[1..] == NewEntries(seen, cands[1..]);
    }
  }

  /**
   * The backfill in closed form: below the top of a non-empty stack, the new candidates in order;
   * on an empty stack, the new candidates with the oldest moved to the top.
   */
  function Backfilled(stack: seq<string>, cands: seq<string>): seq<string> {
    var e := NewEntries(Elems(stack), cands);
    if |stack| > 0 then stack[..|stack| - 1] + e + [stack[|stack| - 1]]
    else if |e| == 0 then []
    else e[1..] + [e[0]]
  }

  /** The insertion loop and the closed form agree on every stack and candidate list. */
  lemma BackfillClosedForm(stack: seq<string>, cands: seq<string>)
    ensures Backfill(stack, cands) == Backfilled(stack, cands)
  {
    if |stack| > 0 {
      BackfillBelowTop(stack, cands);
    } else {
      assert Elems(stack) == {};
      BackfillFromEmpty(cands);
    }
  }

  /**
   * The back stack after the push and, while it is shorter than two, the backfill from
   * `played[-5:]` (in closed form; `BackfillClosedForm` equates it with the insertion loop).
   */
  function PreparedStack(t: TenantState): seq<string> {
    var pushed := PushCurrent(t.backHistory, t.current.url);
    if |pushed| < 2 && |t.played| > 0 then Backfilled(pushed, PyFrom(t.played, -5)) else pushed
  }

  /**
   * The prepared stack holds exactly the pushed stack and, when that is shorter than two, the
   * last five tracks played.
   */
  lemma PreparedStackMembers(t: TenantState, x: string)
    ensures var pushed := PushCurrent(t.backHistory, t.current.url);
      x in PreparedStack(t) <==> x in pushed || (|pushed| < 2 && |t.played| > 0 && x in PyFrom(t.played, -5))
  {
    var pushed := PushCurrent(t.backHistory, t.current.url);
    if |pushed| < 2 && |t.played| > 0 {
      BackfillClosedForm(pushed, PyFrom(t.played, -5));
    }
  }

  /**
   * The tracks to replay after the target: those played after its first occurrence, up to and
   * including the current track when that was played too, otherwise at most three.
   */
  function Continuation(played: seq<string>, target: string, cur: Option<string>): (c: seq<string>)
    ensures target !in played ==> c == []
    ensures target in played ==>
      var i := IndexOf(played, target);
      && i + 1 + |c| <= |played| && c == played[i + 1..i + 1 + |c|]
      && (Truthy(cur) && cur.value in played ==>
            var j := IndexOf(played, cur.value);
            |c| == if i < j then j - i else 0)
      && (!(Truthy(cur) && cur.value in played) ==> |c| == Min(3, |played| - i - 1))
  {
    if target !in played then []
    else
      var i := IndexOf(played, target);
      if Truthy(cur) && cur.value in played then ReplayUpTo(played, i, IndexOf(played, cur.value))
      else ReplayThree(played, i)
  }

  /** `played[i + 1:j + 1]`: the tracks after position `i` up to and including position `j`. */
  function ReplayUpTo(played: seq<string>, i: nat, j: nat): (c: seq<string>)
    requires i < |played| && j < |played|
    ensures i + 1 + |c| <= |played| && c == played[i + 1..i + 1 + |c|]
    ensures |c| == if i < j then j - i else 0
  {
    PySliceWindow(played, i + 1, j + 1);
    PySlice(played, i + 1, j + 1)
  }

  /** `played[i + 1:i + 4]`: at most three tracks after position `i`. */
  function ReplayThree(played: seq<string>, i: nat): (c: seq<string>)
    requires i < |played|
    ensures i + 1 + |c| <= |played| && c == played[i + 1..i + 1 + |c|]
    ensures |c| == Min(3, |played| - i - 1)
  {
    PySliceWindow(played, i + 1, i + 4);
    PySlice(played, i + 1, i + 4)
  }

  datatype BackResult =
    | NotEnoughHistory(t: TenantState)    // the stack changes from the push and backfill persist
    | Rewound(t: TenantState, target: string)

  /**
   * The rebuild once the voice client is stopped: pop the top of the prepared stack `s`, queue
   * the continuation after the new top (computed from the current url `cur` read at the start)
   * ahead of the queue as it now stands, and mark the current record as a back replay.
   */
  function Rewind(t: TenantState, s: seq<string>, cur: Option<string>, channelId: int): (r: TenantState)
    requires |s| >= 2
    ensures r.backHistory == s[..|s| - 1] && r.queue == Continuation(t.played, s[|s| - 2], cur) + t.queue
    ensures r.current.processingBack && r.current.url.None?
    ensures r.played == t.played && r.blacklist == t.blacklist && r.backCount == t.backCount
  {
    var popped := s[..|s| - 1];
    var target := popped[|popped| - 1];
    t.(backHistory := popped, queue := Continuation(t.played, target, cur) + t.queue,
       current := Current(None, None, Some(channelId), 0, true, true))
  }

  /** The state `back` leaves before it calls `stream_play(target)` when nothing is playing or paused. */
  function Back(t: TenantState, channelId: int): (r: BackResult)
    ensures r.NotEnoughHistory? <==> |PreparedStack(t)| < 2
    ensures r.NotEnoughHistory? ==> r.t == t.(backHistory := PreparedStack(t))
    ensures r.Rewound? ==>
      var s := PreparedStack(t);
      && r.target == s[|s| - 2] && r.t.backHistory == s[..|s| - 1]
      && r.t.queue == Continuation(t.played, r.target, t.current.url) + t.queue
      && r.t.current == Current(None, None, Some(channelId), 0, true, true)
      && r.t.played == t.played && r.t.blacklist == t.blacklist && r.t.backCount == t.backCount
  {
    var s := PreparedStack(t);
    if |s| < 2 then NotEnoughHistory(t.(backHistory := s))
    else Rewound(Rewind(t, s, t.current.url, channelId), s[|s| - 2])
  }

  /** The guild after `vc.stop()` and the pause that follows it, and whether a track was started meanwhile. */
  datatype Stopped = Stopped(t: TenantState, started: bool)

  /**
   * `vc.stop()` on the track `stopped` (`None` when nothing plays or is paused, and nothing is
   * stopped) fires its completion handler during the two-second pause: the handler records and
   * pops the track and, when it continues, runs `play_next`, which may start the next track.
   */
  function StopForBack(t: TenantState, stopped: Option<string>, env: Player.Env, asWritten: bool, fuel: nat): (r: Stopped)
    ensures stopped.None? ==> r == Stopped(t, false)
    ensures stopped.Some? ==>
      var done := Player.PlaybackFinished(t, stopped.value, env.limits).0;
      && r.t.played == done.played && r.t.backHistory == t.backHistory
      && t.blacklist <= r.t.blacklist
  {
    if stopped.None? then Stopped(t, false)
    else
      var (done, more) := Player.PlaybackFinished(t, stopped.value, env.limits);
      if !more then Stopped(done, false)
      else
        var o := Player.Run(done, Player.Advance, false, env, asWritten, fuel);
        Stopped(o.t, o.ok)
  }

  /**
   * `back` up to the call of `stream_play(target)`: prepare the stack, refuse when it is too
   * short, otherwise stop what plays, then rebuild from the state the completion handler left.
   * With nothing playing this is `Back`.
   */
  function BackStopping(t: TenantState, channelId: int, stopped: Option<string>, env: Player.Env, asWritten: bool, fuel: nat): (r: BackResult)
    ensures stopped.None? ==> r == Back(t, channelId)
    ensures r.NotEnoughHistory? <==> |PreparedStack(t)| < 2
    ensures r.NotEnoughHistory? ==> r == Back(t, channelId)
    ensures r.Rewound? ==>
      var s := PreparedStack(t);
      var st := StopForBack(t.(backHistory := s), stopped, env, asWritten, fuel).t;
      && r.target == s[|s| - 2] && r.t.backHistory == s[..|s| - 1]
      && r.t.queue == Continuation(st.played, r.target, t.current.url) + st.queue
      && r.t.current == Current(None, None, Some(channelId), 0, true, true)
      && r.t.played == st.played && t.blacklist <= r.t.blacklist
    ensures r.Rewound? && stopped.Some? && !t.current.fromBack ==>
      r.t.played == RecordBounded(t.played, stopped.value, env.limits.maxHistory)
  {
    var s := PreparedStack(t);
    if |s| < 2 then NotEnoughHistory(t.(backHistory := s))
    else
      var st := StopForBack(t.(backHistory := s), stopped, env, asWritten, fuel);
      Rewound(Rewind(st.t, s, t.current.url, channelId), s[|s| - 2])
  }

  /**
   * With nothing playing, the original queue always follows the rebuilt part; if the target was
   * never played it is the whole queue.
   */
  lemma BackKeepsOriginalQueue(t: TenantState, channelId: int)
    ensures var r := Back(t, channelId);
      r.Rewound? ==>
        && |r.t.queue| >= |t.queue| && r.t.queue[|r.t.queue| - |t.queue|..] == t.queue
        && (r.target !in t.played ==> r.t.queue == t.queue)
  {
    var r := Back(t, channelId);
    if r.Rewound? {
      var c := Continuation(t.played, r.target, t.current.url);
      assert r.t.queue[|c|..] == t.queue;
    }
  }

  /** The backfill only adds candidates. */
  lemma {:induction false} BackfillAddsOnlyCandidates(stack: seq<string>, cands: seq<string>, x: string)
    requires x in Backfill(stack, cands)
    ensures x in stack || x in cands
    decreases |cands|
  {
    if |cands| > 0 {
      var st := if cands[0] in stack then stack else InsertBeforeTop(stack, cands[0]);
      BackfillAddsOnlyCandidates(st, cands[1..], x);
      if x in st && x !in stack {
        assert x == cands[0];
      }
    }
  }

  /** The entry below the top of the prepared stack was on the stack already or was played recently. */
  lemma BelowTopIsRecent(t: TenantState)
    ensures var s := PreparedStack(t);
      |s| >= 2 ==> s[|s| - 2] in t.backHistory || s[|s| - 2] in PyFrom(t.played, -5)
  {
    if |PushCurrent(t.backHistory, t.current.url)| >= 2 {
      PushedBelowTop(t);
    } else if |PreparedStack(t)| >= 2 {
      BackfilledBelowTop(t);
    }
  }

  lemma PushedBelowTop(t: TenantState)
    requires |PushCurrent(t.backHistory, t.current.url)| >= 2
    ensures var s := PreparedStack(t); s[|s| - 2] in t.backHistory
  {
    var p := PushCurrent(t.backHistory, t.current.url);
    assert PreparedStack(t) == p;
    assert p[|p| - 2] == p[..|t.backHistory|][|p| - 2];
  }

  lemma BackfilledBelowTop(t: TenantState)
    requires |PushCurrent(t.backHistory, t.current.url)| < 2 && |PreparedStack(t)| >= 2
    ensures var s := PreparedStack(t); s[|s| - 2] in PyFrom(t.played, -5)
  {
    var p := PushCurrent(t.backHistory, t.current.url);
    assert PreparedStack(t) == Backfilled(p, PyFrom(t.played, -5));
    ShortBackfillBelowTop(p, PyFrom(t.played, -5));
  }

  /** Below the top of a backfilled short stack sits a candidate. */
  lemma ShortBackfillBelowTop(stack: seq<string>, cands: seq<string>)
    requires |stack| <= 1 && |Backfilled(stack, cands)| >= 2
    ensures var s := Backfilled(stack, cands); s[|s| - 2] in cands
  {
    var e := NewEntries(Elems(stack), cands);
    var s := Backfilled(stack, cands);
    if |stack| == 1 {
      assert s == e + [stack[0]];
    } else {
      assert s == e[1..] + [e[0]];
    }
    assert s[|s| - 2] == e[|e| - 1];
  }

  /** The target was already on the back stack or is among the last five tracks played. */
  lemma BackTargetIsRecent(t: TenantState, channelId: int)
    ensures var r := Back(t, channelId);
      r.Rewound? ==> r.target in t.backHistory || r.target in PyFrom(t.played, -5)
  {
    BelowTopIsRecent(t);
  }

  /** Whatever the stack shape, backfilling a stack of at most one entry creates no adjacent repeat. */
  lemma ShortBackfillHasNoRepeats(stack: seq<string>, cands: seq<string>)
    requires |stack| <= 1
    ensures NoAdjacentRepeats(Backfilled(stack, cands))
  {
    var e := NewEntries(Elems(stack), cands);
    if |stack| == 1 {
      assert stack[0] in Elems(stack);
      assert Backfilled(stack, cands) == e + [stack[0]];
      AppendFreshHasNoRepeats(e, stack[0]);
    } else if |e| > 0 {
      assert Backfilled(stack, cands) == e[1..] + [e[0]];
      RotateHasNoRepeats(e);
    }
  }

  /** Distinct entries followed by one more that is not among them repeat nothing. */
  lemma AppendFreshHasNoRepeats(e: seq<string>, x: string)
    requires forall i, j :: 0 <= i < j < |e| ==> e[i] != e[j]
    requires x !in e
    ensures NoAdjacentRepeats(e + [x])
  {
    var s := e + [x];
    forall i | 0 <= i < |s| - 1
      ensures s[i] != s[i + 1]
    {
      if i + 1 < |e| {
        assert s[i] == e[i] && s[i + 1] == e[i + 1];
      } else {
        assert s[i] == e[i] && s[i + 1] == x;
      }
    }
  }

  /** Distinct entries with the first moved to the end repeat nothing. */
  lemma RotateHasNoRepeats(e: seq<string>)
    requires |e| > 0
    requires forall i, j :: 0 <= i < j < |e| ==> e[i] != e[j]
    ensures NoAdjacentRepeats(e[1..] + [e[0]])
  {
    var s := e[1..] + [e[0]];
    forall i | 0 <= i < |s| - 1
      ensures s[i] != s[i + 1]
    {
      if i + 1 < |s| - 1 {
        assert s[i] == e[i + 1] && s[i + 1] == e[i + 2];
      } else {
        assert s[i] == e[i + 1] && s[i + 1] == e[0];
      }
    }
  }


  /** Pushing onto a stack without adjacent repeats creates none. */
  lemma PushKeepsNoRepeats(stack: seq<string>, cur: Option<string>)
    requires NoAdjacentRepeats(stack)
    ensures NoAdjacentRepeats(PushCurrent(stack, cur))
  {
    var pushed := PushCurrent(stack, cur);
    forall i | 0 <= i < |pushed| - 1
      ensures pushed[i] != pushed[i + 1]
    {
      if i + 1 < |stack| {
        assert pushed[i] == stack[i] && pushed[i + 1] == stack[i + 1];
      }
    }
  }

  /** Dropping the top keeps a stack free of adjacent repeats. */
  lemma PopKeepsNoRepeats(s: seq<string>)
    requires |s| > 0 && NoAdjacentRepeats(s)
    ensures NoAdjacentRepeats(s[..|s| - 1])
  {
    var p := s[..|s| - 1];
    forall i | 0 <= i < |p| - 1
      ensures p[i] != p[i + 1]
    {
      assert p[i] == s[i] && p[i + 1] == s[i + 1];
    }
  }

  /** The prepared stack has no adjacent repeats and, when a current url is set, it is on top. */
  lemma PreparedStackShape(t: TenantState)
    requires NoAdjacentRepeats(t.backHistory)
    ensures var s := PreparedStack(t);
      && NoAdjacentRepeats(s)
      && (Truthy(t.current.url) ==> |s| > 0 && s[|s| - 1] == t.current.url.value)
  {
    var pushed := PushCurrent(t.backHistory, t.current.url);
    PushKeepsNoRepeats(t.backHistory, t.current.url);
    if |pushed| < 2 && |t.played| > 0 {
      ShortBackfillHasNoRepeats(pushed, PyFrom(t.played, -5));
    }
  }

  /**
   * While the back stack never holds a track directly on top of itself, `back` keeps it that way
   * and never picks the track that is currently playing as its target.
   */
  lemma BackNeverTargetsCurrent(t: TenantState, channelId: int)
    requires NoAdjacentRepeats(t.backHistory)
    ensures NoAdjacentRepeats(Back(t, channelId).t.backHistory)
    ensures var r := Back(t, channelId);
      r.Rewound? && Truthy(t.current.url) ==> r.target != t.current.url.value
  {
    var s := PreparedStack(t);
    PreparedStackShape(t);
    if |s| >= 2 {
      PopKeepsNoRepeats(s);
    }
  }

  /**
   * Two `back`s in a row: once the first target is playing, the second goes one entry further
   * down the stack, to a different track.
   */
  lemma BackTwiceGoesFurther(t: TenantState, channelId: int, title: Option<string>)
    requires NoAdjacentRepeats(t.backHistory)
    requires Back(t, channelId).Rewound?
    requires |Back(t, channelId).t.backHistory| >= 2
    ensures var r1 := Back(t, channelId);
      var s1 := r1.t.backHistory;
      var playing := r1.t.(current := r1.t.current.(url := Some(r1.target), title := title));
      var r2 := Back(playing, channelId);
      && r2.Rewound?
      && r2.target == s1[|s1| - 2]
      && r2.t.backHistory == s1[..|s1| - 1]
      && r2.target != r1.target
  {
    BackNeverTargetsCurrent(t, channelId);
  }

  /**
   * The full command: stop what plays, rewind, `stream_play(target)`, clear `processing_back`.
   * A track the stop's completion handler started meanwhile is stopped again by `ensure_idle`
   * inside `stream_play` before the target is played. `asWritten` selects the `music_player.py`
   * version of `stream_play`.
   */
  function BackCommand(t: TenantState, channelId: int, stopped: Option<string>, env: Player.Env, asWritten: bool, fuel: nat): (r: (TenantState, Option<string>))
    ensures |PreparedStack(t)| < 2 ==> r == (Back(t, channelId).t, None)
    ensures |PreparedStack(t)| >= 2 ==>
      var b := BackStopping(t, channelId, stopped, env, asWritten, fuel);
      && r.1 == Some(b.target)
      && !r.0.current.processingBack
      && r.0.backHistory == b.t.backHistory
      && r.0.played == b.t.played
      && t.blacklist <= r.0.blacklist
      && (fuel >= 1 && b.target !in b.t.blacklist && env.voiceReady && Player.Playable(env.resolve(b.target)) ==>
            r.0.queue == b.t.queue && r.0.current.url == Some(b.target) && r.0.blacklist == b.t.blacklist)
    ensures stopped.None? ==> r.0.played == t.played
  {
    match BackStopping(t, channelId, stopped, env, asWritten, fuel)
    case NotEnoughHistory(t1) => (t1, None)
    case Rewound(t1, target) =>
      (Replay(t1, target, env, asWritten, fuel), Some(target))
  }

  /** `stream_play(target)` from the rebuilt state, then `processing_back` cleared. */
  function Replay(t: TenantState, target: string, env: Player.Env, asWritten: bool, fuel: nat): (r: TenantState)
    ensures !r.current.processingBack
    ensures r.played == t.played && r.backHistory == t.backHistory && t.blacklist <= r.blacklist
    ensures fuel >= 1 && target !in t.blacklist && env.voiceReady && Player.Playable(env.resolve(target)) ==>
      r.queue == t.queue && r.current.url == Some(target) && r.blacklist == t.blacklist
  {
    var o := Player.Run(t, Player.Stream(target), false, env, asWritten, fuel);
    o.t.(current := o.t.current.(processingBack := false))
  }

  /**
   * The corrected completion handler for the track `back` stops: it records and pops the track
   * (as `_handle_playback_finished` does) and goes no further. With nothing stopped, nothing changes.
   */
  function FinishForBack(t: TenantState, stopped: Option<string>, lim: Config.Limits): (r: TenantState)
    ensures r.queue == if stopped.Some? then PopIfHead(t.queue, stopped.value) else t.queue
    ensures r.played == if stopped.Some? && !t.current.fromBack then RecordBounded(t.played, stopped.value, lim.maxHistory) else t.played
    ensures r.blacklist == t.blacklist && r.backHistory == t.backHistory
  {
    if stopped.Some? then Player.PlaybackFinished(t, stopped.value, lim).0 else t
  }

  /**
   * `back` as evidently intended: the completion handler of the stopped track records and pops
   * it but does not advance while `back` is at work, so the waiting queue survives the stop.
   */
  function BackCommandFixed(t: TenantState, channelId: int, stopped: Option<string>, env: Player.Env, fuel: nat): (r: (TenantState, Option<string>))
    ensures |PreparedStack(t)| < 2 ==> r == (Back(t, channelId).t, None)
    ensures |PreparedStack(t)| >= 2 ==>
      var s := PreparedStack(t);
      var done := FinishForBack(t, stopped, env.limits);
      && r.1 == Some(s[|s| - 2])
      && !r.0.current.processingBack
      && r.0.backHistory == s[..|s| - 1]
      && r.0.played == done.played
      && t.blacklist <= r.0.blacklist
      && (fuel >= 1 && s[|s| - 2] !in t.blacklist && env.voiceReady && Player.Playable(env.resolve(s[|s| - 2])) ==>
            && r.0.queue == Continuation(done.played, s[|s| - 2], t.current.url) + done.queue
            && r.0.current.url == Some(s[|s| - 2]))
  {
    var s := PreparedStack(t);
    if |s| < 2 then (t.(backHistory := s), None)
    else
      var done := FinishForBack(t.(backHistory := s), stopped, env.limits);
      (Replay(Rewind(done, s, t.current.url, channelId), s[|s| - 2], env, false, fuel), Some(s[|s| - 2]))
  }

  /**
   * A replay started by `back` is not recorded when it completes, and the completion goes on
   * to `play_next` even if the queue is empty.
   */
  lemma BackReplayIsNotRecorded(t: TenantState, channelId: int, env: Player.Env, lim: Config.Limits)
    requires Back(t, channelId).Rewound?
    requires var target := Back(t, channelId).target;
      target !in t.blacklist && env.voiceReady && Player.Playable(env.resolve(target))
    ensures var target := Back(t, channelId).target;
      var (playing, started) := BackCommand(t, channelId, None, env, false, 1);
      var (done, more) := Player.PlaybackFinished(playing, target, lim);
      && playing.current.url == started
      && done.played == t.played
      && more
  {
  }

  /**
   * A worked case: with only "A" played and nothing playing there is not enough history, though
   * the backfill still leaves "A" on the stack.
   */
  lemma BackScenarioTooShort(t: TenantState, channelId: int)
    requires t.backHistory == [] && t.played == ["A"] && t.current.url.None?
    ensures Back(t, channelId) == NotEnoughHistory(t.(backHistory := ["A"]))
  {
    assert PyFrom(t.played, -5) == ["A"];
    assert Elems([]) == {};
    assert NewEntries({}, ["A"]) == ["A"] + NewEntries({"A"}, []);
    assert PreparedStack(t) == ["A"];
  }

  /**
   * A worked case: with "A", "B" played and "C" still recorded as current while the voice client
   * is idle (as after a reconnect), `back` targets "B", leaves "A", "B" on the stack and keeps
   * the waiting queue.
   */
  lemma BackScenarioIdle(t: TenantState, channelId: int)
    requires t.backHistory == [] && t.queue == ["D"]
    requires t.played == ["A", "B"] && t.current.url == Some("C")
    ensures var r := Back(t, channelId);
      && r.Rewound? && r.target == "B"
      && r.t.backHistory == ["A", "B"]
      && r.t.queue == ["D"]
  {
    ScenarioStack(t);
    ScenarioContinuation();
  }

  /** The worked cases below: "A", "B" played, "C" playing normally, "D" waiting, and everything streams. */
  predicate PlayingScenario(t: TenantState, env: Player.Env) {
    && t.backHistory == [] && t.queue == ["D"] && t.played == ["A", "B"]
    && t.current.url == Some("C") && !t.current.fromBack
    && "B" !in t.blacklist && "D" !in t.blacklist
    && env.voiceReady && env.playerAccepts && env.limits.maxHistory >= 3
    && Player.Playable(env.resolve("B")) && Player.Playable(env.resolve("D"))
  }

  /**
   * As written, `back` while "C" plays loses "D": the stop's completion handler records "C" and
   * its `play_next` pops and starts "D" before the queue is copied, so the rebuilt queue is only
   * "C"; `ensure_idle` then stops "D" and "B" plays, with "D" neither queued nor blacklisted.
   */
  lemma BackScenario(t: TenantState, channelId: int, env: Player.Env, fuel: nat)
    requires PlayingScenario(t, env) && fuel >= 2
    ensures var (r, target) := BackCommand(t, channelId, Some("C"), env, false, fuel);
      && target == Some("B")
      && r.backHistory == ["A", "B"]
      && r.played == ["A", "B", "C"]
      && r.queue == ["C"] && "D" !in r.queue && "D" !in r.blacklist
      && r.current.url == Some("B")
  {
    var s := PreparedStack(t);
    assert s == ["A", "B", "C"] by { ScenarioStack(t); }
    var st := StopForBack(t.(backHistory := s), Some("C"), env, false, fuel);
    assert st.t.queue == [] && st.t.played == ["A", "B", "C"] && st.t.blacklist == t.blacklist by {
      ScenarioStop(t.(backHistory := s), env, fuel);
    }
    var t1 := Rewind(st.t, s, t.current.url, channelId);
    assert t1.queue == ["C"] by { ScenarioPlayedContinuation(); }
    assert t1.blacklist == t.blacklist && t1.backHistory == ["A", "B"] && t1.played == ["A", "B", "C"];
    assert BackStopping(t, channelId, Some("C"), env, false, fuel) == Rewound(t1, "B");
    ScenarioReplay(t, channelId, env, fuel, t1);
  }

  /** The replay in the worked case, once the rebuild is known. */
  lemma ScenarioReplay(t: TenantState, channelId: int, env: Player.Env, fuel: nat, t1: TenantState)
    requires |PreparedStack(t)| >= 2 && fuel >= 1
    requires BackStopping(t, channelId, Some("C"), env, false, fuel) == Rewound(t1, "B")
    requires t1.queue == ["C"] && t1.backHistory == ["A", "B"] && t1.played == ["A", "B", "C"]
    requires "B" !in t1.blacklist && "D" !in t1.blacklist
    requires env.voiceReady && Player.Playable(env.resolve("B"))
    ensures var (r, target) := BackCommand(t, channelId, Some("C"), env, false, fuel);
      && target == Some("B")
      && r.backHistory == ["A", "B"]
      && r.played == ["A", "B", "C"]
      && r.queue == ["C"] && "D" !in r.queue && "D" !in r.blacklist
      && r.current.url == Some("B")
  {
  }

  /** The stop in the worked case: "C" is recorded, and "D" is popped and started. */
  lemma ScenarioStop(t: TenantState, env: Player.Env, fuel: nat)
    requires PlayingScenario(t.(backHistory := []), env) && fuel >= 2
    ensures var st := StopForBack(t, Some("C"), env, false, fuel);
      && st.started && st.t.queue == [] && st.t.played == ["A", "B", "C"]
      && st.t.blacklist == t.blacklist && st.t.backHistory == t.backHistory
  {
    var (done, more) := Player.PlaybackFinished(t, "C", env.limits);
    assert done.played == ["A", "B", "C"] && done.queue == ["D"] && more;
    var step := Player.PlayNextStep(done, env);
    assert step.t == done.(queue := []) && step.ending == Player.Await(Player.Stream("D"), false, true);
    var play := Player.StreamPlay(step.t, "D", false, env);
    assert play.ending == Player.Return(true) && play.t.queue == [] && play.t.blacklist == t.blacklist;
    var inner := Player.Run(step.t, Player.Stream("D"), false, env, false, fuel - 1);
    assert inner.t == play.t && inner.ok;
    var o := Player.Run(done, Player.Advance, false, env, false, fuel);
    assert o.t == inner.t && o.ok;
  }

  /** Corrected, the same `back` keeps "D" waiting after the replayed "C" and plays "B". */
  lemma BackScenarioFixed(t: TenantState, channelId: int, env: Player.Env, fuel: nat)
    requires PlayingScenario(t, env) && fuel >= 1
    ensures var (r, target) := BackCommandFixed(t, channelId, Some("C"), env, fuel);
      && target == Some("B")
      && r.backHistory == ["A", "B"]
      && r.played == ["A", "B", "C"]
      && r.queue == ["C", "D"]
      && r.current.url == Some("B")
  {
    assert PreparedStack(t) == ["A", "B", "C"] by { ScenarioStack(t); }
    var played := RecordBounded(t.played, "C", env.limits.maxHistory);
    assert played == ["A", "B", "C"] by { ScenarioRecord(t, env); }
    var r := BackCommandFixed(t, channelId, Some("C"), env, fuel).0;
    assert r.queue == Continuation(played, "B", Some("C")) + PopIfHead(t.queue, "C") by {
      ScenarioFixedRebuild(t, channelId, env, fuel);
    }
    assert r.queue == ["C", "D"] by { ScenarioFixedQueue(t, env); }
  }

  /** The rebuilt queue of the corrected `back` in the worked case, before evaluation. */
  lemma ScenarioFixedRebuild(t: TenantState, channelId: int, env: Player.Env, fuel: nat)
    requires PlayingScenario(t, env) && fuel >= 1
    ensures BackCommandFixed(t, channelId, Some("C"), env, fuel).0.queue
      == Continuation(RecordBounded(t.played, "C", env.limits.maxHistory), "B", Some("C")) + PopIfHead(t.queue, "C")
  {
    ScenarioStack(t);
    var done := FinishForBack(t, Some("C"), env.limits);
    assert done.played == RecordBounded(t.played, "C", env.limits.maxHistory) && done.queue == PopIfHead(t.queue, "C");
  }

  /** That queue evaluates to "C" then "D". */
  lemma ScenarioFixedQueue(t: TenantState, env: Player.Env)
    requires PlayingScenario(t, env)
    ensures Continuation(RecordBounded(t.played, "C", env.limits.maxHistory), "B", Some("C")) + PopIfHead(t.queue, "C") == ["C", "D"]
  {
    var played := RecordBounded(t.played, "C", env.limits.maxHistory);
    assert played == ["A", "B", "C"] by { ScenarioRecord(t, env); }
    assert Continuation(played, "B", Some("C")) == ["C"] by { ScenarioPlayedContinuation(); }
    assert PopIfHead(t.queue, "C") == ["D"];
  }

  /** Completing "C" appends it to the two played tracks, within the history cap. */
  lemma ScenarioRecord(t: TenantState, env: Player.Env)
    requires PlayingScenario(t, env)
    ensures RecordBounded(t.played, "C", env.limits.maxHistory) == ["A", "B", "C"]
  {
  }

  lemma ScenarioStack(t: TenantState)
    requires t.backHistory == [] && t.played == ["A", "B"] && t.current.url == Some("C")
    ensures PreparedStack(t) == ["A", "B", "C"]
  {
    assert PyFrom(t.played, -5) == ["A", "B"];
    var pushed := PushCurrent([], Some("C"));
    assert pushed == ["C"];
    ScenarioNewEntries();
    assert Backfilled(pushed, ["A", "B"]) == pushed[..0] + ["A", "B"] + [pushed[0]];
  }

  lemma ScenarioNewEntries()
    ensures NewEntries(Elems(["C"]), ["A", "B"]) == ["A", "B"]
  {
    assert Elems(["C"]) == {"C"};
    assert NewEntries({"C", "A"}, ["B"]) == ["B"] + NewEntries({"C", "A", "B"}, []);
    assert NewEntries({"C"}, ["A", "B"]) == ["A"] + NewEntries({"C"} + {"A"}, ["B"]);
    assert {"C"} + {"A"} == {"C", "A"};
  }

  lemma ScenarioContinuation()
    ensures Continuation(["A", "B"], "B", Some("C")) == []
  {
    assert "C" !in ["A", "B"];
    assert IndexOf(["A", "B"], "B") == 1;
  }

  lemma ScenarioPlayedContinuation()
    ensures Continuation(["A", "B", "C"], "B", Some("C")) == ["C"]
  {
    assert IndexOf(["A", "B", "C"], "B") == 1;
    assert IndexOf(["A", "B", "C"], "C") == 2;
  }
}
