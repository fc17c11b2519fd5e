# Music bot playback core in Dafny

This project models the playback core of a Discord music bot. Each guild (server) keeps its own:

- queue of urls,
- bounded history of played urls,
- blacklist,
- back-navigation stack and back counter,
- record of what is playing.

Every component reads and writes that state through a state manager. It is written to a JSON snapshot and read back from it. On top of the state sit:

- the **playback session**:
  - `stream_play` starts a track under a per-guild lock;
  - the completion handler records the track and moves on;
  - `play_next` pops the queue, resolves the head and hands it to `stream_play`.
- the **queue commands**: `skip`, `back`, `interlude`, `playlist`, `clean_list` and `clean_all`.
- the **resolver front end**, which routes an input:
  - a Spotify track or playlist;
  - a YouTube playlist;
  - a direct link;
  - a search query.
- the **supervisor**:
  - resumes playback after a (re)connect;
  - reconnects after an unexpected disconnect;
  - retries a voice connection with a capped backoff;
  - forgets a guild the bot was removed from.
- the **configuration**: the settings read from the environment at start-up, and the predicates on them.

The repository ships two bots that share this design:

- The modular bot is `state_manager.py`, `music_player.py`, `music_commands.py`, `audio_sources.py`, `config.py` and `main.py`.
- The older single-file bot is `fixed_music_bot.py`. Its `stream_play`, `_after`, `interlude`, `clean_list`, `clean_all`, `save_state` and `auto_resume_playback` have their own members in the module `Legacy`. Where they behave alike with the modular bot, a lemma says so; where they differ, `Legacy` spells the difference out. Its `skip` and `back` repeat the modular commands line for line and are covered only through that identity, by `Commands.Skip` and `BackNav`. Its `play_next` is not modelled (see "## Left out").

## How the model is built

- **State.**
  - `Tenant.TenantState` is one guild's state.
  - `Tenant.Registry` is `map<int, TenantState>`. A guild with no entry reads as `Tenant.Fresh`, because Python creates its entries lazily.
  - Every state-manager operation maps the registry to a new registry. Its contract says that no other guild changes (`Tenant.OnlyGuildChanged`).
- **Coroutines.** Each coroutine of the playback session is one *step*, a function that produces:
  - the new state;
  - the inputs handed to the resolver;
  - how the step ends: it returns, or it awaits `play_next` or `stream_play(url)`. The step also records whether the guild lock is still held during that await, and whether the callee's result is passed on.
- `Player.Run` chains steps under a fuel bound.
- **Environment.** `Environment.Load` reads the settings from a map of environment variables. It yields `None` where an `int` conversion raises and the import fails.
- **Parameters.** The resolver, the yt-dlp extractor, the Spotify and search services, and voice-client observations (connected, playing, whether `vc.play` accepts a source) are all parameters.
- **Python semantics** are spelled out in `Seqs`, `Text` and `Decimal`:
  - negative-index slices (`played[-5:]`);
  - clamped slices;
  - `list.remove`;
  - `insert(0, x)` in reverse;
  - `str.strip`, `str.split`, `in`, `str(k)` and `int(s)`.

## Model

| member | source | states |
|---|---|---|
| `Seqs.PyFrom` | state_manager.py:114-118 | `s[start:]` is a suffix of `s` that is never longer than `s` |
| `Seqs.PyFromNegativeKeepsLast` | state_manager.py:114-118 | for a positive cap `n`, `s[-n:]` keeps exactly the last `min(n, len(s))` entries |
| `Seqs.PySlice` | music_commands.py:162-166 | Python's clamped `s[lo:hi]`: the in-range window, or empty when the bounds cross or start past the end |
| `Seqs.IndexOf` | music_commands.py:158-164 | `list.index` returns the first position holding the value, and no earlier position holds it |
| `Seqs.RemoveFirst` | fixed_music_bot.py:977-978 | `list.remove` after an `in` test drops exactly the first occurrence and keeps the rest in order |
| `Seqs.PopIfHead` | music_player.py:221-223 | the defensive head pop removes one entry exactly when the head equals the url, and otherwise nothing |
| `Seqs.RecordBounded` | state_manager.py:67-72 | appending to a bounded history puts the new url last and evicts at most the oldest entry |
| `Seqs.RecordBoundedKeepsBound` | state_manager.py:67-72 | with a cap of at least one, a history within the cap stays within it and ends with the new url |
| `Seqs.InsertEachAtFront` | music_commands.py:225-227 | inserting the items at index 0 in reverse order leaves them at the head in their original order |
| `Decimal.NatRoundTrip` | state_manager.py:112-158 | reading back the digits written for a natural number gives the number |
| `Decimal.IntRoundTrip` | state_manager.py:112-158 | every guild key survives `int(str(k))`, negative keys included |
| `Decimal.IntToStringInjective` | state_manager.py:112-118 | distinct guilds are written under distinct keys |
| `Decimal.IntToString` | state_manager.py:112-118 | `str(k)` is never empty and starts with a minus sign exactly when the key is negative |
| `Decimal.ParseInt` | state_manager.py:142-159 | `int(k)` succeeds exactly on a run of digits, optionally after one minus sign, and a negative result comes from a minus sign |
| `Text.ContainsTransitive` | audio_sources.py:186-193 | a string that contains a substring also contains every substring of that substring |
| `Text.TrimStart` | audio_sources.py:183 | `lstrip` removes a whitespace prefix and leaves a result that does not start with whitespace |
| `Text.TrimEnd` | audio_sources.py:183 | `rstrip` removes a whitespace suffix and leaves a result that does not end with whitespace |
| `Text.Strip` | audio_sources.py:183 | `strip` returns the input minus whitespace at both ends; nothing inside is touched |
| `Text.StripIdempotent` | audio_sources.py:183 | stripping twice is stripping once |
| `Text.SplitJoin` | config.py:24 | splitting on a separator and joining the parts with it gives back the string |
| `Text.JoinSplit` | config.py:24 | joining parts that do not contain the separator and splitting again gives back exactly those parts |
| `Tenant.OnlyGuildChangedFrames` | state_manager.py:17-24 | when an update touches only guild `g`, every other guild reads exactly as before |
| `Environment.OnlyTokenGivesDefaults` | config.py:14-61 | an environment holding only the token loads as the documented defaults: prefix `/`, SSH port 22, limits 100/50/20, timeouts 30/15/240, an empty allow-list; an empty environment gives the same with no token |
| `Environment.TokenDecidesStartup` | config.py:64-77 | once the settings load, start-up validation passes exactly when `DISCORD_TOKEN` is set and non-empty and the state directory is usable |
| `Environment.MalformedNumberStopsStartup` | config.py:19-61 | a numeric setting that `int` rejects, such as `SSH_PORT=ssh` or `MAX_QUEUE_SIZE=1e3`, makes loading fail |
| `Environment.ParseIdsMembers` | config.py:24 | the parsed allow-list holds exactly the values of its comma-separated parts |
| `Environment.AllowListFromEnvironment` | config.py:24-97 | `ALLOWED_IDS` set to the comma-joined decimal forms of some ids parses to exactly those ids, and then exactly those users are allowed |
| `Environment.UnsetAllowListAdmitsEveryone` | config.py:24-97 | with `ALLOWED_IDS` unset or empty the allow-list is empty and every user is allowed |
| `Environment.BlankIdStopsStartup` | config.py:24 | an empty entry in the allow-list, as in `1,,2` or a trailing comma, makes `int` raise and loading fail |
| `Environment.SshFromEnvironment` | config.py:17-92 | the SSH dictionary carries the environment's host, user, password and port (22 when unset), and SSH is on exactly when host, user and password are all set and non-empty |
| `Config.SshEnabledIffConfigComplete` | config.py:80-92 | SSH is on exactly when the dictionary handed to the remote download has non-empty host, username and password |
| `Config.DefaultsBehaviour` | test_bot.py:25-64 | default settings with a token validate, admit any user, keep SSH off and still expose the SSH keys; without a token they fail |
| `StateManager.AddToQueue` | state_manager.py:59-65 | refused exactly when the queue is at capacity (`QueueFull`); otherwise the item goes at the tail and the new length is returned; no other guild changes |
| `StateManager.EnqueueMany` | music_player.py:304-312 | enqueueing a list stops at the first capacity error, keeping what went in: exactly `min(len, room)` items, in order, at the tail |
| `StateManager.AddToPlayed` | state_manager.py:67-72 | only the played history of the guild changes, and it becomes the bounded append of the url |
| `StateManager.AddToPlayedKeepsBound` | state_manager.py:67-72 | with a positive cap the url becomes the newest entry and the history never exceeds the cap |
| `StateManager.AddToBlacklist` | state_manager.py:74-81 | the url is blacklisted afterwards, only the blacklist of that guild changes, and only by that url |
| `StateManager.BlacklistIdempotent` | state_manager.py:74-81 | blacklisting twice is blacklisting once |
| `StateManager.BlacklistIsolatedAndMonotone` | state_manager.py:74-81 | a blacklisted url stays blacklisted, and another guild's blacklist neither gains nor loses anything |
| `StateManager.ClearQueue` | state_manager.py:83-88 | the queue is emptied, its old length is reported, and nothing else changes |
| `StateManager.RemoveFromQueue` | state_manager.py:90-97 | reports `min(count, len)`; when positive, exactly that many entries leave the front; otherwise nothing is removed |
| `StateManager.RemoveLeavesSuffix` | state_manager.py:90-97 | removing `k` entries that are there leaves exactly the queue after its first `k` |
| `StateManager.FifoOrder` | test_bot.py:74-98 | items enqueued into an empty queue within capacity come out in insertion order; after removing `k`, the head is the `k`-th item |
| `StateManager.StatusCountsScenario` | test_bot.py:132-145 | one enqueue, one completed play and one blacklisting on a new guild each show as a count of one |
| `StateManager.StatusTracksUpdates` | state_manager.py:59-107 | the status follows each update: an accepted enqueue adds one to the queue length and a refused one means the queue was full; a completed play adds one to the played count unless the cap evicts the oldest; a new blacklisting adds one to the blacklist count; the other counts stay |
| `StateManager.CleanupGuild` | state_manager.py:168-183 | the guild is forgotten and reads as fresh; every other guild keeps its state |
| `StateManager.CleanupResetsStatus` | state_manager.py:168-183 | after the guild is forgotten it reads as the idle record and every status count is zero |
| `Snapshot.Save` | state_manager.py:109-130 | the document has one member per guild in iteration order: the guild key as a string and its history-trimmed state |
| `Snapshot.SavedMembersAreBounded` | state_manager.py:109-130 | a written member keeps queue, blacklist and current record whole; history and back stack are cut to their caps |
| `Snapshot.LoadState` | state_manager.py:132-166 | a missing file succeeds without change; an unreadable file fails without change; a document whose six dictionaries share their guild keys either replaces all state or, on a bad key, fails without change |
| `Snapshot.Rebuilt` | state_manager.py:132-166 | the registry rebuilt from a key list has exactly those guilds, each with its trimmed state |
| `Snapshot.LoadWritten` | state_manager.py:109-166 | loading a written document rebuilds exactly the guilds that were written |
| `Snapshot.SaveLoadRoundTrip` | state_manager.py:109-166 | save then load returns every guild with queue, current, blacklist and back counter intact, and history and back stack trimmed |
| `Snapshot.RebuiltCoversAll` | state_manager.py:109-166 | rebuilding from an order that lists every guild once gives back every guild |
| `Snapshot.RoundTripFields` | test_bot.py:147-180 | after the round trip each guild's fields equal the originals, with history and back stack equal to their last-cap suffixes |
| `Snapshot.BadKeyLeavesStateUnchanged` | state_manager.py:132-166 | for a document whose six dictionaries share their keys, a key that is not an integer makes loading fail and leaves the in-memory state as it was |
| `Snapshot.BadKeyFails` | state_manager.py:142-159 | one non-integer key anywhere in the document makes the whole conversion fail |
| `Player.StreamPlay` | music_player.py:116-204 | the corrected `stream_play`, which releases the lock before advancing as `fixed_music_bot.py` does (the code as written is `Player.StreamPlayAsWritten`): blacklisted urls skip to `play_next` unresolved; a held lock or missing voice client is a no-op; a playable result sets url, channel and position and keeps the flags, and returns False when `vc.play` refuses the source; an unplayable result blacklists, pops and advances with the lock released; an unexpected error changes nothing |
| `Player.StreamPlayAsWritten` | music_player.py:132-169 | identical state and resolver calls to `StreamPlay`, except that after a failed resolution `play_next` is awaited with the guild lock still held |
| `Player.PlayNextStep` | music_player.py:243-290 | an empty queue clears the current record and returns False; otherwise the head is popped and resolved, then streamed (single), spliced in front (playlist) or skipped (failure) |
| `Player.PlaybackFinished` | music_player.py:206-241 | pops the url if it heads the queue, records it only for a normal play, resets the current record, and continues iff the queue is non-empty or it was a back replay |
| `Player.CompletionRecordsOnlyNormalPlays` | music_player.py:217-230 | a normal completion appends the url once; a back replay leaves the history unchanged |
| `Player.AddToQueue` | music_player.py:292-326 | a failed resolution changes nothing; a single item is enqueued unless full; a playlist adds `min(len, room)` urls in order; other guilds are untouched |
| `Player.AddToQueueUsesStateManager` | music_player.py:292-326 | `add_to_queue` enqueues a single input through the state manager's bounded enqueue and a playlist through the stop-at-first-error loop, and the queue length grows by exactly the number reported |
| `Player.Run` | music_player.py:116-290 | along any chain of `stream_play` / `play_next` calls the blacklist only grows, and history, back stack and back counter stay unchanged |
| `Player.AsWrittenFailureDropsNextTrack` | music_player.py:132-169 | as written, after a failed resolution the next queued track is popped and resolved, then dropped: not played, not blacklisted, no longer queued |
| `Player.CorrectedFailurePlaysNextTrack` | fixed_music_bot.py:943-984 | with the lock released before advancing, the same situation starts the next queued track, while the failed call itself still reports False |
| `Player.PlayNextResolvesBlacklistedHead` | music_player.py:255-266 | `play_next` hands a blacklisted head to the resolver before `stream_play` checks the blacklist |
| `BackNav.PushCurrent` | music_commands.py:125-129 | the current url is pushed unless it is unset or already on top; the old stack stays below it |
| `BackNav.NewEntries` | music_commands.py:132-136 | the new candidates are exactly those not yet seen, each once |
| `BackNav.Backfill` | music_commands.py:132-136 | after the insertion loop the stack holds exactly the old entries and the candidates |
| `BackNav.PreparedStackMembers` | music_commands.py:125-136 | the prepared stack holds exactly the pushed stack and, when that is shorter than two, the last five tracks played |
| `BackNav.BackfillBelowTop` | music_commands.py:132-136 | backfilling a non-empty stack keeps its top on top and slides the unseen recent tracks in, oldest first, just below it |
| `BackNav.BackfillFromEmpty` | music_commands.py:132-136 | backfilling an empty stack leaves the oldest unseen recent track on top, above the others |
| `BackNav.BackfillClosedForm` | music_commands.py:132-136 | the insertion loop equals its closed form: new candidates below the top of a non-empty stack; on an empty one the oldest new candidate on top |
| `BackNav.Continuation` | music_commands.py:157-166 | the replayed tracks are a contiguous run right after the target's first play: up to the current track when it was played, otherwise at most three |
| `BackNav.ReplayUpTo` | music_commands.py:163-164 | `played[i + 1:j + 1]` is the run right after position `i`, of length `j - i` when `i < j` and empty otherwise |
| `BackNav.ReplayThree` | music_commands.py:165-166 | `played[i + 1:i + 4]` is the run right after position `i`, of length `min(3, len - i - 1)` |
| `BackNav.Back` | music_commands.py:147-193 | with nothing playing: too short a stack (after push and backfill) is refused and the stack kept; otherwise the target is the entry below the top, the top is popped, the queue becomes continuation plus old queue, and current is marked as a back replay |
| `BackNav.Rewind` | music_commands.py:147-193 | the rebuild pops the top, puts the continuation after the new top ahead of the queue as it stands, marks a back replay and touches neither history nor blacklist |
| `BackNav.StopForBack` | music_commands.py:141-145 | stopping a playing track runs its completion handler: the track is recorded in the history, the back stack is kept and the blacklist only grows; with nothing playing nothing changes |
| `BackNav.BackStopping` | music_commands.py:114-193 | with nothing playing this is `Back`; otherwise the rebuild starts from the history and queue the completion handler left, and the stopped track ends up recorded |
| `BackNav.BackKeepsOriginalQueue` | music_commands.py:157-182 | with nothing playing (so no stop handler runs first), the original queue always follows the rebuilt part; a target never played leaves the queue as it was |
| `BackNav.BackfillAddsOnlyCandidates` | music_commands.py:132-136 | the backfill adds nothing but entries of `played[-5:]` |
| `BackNav.BelowTopIsRecent` | music_commands.py:125-152 | the entry below the top of the prepared stack was on the stack or is among the last five played |
| `BackNav.BackTargetIsRecent` | music_commands.py:114-152 | the target of `back` was on the back stack or is among the last five tracks played |
| `BackNav.ShortBackfillHasNoRepeats` | music_commands.py:132-136 | backfilling a stack of at most one entry never puts a track directly on top of itself |
| `BackNav.PushKeepsNoRepeats` | music_commands.py:125-129 | the push never puts a track directly on top of itself |
| `BackNav.PopKeepsNoRepeats` | music_commands.py:151-152 | popping the top keeps a stack free of adjacent repeats |
| `BackNav.PreparedStackShape` | music_commands.py:125-136 | the prepared stack has no adjacent repeats and, when a current url is set, has it on top |
| `BackNav.BackNeverTargetsCurrent` | music_commands.py:114-204 | `back` keeps the stack free of adjacent repeats and never picks the playing track as its target |
| `BackNav.BackTwiceGoesFurther` | music_commands.py:114-204 | a second `back` while the first target plays goes one entry further down, to a different track |
| `BackNav.BackCommand` | music_commands.py:114-204 | the full command refuses without changes beyond the stack, or replays the target: afterwards `processing_back` is clear, the stack and history are those of the rebuild, the blacklist has only grown, and a streamable target leaves the rebuilt queue and names the target as current |
| `BackNav.Replay` | music_commands.py:197-202 | `stream_play(target)` then clearing `processing_back` keeps history and stack; a streamable target keeps the queue and blacklist and becomes current |
| `BackNav.FinishForBack` | music_player.py:206-241 | the corrected handler for the stopped track pops it from the head and records it unless it was a back replay, and does not advance |
| `BackNav.BackCommandFixed` | music_commands.py:114-204 | corrected `back`: the target and stack as before; the history gains the stopped track; the queue is the continuation followed by the whole waiting queue; the target becomes current |
| `BackNav.BackReplayIsNotRecorded` | music_player.py:206-241 | the completion of a back replay leaves the history alone and still goes on to `play_next` |
| `BackNav.BackScenarioTooShort` | music_commands.py:114-139 | with one played track, an empty stack and nothing playing, `back` refuses and the stack keeps that one track |
| `BackNav.BackScenario` | music_commands.py:141-150 | as written, with A, B played, C playing and D waiting, `back` targets B but the rebuilt queue is only C: the stop's handler started D before the queue was copied, and D is neither queued nor blacklisted |
| `BackNav.BackScenarioIdle` | music_commands.py:147-193 | with A, B played, C recorded as current but nothing playing, `back` targets B, leaves A, B stacked and keeps the waiting queue D |
| `BackNav.BackScenarioFixed` | music_commands.py:141-150 | corrected, the same `back` while C plays gives the queue C, D, records C and makes B current |
| `Commands.Skip` | music_commands.py:97-111 | refused exactly when nothing plays; otherwise only `from_back` is cleared |
| `Commands.SkipRecordsBackReplay` | music_commands.py:97-111 | skipping a back replay makes its completion record the track, which it would not otherwise do |
| `Commands.Interlude` | music_commands.py:207-246 | a failed or empty resolution is refused; otherwise the links go to the head in their order ahead of the old queue, and `play_next` runs iff nothing was playing |
| `Commands.InterludePlaysFirst` | music_commands.py:207-246 | with nothing playing, after an interlude the next `play_next` starts on the first inserted link |
| `Commands.InterludeWhilePlaying` | music_commands.py:225-235 | while a track plays, the interlude only queues; the stop's completion handler then starts the first inserted link, or, if that link is the playing url, pops it and leaves the rest ahead of the old queue |
| `Commands.PlaylistCommand` | music_commands.py:288-327 | only a non-empty playlist is accepted; its urls go in until the queue is full, without rollback; `play_next` follows iff the voice client was idle |
| `Commands.PlaylistFillsToCapacity` | music_commands.py:288-327 | a full queue takes none of the playlist, room for all takes all of it, and the queue never exceeds the larger of cap and old length |
| `Commands.CleanList` | music_commands.py:330-339 | a non-positive count is refused; otherwise exactly `min(count, len)` entries leave the front |
| `Commands.CleanAll` | music_commands.py:342-346 | the queue is emptied and its old length reported |
| `Commands.CleanListOfAllIsCleanAll` | music_commands.py:330-346 | cleaning the queue's length or more is the same as cleaning all of it |
| `Legacy.Save` | fixed_music_bot.py:137-151 | the single-file bot writes the same document as the state manager with the default caps, histories cut to 50 and 20 |
| `Legacy.StreamPlay` | fixed_music_bot.py:898-1085 | every advancing path releases the lock; a timeout or download error blacklists, pops, clears and forgets one play; missing audio only pops; a rejected source pops and advances; a crash changes nothing |
| `Legacy.Forget` | fixed_music_bot.py:943-984 | a failed extraction blacklists the url, clears the current url and takes exactly one of its plays out of the history, when it had one |
| `Legacy.FailedExtractionForgetsOnePlay` | fixed_music_bot.py:963-984 | a failed extraction removes exactly one history entry for the url, when there is one, and keeps the rest in order |
| `Legacy.MissingAudioIsNotBlacklisted` | fixed_music_bot.py:986-993 | a stream with no audio url is dropped from the head without blacklisting, whereas the modular bot blacklists it; both leave the same queue |
| `Legacy.After` | fixed_music_bot.py:1010-1064 | pops the url if it heads the queue, records it unless it was a back replay (capped at 50), resets current and the back counter, and continues iff the queue is non-empty |
| `Legacy.AfterMatchesPlaybackFinished` | fixed_music_bot.py:1010-1064 | `_after` and the modular completion handler leave the same state apart from the back counter, and differ on continuing only for a back replay with nothing queued |
| `Legacy.Interlude` | fixed_music_bot.py:731-758 | a playlist-looking url is flattened (music links for music.youtube.com), anything else is one link; the links go in front in order; nothing changes when flattening raises or yields no link |
| `Legacy.InterludeAgrees` | fixed_music_bot.py:731-758 | given the same links, the single-file and modular `interlude` both refuse or both put the links in front and call `play_next` in the same case |
| `Legacy.CleanList` | fixed_music_bot.py:843-855 | a non-positive count is refused; otherwise `min(count, len)` entries leave the front |
| `Legacy.CleanAll` | fixed_music_bot.py:857-864 | the queue is emptied and its old length reported |
| `Legacy.CleanCommandsAgree` | fixed_music_bot.py:843-864 | the single-file `clean_list` and `clean_all` refuse, remove and report exactly as the modular commands do |
| `Legacy.AutoResume` | fixed_music_bot.py:323-356 | resumes only with a current url and an existing channel; an interrupted url still extracting goes back to the head; a download error clears it; a crash aborts unchanged |
| `Legacy.QueueAloneDoesNotResume` | fixed_music_bot.py:323-356 | with a queue but no current url the single-file bot does not resume |
| `Supervisor.AutoResume` | main.py:110-156 | resumes only when connected with work left and the stored channel still present; the interrupted url is revalidated and put back at the head or cleared; `play_next` runs iff the queue is then non-empty |
| `Supervisor.ResumeStartsWithInterruptedTrack` | main.py:110-156 | a revalidated interrupted track is the first thing the following `play_next` resolves, and the old queue follows it |
| `Supervisor.FirstWithMembers` | main.py:175-187 | picks the first voice channel with members; nothing is picked exactly when every channel is empty |
| `Supervisor.ReconnectChannel` | main.py:158-197 | reconnects only with work left and no voice client back, to the first channel with members |
| `Supervisor.OnGuildRemove` | main.py:203-208 | the removed guild's state is forgotten; every other guild keeps its own |
| `Supervisor.SafeConnect` | music_player.py:49-83 | returns the first attempt that connects, or fails after `retry` attempts; pauses come after each failed attempt except the last, 2 s per attempt capped at 5 s |
| `Supervisor.DefaultBackoffSchedule` | music_player.py:49-83 | with the default five attempts all failing, the pauses are 2, 4, 5 and 5 seconds |
| `AudioSources.RouteIgnoresSurroundingSpace` | audio_sources.py:181-197 | surrounding whitespace never changes which handler an input is routed to |
| `AudioSources.MusicPlaylistUnreachable` | audio_sources.py:190-193 | no input reaches the YouTube Music playlist handler: the plain YouTube playlist test catches every such input first |
| `AudioSources.NoMusicPlaylistRoute` | audio_sources.py:185-193 | for any string the classification never picks the YouTube Music playlist route, because the plain YouTube playlist test comes first |
| `AudioSources.RouteConditions` | audio_sources.py:181-197 | each route holds exactly when its own marker is present and no earlier one is; a non-marked url starting with `http` is fetched directly, and anything else is a search |
| `AudioSources.TruthyIds` | audio_sources.py:63-71 | the kept ids are exactly the non-empty ids present in the entries |
| `AudioSources.TruthyIdsAppend` | audio_sources.py:63-71 | the id filter distributes over concatenation, so kept ids stay in entry order and none is added or dropped |
| `AudioSources.TruthyIdsOne` | audio_sources.py:65-69 | one entry contributes its id exactly when the id is truthy |
| `AudioSources.PlaylistLinks` | audio_sources.py:53-75 | one watch link per entry with a truthy id, in entry order, with the music or video prefix; none when extraction raised |
| `AudioSources.PlaylistLinksRecoverIds` | audio_sources.py:53-75 | each built link gives back its video id after the prefix, so nothing is lost or reordered |
| `AudioSources.PlaylistQueries` | audio_sources.py:108-124 | every playlist item with a name and an artist yields its query, and every query comes from such an item |
| `AudioSources.PlaylistQueriesAppend` | audio_sources.py:114-121 | queries distribute over concatenation: one per kept item, in item order |
| `AudioSources.PlaylistQueriesOne` | audio_sources.py:115-119 | one item yields `"name artist"` exactly when its track has a name and an artist |
| `AudioSources.FoundLinks` | audio_sources.py:214-232 | every collected link is a non-empty search answer to some query, and every query with a non-empty answer contributes it |
| `AudioSources.FoundLinksAppend` | audio_sources.py:218-222 | search hits distribute over concatenation: one per found query, in query order |
| `AudioSources.FoundLinksOne` | audio_sources.py:219-222 | one query contributes its hit exactly when the search found a non-empty link |
| `AudioSources.DirectResolution` | audio_sources.py:249-262 | a directly fetched url streams exactly when yt-dlp returns an info dict with a non-empty audio url; only a crash is an unexpected error; otherwise `stream_play` blacklists it |
| `AudioSources.ProcessUrl` | audio_sources.py:181-271 | each route runs its handler on the stripped input; a single result names one url and a playlist at least one; a search without a hit fails as unplayable |
| `AudioSources.SpotifyTrackAlwaysBlacklisted` | audio_sources.py:199-212 | as written, a Spotify track link resolves without an audio url, so `stream_play` blacklists it and plays nothing |
| `AudioSources.SpotifyTrackResult` | audio_sources.py:199-212 | fails as unplayable exactly when the track or its YouTube match is missing; otherwise a single result named "name - artist" whose only url is the match, with no audio url |
| `AudioSources.SpotifyTrackResultFixed` | fixed_music_bot.py:1118-1129 | the corrected Spotify handler fails when the track or its YouTube match is missing, and otherwise extracts the match and keeps its audio url |
| `AudioSources.ProcessUrlFixedOnlyAddsAudio` | audio_sources.py:181-212 | the corrected resolver agrees with `process_url` on every other route; on a Spotify track it fails whenever the original does, and otherwise succeeds exactly when the match extracts, adding only its audio url |
| `AudioSources.SpotifyTrackPlaysWhenFixed` | fixed_music_bot.py:1118-1129 | with the corrected handler, a Spotify track whose YouTube match streams is started like any other track and not blacklisted |

## Left out

- Discord I/O is not modelled: messages, embeds, command registration, `ctx.send`, `ffmpeg` options, logging, sleeps and the `keep_alive` pinger. They carry no state the core decides on.
- Real concurrency is not modelled. The guild lock is a flag, and interleavings of coroutines are not explored; `Player.Run` follows one call chain.
- The YouTube, Spotify and yt-dlp services are not modelled beyond what the handlers observe (`AudioSources.Services`). They are network calls.
- `basic_commands.py` and the `jable` / SSH download path are outside the playback core.
- The display-only commands (`now_playing`, `queue_list`, `search`, `status`, `debug_state`, `voice_debug`) and the `save` / `load` commands are left out. The last two only call the snapshot functions already modelled.
- The single-file bot's `play_next` is left out: it dispatches on the popped url itself, and on a search miss it returns without advancing. So are its `play` dispatch and its playlist helpers (`play_youtube_playlist`, `play_ytmusic_playlist`, `play_spotify_track`, `play_spotify_playlist`), which repeat the resolver routes modelled in `AudioSources`. Only `play_spotify_track` is used, as evidence for the intended Spotify behaviour.
- The file paths `STATE_FILE` and `LOG_FILE` and the yt-dlp and ffmpeg option dictionaries are not read by `Environment.Load`. Nothing in the core decides on them.
- Environment.Load: `int` is modelled on the canonical decimal form, after stripping whitespace. Python's `int` also takes a `+` sign and underscores between digits.
- Decimal.ParseInt: accepts only the canonical form `str` writes. Python's `int` also takes surrounding whitespace, a `+` sign and underscores, which a written snapshot never contains.
- Snapshot.LoadState: one guild key stands for the same key in all six dictionaries. A hand-edited file whose dictionaries have different keys, with a bad key in a later dictionary, would leave the earlier dictionaries already replaced when loading fails. The model does not show that partial replacement.
- Snapshot.Save: the JSON layout of six dictionaries keyed by guild, and the order in which a `set` blacklist is listed, are abstracted to one member per guild.
- Player.Run: a fuel bound stops a playlist that keeps expanding to itself. Chains longer than the fuel report `exhausted` instead of running on.
- Player.StreamPlay: it models the corrected lock discipline: after a failed resolution it advances with the guild lock released, where music_player.py:132-169 still holds it (that version is `Player.StreamPlayAsWritten`). The `vc.stop()` that `ensure_idle` issues before playing is not modelled, and neither is the completion handler of the track it stops. Title and position bookkeeping after `vc.play` is left out, along with the `after` callback scheduling. The completion handler is modelled separately as `Player.PlaybackFinished`.
- Legacy.AutoResume: a partially valid load is not modelled, nor the duplicate definition of `get_guild_back_history` in the single-file bot (the later definition is identical).
- BackNav.BackCommand: the stop's completion handler, and the `play_next` it runs, are taken to finish within the two-second pause that follows `vc.stop()`. A handler still running after the pause is not modelled. When that handler has started the next track, `ensure_idle` inside `stream_play(target)` stops it again. The completion handler of that second stop runs concurrently with `back` and is not modelled either.
- AudioSources.ProcessUrl: the display `title` of a playlist result and the `source` and `info` fields are not kept. No later step reads them.
- The SSH settings are modelled as far as `get_ssh_config` and `is_ssh_enabled`. The remote download that connects with them is outside the playback core.
- Supervisor.SafeConnect: the per-attempt connect timeout and the disconnect of a half-open client are observations folded into `connects(i)`.

Notes on behaviour that is easy to misread:

- `play_next` resolves the popped head before `stream_play` looks at the blacklist (`Player.PlayNextResolvesBlacklistedHead`).
- The back-stack backfill inserts every unseen entry of `played[-5:]`, oldest first. It does not stop at two. On an empty stack the oldest entry ends on top (`BackNav.BackfillFromEmpty`).
- On a successful start, `from_back` and `processing_back` keep their values. `stream_play` does not reset them.
- A stream with no audio url is blacklisted by the modular bot but not by the single-file bot (`Legacy.MissingAudioIsNotBlacklisted`).
- The single-file `_after` continues only when the queue is non-empty. The modular handler also continues after a back replay.
- `main.py` resumes on a current url or a non-empty queue. The single-file bot needs a current url.

## Findings

| source | as written | input that shows it | evidently intended | confidence | as-written member | corrected member |
|---|---|---|---|---|---|---|
| music_player.py:132-169 | after a failed resolution, `stream_play` awaits `play_next` inside `async with lock`, so the nested `stream_play` of the next track finds the lock held and returns False | queue `[a, b]` where `a` fails to resolve and `b` is playable: `b` is popped and resolved but never played, and it is not left in the queue | release the lock before advancing, as `fixed_music_bot.py` does on every advancing path | high (not executed) | `Player.AsWrittenFailureDropsNextTrack` | `Player.CorrectedFailurePlaysNextTrack` |
| music_commands.py:141-150 | `back` stops the playing track and then copies the queue; the stop's completion handler records the track and runs `play_next`, which pops and starts the next queued track before the copy is taken | A, B played, C playing, D queued: the rebuilt queue is only C, and D, started by the handler and then stopped by `ensure_idle` so that B can play, is neither queued nor played again | the handler does not advance while `back` is at work, so the rebuilt queue is C, D and B plays | medium (not executed) | `BackNav.BackScenario` | `BackNav.BackScenarioFixed` |
| audio_sources.py:199-212 | `_process_spotify_track` returns the matching YouTube link but no `audio_url`, so `stream_play` raises "no audio source" and blacklists the track | any Spotify track link whose search finds a YouTube match | extract the YouTube match and stream its audio, as the single-file bot's `play_spotify_track` does | high (not executed) | `AudioSources.SpotifyTrackAlwaysBlacklisted` | `AudioSources.SpotifyTrackPlaysWhenFixed` |
