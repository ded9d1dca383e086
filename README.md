# Vacara auto-trader core, modelled in Dafny

This project models the decision and bookkeeping core of the baccarat auto-trader server (`server/auto_baccarat`):

- **The choice-pick cascades.** `PredictionEngine`, `ChoicePickSystem` and `ChoicePickEngine` turn the newest 15 player/banker results into a pick on a five-stage cascade. That cascade is defined once (`Cascade`) and used by both imperative copies. The proofs show what the cascade really computes on P/B input: every later stage collapses onto stage 1. The 16th pick is therefore `r[15]` when `r[12] == r[13]`, and its opposite otherwise (1-based).
- **The connection life cycle.** The three feed clients share it line for line: `BaccaratWebSocketClient` in monitor/lobby_monitor.py and client_ws.py, and `RoomWebSocketClient` in betting/bet_executor.py:163-183.
  - `connect` and `disconnect` have guards.
  - The receive loop reacts to abstract events.
  - `_attempt_reconnect` has a cap of three attempts and 1/2/4-second backoff. The cap is checked before the 60-second reset, so once three attempts are recorded the client never tries again.
- **The lobby history feed.** `_process_message` sorts each table's results by board position `x*7 + y`, applies the whitelist and the keyword filter, and stores only what changed. The monitor's own callback instead overwrites room data and broadcasts at most once per frame.
- **`LobbyMonitor`.**
  - `calculate_streaks` runs a counter loop over each room's newest-first results. It breaks at the first threshold, so a reported streak always equals its threshold. It then does two stable sorts.
  - Fan-out to subscribed sockets drops the ones whose send raised.
  - `start_client`, `stop_client` and the end of the client task have guards. The client task announces itself running and, at its end, stopped; `stop_client` (like `stop_monitoring` in `BettingExecutor`) awaits the cancelled task, so the stopped-status broadcast and its socket drops happen before the task and client are cleared.
- **`BettingExecutor`.** It keeps four dictionaries keyed by user and then room: sessions, configs, sockets and signals.
  - Signal issuing uses a default amount of 1000.
  - `get_betting_data` lists at most the ten newest signals, and each listed dictionary reads back as the stored signal.
  - `get_active_bettings_count` is proved to count exactly the running (user, room) pairs.
  - Start and stop change that count by exactly one.
- **`BettingSignal.to_dict` / `from_dict`.** These are proved mutually inverse, including the `isoformat` / `fromisoformat` round trip of the timestamp.
- **`URLExtractor`.** A model of `urlparse` and `parse_qs` as far as the extractor uses them. The proofs show that the lobby and room URLs the clients build carry their configuration back out and pass `validate_ws_url`.
- **server.py helpers.** `get_room_raw_data` (lenient sort key, 15-result window, pattern string, win counts, readable results) and the field logic of `extract_config_from_url`.

Sockets are natural numbers. Whether a send, a close or a handshake succeeds is a parameter. The clock is a number passed in (microseconds for the reconnect logic, a `DateTime` or its text for timestamps). The mappings and keywords read from files are inputs. A Python dictionary whose iteration order matters (room data) is an association list in insertion order. The nested dictionaries of `BettingExecutor` are maps, because nothing reads their order.

Two behaviours of the code are easy to misread, and the model states them as the code has them:

- **Reconnect cap:** `_attempt_reconnect` checks the cap of three attempts before it resets the count after 60 quiet seconds, so once three attempts are recorded no fourth attempt ever happens, however long the client waits (`Connection.NeverRetriesAfterCap`).
- **Reported streak:** the streak loop stops as soon as a count reaches its threshold, so a run of four player wins with a threshold of 3 is reported as a streak of 3 (`Streaks.StreakCappedAtThreshold`).

## Model

| member | source | states |
|---|---|---|
| Picks.Opposite | server/auto_baccarat/prediction/prediction_engine.py:21-22 | the result is always a side and differs from a side input; 'N' becomes 'P' |
| Picks.ReverseBet | server/auto_baccarat/utils/choice_pick.py:37-43 | sides swap, anything else becomes 'N'; the result is a side iff the input is |
| Picks.OppositeInvolutive | server/auto_baccarat/prediction/prediction_engine.py:21-22 | applying the opposite twice gives a side back |
| Picks.ReverseBetInvolutive | server/auto_baccarat/utils/choice_pick.py:37-43 | reversing a side twice gives it back |
| Picks.ReverseBetAgreesWithOpposite | server/auto_baccarat/utils/choice_pick.py:34-43 | both helpers agree on sides and differ on 'N' |
| Picks.ParseSide | server/auto_baccarat/utils/choice_pick.py:20 | a raw result is accepted exactly when it is "P" or "B" |
| Picks.FilterSides | server/auto_baccarat/prediction/prediction_engine.py:15 | the filtered list holds only sides and is no longer than the input |
| Picks.FilterSidesAppend | server/auto_baccarat/utils/choice_pick.py:26 | filtering distributes over concatenation, so nothing is reordered |
| Picks.LastN | server/auto_baccarat/utils/choice_pick.py:22-23 | `s[-n:]` has min(n, len) elements and is a suffix of s; a short s is kept whole |
| Picks.LastNAppend | server/auto_baccarat/utils/choice_pick.py:19-29 | truncating after every append equals truncating once at the end |
| Cascade.SafeGet | server/auto_baccarat/prediction/prediction_engine.py:25-26 | the element at an index in range, 'N' otherwise |
| Cascade.FirstNonNSpec | server/auto_baccarat/prediction/prediction_engine.py:86 | `next(...)` is 'N' iff every stage is 'N', else the earliest non-'N' stage |
| Cascade.FinalIsFirstNonN | server/auto_baccarat/prediction/prediction_engine.py:86 | the final pick is the first non-'N' of stages 5, 4, 3, 2, 1 |
| Cascade.StepKeepsPicks | server/auto_baccarat/prediction/prediction_engine.py:87 | one iteration records the pick for its number and keeps earlier entries |
| Cascade.RunShape | server/auto_baccarat/prediction/prediction_engine.py:28-31 | after the loop up to hi every stage list and the dictionary hold one pick per number 5..hi-1 |
| Cascade.StageListLengths | server/auto_baccarat/prediction/prediction_engine.py:31-87 | with n >= 4 results every stage list ends with n-3 entries |
| Cascade.WinCountAtMostOne | server/auto_baccarat/prediction/prediction_engine.py:43-47 | the stage-2/5 vote only ever sees the current pick, so it never reaches 2 |
| Cascade.Stage1InRange | server/auto_baccarat/prediction/prediction_engine.py:34-37 | inside the loop's range all three stage-1 inputs exist |
| Cascade.StepFinalIsStage1 | server/auto_baccarat/prediction/prediction_engine.py:37-87 | over P/B results each iteration's final pick is the stage-1 pick, a side |
| Cascade.RunIsStage1 | server/auto_baccarat/prediction/prediction_engine.py:31-89 | over P/B results every recorded pick equals its stage-1 pick |
| Cascade.Pick16 | server/auto_baccarat/prediction/prediction_engine.py:91-95 | with 15 P/B results pick 16 exists, is a side, and follows the stage-1 formula on results 12, 13, 15 |
| Prediction.PredictionClosedForm | server/auto_baccarat/prediction/prediction_engine.py:91-95 | with 15 P/B results the prediction is the closed stage-1 formula and is never 'N' |
| Prediction.PredictionEngine.constructor | server/auto_baccarat/prediction/prediction_engine.py:9-12 | starts with an empty window |
| Prediction.PredictionEngine.AddResults | server/auto_baccarat/prediction/prediction_engine.py:14-16 | the window becomes the newest 15 P/B entries of the argument; the old window is discarded |
| Prediction.PredictionEngine.GenerateAllStagePicks | server/auto_baccarat/prediction/prediction_engine.py:24-89 | the loop over five local stage lists returns exactly the cascade's pick dictionary |
| Prediction.PredictionEngine.StagePicksAt | server/auto_baccarat/prediction/prediction_engine.py:32-87 | one loop body appends each stage's pick and records the final pick |
| Prediction.PredictionEngine.Predict | server/auto_baccarat/prediction/prediction_engine.py:91-95 | 'N' unless exactly 15 results are stored, else a side equal to the stage-1 formula |
| ChoicePick.AddEachIsAddMultiple | server/auto_baccarat/utils/choice_pick.py:19-29 | `add_multiple_results(rs)` leaves the same window as `add_result` on each element in turn |
| ChoicePick.SameAsPredictionEngine | server/auto_baccarat/utils/choice_pick.py:119-125 | on the same 15-result window the rolling system and `PredictionEngine` pick alike |
| ChoicePick.ChoicePickClosedForm | server/auto_baccarat/utils/choice_pick.py:119-125 | with 15 P/B results the pick is a side given by the stage-1 formula |
| ChoicePick.ChoicePickSystem.constructor | server/auto_baccarat/utils/choice_pick.py:9-17 | empty window and empty stage lists |
| ChoicePick.ChoicePickSystem.AddResult | server/auto_baccarat/utils/choice_pick.py:19-23 | a side is appended and the window cut to the newest 15; anything else changes nothing |
| ChoicePick.ChoicePickSystem.AddMultipleResults | server/auto_baccarat/utils/choice_pick.py:25-29 | the filtered inputs go after the stored ones, then the newest 15 are kept |
| ChoicePick.ChoicePickSystem.CountWins | server/auto_baccarat/utils/choice_pick.py:105-110 | the `win_count` loop equals the cascade's vote count |
| ChoicePick.ChoicePickSystem.AppendStagePicks | server/auto_baccarat/utils/choice_pick.py:57-115 | one loop body appends one pick to every stage field and records the final pick |
| ChoicePick.ChoicePickSystem.GenerateAllStagePicks | server/auto_baccarat/utils/choice_pick.py:45-117 | clears and refills the stage fields and returns the cascade's dictionary; the window is untouched |
| ChoicePick.ChoicePickSystem.GenerateChoicePick | server/auto_baccarat/utils/choice_pick.py:119-125 | 'N' below 15 results, else the pick for number len+1; the window is unchanged |
| ChoiceEngine.EnginePickReverses | server/auto_baccarat/prediction/choice_pick_engine.py:36-50 | the engine abstains exactly when the system does and otherwise bets on the other side |
| ChoiceEngine.EnginePickClosedForm | server/auto_baccarat/prediction/choice_pick_engine.py:36-50 | with 15 P/B results the bet is the opposite of the stage-1 formula |
| ChoiceEngine.ChoicePickEngine.constructor | server/auto_baccarat/prediction/choice_pick_engine.py:13-18 | wraps an empty system |
| ChoiceEngine.ChoicePickEngine.AddResult | server/auto_baccarat/prediction/choice_pick_engine.py:24-26 | forwards to `add_result` unchanged |
| ChoiceEngine.ChoicePickEngine.AddResults | server/auto_baccarat/prediction/choice_pick_engine.py:28-30 | forwards to `add_multiple_results` unchanged |
| ChoiceEngine.ChoicePickEngine.Predict | server/auto_baccarat/prediction/choice_pick_engine.py:36-50 | 'N' when the system has no pick, else its reverse; the window is unchanged, and with enough data the system's stage lists hold the cascade run, otherwise they are unchanged |
| Connection.Pow2 | server/auto_baccarat/monitor/lobby_monitor.py:233 | the backoff `2 ** n` is at least one second, exceeds n and is even once n is positive |
| Connection.ConnectGuards | server/auto_baccarat/monitor/lobby_monitor.py:92-147 | connected answers True and opens nothing; otherwise the handshake outcome decides the flag and the answer |
| Connection.DisconnectGuards | server/auto_baccarat/monitor/lobby_monitor.py:149-170 | not connected answers True; a close that raises answers False and keeps the flag |
| Connection.ReconnectRefusedAtCap | server/auto_baccarat/monitor/lobby_monitor.py:220-223 | at three attempts nothing changes and no attempt is made, whatever the clock says |
| Connection.ReconnectCounts | server/auto_baccarat/monitor/lobby_monitor.py:225-238 | below the cap the count restarts after more than 60 s, grows by one, the time is recorded and the delay is 2^(n-1) s |
| Connection.ReconnectKeepsCap | server/auto_baccarat/monitor/lobby_monitor.py:218-238 | the attempt count never exceeds three |
| Connection.NeverRetriesAfterCap | server/auto_baccarat/monitor/lobby_monitor.py:220-227 | once three attempts are recorded no later series of attempts changes anything |
| Connection.ThreeFailuresThenSilence | server/auto_baccarat/monitor/lobby_monitor.py:218-238 | three failed attempts wait 1, 2 and 4 s; a fourth, even hours later, is refused |
| Connection.LoopFromFirstEnd | server/auto_baccarat/monitor/lobby_monitor.py:172-216 | the receive loop stops at the first ending event (ping failure, close, error, cancellation) and reacts to it |
| Connection.Client.constructor | server/auto_baccarat/monitor/lobby_monitor.py:66-73 | disconnected, no attempts, last attempt at the creation time |
| Connection.Client.Connect | server/auto_baccarat/monitor/lobby_monitor.py:92-147 | the new state is the connect step of the old one |
| Connection.Client.Disconnect | server/auto_baccarat/monitor/lobby_monitor.py:149-170 | the new state is the disconnect step of the old one |
| Connection.Client.AttemptReconnect | server/auto_baccarat/monitor/lobby_monitor.py:218-238 | performs the reconnect step: refused at the cap, otherwise counted with its delay |
| Connection.Client.ReceiveMessages | server/auto_baccarat/monitor/lobby_monitor.py:172-216 | consumes events up to the first ending one; an abnormal close or an error then attempts a reconnect |
| Ingest.ProcessUntouched | server/auto_baccarat/monitor/lobby_monitor.py:249-290 | tables a frame does not mention keep their stored results |
| Ingest.ProcessChanges | server/auto_baccarat/client_ws.py:214-256 | nothing is removed; a changed table passed the filters and holds its frame results sorted by position |
| Ingest.ProcessKeepsSorted | server/auto_baccarat/client_ws.py:222-225 | every stored table stays sorted ascending by `x*7 + y` |
| Ingest.SettledIsFixed | server/auto_baccarat/client_ws.py:232-234 | when every remaining table is skipped or equal the loop changes nothing |
| Ingest.ProcessSettles | server/auto_baccarat/client_ws.py:214-256 | after a frame is processed without an exception it is settled against the new store |
| Ingest.ReplayChangesNothing | server/auto_baccarat/monitor/lobby_monitor.py:249-290 | re-delivering a processed frame changes nothing and raises nothing |
| Ingest.WhitelistHolds | server/auto_baccarat/client_ws.py:218-219 | the stand-alone client never stores a table its mappings do not name |
| Ingest.KeywordFilterHolds | server/auto_baccarat/client_ws.py:229-231 | with keywords set, a stored table's display name contains one, ignoring ASCII case |
| Ingest.KeywordMatchesIgnoringCase | server/auto_baccarat/client_ws.py:230 | a keyword matches every name holding, at any position, a piece equal to it up to ASCII case |
| Ingest.KeywordMatchIsInfix | server/auto_baccarat/client_ws.py:230 | conversely, a keyword matches a name only at a position where the lower-cased name holds the lower-cased keyword |
| Ingest.LongKeywordNeverMatches | server/auto_baccarat/client_ws.py:230 | a keyword longer than the name never matches |
| Ingest.FeedClient.constructor | server/auto_baccarat/client_ws.py:20-47 | empty table store with the given mappings and keywords |
| Ingest.FeedClient.LogResults | server/auto_baccarat/client_ws.py:238-256 | the logging loop raises exactly when some stored `pos` is missing, not a list, or does not have exactly two coordinates |
| Ingest.FeedClient.ProcessMessage | server/auto_baccarat/client_ws.py:209-256 | the store after a frame is the modelled table loop's outcome; a raising callback stops before any table |
| Monitor.CallbackUntouched | server/auto_baccarat/monitor/lobby_monitor.py:553-570 | rooms a frame does not mention keep their data |
| Monitor.CallbackOverwrites | server/auto_baccarat/monitor/lobby_monitor.py:556-567 | after a frame without an exception every table with results holds them sorted, changed or not |
| Monitor.CallbackKeepsRoomsOk | server/auto_baccarat/monitor/lobby_monitor.py:556-570 | room data stays well formed even when the frame raises part-way |
| Monitor.LobbyMonitor.constructor | server/auto_baccarat/monitor/lobby_monitor.py:295-300 | all dictionaries empty |
| Monitor.LobbyMonitor.ActiveMonitorsCount | server/auto_baccarat/monitor/lobby_monitor.py:302-304 | the users whose entry holds a task never outnumber the entries |
| Monitor.LobbyMonitor.GetRoomData | server/auto_baccarat/monitor/lobby_monitor.py:416-421 | the stored results of the room, None for an unknown user or room |
| Monitor.LobbyMonitor.GetRoomMappings | server/auto_baccarat/monitor/lobby_monitor.py:318-344 | the cached mappings, or the loaded ones, which are then cached |
| Monitor.LobbyMonitor.SetRoomMappings | server/auto_baccarat/monitor/lobby_monitor.py:346-348 | replaces the user's mappings and nothing else |
| Monitor.LobbyMonitor.SetSessionConfig | server/auto_baccarat/monitor/lobby_monitor.py:350-352 | replaces the user's session config and nothing else |
| Monitor.LobbyMonitor.SetStreakSettings | server/auto_baccarat/monitor/lobby_monitor.py:354-356 | replaces the user's streak settings and nothing else |
| Monitor.LobbyMonitor.CountStreak | server/auto_baccarat/monitor/lobby_monitor.py:448-470 | the counter loop with its break leaves exactly the counters of the scan specification |
| Monitor.LobbyMonitor.CalculateStreaks | server/auto_baccarat/monitor/lobby_monitor.py:423-494 | missing settings become {3, 3, 10} and are stored; the answer is the streak report of the room data |
| Monitor.LobbyMonitor.StreaksOf | server/auto_baccarat/monitor/lobby_monitor.py:442-492 | the room loop and the two sorts compute the streak report, or None when a room raises |
| Monitor.LobbyMonitor.RoomStreaks | server/auto_baccarat/monitor/lobby_monitor.py:444-488 | one room's entries: none below `min_results`, otherwise the newest-first scan's reports |
| Monitor.LobbyMonitor.GetMonitorData | server/auto_baccarat/monitor/lobby_monitor.py:404-414 | empty lists without an entry, else the streaks of the stored room data |
| Monitor.LobbyMonitor.BroadcastToUser | server/auto_baccarat/monitor/lobby_monitor.py:388-402 | delivers to every socket but the failing ones, which are exactly the ones dropped |
| Monitor.LobbyMonitor.RegisterWebsocket | server/auto_baccarat/monitor/lobby_monitor.py:358-386 | the socket joins the user's set; a user with an entry is sent running state and monitor data |
| Monitor.LobbyMonitor.UnregisterWebsocket | server/auto_baccarat/monitor/lobby_monitor.py:369-372 | discards the socket when the user has a set |
| Monitor.LobbyMonitor.StoreHistory | server/auto_baccarat/monitor/lobby_monitor.py:553-570 | the callback's table loop writes exactly the modelled callback outcome into the user's room data |
| Monitor.LobbyMonitor.StoreTables | server/auto_baccarat/monitor/lobby_monitor.py:556-567 | the loop over the frame's tables yields the modelled callback outcome; a sort that raises ends it with earlier tables kept |
| Monitor.LobbyMonitor.OnHistoryMessage | server/auto_baccarat/monitor/lobby_monitor.py:549-578 | room data is overwritten; when a table was written and nothing raised the streaks are broadcast once |
| Monitor.LobbyMonitor.StartClient | server/auto_baccarat/monitor/lobby_monitor.py:515-633 | refused without config; a running client is left alone; otherwise the entry is created and the connect outcome decides |
| Monitor.LobbyMonitor.ClientTaskStarted | server/auto_baccarat/monitor/lobby_monitor.py:600-603 | the running status reaches the user's non-failing sockets and the failing ones are dropped; the entries are kept |
| Monitor.LobbyMonitor.StopClient | server/auto_baccarat/monitor/lobby_monitor.py:614-656 | False with nothing changed when nothing runs; otherwise the awaited task's stopped status reaches the user's non-failing sockets, the failing ones are dropped, task and client are cleared and the room data is kept |
| Monitor.LobbyMonitor.ClientTaskFinished | server/auto_baccarat/monitor/lobby_monitor.py:614-627 | the stopped status is broadcast and the task reference cleared |
| Streaks.BumpRuns | server/auto_baccarat/monitor/lobby_monitor.py:455-466 | the counters always hold the lengths of the current 'B' and 'R' runs |
| Streaks.ScanFromFacts | server/auto_baccarat/monitor/lobby_monitor.py:454-470 | a scan ends at a threshold or below it, never beyond, and never at both |
| Streaks.ScanFromComplete | server/auto_baccarat/monitor/lobby_monitor.py:454-470 | a scan that has not stopped finds every threshold-long run ending at or after its position |
| Streaks.ScanSpec | server/auto_baccarat/monitor/lobby_monitor.py:454-488 | a reported streak equals its threshold, at most one side is reported, a report means such a run exists, and an existing run is reported |
| Streaks.StreakCappedAtThreshold | server/auto_baccarat/monitor/lobby_monitor.py:469-470 | four player wins in a row are reported as a streak of 3 under the default threshold |
| Streaks.OlderRunIsFound | server/auto_baccarat/monitor/lobby_monitor.py:454-470 | a run behind a newer banker win and a tie is still found |
| Streaks.CollectNext | server/auto_baccarat/monitor/lobby_monitor.py:442-488 | one more room extends the lists with that room's entries |
| Streaks.CollectSome | server/auto_baccarat/monitor/lobby_monitor.py:452 | rooms whose results all carry a two-coordinate `pos` never make the computation raise |
| Streaks.CollectEntries | server/auto_baccarat/monitor/lobby_monitor.py:444-488 | every entry names a room with enough results whose scan reached that side's threshold, with that count |
| Streaks.CollectExclusive | server/auto_baccarat/monitor/lobby_monitor.py:475-488 | with distinct room ids no room is in both lists |
| Streaks.StreaksSorted | server/auto_baccarat/monitor/lobby_monitor.py:491-492 | both lists are the entries sorted by streak, descending, stably and without loss |
| Streaks.ShortRoomIgnored | server/auto_baccarat/monitor/lobby_monitor.py:444-445 | a room below `min_results` contributes to neither list |
| Streaks.CollectNoneExtends | server/auto_baccarat/monitor/lobby_monitor.py:452 | once a room raises, every longer room list raises too |
| Records.StrictSortFacts | server/auto_baccarat/client_ws.py:222-225 | the strict sort fails iff some `pos` is missing, not a list, or has fewer than two coordinates; else orders by `x*7 + y` stably without loss |
| Records.SortKeyAgreesWithStrict | server/auto_baccarat/server.py:316-323 | on two-coordinate positions server.py's lenient key equals the clients' strict key |
| Records.PutLookup | server/auto_baccarat/monitor/lobby_monitor.py:567 | after `d[k] = v`, `d[k]` is v and every other key reads as before |
| Records.PutKeys | server/auto_baccarat/monitor/lobby_monitor.py:567 | assignment keeps the key order and appends a new key at the end |
| Records.PutUnique | server/auto_baccarat/monitor/lobby_monitor.py:567 | assignment never duplicates a key |
| Sorting.SortByFacts | server/auto_baccarat/server.py:326 | `sorted` returns an ascending permutation in which equal keys keep their input order |
| Sorting.SortBySorted | server/auto_baccarat/monitor/lobby_monitor.py:491-492 | sorting a sorted sequence gives it back |
| Sorting.SortByEqualKeys | server/auto_baccarat/monitor/lobby_monitor.py:491-492 | with one key value throughout the sort is the identity |
| Strings.LowerPointwise | server/auto_baccarat/client_ws.py:230 | ASCII `lower()`: same length, upper-case letters mapped, everything else kept |
| Strings.IndexOf | server/auto_baccarat/utils/url_extractor.py:45-46 | the first index of the character, or -1 when absent |
| Strings.SplitJoin | server/auto_baccarat/utils/url_extractor.py:38-39 | splitting undoes joining when no piece holds the separator |
| Strings.SplitLast | server/auto_baccarat/utils/url_extractor.py:38-39 | `split(c)[-1]` is the text after the last separator |
| Urls.LStrip | server/auto_baccarat/utils/url_extractor.py:35 | after `lstrip` the text is empty or starts above the space character |
| Urls.RemoveUnsafe | server/auto_baccarat/utils/url_extractor.py:35 | tabs, carriage returns and line feeds are removed; text without them is unchanged |
| Urls.UnquotePlain | server/auto_baccarat/utils/url_extractor.py:36 | `unquote` leaves text without '%' alone |
| Urls.DecodePlain | server/auto_baccarat/utils/url_extractor.py:36 | `parse_qs` decoding leaves text without '%' and '+' alone |
| Urls.QueryFirstFound | server/auto_baccarat/utils/url_extractor.py:42 | a non-empty `get(key, [''])[0]` means the key was given |
| Urls.ExtractBaccaratConfig | server/auto_baccarat/utils/url_extractor.py:22-63 | None when parsing raises or any of the four values is empty; otherwise the four extracted values |
| Urls.ExtractRoomWebsocketUrl | server/auto_baccarat/utils/url_extractor.py:66-98 | None exactly when the lobby URL yields no config |
| Urls.ValidateWsUrl | server/auto_baccarat/utils/url_extractor.py:101-140 | True only for a parseable URL with scheme ws/wss, an evo-games.com netloc, a socket path and the three required parameters |
| Urls.PairsOfParams | server/auto_baccarat/utils/url_extractor.py:36 | `parse_qsl` reads back every field a builder wrote, values decoded |
| Urls.ParseBuild | server/auto_baccarat/utils/url_extractor.py:35 | `urlparse` splits a built URL back into scheme, host, path and query exactly |
| Urls.ExtractFromParts | server/auto_baccarat/utils/url_extractor.py:35-60 | a path ending in the bare id and a query with the three values give back the config |
| Urls.LobbyQuery | server/auto_baccarat/monitor/lobby_monitor.py:84-89 | the lobby query yields session id, instance and version under their names |
| Urls.RoomQuery | server/auto_baccarat/utils/url_extractor.py:88-92 | the room query yields session id, instance and version under their names |
| Urls.LobbyPath | server/auto_baccarat/monitor/lobby_monitor.py:83 | the lobby path ends in the bare session id and contains "/socket/v2/" |
| Urls.RoomPath | server/auto_baccarat/utils/url_extractor.py:87 | the room path ends in the bare session id and contains "/game/socket/" |
| Urls.LobbyUrlRoundTrip | server/auto_baccarat/monitor/lobby_monitor.py:80-90 | the lobby URL built from a safe config extracts back to that config and passes validation |
| Urls.RoomUrlRoundTrip | server/auto_baccarat/utils/url_extractor.py:86-93 | the room URL built from a safe config extracts back to that config and passes validation |
| Urls.RoomUrlKeepsConfig | server/auto_baccarat/utils/url_extractor.py:66-98 | deriving a room URL from a lobby URL keeps the lobby's values and yields a valid URL |
| RawData.ExtrasOfLabels | server/auto_baccarat/server.py:337-345 | each label is listed iff its flag is 1, at most four labels |
| RawData.Pattern | server/auto_baccarat/server.py:355-358 | one character per result: 'P' for code B, 'B' for code R, 'T' otherwise |
| RawData.CountsPartition | server/auto_baccarat/server.py:361-366 | player wins, banker wins and the rest add up to the window size, so ties are never negative |
| RawData.PatternAgreesWithCounts | server/auto_baccarat/server.py:355-366 | the pattern shows exactly as many 'P', 'B' and 'T' as the counts report |
| RawData.Recent | server/auto_baccarat/server.py:329 | the window is the newest 15 of the sorted results, or all of them |
| RawData.Extras | server/auto_baccarat/server.py:337-345 | the appending loop builds exactly the labelled flags |
| RawData.ReadableResults | server/auto_baccarat/server.py:332-352 | one readable entry per window result, in order, with position, winner, extras and code |
| RawData.GetRoomRawData | server/auto_baccarat/server.py:303-397 | errors without user data or room data; otherwise name, totals, pattern, counts, readable list and a three-item sample of the sorted results |
| RawData.SortedResultsFacts | server/auto_baccarat/server.py:316-326 | the sorted results are a stable ascending permutation by the lenient key |
| RawData.ExtractConfigFromUrl | server/auto_baccarat/server.py:264-301 | an error for a missing or empty URL; success only with all four values non-empty |
| RawData.ExtractConfigAgrees | server/auto_baccarat/server.py:272-298 | for a non-empty URL the endpoint succeeds iff `extract_baccarat_config` does, with the same config |
| RawData.ExtractConfigOfLobbyUrl | server/auto_baccarat/server.py:264-298 | the endpoint returns the config a lobby URL was built from |
| Timestamps.DaysIn | server/auto_baccarat/betting/bet_executor.py:237 | a month has 28 to 31 days |
| Timestamps.Digits | server/auto_baccarat/betting/bet_executor.py:224 | zero-padded fields have exactly their width and only digits |
| Timestamps.ParseDigits | server/auto_baccarat/betting/bet_executor.py:237 | reading a written field gives back its number |
| Timestamps.IsoFormat | server/auto_baccarat/betting/bet_executor.py:224 | `isoformat` text is 19 characters, or 26 with a non-zero microsecond |
| Timestamps.FromIsoFormat | server/auto_baccarat/betting/bet_executor.py:237 | only a valid date and time is ever returned |
| Timestamps.MicroOf | server/auto_baccarat/betting/bet_executor.py:224 | the microsecond suffix reads back as the microsecond, 0 when absent |
| Timestamps.IsoRoundTrip | server/auto_baccarat/betting/bet_executor.py:224-237 | `fromisoformat(t.isoformat()) == t` for every valid datetime |
| Betting.ToDict | server/auto_baccarat/betting/bet_executor.py:216-225 | the dictionary has exactly the seven signal keys |
| Betting.FromDict | server/auto_baccarat/betting/bet_executor.py:227-238 | a decoded signal has all seven keys present, each field equal to its entry and a valid timestamp |
| Betting.DictRoundTrip | server/auto_baccarat/betting/bet_executor.py:216-238 | `from_dict(s.to_dict())` reproduces every field of s |
| Betting.DictsRoundTrip | server/auto_baccarat/betting/bet_executor.py:325 | the listed dictionaries are one per signal, each reading back as that signal |
| Betting.ActivePairsPut | server/auto_baccarat/betting/bet_executor.py:250-257 | replacing one session changes the running pairs at that pair only |
| Betting.ActiveCountPut | server/auto_baccarat/betting/bet_executor.py:250-257 | setting a task adds one running session, clearing one removes one, otherwise the count stays |
| Betting.BettingExecutor.constructor | server/auto_baccarat/betting/bet_executor.py:244-248 | all four dictionaries empty |
| Betting.BettingExecutor.GetActiveBettingsCount | server/auto_baccarat/betting/bet_executor.py:250-257 | the count is the number of (user, room) sessions whose task is set |
| Betting.BettingExecutor.CountActive | server/auto_baccarat/betting/bet_executor.py:252-257 | the nested loops count exactly the running pairs |
| Betting.BettingExecutor.CountRooms | server/auto_baccarat/betting/bet_executor.py:254-256 | the inner loop adds the user's running rooms to the tally |
| Betting.BettingExecutor.SetBettingConfig | server/auto_baccarat/betting/bet_executor.py:273-278 | creates the user's dictionary if needed and replaces only that room's config |
| Betting.BettingExecutor.GenerateBettingSignal | server/auto_baccarat/betting/bet_executor.py:280-309 | None and nothing stored without a config; else a signal with the config amount (default 1000) appended at the end of the room's list |
| Betting.BettingExecutor.GetBettingData | server/auto_baccarat/betting/bet_executor.py:311-328 | "not_running", [] and 0 without a session; else the status, at most the ten newest signals, each reading back, and the total count |
| Betting.BettingExecutor.RegisterWebsocket | server/auto_baccarat/betting/bet_executor.py:330-362 | the socket joins the pair's set; a pair with a session is sent its running state and betting data |
| Betting.BettingExecutor.UnregisterWebsocket | server/auto_baccarat/betting/bet_executor.py:344-348 | discards the socket when the pair has a set |
| Betting.BettingExecutor.BroadcastToRoom | server/auto_baccarat/betting/bet_executor.py:364-379 | delivers to every socket but the failing ones, and removes exactly the failing ones |
| Betting.BettingExecutor.SendAll | server/auto_baccarat/betting/bet_executor.py:370-375 | the dead sockets are exactly the pair's sockets whose send raised |
| Betting.BettingExecutor.StartMonitoring | server/auto_baccarat/betting/bet_executor.py:381-504 | False without a config; True and nothing changed when running; else the session is created, the URL and the connect decide, and success starts one more session |
| Betting.BettingExecutor.MonitoringStarted | server/auto_baccarat/betting/bet_executor.py:462-465 | the running status reaches the pair's non-failing sockets and the failing ones are dropped; sessions are kept |
| Betting.BettingExecutor.MonitoringFinished | server/auto_baccarat/betting/bet_executor.py:484-498 | the stopped status reaches the pair's non-failing sockets and the failing ones are dropped; the task reference is cleared if the session exists |
| Betting.BettingExecutor.StopMonitoring | server/auto_baccarat/betting/bet_executor.py:484-527 | False with nothing changed when not running; else the awaited task's stopped status reaches the pair's non-failing sockets, the failing ones are dropped, task and client are cleared and one session fewer runs |
| Betting.BettingExecutor.ProcessRoundResult | server/auto_baccarat/betting/bet_executor.py:568-581 | a running pair's `last_update` is refreshed; otherwise nothing changes |

## Left out

- Sockets, `asyncio` tasks, `wait_for` timeouts, `sleep`, `ping`, HTTP headers, logging and `print`. Outcomes of sends, closes, pings and handshakes are parameters, and events of the receive loop are an abstract sequence.
- FastAPI routing, CORS, pydantic models and uvicorn in server.py. The `start_betting`/`stop_betting` endpoints call methods `BettingExecutor` does not define, so they are not modelled.
- File and JSON loading. The mappings file read by `get_room_mappings` is the parameter `loaded`. `run_client`, `load_config` and main.py are not part of this model.
- Floating point: `player_rate`/`banker_rate` with `round` in `get_room_raw_data` are not computed, and `confidence` is an opaque `real`.
- Wall-clock readings (`datetime.now()`) are supplied by the caller, as microseconds, a `DateTime` or its text.
- `ChoicePickEngine.reset`, `record_result`, `should_change_room`, `reset_after_room_change` and `get_current_bet_amount` call methods `ChoicePickSystem` does not have, so they are not modelled.
- Placeholder betting logic is not modelled: `_generate_bet_signal` with its fixed position and confidence, the `on_message_callback` of `start_monitoring`, and the `run_monitoring` round loop that never increments `rounds_monitored`.
- `LobbyMonitor.recalculate_predictions` is a stub, and `recalculate_streaks` only re-broadcasts what `calculate_streaks` computes; neither is modelled.
- The task-cancel branch of `start_monitoring` and `start_client` cannot run, because it is reached only when no task is set. Disconnecting an old client only affects that client object.
- Monitor.LobbyMonitor.StopClient: the awaited task is taken to have started, so its `finally` runs; a task cancelled before its first step would skip both of its status broadcasts. The `client.disconnect()` calls are covered by clearing the client.
- Betting.BettingExecutor.StopMonitoring: the same assumption about the awaited task, with the same treatment of `client.disconnect()`.
- ChoicePick.ChoicePickSystem.GenerateAllStagePicks: the stage lists are appended to in locals and stored in the fields after the loop, not appended in place; nothing reads them in between, so the final state is the same.
- Monitor.LobbyMonitor.StoreHistory: the tables go into a copy of the user's room data that is written back once, when the loop ends or raises, instead of into the dictionary in place; nothing reads it in between.
- Urls.UrlSplit: IPv6 bracket validation is reduced to the unbalanced-bracket `ValueError`, and the port check is not modelled. Neither is `_checknetloc`: a non-ASCII netloc whose NFKC form gains '/', '?', '#', '@' or ':' (one holding U+FF0F, say) makes `urlsplit` raise, so `extract_baccarat_config` returns None, while Urls.ExtractBaccaratConfig returns a config for it.
- Urls.Unquote: decodes each `%XX` to one character; UTF-8 sequences of several bytes are not combined.
- Urls.LobbyUrlRoundTrip: proved for configs whose values are non-empty and free of '/', '&', '%', '+', '#', '?', tab, carriage return and line feed, and whose instance has no '-' ('=' is allowed, since `parse_qsl` splits a field at its first '='); it says nothing about other configs.
- Strings.LowerPointwise: only ASCII letters are case-folded; Unicode case mapping is not modelled.
- Records.SortKey: a `pos` holding non-integers is not modelled; positions are integer pairs, missing, or of another shape. A `pos` that is a string (such as "12") counts as another shape and is treated as malformed. That matches `get_sort_key`, which gives 0 for anything but a list or tuple. It does not match the feed clients: their strict key `pos[0] * 7 + pos[1]` builds a string key from a string of two or more characters, and the logging loop's `x, y = pos` unpacks a two-character string, where the model raises in both places.
- Betting.FromDict: a field of the wrong kind makes the model return None, whereas Python would store any value; a timestamp is read only in the two shapes `isoformat` writes, not every form `fromisoformat` accepts.
- Betting.BettingExecutor.GetBettingData: the `last_update` fallback to `datetime.now()` is never taken, because every session is created with one.
