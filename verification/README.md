# valorant-rpc in Dafny

valorant-rpc watches a player's Valorant session through the Riot Client's
local API and shows it as a Discord Rich Presence. This project models the
parts of it that are hard to get right and proves what they promise: the
updater that defends a presence against other programs, the daemon loop that
decides when there is one, the two transports under them with their
supervisors, the template engine and the mapping that write the presence, and
the small kernels that read, fan out and tail data.

Check everything with `dafny verify dfyconfig.toml`.

## How it is built

Code that changes state under a lock or in a loop appears twice. First as a
state machine of values: one step per lock section (or per blocking call),
the outcome of every pipe write, dial, timer and clock reading part of the
step, and steps whose turn has not come changing nothing. So every list of
steps is a run, and a statement about all lists is a statement about all
interleavings. Then as a class with the source's fields and methods, each
method proved to take exactly the machine's step. Pure code is functions, with
lemmas that say what they mean without naming their bodies.

| file | of the source | what it holds |
|---|---|---|
| TemplateCleanup, TemplateRender | internal/presence/template | clean-up as a rewriting system; parsing, substitution, warnings |
| GameState, PresenceMap, PresenceTokens | internal/state/state.go, internal/discord/presence.go, contexts.go | phases, tokens, art, two-run theorems |
| PresenceProtocol, DiscordUpdater | internal/discord/updater.go, client.go | Updater, Discord client and what Discord shows |
| PresenceLines | the two above together | the lines of every frame of every run |
| PresenceLoop, Daemon | internal/daemon/daemon.go | presence loop, pause flag |
| RiotRegistry, RiotTransport, RiotClient | internal/riotclient | subscriptions and connection generations under reconnects |
| Supervisor | internal/daemon/*supervisor.go | the trace language of supervised connections |
| StateManager, ConfigStore, LatestValue | internal/state/manager.go, internal/config/store.go | change detection, stamps, latest-value channels |
| Backoff | internal/riotclient/run.go | closed form of the reconnect backoff |
| Lockfile, Decimal | internal/riotclient/credentials.go | half-written lockfiles |
| PresenceDecode | internal/riotchat/decode.go | flat and nested payloads |
| LogLines | internal/logging/ring.go, frontend/src/lib/logTail.ts | recent lines, stitching history to the live tail |

## Where the code and its documentation disagree

The model follows the code, and says exactly when the documented claim holds.

- `DelayUpdate` documents that only the last call of a rapid series will
  execute (internal/discord/updater.go:235). Two things break it. A state
  already sent is skipped without cancelling the armed timer, so a return to it
  still sends the other state (`ReturningToTheSentStateSendsTheOther`), and a
  callback that has already fired runs besides the last call
  (`FiredCallbackRunsToo`). `OnlyTheLastCallExecutes` is an equivalence with
  the exact condition on the state the series starts from.
- `lastSent` is documented to mirror what Discord shows
  (internal/discord/updater.go:99-101). A clear that fails to be built, or that is
  attempted under a changed application id, is recorded as cleared all the
  same: `ShownStep` gives the exact condition step by step,
  `DroppedClearIsRecorded` a run.
- Nothing should be sent after a clear, nor while paused. A timer callback
  already waiting for the mutex is not stopped by either. `ClearIsFinal`,
  `PauseClearIsSilentExactly` and `PauseIsSilentExactly` are equivalences,
  `LateCallbackOutlivesThePause` is a run, and `PauseIsSilent` is the claim
  itself for atomic timers.
- The stamp is documented as the time the phase last changed
  (internal/state/state.go:51-53). The disconnect path writes it itself:
  `StampStep`, `ResetMovesTheStamp`.
- Joining history and live lines is exact only if no longer overlap exists by
  accident: `StitchIsExact` is an equivalence, `RepeatedLineIsLost` the
  smallest family that fails.
- The backoff doubles in 64 bits without an overflow check. It is
  min·2^j capped at the maximum for every j exactly when the maximum is below
  2^62 ns: `CappedExactlyBelowTwo62`.

## Model

| member | source | states |
|---|---|---|
| `TemplateCleanup.SeamIsLongestMatch` | internal/presence/template/template.go:24 | the seam scanner finds a match exactly where some prefix is whitespace, one mark, whitespace, and takes the longest |
| `TemplateCleanup.RunIsLongestMatch` | internal/presence/template/template.go:25 | at a separator the run taken is a separator run and no longer one exists |
| `TemplateCleanup.TrimEnds` | internal/presence/template/template.go:26 | end trimming takes both outer runs of whitespace and separators whole and nothing between |
| `TemplateCleanup.CollapseSeam` | internal/presence/template/template.go:137-155 | a maximal seam becomes one space, nothing at either end of the line, and the rest is rewritten on its own |
| `TemplateCleanup.CollapsePlain` | internal/presence/template/template.go:146-153 | text without marks that does not end in whitespace is copied and the rest rewritten on its own |
| `TemplateCleanup.FoldRun` | internal/presence/template/template.go:132 | a maximal separator run keeps its first separator only |
| `TemplateCleanup.FoldPlain` | internal/presence/template/template.go:132 | text without separators is copied and the rest folded on its own |
| `TemplateCleanup.CollapseSeams` | internal/presence/template/template.go:139-155 | the builder loop over all matches computes the recursive rewrite |
| `TemplateCleanup.CleanupReachesNormalForm` | internal/presence/template/template.go:130-135 | whatever goes in, no mark, no two separators with only whitespace between, no separator or whitespace at an end comes out |
| `TemplateCleanup.FixpointIffNormalForm` | internal/presence/template/template.go:130-135 | the fixpoints of the clean-up are exactly the normal forms |
| `TemplateCleanup.CleanupIsIdempotent` | internal/presence/template/template.go:130-135 | cleaning twice is cleaning once |
| `TemplateCleanup.CleanupKeepsInk` | internal/presence/template/template.go:130-155 | the characters that are neither whitespace, separator nor mark survive in number and order |
| `TemplateCleanup.PairFreeMeaning` | internal/presence/template/template.go:25 | the recursive no-adjacent-separators test means there is no pair of separators with only whitespace between |
| `TemplateRender.TokenAtMeaning` | internal/presence/template/template.go:23 | every braced valid name is found as a token of its own width, whatever follows |
| `TemplateRender.ParsePrints` | internal/presence/template/template.go:110 | the pieces of a template print back to it |
| `TemplateRender.ParseIsCanonical` | internal/presence/template/template.go:110 | no literal piece starts a token the scanner overlooked |
| `TemplateRender.DecompositionIsUnique` | internal/presence/template/template.go:110 | no other canonical decomposition prints to the same template |
| `TemplateRender.ValueIsNotRescanned` | internal/presence/template/template.go:119-121 | a token's value lands untouched between what both sides are without it, whatever braces it holds |
| `TemplateRender.TokenWithoutValue` | internal/presence/template/template.go:112-122 | an unknown token stays as typed; a known one that is missing or empty leaves one mark |
| `TemplateRender.StrangersStayLiteral` | internal/presence/template/template.go:112-118 | a template in which no known token occurs is only cleaned up |
| `TemplateRender.SubstituteLiteral` | internal/presence/template/template.go:110-123 | text without an opening brace is copied |
| `TemplateRender.SubstituteToken` | internal/presence/template/template.go:110-123 | a token is replaced on its own, whatever follows |
| `TemplateRender.OverrideWins` | internal/presence/template/template.go:77-83 | on each line the user's template is rendered where it is not empty, the built-in one only where it is |
| `TemplateRender.RenderReadsOnly` | internal/presence/template/template.go:101-126 | rendering depends on the data at known tokens that occur, a missing and an empty value being the same |
| `TemplateRender.AnchorStays` | internal/presence/template/template.go:101-126 | a character the author typed is in the line whatever the tokens resolve to |
| `TemplateRender.OneTokenLine` | internal/presence/template/template.go:99-126 | a line that is one known token reads as its cleaned value, or as nothing |
| `TemplateRender.RenderedIsNormal` | internal/presence/template/template.go:125 | every rendered line is in normal form |
| `TemplateRender.UnknownIsExact` | internal/presence/template/template.go:107-118 | the warnings are exactly the unknown token names, each once, in order of first appearance |
| `TemplateRender.DedupKeepsFirstOrder` | internal/presence/template/template.go:89-96 | deduplicating keeps first occurrences in order |
| `TemplateRender.Render` | internal/presence/template/template.go:101-126 | the callback loop with its seen set computes the line and the warnings |
| `TemplateRender.RenderPair` | internal/presence/template/template.go:76-97 | each line is the rendered override where there is one and the rendered default where there is none, and the warnings are those of the two templates used, deduplicated |
| `GameState.PhaseExactly` | internal/state/state.go:68-104 | the exact condition of five phases, the client being the rest: party state and screen count in the menus only, case never does |
| `PresenceMap.TokensAreTokenValues` | internal/discord/presence.go:95-187 | the map filled in order with overwrites holds, token by token, the closed-form value |
| `PresenceTokens.TokenMap.Fill` | internal/discord/presence.go:95-146 | filling the map in place gives every token its value and leaves the rest empty |
| `PresenceTokens.TokenMap.AddPartyTokens` | internal/discord/presence.go:159-166 | the party trio in place, nothing without a size and a maximum |
| `PresenceTokens.TokenMap.AddScoreTokens` | internal/discord/presence.go:170-188 | the score tokens in place, kills for a deathmatch, nothing when kills are hidden |
| `PresenceMap.PresenceReadsOnlyTheVisible` | internal/discord/presence.go:70-290 | the payload is unchanged when everything its phase and settings hide is blanked out, for every catalogue, settings and user template |
| `PresenceMap.NonInterference` | internal/discord/presence.go:70-290 | two states with the same visible part give the same payload |
| `PresenceMap.ScoreStaysInTheMatch` | internal/discord/presence.go:140-144 | outside a match both scores, the score type and the agent do not matter |
| `PresenceMap.CustomGameHidesItsMap` | internal/discord/presence.go:126-132 | in a custom game the map does not matter in any phase |
| `PresenceMap.ClientHidesTheRank` | internal/discord/presence.go:115-119 | in the client the tier does not matter |
| `PresenceMap.HiddenRankStaysHidden` | internal/discord/presence.go:117-119 | with the rank toggle off the tier does not matter |
| `PresenceMap.HiddenStatsStayHidden` | internal/discord/presence.go:142-144 | with the stats toggle off, or in the range, no score matters |
| `PresenceMap.HiddenKillsStayHidden` | internal/discord/presence.go:175-178 | with the kill count off, a deathmatch's scores do not matter |
| `PresenceMap.EmblemShowsExactly` | internal/discord/presence.go:252-269 | the emblem is the small image if and only if the player is active, shows a known rank and chose a competitive queue outside client and custom game |
| `PresenceMap.AgentArtShowsExactly` | internal/discord/presence.go:199-239 | the agent is the large image if and only if in a match and not overridden by the card setting |
| `PresenceMap.SmallImageExactly` | internal/discord/presence.go:252-260 | the idle mark shows if and only if the player is idle, and the hover text is the rank's with the emblem and the app's otherwise |
| `PresenceMap.LargeArtIsThePlayers` | internal/discord/presence.go:150-155 | outside a match the hover names the player, with the tag once both are known, over their card or the logo |
| `PresenceMap.RangeNamesItself` | internal/discord/presence.go:228-229 | in the range, without agent art, the hover says so |
| `PresenceMap.StartIsTheStamp` | internal/discord/presence.go:288 | the start is the whole second of the phase change, rounded down |
| `PresenceMap.PlayerText` | internal/discord/presence.go:106-121 | level, availability, idle, rank, agent and party tokens, test by test |
| `PresenceMap.PlaceText` | internal/discord/presence.go:124-137 | mode and map: the range over the custom game over the queue, a custom game without its map |
| `PresenceMap.ScoreText` | internal/discord/presence.go:170-197 | ally before enemy, kills with their plural in a deathmatch, nothing when those are hidden |
| `PresenceMap.UserTemplateIsRendered` | internal/discord/presence.go:274-275 | the two lines are the user's templates under the phase's own key where set, the built-in ones otherwise |
| `PresenceMap.DefaultLines` | internal/presence/template/contexts.go:58-71 | with no user template, both lines of each phase, token by token |
| `PresenceMap.DefaultStateNeverVanishes` | internal/presence/template/contexts.go:58-71 | with no user template for the state line, it is never empty in any phase |
| `PresenceLines.MappedLinesAreClean` | internal/discord/presence.go:273-290 | both lines of every mapped payload are in normal form |
| `PresenceLines.MarkedLinesAreClean` | internal/discord/updater.go:187-189 | the resend mark does not disturb a clean line |
| `PresenceLines.EveryShownLineIsClean` | internal/discord/updater.go:165-385 | in every run, every frame Discord accepts and everything it shows has clean lines, resends included |
| `PresenceProtocol.InvStep` | internal/discord/updater.go:165-385 | every locked step keeps: heartbeating iff a payload is remembered, the record equals it, cleared means none, the reclaim period runs iff the burst is not spent, the trace alternates |
| `PresenceProtocol.InvAlways` | internal/discord/updater.go:165-385 | the invariant holds along every interleaving, failed writes included |
| `PresenceProtocol.WireStep` | internal/discord/client.go:55-187 | for every step whether it writes, which frame, and what becomes of the connection and of what is shown |
| `PresenceProtocol.RecordStep` | internal/discord/updater.go:209-212 | for every step the payload under defense and the record: set by an accepted real payload, emptied by a clear, left alone by the rest |
| `PresenceProtocol.TimerStep` | internal/discord/updater.go:236-375 | for every step the armed state and the waiting callbacks: a call arms unless the state is the remembered one, firing, immediate update and clear disarm |
| `PresenceProtocol.RememberStep` | internal/discord/updater.go:269-375 | for every step the remembered state: that of the callback that got the mutex or of the immediate update that was sent or cleared, none after a clear, else unchanged |
| `PresenceProtocol.LastRemembered` | internal/discord/updater.go:269-375 | along every run the remembered state is what the last such step left |
| `PresenceProtocol.FailedUpdateIsRetried` | internal/discord/updater.go:353-359 | after an immediate update the same state is debounced again if and only if the update failed and the state was not remembered before |
| `PresenceProtocol.HiddenPhaseShowsNothing` | internal/discord/presence.go:85-91 | an accepted immediate update shows nothing in client and lobby with the toggle off, the mapped payload otherwise |
| `PresenceProtocol.ResendsAlternate` | internal/discord/updater.go:186-198 | in every run a resend differs from the frame before it and carries the last real payload, marked on every other resend and never twice |
| `PresenceProtocol.ShownStep` | internal/discord/updater.go:209-212 | a step keeps the record equal to what Discord shows, up to the mark, if and only if it is not a clear that is dropped or unsent while something shows |
| `PresenceProtocol.ShownAlongRun` | internal/discord/updater.go:209-212 | along any run the record is true in every state if and only if every clear lands or finds nothing shown |
| `PresenceProtocol.RecordIsWhatDiscordShows` | internal/discord/updater.go:99-101 | in any run whose clears land or find nothing shown, Discord shows nothing or the recorded payload up to one mark, and nothing once cleared |
| `PresenceProtocol.FixedAppRecordIsTrue` | internal/discord/updater.go:99-101 | the same of every run under one application id in which a failed clear means a dead pipe, whatever else fails |
| `PresenceProtocol.DroppedClearIsRecorded` | internal/discord/client.go:135-138 | a clear under a changed application id leaves the presence on show and is recorded as cleared |
| `PresenceProtocol.TicksDrainTheBurst` | internal/discord/updater.go:169-174 | k ticks leave max(0, n - k) of a burst of n, sent or not, along any run without a real send or a clear, failed sends and unchanged payloads included |
| `PresenceProtocol.RealSendStartsBurst` | internal/discord/updater.go:305-314 | any real send, immediate or debounced, starts the burst over, and k ticks later max(0, n - k) is left |
| `PresenceProtocol.BurstStep` | internal/discord/updater.go:165-232 | the burst changes at real sends, clears and ticks, and at no other step |
| `PresenceProtocol.DebounceKeepsLast` | internal/discord/updater.go:236-266 | consecutive calls leave one armed timer, holding the last call not skipped |
| `PresenceProtocol.BurstArms` | internal/discord/updater.go:236-266 | the same with ticks, connects, drops and id changes between the calls: nothing runs and only the armed state moves |
| `PresenceProtocol.LastCallIsArmed` | internal/discord/updater.go:241-260 | the last call is the one left armed if and only if it is not the state already sent, or nothing else was ever scheduled |
| `PresenceProtocol.OnlyTheLastCallExecutes` | internal/discord/updater.go:234-266 | from any state: after such a series and the timer, the last call and nothing else is left to execute if and only if no earlier callback waits and the last call is the one armed, or the one callback waiting carries the same state |
| `PresenceProtocol.FiredCallbackRunsToo` | internal/discord/updater.go:258-260 | a callback that fired before the last call runs as well: both payloads are sent |
| `PresenceProtocol.ReturningToTheSentStateSendsTheOther` | internal/discord/updater.go:241-244 | sent A, scheduled B, back to A: B is sent |
| `PresenceProtocol.QuietStaysQuiet` | internal/discord/updater.go:176-178 | with no timer, no callback and no heartbeat, nothing is sent until somebody asks |
| `PresenceProtocol.ClearIsFinal` | internal/discord/updater.go:367-385 | nothing unprompted follows a clear if and only if no callback was already waiting for the mutex |
| `DiscordUpdater.Client.Connect` | internal/discord/client.go:55-82 | a dial or handshake failure changes nothing, a success takes over the configured application id |
| `DiscordUpdater.Client.Disconnect` | internal/discord/client.go:85-103 | the connection and what it showed are gone |
| `DiscordUpdater.Client.IsConnected` | internal/discord/client.go:190-194 | connected, and under the application id now configured |
| `DiscordUpdater.Client.SetActivity` | internal/discord/client.go:152-187 | one frame: accepted, unsent, or lost with the connection |
| `DiscordUpdater.Client.UpdatePresence` | internal/discord/client.go:106-132 | sends the payload as one activity frame and reports whether it went out |
| `DiscordUpdater.Client.ClearPresence` | internal/discord/client.go:135-149 | sends a null activity, or nothing when not connected under the configured id |
| `DiscordUpdater.Updater.DelayUpdate` | internal/discord/updater.go:236-266 | takes the protocol's Delay step |
| `DiscordUpdater.Updater.TimerFires` | internal/discord/updater.go:258-260 | the timer's callback queues for the mutex |
| `DiscordUpdater.Updater.ExecuteUpdate` | internal/discord/updater.go:269-315 | takes the Execute step with the payload mapped from the waiting state under the live settings |
| `DiscordUpdater.Updater.ImmediateUpdate` | internal/discord/updater.go:319-364 | takes the Immediate step with the payload mapped from the given state under the live settings, and remembers the state only if it was sent or cleared |
| `DiscordUpdater.Updater.ClearPresence` | internal/discord/updater.go:367-385 | takes the Clear step |
| `DiscordUpdater.Updater.Heartbeat` | internal/discord/updater.go:165-199 | takes the Beat step |
| `DiscordUpdater.Updater.StartReclaimBurst` | internal/discord/updater.go:216-222 | heartbeating, a full burst, the reclaim period unless the burst is empty |
| `DiscordUpdater.Updater.StopHeartbeat` | internal/discord/updater.go:226-232 | not heartbeating, no burst left, the normal period |
| `PresenceLoop.LoopInvAlways` | internal/daemon/daemon.go:203-345 | the loop's invariant holds along every interleaving with timers, ticker, client and pause callers |
| `PresenceLoop.NoTimerOutsideConnectedMode` | internal/daemon/daemon.go:246-344 | in every run, outside connected mode no timer is armed |
| `PresenceLoop.StateChangeIsDebounced` | internal/daemon/daemon.go:321-329 | in connected mode a state change is scheduled unless it is the remembered state, and nothing else changes |
| `PresenceLoop.SettingsShowAtOnce` | internal/daemon/daemon.go:331-336 | in connected mode a settings change puts one real frame on the wire |
| `PresenceLoop.NothingOutsideConnectedMode` | internal/daemon/daemon.go:325-336 | outside it neither does anything |
| `PresenceLoop.ReconnectEdgeResends` | internal/daemon/daemon.go:257-262 | Discord coming up resends in connected mode, once per edge and on no other reading |
| `PresenceLoop.ReconcileDecides` | internal/daemon/daemon.go:287-307 | the mode after a reconcile, with one send on entering and one clear on leaving |
| `PresenceLoop.PausedReconcileClears` | internal/daemon/daemon.go:249-254 | a reconcile that reads the flag set ends cleared, clearing at most once |
| `PresenceLoop.NoPauseIsLost` | internal/daemon/daemon.go:134-142 | a stored pause not yet read always has a wake-up pending; at rest the flag has been read and a set one means cleared |
| `PresenceLoop.EveryPauseIsHeld` | internal/daemon/daemon.go:246-344 | in every run whose clears find no callback in flight: outside connected mode no timer is armed, no callback waits and nothing is defended, and every reconcile that reads the flag set ends held, cleared already or not |
| `PresenceLoop.AtomicTimersLeaveNoCallback` | internal/daemon/daemon.go:246-344 | with timer firing atomic every clear finds no callback in flight |
| `PresenceLoop.PauseIsHeld` | internal/daemon/daemon.go:249-254 | the clear that answers a pause enters the held state when no callback is waiting |
| `PresenceLoop.NothingIsSentWhileHeld` | internal/daemon/daemon.go:246-344 | from then until a reconcile reads the flag unset nothing at all is transmitted |
| `PresenceLoop.PauseIsSilent` | internal/daemon/daemon.go:246-344 | with atomic timers, from any reconcile that read the flag set until one that reads it unset nothing is transmitted |
| `PresenceLoop.PauseClearIsSilentExactly` | internal/daemon/daemon.go:249-254 | in any state, the clear that answers a pause silences it if and only if no callback waits as it is made |
| `PresenceLoop.PauseIsSilentExactly` | internal/daemon/daemon.go:246-344 | in any state the invariant allows, a pause read and answered is silent until lifted if and only if no callback waits and none that ran late left a presence to defend |
| `PresenceLoop.PausedShowsNothing` | internal/daemon/daemon.go:246-344 | under one application id and atomic timers, whatever fails on the wire: at rest and paused, Discord shows nothing and nothing is armed, waiting or defended |
| `PresenceLoop.LateCallbackOutlivesThePause` | internal/daemon/daemon.go:249-254 | from every connected state with an armed timer there is a run that ends paused, cleared and with a presence on show and defended |
| `Daemon.Daemon.SetPaused` | internal/daemon/daemon.go:136-142 | stores the given flag, then leaves one token in the signal channel |
| `Daemon.Daemon.HoldCleared` | internal/daemon/daemon.go:250-253 | clears unless cleared already |
| `Daemon.Daemon.ResendOnReconnect` | internal/daemon/daemon.go:256-262 | the reconnect edge resends in connected mode only |
| `Daemon.Daemon.FollowRiot` | internal/daemon/daemon.go:287-307 | connected mode exactly while the Riot Client is up and not stalled, sending on entry only if Discord is up |
| `Daemon.Daemon.Reconcile` | internal/daemon/daemon.go:246-314 | one reconcile is the machine's run of its acts, ending cleared when paused, down or stalled and connected otherwise |
| `Daemon.Daemon.OnState` | internal/daemon/daemon.go:321-329 | in connected mode a state not remembered is what the timer holds next; otherwise the updater is left alone |
| `Daemon.Daemon.OnConfig` | internal/daemon/daemon.go:331-336 | in connected mode an accepted visible payload is the next frame and what shows; otherwise nothing happens |
| `RiotRegistry.RemoveLastUndoesAdd` | internal/riotclient/events.go:102-118 | removing the last handler undoes the add before it exactly, order included |
| `RiotRegistry.AddMeaning` | internal/riotclient/events.go:79-92 | a handler goes behind those of its name and a new name behind the others; no other name notices |
| `RiotRegistry.AddKeepsWellFormed` | internal/riotclient/events.go:79-92 | names without repeats, exactly the names with handlers, no empty handler list |
| `RiotRegistry.RemoveLastKeepsWellFormed` | internal/riotclient/events.go:104-118 | the same |
| `RiotRegistry.Registry.AddHandler` | internal/riotclient/events.go:79-92 | the registry after an add, and whether the name was new |
| `RiotRegistry.Registry.RemoveLastHandler` | internal/riotclient/events.go:104-118 | the registry after a removal |
| `RiotTransport.GenerationsStep` | internal/riotclient/client.go:131-207 | every step keeps one generation alive at a time |
| `RiotTransport.SubscriptionsStep` | internal/riotclient/socket.go:15-46 | every step keeps the live socket's frames in step with the registry |
| `RiotTransport.LiveSocketCarriesTheRegistry` | internal/riotclient/client.go:154-163 | in every mix of subscribes, failures, connects, disconnects and drops: with the lock free, the live socket carries every registered name exactly once, in order |
| `RiotTransport.FailedSubscribeLeavesNothing` | internal/riotclient/socket.go:41-44 | a subscribe whose frame fails leaves the registry as it was |
| `RiotTransport.ChannelsCloseOnce` | internal/riotclient/client.go:164-174 | each connection's channel is closed exactly once, older ones all closed, and the flag is up only while the newest is open |
| `RiotTransport.OnlyTheNewestListenerLowersTheFlag` | internal/riotclient/socket.go:97-99 | in every run only the newest connection's listener can lower the flag |
| `RiotTransport.ConnectGoesThrough` | internal/riotclient/client.go:131-178 | a connect that meets no failure ends with the whole registry on a new socket, its listener running and the flag up |
| `RiotTransport.WithoutTheWaitTheFlagIsLost` | internal/riotclient/client.go:137-139 | published over a running listener, a connection loses its flag to it |
| `RiotClient.Client.Connect` | internal/riotclient/client.go:131-178 | the whole new state for every outcome: nothing found, replay failed part-way, connected |
| `RiotClient.Client.Open` | internal/riotclient/client.go:151-177 | the new socket replayed and listening, or torn down with its channel closed after the first failing frame |
| `RiotClient.Client.Disconnect` | internal/riotclient/client.go:181-196 | the socket is taken away, then the flag lowered |
| `RiotClient.Client.ListenerExits` | internal/riotclient/socket.go:97-114 | the flag goes down and the channel is closed, once |
| `RiotClient.Client.ReplaySubscriptions` | internal/riotclient/socket.go:75-82 | every registered name in order, up to the first failing write |
| `RiotClient.Client.Subscribe` | internal/riotclient/socket.go:15-46 | registered and, if the name is new and a socket is up, sent; on failure nothing stays |
| `Supervisor.EveryRunIsInTheLanguage` | internal/daemon/supervisor.go:74-118 | the observed part of every run is a trace of the language |
| `Supervisor.NoReadyGateNoConnect` | internal/daemon/supervisor.go:80-88 | with a gate that never answers ready there is no connect attempt |
| `Supervisor.ReadyGateConnects` | internal/daemon/supervisor.go:80-90 | a ready gate, or none, leads straight to the attempt |
| `Supervisor.NotReadyWaits` | internal/daemon/supervisor.go:82-87 | a gate that is not ready costs a full wait and another turn |
| `Supervisor.FailedConnectWaits` | internal/daemon/supervisor.go:95-100 | so does a failed attempt |
| `Supervisor.ConnectOpensSession` | internal/daemon/supervisor.go:102-106 | a successful one calls back and is polled |
| `Supervisor.SessionLasts` | internal/daemon/supervisor.go:143-157 | a session goes on exactly while the polls answer yes, then is torn down and tried again |
| `Supervisor.CancellationEnds` | internal/daemon/supervisor.go:76-115 | a cancellation ends the run wherever it is noticed, after the teardown if a session is open |
| `Supervisor.ConnectFollowsReadyGate` | internal/daemon/supervisor.go:80-90 | with a gate every connect attempt directly follows a ready answer |
| `Supervisor.OneTeardownPerSuccess` | internal/daemon/supervisor.go:102-117 | between a success and the next attempt: the connect callback, one Disconnect, the disconnect callback, each once and in that order |
| `Supervisor.BetweenSessions` | internal/daemon/supervisor.go:74-117 | after a teardown nothing of a session happens before the next success |
| `Supervisor.UpOnlyInSession` | internal/daemon/discord_supervisor.go:46-67 | the last of the two callbacks is the connect one exactly inside a session |
| `Supervisor.Supervisor.Run` | internal/daemon/supervisor.go:74-118 | the retry loop produces exactly the trace of its answers, returns only after a cancellation, and reports Connected exactly between the two callbacks |
| `Supervisor.Supervisor.WaitWhileConnected` | internal/daemon/supervisor.go:143-157 | polls until the loss or the cancellation, whichever is observed first |
| `Supervisor.Supervisor.Attempt` | internal/daemon/supervisor.go:90-117 | one attempt and the session it opens, torn down before it returns |
| `Supervisor.Supervisor.Session` | internal/daemon/supervisor.go:106-115 | an open session is polled until it ends and torn down before it is left |
| `Supervisor.Supervisor.AwaitGate` | internal/daemon/supervisor.go:75-88 | an attempt follows exactly when the context is alive and the gate, if any, answered ready |
| `Supervisor.Supervisor.Sleep` | internal/daemon/supervisor.go:161-171 | a full wait or a cancellation |
| `Supervisor.Supervisor.WrappedOnConnect` | internal/daemon/riot_supervisor.go:47-52 | raises the reported flag with the callback |
| `Supervisor.Supervisor.WrappedOnDisconnect` | internal/daemon/riot_supervisor.go:53-58 | lowers it with the other |
| `LatestValue.ReaderKeepsUp` | internal/state/manager.go:111-123 | under every reader interleaving values arrive at most once and in order, and the slot holds the newest or the reader has it |
| `LatestValue.OfferAlwaysLands` | internal/config/store.go:53-64 | the second non-blocking send never finds the slot full |
| `LatestValue.Slot.Replace` | internal/state/manager.go:114-121 | a stale value makes room for the newest: publish, drain and offer of the channel machine |
| `LatestValue.Slot.Receive` | internal/state/manager.go:85-99 | the reader takes what is there: the machine's Take step |
| `StateManager.PublicationsDiffer` | internal/state/manager.go:46-67 | consecutive publications are never equal and the last one is the current state |
| `StateManager.StampStep` | internal/state/manager.go:53-55 | one call keeps the stamp the time of the last phase change if and only if it changes the phase or its mutator leaves the stamp alone |
| `StateManager.OnlyTheStampIsOurs` | internal/state/manager.go:50-55 | the new state is the mutator's except for the stamp, which is the call's time on a phase change and the mutator's otherwise |
| `StateManager.StampIsLastPhaseChange` | internal/state/manager.go:46-67 | with such mutators the stamp is always the time of the last phase change |
| `StateManager.ResetMovesTheStamp` | internal/daemon/riotsource.go:79-83 | the reset on disconnect moves the stamp without a phase change |
| `StateManager.Manager.Apply` | internal/state/manager.go:46-67 | the new state, everything published, every subscriber's channel and the shared queue after a call, unchanged when nothing changed; it panics exactly when a change meets a closed shared queue |
| `StateManager.Manager.Broadcast` | internal/state/manager.go:102-123 | the newest publication goes to every subscriber's channel, each of which has then been handed every publication since it subscribed; the shared queue drops it when full and panics when closed |
| `StateManager.Manager.Updates` | internal/state/manager.go:70-81 | the shared queue exists from the first call on, closed if the manager is |
| `StateManager.Manager.ReceiveUpdate` | internal/state/manager.go:70-81 | the queue's reader takes the oldest state |
| `StateManager.QueueIsFifo` | internal/state/manager.go:102-109 | the shared queue hands over what it was given, in order, as long as it had room |
| `StateManager.FullQueueDropsTheNewest` | internal/state/manager.go:103-108 | a full one keeps what it has |
| `StateManager.Manager.Subscribe` | internal/state/manager.go:85-99 | a fresh slot, already closed and unregistered after Close |
| `StateManager.Manager.Close` | internal/state/manager.go:127-143 | the shared queue and every open slot are closed, the slots forgotten, values in flight kept, and none is closed twice |
| `ConfigStore.Store.Apply` | internal/config/store.go:40-67 | all or nothing: swapped in and published to every subscriber's channel, or nothing changes |
| `ConfigStore.Store.Subscribe` | internal/config/store.go:30-36 | one more empty slot |
| `Backoff.AfterIsCapped` | internal/riotclient/run.go:73-78 | with the maximum below 2^62 ns the wrapped doubling equals min·2^j capped, and stays between the bounds |
| `Backoff.CappedExactlyBelowTwo62` | internal/riotclient/run.go:73-78 | that closed form holds for all j if and only if the maximum is below 2^62 ns |
| `Backoff.WithDefaults` | internal/riotclient/client.go:76-81 | a positive minimum and a maximum not below it, given values kept when they already are |
| `Backoff.Run` | internal/riotclient/run.go:21-54 | the sleeps of the loop: before the doubling after a failed connect, after it on a drop, back to the minimum after a stable connection |
| `Backoff.SleepsAreBounded` | internal/riotclient/run.go:21-54 | every sleep of every run lies between the bounds and has the closed form |
| `Backoff.StreakMeaning` | internal/riotclient/run.go:45-49 | the doubling counts the failed and short-lived connections since the last stable one, or since the start |
| `Backoff.SleepAfterReset` | internal/riotclient/run.go:29-52 | after a reset a failure sleeps the minimum, a short-lived connection twice that |
| `Backoff.FailuresDouble` | internal/riotclient/run.go:29-35 | of two failures in a row the second sleeps twice the first, up to the maximum |
| `Decimal.AtoiOfItoa` | internal/riotclient/credentials.go:81-88 | parsing undoes printing on 64-bit integers and fails on all others |
| `Decimal.AtoiShape` | internal/riotclient/credentials.go:81-88 | a leading plus is accepted, and nothing but a leading sign and digits is |
| `Lockfile.SplitOfJoin` | internal/riotclient/credentials.go:68 | colon-free fields come back from their joined line |
| `Lockfile.JoinOfSplit` | internal/riotclient/credentials.go:68 | splitting loses nothing |
| `Lockfile.TrimMeaning` | internal/riotclient/credentials.go:63 | trimming drops white space at both ends, all of it and nothing else |
| `Lockfile.TruncatedFields` | internal/riotclient/credentials.go:60-68 | what any cut of a file, also inside a multi-byte space, does to its list of fields |
| `Lockfile.TruncationIsNeverMalformed` | internal/riotclient/credentials.go:60-74 | no prefix of a file that is not malformed is malformed |
| `Lockfile.TruncationIsRetriedOrPlaintext` | internal/riotclient/credentials.go:60-102 | every prefix of an accepted file is retried, gives the same credentials, or gives them over http |
| `Lockfile.TruncationOfPrinted` | internal/riotclient/credentials.go:60-102 | of a printed line only the whole gives its credentials, one byte short of https gives http, any other cut is retried |
| `Lockfile.RoundTrip` | internal/riotclient/credentials.go:62-102 | printing then parsing returns the credentials if and only if they are well formed |
| `Lockfile.ParsedIsWellFormed` | internal/riotclient/credentials.go:75-101 | whatever is parsed is well formed |
| `PresenceDecode.Fields.Push` | internal/riotchat/decode.go:159-163 | an absent container adds no scope |
| `PresenceDecode.Fields.Raw` | internal/riotchat/decode.go:165-173 | the key's value where it is found first |
| `PresenceDecode.ReadPrivate` | internal/riotchat/decode.go:98-130 | pushing the containers in order, then the top level, and reading the eighteen fields |
| `PresenceDecode.NestedReadsLikeFlattened` | internal/riotchat/decode.go:95-130 | any payload reads like the flat one its scopes pour into, earlier scopes on top |
| `PresenceDecode.MigrationPreservesPresence` | internal/riotchat/decode.go:95-130 | the fields of a flat payload spread over the containers in any way, repeats included, give the same presence |
| `PresenceDecode.PresenceReadsBack` | internal/riotchat/decode.go:109-129 | a presence written down under Riot's keys and spread in any way is read back field by field |
| `PresenceDecode.UnreadableIsZero` | internal/riotchat/decode.go:177-231 | a missing or mistyped value reads as its field's zero value, an unparseable time as the zero time |
| `PresenceDecode.FirstContainerWins` | internal/riotchat/decode.go:132-173 | for every key: the match container, then the party's, then the player's, then the top level |
| `PresenceDecode.Decode` | internal/riotchat/decode.go:24-81 | the loop over the entries computes the pick below, what it finds is the given player's, and an empty payload is no presence |
| `PresenceDecode.FoundIsOurs` | internal/riotchat/decode.go:48-75 | what is found is an entry with the player's id, of the Valorant product and with a blob, under that entry's name and tag |
| `PresenceDecode.FailureIsOurs` | internal/riotchat/decode.go:48-80 | a reported failure is such an entry's, too |
| `PresenceDecode.OwnEntryIsFound` | internal/riotchat/decode.go:60-75 | such an entry that decodes is found with its own blob's fields |
| `PresenceDecode.BlobReadsEitherWay` | internal/riotchat/decode.go:84-93 | the padded reading if there is one, else the unpadded one, else the padded error |
| `PresenceDecode.FirstDecodableWins` | internal/riotchat/decode.go:44-75 | the first decodable entry of ours is the answer, whatever failed before it |
| `PresenceDecode.LastFailureIsReported` | internal/riotchat/decode.go:77-80 | with none to decode, the last failure among ours is reported |
| `PresenceDecode.OnlyOursMatter` | internal/riotchat/decode.go:49-58 | entries with another id, of another product or without a blob never change the answer |
| `PresenceDecode.PickConcat` | internal/riotchat/decode.go:48-80 | a list read in two parts: the later part only mends what the earlier could not decode |
| `LogLines.Ring.constructor` | internal/logging/ring.go:21-26 | an empty ring of the given size, or of the default |
| `LogLines.Ring.Write` | internal/logging/ring.go:30-49 | the line without its trailing newlines is written last |
| `LogLines.Ring.RecentLines` | internal/logging/ring.go:52-65 | the last lines written, as many as fit, oldest first |
| `LogLines.TrimNewlines` | internal/logging/ring.go:31 | a prefix that ends in no newline, with only newlines cut off |
| `LogLines.AppendTwice` | frontend/src/lib/logTail.ts:12-16 | two batches are one batch under the cap |
| `LogLines.BatchIsOneByOne` | frontend/src/lib/logTail.ts:6-16 | a batch is its lines appended one at a time |
| `LogLines.DropHistoryOverlap` | frontend/src/lib/logTail.ts:20-27 | what is left of pending after the longest head history ends with |
| `LogLines.StitchIsExact` | frontend/src/lib/logTail.ts:18-27 | a snapshot and a subscription of one log are stitched exactly if and only if no longer overlap exists by accident |
| `LogLines.DistinctLinesStitch` | frontend/src/lib/logTail.ts:18-27 | lines that never repeat are always stitched exactly |
| `LogLines.RepeatedLineIsLost` | frontend/src/lib/logTail.ts:18-27 | a line logged twice with the seam between is shown once |

## Left out

- Pipes, sockets, HTTP, processes, the registry and the file system: steps that succeed or fail.
- JSON, base64 and time layouts: PresenceDecode starts from raw values and takes reading them as an object, a string, a number, a flag or a time as arbitrary functions.
- Upper-casing, case-insensitive comparison, the content catalogue and queue names: arbitrary functions, so the theorems hold for all of them.
- Real time, fairness and liveness: timers and tickers may fire at any moment or never, so nothing here says that something is eventually sent.
- What Discord does on its own: a pipe that breaks is taken to lose the activity it carried, and an accepted frame to be shown.
- Invalid UTF-8 in templates: template text is a sequence of code points. The lockfile, where truncation matters, is modelled byte by byte.
- The menu-screen and agent look-ups of the presence loop and their resolved flag: they only apply state changes, which here arrive as arbitrary states.
- The process polls behind the two supervisors and the stall threshold: the gate and the polled connection are answers, the stall a reading.
- Latest-value claims about the shared change queue: a full one drops the newest state, so the theorems are about subscriber slots only.
- Connecting the Discord client while it is connected: the source forgets the old pipe, the model too; the leaked pipe itself is not part of this model.
- Subscribers of the log ring: the lines that fan out are the ones recorded.
- Missing state or settings pointers, which the source maps to an empty payload, and the omission of a start stamp that is not positive: values here are never absent, and the payload carries the stamp itself.
- Frame parsing and dispatch of Riot events, the command-line fallback for credentials and the health check: single-branch library calls.
- Configuration validation and migration, updates, tray, windows and the React front end apart from the log tail: easy facts or library behaviour.
- Supervisor.Supervisor.Run: a run is observed as far as a finite script of answers goes, which covers every prefix of an endless run.
- RiotClient.Client.Connect: the class runs between lock sections, so its wait for the previous listener ends with that listener's exit; interleavings inside Connect are the transport machine's.
