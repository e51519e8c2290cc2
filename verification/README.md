# The council, verified

A panel of language-model personas debates a question in rounds, and a moderator sums up. The
backend streams every persona's words at once; the browser replays them one speaker at a time. The
program promises that this replay "changes cadence and order, never data". This project models the
whole path and proves the promise, together with the protocols around it.

- **Backend.** `Streams` and `Orchestrator` model the round loop, one goroutine per panelist, the
  provider's producer, the consumer and the context as a step relation over values. A schedule is
  any sequence of enabled steps. The provider is an arbitrary function of round, speaker and
  request to a finite run of deltas that may fail or be refused. `Transcripts` has the loops that
  write each prompt. `Grammar` says what the consumer receives, `Independence` why the schedule
  does not matter, and `Requests` writes out what every speaker is asked.
- **Player.** `DebatePlayers.DebatePlayer` is the class as the program has it, fields, timer and
  drain loop included. Each method is proved to take the corresponding step of `Playback`, the
  same machine on values, and the theorems are about runs of that machine: any interleaving of
  feeds, statuses, timer firings, skips and rate changes. `Replay` defines what a recording calls
  for, independently of the machine: the turns in seat order, then one ending. Logs are compared
  as atoms, one per code unit, so that two logs agree exactly when they differ only in how text is
  cut into tokens (per-persona errors and passed-through notices carry no atom).
- **Display.** `Reducer` is the fold the interface shows. `Display`, `Voice`, `Endings` and `Stage`
  relate what it shows to what was dispatched, and `Screens` reads it off the feed itself;
  `Skipping` and `Pacing` are about time; `Failures`, `Notices`, `Faults` and `Reports` about
  errors.
- **End to end.** `Feeding` says what the backend's stream records when it is fed, `EndToEnd`
  composes the two sides over a lossless ordered wire, and `Interrupted` does so for debates that
  are cancelled or cut off.
- **Admission.** `Limiter` is the token-bucket cache with its janitor, `Admission` the interleaved
  requests going through bucket, quota and semaphore.
- **Sessions.** `Sockets` is the hook, its clients and their sockets, with late callbacks.

Text is a sequence of UTF-16 code units. Time and rates are exact reals.

## Findings

- Evicting idle buckets is invisible to clients if and only if `ttl * rps >= burst`
  (`Limiter.EvictionTransparentIff`), and the bound on admissions per time window holds on all runs
  under exactly the same condition (`Limiter.WindowBoundIff`). Below it a concrete run (spend the
  burst, sweep after one ttl, spend it again) breaks both. A sweep may work with a tick's time that
  lies before requests already served.
- `Wakeup.ReadyIffStepWorks`: the moderator's park branch in `prepareNextTurn` is unreachable.
- A token with an empty delta creates a cell in the raw reducer. The player never dispatches one
  (`Display.NoEmptyTokens`), so in a session a cell is present exactly if it shows text
  (`Display.PresentIffShown`).
- The player keeps per-persona errors by persona alone, so errors are not replayed one for one: a
  panelist that fails in round 2 before its turn of round 1 was played loses its first failure for
  good (`Failures.FirstFailureNeverShown`). The exact law is `Failures.FailuresAreConserved`: every
  fed copy is replayed, still held, or overwritten by a later failure of its persona. In a finished
  session replay is one for one if and only if nothing was fed while it was still held
  (`Failures.OneForOneIff`); at most one failure of the panelist in the feed suffices
  (`Failures.OneFailureIsOneForOne`).

## Model

| member | source | states |
|---|---|---|
| `EndToEnd.DebateIsDisplayed` | frontend/src/state/debatePlayer.ts:193-428 | for every goroutine schedule of an uncancelled debate and every interleaving of its feed with timers, skips and rate changes that leaves no timer armed: each cell shows the first 200000 units of what its persona streamed in that round and nothing else is shown; the debate is done with the moderator's whole text as verdict, or has failed if the moderator's stream did |
| `EndToEnd.DebateCanBeWatched` | backend/internal/orchestrator/orchestrator.go:31-46 | the debate of any council can run to its end uncancelled, be fed, and be watched until no timer is left, so the theorem above is never vacuous |
| `EndToEnd.DebateIsRecorded` | backend/internal/orchestrator/orchestrator.go:31-134 | what any uncancelled schedule has delivered by its end is a settled feed whose recording holds every round, each cell's capped text and the moderator's outcome, with or without the close that follows |
| `Feeding.FeedDebate` | backend/internal/orchestrator/orchestrator.go:31-46 | feeding complete round blocks and the moderator's speech completes exactly rounds 1 to n and records either the verdict or the moderator's failure |
| `Feeding.RecordedText` | frontend/src/state/debatePlayer.ts:420-428 | capping after every append records the cap of everything said in the cell, however interleaved |
| `Interrupted.BackendFeedIsSettled` | backend/internal/orchestrator/orchestrator.go:31-62 | whatever is delivered at any point of any schedule, cancelled or not, is a settled feed; exactly the announced rounds are complete in it and its verdict is the one delivered |
| `Interrupted.InterruptedDebateIsDisplayed` | frontend/src/state/debatePlayer.ts:225-399 | wherever a schedule stands, cancelled or not, when the connection closes, and however the player is run until no timer is left: cells of announced rounds show all that was said in them, cut at the limit, no other panelist's cell shows anything, and the debate has failed unless the verdict was delivered |
| `Interrupted.AnnouncedRoundsAreWhole` | backend/internal/orchestrator/orchestrator.go:36-61 | while a debate is not cancelled, what it delivered of an announced round is each panelist's whole answer |
| `Faithful.QuiescentRunReplaysRecording` | frontend/src/state/debatePlayer.ts:275-399 | on a settled feed, a run that leaves no timer armed has dispatched exactly the replay its recording calls for, short only of the last speaker's deferred signals while the end is unknown; it is finished if and only if the end is known |
| `Faithful.ReplayIsConfluent` | frontend/src/state/debatePlayer.ts:176-242 | two runs on the same feed that leave no timer armed dispatch the same replay, whatever the timing, rates, skips and motion preference |
| `Faithful.RunExact` | frontend/src/state/debatePlayer.ts:302-386 | in every state of a run on a settled feed the snapshots are exactly the recorded texts, at the moderator and after it the turns are all the recording calls for, and once finished the log is its whole replay |
| `Screens.FeedDecidesText` | frontend/src/state/debatePlayer.ts:193-428 | on any settled feed, a run that leaves no timer armed shows of each panelist the capped text fed for a round, if that round and all before it were announced, of the moderator the capped text of its last round if there is a verdict, and nothing else |
| `Screens.FeedDecidesEnd` | frontend/src/state/debatePlayer.ts:343-399 | and it is done with the last verdict fed; failed with the session's error, or the close, dispatched; or not over, if none of them was fed |
| `Screens.FailureIsExplained` | frontend/src/state/debateReducer.ts:108-171 | a session that has failed shows why: the session error in its own words, or that the connection closed before a verdict |
| `Screens.FeedDecidesSignals` | frontend/src/state/debatePlayer.ts:356-416 | a session that has ended has signalled the end of every round announced together with all before it, and of each panelist's turn in it, and of no others |
| `Screens.RecordedSignals` | frontend/src/state/debatePlayer.ts:193-243 | on any feed the recorded verdict, session error and moderator round are the last ones fed, and the close is recorded exactly if it was fed |
| `Sessions.RunInv` | frontend/src/state/debatePlayer.ts:275-428 | in every state of every session, even on an ill-formed feed: what was dispatched plus what is owed is the opened turns, which are the schedule's, in seat order, none twice and of complete rounds only |
| `Display.ShownIsRevealed` | frontend/src/state/debateReducer.ts:78-92 | in every such state a cell shows its turn's snapshot, `text[..pos]` of the active turn, or nothing; that is a prefix of the recorded text, and all the text the log carries for it, so the reducer's cap never cuts |
| `Display.NoEmptyTokens` | frontend/src/state/debatePlayer.ts:381-386 | no session, on any feed, dispatches a token without text |
| `Display.PresentIffShown` | frontend/src/three/robotVisualState.ts:37-50 | in every session a cell is present in the reducer's transcript exactly if it shows text |
| `Wakeup.ReadyIffStepWorks` | frontend/src/state/debatePlayer.ts:136-164 | `hasReadyWork` holds exactly when a step would dispatch something or move the schedule; otherwise the step parks, or stays stopped; the moderator's park is never reached |
| `Wakeup.ActAtRest` | frontend/src/state/debatePlayer.ts:193-284 | after every public call and every timer firing, no timer armed means no ready work; a skip disarms |
| `Wakeup.DrainAtLive` | frontend/src/state/debatePlayer.ts:176-188 | a drain ends with nothing ready and no turn active, and leaves rate and preferences alone |
| `Playback.StepProgress` | frontend/src/state/debatePlayer.ts:286-386 | every step that does not stop decreases (cursor kind, completed rounds left, seats left, turn open, text left) |
| `Playback.MaxRound` | frontend/src/state/debatePlayer.ts:434-438 | the largest completed round, 0 without any |
| `Playback.ClampRate` | frontend/src/state/debatePlayer.ts:116-118 | the multiplier itself from 0.5 to 4, else the nearer bound |
| `Skipping.SkipMatchesTimers` | frontend/src/state/debatePlayer.ts:166-188 | from any state at rest, skipping leaves the same player and the same folded display as letting the armed timers run dry, at live and with no timer |
| `Skipping.DrainFastOrSlow` | frontend/src/state/debatePlayer.ts:356-386 | revealing turns whole or chunk by chunk leaves the same player and the same folded display |
| `Voice.OneVoice` | frontend/src/state/debateReducer.ts:131-174 | at every point of every session's log at most one speaker is active, none once the phase is terminal, and the phase is "moderating" exactly when the moderator alone is active |
| `Voice.StopSilences` | frontend/src/state/debateReducer.ts:94-106 | a user's stop at any such point leaves nobody speaking, in phase "stopped" unless the debate was over already |
| `Voice.RunFloor` | frontend/src/state/debatePlayer.ts:302-416 | who holds the floor of the dispatched log is what the player's own fields say |
| `Stage.ViewsAgree` | frontend/src/three/robotVisualState.ts:52-99 | exactly the floor's holder talks and is framed; with nobody on the floor no robot talks and the camera stays wide unless the verdict is in |
| `Stage.StageFollowsPlayer` | frontend/src/three/cameraTarget.ts:44-58 | in every state of every session the talking robot is the one the camera frames, and the one whose turn the player has on stage |
| `Stage.OneRobotTalks` | frontend/src/three/robotVisualState.ts:87-99 | of all robots exactly the floor's holder talks, so one does if and only if the floor is held, and never two |
| `Stage.StageHasOneVoice` | frontend/src/three/robotVisualState.ts:87-99 | in every state of every session some robot talks if and only if the player's fields name a speaker, and it is that one |
| `Stage.SilentRobots` | frontend/src/three/robotVisualState.ts:37-99 | in every state of every session: each robot carries the round last heard of; panelists are dimmed exactly while the verdict is given and after it; a silent panelist has settled in a debate exactly if its text of that round is on display, and after it if any is, the moderator once it gave or was cut off in giving its verdict |
| `Reducer.FoldFollowsRounds` | frontend/src/state/debateReducer.ts:131-150 | the round on display is that of the last text or announcement in the log |
| `Endings.EndsOnceAndLast` | frontend/src/state/debatePlayer.ts:302-399 | whatever is fed, a session has at most one of verdict, session error and close, nothing of the replay follows it, and the player has stopped with no timer |
| `Endings.SilentAfterEnd` | frontend/src/state/debatePlayer.ts:275-303 | after the end no call replays anything more |
| `Endings.EndsOnTheBest` | frontend/src/state/debatePlayer.ts:343-399 | whenever a call of a session dispatches an ending, on any feed: a verdict is the recorded one, a session error comes only without a verdict, a close only without either |
| `Endings.CloseNeverBeatsVerdict` | frontend/src/state/debatePlayer.ts:388-399 | so whenever a call forwards a close, neither a verdict nor a session error has been fed by then |
| `Endings.OnlyCompleteRoundsShown` | frontend/src/state/debatePlayer.ts:136-141 | a panelist's text is shown only for rounds that were completed |
| `Endings.FoldEnds` | frontend/src/state/debateReducer.ts:108-174 | on an orderly log the displayed phase and verdict are those of the log's ending, and there is one exactly when the floor is over |
| `Failures.FailuresAreConserved` | frontend/src/state/debatePlayer.ts:208-219 | in every session, on any feed, copies of a per-persona failure replayed, still there, and overwritten while held add up to those fed |
| `Failures.NoFailureInvented` | frontend/src/state/debatePlayer.ts:366-372 | a per-persona failure is replayed no more often than it was fed, on any feed |
| `Failures.OneForOneIff` | frontend/src/state/debatePlayer.ts:208-219 | in a settled session that reached its end, for a panelist whose failures all fall in completed rounds, a failure is replayed as often as it was fed if and only if no failure of that panelist arrived while it was still held |
| `Failures.OneFailureIsOneForOne` | frontend/src/state/debatePlayer.ts:356-416 | at most one failure of the panelist in the feed suffices for that |
| `Failures.FirstFailureNeverShown` | frontend/src/state/debatePlayer.ts:217 | after the optimist fails in round 1 and, with that round announced but its turn unplayed, again in round 2, no continuation of the session ever shows the first failure |
| `Failures.LastFailureSurfaces` | frontend/src/state/debatePlayer.ts:356-416 | in a session that reached its end, the last failure fed for a panelist whose round got complete has been replayed before the end |
| `Notices.FailureFollowsOwnTurn` | frontend/src/state/debatePlayer.ts:366-416 | in every session, on any feed, a panelist's failure is replayed only after a turn of that same panelist has closed |
| `Reports.FailedPanelistIsReported` | backend/internal/orchestrator/orchestrator.go:97-110 | if a panelist's stream fails or is refused in any round of an uncancelled debate, every run of the player that leaves no timer armed has dispatched that failure |
| `Reports.FailedPanelistIsShown` | frontend/src/state/debateReducer.ts:73-76 | and with at most fifty faults fed, "stream failed" stands under that panelist's name among the errors on display |
| `Faults.SessionTells` | frontend/src/state/debateReducer.ts:73-76 | at every point of every session, on any feed, the errors on display are the last fifty notices of the log in order: each error in its own words or the default's, each transport fault, the early close |
| `Faults.NoNoticeInvented` | frontend/src/state/debatePlayer.ts:193-248 | in every session, on any feed, there are no more notices than faults fed |
| `Faults.FewFaultsAreAllShown` | frontend/src/state/debateReducer.ts:73-76 | so with at most fifty faults fed every notice of the log is on display |
| `Faults.AsidesPassThrough` | frontend/src/state/debatePlayer.ts:225-248 | transport faults and advisory statuses are dispatched as fed, in order, none lost, repeated or made up |
| `Faults.TransportFaultIsShown` | frontend/src/state/debateReducer.ts:94-99 | with at most fifty faults fed, every transport fault fed is on display |
| `Pacing.InstantFeedTakesItsPrice` | frontend/src/state/debatePlayer.ts:116-130 | fed at one instant at constant rate, the timers run dry after exactly `(300 * chunks + 550 * panelist turns) / rate` ms, and the session is over |
| `Pacing.EndsInTime` | frontend/src/state/debatePlayer.ts:116-130 | the moment that finishes a session whose feed is complete comes no later than the last arrival, or than twice the session's price after it, under any arrivals, skips and rates |
| `Pacing.EndsWithinTwiceItsPrice` | frontend/src/state/debatePlayer.ts:275-284 | until then a timer is armed, due within that bound |
| `Pacing.PaidWithinPrice` | frontend/src/state/debatePlayer.ts:286-386 | no more than the session's price is ever played, and all of it by the end |
| `DebatePlayers.DebatePlayer.constructor` | frontend/src/state/debatePlayer.ts:75-110 | a new player is the fresh state and has dispatched nothing |
| `DebatePlayers.DebatePlayer.SetRate` | frontend/src/state/debatePlayer.ts:116-118 | the rate clamped to 0.5 to 4, nothing else changed |
| `DebatePlayers.DebatePlayer.IsAtLive` | frontend/src/state/debatePlayer.ts:152-164 | true exactly when no work is ready |
| `DebatePlayers.DebatePlayer.SkipToLive` | frontend/src/state/debatePlayer.ts:176-188 | terminates with no timer and no ready work; state and dispatches are those of the drain |
| `DebatePlayers.DebatePlayer.RunToLive` | frontend/src/state/debatePlayer.ts:181-186 | the drain loop steps until nothing is left, dispatching what the recursive drain does |
| `DebatePlayers.DebatePlayer.Feed` | frontend/src/state/debatePlayer.ts:193-222 | records the event and pumps, leaving the player at rest |
| `DebatePlayers.DebatePlayer.RecordEvent` | frontend/src/state/debatePlayer.ts:194-220 | tokens, rounds, verdict, session and per-persona errors each go where the scheduler looks for them |
| `DebatePlayers.DebatePlayer.FeedStatus` | frontend/src/state/debatePlayer.ts:225-243 | connecting resets, closed is recorded and pumped, anything else passes through |
| `DebatePlayers.DebatePlayer.FeedTransport` | frontend/src/state/debatePlayer.ts:246-248 | passes the notice through and changes nothing |
| `DebatePlayers.DebatePlayer.Reset` | frontend/src/state/debatePlayer.ts:251-270 | the fresh state but for the rate, dispatching nothing |
| `DebatePlayers.DebatePlayer.OnTimer` | frontend/src/state/debatePlayer.ts:279-282 | disarms and pumps, leaving the player at rest |
| `DebatePlayers.DebatePlayer.Pump` | frontend/src/state/debatePlayer.ts:275-284 | a no-op while a timer is armed, else one step, re-armed unless it parked or stopped |
| `DebatePlayers.DebatePlayer.Step` | frontend/src/state/debatePlayer.ts:286-295 | opens a turn if none is active and reveals in the same step |
| `DebatePlayers.DebatePlayer.PrepareNextTurn` | frontend/src/state/debatePlayer.ts:302-330 | opens the next turn on a snapshot of its text after flushing the last one's signals, hands over to the moderator, parks or stops |
| `DebatePlayers.DebatePlayer.PrepareModeratorTurn` | frontend/src/state/debatePlayer.ts:335-353 | synthesis turn, bare verdict, or recorded terminal signal |
| `DebatePlayers.DebatePlayer.RevealStep` | frontend/src/state/debatePlayer.ts:356-386 | one chunk of the active turn, or its closing with the signals deferred |
| `DebatePlayers.DebatePlayer.FinalizeTerminal` | frontend/src/state/debatePlayer.ts:393-399 | the session error if there is one, else the close |
| `DebatePlayers.DebatePlayer.FlushPending` | frontend/src/state/debatePlayer.ts:401-416 | dispatches done, round and errors in that order and forgets them |
| `DebatePlayers.DebatePlayer.RecordText` | frontend/src/state/debatePlayer.ts:420-428 | appends to the cell and caps it |
| `DebatePlayers.DebatePlayer.MaxPanelRound` | frontend/src/state/debatePlayer.ts:434-438 | the loop finds the largest completed round |
| `TextReveal.ChunkEnd` | frontend/src/lib/textReveal.ts:11-16 | strictly past its start, and the end of one word and all spaces that trail it |
| `TextReveal.NextChunkEnd` | frontend/src/lib/textReveal.ts:5-16 | the two scanning loops find that end |
| `TextReveal.ChunksPartition` | frontend/src/lib/textReveal.ts:11-16 | the chunks are non-empty and joined give back the text |
| `Protocol.CapAbsorbs` | frontend/src/state/debateReducer.ts:78-92 | capping after each append equals capping the whole |
| `Reducer.TokensMerge` | frontend/src/state/debateReducer.ts:131-145 | two tokens of one cell in a row change the display as their concatenation would |
| `Reducer.ChunkingIsInvisible` | frontend/src/state/debateReducer.ts:78-92 | any cutting of a text into tokens folds to what the one whole token does, past the cap too |
| `Orchestrator.NoSendAfterClose` | backend/internal/orchestrator/orchestrator.go:21-62 | in every reachable state nothing is delivered once the channel is closed, and at most `limit` goroutines run, 1 for a limit of 0 or less |
| `Orchestrator.FreeSlotIsUsed` | backend/internal/orchestrator/orchestrator.go:48-61 | and no fewer: while one waits to be spawned and fewer run than that, the next one can start, and then runs |
| `Orchestrator.NextOk` | backend/internal/orchestrator/orchestrator.go:31-62 | every step of every process keeps the invariant of round loop, tasks and pool |
| `Orchestrator.StepsShrink` | backend/internal/orchestrator/orchestrator.go:36-60 | every step brings the end closer by one lexicographic measure |
| `Orchestrator.NoEndlessRun` | backend/internal/orchestrator/orchestrator.go:31-62 | there is no infinite schedule, cancelled or not |
| `Orchestrator.SomeoneMoves` | backend/internal/ws/session.go:52-61 | until the channel is closed and every producer has exited some process other than the environment can move, whether the consumer reads on or has cancelled and left |
| `Orchestrator.RunsToItsEnd` | backend/internal/orchestrator/orchestrator.go:31-62 | any run can be brought to a closed channel and finished producers by its own processes alone, without cancelling it, and even if it is cancelled and the consumer has left |
| `Streams.TaskNextOk` | backend/internal/orchestrator/orchestrator.go:93-123 | every step of one stream keeps: tokens of the first deltas, then at most one terminator, a verdict being exactly their text |
| `Streams.WorkShrinks` | backend/internal/provider/fake.go:31-56 | every step of producer or forwarder uses up work |
| `Streams.TaskMoves` | backend/internal/orchestrator/orchestrator.go:136-143 | a running stream can always move while somebody reads or the context is done |
| `Grammar.StreamFollowsGrammar` | backend/internal/orchestrator/orchestrator.go:31-46 | every schedule, cancelled or not, delivers blocks of rounds 1, 2, ..., each an interleaving of the panelists' speeches and closed by its announcement, then at most one unfinished block, the moderator's after the last round |
| `Grammar.VerdictIsLast` | backend/internal/orchestrator/orchestrator.go:117-122 | a verdict is the last event of all and equals the concatenation of the moderator's tokens before it |
| `Independence.RequestsAreScheduleIndependent` | backend/internal/orchestrator/orchestrator.go:48-91 | in every reachable uncancelled state, what each begun stream was asked and the transcript are those of the debate run one round after another, whose requests `Requests` writes out |
| `Independence.IdealIgnoresLimit` | backend/internal/orchestrator/orchestrator.go:48-61 | that debate's requests and answers do not depend on the concurrency limit |
| `Independence.SameRequestUnderAnyLimits` | backend/internal/orchestrator/orchestrator.go:48-91 | two uncancelled schedules of one debate, under any two limits, ask the same of the same speaker in the same round |
| `Independence.SameSpeechUnderAnyLimits` | backend/internal/orchestrator/orchestrator.go:93-123 | and once both have ended, every panelist has said the same in every round |
| `Independence.UncancelledRunIsComplete` | backend/internal/orchestrator/orchestrator.go:93-134 | a finished uncancelled run delivered every speaker's full speech with its terminator in every round, and the moderator's |
| `Requests.FirstRequests` | backend/internal/orchestrator/orchestrator.go:64-70 | in every uncancelled schedule, under any limit, whoever was asked in round 1 was asked the question alone, with its own system prompt |
| `Requests.LaterRequests` | backend/internal/orchestrator/orchestrator.go:64-91 | in every uncancelled schedule, whoever was asked in a later round was asked the question, shown its own whole answer of the round before, and told to sharpen (odd rounds) or rebut (even ones) with all the others' whole answers of that round in seat order |
| `Requests.ModeratorRequests` | backend/internal/orchestrator/orchestrator.go:125-134 | in every uncancelled schedule the moderator was asked the question followed by every round's answers in order |
| `Requests.LaterRoundAsks` | backend/internal/orchestrator/orchestrator.go:64-91 | the same of the debate run one round after another, message by message |
| `Requests.SaidByProvider` | backend/internal/orchestrator/orchestrator.go:93-123 | what a panelist is quoted with is the whole text the provider answered it, under its own id and name |
| `Transcripts.SelectOthers` | backend/internal/orchestrator/transcript.go:31-43 | the latest round without the persona, in order |
| `Transcripts.FindOwn` | backend/internal/orchestrator/transcript.go:46-57 | the persona's first answer of the latest round, if any |
| `Transcripts.WriteAnswers` | backend/internal/orchestrator/transcript.go:59-69 | the loop writes the answers one after another |
| `Transcripts.WriteTranscript` | backend/internal/orchestrator/transcript.go:71-78 | the loop writes the rounds one after another |
| `Transcripts.OwnAndOthersPartition` | backend/internal/orchestrator/transcript.go:31-57 | with distinct ids, own answer and the others' split the latest round in two, the others in seat order |
| `Transcripts.OutsiderSeesAll` | backend/internal/orchestrator/transcript.go:31-57 | whoever did not speak in the latest round sees all of it and has no answer of its own |
| `Transcripts.LatestRoundIsRead` | backend/internal/orchestrator/transcript.go:31-57 | of a transcript just grown by a round with distinct ids, a panelist reads that round: its own answer, and the others' around it in seat order |
| `Transcripts.OutsiderReadsLatestRound` | backend/internal/orchestrator/transcript.go:31-57 | whoever did not speak in the appended round reads all of it and has no answer of its own |
| `Transcripts.FirstOwnAnswer` | backend/internal/orchestrator/transcript.go:31-57 | with an id that speaks twice in a round, its own answer is the first, and none of its own is among the others' |
| `Transcripts.SpokenAnswerReads` | backend/internal/orchestrator/transcript.go:59-69 | an answer with text reads "[name]: text" and an empty line |
| `Transcripts.SilentAnswerReads` | backend/internal/orchestrator/transcript.go:61-63 | an answer without text leaves no trace |
| `Transcripts.RoundsReadInOrder` | backend/internal/orchestrator/transcript.go:71-78 | a transcript reads as its rounds' answers one after another, without a header |
| `Limiter.EvictionTransparentIff` | backend/internal/ratelimit/limiter.go:43-89 | all runs of requests and sweeps are answered as without sweeps if and only if `ttl * rps >= burst` |
| `Limiter.WindowBound` | backend/internal/ratelimit/limiter.go:41-59 | with `ttl * rps >= burst`, in any window from s to t, across evictions, a client is admitted at most `burst + rps * (t - s)` times |
| `Limiter.WindowBoundIff` | backend/internal/ratelimit/limiter.go:43-89 | that bound holds on all runs and windows if and only if `ttl * rps >= burst` |
| `Limiter.BalanceAfter` | backend/internal/ratelimit/limiter.go:43-59 | a request is admitted exactly if its client has a whole token left, and then takes one; a refused request takes nothing |
| `Limiter.SweepForgets` | backend/internal/ratelimit/limiter.go:81-89 | after a sweep a client is remembered exactly if it was seen within the ttl, with its entry untouched |
| `Limiter.RateLimiter.Allow` | backend/internal/ratelimit/limiter.go:43-59 | a first request meets a full bucket, a later one its own; the entry is refreshed either way |
| `Limiter.RateLimiter.Sweep` | backend/internal/ratelimit/limiter.go:81-89 | the loop keeps exactly the entries seen within the ttl |
| `Admission.AdmissionIsConserved` | backend/internal/ratelimit/middleware.go:34-71 | over every interleaving: the semaphore holds exactly the requests inside the handler and never more than its capacity; each (client, day) row counts exactly the requests that passed the bucket and were stored; exactly the first `dailyLimit` of those pass the quota, so no more reach the handler |
| `Admission.MeterTakesAToken` | backend/internal/ratelimit/middleware.go:34-41 | in every reachable gate a request gets past the bucket if and only if its client has a whole token left at that time, and is turned away as too chatty otherwise |
| `Admission.NewcomerIsMetered` | backend/internal/ratelimit/limiter.go:43-52 | a client without an entry always gets past the bucket |
| `Admission.VerdictsAreAnswers` | backend/internal/ratelimit/middleware.go:34-41 | over every interleaving the bucket's verdicts are the limiter's answers to the requests and sweeps it saw, in order |
| `Admission.PastBucketIsAdmitted` | backend/internal/ratelimit/middleware.go:34-41 | a client's visits past the bucket are exactly as many as the limiter admitted |
| `Admission.BucketHoldsInWindow` | backend/internal/ratelimit/middleware.go:34-41 | with `ttl * rps >= burst`, in any window from s to t of any interleaving at most `burst + rps * (t - s)` visits of a client get past the bucket |
| `Admission.BusyOnlyWhenFull` | backend/internal/ratelimit/middleware.go:61-69 | a request is turned away as busy exactly when the handler holds a full house |
| `Admission.Store.CheckAndIncrement` | backend/internal/store/quota.go:28-36 | counts first, then compares; a refused request still counts, a failed statement does not |
| `Sockets.UseDebate.constructor` | frontend/src/state/useDebate.ts:23-36 | starts silent, with a player of its own |
| `Sockets.UseDebate.Ask` | frontend/src/state/useDebate.ts:56-69 | detaches every earlier socket, starts the player afresh and opens one new socket for the question, or reports the refusal and stays silent |
| `Sockets.UseDebate.Connect` | frontend/src/lib/wsClient.ts:88-95 | opens one socket, the only one with handlers, with nothing sent on it yet |
| `Sockets.HeardIn` | frontend/src/lib/wsClient.ts:96-111 | exactly a text frame of at most 262144 units that parses is heard as its event; a binary frame, one too large and one that does not parse are each reported as that |
| `Sockets.UseDebate.Dispose` | frontend/src/lib/wsClient.ts:133-143 | leaves no socket with handlers |
| `Sockets.UseDebate.Stop` | frontend/src/state/useDebate.ts:71-77 | dispatches the cancel and nothing else, and leaves nobody listening and nothing scheduled |
| `Sockets.UseDebate.Unmount` | frontend/src/state/useDebate.ts:80-86 | leaves nobody listening and nothing scheduled, dispatching nothing |
| `Sockets.UseDebate.GoToLive` | frontend/src/state/useDebate.ts:43-45 | the player's skip, and nothing at all while silent |
| `Sockets.UseDebate.OnTimer` | frontend/src/state/debatePlayer.ts:279-282 | the step the armed timer stands for; while nobody listens and nothing is scheduled it cannot go off |
| `Sockets.UseDebate.SetRate` | frontend/src/state/useDebate.ts:38-41 | only the rate changes, and a silent session stays silent |
| `Sockets.UseDebate.OnOpen` | frontend/src/lib/wsClient.ts:91-94 | heard only from the latest question's socket, on which the question then goes out; a silent session stays silent |
| `Sockets.UseDebate.OnMessage` | frontend/src/lib/wsClient.ts:96-111 | an event reaches the player only from the latest question's socket; a binary, oversized or unparsable frame is reported and changes nothing |
| `Sockets.UseDebate.OnError` | frontend/src/lib/wsClient.ts:117-119 | advisory, and heard only from the latest question's socket |
| `Sockets.UseDebate.OnClose` | frontend/src/lib/wsClient.ts:121-125 | heard once, from the latest question's socket, which it detaches |

## Left out

- `Failures.LastFailureSurfaces`: failures fed for a round that never completes are outside it and `Failures.OneForOneIff`; the player may never show them.
- `Faithful.ReplayIsConfluent`: compares logs without per-persona errors and passed-through notices, which depend on timing in the code.
- `Faithful.QuiescentRunReplaysRecording`: is about settled feeds (no panelist text for a round already complete, no synthesis after the verdict, nothing that changes the course of the session once its end is known); `Interrupted.BackendFeedIsSettled` proves all the backend's feeds settled, `Sessions.RunInv` covers the rest.
- `Orchestrator.SomeoneMoves`: the consumer may leave only after cancelling, which is what the session handler does.
- `Reports.FailedPanelistIsShown`: with more than fifty faults fed, the display keeps the last fifty, as the code does; `Faults.SessionTells` says which.
- `Pacing.EndsInTime`: punctual timers in exact virtual time; timer jitter is not modelled.
- `Sockets.UseDebate.OnMessage`: what the parser makes of a text frame is given with the frame. The end-to-end theorems are about feeds that arrive, so a verdict too large for one frame is outside them.
- HTTP, WebSocket, SQLite and JSON internals, and the provider's reading of upstream streams: the wire is lossless and ordered, the upsert atomic, a provider's answer a finite run of deltas.
- The rate library and errgroup are specified directly, as an exact token bucket and as a bounded spawn with a barrier.
- Floating point, `NaN` passed to `setRate`, wall clocks: rates and times are reals; clock readings and days are parameters.
- Input validation on either side (the client's checks are given as a built message or a refusal), prompt prose (the two round instructions are fields of the council), configuration, client-address parsing and logging.
- React and Three.js rendering, seat coordinates, animation, sound and the other small view hooks.
- Go's byte strings are taken as the code units the browser decodes them to.
- The two levels of the player's and the reducer's nested maps are one map keyed by persona and round.
- Reentrant or throwing dispatch callbacks, and feeding a player after a bare reset.
- The fields `turns`, `said`, `requests`, `blocks` and `dispatched` are histories kept for the proofs.
- `WsClient.close` and a second question on one client: the hook uses neither.
